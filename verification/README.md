# VirtualFlow ligand preparation: a Dafny model of the tooling core

This project models the pure logic inside the VirtualFlow for Ligand
Preparation (VFLP) tools and proves properties of it. It covers four parts:

- **Workunit partitioning** (`tools/vflp_prepare_workunits.py`). A single pass
  over the todo list packs collections into subjobs and subjobs into
  workunits: `Partitioner`.
- **Control-file handling** (`tools/vflp_prepare_folders.py`). This is the
  `key = value` parser with its tranche partition and mapping lines, the
  timeout defaults and the derived entries, the `check_parameters`
  validator, and the todo-list filter and descending sort: `ControlFile`,
  `TodoList`.
- **The per-ligand pipeline** (`tools/vflp_run.py`). It runs desalting,
  neutralization, stereoisomer and tautomer generation, then, per tautomer,
  protonation, tranche assignment, 3D conformation or plain PDB generation,
  the energy check and the target formats. Each stage appends to the
  `status_sub` audit trail. These live in `LigandFlow`, `TautomerFlow` and
  `Tranche`. The engine-output classifiers and parsers are in `Engines`. The
  remark block, the collection summary, the remote output path and the
  `is_*_used` predicates are in `Collection`.
- **The status report** (`tools/vflp_get_details.py`). This covers the
  workunits it visits, where it reads each collection's summary, and its
  tally of ligands, tautomers and `status_sub` categories: `Details`.

External programs never run in the model. Every cxcalc, obabel, obprop,
obenergy, molconvert or standardizer call is an uninterpreted `Run` value:
`TimedOut`, or `Exited(code, stdout, stderr)`. Where the source reads a
file the engine wrote, a `File` value stands for that file. The model
applies the source's own classifiers and parsers to these values. Storage,
object-store downloads, clocks and printing are left out. A fetched summary
is a parameter, and `None` marks one whose download failed.

Supporting modules:

- `Base`: `Option` and `Result`.
- `PyStr`: the Python `str` operations the tools rely on: whitespace
  `split()`, `split(sep)`, `split(sep, maxsplit)`, `splitlines()`, `strip()`,
  `count`, `replace`, `isnumeric`, `int()` and `str()`.
- `Sorting`: Python's stable `sorted(..., key=...)`.
- `Records`: the configuration and the ligand, stereoisomer and tautomer
  records the pipeline consults.

## Model

| member | source | states |
|---|---|---|
| Partitioner.ParseTodoLine | tools/vflp_prepare_workunits.py:197-202 | a readable todo line yields its first field as the key, the three "_" parts of that key, and its integer count |
| Partitioner.ReadLines | tools/vflp_prepare_workunits.py:195-202 | the lines are read in order up to the first one whose fields, key parts or count raise `ValueError`, and that line is reported |
| Partitioner.PartitionFile | tools/vflp_prepare_workunits.py:195-261 | the run over the raw file raises exactly when some line is malformed, at the first such line |
| Partitioner.PartitionFileSpec | tools/vflp_prepare_workunits.py:195-261 | a file of readable lines is partitioned as its parsed lines; at a malformed line only full workunits have been published, a prefix of what the lines before it publish |
| Partitioner.MakeEntry | tools/vflp_prepare_workunits.py:125-145 | the recorded collection carries the key's metatranche, tranche and collection name, the ligand count and the field names; in s3 mode it also carries the download location |
| Partitioner.DownloadPathComponents | tools/vflp_prepare_workunits.py:99-108 | the s3 download path `prefix/metatranche/tranche/name.txt.gz` splits on "/" back into its components |
| Partitioner.Put | tools/vflp_prepare_workunits.py:127-133 | storing a collection in a subjob appends a new key; for an existing key the length stays the same, one position holding that key takes the new value, and every other position is unchanged |
| Partitioner.PlaceContent | tools/vflp_prepare_workunits.py:204-234 | placing a collection not yet on the leftover pile adds exactly that collection to the unpublished subjobs and pile, and publishes nothing |
| Partitioner.PlaceSized | tools/vflp_prepare_workunits.py:205-234 | placing keeps every closed subjob at or above `ligands_todo_per_queue` with a big collection alone, and only small collections on the pile, whose count is their sum |
| Partitioner.SealIfFull | tools/vflp_prepare_workunits.py:237-242 | a workunit with `max_array_job_size` subjobs is published; the subjob index restarts at 0 and the workunit index advances |
| Partitioner.PartitionShape | tools/vflp_prepare_workunits.py:170-172 | every published workunit holds between one and `max_array_job_size` subjobs keyed exactly 0..n-1; all but the last are full; workunit indices run 1, 2, 3, ... |
| Partitioner.PartitionPlacesEachOnce | tools/vflp_prepare_workunits.py:195-258 | with distinct keys, the published subjobs plus the dropped zero-sum leftover pile hold exactly the input collections, each once |
| Partitioner.PartitionSubjobSizes | tools/vflp_prepare_workunits.py:205-234 | a collection at or above the floor is alone in its subjob, and every subjob except the final flushed leftover holds at least the floor |
| Partitioner.FinishContent | tools/vflp_prepare_workunits.py:252-261 | the final flush publishes everything still held, except a leftover pile whose counts sum to zero or less |
| ControlFile.ParseLine | tools/vflp_prepare_folders.py:45 | a line is a setting only if it starts with a word of `[a-zA-Z0-9_]`, then whitespace, "=", and a one-line value that is stored trimmed |
| ControlFile.ParseLineOf | tools/vflp_prepare_folders.py:45 | every line `key <ws> = <ws> value <ws>` reads back as exactly that key and trimmed value |
| ControlFile.CommentIgnored | tools/vflp_prepare_folders.py:45 | a line starting with "#" is never a setting |
| ControlFile.TrancheKeyOf | tools/vflp_prepare_folders.py:50 | every key `tranche_<type>_partition` or `tranche_<type>_mapping` is recognised, with its type and qualifier |
| ControlFile.BuildMappingLastWins | tools/vflp_prepare_folders.py:54-58 | in a mapping value, the last "from:to" pair with a given "from" decides its "to" |
| ControlFile.Apply | tools/vflp_prepare_folders.py:48-62 | a plain line overwrites its key, including a nested dictionary's slot; a tranche line raises exactly when its slot was overwritten or a mapping pair does not split in two, and otherwise keeps every plain value |
| ControlFile.RecordSlots | tools/vflp_prepare_folders.py:62 | a nested dictionary is replaced by text exactly when some earlier plain line names it |
| ControlFile.RecordErrors | tools/vflp_prepare_folders.py:50-62 | reading the file raises exactly when some setting breaks: a bad mapping pair, or a tranche line after a plain line replaced its slot |
| ControlFile.LastSettingWins | tools/vflp_prepare_folders.py:62 | the last setting of a plain key decides its value, and a key no line sets is absent |
| ControlFile.FirstMissing | tools/vflp_prepare_folders.py:64-68 | the first key the post-processing reads that the file did not set, or none when all are present |
| ControlFile.ParseConfig | tools/vflp_prepare_folders.py:35-93 | the configuration is produced exactly when reading raises nothing and all keys read at lines 64-68 are present; otherwise the error is the reading error or the missing key; the nested dictionaries are those the lines built |
| ControlFile.Derive | tools/vflp_prepare_folders.py:64-68 | the full output prefix is `<prefix>/<job_name>`, and the four list settings become their ":"-split lists |
| ControlFile.FinalizeSpec | tools/vflp_prepare_folders.py:64-90 | each timeout is the file's numeric value, or 30 when absent, empty or not numeric; the split lists and the full prefix are those of the file's values |
| ControlFile.DefaultTimeoutsSpec | tools/vflp_prepare_folders.py:81-90 | after the loop every listed timeout holds its converted value or the default, and every other key is untouched |
| ControlFile.TimeoutOf | tools/vflp_prepare_folders.py:82-90 | a timeout is the integer of a numeric text and 30 for a missing, empty or non-numeric one |
| ControlFile.CheckParameters | tools/vflp_prepare_folders.py:105-189 | the error flag is raised exactly when the configuration breaks a rule (both job names set, no threads, a bad storage mode, missing batch-system keys); `job_name` is copied into `job_letter` |
| ControlFile.UnsupportedBatchOnlyReported | tools/vflp_prepare_folders.py:185-186 | an unsupported batch system adds a message but never the error |
| ControlFile.RequireAll | tools/vflp_prepare_folders.py:142-167 | the error is raised after the checks exactly when it was before or some required key is empty |
| TodoList.LineEntry | tools/vflp_prepare_folders.py:251-255 | a line whose count text is a decimal numeral (0 included) becomes its first field with the converted count; any other line is dropped |
| TodoList.ValidEntries | tools/vflp_prepare_folders.py:251-256 | every kept entry comes from an accepted line, every accepted line is kept, and every other line is reported |
| TodoList.DictKeys | tools/vflp_prepare_folders.py:253 | the dictionary holds each key read exactly once |
| TodoList.DictLastWins | tools/vflp_prepare_folders.py:253 | a repeated key keeps the count of its last accepted line |
| TodoList.DictFirstOrder | tools/vflp_prepare_folders.py:253 | keys keep the order of their first accepted line |
| TodoList.SortDescSpec | tools/vflp_prepare_folders.py:257 | the written order has larger counts first, with equal counts in insertion order, and holds the same entries |
| TodoList.TodoRun | tools/vflp_prepare_folders.py:248-258 | the first line with fewer than two fields raises before anything is written; otherwise the file lists the deduplicated entries by descending count |
| TodoList.RenderLineRoundTrip | tools/vflp_prepare_folders.py:258 | each written line reads back in the workunit preparation as the same collection and count |
| Sorting.SortBySpec | tools/vflp_prepare_folders.py:257 | the stable sort orders by key and keeps every key class in input order |
| Sorting.SortByUnique | tools/vflp_prepare_folders.py:257 | any sequence ordered by key with the input's key classes is the sort's output |
| Engines.ChemaxonGeneral | tools/vflp_run.py:948-984 | a ChemaxOn run is accepted exactly when it finished in time with code 0, produced required output, and no logged line mentions "refused" or an error flag; the first offending line decides the error |
| Engines.ObabelGeneral | tools/vflp_run.py:1261-1288 | an obabel run is accepted exactly when it finished in time with code 0 and no logged line carries an error flag |
| Engines.StereoisomerLinesOf | tools/vflp_run.py:1053-1062 | the stereoisomers are the stdout lines, one each |
| Engines.TautomerSmilesOf | tools/vflp_run.py:1089-1100 | a last line `<input> <t1>.<t2>...` yields the tautomers t1, t2, ... |
| Engines.TabValueOf | tools/vflp_run.py:1127-1145 | a last line `<input>\t<value>` after at least one other line yields the value |
| Engines.HbxValueOf | tools/vflp_run.py:1377-1394 | the first stdout line's last whitespace field is the value |
| Engines.ObpropAttributesSpec | tools/vflp_run.py:1330-1373 | each known attribute reads the value of the last stdout line naming it, or "INVALID" |
| Engines.NonzeroPdbSpec | tools/vflp_run.py:815-829 | the coordinate check holds exactly when some stripped line starts with ATOM or HETATM |
| Engines.MolconvertConformation | tools/vflp_run.py:1176-1227 | the conformation succeeds exactly for an accepted run leaving a non-empty file with an atom record and a non-blank SMILES; only a blank SMILES crashes |
| Engines.ObabelPdb | tools/vflp_run.py:1410-1464 | PDB generation succeeds exactly for an accepted run leaving a non-empty file with an atom record and a non-blank SMILES; only a blank SMILES crashes |
| Engines.TargetFormat | tools/vflp_run.py:1521-1604 | PDB/PDBQT output must hold an atom record, every output must be non-empty, and a SMILES file with a blank first line crashes |
| Tranche.AssignIndex | tools/vflp_run.py:709-730 | letter index 0 up to the first boundary, `k+1` beyond the last, otherwise the first boundary the value does not exceed; index `k` is never produced |
| Tranche.AssignIndexMonotone | tools/vflp_run.py:709-730 | over ascending boundaries a larger value never gets an earlier letter |
| Tranche.AssignIndexFits | tools/vflp_run.py:709-730 | the 52 letters suffice for every value exactly when there are at most 50 boundaries |
| Tranche.AssignCharacterSpec | tools/vflp_run.py:709-730 | when all texts convert, the letter is the one at `AssignIndex`, and the only failure is an index beyond the alphabet |
| Tranche.PositiveChargeSpec | tools/vflp_run.py:757-759 | every "+" counts once and every "+2" once more |
| Tranche.NegativeChargeSpec | tools/vflp_run.py:761-763 | every "-" counts once and every "-2" once more |
| Tranche.FormalChargeSpec | tools/vflp_run.py:765-766 | the formal charge is the positive count minus the negative count |
| Tranche.SulfurCountSpec | tools/vflp_run.py:753-755 | every S counts except the one of each "Si" |
| Tranche.NOCountSpec | tools/vflp_run.py:747-751 | every N, O, n, o counts except the N of each "Na" |
| Tranche.HalogenCountSpec | tools/vflp_run.py:732-738 | the halogen count is the number of F and I characters plus the occurrences of "Cl" and "Br" |
| Tranche.ElectronegativeAtomCountSpec | tools/vflp_run.py:740-745 | all class characters, less the N of each "Na", plus one per "Cl", less both letters of each "Si" |
| Tranche.TypeValueUnsupported | tools/vflp_run.py:583-700 | exactly the types outside the supported list raise "not supported" |
| Tranche.AssignAllSpec | tools/vflp_run.py:577-705 | on success the tranche string has one letter per configured type, in order, with one remark per type, each what that type alone yields |
| Tranche.AssignAllDone | tools/vflp_run.py:577-705 | the assignment succeeds exactly when every type does |
| Tranche.AssignAllRaises | tools/vflp_run.py:768-772 | an unsupported type, a missing file attribute or a non-numeric value raises, so no tranche string is produced |
| Tranche.RotbObabelAlone | tools/vflp_run.py:583-700 | `rotb_obabel` without a type that runs obprop reads the empty attribute dictionary and raises `KeyError` |
| TautomerFlow.ProtonationInstance | tools/vflp_run.py:504-524 | "none" and unknown programs raise; an engine failure is returned and keeps the protomer |
| TautomerFlow.ProtonationGenerationSpec | tools/vflp_run.py:527-531 | protonation raises only when neither program is cxcalc or obabel; an engine failure never reaches the second program |
| TautomerFlow.ConformationInstance | tools/vflp_run.py:787-812 | "none" raises "no conformation program remaining", and any other invalid program raises "not valid" |
| TautomerFlow.ConformationGeneration | tools/vflp_run.py:779-784 | the second program runs exactly when the first raised, and its error is the one reported |
| TautomerFlow.Structure | tools/vflp_run.py:412-449 | the stage keeps the key and status and only appends conformation and PDB entries; it stops the tautomer only for an obligatory failed conformation or a failed PDB generation |
| TautomerFlow.EnergyStep | tools/vflp_run.py:453-461 | the check halts the run exactly when it is on and no PDB file was written; a rejection appends two failed entries |
| TautomerFlow.Targets | tools/vflp_run.py:461-490 | no target format stops the tautomer: a failing one is logged and the loop goes on |
| TautomerFlow.TargetsSpec | tools/vflp_run.py:461-490 | every configured format contributes exactly its entry, in order, success or failure |
| TautomerFlow.ProcessTautomerSpec | tools/vflp_run.py:363-496 | the trail is append-only and in stage order, the key never changes, a finished tautomer is "success" and a stopped one keeps its status |
| TautomerFlow.StopCauses | tools/vflp_run.py:365-453 | only an obligatory stage stops a tautomer: protonation, tranche assignment, conformation, PDB generation or the energy check |
| TautomerFlow.ObligatoryProtonation | tools/vflp_run.py:365-390 | obligatory protonation with no valid program stops the tautomer with one failed entry |
| TautomerFlow.EnergyRejected | tools/vflp_run.py:453-461 | a tautomer whose energy is rejected never becomes "success" |
| TautomerFlow.EnergyRejectedTrail | tools/vflp_run.py:453-461 | a rejected tautomer's trail ends with the two failed energy-check entries |
| TautomerFlow.MissingPdbHalts | tools/vflp_run.py:1483-1490 | with the energy check on and conformation neither "true" nor "false", the run ends opening the missing PDB file |
| TautomerFlow.FinishedTrail | tools/vflp_run.py:461-496 | a finished tautomer carries a successful tranche-assignment entry and ends with one entry per target format, in order |
| TautomerFlow.ConformationLoggedTrue | tools/vflp_run.py:427 | a successful conformation is logged with the state "true", not "success", and no PDB generation follows |
| LigandFlow.Desalt | tools/vflp_run.py:262-294 | one fragment is kept "untouched"; of n > 1 fragments the kept one is element 1 of the stably length-sorted list, with a "genuine" entry and n recorded; with desalting off the first token passes through |
| LigandFlow.DesaltKeepsSecond | tools/vflp_run.py:277-285 | the kept fragment is the second of any stable ordering of the fragments by length |
| LigandFlow.DesaltTwo | tools/vflp_run.py:277-285 | of two fragments the longer is kept, and of two equally long ones the second |
| LigandFlow.NeutralizationEntrySpec | tools/vflp_run.py:303-327 | the standardizer runs exactly in "always" mode, after genuine desalting in "only_genuine_desalting", and after genuine desalting of a SMILES with "-]" or "+]" in the third mode; otherwise the entry is "untouched" and the SMILES is the desalted one |
| LigandFlow.StereoisomerGeneration | tools/vflp_run.py:338-348 | a success yields at least one stereoisomer; with generation off the neutralized SMILES is the only one and no entry is added |
| LigandFlow.TautomerGeneration | tools/vflp_run.py:351-360 | a success yields at least one tautomer; with generation off the stereoisomer is the only one and no entry is added |
| LigandFlow.KeysInjective | tools/vflp_run.py:148-170 | `<ligand>_S<i>_T<j>` keys at distinct positions differ |
| LigandFlow.TautomerLoopKeys | tools/vflp_run.py:222-246 | tautomer j of a stereoisomer sits at position j and is keyed `<stereoisomer>_T<j>` |
| LigandFlow.ProcessStereoisomerSpec | tools/vflp_run.py:194-256 | a stereoisomer fails only when obligatory tautomerization failed, and then has no tautomers; otherwise it is "success" with one tautomer per SMILES |
| LigandFlow.StereoisomerKeys | tools/vflp_run.py:222-246 | the tautomers of a stereoisomer are its positions 0, 1, ... keyed by position |
| LigandFlow.StereoLoopKeys | tools/vflp_run.py:143-177 | stereoisomer i is keyed `<ligand>_S<i>`, and tautomers are keyed by their two positions in increasing order |
| LigandFlow.ProcessLigand | tools/vflp_run.py:60-187 | a processable ligand never raises: every ligand-level engine failure is caught and recorded |
| LigandFlow.LigandTrailStart | tools/vflp_run.py:88-120 | the ligand's trail starts with the desalting entries and then the neutralization entry |
| LigandFlow.ProcessLigandStatus | tools/vflp_run.py:88-137 | a ligand fails exactly when an obligatory ligand-level stage failed, and then has no stereoisomers or tautomers; otherwise it is "success" whatever its tautomers did |
| LigandFlow.SuccessIsLoop | tools/vflp_run.py:143-184 | a successful ligand's stereoisomers and tautomers are those of the stereoisomer loop over its generated lines |
| LigandFlow.LigandKeysDistinct | tools/vflp_run.py:148-170 | no two tautomers of a ligand share a key, so none overwrites another |
| Collection.GenerateRemarks | tools/vflp_run.py:832-865 | the block is produced exactly for mol2, pdb and pdbqt, and any other format raises |
| Collection.RemarkPartsShape | tools/vflp_run.py:846-862 | every remark line starts with the format's prefix and carries a non-empty text; empty texts and list items are skipped |
| Collection.RemarkPartsAgree | tools/vflp_run.py:846-862 | only the named remarks in the order matter; an absent remark, an empty text and a list of empty items are interchangeable |
| Collection.RemarksRoundTrip | tools/vflp_run.py:864-865 | splitting the block at its newlines gives back the remark lines |
| Collection.GenerateRemotePath | tools/vflp_run.py:2069-2100 | an unknown format raises before the prefix is read, and an unknown storage mode with a valid format crashes with `UnboundLocalError` |
| Collection.RemotePathFormats | tools/vflp_run.py:2069-2100 | both formats name `<prefix>/complete/<type>/<metatranche>/<tranche>/<name>`, differing only in the extension, with the storage mode's prefix |
| Collection.RemotePathRoundTrip | tools/vflp_run.py:2069-2100 | when no component holds "/", the path splits back into its six components, the name with its extension |
| Collection.SummaryKeys | tools/vflp_run.py:1943-1959 | a key is in the summary exactly when some task result carries it, and keys are unique |
| Collection.SummaryLastWins | tools/vflp_run.py:1943-1959 | a repeated ligand key keeps the summary of its last task result |
| Collection.CxcalcUnused | tools/vflp_run.py:1641-1655 | when cxcalc is not used, the cxcalc runs make no difference to tautomer generation and protonation |
| Collection.MolconvertUnused | tools/vflp_run.py:1657-1664 | when molconvert is not used, its run and file make no difference to the 3D structure stage |
| Collection.ProcessedNeedsNailgun | tools/vflp_run.py:1666-1674 | every ligand the pipeline gets through needs Nailgun, since it needs the standardizer |
| Details.CountEntryGet | tools/vflp_get_details.py:194-205 | one `status_sub` entry registers its category and adds one to its success or its failure count |
| Details.CountEntriesSpec | tools/vflp_get_details.py:194-205 | the success count of a category grows by its "success" entries and the failure count by its other entries |
| Details.CountEntriesOrder | tools/vflp_get_details.py:196-199 | a category is known after counting exactly when it was before or some entry has it |
| Details.TallyBalance | tools/vflp_get_details.py:194-205 | for every category, success plus failed equals the number of its entries |
| Details.TrueCountsAsFailed | tools/vflp_get_details.py:202-205 | an entry with the state "true", as written for a successful conformation, counts as failed |
| Details.CollectionsStepSpec | tools/vflp_get_details.py:175-205 | original is the number of ligand keys, expanded the number of tautomers, successful those with status "success", and the tally counts their trails in order |
| Details.SuccessfulAtMostExpanded | tools/vflp_get_details.py:169-191 | per subjob, successful ≤ expanded, and original equals the number of ligand keys of the fetched summaries |
| Details.MissingSummaryIgnored | tools/vflp_get_details.py:175-181 | a summary that could not be fetched changes nothing, wherever it sits |
| Details.SubjobReport | tools/vflp_get_details.py:166-211 | a counts line appears exactly for SUCCEEDED/FAILED subjobs, and only unprocessed ones are tallied |
| Details.WorkunitsReport | tools/vflp_get_details.py:147-164 | the report ends early exactly when a visited workunit has no status |
| Details.Visited | tools/vflp_get_details.py:135-152 | an unknown first workunit ends the report; without an end ID only the first is visited; `ValueError` exactly when `int()` rejects the first or the end ID |
| Details.VisitedRange | tools/vflp_get_details.py:141-152 | with an end ID, a workunit is visited exactly when its key is the decimal form of an integer from the first to the end ID |
| Details.IdRangeHas | tools/vflp_get_details.py:142-148 | an ID is in the range exactly when it is the decimal form of an integer from the first ID to the end ID, inclusive |
| Details.UnderscoreEndVisited | tools/vflp_get_details.py:141-142 | an end ID "1_0" is read as 10, so workunits 1 to 10 are visited |
| Details.Process | tools/vflp_get_details.py:99-214 | a bad range ends the report with the range's error; otherwise it ends early exactly when a visited workunit has no status, and else holds one line per subjob of the visited workunits and the tally of all their tallied entries |
| Details.ProcessBalance | tools/vflp_get_details.py:147-214 | over the whole report, each category's success plus failed count equals its number of entries among all tallied subjobs, and there is one line per visited subjob |
| Details.SubjobReportSpec | tools/vflp_get_details.py:166-211 | one subjob's line is read off its fetched summaries, and only its tallied entries are added |
| Details.SubjobsReportSpec | tools/vflp_get_details.py:166-211 | the subjob loop appends one line per subjob and tallies their entries in order |
| Details.WorkunitsReportSpec | tools/vflp_get_details.py:147-211 | a report that does not end early holds the lines and the tally of the subjobs of the visited workunits, in order |
| Details.StatusPathMatchesWriter | tools/vflp_get_details.py:227-238 | the report reads each summary where the pipeline writes it: the status output of the remote path in object-store mode |
| Details.StatusInfoPathAsWritten | tools/vflp_get_details.py:229 | the path as written reads the misspelled key, and a configuration without it raises `KeyError` |
| Details.MisspelledKeyMissing | tools/vflp_get_details.py:229 | for every control file that parses and does not set the misspelled key, the path raises `KeyError` |
| Details.StatusInfoPathFixed | tools/vflp_get_details.py:229 | the path read with the key the configuration holds |
| Details.FixedKeyFound | tools/vflp_get_details.py:229 | for every control file that parses, the corrected read yields the path under `<output prefix>/<job name>` |
| PyStr.SplitJoinSpace | tools/vflp_run.py:191 | whitespace-splitting a single-space join of spaceless tokens gives them back |
| PyStr.SplitSepJoin | tools/vflp_prepare_folders.py:65-68 | splitting a join of separator-free parts gives the parts back |
| PyStr.SplitLinesJoin | tools/vflp_run.py:1053-1062 | newline-terminated lines split back into themselves |
| PyStr.ReplaceCharCount | tools/vflp_run.py:732-755 | each replacement trades its pattern's copies of a character for those of the replacement |
| PyStr.ParseNatToString | tools/vflp_get_details.py:147-149 | reading back the decimal form of a number gives that number |
| PyStr.IntToStringParse | tools/vflp_get_details.py:142-148 | `int(str(i)) == i` for every integer |
| PyStr.DigitsParseInt | tools/vflp_prepare_workunits.py:202 | a plain digit string is accepted by `int()` and read as its value |
| PyStr.PaddedParseInt | tools/vflp_get_details.py:142 | whitespace around a literal does not change what `int()` reads |
| PyStr.UnderscoreRead | tools/vflp_get_details.py:142 | `int("1_0")` is 10 |
| PyStr.DoubledUnderscoreRejected | tools/vflp_get_details.py:142 | `int("1__0")` raises |
| PyStr.LeadingUnderscoreRejected | tools/vflp_get_details.py:142 | `int("_1")` raises |

## Left out

- Subprocesses, Nailgun, temporary files, object-store and shared-filesystem I/O, gzip/json/tar/csv, `multiprocessing`, timers, `datetime`, logging and printing. Engines are `Run`/`File` values, and the `seconds` and `timers` fields of the records are not kept.
- The energy check is a three-state oracle (`Pass`, `Reject(lines)`, `EnergyTimedOut`). Parsing obenergy's output and the kcal to kJ conversion are not modelled.
- `float()` in `assign_character` is a parameter `string -> Option<real>`. The numeric-text test is the character predicate of the source's regular expression.
- Remark aliasing between ligand, stereoisomers and tautomers (tools/vflp_run.py:161, 237) is not modelled; `generate_remarks` is a pure function of a given remark map. The PDB header rewriting loops are file rewriting and are left out.
- The summary build drops `intermediate_dir` and `pdb_file` from each tautomer (tools/vflp_run.py:1957-1959). The model's tautomer records never carry those fields.
- tools/vflp_get_failed_logs.py, tools/helper/vf/CxCalcAttr.java and `main()` of tools/vflp_prepare_folders.py are not part of this model.
- LigandFlow.ProcessLigand: requires neutralization on (`Processable`). With it off, tools/vflp_run.py:331 reads `longest_fragment`, which no stage sets, and raises. It also requires a non-blank SMILES and `TrancheKnown`, as below.
- TautomerFlow.ProcessTautomer: requires tranche assignment on when target formats are configured (`TrancheKnown`). Otherwise tools/vflp_run.py:480 reads `tranche_string`, which was never set.
- LigandFlow.Desalt: requires a SMILES with a non-blank character. The `split()[0]` at tools/vflp_run.py:191 raises `IndexError` on a blank one.
- The desalting failure branch (tools/vflp_run.py:288-290) is dead code: splitting on "." always yields at least one fragment.
- Collection.IsCxcalcUsed: follows the source, so it ignores cxcalc runs for stereoisomer generation and tranche assignment, as the source's own comment admits.
- PyStr.Split: whitespace is ASCII whitespace plus \x1c-\x1f, \x85 and \xa0. Python also splits on U+1680, U+2000-U+200A, U+2028, U+2029, U+202F, U+205F and U+3000; for example, `"a\u2028b"` is one field here and two in Python.
- PyStr.Strip: uses the same whitespace set as `Split`, so it keeps the Unicode spaces Python strips.
- ControlFile.TimeoutOf: `isnumeric()` is modelled on ASCII digits. Python also accepts other numeric characters: "٣" becomes 3, while "½" passes `isnumeric()` and then makes `int()` raise ValueError (tools/vflp_prepare_folders.py:86-90). The model gives 30 for both.
- TodoList.Accepted: `^\d+$` is modelled on ASCII digits. Python's `\d` also matches other Unicode decimal digits, such as "٣", at tools/vflp_prepare_folders.py:252.
- Details: the run's own prefix key at tools/vflp_run.py:2072 (`object_store_job_prefix_full`) is never written by tools/vflp_prepare_folders.py. `Collection.GenerateRemotePath` takes the prefix as a parameter.
- Details.Visited: `int()` is modelled on ASCII digits and the whitespace set of `PyStr.Split`. Python also reads other Unicode decimal digits, such as "٣", and strips the Unicode spaces listed above; the model gives `ValueError` for those IDs.
- Partitioner.Partition: takes `ligands_todo_per_queue` and `max_array_job_size` as integers. The `int()` of those settings, and the `UnboundLocalError` for a batch system other than awsbatch or slurm (tools/vflp_prepare_workunits.py:189-192), are not modelled.
- Details.Process: the printed report text is not modelled; the report is the sequence of counts lines and the final tally.

## Findings

| source | as written | input that shows it | evidently intended | confidence | as-written member | corrected member |
|---|---|---|---|---|---|---|
| tools/vflp_get_details.py:229 | `get_status_info_path` reads `object_store_job_ouput_data_prefix_full` ("ouput"), but `parse_config` of tools/vflp_prepare_folders.py:64 writes `object_store_job_output_data_prefix_full` | any control file that parses and does not itself set the misspelled key: the lookup raises `KeyError` before any summary is read | read `object_store_job_output_data_prefix_full`, giving `<output prefix>/<job name>/complete/status/...` | high; not executed | Details.MisspelledKeyMissing | Details.FixedKeyFound |
