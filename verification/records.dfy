/** The records the ligand pipeline of tools/vflp_run.py reads and writes: the
    configuration it consults, the engine results it is given, and the
    ligand, stereoisomer and tautomer records with their `status_sub` audit
    trails.

    Configuration values are kept as the strings of the control file: a stage
    is on exactly when its value is the text "true", as the source compares.
 */
module Records {

  import opened Base
  import opened Engines
  import Tranche

  /** One `status_sub` entry: `[category, {'state': state, 'text': text}]`. */
  datatype Entry = Entry(category: string, state: string, text: string)

  function Succeeded(category: string): Entry {
    Entry(category, "success", "")
  }

  function Failed(category: string, text: string): Entry {
    Entry(category, "failed", text)
  }

  /** The control-file settings the pipeline consults. */
  datatype Config = Config(
    desalting: string,
    neutralization: string,
    neutralizationMode: string,
    neutralizationObligatory: string,
    stereoisomerGeneration: string,
    stereoisomerObligatory: string,
    tautomerization: string,
    tautomerizationObligatory: string,
    protonationStateGeneration: string,
    protonationObligatory: string,
    protonationProgram1: string,
    protonationProgram2: string,
    trancheAssignments: string,
    trancheTypes: seq<string>,
    tranchePartitions: map<string, seq<string>>,
    conformationGeneration: string,
    conformationObligatory: string,
    conformationProgram1: string,
    conformationProgram2: string,
    energyCheck: string,
    targetFormats: seq<string>)

  /** What the engines report for one tautomer: each run with the file it
      leaves behind, the energy verdict, one run and file per target format,
      and the probes tranche assignment consults. */
  datatype TautomerTools = TautomerTools(
    cxcalcProtonate: Run,
    obabelProtonate: Run,
    obabelProtonateFile: File,
    molconvert: Run,
    molconvertFile: File,
    obabelConformation: Run,
    obabelConformationFile: File,
    obabelPdb: Run,
    obabelPdbFile: File,
    energy: Energy,
    targetRun: string -> Run,
    targetFile: string -> File,
    probes: Tranche.Probes)

  /** What the engines report for one ligand: the standardizer and the
      stereoisomer runs, the tautomer run of each stereoisomer (by its key) and
      the tools of each tautomer (by its key). */
  datatype Tools = Tools(
    standardizer: Run,
    stereoisomers: Run,
    tautomers: string -> Run,
    tautomer: string -> TautomerTools)

  /** An input ligand: its key, its SMILES line and the attributes read from
      the input file. */
  datatype Ligand = Ligand(key: string, smi: string, fileData: map<string, string>)

  /** A tautomer record. `stereoIndex` and `index` are the positions the key
      encodes; `tranche` is the tranche string once assigned. */
  datatype Tautomer = Tautomer(
    key: string,
    smi: string,
    smiStereoisomer: string,
    smiOriginal: string,
    smiProtomer: string,
    status: string,
    trail: seq<Entry>,
    stereoIndex: nat,
    index: nat,
    tranche: Option<string>)

  datatype Stereoisomer = Stereoisomer(
    key: string,
    smi: string,
    status: string,
    trail: seq<Entry>,
    index: nat)

  /** The completion event of one ligand: its status, the base ligand's trail,
      the stereoisomers and the tautomers, each in processing order. */
  datatype Completion = Completion(
    status: string,
    trail: seq<Entry>,
    stereoisomers: seq<Stereoisomer>,
    tautomers: seq<Tautomer>)
}
