/** The external chemistry engines (cxcalc, standardizer and molconvert through
    Nailgun, obabel, obprop, obenergy) as they appear to tools/vflp_run.py.

    An engine invocation itself is not modelled: its effect is a `Run` (a
    timeout, or an exit code with the captured standard output and error) and,
    where the engine writes a file, the lines of that file if it exists. What
    IS modelled is everything vflp_run.py does with those: the error
    classifiers of `run_chemaxon_general` and `run_obabel_general`, the output
    parsers, and the checks on the files the engines leave behind.
 */
module Engines {

  import opened Base
  import opened PyStr

  datatype Run = TimedOut | Exited(code: int, stdout: string, stderr: string)

  /** The captured output of a run the classifier accepted. */
  datatype Output = Output(stdout: string, stderr: string)

  /** A file an engine was asked to write: absent, or the lines iterating it yields. */
  type File = Option<seq<string>>

  /** The verdict of `obabel_check_energy`: the energy is within the limit,
      or not (the engine's output lines are kept for the audit trail), or
      `obenergy` timed out. */
  datatype Energy = Pass | Reject(lines: seq<string>) | EnergyTimedOut

  /** The causes of the `RuntimeError`s raised in vflp_run.py. */
  datatype Fault =
    | ChemaxonTimedOut
    | ChemaxonExit(code: int, stdout: string, stderr: string)
    | ChemaxonNoOutput
    | NailgunTerminated
    | ChemaxonFlag(line: string)
    | ObabelTimedOut
    | ObabelExit(code: int)
    | ObabelFlag
    | NoStereoisomerOutput
    | NoTautomerOutput
    | TautomerUnsplit(lines: seq<string>)
    | ProtonationFailed
    | AttributeUnparsed
    | ObpropTimedOut
    | ObpropNoOutput
    | ObabelNoOutputFile
    | ObabelEmptyOutputFile
    | ObabelUnparsed
    | NoPdbfile
    | ChemaxonEmptyOutput(smi: string)
    | NoValidCoordinates
    | NoPdbFile
    | ObabelEmptyOutput(smi: string)
    | NoTargetFile
    | NoTargetCoordinates
    | EmptyTarget
    | NoProgramRemaining(stage: string)
    | InvalidProgram(stage: string, program: string)
    | UnsupportedTrancheType(trancheType: string)
    | InvalidTrancheValue(trancheType: string, value: string)
    | MissingFileData(attribute: string)
    | TrancheFailed
    | ConformationRequired(cause: Fault)
    | PdbRequired
    | EnergyFailed
    | InvalidRemarkFormat(format: string)
    | InvalidOutputFormat(format: string)

  /** How a step of the pipeline ends: with a value, with a `RuntimeError`
      (which the enclosing stage catches), or with any other exception
      (`IndexError`, `KeyError`, `ValueError`), which nothing catches. */
  datatype Outcome<+T> = Done(value: T) | Raised(fault: Fault) | Crash(reason: string)

  /** The exception text, as `str(error)` renders it. */
  function Message(f: Fault): string {
    match f
    case ChemaxonTimedOut => "chemaxon timed out"
    case ChemaxonExit(code, out, err) =>
      "Chemaxon Return code is " + IntToString(code) + ", stdout:" + out + ", stderr:" + err
    case ChemaxonNoOutput => "No output found for chemaxon and is required"
    case NailgunTerminated => "The Nailgun server seems to have terminated"
    case ChemaxonFlag(line) => "An error flag was detected in the log file (" + line + ")"
    case ObabelTimedOut => "obabel timed out"
    case ObabelExit(code) => "Return code from obabel is " + IntToString(code)
    case ObabelFlag => "An error flag was detected in the log files from obabel"
    case NoStereoisomerOutput => "No output for stereoisomer state generation"
    case NoTautomerOutput => "No output for tautomer state generation"
    case TautomerUnsplit(lines) => "Not able to split last line on spaces line=" + Join(lines, "|") + ")"
    case ProtonationFailed => "Protonation state generation failed"
    case AttributeUnparsed => "Unable to parse output of run_chemaxon_calculator"
    case ObpropTimedOut => "obprop timed out"
    case ObpropNoOutput => "No output file from oprop"
    case ObabelNoOutputFile => "No output file from obabel"
    case ObabelEmptyOutputFile => "No output in file from obabel"
    case ObabelUnparsed => "Unable to parse attribute from obabel"
    case NoPdbfile => "No pdbfile generated"
    case ChemaxonEmptyOutput(smi) => "chemaxon outputfile is empty. smi: |" + smi + "|"
    case NoValidCoordinates => "The output PDB file exists but does not contain valid coordinates."
    case NoPdbFile => "No PDB file generated"
    case ObabelEmptyOutput(smi) => "obabel outputfile is empty (smi: " + smi
    case NoTargetFile => "No output file generated"
    case NoTargetCoordinates => "The output PDB(QT) file exists but does not contain valid coordinates."
    case EmptyTarget => "The output file is empty."
    case NoProgramRemaining(stage) => "No " + stage + " program remaining"
    case InvalidProgram(stage, program) => stage + " program '" + program + "' is not valid"
    case UnsupportedTrancheType(t) => "The value '" + t + "'' of the variable tranche_types is not supported."
    case InvalidTrancheValue(t, v) => "Invalid result from tranche_type:" + t + ", value was: '" + v + "'"
    case MissingFileData(a) => "Asked for attribute '" + a + "' that does not exist in file_data"
    case TrancheFailed => "The tranche assignments have failed, ligand will be skipped"
    case ConformationRequired(cause) => "Conformation failed, but is required error:" + Message(cause)
    case PdbRequired => "PDB generation failed, but is required"
    case EnergyFailed => "Failed energy check"
    case InvalidRemarkFormat(fmt) => "Invalid target_format type (" + fmt + ")for generating remarks"
    case InvalidOutputFormat(fmt) => "Invalid value of output_format (" + fmt + ")"
  }

  // ------------------------------------------------------------ classifiers

  /** The pattern `failed|timelimit|error|no such file|not found`. */
  predicate Flagged(line: string) {
    Contains(line, "failed") || Contains(line, "timelimit") || Contains(line, "error")
    || Contains(line, "no such file") || Contains(line, "not found")
  }

  /** A line the ChemaxOn classifier lets pass. */
  predicate Clean(line: string) {
    !Contains(line, "refused") && !Flagged(line)
  }

  /** Position of the first line `hit` selects, or the number of lines. */
  function FirstHit(lines: seq<string>, hit: string -> bool): (i: nat)
    ensures i <= |lines|
    ensures forall j :: 0 <= j < i ==> !hit(lines[j])
    ensures i < |lines| ==> hit(lines[i])
    decreases |lines|
  {
    if lines == [] then 0
    else if hit(lines[0]) then 0
    else 1 + FirstHit(lines[1..], hit)
  }

  /** The error the ChemaxOn classifier raises for an offending line: the
      "refused" test comes first. */
  function LineFault(line: string): Fault {
    if Contains(line, "refused") then NailgunTerminated else ChemaxonFlag(line)
  }

  /** All stdout lines followed by all stderr lines, the order both
      classifiers scan in. */
  function LogLines(out: string, err: string): seq<string> {
    SplitLines(out) + SplitLines(err)
  }

  /** `run_chemaxon_general` (tools/vflp_run.py:948-984) after the subprocess
      returned. The run is accepted exactly when it finished in time with
      code 0, produced output if output is required, and no logged line
      mentions "refused" or an error flag; otherwise the first offending line
      decides the error. */
  function ChemaxonGeneral(run: Run, mustHaveOutput: bool): (r: Result<Output, Fault>)
    ensures r.Ok? <==>
      run.Exited? && run.code == 0 && (mustHaveOutput ==> run.stdout != [])
      && forall i :: 0 <= i < |LogLines(run.stdout, run.stderr)| ==> Clean(LogLines(run.stdout, run.stderr)[i])
    ensures r.Ok? ==> r.value == Output(run.stdout, run.stderr)
    ensures r.Ok? && mustHaveOutput ==> |SplitLines(r.value.stdout)| >= 1
    ensures run.TimedOut? ==> r == Err(ChemaxonTimedOut)
    ensures (r == Err(NailgunTerminated) || (r.Err? && r.error.ChemaxonFlag?)) ==>
      run.Exited? && run.code == 0
      && exists i :: 0 <= i < |LogLines(run.stdout, run.stderr)| && r.error == LineFault(LogLines(run.stdout, run.stderr)[i])
  {
    match run
    case TimedOut => Err(ChemaxonTimedOut)
    case Exited(code, out, err) =>
      if code != 0 then Err(ChemaxonExit(code, out, err))
      else if mustHaveOutput && SplitLines(out) == [] then Err(ChemaxonNoOutput)
      else
        var lines := LogLines(out, err);
        var i := FirstHit(lines, line => !Clean(line));
        if i < |lines| then Err(LineFault(lines[i])) else Ok(Output(out, err))
  }

  /** `run_obabel_general` (tools/vflp_run.py:1261-1288) after the subprocess
      returned. Unlike the ChemaxOn classifier it does not look for
      "refused", and its error text does not name the line. */
  function ObabelGeneral(run: Run): (r: Result<Output, Fault>)
    ensures r.Ok? <==>
      run.Exited? && run.code == 0
      && forall i :: 0 <= i < |LogLines(run.stdout, run.stderr)| ==> !Flagged(LogLines(run.stdout, run.stderr)[i])
    ensures r.Ok? ==> r.value == Output(run.stdout, run.stderr)
    ensures r == Err(ObabelFlag) <==>
      run.Exited? && run.code == 0
      && exists i :: 0 <= i < |LogLines(run.stdout, run.stderr)| && Flagged(LogLines(run.stdout, run.stderr)[i])
  {
    match run
    case TimedOut => Err(ObabelTimedOut)
    case Exited(code, out, err) =>
      if code != 0 then Err(ObabelExit(code))
      else
        var lines := LogLines(out, err);
        if FirstHit(lines, Flagged) < |lines| then Err(ObabelFlag) else Ok(Output(out, err))
  }

  // ------------------------------------------------------------ parsers

  /** Stereoisomers: one per stdout line (tools/vflp_run.py:1053-1062). */
  function StereoisomerLines(o: Output): (r: Result<seq<string>, Fault>)
  {
    var lines := SplitLines(o.stdout);
    if |lines| >= 1 then Ok(lines) else Err(NoStereoisomerOutput)
  }

  /** Tautomers: the second whitespace field of the last stdout line, split
      on "." (tools/vflp_run.py:1089-1100). */
  function TautomerSmiles(o: Output): (r: Result<seq<string>, Fault>)
  {
    var lines := SplitLines(o.stdout);
    if |lines| >= 1 then
      var fields := Split(lines[|lines| - 1]);
      if |fields| > 1 then Ok(SplitSep(fields[1], '.')) else Err(TautomerUnsplit(lines))
    else Err(NoTautomerOutput)
  }

  /** The value after the first tab of the last stdout line, provided there are
      at least two lines (`cxcalc_protonate` 1127-1145 and `cxcalc_attribute`
      1161-1170, which differ only in the error they raise). */
  function TabValue(o: Output, otherwise: Fault): (r: Result<string, Fault>)
  {
    var lines := SplitLines(o.stdout);
    if |lines| > 1 then
      var fields := SplitSepMax(lines[|lines| - 1], '\t', 2);
      if |fields| > 1 then Ok(fields[1]) else Err(otherwise)
    else Err(otherwise)
  }

  /** The last whitespace field of the first stdout line, when that line has at
      least two fields (`run_obabel_hbX`, tools/vflp_run.py:1377-1394). */
  function HbxValue(o: Output): (r: Result<string, Fault>)
  {
    var lines := SplitLines(o.stdout);
    if |lines| == 0 then Err(ObabelNoOutputFile)
    else
      var fields := Split(lines[0]);
      if |fields| >= 2 then Ok(fields[|fields| - 1]) else Err(ObabelUnparsed)
  }

  /** The first line of the file obabel wrote, newline included
      (`run_obabel_general_get_value`, tools/vflp_run.py:1296-1308). */
  function ObabelValue(run: Run, file: File): (r: Result<string, Fault>)
    ensures r.Ok? <==> ObabelGeneral(run).Ok? && file.Some? && file.value != []
    ensures r.Ok? ==> r.value == file.value[0]
  {
    match ObabelGeneral(run)
    case Err(f) => Err(f)
    case Ok(_) =>
      match file
      case None => Err(ObabelNoOutputFile)
      case Some(lines) => if lines == [] then Err(ObabelEmptyOutputFile) else Ok(lines[0])
  }

  /** A rendered stdout: each line followed by a newline. */
  lemma StereoisomerLinesOf(lines: seq<string>, err: string)
    requires |lines| >= 1
    requires forall i :: 0 <= i < |lines| ==> NoLineBreak(lines[i])
    ensures StereoisomerLines(Output(Terminated(lines), err)) == Ok(lines)
  {
    SplitLinesJoin(lines);
  }

  /** A last line `<input> <t1>.<t2>...` yields the tautomers `t1, t2, ...`. */
  lemma TautomerSmilesOf(before: seq<string>, input: string, tautomers: seq<string>, err: string)
    requires forall i :: 0 <= i < |before| ==> NoLineBreak(before[i])
    requires |input| > 0 && NoSpace(input) && NoLineBreak(input)
    requires |tautomers| >= 1
    requires forall i :: 0 <= i < |tautomers| ==> '.' !in tautomers[i]
    requires var joined := Join(tautomers, "."); |joined| > 0 && NoSpace(joined) && NoLineBreak(joined)
    ensures TautomerSmiles(Output(Terminated(before + [input + " " + Join(tautomers, ".")]), err)) == Ok(tautomers)
  {
    var joined := Join(tautomers, ".");
    var last := input + " " + joined;
    assert Join([input, joined], " ") == last;
    SplitJoinSpace([input, joined]);
    NoLineBreakJoin(input, joined);
    LinesSnoc(before, last);
    assert "." == ['.'];
    SplitSepJoin(tautomers, '.');
  }

  lemma NoLineBreakJoin(a: string, b: string)
    requires NoLineBreak(a) && NoLineBreak(b)
    ensures NoLineBreak(a + " " + b)
  {
    var s := a + " " + b;
    forall i | 0 <= i < |s| ensures !IsLineBreak(s[i]) {
      if i < |a| {
        assert s[i] == a[i];
      } else if i > |a| {
        assert s[i] == b[i - |a| - 1];
      }
    }
  }

  /** A last line `<input>\t<value>` after at least one other line yields `value`. */
  lemma TabValueOf(before: seq<string>, input: string, value: string, err: string, otherwise: Fault)
    requires |before| >= 1
    requires forall i :: 0 <= i < |before| ==> NoLineBreak(before[i])
    requires '\t' !in input && '\t' !in value
    requires NoLineBreak(input) && NoLineBreak(value)
    ensures TabValue(Output(Terminated(before + [input + "\t" + value]), err), otherwise) == Ok(value)
  {
    var last := input + "\t" + value;
    NoLineBreakTab(input, value);
    LinesSnoc(before, last);
    TabFields(input, value);
    TabValueFrom(Output(Terminated(before + [last]), err), before + [last], otherwise, value);
  }

  lemma TabFields(input: string, value: string)
    requires '\t' !in input && '\t' !in value
    ensures |SplitSepMax(input + "\t" + value, '\t', 2)| > 1
    ensures SplitSepMax(input + "\t" + value, '\t', 2)[1] == value
  {
    var last := input + ['\t'] + value;
    assert input + "\t" + value == last;
    IndexOfAfter(input, '\t', value);
    assert last[|input|] == '\t';
    assert last[|input| + 1..] == value;
    assert SplitSepMax(value, '\t', 1) == [value];
    assert SplitSepMax(last, '\t', 2) == [last[..|input|]] + SplitSepMax(value, '\t', 1);
  }

  lemma TabValueFrom(o: Output, lines: seq<string>, otherwise: Fault, value: string)
    requires SplitLines(o.stdout) == lines && |lines| > 1
    requires |SplitSepMax(lines[|lines| - 1], '\t', 2)| > 1
    requires SplitSepMax(lines[|lines| - 1], '\t', 2)[1] == value
    ensures TabValue(o, otherwise) == Ok(value)
  {
  }

  /** Lines without breaks, one more appended, still split back into themselves. */
  lemma LinesSnoc(before: seq<string>, last: string)
    requires forall i :: 0 <= i < |before| ==> NoLineBreak(before[i])
    requires NoLineBreak(last)
    ensures SplitLines(Terminated(before + [last])) == before + [last]
  {
    var lines := before + [last];
    forall i | 0 <= i < |lines| ensures NoLineBreak(lines[i]) {
      if i < |before| {
        assert lines[i] == before[i];
      }
    }
    SplitLinesJoin(lines);
  }

  /** Lines without breaks, one more in front, still split back into themselves. */
  lemma LinesCons(first: string, after: seq<string>)
    requires forall i :: 0 <= i < |after| ==> NoLineBreak(after[i])
    requires NoLineBreak(first)
    ensures SplitLines(Terminated([first] + after)) == [first] + after
  {
    var lines := [first] + after;
    forall i | 0 <= i < |lines| ensures NoLineBreak(lines[i]) {
      if i > 0 {
        assert lines[i] == after[i - 1];
      }
    }
    SplitLinesJoin(lines);
  }

  lemma NoLineBreakTab(a: string, b: string)
    requires NoLineBreak(a) && NoLineBreak(b)
    ensures NoLineBreak(a + "\t" + b)
  {
    var s := a + "\t" + b;
    forall i | 0 <= i < |s| ensures !IsLineBreak(s[i]) {
      if i < |a| {
        assert s[i] == a[i];
      } else if i > |a| {
        assert s[i] == b[i - |a| - 1];
      }
    }
  }

  /** A first line of whitespace-separated fields yields its last field. */
  lemma HbxValueOf(fields: seq<string>, after: seq<string>, err: string)
    requires |fields| >= 2
    requires forall i :: 0 <= i < |fields| ==> |fields[i]| > 0 && NoSpace(fields[i]) && NoLineBreak(fields[i])
    requires forall i :: 0 <= i < |after| ==> NoLineBreak(after[i])
    ensures HbxValue(Output(Terminated([Join(fields, " ")] + after), err)) == Ok(fields[|fields| - 1])
  {
    var first := Join(fields, " ");
    SplitJoinSpace(fields);
    NoLineBreakJoinSpace(fields);
    LinesCons(first, after);
    HbxValueFrom(Output(Terminated([first] + after), err), [first] + after, fields);
  }

  lemma HbxValueFrom(o: Output, lines: seq<string>, fields: seq<string>)
    requires SplitLines(o.stdout) == lines && |lines| >= 1
    requires Split(lines[0]) == fields && |fields| >= 2
    ensures HbxValue(o) == Ok(fields[|fields| - 1])
  {
  }

  lemma {:induction false} NoLineBreakJoinSpace(parts: seq<string>)
    requires forall i :: 0 <= i < |parts| ==> NoLineBreak(parts[i])
    ensures NoLineBreak(Join(parts, " "))
    decreases |parts|
  {
    if |parts| > 1 {
      NoLineBreakJoinSpace(parts[1..]);
      NoLineBreakJoin(parts[0], Join(parts[1..], " "));
      assert Join(parts, " ") == parts[0] + " " + Join(parts[1..], " ");
    }
  }

  // ------------------------------------------------------------ obprop

  /** The attributes `run_obabel_attributes` reads, all starting as "INVALID". */
  const ObpropKeys: set<string> :=
    {"mol_weight", "exact_mass", "num_atoms", "num_bonds", "num_residues", "num_rotors",
     "sequence", "num_rings", "logP", "PSA", "MR"}

  /** One stdout line: `key value` with a known key overwrites that key. */
  function ObpropLine(m: map<string, string>, line: string): map<string, string> {
    var kv := SplitOnce(line);
    if |kv| == 2 && kv[0] in m then m[kv[0] := kv[1]] else m
  }

  /** The lines applied in order, the first line first. */
  function ObpropFold(m: map<string, string>, lines: seq<string>): map<string, string>
    decreases |lines|
  {
    if lines == [] then m else ObpropLine(ObpropFold(m, lines[..|lines| - 1]), lines[|lines| - 1])
  }

  /** `run_obabel_attributes` (tools/vflp_run.py:1330-1373): `obprop` has no
      exit-code or error-flag check, only a timeout and a non-empty output. */
  function ObpropAttributes(run: Run): (r: Result<map<string, string>, Fault>)
    ensures r.Ok? ==> r.value.Keys == ObpropKeys
  {
    match run
    case TimedOut => Err(ObpropTimedOut)
    case Exited(_, out, _) =>
      var lines := SplitLines(out);
      if lines == [] then Err(ObpropNoOutput)
      else
        ObpropFoldKeys(map k | k in ObpropKeys :: "INVALID", lines);
        Ok(ObpropFold(map k | k in ObpropKeys :: "INVALID", lines))
  }

  /** The value the last line naming `key` (with a value) gives it. */
  function LastValue(lines: seq<string>, key: string): Option<string>
    decreases |lines|
  {
    if lines == [] then None
    else
      var kv := SplitOnce(lines[|lines| - 1]);
      if |kv| == 2 && kv[0] == key then Some(kv[1]) else LastValue(lines[..|lines| - 1], key)
  }

  lemma {:induction false} ObpropFoldKeys(m: map<string, string>, lines: seq<string>)
    ensures ObpropFold(m, lines).Keys == m.Keys
    decreases |lines|
  {
    if lines != [] {
      ObpropFoldKeys(m, lines[..|lines| - 1]);
    }
  }

  /** The value a key ends with: the last line naming it, or `start`. */
  function Final(lines: seq<string>, key: string, start: string): string {
    match LastValue(lines, key)
    case Some(v) => v
    case None => start
  }

  /** Each known attribute ends with the value of the last line naming it,
      and keeps its starting value when no line does. */
  lemma {:induction false} ObpropLastWins(m: map<string, string>, lines: seq<string>, key: string)
    requires key in m
    ensures key in ObpropFold(m, lines)
    ensures ObpropFold(m, lines)[key] == Final(lines, key, m[key])
    decreases |lines|
  {
    if lines != [] {
      ObpropLastWins(m, lines[..|lines| - 1], key);
      LastWinsStep(ObpropFold(m, lines[..|lines| - 1]), lines, key, m[key]);
    }
  }

  lemma LastWinsStep(p: map<string, string>, lines: seq<string>, key: string, start: string)
    requires lines != []
    requires key in p && p[key] == Final(lines[..|lines| - 1], key, start)
    ensures key in ObpropLine(p, lines[|lines| - 1])
    ensures ObpropLine(p, lines[|lines| - 1])[key] == Final(lines, key, start)
  {
    var line := lines[|lines| - 1];
    var named := Names(line, key);
    LineAt(p, line, key);
    LastValueStep(lines, key);
    if named {
      assert Final(lines, key, start) == SplitOnce(line)[1];
    } else {
      assert Final(lines, key, start) == Final(lines[..|lines| - 1], key, start);
    }
  }

  /** `line` is `key value` with a value. */
  predicate Names(line: string, key: string) {
    var kv := SplitOnce(line); |kv| == 2 && kv[0] == key
  }

  lemma LineAt(p: map<string, string>, line: string, key: string)
    requires key in p
    ensures key in ObpropLine(p, line)
    ensures Names(line, key) ==> ObpropLine(p, line)[key] == SplitOnce(line)[1]
    ensures !Names(line, key) ==> ObpropLine(p, line)[key] == p[key]
  {
  }

  lemma LastValueStep(lines: seq<string>, key: string)
    requires lines != []
    ensures Names(lines[|lines| - 1], key) ==> LastValue(lines, key) == Some(SplitOnce(lines[|lines| - 1])[1])
    ensures !Names(lines[|lines| - 1], key) ==> LastValue(lines, key) == LastValue(lines[..|lines| - 1], key)
  {
  }

  /** What `run_obabel_attributes` reports for a known attribute: the value
      of the last stdout line naming it, or "INVALID". */
  lemma ObpropAttributesSpec(run: Run, key: string)
    requires key in ObpropKeys
    requires ObpropAttributes(run).Ok?
    ensures key in ObpropAttributes(run).value
    ensures ObpropAttributes(run).value[key] == Final(SplitLines(run.stdout), key, "INVALID")
  {
    ObpropLastWins(map k | k in ObpropKeys :: "INVALID", SplitLines(run.stdout), key);
  }

  // ------------------------------------------------------------ output files

  /** `nonzero_pdb_coordinates` (tools/vflp_run.py:815-829). Because the
      final test is on the stripped line, not on the extracted coordinates,
      the function only asks whether some line is an atom record. */
  predicate NonzeroPdb(lines: seq<string>) {
    FirstHit(lines, AtomRecord) < |lines|
  }

  predicate AtomRecord(line: string) {
    StartsWith(Strip(line), "ATOM") || StartsWith(Strip(line), "HETATM")
  }

  lemma NonzeroPdbSpec(lines: seq<string>)
    ensures NonzeroPdb(lines) <==> exists i :: 0 <= i < |lines| && AtomRecord(lines[i])
  {
    var i := FirstHit(lines, AtomRecord);
    if i < |lines| {
      assert AtomRecord(lines[i]);
    }
  }

  /** `chemaxon_conformation` (tools/vflp_run.py:1176-1227): molconvert must
      pass the ChemaxOn classifier and leave a non-empty file with an atom
      record; the SMILES is then cut at its first whitespace, which fails
      with an `IndexError` when it is blank. */
  function MolconvertConformation(run: Run, file: File, smi: string): (r: Outcome<()>)
    ensures r.Done? <==>
      ChemaxonGeneral(run, false).Ok? && file.Some? && file.value != [] && NonzeroPdb(file.value) && HasToken(smi)
    ensures r.Crash? ==> !HasToken(smi)
  {
    match ChemaxonGeneral(run, false)
    case Err(f) => Raised(f)
    case Ok(_) =>
      match file
      case None => Raised(NoPdbfile)
      case Some(lines) =>
        if lines == [] then Raised(ChemaxonEmptyOutput(smi))
        else if !NonzeroPdb(lines) then Raised(NoValidCoordinates)
        else if !HasToken(smi) then Crash("IndexError")
        else Done(())
  }

  /** `obabel_generate_pdb_general` (tools/vflp_run.py:1410-1464), used both
      for obabel's conformation and for plain PDB generation, in both cases
      without requiring standard output. */
  function ObabelPdb(run: Run, file: File, smi: string): (r: Outcome<()>)
    ensures r.Done? <==>
      ObabelGeneral(run).Ok? && file.Some? && file.value != [] && NonzeroPdb(file.value) && HasToken(smi)
    ensures r.Crash? ==> !HasToken(smi)
  {
    match ObabelGeneral(run)
    case Err(f) => Raised(f)
    case Ok(_) =>
      match file
      case None => Raised(NoPdbFile)
      case Some(lines) =>
        if lines == [] then Raised(ObabelEmptyOutput(smi))
        else if !NonzeroPdb(lines) then Raised(NoValidCoordinates)
        else if !HasToken(smi) then Crash("IndexError")
        else Done(())
  }

  /** `obabel_generate_targetformat` (tools/vflp_run.py:1521-1604). PDB and
      PDBQT files must hold an atom record (checked before emptiness), every
      format must be non-empty, and a SMILES file whose first line is blank
      fails with an `IndexError`. */
  function TargetFormat(format: string, run: Run, file: File): (r: Outcome<()>)
    ensures r.Done? <==>
      ObabelGeneral(run).Ok? && file.Some? && file.value != []
      && ((format == "pdb" || format == "pdbqt") ==> NonzeroPdb(file.value))
      && (format == "smi" ==> HasToken(file.value[0]))
    ensures r.Crash? ==> format == "smi"
  {
    match ObabelGeneral(run)
    case Err(f) => Raised(f)
    case Ok(_) =>
      match file
      case None => Raised(NoTargetFile)
      case Some(lines) =>
        if (format == "pdb" || format == "pdbqt") && !NonzeroPdb(lines) then Raised(NoTargetCoordinates)
        else if lines == [] then Raised(EmptyTarget)
        else if format == "smi" && !HasToken(lines[0]) then Crash("IndexError")
        else Done(())
  }
}
