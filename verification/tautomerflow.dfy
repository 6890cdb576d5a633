/** `process_tautomer` (tools/vflp_run.py:363-496) and the two fallback
    wrappers it uses (504-531, 779-805): protonation, tranche assignment, 3D
    conformation or plain PDB generation, the energy check and the target
    formats, each appending to the tautomer's `status_sub` trail.

    A stage either lets the tautomer go on, stops it with a `RuntimeError`
    (the enclosing `process_stereoisomer` catches it and the tautomer stays
    "failed"), or halts the whole ligand with an exception nothing catches.
 */
module TautomerFlow {

  import opened Base
  import opened PyStr
  import opened Engines
  import Tranche
  import opened Records

  datatype Flow = Go(t: Tautomer) | Stop(t: Tautomer, fault: Fault) | Halt(reason: string)

  function Log(t: Tautomer, e: Entry): Tautomer {
    t.(trail := t.trail + [e])
  }

  // ------------------------------------------------------------ stage order

  /** The position of a trail category in the order the stages run. */
  function Rank(category: string): nat {
    if category == "protonation" then 0
    else if category == "tranche-assignment" then 1
    else if category == "conformation" then 2
    else if category == "pdb-generation" then 3
    else if category == "energy-check" then 4
    else 5
  }

  predicate InStageOrder(trail: seq<Entry>) {
    forall i, j :: 0 <= i < j < |trail| ==> Rank(trail[i].category) <= Rank(trail[j].category)
  }

  predicate RanksAtMost(trail: seq<Entry>, k: nat) {
    forall i :: 0 <= i < |trail| ==> Rank(trail[i].category) <= k
  }

  /** `b` is `a` followed by entries whose ranks lie in `lo..hi`, in stage order. */
  predicate Grows(a: seq<Entry>, b: seq<Entry>, lo: nat, hi: nat) {
    |a| <= |b| && b[..|a|] == a
    && (forall i :: |a| <= i < |b| ==> lo <= Rank(b[i].category) <= hi)
    && forall i, j :: |a| <= i < j < |b| ==> Rank(b[i].category) <= Rank(b[j].category)
  }

  /** What every stage keeps: the key and status, and the trail only grows. */
  predicate Keeps(t: Tautomer, f: Flow, lo: nat, hi: nat) {
    match f
    case Halt(_) => true
    case Go(u) => u.key == t.key && u.status == t.status && Grows(t.trail, u.trail, lo, hi)
    case Stop(u, _) => u.key == t.key && u.status == t.status && Grows(t.trail, u.trail, lo, hi)
  }

  lemma GrowsOrdered(a: seq<Entry>, b: seq<Entry>, lo: nat, hi: nat)
    requires lo <= hi && InStageOrder(a) && RanksAtMost(a, lo) && Grows(a, b, lo, hi)
    ensures InStageOrder(b) && RanksAtMost(b, hi)
  {
    forall i, j | 0 <= i < j < |b| ensures Rank(b[i].category) <= Rank(b[j].category) {
      if j < |a| {
        assert b[i] == a[i] && b[j] == a[j];
      } else if i < |a| {
        assert b[i] == a[i];
      }
    }
    forall i | 0 <= i < |b| ensures Rank(b[i].category) <= hi {
      if i < |a| {
        assert b[i] == a[i];
      }
    }
  }

  lemma GrowsTrans(a: seq<Entry>, b: seq<Entry>, c: seq<Entry>, lo: nat, mid: nat, hi: nat)
    requires lo <= mid <= hi && Grows(a, b, lo, mid) && Grows(b, c, mid, hi)
    ensures Grows(a, c, lo, hi)
  {
    assert c[..|a|] == c[..|b|][..|a|];
    forall i, j | |a| <= i < j < |c| ensures Rank(c[i].category) <= Rank(c[j].category) {
      if i < |b| && j < |b| {
        assert c[i] == b[i] && c[j] == b[j];
      } else if i < |b| {
        assert c[i] == b[i];
      }
    }
    forall i | |a| <= i < |c| ensures lo <= Rank(c[i].category) <= hi {
      if i < |b| {
        assert c[i] == b[i];
      }
    }
  }

  lemma LogGrows(t: Tautomer, e: Entry, k: nat)
    requires Rank(e.category) == k
    ensures Grows(t.trail, Log(t, e).trail, k, k)
  {
    var b := Log(t, e).trail;
    assert b[..|t.trail|] == t.trail;
  }

  lemma GrowsRefl(a: seq<Entry>, lo: nat, hi: nat)
    ensures Grows(a, a, lo, hi)
  {
    assert a[..|a|] == a;
  }

  // ------------------------------------------------------------ protonation

  /** The protomer a protonation run leaves: the one the engine reported, or
      the unchanged SMILES where the engine failed. */
  datatype Protomer = Kept | Replaced(smi: string)

  predicate ValidProtonation(program: string) {
    program == "cxcalc" || program == "obabel"
  }

  /** `cxcalc_protonate` (tools/vflp_run.py:1111-1148) after its run. */
  function CxcalcProtonate(run: Run): Result<string, Fault> {
    match ChemaxonGeneral(run, true)
    case Err(f) => Err(f)
    case Ok(o) => TabValue(o, ProtonationFailed)
  }

  /** `run_protonation_instance` (tools/vflp_run.py:504-524): "none" and
      unknown programs raise, but an engine failure is returned as a value,
      which the caller ignores, so the protomer is simply kept. */
  function ProtonationInstance(program: string, tt: TautomerTools): (r: Result<Protomer, Fault>)
    ensures r.Err? <==> !ValidProtonation(program)
    ensures r == Err(NoProgramRemaining("protonation")) <==> program == "none"
    ensures r.Err? && program != "none" ==> r.error == InvalidProgram("Protonation", program)
    ensures program == "cxcalc" ==>
      r == Ok(if CxcalcProtonate(tt.cxcalcProtonate).Ok? then Replaced(CxcalcProtonate(tt.cxcalcProtonate).value) else Kept)
    ensures program == "obabel" ==>
      r == Ok(if ObabelValue(tt.obabelProtonate, tt.obabelProtonateFile).Ok?
              then Replaced(ObabelValue(tt.obabelProtonate, tt.obabelProtonateFile).value) else Kept)
  {
    if program == "none" then Err(NoProgramRemaining("protonation"))
    else if !ValidProtonation(program) then Err(InvalidProgram("Protonation", program))
    else if program == "cxcalc" then
      match CxcalcProtonate(tt.cxcalcProtonate)
      case Ok(smi) => Ok(Replaced(smi))
      case Err(_) => Ok(Kept)
    else
      match ObabelValue(tt.obabelProtonate, tt.obabelProtonateFile)
      case Ok(smi) => Ok(Replaced(smi))
      case Err(_) => Ok(Kept)
  }

  /** `run_protonation_generation` (tools/vflp_run.py:527-531): the second
      program is consulted only when the first one raised. */
  function ProtonationGeneration(cfg: Config, tt: TautomerTools): Result<Protomer, Fault> {
    match ProtonationInstance(cfg.protonationProgram1, tt)
    case Err(_) => ProtonationInstance(cfg.protonationProgram2, tt)
    case Ok(p) => Ok(p)
  }

  /** Protonation raises only when neither configured program is cxcalc or
      obabel; engine failures never reach the second program. */
  lemma ProtonationGenerationSpec(cfg: Config, tt: TautomerTools)
    ensures ProtonationGeneration(cfg, tt).Err? <==>
      !ValidProtonation(cfg.protonationProgram1) && !ValidProtonation(cfg.protonationProgram2)
    ensures ValidProtonation(cfg.protonationProgram1) ==>
      ProtonationGeneration(cfg, tt) == ProtonationInstance(cfg.protonationProgram1, tt)
  {
  }

  function Protonate(cfg: Config, tt: TautomerTools, t: Tautomer): (r: Flow)
    ensures Keeps(t, r, 0, 0)
    ensures !r.Halt?
    ensures r.Stop? ==>
      cfg.protonationObligatory == "true"
      && !ValidProtonation(cfg.protonationProgram1) && !ValidProtonation(cfg.protonationProgram2)
      && r.fault == ProtonationInstance(cfg.protonationProgram2, tt).error
  {
    if cfg.protonationStateGeneration != "true" then
      GrowsRefl(t.trail, 0, 0);
      Go(t)
    else match ProtonationGeneration(cfg, tt)
      case Err(f) =>
        var u := Log(t, Failed("protonation", Message(f)));
        LogGrows(t, Failed("protonation", Message(f)), 0);
        if cfg.protonationObligatory == "true" then Stop(u, f) else Go(u)
      case Ok(p) =>
        var u := t.(smiProtomer := if p.Replaced? then p.smi else t.smiProtomer);
        LogGrows(u, Succeeded("protonation"), 0);
        Go(Log(u, Succeeded("protonation")))
  }

  // ------------------------------------------------------------ tranche assignment

  function TrancheStep(cfg: Config, tt: TautomerTools, fileData: map<string, string>, t: Tautomer): (r: Flow)
    ensures Keeps(t, r, 1, 1)
    ensures r.Go? ==> r.t.trail == t.trail + [Succeeded("tranche-assignment")]
    ensures r.Stop? ==> cfg.trancheAssignments == "true" && r.fault == TrancheFailed
  {
    if cfg.trancheAssignments == "true" then
      var input := Tranche.TrancheInput(cfg.trancheTypes, cfg.tranchePartitions, fileData, t.smiProtomer);
      match Tranche.TrancheAssignment(tt.probes, input)
      case Raised(f) =>
        LogGrows(t, Failed("tranche-assignment", Message(f)), 1);
        Stop(Log(t, Failed("tranche-assignment", Message(f))), TrancheFailed)
      case Crash(why) => Halt(why)
      case Done(a) =>
        var u := t.(tranche := Some(a.tranche));
        LogGrows(u, Succeeded("tranche-assignment"), 1);
        Go(Log(u, Succeeded("tranche-assignment")))
    else
      LogGrows(t, Succeeded("tranche-assignment"), 1);
      Go(Log(t, Succeeded("tranche-assignment")))
  }

  // ------------------------------------------------------------ conformation

  predicate ValidConformation(program: string) {
    program == "molconvert" || program == "obabel"
  }

  /** `run_conformation_instance` (tools/vflp_run.py:787-812). */
  function ConformationInstance(program: string, tt: TautomerTools, smi: string): (r: Outcome<()>)
    ensures !ValidConformation(program) ==> r.Raised?
    ensures program == "none" ==> r == Raised(NoProgramRemaining("conformation"))
    ensures program != "none" && !ValidConformation(program) ==> r == Raised(InvalidProgram("Conformation", program))
  {
    if program == "none" then Raised(NoProgramRemaining("conformation"))
    else if !ValidConformation(program) then Raised(InvalidProgram("Conformation", program))
    else if program == "molconvert" then MolconvertConformation(tt.molconvert, tt.molconvertFile, smi)
    else ObabelPdb(tt.obabelConformation, tt.obabelConformationFile, smi)
  }

  /** `run_conformation_generation` (tools/vflp_run.py:779-784): unlike
      protonation, an engine failure of the first program does raise, so the
      second program runs after it. */
  function ConformationGeneration(cfg: Config, tt: TautomerTools, smi: string): (r: Outcome<()>)
    ensures r.Done? <==>
      ConformationInstance(cfg.conformationProgram1, tt, smi).Done?
      || (ConformationInstance(cfg.conformationProgram1, tt, smi).Raised?
          && ConformationInstance(cfg.conformationProgram2, tt, smi).Done?)
    ensures r.Raised? ==>
      ConformationInstance(cfg.conformationProgram1, tt, smi).Raised?
      && r == ConformationInstance(cfg.conformationProgram2, tt, smi)
  {
    var first := ConformationInstance(cfg.conformationProgram1, tt, smi);
    if first.Raised? then ConformationInstance(cfg.conformationProgram2, tt, smi) else first
  }

  /** Plain PDB generation (tools/vflp_run.py:438-449), which is mandatory. */
  function PdbStep(tt: TautomerTools, t: Tautomer): (r: Flow)
    ensures Keeps(t, r, 3, 3)
    ensures r.Go? ==> r.t == t
    ensures r.Stop? ==> r.fault == PdbRequired
  {
    match ObabelPdb(tt.obabelPdb, tt.obabelPdbFile, t.smiProtomer)
    case Done(_) => GrowsRefl(t.trail, 3, 3); Go(t)
    case Crash(why) => Halt(why)
    case Raised(f) =>
      LogGrows(t, Failed("pdb-generation", Message(f)), 3);
      Stop(Log(t, Failed("pdb-generation", Message(f))), PdbRequired)
  }

  /** Conformation generation, then PDB generation when conformation is off
      ("false") or failed without being obligatory (tools/vflp_run.py:412-449).
      A successful conformation is logged with the state "true". A setting
      that is neither "true" nor "false" runs neither. */
  function Structure(cfg: Config, tt: TautomerTools, t: Tautomer): (r: Flow)
    ensures Keeps(t, r, 2, 3)
    ensures r.Stop? ==>
      (cfg.conformationGeneration == "true" && cfg.conformationObligatory == "true" && r.fault.ConformationRequired?)
      || r.fault == PdbRequired
  {
    if cfg.conformationGeneration == "true" then
      match ConformationGeneration(cfg, tt, t.smiProtomer)
      case Crash(why) => Halt(why)
      case Done(_) =>
        LogGrows(t, Entry("conformation", "true", ""), 2);
        Go(Log(t, Entry("conformation", "true", "")))
      case Raised(f) =>
        var u := Log(t, Failed("conformation", Message(f)));
        LogGrows(t, Failed("conformation", Message(f)), 2);
        if cfg.conformationObligatory == "true" then Stop(u, ConformationRequired(f))
        else
          var r := PdbStep(tt, u);
          if r.Halt? then r
          else GrowsTrans(t.trail, u.trail, r.t.trail, 2, 2, 3); r
    else if cfg.conformationGeneration == "false" then
      var r := PdbStep(tt, t);
      if r.Halt? then r
      else GrowsRefl(t.trail, 2, 2); GrowsTrans(t.trail, t.trail, r.t.trail, 2, 2, 3); r
    else
      GrowsRefl(t.trail, 2, 3);
      Go(t)
  }

  // ------------------------------------------------------------ energy check

  /** A PDB file exists for the energy check only when conformation generation
      ran ("true") or plain PDB generation did ("false", or after a failed
      conformation). Any other setting writes no file. */
  predicate PdbWritten(cfg: Config) {
    cfg.conformationGeneration == "true" || cfg.conformationGeneration == "false"
  }

  /** The energy check (tools/vflp_run.py:453-461): a rejected ligand gets the
      engine's output lines as one failed entry and then a second, empty
      failed entry; a timeout raises without any entry. With no PDB file the
      check's opening of it (tools/vflp_run.py:1487) raises an uncaught
      `FileNotFoundError`. */
  function EnergyStep(cfg: Config, tt: TautomerTools, t: Tautomer): (r: Flow)
    ensures Keeps(t, r, 4, 4)
    ensures r.Halt? <==> cfg.energyCheck == "true" && !PdbWritten(cfg)
    ensures r.Halt? ==> r.reason == "FileNotFoundError"
    ensures r.Stop? ==> cfg.energyCheck == "true" && (r.fault == EnergyFailed || r.fault == ObpropTimedOut)
  {
    if cfg.energyCheck != "true" then
      GrowsRefl(t.trail, 4, 4);
      Go(t)
    else if !PdbWritten(cfg) then Halt("FileNotFoundError")
    else match tt.energy
      case Pass =>
        LogGrows(t, Succeeded("energy-check"), 4);
        Go(Log(t, Succeeded("energy-check")))
      case Reject(lines) =>
        var u := Log(t, Failed("energy-check", Join(lines, "|")));
        LogGrows(t, Failed("energy-check", Join(lines, "|")), 4);
        LogGrows(u, Failed("energy-check", ""), 4);
        GrowsTrans(t.trail, u.trail, Log(u, Failed("energy-check", "")).trail, 4, 4, 4);
        Stop(Log(u, Failed("energy-check", "")), EnergyFailed)
      case EnergyTimedOut =>
        GrowsRefl(t.trail, 4, 4);
        Stop(t, ObpropTimedOut)
  }

  // ------------------------------------------------------------ target formats

  function TargetCategory(format: string): string {
    "targetformat-generation(" + format + ")"
  }

  lemma TargetRank(format: string)
    ensures Rank(TargetCategory(format)) == 5
  {
    assert |TargetCategory(format)| > 20;
  }

  /** The entry one format contributes when it does not halt the ligand. */
  function TargetEntry(format: string, tt: TautomerTools): Entry {
    match TargetFormat(format, tt.targetRun(format), tt.targetFile(format))
    case Raised(f) => Failed(TargetCategory(format), Message(f))
    case _ => Succeeded(TargetCategory(format))
  }

  /** The target-format loop (tools/vflp_run.py:461-490): a failing format is
      logged and the loop goes on. */
  function Targets(formats: seq<string>, tt: TautomerTools, t: Tautomer): (r: Flow)
    ensures !r.Stop?
    decreases |formats|
  {
    if formats == [] then Go(t)
    else if TargetFormat(formats[0], tt.targetRun(formats[0]), tt.targetFile(formats[0])).Crash? then
      Halt(TargetFormat(formats[0], tt.targetRun(formats[0]), tt.targetFile(formats[0])).reason)
    else Targets(formats[1..], tt, Log(t, TargetEntry(formats[0], tt)))
  }

  predicate CrashFree(formats: seq<string>, tt: TautomerTools) {
    forall k :: 0 <= k < |formats| ==> !TargetFormat(formats[k], tt.targetRun(formats[k]), tt.targetFile(formats[k])).Crash?
  }

  /** The entries the formats contribute, one per format. */
  function TargetEntries(formats: seq<string>, tt: TautomerTools): (r: seq<Entry>)
    ensures |r| == |formats|
    decreases |formats|
  {
    if formats == [] then [] else [TargetEntry(formats[0], tt)] + TargetEntries(formats[1..], tt)
  }

  lemma {:induction false} TargetEntriesAt(formats: seq<string>, tt: TautomerTools, k: nat)
    requires k < |formats|
    ensures TargetEntries(formats, tt)[k] == TargetEntry(formats[k], tt)
    ensures TargetEntries(formats, tt)[k].category == TargetCategory(formats[k])
    decreases k
  {
    if k > 0 {
      TargetEntriesAt(formats[1..], tt, k - 1);
    }
  }

  lemma CrashFreeTail(formats: seq<string>, tt: TautomerTools)
    requires formats != []
    ensures CrashFree(formats, tt) <==>
      !TargetFormat(formats[0], tt.targetRun(formats[0]), tt.targetFile(formats[0])).Crash? && CrashFree(formats[1..], tt)
  {
    if !CrashFree(formats[1..], tt) {
      var k :| 0 <= k < |formats[1..]| && TargetFormat(formats[1..][k], tt.targetRun(formats[1..][k]), tt.targetFile(formats[1..][k])).Crash?;
      assert formats[1..][k] == formats[k + 1];
    }
    if CrashFree(formats, tt) {
      forall k | 0 <= k < |formats[1..]|
        ensures !TargetFormat(formats[1..][k], tt.targetRun(formats[1..][k]), tt.targetFile(formats[1..][k])).Crash?
      {
        assert formats[1..][k] == formats[k + 1];
      }
    }
  }

  /** Only a crash stops the loop: a failing format does not. */
  lemma {:induction false} TargetsGo(formats: seq<string>, tt: TautomerTools, t: Tautomer)
    ensures Targets(formats, tt, t).Go? <==> CrashFree(formats, tt)
    decreases |formats|
  {
    if formats != [] {
      TargetsGo(formats[1..], tt, Log(t, TargetEntry(formats[0], tt)));
      CrashFreeTail(formats, tt);
    }
  }

  /** Every configured format contributes exactly its entry, in order,
      whether it succeeded or not. */
  lemma {:induction false} TargetsSpec(formats: seq<string>, tt: TautomerTools, t: Tautomer)
    requires CrashFree(formats, tt)
    ensures Targets(formats, tt, t) == Go(t.(trail := t.trail + TargetEntries(formats, tt)))
    decreases |formats|
  {
    if formats != [] {
      var e := TargetEntry(formats[0], tt);
      var u := Log(t, e);
      CrashFreeTail(formats, tt);
      TargetsSpec(formats[1..], tt, u);
      assert TargetEntries(formats, tt) == [e] + TargetEntries(formats[1..], tt);
      assert u.trail + TargetEntries(formats[1..], tt) == t.trail + TargetEntries(formats, tt);
    } else {
      assert t.trail + [] == t.trail;
    }
  }

  /** Target entries only ever carry the target rank. */
  lemma TargetsKeep(formats: seq<string>, tt: TautomerTools, t: Tautomer)
    ensures Keeps(t, Targets(formats, tt, t), 5, 5)
  {
    TargetsGo(formats, tt, t);
    var r := Targets(formats, tt, t);
    if r.Go? {
      TargetsSpec(formats, tt, t);
      var all := TargetEntries(formats, tt);
      assert r.t.trail == t.trail + all;
      assert r.t.trail[..|t.trail|] == t.trail;
      forall i | |t.trail| <= i < |r.t.trail| ensures Rank(r.t.trail[i].category) == 5 {
        assert r.t.trail[i] == all[i - |t.trail|];
        TargetEntriesAt(formats, tt, i - |t.trail|);
        TargetRank(formats[i - |t.trail|]);
      }
    }
  }

  // ------------------------------------------------------------ the whole flow

  /** A fresh tautomer record, before any stage ran. */
  function Fresh(key: string, smi: string, smiStereoisomer: string, smiOriginal: string, stereoIndex: nat, index: nat): Tautomer {
    Tautomer(key, smi, smiStereoisomer, smiOriginal, smi, "failed", [], stereoIndex, index, None)
  }

  /** Whether the target-format loop can name its output file: it reads the
      tranche string, which exists only when tranche assignment is on. */
  predicate TrancheKnown(cfg: Config) {
    cfg.trancheAssignments == "true" || cfg.targetFormats == []
  }

  /** `process_tautomer`: the stages in order; the status becomes "success"
      once the end is reached, whatever the target formats did. */
  function ProcessTautomer(cfg: Config, tt: TautomerTools, fileData: map<string, string>, t: Tautomer): (r: Flow)
    requires TrancheKnown(cfg)
  {
    match Protonate(cfg, tt, t)
    case Halt(why) => Halt(why)
    case Stop(u, f) => Stop(u, f)
    case Go(t1) =>
      match TrancheStep(cfg, tt, fileData, t1)
      case Halt(why) => Halt(why)
      case Stop(u, f) => Stop(u, f)
      case Go(t2) =>
        match Structure(cfg, tt, t2)
        case Halt(why) => Halt(why)
        case Stop(u, f) => Stop(u, f)
        case Go(t3) =>
          match EnergyStep(cfg, tt, t3)
          case Halt(why) => Halt(why)
          case Stop(u, f) => Stop(u, f)
          case Go(t4) =>
            match Targets(cfg.targetFormats, tt, t4)
            case Go(t5) => Go(t5.(status := "success"))
            case Stop(u, f) => Stop(u, f)
            case Halt(why) => Halt(why)
  }

  /** The trail is append-only and in stage order, the key never changes, a
      finished tautomer is "success" and a stopped one keeps its status. */
  lemma ProcessTautomerSpec(cfg: Config, tt: TautomerTools, fileData: map<string, string>, t: Tautomer)
    requires TrancheKnown(cfg)
    requires InStageOrder(t.trail) && RanksAtMost(t.trail, 0)
    ensures var r := ProcessTautomer(cfg, tt, fileData, t);
      (r.Go? ==> r.t.status == "success")
      && (r.Stop? ==> r.t.status == t.status)
      && (!r.Halt? ==>
            (r.t.key == t.key && InStageOrder(r.t.trail) && |t.trail| <= |r.t.trail| && r.t.trail[..|t.trail|] == t.trail))
  {
    var r1 := Protonate(cfg, tt, t);
    if r1.Go? {
      var r2 := TrancheStep(cfg, tt, fileData, r1.t);
      GrowsOrdered(t.trail, r1.t.trail, 0, 0);
      if r2.Go? {
        GrowsTrans(t.trail, r1.t.trail, r2.t.trail, 0, 0, 1);
        var r3 := Structure(cfg, tt, r2.t);
        if r3.Go? {
          GrowsTrans(t.trail, r2.t.trail, r3.t.trail, 0, 1, 3);
          var r4 := EnergyStep(cfg, tt, r3.t);
          if r4.Go? {
            GrowsTrans(t.trail, r3.t.trail, r4.t.trail, 0, 3, 4);
            var r5 := Targets(cfg.targetFormats, tt, r4.t);
            TargetsKeep(cfg.targetFormats, tt, r4.t);
            if r5.Go? {
              GrowsTrans(t.trail, r4.t.trail, r5.t.trail, 0, 4, 5);
              GrowsOrdered(t.trail, r5.t.trail, 0, 5);
            }
          } else if r4.Stop? {
            GrowsTrans(t.trail, r3.t.trail, r4.t.trail, 0, 3, 4);
            GrowsOrdered(t.trail, r4.t.trail, 0, 4);
          }
        } else if r3.Stop? {
          GrowsTrans(t.trail, r2.t.trail, r3.t.trail, 0, 1, 3);
          GrowsOrdered(t.trail, r3.t.trail, 0, 3);
        }
      } else if r2.Stop? {
        GrowsTrans(t.trail, r1.t.trail, r2.t.trail, 0, 0, 1);
        GrowsOrdered(t.trail, r2.t.trail, 0, 1);
      }
    } else if r1.Stop? {
      GrowsOrdered(t.trail, r1.t.trail, 0, 0);
    }
  }

  /** A tautomer is stopped only by an obligatory stage: protonation when it
      is obligatory and neither program is valid, tranche assignment when it
      is on, an obligatory conformation, the mandatory PDB generation, or the
      energy check when it is on. */
  lemma StopCauses(cfg: Config, tt: TautomerTools, fileData: map<string, string>, t: Tautomer)
    requires TrancheKnown(cfg)
    requires ProcessTautomer(cfg, tt, fileData, t).Stop?
    ensures var f := ProcessTautomer(cfg, tt, fileData, t).fault;
      (cfg.protonationStateGeneration == "true" && cfg.protonationObligatory == "true"
        && !ValidProtonation(cfg.protonationProgram1) && !ValidProtonation(cfg.protonationProgram2)
        && f == ProtonationInstance(cfg.protonationProgram2, tt).error)
      || (cfg.trancheAssignments == "true" && f == TrancheFailed)
      || (cfg.conformationGeneration == "true" && cfg.conformationObligatory == "true" && f.ConformationRequired?)
      || f == PdbRequired
      || (cfg.energyCheck == "true" && (f == EnergyFailed || f == ObpropTimedOut))
  {
  }

  /** With protonation on and obligatory, and neither program valid, the
      tautomer stops right away with one failed protonation entry carrying the
      second program's error. */
  lemma ObligatoryProtonation(cfg: Config, tt: TautomerTools, fileData: map<string, string>, t: Tautomer)
    requires TrancheKnown(cfg)
    requires cfg.protonationStateGeneration == "true" && cfg.protonationObligatory == "true"
    requires !ValidProtonation(cfg.protonationProgram1) && !ValidProtonation(cfg.protonationProgram2)
    ensures var f := ProtonationInstance(cfg.protonationProgram2, tt).error;
      ProcessTautomer(cfg, tt, fileData, t) == Stop(t.(trail := t.trail + [Failed("protonation", Message(f))]), f)
  {
  }

  /** A tautomer whose energy is rejected never becomes "success". */
  lemma EnergyRejected(cfg: Config, tt: TautomerTools, fileData: map<string, string>, t: Tautomer)
    requires TrancheKnown(cfg)
    requires cfg.energyCheck == "true" && tt.energy.Reject?
    ensures !ProcessTautomer(cfg, tt, fileData, t).Go?
  {
    var r1 := Protonate(cfg, tt, t);
    if r1.Go? {
      var r2 := TrancheStep(cfg, tt, fileData, r1.t);
      if r2.Go? {
        var r3 := Structure(cfg, tt, r2.t);
        if r3.Go? {
          EnergyStepRejected(cfg, tt, r3.t);
        }
      }
    }
  }

  /** When a rejected energy stops the tautomer, its trail ends with the two
      failed energy-check entries. */
  lemma EnergyRejectedTrail(cfg: Config, tt: TautomerTools, fileData: map<string, string>, t: Tautomer)
    requires TrancheKnown(cfg)
    requires cfg.energyCheck == "true" && tt.energy.Reject?
    ensures var r := ProcessTautomer(cfg, tt, fileData, t);
      r.Stop? && r.fault == EnergyFailed ==> EndsRejected(r.t.trail, tt.energy.lines)
  {
    var r1 := Protonate(cfg, tt, t);
    if r1.Go? {
      var r2 := TrancheStep(cfg, tt, fileData, r1.t);
      if r2.Go? {
        var r3 := Structure(cfg, tt, r2.t);
        if r3.Go? {
          var r4 := EnergyStep(cfg, tt, r3.t);
          EnergyStepRejected(cfg, tt, r3.t);
          if r4.Stop? {
            RejectedEnds(r3.t.trail, tt.energy.lines);
          }
          assert ProcessTautomer(cfg, tt, fileData, t) == r4;
        } else {
          assert ProcessTautomer(cfg, tt, fileData, t) == r3;
        }
      } else {
        assert ProcessTautomer(cfg, tt, fileData, t) == r2;
      }
    } else {
      assert ProcessTautomer(cfg, tt, fileData, t) == r1;
    }
  }

  /** The trail ends with the rejection's two failed energy-check entries:
      the engine's output lines, then an empty text. */
  predicate EndsRejected(trail: seq<Entry>, lines: seq<string>) {
    |trail| >= 2
    && trail[|trail| - 2] == Failed("energy-check", Join(lines, "|"))
    && trail[|trail| - 1] == Failed("energy-check", "")
  }

  lemma RejectedEnds(trail: seq<Entry>, lines: seq<string>)
    ensures EndsRejected(trail + [Failed("energy-check", Join(lines, "|")), Failed("energy-check", "")], lines)
  {
  }

  /** The rejecting energy check itself: it never lets the tautomer through. */
  lemma EnergyStepRejected(cfg: Config, tt: TautomerTools, t: Tautomer)
    requires cfg.energyCheck == "true" && tt.energy.Reject?
    ensures var r := EnergyStep(cfg, tt, t);
      !r.Go?
      && (r.Stop? ==>
            r.fault == EnergyFailed
            && r.t.trail == t.trail + [Failed("energy-check", Join(tt.energy.lines, "|")), Failed("energy-check", "")])
  {
  }

  /** With the energy check on and conformation generation neither "true"
      nor "false", a tautomer that gets past protonation and tranche
      assignment ends the run: no PDB file was written for the check. */
  lemma MissingPdbHalts(cfg: Config, tt: TautomerTools, fileData: map<string, string>, t: Tautomer)
    requires TrancheKnown(cfg)
    requires cfg.energyCheck == "true" && !PdbWritten(cfg)
    requires Protonate(cfg, tt, t).Go? && TrancheStep(cfg, tt, fileData, Protonate(cfg, tt, t).t).Go?
    ensures ProcessTautomer(cfg, tt, fileData, t) == Halt("FileNotFoundError")
  {
    var t2 := TrancheStep(cfg, tt, fileData, Protonate(cfg, tt, t).t).t;
    assert Structure(cfg, tt, t2) == Go(t2);
  }

  /** A finished tautomer carries a successful tranche-assignment entry (even
      with tranche assignment off) and ends with exactly one entry per target
      format, in configured order. */
  lemma FinishedTrail(cfg: Config, tt: TautomerTools, fileData: map<string, string>, t: Tautomer)
    requires TrancheKnown(cfg)
    requires ProcessTautomer(cfg, tt, fileData, t).Go?
    ensures var u := ProcessTautomer(cfg, tt, fileData, t).t;
      Succeeded("tranche-assignment") in u.trail
      && |u.trail| >= |cfg.targetFormats|
      && u.trail[|u.trail| - |cfg.targetFormats|..] == TargetEntries(cfg.targetFormats, tt)
  {
    var r1 := Protonate(cfg, tt, t);
    var r2 := TrancheStep(cfg, tt, fileData, r1.t);
    var r3 := Structure(cfg, tt, r2.t);
    var r4 := EnergyStep(cfg, tt, r3.t);
    TargetsGo(cfg.targetFormats, tt, r4.t);
    TargetsSpec(cfg.targetFormats, tt, r4.t);
    var u := ProcessTautomer(cfg, tt, fileData, t).t;
    assert u.trail == r4.t.trail + TargetEntries(cfg.targetFormats, tt);
    assert r2.t.trail == r1.t.trail + [Succeeded("tranche-assignment")];
    assert Succeeded("tranche-assignment") in r2.t.trail;
    assert r3.t.trail[..|r2.t.trail|] == r2.t.trail;
    assert r4.t.trail[..|r3.t.trail|] == r3.t.trail;
    assert u.trail[..|r4.t.trail|] == r4.t.trail;
    assert Succeeded("tranche-assignment") in u.trail by {
      var k := |r1.t.trail|;
      assert r2.t.trail[k] == Succeeded("tranche-assignment");
      assert r3.t.trail[k] == r2.t.trail[k];
      assert r4.t.trail[k] == r3.t.trail[k];
      assert u.trail[k] == r4.t.trail[k];
    }
  }

  /** A conformation that succeeds is logged with the state "true", not
      "success", and no PDB generation follows it. */
  lemma ConformationLoggedTrue(cfg: Config, tt: TautomerTools, t: Tautomer)
    requires cfg.conformationGeneration == "true"
    requires ConformationGeneration(cfg, tt, t.smiProtomer).Done?
    ensures Structure(cfg, tt, t) == Go(t.(trail := t.trail + [Entry("conformation", "true", "")]))
  {
  }
}
