/** `process_ligand` and `process_stereoisomer` (tools/vflp_run.py:60-256)
    with the ligand-level stages they call: desalting, neutralization,
    stereoisomer generation and tautomer generation (262-360).

    Ligand-level failures are caught: an obligatory stage that fails ends the
    ligand with status "failed" and nothing else, an optional one is logged
    and the pipeline goes on. Everything a tautomer raises is caught by its
    stereoisomer, so one tautomer's failure never affects its siblings.
 */
module LigandFlow {

  import opened Base
  import opened PyStr
  import opened Engines
  import opened Sorting
  import opened Records
  import opened TautomerFlow

  // ------------------------------------------------------------ desalting

  datatype Desalted = Desalted(smi: string, fragments: nat, trail: seq<Entry>)

  function Length(s: string): int {
    |s|
  }

  /** The "." fragments of the ligand's first token. */
  function Fragments(smi: string): seq<string>
    requires HasToken(smi)
  {
    SplitSep(Split(smi)[0], '.')
  }

  /** `desalt` (tools/vflp_run.py:262-294). The SMILES is cut at its first
      whitespace; with desalting on it is split into its "." fragments, and
      of several fragments the one at position 1 of the stably
      length-sorted list is kept. Splitting always yields a fragment, so the
      failure branch of the source cannot be taken. */
  function Desalt(cfg: Config, smi: string): (r: Desalted)
    requires HasToken(smi)
    ensures r.fragments >= 1
    ensures cfg.desalting == "true" ==>
      r.smi in Fragments(smi) && r.fragments == |Fragments(smi)|
      && (r.fragments == 1 ==> r.smi == Split(smi)[0] && r.trail == [Entry("desalt", "success", "untouched")])
      && (r.fragments > 1 ==> r.trail == [Entry("desalt", "success", "genuine")])
    ensures cfg.desalting != "true" ==> r == Desalted(Split(smi)[0], 1, [])
  {
    var token := Split(smi)[0];
    if cfg.desalting == "true" then
      var parts := SplitSep(token, '.');
      if |parts| == 1 then
        assert Join(parts, ".") == parts[0];
        Desalted(parts[0], 1, [Entry("desalt", "success", "untouched")])
      else
        var sorted := SortBy(parts, Length);
        assert sorted[1] in multiset(parts);
        Desalted(sorted[1], |parts|, [Entry("desalt", "success", "genuine")])
    else
      Desalted(token, 1, [])
  }

  /** Of several fragments desalting keeps the second one of ANY stable
      ordering by length: ordered by length, with each length's fragments in
      their input order. With two fragments that is the longer one (the
      second on a tie); with more it is the second in that order. */
  lemma DesaltKeepsSecond(cfg: Config, smi: string, ys: seq<string>)
    requires HasToken(smi) && cfg.desalting == "true" && |Fragments(smi)| > 1
    requires SortedBy(ys, Length)
    requires forall k :: WithKey(ys, Length, k) == WithKey(Fragments(smi), Length, k)
    ensures |ys| == |Fragments(smi)|
    ensures Desalt(cfg, smi).smi == ys[1]
  {
    var parts := Fragments(smi);
    StableSortIs(parts, ys);
    var token := Split(smi)[0];
    assert parts == SplitSep(token, '.');
    assert Desalt(cfg, smi) == Desalted(SortBy(parts, Length)[1], |parts|, [Entry("desalt", "success", "genuine")]);
  }

  /** A stable ordering by length is the sort's output. */
  lemma StableSortIs(parts: seq<string>, ys: seq<string>)
    requires SortedBy(ys, Length)
    requires forall k :: WithKey(ys, Length, k) == WithKey(parts, Length, k)
    ensures SortBy(parts, Length) == ys && |ys| == |parts|
  {
    var sorted := SortBy(parts, Length);
    assert |multiset(sorted)| == |multiset(parts)|;
    SortBySpec(parts, Length);
    forall k ensures WithKey(sorted, Length, k) == WithKey(ys, Length, k) {
      assert WithKey(sorted, Length, k) == WithKey(parts, Length, k);
    }
    SortByUnique(sorted, ys, Length);
  }

  /** Sorting two fragments by length. */
  lemma SortTwo(a: string, b: string)
    ensures SortBy([a, b], Length) == if |a| > |b| then [b, a] else [a, b]
  {
    assert [a, b][..1] == [a];
    assert SortBy([a], Length) == Insert([], a, Length) == [a] by {
      assert [a][..0] == [];
    }
    assert SortBy([a, b], Length) == Insert([a], b, Length);
  }

  /** Of two fragments the longer one is kept; of two equally long ones the
      second. */
  lemma DesaltTwo(cfg: Config, smi: string)
    requires HasToken(smi) && cfg.desalting == "true" && |Fragments(smi)| == 2
    ensures var parts := Fragments(smi);
      Desalt(cfg, smi).smi == if |parts[0]| > |parts[1]| then parts[0] else parts[1]
  {
    var parts := Fragments(smi);
    SortTwo(parts[0], parts[1]);
    assert parts == [parts[0], parts[1]];
  }

  // ------------------------------------------------------------ neutralization

  predicate Charged(smi: string) {
    Contains(smi, "-]") || Contains(smi, "+]")
  }

  /** The mode test of `neutralization` (tools/vflp_run.py:306-315). */
  function NeutralizationRuns(mode: string, fragments: nat, smi: string): bool {
    if mode == "always" then true
    else if mode == "only_genuine_desalting" && fragments > 1 then true
    else if mode == "only_genuine_desalting_and_if_charged" && fragments > 1 then Charged(smi)
    else false
  }

  /** `neutralization` with neutralization on (tools/vflp_run.py:301-327): the
      neutralized SMILES is the standardizer's last output line. */
  function Neutralize(cfg: Config, d: Desalted, run: Run): (r: Result<(string, Entry), Fault>)
    ensures !NeutralizationRuns(cfg.neutralizationMode, d.fragments, d.smi) ==>
      r == Ok((d.smi, Entry("neutralization", "success", "untouched")))
    ensures NeutralizationRuns(cfg.neutralizationMode, d.fragments, d.smi) ==>
      (r.Ok? <==> ChemaxonGeneral(run, true).Ok?)
      && (r.Ok? ==> r.value.1 == Entry("neutralization", "success", "genuine")
                    && r.value.0 == SplitLines(run.stdout)[|SplitLines(run.stdout)| - 1])
      && (r.Err? ==> r.error == ChemaxonGeneral(run, true).error)
  {
    if NeutralizationRuns(cfg.neutralizationMode, d.fragments, d.smi) then
      match ChemaxonGeneral(run, true)
      case Err(f) => Err(f)
      case Ok(o) =>
        var lines := SplitLines(o.stdout);
        Ok((lines[|lines| - 1], Entry("neutralization", "success", "genuine")))
    else Ok((d.smi, Entry("neutralization", "success", "untouched")))
  }

  // ------------------------------------------------------------ stereoisomers and tautomers

  /** `stereoisomer_generation` (tools/vflp_run.py:338-348): one SMILES line
      per stereoisomer, or the neutralized SMILES alone when it is off. */
  function StereoisomerGeneration(cfg: Config, run: Run, smi: string): (r: Result<(seq<string>, seq<Entry>), Fault>)
    ensures r.Ok? ==> |r.value.0| >= 1
    ensures cfg.stereoisomerGeneration != "true" ==> r == Ok(([smi], []))
  {
    if cfg.stereoisomerGeneration == "true" then
      match ChemaxonGeneral(run, true)
      case Err(f) => Err(f)
      case Ok(o) =>
        match StereoisomerLines(o)
        case Err(f) => Err(f)
        case Ok(lines) => Ok((lines, [Succeeded("stereoisomer")]))
    else Ok(([smi], []))
  }

  /** `tautomer_generation` (tools/vflp_run.py:351-360). */
  function TautomerGeneration(cfg: Config, run: Run, smi: string): (r: Result<(seq<string>, seq<Entry>), Fault>)
    ensures r.Ok? ==> |r.value.0| >= 1
    ensures cfg.tautomerization != "true" ==> r == Ok(([smi], []))
  {
    if cfg.tautomerization == "true" then
      match ChemaxonGeneral(run, true)
      case Err(f) => Err(f)
      case Ok(o) =>
        match TautomerSmiles(o)
        case Err(f) => Err(f)
        case Ok(smis) => Ok((smis, [Succeeded("tautomerization")]))
    else Ok(([smi], []))
  }

  // ------------------------------------------------------------ keys

  function StereoKey(ligandKey: string, i: nat): string {
    ligandKey + "_S" + NatToString(i)
  }

  function TautomerKey(stereoKey: string, j: nat): string {
    stereoKey + "_T" + NatToString(j)
  }

  /** In digits followed by a separator, the separator's first character is
      the first non-digit. */
  lemma NonDigitAt(x: string, sep: string, y: string)
    requires IsDigits(x) && |sep| > 0 && !IsDigit(sep[0])
    ensures |x| < |x + sep + y| && !IsDigit((x + sep + y)[|x|])
    ensures forall k :: 0 <= k < |x| ==> IsDigit((x + sep + y)[k])
  {
    assert (x + sep + y)[|x|] == sep[0];
    forall k | 0 <= k < |x| ensures IsDigit((x + sep + y)[k]) {
      assert (x + sep + y)[k] == x[k];
    }
  }

  /** Two digit strings each followed by the same non-digit separator can
      only match position by position. */
  lemma DigitsThenSeparator(x: string, y: string, u: string, v: string, sep: string)
    requires IsDigits(x) && IsDigits(u) && |sep| > 0 && !IsDigit(sep[0])
    requires x + sep + y == u + sep + v
    ensures x == u && y == v
  {
    var l := x + sep + y;
    NonDigitAt(x, sep, y);
    NonDigitAt(u, sep, v);
    assert |x| == |u|;
    assert x == l[..|x|];
    assert u == (u + sep + v)[..|u|];
    assert y == l[|x| + |sep|..];
    assert v == (u + sep + v)[|u| + |sep|..];
  }

  /** Stereoisomer i of a ligand is keyed `<ligand>_S<i>` and its tautomer j
      `<ligand>_S<i>_T<j>`; distinct positions give distinct keys. */
  lemma KeysInjective(ligandKey: string, i: nat, j: nat, i2: nat, j2: nat)
    ensures StereoKey(ligandKey, i) == StereoKey(ligandKey, i2) ==> i == i2
    ensures TautomerKey(StereoKey(ligandKey, i), j) == TautomerKey(StereoKey(ligandKey, i2), j2) ==> i == i2 && j == j2
  {
    var p := ligandKey + "_S";
    if StereoKey(ligandKey, i) == StereoKey(ligandKey, i2) {
      assert NatToString(i) == StereoKey(ligandKey, i)[|p|..];
      assert NatToString(i2) == StereoKey(ligandKey, i2)[|p|..];
      NatToStringInjective(i, i2);
    }
    var a := TautomerKey(StereoKey(ligandKey, i), j);
    var b := TautomerKey(StereoKey(ligandKey, i2), j2);
    if a == b {
      assert a == p + (NatToString(i) + "_T" + NatToString(j));
      assert b == p + (NatToString(i2) + "_T" + NatToString(j2));
      assert a[|p|..] == NatToString(i) + "_T" + NatToString(j);
      assert b[|p|..] == NatToString(i2) + "_T" + NatToString(j2);
      DigitsThenSeparator(NatToString(i), NatToString(j), NatToString(i2), NatToString(j2), "_T");
      NatToStringInjective(i, i2);
      NatToStringInjective(j, j2);
    }
  }

  // ------------------------------------------------------------ process_stereoisomer

  /** What a ligand's processing needs of the ligand besides the tools. */
  predicate Processable(cfg: Config, lig: Ligand) {
    HasToken(lig.smi) && cfg.neutralization == "true" && TrancheKnown(cfg)
  }

  /** The tautomer loop of `process_stereoisomer` (tools/vflp_run.py:222-246)
      from position `j` on: each SMILES is cut at its first whitespace (an
      `IndexError` for a blank one) and processed; a tautomer that stops is
      kept with its trail and the loop goes on. */
  function TautomerLoop(cfg: Config, tools: Tools, lig: Ligand, s: Stereoisomer, smis: seq<string>, j: nat): (r: Outcome<seq<Tautomer>>)
    requires TrancheKnown(cfg) && j <= |smis|
    ensures !r.Raised?
    ensures r.Done? ==> |r.value| == |smis| - j
    decreases |smis| - j
  {
    if j == |smis| then Done([])
    else match FirstToken(smis[j])
      case None => Crash("IndexError")
      case Some(tok) =>
        var key := TautomerKey(s.key, j);
        var t0 := Fresh(key, tok, s.smi, lig.smi, s.index, j);
        var flow := ProcessTautomer(cfg, tools.tautomer(key), lig.fileData, t0);
        if flow.Halt? then Crash(flow.reason)
        else
          ProcessTautomerSpec(cfg, tools.tautomer(key), lig.fileData, t0);
          var rest := TautomerLoop(cfg, tools, lig, s, smis, j + 1);
          if rest.Done? then Done([flow.t.(stereoIndex := s.index, index := j)] + rest.value) else rest
  }

  /** One step of the tautomer loop: the first record is the processed
      tautomer at position `j`, the rest come from the remaining SMILES. */
  lemma TautomerLoopHead(cfg: Config, tools: Tools, lig: Ligand, s: Stereoisomer, smis: seq<string>, j: nat)
    requires TrancheKnown(cfg) && j < |smis|
    requires TautomerLoop(cfg, tools, lig, s, smis, j).Done?
    ensures var ts := TautomerLoop(cfg, tools, lig, s, smis, j).value;
      TautomerLoop(cfg, tools, lig, s, smis, j + 1).Done?
      && ts[1..] == TautomerLoop(cfg, tools, lig, s, smis, j + 1).value
      && ts[0].index == j && ts[0].stereoIndex == s.index && ts[0].key == TautomerKey(s.key, j)
  {
    var key := TautomerKey(s.key, j);
    var t0 := Fresh(key, FirstToken(smis[j]).value, s.smi, lig.smi, s.index, j);
    ProcessTautomerSpec(cfg, tools.tautomer(key), lig.fileData, t0);
  }

  /** Tautomer `k` of `ts` sits at position `j + k` of stereoisomer number
      `stereoIndex` and is keyed `<stereoKey>_T<j + k>`. */
  predicate PositionedFrom(ts: seq<Tautomer>, stereoKey: string, stereoIndex: nat, j: nat) {
    forall k :: 0 <= k < |ts| ==>
      ts[k].index == j + k && ts[k].stereoIndex == stereoIndex && ts[k].key == TautomerKey(stereoKey, j + k)
  }

  lemma PositionedCons(ts: seq<Tautomer>, stereoKey: string, stereoIndex: nat, j: nat)
    requires |ts| > 0 && PositionedFrom(ts[1..], stereoKey, stereoIndex, j + 1)
    requires ts[0].index == j && ts[0].stereoIndex == stereoIndex && ts[0].key == TautomerKey(stereoKey, j)
    ensures PositionedFrom(ts, stereoKey, stereoIndex, j)
  {
    forall k | 1 <= k < |ts|
      ensures ts[k].index == j + k && ts[k].stereoIndex == stereoIndex && ts[k].key == TautomerKey(stereoKey, j + k)
    {
      assert ts[k] == ts[1..][k - 1];
    }
  }

  lemma {:induction false} TautomerLoopKeys(cfg: Config, tools: Tools, lig: Ligand, s: Stereoisomer, smis: seq<string>, j: nat)
    requires TrancheKnown(cfg) && j <= |smis|
    requires TautomerLoop(cfg, tools, lig, s, smis, j).Done?
    ensures PositionedFrom(TautomerLoop(cfg, tools, lig, s, smis, j).value, s.key, s.index, j)
    decreases |smis| - j
  {
    if j < |smis| {
      TautomerLoopHead(cfg, tools, lig, s, smis, j);
      TautomerLoopKeys(cfg, tools, lig, s, smis, j + 1);
      PositionedCons(TautomerLoop(cfg, tools, lig, s, smis, j).value, s.key, s.index, j);
    }
  }

  /** The tautomer SMILES a stereoisomer is expanded into: the tautomer
      generation's output, or the stereoisomer alone when it failed without
      being obligatory. */
  function TautomerSmilesFor(cfg: Config, tools: Tools, key: string, smi: string): seq<string> {
    match TautomerGeneration(cfg, tools.tautomers(key), smi)
    case Ok(v) => v.0
    case Err(_) => [smi]
  }

  /** `process_stereoisomer` (tools/vflp_run.py:194-256). */
  function ProcessStereoisomer(cfg: Config, tools: Tools, lig: Ligand, key: string, smi: string, index: nat): (r: Outcome<(Stereoisomer, seq<Tautomer>)>)
    requires TrancheKnown(cfg)
    ensures !r.Raised?
    ensures r.Done? ==> r.value.0.key == key && r.value.0.index == index && r.value.0.smi == smi
  {
    var s := Stereoisomer(key, smi, "failed", [], index);
    match TautomerGeneration(cfg, tools.tautomers(key), smi)
    case Err(f) =>
      var s1 := s.(trail := [Failed("tautomerization", "Failed " + Message(f))]);
      if cfg.tautomerizationObligatory == "true" then Done((s1, []))
      else
        (match TautomerLoop(cfg, tools, lig, s1, [smi], 0)
         case Done(ts) => Done((s1.(status := "success"), ts))
         case Raised(f) => Raised(f)
         case Crash(why) => Crash(why))
    case Ok(v) =>
      var s1 := s.(trail := v.1);
      match TautomerLoop(cfg, tools, lig, s1, v.0, 0)
      case Done(ts) => Done((s1.(status := "success"), ts))
      case Raised(f) => Raised(f)
      case Crash(why) => Crash(why)
  }

  /** A stereoisomer fails only when its tautomerization failed and is
      obligatory, and then has no tautomers; otherwise it is "success" with
      one tautomer per tautomer SMILES, whatever became of them. */
  lemma ProcessStereoisomerSpec(cfg: Config, tools: Tools, lig: Ligand, key: string, smi: string, index: nat)
    requires TrancheKnown(cfg)
    requires ProcessStereoisomer(cfg, tools, lig, key, smi, index).Done?
    ensures var (s, ts) := ProcessStereoisomer(cfg, tools, lig, key, smi, index).value;
      var failed := TautomerGeneration(cfg, tools.tautomers(key), smi).Err? && cfg.tautomerizationObligatory == "true";
      (s.status == "failed" <==> failed)
      && (s.status == "failed" ==> ts == [])
      && (s.status == "success" ==> |ts| == |TautomerSmilesFor(cfg, tools, key, smi)|)
  {
  }

  /** The tautomers of a stereoisomer are its positions 0, 1, ... in order,
      keyed `<stereoisomer>_T<position>`. */
  lemma StereoisomerKeys(cfg: Config, tools: Tools, lig: Ligand, key: string, smi: string, index: nat)
    requires TrancheKnown(cfg)
    requires ProcessStereoisomer(cfg, tools, lig, key, smi, index).Done?
    ensures PositionedFrom(ProcessStereoisomer(cfg, tools, lig, key, smi, index).value.1, key, index, 0)
  {
    var s := Stereoisomer(key, smi, "failed", [], index);
    match TautomerGeneration(cfg, tools.tautomers(key), smi)
    case Err(f) =>
      var s1 := s.(trail := [Failed("tautomerization", "Failed " + Message(f))]);
      if cfg.tautomerizationObligatory != "true" {
        TautomerLoopKeys(cfg, tools, lig, s1, [smi], 0);
      }
    case Ok(v) =>
      TautomerLoopKeys(cfg, tools, lig, s.(trail := v.1), v.0, 0);
  }

  // ------------------------------------------------------------ process_ligand

  /** The stereoisomer loop of `process_ligand` (tools/vflp_run.py:143-177)
      from position `i` on. */
  function StereoLoop(cfg: Config, tools: Tools, lig: Ligand, lines: seq<string>, i: nat): (r: Outcome<(seq<Stereoisomer>, seq<Tautomer>)>)
    requires TrancheKnown(cfg) && i <= |lines|
    ensures !r.Raised?
    ensures r.Done? ==> |r.value.0| == |lines| - i
    decreases |lines| - i
  {
    if i == |lines| then Done(([], []))
    else match FirstToken(lines[i])
      case None => Crash("IndexError")
      case Some(tok) =>
        var st := ProcessStereoisomer(cfg, tools, lig, StereoKey(lig.key, i), tok, i);
        if st.Crash? then Crash(st.reason)
        else
          var rest := StereoLoop(cfg, tools, lig, lines, i + 1);
          if rest.Done? then Done(([st.value.0] + rest.value.0, st.value.1 + rest.value.1)) else rest
  }

  /** One step of the stereoisomer loop. */
  lemma StereoLoopHead(cfg: Config, tools: Tools, lig: Ligand, lines: seq<string>, i: nat)
    requires TrancheKnown(cfg) && i < |lines|
    requires StereoLoop(cfg, tools, lig, lines, i).Done?
    ensures FirstToken(lines[i]).Some?
    ensures var st := ProcessStereoisomer(cfg, tools, lig, StereoKey(lig.key, i), FirstToken(lines[i]).value, i);
      var rest := StereoLoop(cfg, tools, lig, lines, i + 1);
      st.Done? && rest.Done?
      && StereoLoop(cfg, tools, lig, lines, i).value == ([st.value.0] + rest.value.0, st.value.1 + rest.value.1)
  {
  }

  /** Stereoisomer `k` of `ss` is number `i + k`, keyed `<ligand>_S<i + k>`. */
  predicate StereoPositioned(ss: seq<Stereoisomer>, ligandKey: string, i: nat) {
    forall k :: 0 <= k < |ss| ==> ss[k].index == i + k && ss[k].key == StereoKey(ligandKey, i + k)
  }

  /** The order tautomers are recorded in: by stereoisomer, then by position. */
  predicate Before(a: Tautomer, b: Tautomer) {
    a.stereoIndex < b.stereoIndex || (a.stereoIndex == b.stereoIndex && a.index < b.index)
  }

  /** Every tautomer is keyed by its two positions, which strictly increase
      along the sequence. */
  predicate KeyedBy(ligandKey: string, ts: seq<Tautomer>, from: nat) {
    (forall k :: 0 <= k < |ts| ==>
      ts[k].stereoIndex >= from && ts[k].key == TautomerKey(StereoKey(ligandKey, ts[k].stereoIndex), ts[k].index))
    && forall a, b :: 0 <= a < b < |ts| ==> Before(ts[a], ts[b])
  }

  lemma StereoPositionedCons(s: Stereoisomer, ss: seq<Stereoisomer>, ligandKey: string, i: nat)
    requires s.index == i && s.key == StereoKey(ligandKey, i) && StereoPositioned(ss, ligandKey, i + 1)
    ensures StereoPositioned([s] + ss, ligandKey, i)
  {
    forall k | 1 <= k < |ss| + 1 ensures ([s] + ss)[k].index == i + k && ([s] + ss)[k].key == StereoKey(ligandKey, i + k) {
      assert ([s] + ss)[k] == ss[k - 1];
    }
  }

  lemma KeyedConcat(ligandKey: string, head: seq<Tautomer>, rest: seq<Tautomer>, i: nat)
    requires PositionedFrom(head, StereoKey(ligandKey, i), i, 0)
    requires KeyedBy(ligandKey, rest, i + 1)
    ensures KeyedBy(ligandKey, head + rest, i)
  {
    var all := head + rest;
    forall a, b | 0 <= a < b < |all| ensures Before(all[a], all[b]) {
      if b < |head| {
        assert all[a] == head[a] && all[b] == head[b];
      } else if a < |head| {
        assert all[a] == head[a] && all[b] == rest[b - |head|];
      } else {
        assert all[a] == rest[a - |head|] && all[b] == rest[b - |head|];
      }
    }
    forall k | 0 <= k < |all|
      ensures all[k].stereoIndex >= i
      ensures all[k].key == TautomerKey(StereoKey(ligandKey, all[k].stereoIndex), all[k].index)
    {
      if k < |head| {
        assert all[k] == head[k];
      } else {
        assert all[k] == rest[k - |head|];
      }
    }
  }

  /** Stereoisomers are numbered and keyed by position, and tautomers are
      keyed by their two positions in increasing order. */
  lemma {:induction false} StereoLoopKeys(cfg: Config, tools: Tools, lig: Ligand, lines: seq<string>, i: nat)
    requires TrancheKnown(cfg) && i <= |lines|
    requires StereoLoop(cfg, tools, lig, lines, i).Done?
    ensures StereoPositioned(StereoLoop(cfg, tools, lig, lines, i).value.0, lig.key, i)
    ensures KeyedBy(lig.key, StereoLoop(cfg, tools, lig, lines, i).value.1, i)
    decreases |lines| - i
  {
    if i < |lines| {
      StereoLoopHead(cfg, tools, lig, lines, i);
      var tok := FirstToken(lines[i]).value;
      var st := ProcessStereoisomer(cfg, tools, lig, StereoKey(lig.key, i), tok, i).value;
      var rest := StereoLoop(cfg, tools, lig, lines, i + 1).value;
      StereoLoopKeys(cfg, tools, lig, lines, i + 1);
      StereoisomerKeys(cfg, tools, lig, StereoKey(lig.key, i), tok, i);
      KeyedConcat(lig.key, st.1, rest.1, i);
      StereoPositionedCons(st.0, rest.0, lig.key, i);
    }
  }

  /** The ligand "success" with its stereoisomers and tautomers. */
  function Expand(cfg: Config, tools: Tools, lig: Ligand, lines: seq<string>, trail: seq<Entry>): (r: Outcome<Completion>)
    requires TrancheKnown(cfg)
    ensures !r.Raised?
    ensures r.Done? ==> r.value.status == "success" && r.value.trail == trail
  {
    match StereoLoop(cfg, tools, lig, lines, 0)
    case Done(v) => Done(Completion("success", trail, v.0, v.1))
    case Raised(f) => Raised(f)
    case Crash(why) => Crash(why)
  }

  /** The stereoisomer stage of `process_ligand` (tools/vflp_run.py:121-137):
      it only appends to the ligand's trail. */
  function StereoStage(cfg: Config, tools: Tools, lig: Ligand, smi: string, trail: seq<Entry>): (r: Outcome<Completion>)
    requires TrancheKnown(cfg)
    ensures !r.Raised?
    ensures r.Done? ==> |trail| <= |r.value.trail| && r.value.trail[..|trail|] == trail
  {
    match StereoisomerGeneration(cfg, tools.stereoisomers, smi)
    case Err(f) =>
      var trail2 := trail + [Failed("stereoisomer", "Failed " + Message(f))];
      if cfg.stereoisomerObligatory == "true" then Done(Completion("failed", trail2, [], []))
      else Expand(cfg, tools, lig, [smi], trail2)
    case Ok(v) => Expand(cfg, tools, lig, v.0, trail + v.1)
  }

  /** The SMILES handed to stereoisomer generation: the neutralized one, or
      the desalted one when neutralization failed without being obligatory. */
  function NeutralizedSmi(cfg: Config, tools: Tools, lig: Ligand): string
    requires HasToken(lig.smi)
  {
    NeutralOutput(cfg, Desalt(cfg, lig.smi), tools.standardizer)
  }

  function NeutralOutput(cfg: Config, d: Desalted, run: Run): string {
    match Neutralize(cfg, d, run)
    case Ok(v) => v.0
    case Err(_) => d.smi
  }

  /** `process_ligand` (tools/vflp_run.py:60-187), for neutralization on; with
      it off the source reads a key no stage ever sets. */
  function ProcessLigand(cfg: Config, tools: Tools, lig: Ligand): (r: Outcome<Completion>)
    requires Processable(cfg, lig)
    ensures !r.Raised?
  {
    var d := Desalt(cfg, lig.smi);
    match Neutralize(cfg, d, tools.standardizer)
    case Err(f) =>
      var trail := d.trail + [Failed("neutralization", "Failed " + Message(f))];
      if cfg.neutralizationObligatory == "true" then Done(Completion("failed", trail, [], []))
      else StereoStage(cfg, tools, lig, d.smi, trail)
    case Ok(v) => StereoStage(cfg, tools, lig, v.0, d.trail + [v.1])
  }

  /** The entry neutralization leaves in the ligand's trail. */
  function NeutralizationEntry(cfg: Config, d: Desalted, run: Run): Entry {
    match Neutralize(cfg, d, run)
    case Ok(v) => v.1
    case Err(f) => Failed("neutralization", "Failed " + Message(f))
  }

  /** The ligand's trail starts with the desalting entries and the
      neutralization entry. */
  lemma LigandTrailStart(cfg: Config, tools: Tools, lig: Ligand)
    requires Processable(cfg, lig)
    requires ProcessLigand(cfg, tools, lig).Done?
    ensures var d := Desalt(cfg, lig.smi);
      var trail := ProcessLigand(cfg, tools, lig).value.trail;
      |d.trail| < |trail| && trail[..|d.trail| + 1] == d.trail + [NeutralizationEntry(cfg, d, tools.standardizer)]
  {
    var d := Desalt(cfg, lig.smi);
    var c := ProcessLigand(cfg, tools, lig).value;
    var start := d.trail + [NeutralizationEntry(cfg, d, tools.standardizer)];
    var smi := NeutralizedSmi(cfg, tools, lig);
    if Neutralize(cfg, d, tools.standardizer).Err? && cfg.neutralizationObligatory == "true" {
      assert c.trail == start;
    } else {
      assert ProcessLigand(cfg, tools, lig) == StereoStage(cfg, tools, lig, smi, start);
    }
    assert |start| == |d.trail| + 1;
  }

  /** The standardizer runs, and the entry reads "genuine" or "failed",
      exactly in "always" mode, in "only_genuine_desalting" mode after a
      genuine desalting, and in the third mode after a genuine desalting of a
      SMILES holding "-]" or "+]"; otherwise the entry reads "untouched" and
      the desalted SMILES goes on. */
  lemma NeutralizationEntrySpec(cfg: Config, d: Desalted, run: Run)
    ensures var e := NeutralizationEntry(cfg, d, run);
      var mode := cfg.neutralizationMode;
      var runs := mode == "always"
        || (mode == "only_genuine_desalting" && d.fragments > 1)
        || (mode == "only_genuine_desalting_and_if_charged" && d.fragments > 1
            && (Contains(d.smi, "-]") || Contains(d.smi, "+]")));
      e.category == "neutralization"
      && (e.text == "untouched" <==> !runs)
      && (!runs ==> e.state == "success" && NeutralOutput(cfg, d, run) == d.smi)
      && (runs ==> (e.state == "success" <==> ChemaxonGeneral(run, true).Ok?))
      && (runs && ChemaxonGeneral(run, true).Ok? ==>
            e.text == "genuine" && NeutralOutput(cfg, d, run) == SplitLines(run.stdout)[|SplitLines(run.stdout)| - 1])
  {
    var r := Neutralize(cfg, d, run);
    var e := NeutralizationEntry(cfg, d, run);
    if r.Err? {
      assert e.text[0] == 'F' != "untouched"[0];
    }
  }

  /** A ligand fails exactly when an obligatory ligand-level stage failed
      (neutralization, or stereoisomer generation), and then carries no
      stereoisomers or tautomers; otherwise it is "success" whatever its
      tautomers did. */
  lemma ProcessLigandStatus(cfg: Config, tools: Tools, lig: Ligand)
    requires Processable(cfg, lig)
    requires ProcessLigand(cfg, tools, lig).Done?
    ensures var c := ProcessLigand(cfg, tools, lig).value;
      var neutralFailed := Neutralize(cfg, Desalt(cfg, lig.smi), tools.standardizer).Err?;
      var stereoFailed := StereoisomerGeneration(cfg, tools.stereoisomers, NeutralizedSmi(cfg, tools, lig)).Err?;
      (c.status == "failed" <==>
        (neutralFailed && cfg.neutralizationObligatory == "true")
        || (!(neutralFailed && cfg.neutralizationObligatory == "true") && stereoFailed && cfg.stereoisomerObligatory == "true"))
      && (c.status != "failed" ==> c.status == "success")
      && (c.status == "failed" ==> c.stereoisomers == [] && c.tautomers == [])
  {
  }

  /** The stereoisomer SMILES lines the loop of a successful ligand ran over. */
  function StereoLines(cfg: Config, tools: Tools, lig: Ligand): seq<string>
    requires HasToken(lig.smi)
  {
    var smi := NeutralizedSmi(cfg, tools, lig);
    match StereoisomerGeneration(cfg, tools.stereoisomers, smi)
    case Ok(v) => v.0
    case Err(_) => [smi]
  }

  lemma SuccessIsLoop(cfg: Config, tools: Tools, lig: Ligand)
    requires Processable(cfg, lig)
    requires ProcessLigand(cfg, tools, lig).Done? && ProcessLigand(cfg, tools, lig).value.status == "success"
    ensures StereoLoop(cfg, tools, lig, StereoLines(cfg, tools, lig), 0).Done?
    ensures var c := ProcessLigand(cfg, tools, lig).value;
      StereoLoop(cfg, tools, lig, StereoLines(cfg, tools, lig), 0).value == (c.stereoisomers, c.tautomers)
  {
    var d := Desalt(cfg, lig.smi);
    var smi := NeutralizedSmi(cfg, tools, lig);
    var trail := match Neutralize(cfg, d, tools.standardizer)
      case Ok(v) => d.trail + [v.1]
      case Err(f) => d.trail + [Failed("neutralization", "Failed " + Message(f))];
    assert ProcessLigand(cfg, tools, lig) == StereoStage(cfg, tools, lig, smi, trail);
    match StereoisomerGeneration(cfg, tools.stereoisomers, smi)
    case Ok(v) =>
      assert ProcessLigand(cfg, tools, lig) == Expand(cfg, tools, lig, v.0, trail + v.1);
    case Err(f) =>
      assert ProcessLigand(cfg, tools, lig) == Expand(cfg, tools, lig, [smi], trail + [Failed("stereoisomer", "Failed " + Message(f))]);
  }

  /** No two tautomers of a ligand share a key, so none overwrites another
      in the completion's dictionary; stereoisomer `i` has key `<ligand>_S<i>`. */
  lemma LigandKeysDistinct(cfg: Config, tools: Tools, lig: Ligand)
    requires Processable(cfg, lig)
    requires ProcessLigand(cfg, tools, lig).Done?
    ensures var c := ProcessLigand(cfg, tools, lig).value;
      (forall a, b :: 0 <= a < b < |c.tautomers| ==> c.tautomers[a].key != c.tautomers[b].key)
      && StereoPositioned(c.stereoisomers, lig.key, 0)
  {
    var c := ProcessLigand(cfg, tools, lig).value;
    if c.status == "success" {
      SuccessIsLoop(cfg, tools, lig);
      StereoLoopKeys(cfg, tools, lig, StereoLines(cfg, tools, lig), 0);
      assert KeyedBy(lig.key, c.tautomers, 0);
      forall a, b | 0 <= a < b < |c.tautomers| ensures c.tautomers[a].key != c.tautomers[b].key {
        var ta := c.tautomers[a];
        var tb := c.tautomers[b];
        assert Before(ta, tb);
        KeysInjective(lig.key, ta.stereoIndex, ta.index, tb.stereoIndex, tb.index);
      }
    } else {
      ProcessLigandStatus(cfg, tools, lig);
    }
  }
}
