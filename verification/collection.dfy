/** The collection-level helpers of tools/vflp_run.py: the remark block
    written into every output structure, the remote path of a collection's
    outputs, the collection summary built from the ligands' completion
    events, and the checks that decide whether the Nailgun server for the
    ChemAxon engines is started.
 */
module Collection {

  import opened Base
  import opened PyStr
  import opened Engines
  import opened Records
  import TautomerFlow
  import LigandFlow

  // ------------------------------------------------------------ remarks

  /** A remark value: one text, or a list of texts each written as a bullet. */
  datatype Remark = Text(text: string) | Items(items: seq<string>)

  /** The order `generate_remarks` uses unless it is given one. */
  function DefaultOrder(): seq<string> {
    ["basic", "compound", "smiles",
     "desalting", "neutralization", "tautomerization",
     "protonation", "generation", "conformation",
     "targetformat", "trancheassignment", "trancheassignment_attr",
     "tranche_str", "date", "collection_key"]
  }

  /** The line prefix of each remark in the target format: mol2 comments, or
      PDB/PDBQT `REMARK` records; any other format has none. */
  function RemarkPrefix(format: string): (r: Option<string>)
    ensures r.Some? <==> format == "mol2" || format == "pdb" || format == "pdbqt"
  {
    if format == "mol2" then Some("# ")
    else if format == "pdb" || format == "pdbqt" then Some("REMARK    ")
    else None
  }

  /** The non-empty texts of a list, in order. */
  function NonEmpty(xs: seq<string>): (r: seq<string>)
    ensures |r| <= |xs|
    decreases |xs|
  {
    if xs == [] then []
    else (if xs[0] != "" then [xs[0]] else []) + NonEmpty(xs[1..])
  }

  /** The lines one remark contributes. */
  function RemarkLines(prefix: string, r: Remark): seq<string> {
    match r
    case Text(t) => if t != "" then [prefix + t] else []
    case Items(xs) => Bullets(prefix, NonEmpty(xs))
  }

  function Bullets(prefix: string, xs: seq<string>): (r: seq<string>)
    ensures |r| == |xs|
    ensures forall i :: 0 <= i < |xs| ==> r[i] == prefix + " * " + xs[i]
    decreases |xs|
  {
    if xs == [] then [] else [prefix + " * " + xs[0]] + Bullets(prefix, xs[1..])
  }

  /** The lines the remark named `key` contributes: none when it is absent. */
  function LinesOf(remarks: map<string, Remark>, key: string, prefix: string): seq<string> {
    if key in remarks then RemarkLines(prefix, remarks[key]) else []
  }

  /** The remark lines in the given order of names. */
  function RemarkParts(remarks: map<string, Remark>, order: seq<string>, prefix: string): seq<string>
    decreases |order|
  {
    if order == [] then [] else LinesOf(remarks, order[0], prefix) + RemarkParts(remarks, order[1..], prefix)
  }

  /** `generate_remarks` (tools/vflp_run.py:832-865): the remarks in the given
      order (the default one when `order` is `None`), one line each and one
      line per non-empty list item, joined by newlines. */
  function GenerateRemarks(remarks: map<string, Remark>, order: Option<seq<string>>, format: string): (r: Outcome<string>)
    ensures !r.Crash?
    ensures r.Raised? <==> format != "mol2" && format != "pdb" && format != "pdbqt"
    ensures r.Raised? ==> r.fault == InvalidRemarkFormat(format)
  {
    var ordering := if order.None? then DefaultOrder() else order.value;
    match RemarkPrefix(format)
    case None => Raised(InvalidRemarkFormat(format))
    case Some(prefix) => Done(Join(RemarkParts(remarks, ordering, prefix), "\n"))
  }

  /** Every remark line starts with the format's prefix and carries a
      non-empty text after it: empty texts and empty list items are skipped. */
  lemma {:induction false} RemarkPartsShape(remarks: map<string, Remark>, order: seq<string>, prefix: string)
    ensures forall p :: p in RemarkParts(remarks, order, prefix) ==> StartsWith(p, prefix) && |p| > |prefix|
    decreases |order|
  {
    if order != [] {
      RemarkPartsShape(remarks, order[1..], prefix);
      var head := LinesOf(remarks, order[0], prefix);
      var parts := RemarkParts(remarks, order, prefix);
      assert parts == head + RemarkParts(remarks, order[1..], prefix);
      forall p | p in head ensures StartsWith(p, prefix) && |p| > |prefix| {
        if order[0] in remarks && remarks[order[0]].Items? {
          var xs := NonEmpty(remarks[order[0]].items);
          NonEmptyItems(remarks[order[0]].items);
          var i :| 0 <= i < |xs| && Bullets(prefix, xs)[i] == p;
          assert p == prefix + " * " + xs[i];
          assert p[..|prefix|] == prefix;
        } else {
          assert p[..|prefix|] == prefix;
        }
      }
    }
  }

  /** `NonEmpty` keeps exactly the non-empty items. */
  lemma {:induction false} NonEmptyItems(xs: seq<string>)
    ensures forall x :: x in NonEmpty(xs) <==> x in xs && x != ""
    decreases |xs|
  {
    if xs != [] {
      NonEmptyItems(xs[1..]);
      assert xs == [xs[0]] + xs[1..];
    }
  }

  /** Only the named remarks in the order matter: remark sets that give the
      same lines for every name of the order give the same block. An absent
      remark, an empty text and a list of empty items are interchangeable. */
  lemma {:induction false} RemarkPartsAgree(r1: map<string, Remark>, r2: map<string, Remark>, order: seq<string>, prefix: string)
    requires forall i :: 0 <= i < |order| ==> LinesOf(r1, order[i], prefix) == LinesOf(r2, order[i], prefix)
    ensures RemarkParts(r1, order, prefix) == RemarkParts(r2, order, prefix)
    decreases |order|
  {
    if order != [] {
      assert LinesOf(r1, order[0], prefix) == LinesOf(r2, order[0], prefix);
      assert forall i :: 0 <= i < |order[1..]| ==> order[1..][i] == order[i + 1];
      RemarkPartsAgree(r1, r2, order[1..], prefix);
    }
  }

  /** The lines of an empty text or of a list of empty items are none, as for an absent remark. */
  lemma {:induction false} EmptyRemarkSilent(prefix: string, xs: seq<string>)
    requires forall i :: 0 <= i < |xs| ==> xs[i] == ""
    ensures RemarkLines(prefix, Text("")) == []
    ensures RemarkLines(prefix, Items(xs)) == []
    decreases |xs|
  {
    if xs != [] {
      EmptyRemarkSilent(prefix, xs[1..]);
    }
  }

  /** No remark line holds a newline when neither the prefix nor any text does. */
  predicate OneLine(remarks: map<string, Remark>, prefix: string) {
    '\n' !in prefix
    && forall k :: k in remarks ==>
         match remarks[k]
         case Text(t) => '\n' !in t
         case Items(xs) => forall x :: x in xs ==> '\n' !in x
  }

  /** Splitting the block at its newlines gives the remark lines back. */
  lemma RemarksRoundTrip(remarks: map<string, Remark>, order: Option<seq<string>>, format: string)
    requires RemarkPrefix(format).Some? && OneLine(remarks, RemarkPrefix(format).value)
    requires RemarkParts(remarks, if order.None? then DefaultOrder() else order.value, RemarkPrefix(format).value) != []
    ensures GenerateRemarks(remarks, order, format).Done?
    ensures SplitSep(GenerateRemarks(remarks, order, format).value, '\n')
            == RemarkParts(remarks, if order.None? then DefaultOrder() else order.value, RemarkPrefix(format).value)
  {
    var ordering := if order.None? then DefaultOrder() else order.value;
    var prefix := RemarkPrefix(format).value;
    var parts := RemarkParts(remarks, ordering, prefix);
    OneLineParts(remarks, ordering, prefix);
    assert "\n" == ['\n'];
    SplitSepJoin(parts, '\n');
  }

  lemma {:induction false} OneLineParts(remarks: map<string, Remark>, order: seq<string>, prefix: string)
    requires OneLine(remarks, prefix)
    ensures forall i :: 0 <= i < |RemarkParts(remarks, order, prefix)| ==> '\n' !in RemarkParts(remarks, order, prefix)[i]
    decreases |order|
  {
    if order != [] {
      OneLineParts(remarks, order[1..], prefix);
      var head := LinesOf(remarks, order[0], prefix);
      forall p | p in head ensures '\n' !in p {
        var k := order[0];
        match remarks[k]
        case Text(t) =>
          assert p == prefix + t;
        case Items(xs) =>
          NonEmptyItems(xs);
          var ys := NonEmpty(xs);
          var i :| 0 <= i < |ys| && Bullets(prefix, ys)[i] == p;
          assert ys[i] in xs;
          assert p == prefix + " * " + ys[i];
      }
      var parts := RemarkParts(remarks, order, prefix);
      assert parts == head + RemarkParts(remarks, order[1..], prefix);
      forall i | 0 <= i < |parts| ensures '\n' !in parts[i] {
        if i < |head| {
          assert parts[i] in head;
        } else {
          assert parts[i] == RemarkParts(remarks, order[1..], prefix)[i - |head|];
        }
      }
    }
  }

  // ------------------------------------------------------------ remote paths

  /** The location fields of a collection record. */
  datatype CollectionRef = CollectionRef(metatranche: string, tranche: string, name: string)

  /** The storage prefix: the job's object-store prefix in "s3" mode, the
      workflow directory in "sharedfs" mode, and nothing otherwise. */
  function StoragePrefix(mode: string, jobPrefix: string, workflowDir: string): (r: Option<string>)
    ensures r.Some? <==> mode == "s3" || mode == "sharedfs"
  {
    if mode == "s3" then Some(jobPrefix)
    else if mode == "sharedfs" then Some(workflowDir)
    else None
  }

  /** `generate_remote_path` (tools/vflp_run.py:2069-2100). An unknown
      format raises before the prefix is read; an unknown storage mode leaves
      the prefix unbound, which raises `UnboundLocalError` once it is read. */
  function GenerateRemotePath(mode: string, jobPrefix: string, workflowDir: string, c: CollectionRef,
                              outputType: string, outputFormat: string): (r: Outcome<string>)
    ensures r.Raised? <==> outputFormat != "json.gz" && outputFormat != "tar.gz"
    ensures r.Raised? ==> r.fault == InvalidOutputFormat(outputFormat)
    ensures r.Crash? <==> !r.Raised? && mode != "s3" && mode != "sharedfs"
    ensures r.Crash? ==> r.reason == "UnboundLocalError"
  {
    if outputFormat == "json.gz" then
      match StoragePrefix(mode, jobPrefix, workflowDir)
      case None => Crash("UnboundLocalError")
      case Some(prefix) =>
        Done(Join([prefix, "complete", outputType, c.metatranche, c.tranche], "/") + "/" + c.name + ".json.gz")
    else if outputFormat == "tar.gz" then
      match StoragePrefix(mode, jobPrefix, workflowDir)
      case None => Crash("UnboundLocalError")
      case Some(prefix) =>
        Done(Join([prefix, "complete", outputType, c.metatranche, c.tranche, c.name], "/") + ".tar.gz")
    else Raised(InvalidOutputFormat(outputFormat))
  }

  /** The six path components under the storage prefix. */
  function PathParts(prefix: string, c: CollectionRef, outputType: string): seq<string> {
    [prefix, "complete", outputType, c.metatranche, c.tranche, c.name]
  }

  lemma JoinSnoc(parts: seq<string>, last: string, sep: string)
    requires |parts| >= 1
    ensures Join(parts + [last], sep) == Join(parts, sep) + sep + last
    decreases |parts|
  {
    if |parts| > 1 {
      assert (parts + [last])[1..] == parts[1..] + [last];
      JoinSnoc(parts[1..], last, sep);
    }
  }

  /** Both formats name the same location `<prefix>/complete/<type>/<metatranche>/<tranche>/<name>`
      and differ only in the extension; the prefix is the storage mode's. */
  lemma RemotePathFormats(mode: string, jobPrefix: string, workflowDir: string, c: CollectionRef, outputType: string)
    requires mode == "s3" || mode == "sharedfs"
    ensures var prefix := if mode == "s3" then jobPrefix else workflowDir;
      && GenerateRemotePath(mode, jobPrefix, workflowDir, c, outputType, "json.gz")
           == Done(Join(PathParts(prefix, c, outputType), "/") + ".json.gz")
      && GenerateRemotePath(mode, jobPrefix, workflowDir, c, outputType, "tar.gz")
           == Done(Join(PathParts(prefix, c, outputType), "/") + ".tar.gz")
  {
    var prefix := if mode == "s3" then jobPrefix else workflowDir;
    var five := [prefix, "complete", outputType, c.metatranche, c.tranche];
    assert PathParts(prefix, c, outputType) == five + [c.name];
    JoinSnoc(five, c.name, "/");
  }

  /** When no component holds a "/", the path splits back into the storage
      prefix, "complete", the output type, the metatranche, the tranche and
      the collection name with its extension. */
  lemma RemotePathRoundTrip(mode: string, jobPrefix: string, workflowDir: string, c: CollectionRef,
                            outputType: string, outputFormat: string)
    requires mode == "s3" || mode == "sharedfs"
    requires outputFormat == "json.gz" || outputFormat == "tar.gz"
    requires var prefix := if mode == "s3" then jobPrefix else workflowDir;
      forall i :: 0 <= i < 6 ==> '/' !in PathParts(prefix, c, outputType)[i]
    ensures var prefix := if mode == "s3" then jobPrefix else workflowDir;
      SplitSep(GenerateRemotePath(mode, jobPrefix, workflowDir, c, outputType, outputFormat).value, '/')
        == [prefix, "complete", outputType, c.metatranche, c.tranche, c.name + "." + outputFormat]
  {
    var prefix := if mode == "s3" then jobPrefix else workflowDir;
    RemotePathFormats(mode, jobPrefix, workflowDir, c, outputType);
    var ext := if outputFormat == "json.gz" then ".json.gz" else ".tar.gz";
    SplitParts(prefix, c, outputType, ext);
    assert c.name + ext == c.name + "." + outputFormat by {
      DotExtensions();
      Associative(c.name, ".", outputFormat);
    }
  }

  /** The joined components, extended, split back into the components. */
  lemma SplitParts(prefix: string, c: CollectionRef, outputType: string, ext: string)
    requires '/' !in ext
    requires forall i :: 0 <= i < 6 ==> '/' !in PathParts(prefix, c, outputType)[i]
    ensures SplitSep(Join(PathParts(prefix, c, outputType), "/") + ext, '/')
      == [prefix, "complete", outputType, c.metatranche, c.tranche, c.name + ext]
  {
    var parts := PathParts(prefix, c, outputType);
    SplitExtended(parts, ext);
    ExtendLast(parts, ext);
  }

  /** Extending the last of six parts, written out element by element. */
  lemma ExtendLast(parts: seq<string>, ext: string)
    requires |parts| == 6
    ensures parts[..5] + [parts[5] + ext] == [parts[0], parts[1], parts[2], parts[3], parts[4], parts[5] + ext]
  {
  }

  /** The two extensions are the format names after a dot. */
  lemma DotExtensions()
    ensures "." + "json.gz" == ".json.gz" && "." + "tar.gz" == ".tar.gz"
  {
    assert ("." + "json.gz")[1..] == "json.gz";
    assert ("." + "tar.gz")[1..] == "tar.gz";
  }

  lemma Associative(a: string, b: string, c: string)
    ensures a + b + c == a + (b + c)
  {
  }

  /** Appending a "/"-free extension to the last of several "/"-free parts
      after joining them: the split gives the parts back, the last one extended. */
  lemma SplitExtended(parts: seq<string>, ext: string)
    requires |parts| >= 2 && '/' !in ext
    requires forall i :: 0 <= i < |parts| ==> '/' !in parts[i]
    ensures SplitSep(Join(parts, "/") + ext, '/') == parts[..|parts| - 1] + [parts[|parts| - 1] + ext]
  {
    var n := |parts| - 1;
    var front := parts[..n];
    var last := parts[n] + ext;
    assert parts == front + [parts[n]];
    JoinSnoc(front, parts[n], "/");
    JoinSnoc(front, last, "/");
    assert Join(parts, "/") + ext == Join(front + [last], "/");
    assert '/' !in last by {
      assert forall i :: 0 <= i < |last| ==> last[i] == if i < |parts[n]| then parts[n][i] else ext[i - |parts[n]|];
    }
    assert "/" == ['/'];
    assert forall i :: 0 <= i < n ==> (front + [last])[i] == parts[i];
    SplitSepJoin(front + [last], '/');
  }

  // ------------------------------------------------------------ collection summary

  /** One task result: the base ligand's key and its completion event. */
  datatype TaskResult = TaskResult(key: string, done: Completion)

  /** A ligand's entry of the collection summary. */
  datatype LigandSummary = LigandSummary(
    status: string,
    trail: seq<Entry>,
    tautomers: seq<Tautomer>,
    stereoisomers: seq<Stereoisomer>)

  /** The ligand dictionary of a collection summary, in insertion order. */
  type Ligands = seq<(string, LigandSummary)>

  function Summarize(t: TaskResult): LigandSummary {
    LigandSummary(t.done.status, t.done.trail, t.done.tautomers, t.done.stereoisomers)
  }

  function Names(d: Ligands): (ks: seq<string>)
    ensures |ks| == |d| && forall i :: 0 <= i < |d| ==> ks[i] == d[i].0
  {
    seq(|d|, i requires 0 <= i < |d| => d[i].0)
  }

  predicate Unique(d: Ligands) {
    forall i, j :: 0 <= i < j < |d| ==> d[i].0 != d[j].0
  }

  /** Dictionary assignment: an existing key keeps its place and takes the
      new value; a new key goes last. */
  function Put(d: Ligands, k: string, v: LigandSummary): (r: Ligands)
    requires Unique(d)
    ensures Unique(r)
    ensures Names(r) == if k in Names(d) then Names(d) else Names(d) + [k]
    ensures forall i :: 0 <= i < |d| ==> r[i] == (if d[i].0 == k then (k, v) else d[i])
    ensures k !in Names(d) ==> r == d + [(k, v)]
  {
    if k in Names(d) then
      seq(|d|, i requires 0 <= i < |d| => if d[i].0 == k then (k, v) else d[i])
    else d + [(k, v)]
  }

  /** The collection summary's ligand dictionary (tools/vflp_run.py:1943-1959):
      each task result is stored under its base ligand's key. */
  function SummaryBuild(res: seq<TaskResult>): (r: Ligands)
    ensures Unique(r)
    decreases |res|
  {
    if res == [] then []
    else
      var last := res[|res| - 1];
      Put(SummaryBuild(res[..|res| - 1]), last.key, Summarize(last))
  }

  /** The value the dictionary holds for `k`. */
  function Find(d: Ligands, k: string): (r: Option<LigandSummary>)
    ensures r.None? <==> k !in Names(d)
    ensures r.Some? ==> exists i :: 0 <= i < |d| && d[i] == (k, r.value)
    decreases |d|
  {
    if d == [] then None
    else if d[0].0 == k then Some(d[0].1)
    else
      var r := Find(d[1..], k);
      assert Names(d) == [d[0].0] + Names(d[1..]);
      if r.Some? then
        var i :| 0 <= i < |d[1..]| && d[1..][i] == (k, r.value);
        assert d[i + 1] == (k, r.value);
        r
      else r
  }

  lemma FindUnique(d: Ligands, k: string, i: nat)
    requires Unique(d) && i < |d| && d[i].0 == k
    ensures Find(d, k) == Some(d[i].1)
  {
    var r := Find(d, k);
    var j :| 0 <= j < |d| && d[j] == (k, r.value);
    assert i == j;
  }

  lemma PutNames(d: Ligands, k: string, v: LigandSummary, x: string)
    requires Unique(d)
    ensures x in Names(Put(d, k, v)) <==> x in Names(d) || x == k
  {
    if k !in Names(d) {
      assert Names(Put(d, k, v)) == Names(d) + [k];
    }
  }

  /** A key is in the summary exactly when some task result carries it. */
  lemma {:induction false} SummaryKeys(res: seq<TaskResult>, k: string)
    ensures k in Names(SummaryBuild(res)) <==> exists i :: 0 <= i < |res| && res[i].key == k
    decreases |res|
  {
    if res != [] {
      var pre := res[..|res| - 1];
      var n := |res| - 1;
      SummaryKeys(pre, k);
      PutNames(SummaryBuild(pre), res[n].key, Summarize(res[n]), k);
      assert k in Names(SummaryBuild(res)) <==> k in Names(SummaryBuild(pre)) || res[n].key == k;
      if exists i :: 0 <= i < |res| && res[i].key == k {
        var i :| 0 <= i < |res| && res[i].key == k;
        if i < n {
          assert pre[i].key == k;
        }
      }
      if exists i :: 0 <= i < |pre| && pre[i].key == k {
        var i :| 0 <= i < |pre| && pre[i].key == k;
        assert res[i].key == k;
      }
    }
  }

  /** After an assignment the key holds the assigned value. */
  lemma PutFind(d: Ligands, k: string, v: LigandSummary)
    requires Unique(d)
    ensures Find(Put(d, k, v), k) == Some(v)
  {
    var r := Put(d, k, v);
    if k in Names(d) {
      var j :| 0 <= j < |d| && Names(d)[j] == k;
      assert r[j] == (k, v);
      FindUnique(r, k, j);
    } else {
      assert r[|d|] == (k, v);
      FindUnique(r, k, |d|);
    }
  }

  /** An assignment leaves every other key's value alone. */
  lemma PutFindOther(d: Ligands, k: string, v: LigandSummary, x: string)
    requires Unique(d) && x != k
    ensures Find(Put(d, k, v), x) == Find(d, x)
  {
    var r := Put(d, k, v);
    PutNames(d, k, v, x);
    if x in Names(d) {
      var w := Find(d, x).value;
      var j :| 0 <= j < |d| && d[j] == (x, w);
      assert r[j] == d[j];
      FindUnique(r, x, j);
    }
  }

  /** A ligand key that occurs several times keeps the summary of its last
      task result. */
  lemma {:induction false} SummaryLastWins(res: seq<TaskResult>, i: nat)
    requires i < |res|
    requires forall j :: i < j < |res| ==> res[j].key != res[i].key
    ensures Find(SummaryBuild(res), res[i].key) == Some(Summarize(res[i]))
    decreases |res|
  {
    var n := |res| - 1;
    var pre := res[..n];
    if i == n {
      PutFind(SummaryBuild(pre), res[n].key, Summarize(res[n]));
    } else {
      assert pre[i] == res[i];
      assert forall j :: i < j < |pre| ==> pre[j] == res[j];
      SummaryLastWins(pre, i);
      PutFindOther(SummaryBuild(pre), res[n].key, Summarize(res[n]), res[i].key);
    }
  }

  // ------------------------------------------------------------ Nailgun

  /** `is_cxcalc_used` (tools/vflp_run.py:1641-1655). */
  predicate IsCxcalcUsed(cfg: Config) {
    cfg.tautomerization == "true"
    || (cfg.protonationStateGeneration == "true"
        && (cfg.protonationProgram1 == "cxcalc" || cfg.protonationProgram2 == "cxcalc"))
  }

  /** `is_molconvert_used` (tools/vflp_run.py:1657-1664). */
  predicate IsMolconvertUsed(cfg: Config) {
    cfg.conformationGeneration == "true"
    && (cfg.conformationProgram1 == "molconvert" || cfg.conformationProgram2 == "molconvert")
  }

  /** `is_standardizer_used` (tools/vflp_run.py:1666-1670). */
  predicate IsStandardizerUsed(cfg: Config) {
    cfg.neutralization == "true"
  }

  /** `is_nailgun_needed` (tools/vflp_run.py:1673-1674). */
  predicate IsNailgunNeeded(cfg: Config) {
    IsCxcalcUsed(cfg) || IsMolconvertUsed(cfg) || IsStandardizerUsed(cfg)
  }

  /** When cxcalc is not used, what the cxcalc runs for tautomers and
      protonation report makes no difference to those stages. */
  lemma CxcalcUnused(cfg: Config, tt: TautomerTools, x: Run, a: Run, b: Run, smi: string, t: Tautomer)
    requires !IsCxcalcUsed(cfg)
    ensures LigandFlow.TautomerGeneration(cfg, a, smi) == LigandFlow.TautomerGeneration(cfg, b, smi)
    ensures TautomerFlow.Protonate(cfg, tt, t) == TautomerFlow.Protonate(cfg, tt.(cxcalcProtonate := x), t)
  {
    if cfg.protonationStateGeneration == "true" {
      var tx := tt.(cxcalcProtonate := x);
      assert TautomerFlow.ProtonationInstance(cfg.protonationProgram1, tt)
          == TautomerFlow.ProtonationInstance(cfg.protonationProgram1, tx);
      assert TautomerFlow.ProtonationInstance(cfg.protonationProgram2, tt)
          == TautomerFlow.ProtonationInstance(cfg.protonationProgram2, tx);
      assert TautomerFlow.ProtonationGeneration(cfg, tt) == TautomerFlow.ProtonationGeneration(cfg, tx);
    }
  }

  /** When molconvert is not used, what its run and file report makes no
      difference to the 3D structure stage. */
  lemma MolconvertUnused(cfg: Config, tt: TautomerTools, x: Run, f: File, t: Tautomer)
    requires !IsMolconvertUsed(cfg)
    ensures TautomerFlow.Structure(cfg, tt, t) == TautomerFlow.Structure(cfg, tt.(molconvert := x, molconvertFile := f), t)
  {
    if cfg.conformationGeneration == "true" {
      var tx := tt.(molconvert := x, molconvertFile := f);
      assert TautomerFlow.ConformationInstance(cfg.conformationProgram1, tt, t.smiProtomer)
          == TautomerFlow.ConformationInstance(cfg.conformationProgram1, tx, t.smiProtomer);
      assert TautomerFlow.ConformationInstance(cfg.conformationProgram2, tt, t.smiProtomer)
          == TautomerFlow.ConformationInstance(cfg.conformationProgram2, tx, t.smiProtomer);
      assert TautomerFlow.ConformationGeneration(cfg, tt, t.smiProtomer)
          == TautomerFlow.ConformationGeneration(cfg, tx, t.smiProtomer);
    }
  }

  /** Every ligand the pipeline gets through needs Nailgun: a run with
      neutralization off fails before any ligand is finished, and with it on
      the standardizer is used. */
  lemma ProcessedNeedsNailgun(cfg: Config, lig: Ligand)
    requires LigandFlow.Processable(cfg, lig)
    ensures IsStandardizerUsed(cfg) && IsNailgunNeeded(cfg)
  {
  }
}
