/** The work partitioner of `tools/vflp_prepare_workunits.py`: one forward
    pass over the `(collection_key, count)` lines of the todo list that
    bin-packs collections into subjobs and subjobs into workunits.

    - A collection whose count reaches `ligands_todo_per_queue` (the floor)
      becomes a subjob of its own.
    - Smaller collections pile into a leftover subjob, sealed as soon as the
      sum of their counts reaches the floor.
    - A workunit is published as soon as it holds `max_array_job_size`
      subjobs (the ceiling).
    - At the end a leftover pile with a positive sum is appended and a
      non-empty last workunit is published.

    Publishing (gzip, JSON, S3 upload or a copy to the shared file system) is
    an abstract sink here: it records the workunit with its download path.
 */
module Partitioner {

  import opened Base
  import opened PyStr

  datatype StorageMode = S3 | SharedFs

  /** The configuration values the partitioner reads. */
  datatype PartitionConfig = PartitionConfig(
    ligandsTodoPerQueue: int,
    maxArrayJobSize: int,
    storage: StorageMode,
    fileFieldnames: seq<string>,
    ligandLibraryBucket: string,
    ligandLibraryPrefix: string,
    sharedfsCollectionPath: string,
    jobOutputPrefixFull: string,
    sharedfsWorkunitPath: string)

  /** Where a worker fetches a collection from. */
  datatype Location = S3Object(bucket: string, path: string) | SharedPath(path: string)

  /** One collection as recorded in a subjob by `add_collection_to_subjob`. */
  datatype CollectionEntry = CollectionEntry(
    key: string,
    metatranche: string,
    tranche: string,
    collectionName: string,
    ligandCount: int,
    fieldnames: seq<string>,
    location: Location)

  /** A subjob: its `collections` dictionary, in insertion order, keyed by `key`. */
  datatype Subjob = Subjob(collections: seq<CollectionEntry>)

  /** One line of the todo list once split into its parts. */
  datatype TodoLine = TodoLine(key: string, metatranche: string, tranche: string, collectionName: string, count: int)

  /** A published workunit: the value stored under its index in `status['workunits']`. */
  datatype Workunit = Workunit(index: int, subjobs: map<int, Subjob>, downloadPath: string)

  /** The loop state of `process`. */
  datatype State = State(
    workunitIndex: int,
    current: map<int, Subjob>,
    subjobIndex: int,
    leftoverCount: int,
    leftover: Subjob,
    published: seq<Workunit>)

  // ------------------------------------------------------------------ paths

  /** `gen_s3_download_path`: `prefix/metatranche/tranche/collection_name.txt.gz`. */
  function S3DownloadPath(prefix: string, metatranche: string, tranche: string, collectionName: string): string
  {
    Join([prefix, metatranche, tranche, collectionName + ".txt.gz"], "/")
  }

  /** `gen_sharedfs_path`: the same layout under the shared collection folder. */
  function SharedfsPath(root: string, metatranche: string, tranche: string, collectionName: string): string
  {
    Join([root, metatranche, tranche, collectionName + ".txt.gz"], "/")
  }

  /** Splitting a download path on "/" recovers its components when none contains "/". */
  lemma DownloadPathComponents(prefix: string, metatranche: string, tranche: string, collectionName: string)
    requires '/' !in prefix && '/' !in metatranche && '/' !in tranche && '/' !in collectionName
    ensures SplitSep(S3DownloadPath(prefix, metatranche, tranche, collectionName), '/')
            == [prefix, metatranche, tranche, collectionName + ".txt.gz"]
  {
    var parts := [prefix, metatranche, tranche, collectionName + ".txt.gz"];
    assert '/' !in ".txt.gz";
    assert forall c :: c in collectionName + ".txt.gz" ==> c in collectionName || c in ".txt.gz";
    SplitSepJoin(parts, '/');
  }

  // ------------------------------------------------------------------ todo lines

  /** A todo line the partitioner can read without raising: two
      whitespace-separated fields, a key of three "_"-separated parts and an
      integer literal. */
  predicate ValidTodoLine(line: string) {
    var fields := Split(line);
    |fields| == 2 && |SplitSep(fields[0], '_')| == 3 && IsIntLiteral(fields[1])
  }

  /** Lines 197-202: `line.split()`, `collection_key.split("_")` and `int(...)`. */
  function ParseTodoLine(line: string): (t: TodoLine)
    requires ValidTodoLine(line)
    ensures Join([t.metatranche, t.tranche, t.collectionName], "_") == t.key
    ensures t.key == Split(line)[0]
    ensures t.count == ParseInt(Split(line)[1])
  {
    var fields := Split(line);
    var parts := SplitSep(fields[0], '_');
    assert parts == [parts[0], parts[1], parts[2]];
    TodoLine(fields[0], parts[0], parts[1], parts[2], ParseInt(fields[1]))
  }

  // ------------------------------------------------------------------ subjobs

  /** `add_collection_to_subjob`'s record for one collection. */
  function MakeEntry(cfg: PartitionConfig, t: TodoLine): (e: CollectionEntry)
    ensures e.key == t.key && e.ligandCount == t.count
    ensures e.metatranche == t.metatranche && e.tranche == t.tranche && e.collectionName == t.collectionName
    ensures e.fieldnames == cfg.fileFieldnames
    ensures cfg.storage == S3 ==> e.location == S3Object(cfg.ligandLibraryBucket,
              S3DownloadPath(cfg.ligandLibraryPrefix, t.metatranche, t.tranche, t.collectionName))
    ensures cfg.storage == SharedFs ==> e.location == SharedPath(
              SharedfsPath(cfg.sharedfsCollectionPath, t.metatranche, t.tranche, t.collectionName))
  {
    var loc := match cfg.storage
      case S3 => S3Object(cfg.ligandLibraryBucket, S3DownloadPath(cfg.ligandLibraryPrefix, t.metatranche, t.tranche, t.collectionName))
      case SharedFs => SharedPath(SharedfsPath(cfg.sharedfsCollectionPath, t.metatranche, t.tranche, t.collectionName));
    CollectionEntry(t.key, t.metatranche, t.tranche, t.collectionName, t.count, cfg.fileFieldnames, loc)
  }

  function KeyPosition(cs: seq<CollectionEntry>, key: string): (r: Option<nat>)
    ensures r.Some? ==> r.value < |cs| && cs[r.value].key == key
    ensures r.None? ==> forall i :: 0 <= i < |cs| ==> cs[i].key != key
  {
    if |cs| == 0 then None
    else if cs[|cs| - 1].key == key then Some(|cs| - 1)
    else KeyPosition(cs[..|cs| - 1], key)
  }

  /** `subjob['collections'][key] = entry`: a new key is appended, an existing
      one keeps its place and takes the new value. */
  function Put(s: Subjob, e: CollectionEntry): (r: Subjob)
    ensures (forall i :: 0 <= i < |s.collections| ==> s.collections[i].key != e.key)
            ==> r.collections == s.collections + [e]
    ensures (exists i :: 0 <= i < |s.collections| && s.collections[i].key == e.key) ==>
              |r.collections| == |s.collections|
              && exists i :: 0 <= i < |s.collections| && s.collections[i].key == e.key && r.collections[i] == e
                   && forall j :: 0 <= j < |s.collections| && j != i ==> r.collections[j] == s.collections[j]
    ensures e in r.collections
    ensures forall x :: x in r.collections ==> x == e || x in s.collections
  {
    match KeyPosition(s.collections, e.key)
    case None => Subjob(s.collections + [e])
    case Some(i) =>
      var cs := s.collections[i := e];
      assert forall k :: 0 <= k < |cs| ==> cs[k] == e || cs[k] == s.collections[k];
      Subjob(cs)
  }

  // ------------------------------------------------------------------ the pass

  /** `publish_workunit` as a sink: the workunit together with the path it is published under. */
  function Publish(cfg: PartitionConfig, index: int, subjobs: map<int, Subjob>): (w: Workunit)
    ensures w.index == index && w.subjobs == subjobs
    ensures cfg.storage == S3 ==>
              w.downloadPath == cfg.jobOutputPrefixFull + "/input/tasks/" + IntToString(index) + ".json.gz"
    ensures cfg.storage == SharedFs ==>
              w.downloadPath == cfg.sharedfsWorkunitPath + "/" + IntToString(index) + ".json.gz"
  {
    var name := IntToString(index) + ".json.gz";
    var path := match cfg.storage
      case S3 => cfg.jobOutputPrefixFull + "/input/tasks/" + name
      case SharedFs => cfg.sharedfsWorkunitPath + "/" + name;
    Workunit(index, subjobs, path)
  }

  function Init(): State {
    State(1, map[], 0, 0, Subjob([]), [])
  }

  /** Lines 204-234: place one collection, either as its own subjob or on the leftover pile. */
  function Place(cfg: PartitionConfig, st: State, t: TodoLine): (r: State)
    ensures r.workunitIndex == st.workunitIndex && r.published == st.published
  {
    var e := MakeEntry(cfg, t);
    if t.count >= cfg.ligandsTodoPerQueue then
      st.(current := st.current[st.subjobIndex := Subjob([e])], subjobIndex := st.subjobIndex + 1)
    else
      var count := st.leftoverCount + t.count;
      var pile := Put(st.leftover, e);
      if count >= cfg.ligandsTodoPerQueue then
        st.(current := st.current[st.subjobIndex := pile], subjobIndex := st.subjobIndex + 1,
            leftoverCount := 0, leftover := Subjob([]))
      else
        st.(leftoverCount := count, leftover := pile)
  }

  /** Lines 237-242: publish the workunit once it holds `max_array_job_size` subjobs. */
  function SealIfFull(cfg: PartitionConfig, st: State): (r: State)
    ensures |st.current| == cfg.maxArrayJobSize ==>
              && r.published == st.published + [Publish(cfg, st.workunitIndex, st.current)]
              && r.workunitIndex == st.workunitIndex + 1
              && r.subjobIndex == 0 && r.current == map[]
              && r.leftover == st.leftover && r.leftoverCount == st.leftoverCount
    ensures |st.current| != cfg.maxArrayJobSize ==> r == st
  {
    if |st.current| == cfg.maxArrayJobSize then
      st.(published := st.published + [Publish(cfg, st.workunitIndex, st.current)],
          workunitIndex := st.workunitIndex + 1, subjobIndex := 0, current := map[])
    else st
  }

  function Step(cfg: PartitionConfig, st: State, t: TodoLine): State {
    SealIfFull(cfg, Place(cfg, st, t))
  }

  /** The state after the loop has consumed `ts`. */
  function Scan(cfg: PartitionConfig, ts: seq<TodoLine>): State
    decreases |ts|
  {
    if ts == [] then Init() else Step(cfg, Scan(cfg, ts[..|ts| - 1]), ts[|ts| - 1])
  }

  /** Lines 252-261: append a leftover pile with a positive sum, then publish a non-empty workunit. */
  function Finish(cfg: PartitionConfig, st: State): (ws: seq<Workunit>)
  {
    var last := if st.leftoverCount > 0 then st.current[st.subjobIndex := st.leftover] else st.current;
    if |last| > 0 then st.published + [Publish(cfg, st.workunitIndex, last)] else st.published
  }

  /** `process`: the workunits published, in publication order. */
  function Partition(cfg: PartitionConfig, ts: seq<TodoLine>): seq<Workunit> {
    Finish(cfg, Scan(cfg, ts))
  }

  // ------------------------------------------------------------------ the raw file

  /** Lines 197-202 for one line, `None` where they raise `ValueError`. */
  function ReadTodoLine(line: string): (r: Option<TodoLine>)
    ensures r.Some? <==> ValidTodoLine(line)
    ensures r.Some? ==> r.value == ParseTodoLine(line)
  {
    if ValidTodoLine(line) then Some(ParseTodoLine(line)) else None
  }

  function ReadAll(lines: seq<string>): (r: seq<Option<TodoLine>>)
    ensures |r| == |lines|
    ensures forall i :: 0 <= i < |lines| ==> r[i] == ReadTodoLine(lines[i])
    decreases |lines|
  {
    if lines == [] then []
    else
      var rest := ReadAll(lines[1..]);
      assert forall i :: 0 <= i < |rest| ==> lines[1..][i] == lines[i + 1];
      [ReadTodoLine(lines[0])] + rest
  }

  /** The lines read before the first that raises, and that line's position, if any. */
  function ReadPrefix(rs: seq<Option<TodoLine>>): (r: (seq<TodoLine>, Option<nat>))
    ensures |r.0| <= |rs|
    ensures forall i :: 0 <= i < |r.0| ==> rs[i] == Some(r.0[i])
    ensures r.1.None? ==> |r.0| == |rs|
    ensures r.1.Some? ==> r.1.value == |r.0| < |rs| && rs[r.1.value].None?
    decreases |rs|
  {
    if rs == [] then ([], None)
    else if rs[0].None? then ([], Some(0))
    else
      var (ts, bad) := ReadPrefix(rs[1..]);
      assert forall i :: 0 <= i < |ts| ==> rs[1..][i] == rs[i + 1];
      ([rs[0].value] + ts, if bad.Some? then Some(bad.value + 1) else None)
  }

  /** Lines 195-202 over the raw file: the todo lines read before the first
      line that makes `split()`, the key's `split("_")` or `int()` raise
      `ValueError`, and that line's position, if any. */
  function ReadLines(lines: seq<string>): (r: (seq<TodoLine>, Option<nat>))
    ensures |r.0| <= |lines|
    ensures forall i :: 0 <= i < |r.0| ==> ValidTodoLine(lines[i]) && r.0[i] == ParseTodoLine(lines[i])
    ensures r.1.None? ==> |r.0| == |lines|
    ensures r.1.Some? ==> r.1.value == |r.0| < |lines| && !ValidTodoLine(lines[r.1.value])
  {
    ReadPrefix(ReadAll(lines))
  }

  /** How `process` ends on the raw file: every line placed and the workunits
      published, or a `ValueError` at a line, with the workunits that
      `publish_workunit` (line 238) had already published. */
  datatype Outcome = Completed(workunits: seq<Workunit>) | Crashed(line: nat, published: seq<Workunit>)

  function PartitionFile(cfg: PartitionConfig, lines: seq<string>): (r: Outcome)
    ensures r.Crashed? <==> exists i :: 0 <= i < |lines| && !ValidTodoLine(lines[i])
    ensures r.Crashed? ==> r.line < |lines| && !ValidTodoLine(lines[r.line])
                           && forall j :: 0 <= j < r.line ==> ValidTodoLine(lines[j])
  {
    var (ts, bad) := ReadLines(lines);
    match bad
    case None => Completed(Partition(cfg, ts))
    case Some(i) => Crashed(i, Scan(cfg, ts).published)
  }

  /** A file of readable lines is partitioned line by line; a malformed line
      ends the run with only full workunits published, a prefix of what the
      lines before it would have published. */
  lemma PartitionFileSpec(cfg: PartitionConfig, lines: seq<string>)
    requires cfg.maxArrayJobSize >= 1
    ensures var r := PartitionFile(cfg, lines);
      var ts := ReadLines(lines).0;
      && (r.Completed? ==> |ts| == |lines| && r.workunits == Partition(cfg, ts))
      && (r.Crashed? ==>
            && |ts| == r.line && r.published <= Partition(cfg, ts)
            && forall k :: 0 <= k < |r.published| ==> |r.published[k].subjobs| == cfg.maxArrayJobSize)
  {
    var (ts, bad) := ReadLines(lines);
    if bad.Some? {
      var st := Scan(cfg, ts);
      assert PartitionFile(cfg, lines) == Crashed(bad.value, st.published);
      ScanInv(cfg, ts);
      FinishExtends(cfg, st);
    }
  }

  /** The final flush only appends to what was published during the loop. */
  lemma FinishExtends(cfg: PartitionConfig, st: State)
    ensures st.published <= Finish(cfg, st)
  {
  }

  // ------------------------------------------------------------------ invariants

  /** The subjob dictionary has exactly the keys 0..n-1. */
  ghost predicate Indexed(m: map<int, Subjob>, n: int) {
    forall i :: i in m <==> 0 <= i < n
  }

  lemma {:induction false} IndexedCard(m: map<int, Subjob>, n: nat)
    requires Indexed(m, n)
    ensures |m| == n
    decreases n
  {
    if n == 0 {
      assert m == map[];
    } else {
      var m' := map i | i in m && i != n - 1 :: m[i];
      assert m'.Keys == m.Keys - {n - 1};
      IndexedCard(m', n - 1);
    }
  }

  ghost predicate Inv(cfg: PartitionConfig, st: State) {
    && 0 <= st.subjobIndex < cfg.maxArrayJobSize
    && Indexed(st.current, st.subjobIndex)
    && st.workunitIndex == |st.published| + 1
    && forall k :: 0 <= k < |st.published| ==>
         && st.published[k].index == k + 1
         && Indexed(st.published[k].subjobs, |st.published[k].subjobs|)
         && |st.published[k].subjobs| == cfg.maxArrayJobSize
  }

  lemma StepInv(cfg: PartitionConfig, st: State, t: TodoLine)
    requires Inv(cfg, st)
    ensures Inv(cfg, Step(cfg, st, t))
  {
    var p := Place(cfg, st, t);
    assert Indexed(p.current, p.subjobIndex);
    IndexedCard(p.current, p.subjobIndex);
  }

  lemma {:induction false} ScanInv(cfg: PartitionConfig, ts: seq<TodoLine>)
    requires cfg.maxArrayJobSize >= 1
    ensures Inv(cfg, Scan(cfg, ts))
    decreases |ts|
  {
    if ts != [] {
      ScanInv(cfg, ts[..|ts| - 1]);
      StepInv(cfg, Scan(cfg, ts[..|ts| - 1]), ts[|ts| - 1]);
    }
  }

  /** The ceiling: every published workunit holds between one and
      `max_array_job_size` subjobs keyed exactly 0..n-1, every workunit but
      the last holds exactly `max_array_job_size`, and workunit indices run
      1, 2, 3, ... */
  lemma PartitionShape(cfg: PartitionConfig, ts: seq<TodoLine>)
    requires cfg.maxArrayJobSize >= 1
    ensures var ws := Partition(cfg, ts);
      forall k :: 0 <= k < |ws| ==>
        && ws[k].index == k + 1
        && 1 <= |ws[k].subjobs| <= cfg.maxArrayJobSize
        && Indexed(ws[k].subjobs, |ws[k].subjobs|)
        && (k < |ws| - 1 ==> |ws[k].subjobs| == cfg.maxArrayJobSize)
  {
    var st := Scan(cfg, ts);
    ScanInv(cfg, ts);
    var last := if st.leftoverCount > 0 then st.current[st.subjobIndex := st.leftover] else st.current;
    var n := if st.leftoverCount > 0 then st.subjobIndex + 1 else st.subjobIndex;
    if st.leftoverCount > 0 {
      IndexedExtend(st.current, st.subjobIndex, st.leftover);
    }
    IndexedCard(last, n);
  }

  lemma IndexedExtend(m: map<int, Subjob>, n: nat, s: Subjob)
    requires Indexed(m, n)
    ensures Indexed(m[n := s], n + 1)
  {
  }

  // ------------------------------------------------------------------ placement

  function Entries(cfg: PartitionConfig, ts: seq<TodoLine>): (es: seq<CollectionEntry>)
    ensures |es| == |ts|
    ensures forall i :: 0 <= i < |ts| ==> es[i] == MakeEntry(cfg, ts[i])
  {
    if ts == [] then [] else Entries(cfg, ts[..|ts| - 1]) + [MakeEntry(cfg, ts[|ts| - 1])]
  }

  /** All collections of the subjobs 0..n-1 of a subjob dictionary. */
  ghost function SubjobsContent(m: map<int, Subjob>, n: nat): multiset<CollectionEntry>
    requires forall i :: 0 <= i < n ==> i in m
  {
    if n == 0 then multiset{} else SubjobsContent(m, n - 1) + multiset(m[n - 1].collections)
  }

  /** All collections of a sequence of published workunits. */
  ghost function PublishedContent(ws: seq<Workunit>): multiset<CollectionEntry>
    requires forall k :: 0 <= k < |ws| ==> Indexed(ws[k].subjobs, |ws[k].subjobs|)
  {
    if ws == [] then multiset{}
    else
      assert Indexed(ws[|ws| - 1].subjobs, |ws[|ws| - 1].subjobs|);
      PublishedContent(ws[..|ws| - 1]) + SubjobsContent(ws[|ws| - 1].subjobs, |ws[|ws| - 1].subjobs|)
  }

  lemma SubjobsContentFrame(m: map<int, Subjob>, m': map<int, Subjob>, n: nat)
    requires forall i :: 0 <= i < n ==> i in m && i in m' && m[i] == m'[i]
    ensures SubjobsContent(m, n) == SubjobsContent(m', n)
  {
  }

  lemma PublishedContentAppend(ws: seq<Workunit>, w: Workunit)
    requires forall k :: 0 <= k < |ws| ==> Indexed(ws[k].subjobs, |ws[k].subjobs|)
    requires Indexed(w.subjobs, |w.subjobs|)
    ensures PublishedContent(ws + [w]) == PublishedContent(ws) + SubjobsContent(w.subjobs, |w.subjobs|)
  {
    assert (ws + [w])[..|ws|] == ws;
  }

  ghost predicate PublishedOK(ws: seq<Workunit>) {
    forall k :: 0 <= k < |ws| ==> Indexed(ws[k].subjobs, |ws[k].subjobs|)
  }

  ghost predicate PendingOK(st: State) {
    st.subjobIndex >= 0 && Indexed(st.current, st.subjobIndex)
  }

  ghost predicate WellFormed(st: State) {
    PendingOK(st) && PublishedOK(st.published)
  }

  /** The collections not yet published: the open subjobs and the leftover pile. */
  ghost function Pending(st: State): multiset<CollectionEntry>
    requires PendingOK(st)
  {
    SubjobsContent(st.current, st.subjobIndex) + multiset(st.leftover.collections)
  }

  /** Every collection held anywhere in the loop state. */
  ghost function Content(st: State): multiset<CollectionEntry>
    requires WellFormed(st)
  {
    PublishedContent(st.published) + Pending(st)
  }

  lemma AddSubjob(m: map<int, Subjob>, n: nat, s: Subjob)
    requires Indexed(m, n)
    ensures Indexed(m[n := s], n + 1)
    ensures SubjobsContent(m[n := s], n + 1) == SubjobsContent(m, n) + multiset(s.collections)
  {
    SubjobsContentFrame(m[n := s], m, n);
  }

  /** Placing a collection whose key is not on the pile adds exactly that collection to the open part of the state. */
  lemma PlaceContent(cfg: PartitionConfig, st: State, t: TodoLine)
    requires PendingOK(st)
    requires forall i :: 0 <= i < |st.leftover.collections| ==> st.leftover.collections[i].key != t.key
    ensures PendingOK(Place(cfg, st, t))
    ensures Place(cfg, st, t).published == st.published
    ensures Pending(Place(cfg, st, t)) == Pending(st) + multiset{MakeEntry(cfg, t)}
  {
    if t.count >= cfg.ligandsTodoPerQueue {
      OpenSubjob(st, Subjob([MakeEntry(cfg, t)]));
    } else if st.leftoverCount + t.count >= cfg.ligandsTodoPerQueue {
      PlaceSealsPile(cfg, st, t);
    } else {
      PlaceOnPile(cfg, st, t);
    }
  }

  lemma PlaceSealsPile(cfg: PartitionConfig, st: State, t: TodoLine)
    requires PendingOK(st)
    requires forall i :: 0 <= i < |st.leftover.collections| ==> st.leftover.collections[i].key != t.key
    requires t.count < cfg.ligandsTodoPerQueue <= st.leftoverCount + t.count
    ensures PendingOK(Place(cfg, st, t))
    ensures Pending(Place(cfg, st, t)) == Pending(st) + multiset{MakeEntry(cfg, t)}
  {
    var e := MakeEntry(cfg, t);
    var pile := Put(st.leftover, e);
    assert pile.collections == st.leftover.collections + [e];
    var emptied := st.(leftoverCount := 0, leftover := Subjob([]));
    assert Pending(emptied) + multiset(st.leftover.collections) == Pending(st);
    OpenSubjob(emptied, pile);
    assert Place(cfg, st, t)
        == emptied.(current := emptied.current[emptied.subjobIndex := pile], subjobIndex := emptied.subjobIndex + 1);
  }

  lemma PlaceOnPile(cfg: PartitionConfig, st: State, t: TodoLine)
    requires PendingOK(st)
    requires forall i :: 0 <= i < |st.leftover.collections| ==> st.leftover.collections[i].key != t.key
    requires t.count < cfg.ligandsTodoPerQueue && st.leftoverCount + t.count < cfg.ligandsTodoPerQueue
    ensures PendingOK(Place(cfg, st, t))
    ensures Pending(Place(cfg, st, t)) == Pending(st) + multiset{MakeEntry(cfg, t)}
  {
    var e := MakeEntry(cfg, t);
    var pile := Put(st.leftover, e);
    assert pile.collections == st.leftover.collections + [e];
  }

  /** Opening a subjob at the next index adds its collections to the open part of the state. */
  lemma OpenSubjob(st: State, s: Subjob)
    requires PendingOK(st)
    ensures var r := st.(current := st.current[st.subjobIndex := s], subjobIndex := st.subjobIndex + 1);
      PendingOK(r) && Pending(r) == Pending(st) + multiset(s.collections)
  {
    AddSubjob(st.current, st.subjobIndex, s);
  }

  /** Publishing a full workunit moves its subjobs without losing or adding any collection. */
  lemma SealContent(cfg: PartitionConfig, st: State)
    requires WellFormed(st)
    ensures WellFormed(SealIfFull(cfg, st))
    ensures Content(SealIfFull(cfg, st)) == Content(st)
  {
    if |st.current| == cfg.maxArrayJobSize {
      IndexedCard(st.current, st.subjobIndex);
      PublishedContentAppend(st.published, Publish(cfg, st.workunitIndex, st.current));
    }
  }

  ghost predicate DistinctKeys(ts: seq<TodoLine>) {
    forall i, j :: 0 <= i < j < |ts| ==> ts[i].key != ts[j].key
  }

  function Keys(ts: seq<TodoLine>): (ks: seq<string>)
    ensures |ks| == |ts| && forall i :: 0 <= i < |ts| ==> ks[i] == ts[i].key
  {
    seq(|ts|, i requires 0 <= i < |ts| => ts[i].key)
  }

  /** The leftover pile only holds collections of lines already read. */
  lemma {:induction false} ScanPileKeys(cfg: PartitionConfig, ts: seq<TodoLine>)
    ensures forall x :: x in Scan(cfg, ts).leftover.collections ==> x.key in Keys(ts)
    decreases |ts|
  {
    if ts != [] {
      var pre := ts[..|ts| - 1];
      ScanPileKeys(cfg, pre);
      assert forall k :: k in Keys(pre) ==> k in Keys(ts) by {
        assert forall i :: 0 <= i < |pre| ==> Keys(pre)[i] == Keys(ts)[i];
      }
      assert MakeEntry(cfg, ts[|ts| - 1]).key == Keys(ts)[|ts| - 1];
    }
  }

  /** With distinct keys, the next line's collection is never already on the pile. */
  lemma NextKeyFresh(cfg: PartitionConfig, ts: seq<TodoLine>, st: State)
    requires DistinctKeys(ts) && ts != [] && st == Scan(cfg, ts[..|ts| - 1])
    ensures forall i :: 0 <= i < |st.leftover.collections| ==> st.leftover.collections[i].key != ts[|ts| - 1].key
  {
    var pre := ts[..|ts| - 1];
    ScanPileKeys(cfg, pre);
    assert ts[|ts| - 1].key !in Keys(pre);
  }

  /** The loop state holds exactly the collections read so far. */
  lemma {:induction false} ScanConserves(cfg: PartitionConfig, ts: seq<TodoLine>)
    requires DistinctKeys(ts)
    ensures WellFormed(Scan(cfg, ts))
    ensures Content(Scan(cfg, ts)) == multiset(Entries(cfg, ts))
    decreases |ts|
  {
    if ts != [] {
      var pre := ts[..|ts| - 1];
      var t := ts[|ts| - 1];
      assert DistinctKeys(pre) by {
        assert forall i :: 0 <= i < |pre| ==> pre[i] == ts[i];
      }
      ScanConserves(cfg, pre);
      var st := Scan(cfg, pre);
      var p := Place(cfg, st, t);
      PlaceConserves(cfg, ts, st);
      SealContent(cfg, p);
      assert Scan(cfg, ts) == SealIfFull(cfg, p);
    }
  }

  /** Placing the next line's collection adds exactly that collection. */
  lemma PlaceConserves(cfg: PartitionConfig, ts: seq<TodoLine>, st: State)
    requires DistinctKeys(ts) && ts != []
    requires st == Scan(cfg, ts[..|ts| - 1])
    requires WellFormed(st) && Content(st) == multiset(Entries(cfg, ts[..|ts| - 1]))
    ensures WellFormed(Place(cfg, st, ts[|ts| - 1]))
    ensures Content(Place(cfg, st, ts[|ts| - 1])) == multiset(Entries(cfg, ts))
  {
    var t := ts[|ts| - 1];
    var e := MakeEntry(cfg, t);
    NextKeyFresh(cfg, ts, st);
    PlaceContent(cfg, st, t);
    var p := Place(cfg, st, t);
    assert Content(p) == Content(st) + multiset{e};
    assert Entries(cfg, ts) == Entries(cfg, ts[..|ts| - 1]) + [e];
  }

  /** The trailing leftover pile that `process` drops because its counts sum to zero or less. */
  function Dropped(cfg: PartitionConfig, ts: seq<TodoLine>): seq<CollectionEntry> {
    var st := Scan(cfg, ts);
    if st.leftoverCount > 0 then [] else st.leftover.collections
  }

  /** The final flush publishes every collection of the state except a dropped zero-sum pile. */
  lemma FinishContent(cfg: PartitionConfig, st: State)
    requires WellFormed(st)
    ensures PublishedOK(Finish(cfg, st))
    ensures PublishedContent(Finish(cfg, st))
            + multiset(if st.leftoverCount > 0 then [] else st.leftover.collections) == Content(st)
  {
    if st.leftoverCount > 0 {
      FinishWithPile(cfg, st);
    } else {
      IndexedCard(st.current, st.subjobIndex);
      if st.subjobIndex > 0 {
        PublishedContentAppend(st.published, Publish(cfg, st.workunitIndex, st.current));
      }
    }
  }

  lemma FinishWithPile(cfg: PartitionConfig, st: State)
    requires WellFormed(st) && st.leftoverCount > 0
    ensures PublishedOK(Finish(cfg, st))
    ensures PublishedContent(Finish(cfg, st)) == Content(st)
  {
    var last := st.current[st.subjobIndex := st.leftover];
    AddSubjob(st.current, st.subjobIndex, st.leftover);
    IndexedCard(last, st.subjobIndex + 1);
    PublishedContentAppend(st.published, Publish(cfg, st.workunitIndex, last));
  }

  /** Every collection is placed exactly once: with distinct keys, the
      collections of all published subjobs together with the dropped
      zero-sum pile are exactly the input collections. */
  lemma PartitionPlacesEachOnce(cfg: PartitionConfig, ts: seq<TodoLine>)
    requires DistinctKeys(ts)
    ensures forall k :: 0 <= k < |Partition(cfg, ts)| ==>
              Indexed(Partition(cfg, ts)[k].subjobs, |Partition(cfg, ts)[k].subjobs|)
    ensures PublishedContent(Partition(cfg, ts)) + multiset(Dropped(cfg, ts)) == multiset(Entries(cfg, ts))
  {
    ScanConserves(cfg, ts);
    FinishContent(cfg, Scan(cfg, ts));
  }

  // ------------------------------------------------------------------ subjob sizes

  /** The ligands a sequence of collections accounts for. */
  function Ligands(cs: seq<CollectionEntry>): int {
    if cs == [] then 0 else Ligands(cs[..|cs| - 1]) + cs[|cs| - 1].ligandCount
  }

  /** A collection with at least `ligands_todo_per_queue` ligands is alone in its subjob. */
  ghost predicate BigAlone(cfg: PartitionConfig, s: Subjob) {
    forall i :: 0 <= i < |s.collections| && s.collections[i].ligandCount >= cfg.ligandsTodoPerQueue
      ==> s.collections == [s.collections[i]]
  }

  /** A subjob the loop closes: big collections alone, and at least `ligands_todo_per_queue` ligands. */
  ghost predicate Full(cfg: PartitionConfig, s: Subjob) {
    BigAlone(cfg, s) && Ligands(s.collections) >= cfg.ligandsTodoPerQueue
  }

  ghost predicate AllFull(cfg: PartitionConfig, m: map<int, Subjob>) {
    forall i :: i in m ==> Full(cfg, m[i])
  }

  /** Only small collections wait on the pile. */
  ghost predicate AllSmall(cfg: PartitionConfig, cs: seq<CollectionEntry>) {
    forall i :: 0 <= i < |cs| ==> cs[i].ligandCount < cfg.ligandsTodoPerQueue
  }

  ghost predicate Sized(cfg: PartitionConfig, st: State) {
    && AllFull(cfg, st.current)
    && (forall k :: 0 <= k < |st.published| ==> AllFull(cfg, st.published[k].subjobs))
    && AllSmall(cfg, st.leftover.collections)
    && Ligands(st.leftover.collections) == st.leftoverCount
  }

  lemma SingletonFull(cfg: PartitionConfig, e: CollectionEntry)
    requires e.ligandCount >= cfg.ligandsTodoPerQueue
    ensures Full(cfg, Subjob([e]))
  {
    assert [e][..0] == [];
  }

  lemma PileGrows(cfg: PartitionConfig, pile: seq<CollectionEntry>, e: CollectionEntry)
    requires AllSmall(cfg, pile) && e.ligandCount < cfg.ligandsTodoPerQueue
    ensures AllSmall(cfg, pile + [e]) && BigAlone(cfg, Subjob(pile + [e]))
    ensures Ligands(pile + [e]) == Ligands(pile) + e.ligandCount
  {
    assert (pile + [e])[..|pile|] == pile;
  }

  lemma PlaceSized(cfg: PartitionConfig, st: State, t: TodoLine)
    requires Sized(cfg, st)
    requires forall i :: 0 <= i < |st.leftover.collections| ==> st.leftover.collections[i].key != t.key
    ensures Sized(cfg, Place(cfg, st, t))
  {
    var e := MakeEntry(cfg, t);
    if t.count >= cfg.ligandsTodoPerQueue {
      SingletonFull(cfg, e);
    } else {
      assert Put(st.leftover, e).collections == st.leftover.collections + [e];
      PileGrows(cfg, st.leftover.collections, e);
    }
  }

  lemma SealSized(cfg: PartitionConfig, st: State)
    requires Sized(cfg, st)
    ensures Sized(cfg, SealIfFull(cfg, st))
  {
  }

  lemma {:induction false} ScanSized(cfg: PartitionConfig, ts: seq<TodoLine>)
    requires DistinctKeys(ts)
    ensures Sized(cfg, Scan(cfg, ts))
    decreases |ts|
  {
    if ts != [] {
      var pre := ts[..|ts| - 1];
      assert DistinctKeys(pre) by {
        assert forall i :: 0 <= i < |pre| ==> pre[i] == ts[i];
      }
      ScanSized(cfg, pre);
      var st := Scan(cfg, pre);
      NextKeyFresh(cfg, ts, st);
      var t := ts[|ts| - 1];
      PlaceSized(cfg, st, t);
      SealSized(cfg, Place(cfg, st, t));
      assert Scan(cfg, ts) == SealIfFull(cfg, Place(cfg, st, t));
    }
  }

  /** What `ligands_todo_per_queue` buys: with distinct keys, a collection
      holding at least that many ligands always gets a subjob of its own, and
      every subjob holds at least that many ligands except the very last
      subjob of the last workunit, the flushed leftover pile. */
  lemma PartitionSubjobSizes(cfg: PartitionConfig, ts: seq<TodoLine>)
    requires cfg.maxArrayJobSize >= 1 && DistinctKeys(ts)
    ensures var ws := Partition(cfg, ts);
      forall k, j :: 0 <= k < |ws| && j in ws[k].subjobs ==>
        && BigAlone(cfg, ws[k].subjobs[j])
        && (Ligands(ws[k].subjobs[j].collections) >= cfg.ligandsTodoPerQueue
            || (k == |ws| - 1 && j == |ws[k].subjobs| - 1))
  {
    var st := Scan(cfg, ts);
    ScanInv(cfg, ts);
    ScanSized(cfg, ts);
    if st.leftoverCount > 0 {
      FinishPileSized(cfg, st);
    }
  }

  lemma FinishPileSized(cfg: PartitionConfig, st: State)
    requires Inv(cfg, st) && Sized(cfg, st) && st.leftoverCount > 0
    ensures var ws := Finish(cfg, st);
      forall k, j :: 0 <= k < |ws| && j in ws[k].subjobs ==>
        && BigAlone(cfg, ws[k].subjobs[j])
        && (Ligands(ws[k].subjobs[j].collections) >= cfg.ligandsTodoPerQueue
            || (k == |ws| - 1 && j == |ws[k].subjobs| - 1))
  {
    var last := st.current[st.subjobIndex := st.leftover];
    AddSubjob(st.current, st.subjobIndex, st.leftover);
    IndexedCard(last, st.subjobIndex + 1);
    assert BigAlone(cfg, st.leftover);
  }
}
