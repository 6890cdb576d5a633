/** The status report of tools/vflp_get_details.py: which workunits it
    visits, where it fetches each collection's status summary, and the tally
    it prints: per subjob the original, expanded and successful ligand
    counts, and per `status_sub` category the number of successful and of
    other entries.

    Fetching a summary (an object-store download) is not modelled: each
    collection comes with its summary, or `None` when the download failed.
 */
module Details {

  import opened Base
  import opened PyStr
  import opened Records
  import Collection
  import ControlFile

  // ------------------------------------------------------------ the category tally

  /** The three dictionaries of lines 127-129: the categories in the order
      they were first seen, and the success and failure counts of each. */
  datatype Tally = Tally(order: seq<string>, success: map<string, nat>, failed: map<string, nat>)

  ghost predicate WellFormed(t: Tally) {
    (forall c :: c in t.success <==> c in t.order)
    && (forall c :: c in t.failed <==> c in t.order)
  }

  function EmptyTally(): (t: Tally)
    ensures WellFormed(t)
  {
    Tally([], map[], map[])
  }

  /** A count, zero for a category not seen yet. */
  function Get(m: map<string, nat>, c: string): nat {
    if c in m then m[c] else 0
  }

  /** Lines 194-205 for one entry: a new category starts at zero, then the
      entry counts as a success exactly when its state is "success". */
  function CountEntry(t: Tally, e: Entry): (r: Tally)
    requires WellFormed(t)
    ensures WellFormed(r)
  {
    var c := e.category;
    var t1 := if c in t.order then t else Tally(t.order + [c], t.success[c := 0], t.failed[c := 0]);
    if e.state == "success" then t1.(success := t1.success[c := t1.success[c] + 1])
    else t1.(failed := t1.failed[c := t1.failed[c] + 1])
  }

  /** The entries in order. */
  function CountEntries(t: Tally, es: seq<Entry>): (r: Tally)
    requires WellFormed(t)
    ensures WellFormed(r)
    decreases |es|
  {
    if es == [] then t else CountEntries(CountEntry(t, es[0]), es[1..])
  }

  /** How many entries of category `c` have (`ok`) or lack (`!ok`) the state "success". */
  function Occ(es: seq<Entry>, c: string, ok: bool): nat
    decreases |es|
  {
    if es == [] then 0
    else (if es[0].category == c && (es[0].state == "success") == ok then 1 else 0) + Occ(es[1..], c, ok)
  }

  /** How many entries have category `c`. */
  function CategoryCount(es: seq<Entry>, c: string): nat
    decreases |es|
  {
    if es == [] then 0 else (if es[0].category == c then 1 else 0) + CategoryCount(es[1..], c)
  }

  /** One entry adds one to the success or the failure count of its own
      category and registers that category; other categories are untouched. */
  lemma CountEntryGet(t: Tally, e: Entry, c: string)
    requires WellFormed(t)
    ensures Get(CountEntry(t, e).success, c) == Get(t.success, c) + Occ([e], c, true)
    ensures Get(CountEntry(t, e).failed, c) == Get(t.failed, c) + Occ([e], c, false)
    ensures c in CountEntry(t, e).order <==> c in t.order || e.category == c
  {
    assert [e][1..] == [];
  }

  /** Counting the entries adds, for every category, the number of its
      successful entries to its success count and the number of its other
      entries to its failure count. */
  lemma {:induction false} CountEntriesSpec(t: Tally, es: seq<Entry>, c: string)
    requires WellFormed(t)
    ensures Get(CountEntries(t, es).success, c) == Get(t.success, c) + Occ(es, c, true)
    ensures Get(CountEntries(t, es).failed, c) == Get(t.failed, c) + Occ(es, c, false)
    decreases |es|
  {
    if es != [] {
      CountEntryGet(t, es[0], c);
      CountEntriesSpec(CountEntry(t, es[0]), es[1..], c);
    }
  }

  /** A category is known after counting exactly when it was before or some entry has it. */
  lemma {:induction false} CountEntriesOrder(t: Tally, es: seq<Entry>, c: string)
    requires WellFormed(t)
    ensures c in CountEntries(t, es).order <==> c in t.order || exists i :: 0 <= i < |es| && es[i].category == c
    decreases |es|
  {
    if es != [] {
      CountEntryGet(t, es[0], c);
      CountEntriesOrder(CountEntry(t, es[0]), es[1..], c);
      if exists i :: 0 <= i < |es| && es[i].category == c {
        var i :| 0 <= i < |es| && es[i].category == c;
        if i > 0 {
          assert es[1..][i - 1].category == c;
        }
      }
      if exists i :: 0 <= i < |es[1..]| && es[1..][i].category == c {
        var i :| 0 <= i < |es[1..]| && es[1..][i].category == c;
        assert es[i + 1].category == c;
      }
    }
  }

  /** Every entry of a category is counted once, as a success or as a failure. */
  lemma {:induction false} OccSplit(es: seq<Entry>, c: string)
    ensures Occ(es, c, true) + Occ(es, c, false) == CategoryCount(es, c)
    decreases |es|
  {
    if es != [] {
      OccSplit(es[1..], c);
    }
  }

  /** For every category, success plus failed equals the number of its entries. */
  lemma TallyBalance(es: seq<Entry>, c: string)
    ensures var t := CountEntries(EmptyTally(), es);
      Get(t.success, c) + Get(t.failed, c) == CategoryCount(es, c)
  {
    CountEntriesSpec(EmptyTally(), es, c);
    OccSplit(es, c);
  }

  /** Only the exact state "success" counts as a success: the "true" a
      successful conformation is logged with counts as a failure. */
  lemma TrueCountsAsFailed(t: Tally, c: string, text: string)
    requires WellFormed(t)
    ensures Get(CountEntry(t, Entry(c, "true", text)).success, c) == Get(t.success, c)
    ensures Get(CountEntry(t, Entry(c, "true", text)).failed, c) == Get(t.failed, c) + 1
  {
    assert "true" != "success" by { assert "true"[0] != "success"[0]; }
  }

  // ------------------------------------------------------------ the subjob counts

  /** Lines 169-171: the counts printed for one subjob. */
  datatype Counts = Counts(original: nat, expanded: nat, successful: nat)

  datatype State = State(counts: Counts, tally: Tally)

  /** Lines 186-205 for one tautomer. */
  function TautomerStep(s: State, t: Tautomer): (r: State)
    requires WellFormed(s.tally)
    ensures WellFormed(r.tally)
  {
    var k := s.counts;
    State(Counts(k.original, k.expanded + 1, k.successful + if t.status == "success" then 1 else 0),
          CountEntries(s.tally, t.trail))
  }

  function TautomersStep(s: State, ts: seq<Tautomer>): (r: State)
    requires WellFormed(s.tally)
    ensures WellFormed(r.tally)
    decreases |ts|
  {
    if ts == [] then s else TautomersStep(TautomerStep(s, ts[0]), ts[1..])
  }

  /** Lines 183-205 for the ligands of one summary. */
  function LigandsStep(s: State, ls: Collection.Ligands): (r: State)
    requires WellFormed(s.tally)
    ensures WellFormed(r.tally)
    decreases |ls|
  {
    if ls == [] then s
    else
      var k := s.counts;
      LigandsStep(TautomersStep(s.(counts := k.(original := k.original + 1)), ls[0].1.tautomers), ls[1..])
  }

  /** Lines 175-181: a summary that could not be fetched is skipped. */
  function CollectionStep(s: State, c: Option<Collection.Ligands>): (r: State)
    requires WellFormed(s.tally)
    ensures WellFormed(r.tally)
  {
    match c
    case None => s
    case Some(ls) => LigandsStep(s, ls)
  }

  function CollectionsStep(s: State, cs: seq<Option<Collection.Ligands>>): (r: State)
    requires WellFormed(s.tally)
    ensures WellFormed(r.tally)
    decreases |cs|
  {
    if cs == [] then s else CollectionsStep(CollectionStep(s, cs[0]), cs[1..])
  }

  // ---- the same quantities, read off the summaries directly

  function Successes(ts: seq<Tautomer>): nat
    decreases |ts|
  {
    if ts == [] then 0 else (if ts[0].status == "success" then 1 else 0) + Successes(ts[1..])
  }

  function Trails(ts: seq<Tautomer>): seq<Entry>
    decreases |ts|
  {
    if ts == [] then [] else ts[0].trail + Trails(ts[1..])
  }

  /** Every tautomer of the ligands, in order. */
  function TautomersOf(ls: Collection.Ligands): seq<Tautomer>
    decreases |ls|
  {
    if ls == [] then [] else ls[0].1.tautomers + TautomersOf(ls[1..])
  }

  /** Every tautomer of the fetched summaries, in order. */
  function Fetched(cs: seq<Option<Collection.Ligands>>): seq<Tautomer>
    decreases |cs|
  {
    if cs == [] then []
    else (match cs[0] case None => [] case Some(ls) => TautomersOf(ls)) + Fetched(cs[1..])
  }

  /** The number of ligand keys of the fetched summaries. */
  function LigandCount(cs: seq<Option<Collection.Ligands>>): nat
    decreases |cs|
  {
    if cs == [] then 0
    else (match cs[0] case None => 0 case Some(ls) => |ls|) + LigandCount(cs[1..])
  }

  lemma {:induction false} CountEntriesConcat(t: Tally, a: seq<Entry>, b: seq<Entry>)
    requires WellFormed(t)
    ensures CountEntries(t, a + b) == CountEntries(CountEntries(t, a), b)
    decreases |a|
  {
    if a != [] {
      assert (a + b)[0] == a[0];
      assert (a + b)[1..] == a[1..] + b;
      CountEntriesConcat(CountEntry(t, a[0]), a[1..], b);
    } else {
      assert a + b == b;
    }
  }

  lemma {:induction false} SuccessesConcat(a: seq<Tautomer>, b: seq<Tautomer>)
    ensures Successes(a + b) == Successes(a) + Successes(b)
    ensures Trails(a + b) == Trails(a) + Trails(b)
    decreases |a|
  {
    if a != [] {
      assert (a + b)[0] == a[0];
      assert (a + b)[1..] == a[1..] + b;
      SuccessesConcat(a[1..], b);
    } else {
      assert a + b == b;
    }
  }

  /** The tautomer loop adds one per tautomer, one per successful tautomer,
      and tallies their trails in order. */
  lemma {:induction false} TautomersStepSpec(s: State, ts: seq<Tautomer>)
    requires WellFormed(s.tally)
    ensures var r := TautomersStep(s, ts);
      && r.counts == Counts(s.counts.original, s.counts.expanded + |ts|, s.counts.successful + Successes(ts))
      && r.tally == CountEntries(s.tally, Trails(ts))
    decreases |ts|
  {
    if ts != [] {
      var s1 := TautomerStep(s, ts[0]);
      TautomersStepSpec(s1, ts[1..]);
      CountEntriesConcat(s.tally, ts[0].trail, Trails(ts[1..]));
    }
  }

  lemma {:induction false} LigandsStepSpec(s: State, ls: Collection.Ligands)
    requires WellFormed(s.tally)
    ensures var r := LigandsStep(s, ls);
      && r.counts == Counts(s.counts.original + |ls|, s.counts.expanded + |TautomersOf(ls)|,
                            s.counts.successful + Successes(TautomersOf(ls)))
      && r.tally == CountEntries(s.tally, Trails(TautomersOf(ls)))
    decreases |ls|
  {
    if ls != [] {
      var k := s.counts;
      var s0 := s.(counts := k.(original := k.original + 1));
      var ts := ls[0].1.tautomers;
      var rest := TautomersOf(ls[1..]);
      TautomersStepSpec(s0, ts);
      var s1 := TautomersStep(s0, ts);
      assert LigandsStep(s, ls) == LigandsStep(s1, ls[1..]);
      assert TautomersOf(ls) == ts + rest;
      LigandsStepSpec(s1, ls[1..]);
      SuccessesConcat(ts, rest);
      CountEntriesConcat(s.tally, Trails(ts), Trails(rest));
      assert |ts + rest| == |ts| + |rest|;
    }
  }

  /** The counts of a subjob are read off its fetched summaries: original is
      the number of ligand keys, expanded the number of tautomers, successful
      the number of those whose status is "success"; the tally counts their
      trails in order. */
  lemma {:induction false} CollectionsStepSpec(s: State, cs: seq<Option<Collection.Ligands>>)
    requires WellFormed(s.tally)
    ensures var r := CollectionsStep(s, cs);
      && r.counts == Counts(s.counts.original + LigandCount(cs), s.counts.expanded + |Fetched(cs)|,
                            s.counts.successful + Successes(Fetched(cs)))
      && r.tally == CountEntries(s.tally, Trails(Fetched(cs)))
    decreases |cs|
  {
    if cs != [] {
      var s1 := CollectionStep(s, cs[0]);
      CollectionsStepSpec(s1, cs[1..]);
      match cs[0]
      case None =>
        assert Fetched(cs) == Fetched(cs[1..]);
      case Some(ls) =>
        LigandsStepSpec(s, ls);
        SuccessesConcat(TautomersOf(ls), Fetched(cs[1..]));
        CountEntriesConcat(s.tally, Trails(TautomersOf(ls)), Trails(Fetched(cs[1..])));
    }
  }

  lemma {:induction false} SuccessesBound(ts: seq<Tautomer>)
    ensures Successes(ts) <= |ts|
    decreases |ts|
  {
    if ts != [] {
      SuccessesBound(ts[1..]);
    }
  }

  /** A subjob never reports more successful than expanded ligands. */
  lemma SuccessfulAtMostExpanded(cs: seq<Option<Collection.Ligands>>)
    ensures var k := CollectionsStep(State(Counts(0, 0, 0), EmptyTally()), cs).counts;
      k.successful <= k.expanded && k.original == LigandCount(cs)
  {
    CollectionsStepSpec(State(Counts(0, 0, 0), EmptyTally()), cs);
    SuccessesBound(Fetched(cs));
  }

  /** A summary that could not be fetched changes nothing, wherever it sits. */
  lemma {:induction false} MissingSummaryIgnored(s: State, a: seq<Option<Collection.Ligands>>, b: seq<Option<Collection.Ligands>>)
    requires WellFormed(s.tally)
    ensures CollectionsStep(s, a + [None] + b) == CollectionsStep(s, a + b)
    decreases |a|
  {
    if a == [] {
      assert ([] + [None] + b)[1..] == b;
      assert [] + b == b;
    } else {
      assert (a + [None] + b)[0] == a[0] && (a + b)[0] == a[0];
      assert (a + [None] + b)[1..] == a[1..] + [None] + b;
      assert (a + b)[1..] == a[1..] + b;
      MissingSummaryIgnored(CollectionStep(s, a[0]), a[1..], b);
    }
  }

  // ------------------------------------------------------------ subjobs and workunits

  /** A subjob record of the status file with the summaries of its collections. */
  datatype Subjob = Subjob(status: string, processed: Option<int>, summaries: seq<Option<Collection.Ligands>>)

  /** A workunit record: whether the status step has run on it, and its subjobs in order. */
  datatype Workunit = Workunit(hasStatus: bool, subjobs: seq<Subjob>)

  /** Why the report ends early: an unknown first workunit, a workunit
      without status (both `exit(1)`), or a workunit ID `int()` rejects. */
  datatype Exit = NotFound(key: string) | NoStatus(key: string) | ValueError

  /** Lines 173-174: only finished subjobs not yet marked processed are tallied. */
  predicate Finished(sj: Subjob) {
    sj.status == "SUCCEEDED" || sj.status == "FAILED"
  }

  predicate Unprocessed(sj: Subjob) {
    sj.processed.None? || sj.processed == Some(0)
  }

  /** Lines 166-211 for one subjob: the counts line (`None` for the line that
      only prints an unfinished subjob's status) and the updated tally. */
  function SubjobReport(t: Tally, sj: Subjob): (r: (Option<Counts>, Tally))
    requires WellFormed(t)
    ensures WellFormed(r.1)
    ensures r.0.Some? <==> Finished(sj)
    ensures !(Finished(sj) && Unprocessed(sj)) ==> r.1 == t && (r.0.Some? ==> r.0.value == Counts(0, 0, 0))
  {
    if !Finished(sj) then (None, t)
    else if !Unprocessed(sj) then (Some(Counts(0, 0, 0)), t)
    else
      var s := CollectionsStep(State(Counts(0, 0, 0), t), sj.summaries);
      (Some(s.counts), s.tally)
  }

  /** A report: one line per subjob visited, in order, and the final tally. */
  datatype Report = Report(lines: seq<Option<Counts>>, tally: Tally)

  function SubjobsReport(rep: Report, sjs: seq<Subjob>): (r: Report)
    requires WellFormed(rep.tally)
    ensures WellFormed(r.tally)
    ensures |r.lines| == |rep.lines| + |sjs|
    decreases |sjs|
  {
    if sjs == [] then rep
    else
      var (line, t) := SubjobReport(rep.tally, sjs[0]);
      SubjobsReport(Report(rep.lines + [line], t), sjs[1..])
  }

  /** Lines 147-211: the workunits visited, in order; one without status ends the report. */
  function WorkunitsReport(workunits: map<string, Workunit>, rep: Report, keys: seq<string>): (r: Result<Report, Exit>)
    requires WellFormed(rep.tally)
    requires forall i :: 0 <= i < |keys| ==> keys[i] in workunits
    ensures r.Ok? ==> WellFormed(r.value.tally)
    ensures r.Err? <==> exists i :: 0 <= i < |keys| && !workunits[keys[i]].hasStatus
    decreases |keys|
  {
    if keys == [] then Ok(rep)
    else if !workunits[keys[0]].hasStatus then Err(NoStatus(keys[0]))
    else
      var r := WorkunitsReport(workunits, SubjobsReport(rep, workunits[keys[0]].subjobs), keys[1..]);
      assert forall i :: 0 <= i < |keys[1..]| ==> keys[1..][i] == keys[i + 1];
      r
  }

  // ---- the whole report, read off the subjobs directly

  /** The counts line of one subjob: none while it runs, zeros once it is
      marked processed, else the counts of its fetched summaries. */
  function SubjobLine(sj: Subjob): Option<Counts> {
    if !Finished(sj) then None
    else if !Unprocessed(sj) then Some(Counts(0, 0, 0))
    else
      var ts := Fetched(sj.summaries);
      Some(Counts(LigandCount(sj.summaries), |ts|, Successes(ts)))
  }

  /** The entries one subjob contributes to the tally. */
  function SubjobEntries(sj: Subjob): seq<Entry> {
    if Finished(sj) && Unprocessed(sj) then Trails(Fetched(sj.summaries)) else []
  }

  function Lines(sjs: seq<Subjob>): seq<Option<Counts>>
    decreases |sjs|
  {
    if sjs == [] then [] else [SubjobLine(sjs[0])] + Lines(sjs[1..])
  }

  /** Every entry tallied over the subjobs, in order. */
  function Tallied(sjs: seq<Subjob>): seq<Entry>
    decreases |sjs|
  {
    if sjs == [] then [] else SubjobEntries(sjs[0]) + Tallied(sjs[1..])
  }

  /** The subjobs of the visited workunits, in visiting order. */
  function VisitedSubjobs(workunits: map<string, Workunit>, keys: seq<string>): seq<Subjob>
    requires forall i :: 0 <= i < |keys| ==> keys[i] in workunits
    decreases |keys|
  {
    if keys == [] then []
    else
      assert forall i :: 0 <= i < |keys[1..]| ==> keys[1..][i] == keys[i + 1];
      workunits[keys[0]].subjobs + VisitedSubjobs(workunits, keys[1..])
  }

  /** One subjob's report is its line, and its entries added to the tally. */
  lemma SubjobReportSpec(t: Tally, sj: Subjob)
    requires WellFormed(t)
    ensures SubjobReport(t, sj) == (SubjobLine(sj), CountEntries(t, SubjobEntries(sj)))
  {
    if Finished(sj) && Unprocessed(sj) {
      CollectionsStepSpec(State(Counts(0, 0, 0), t), sj.summaries);
    }
  }

  lemma {:induction false} LinesConcat(a: seq<Subjob>, b: seq<Subjob>)
    ensures Lines(a + b) == Lines(a) + Lines(b)
    ensures Tallied(a + b) == Tallied(a) + Tallied(b)
    decreases |a|
  {
    if a != [] {
      assert (a + b)[0] == a[0];
      assert (a + b)[1..] == a[1..] + b;
      LinesConcat(a[1..], b);
    } else {
      assert a + b == b;
    }
  }

  /** The subjob loop appends one line per subjob and tallies their entries in order. */
  lemma {:induction false} SubjobsReportSpec(rep: Report, sjs: seq<Subjob>)
    requires WellFormed(rep.tally)
    ensures SubjobsReport(rep, sjs) == Report(rep.lines + Lines(sjs), CountEntries(rep.tally, Tallied(sjs)))
    decreases |sjs|
  {
    if sjs == [] {
      assert rep.lines + [] == rep.lines;
    } else {
      SubjobReportSpec(rep.tally, sjs[0]);
      var rep1 := Report(rep.lines + [SubjobLine(sjs[0])], CountEntries(rep.tally, SubjobEntries(sjs[0])));
      assert SubjobsReport(rep, sjs) == SubjobsReport(rep1, sjs[1..]);
      SubjobsReportSpec(rep1, sjs[1..]);
      CountEntriesConcat(rep.tally, SubjobEntries(sjs[0]), Tallied(sjs[1..]));
      assert Lines(sjs) == [SubjobLine(sjs[0])] + Lines(sjs[1..]);
      assert rep1.lines + Lines(sjs[1..]) == rep.lines + Lines(sjs);
    }
  }

  /** A report that does not end early holds one line per subjob of the
      visited workunits and the tally of all their entries. */
  lemma {:induction false} WorkunitsReportSpec(workunits: map<string, Workunit>, rep: Report, keys: seq<string>)
    requires WellFormed(rep.tally)
    requires forall i :: 0 <= i < |keys| ==> keys[i] in workunits
    ensures var r := WorkunitsReport(workunits, rep, keys);
      r.Ok? ==> r.value == Report(rep.lines + Lines(VisitedSubjobs(workunits, keys)),
                                  CountEntries(rep.tally, Tallied(VisitedSubjobs(workunits, keys))))
    decreases |keys|
  {
    if keys != [] && workunits[keys[0]].hasStatus {
      var sjs := workunits[keys[0]].subjobs;
      assert forall i :: 0 <= i < |keys[1..]| ==> keys[1..][i] == keys[i + 1];
      var rest := VisitedSubjobs(workunits, keys[1..]);
      assert VisitedSubjobs(workunits, keys) == sjs + rest;
      SubjobsReportSpec(rep, sjs);
      var rep1 := SubjobsReport(rep, sjs);
      assert WorkunitsReport(workunits, rep, keys) == WorkunitsReport(workunits, rep1, keys[1..]);
      WorkunitsReportSpec(workunits, rep1, keys[1..]);
      ReportAppend(rep, sjs, rest);
    } else if keys == [] {
      assert rep.lines + [] == rep.lines;
    }
  }

  /** Reporting two runs of subjobs one after the other is reporting their concatenation. */
  lemma ReportAppend(rep: Report, a: seq<Subjob>, b: seq<Subjob>)
    requires WellFormed(rep.tally)
    ensures rep.lines + Lines(a) + Lines(b) == rep.lines + Lines(a + b)
    ensures CountEntries(CountEntries(rep.tally, Tallied(a)), Tallied(b)) == CountEntries(rep.tally, Tallied(a + b))
  {
    LinesConcat(a, b);
    TallyAppend(rep.tally, Tallied(a), Tallied(b), Tallied(a + b));
  }

  lemma TallyAppend(t: Tally, a: seq<Entry>, b: seq<Entry>, ab: seq<Entry>)
    requires WellFormed(t)
    requires ab == a + b
    ensures CountEntries(CountEntries(t, a), b) == CountEntries(t, ab)
  {
    CountEntriesConcat(t, a, b);
  }

  // ---- the workunits visited

  /** The decimal IDs from `a` to `b` inclusive, in increasing order. */
  function IdRange(a: int, b: int): (r: seq<string>)
    ensures |r| == if a <= b then b - a + 1 else 0
    ensures forall i :: 0 <= i < |r| ==> r[i] == IntToString(a + i)
    decreases b - a
  {
    if a > b then [] else [IntToString(a)] + IdRange(a + 1, b)
  }

  function Present(ids: seq<string>, workunits: map<string, Workunit>): (r: seq<string>)
    ensures forall i :: 0 <= i < |r| ==> r[i] in workunits
    ensures forall k :: k in r <==> k in ids && k in workunits
    decreases |ids|
  {
    if ids == [] then []
    else
      var rest := Present(ids[1..], workunits);
      assert forall k :: k in ids <==> k == ids[0] || k in ids[1..];
      (if ids[0] in workunits then [ids[0]] else []) + rest
  }

  /** Lines 135-152: the first ID must be a workunit; with an end ID the
      visited IDs are the decimal forms of the integers from the first to the
      end, inclusive, that name workunits; without one only the first. */
  function Visited(workunits: map<string, Workunit>, start: string, end: Option<string>): (r: Result<seq<string>, Exit>)
    ensures r.Ok? ==> forall i :: 0 <= i < |r.value| ==> r.value[i] in workunits
    ensures start !in workunits ==> r == Err(NotFound(start))
    ensures start in workunits && (end.None? || end.value == "") ==> r == Ok([start])
    ensures r == Err(ValueError) <==>
      start in workunits && end.Some? && end.value != "" && !(IsIntLiteral(start) && IsIntLiteral(end.value))
  {
    if start !in workunits then Err(NotFound(start))
    else if end.None? || end.value == "" then Ok([start])
    else if !IsIntLiteral(start) || !IsIntLiteral(end.value) then Err(ValueError)
    else Ok(Present(IdRange(ParseInt(start), ParseInt(end.value)), workunits))
  }

  /** With an end ID, a workunit is visited exactly when its key is the
      decimal form of an integer between the two IDs. */
  lemma VisitedRange(workunits: map<string, Workunit>, start: string, end: string, k: string)
    requires start in workunits && end != "" && IsIntLiteral(start) && IsIntLiteral(end)
    ensures Visited(workunits, start, Some(end)).Ok?
    ensures k in Visited(workunits, start, Some(end)).value <==>
      k in workunits && exists n :: ParseInt(start) <= n <= ParseInt(end) && k == IntToString(n)
  {
    var ids := IdRange(ParseInt(start), ParseInt(end));
    VisitedIsRange(workunits, start, end);
    IdRangeHas(ParseInt(start), ParseInt(end), k);
    assert k in Present(ids, workunits) <==> k in ids && k in workunits;
  }

  lemma VisitedIsRange(workunits: map<string, Workunit>, start: string, end: string)
    requires start in workunits && end != "" && IsIntLiteral(start) && IsIntLiteral(end)
    ensures Visited(workunits, start, Some(end)) == Ok(Present(IdRange(ParseInt(start), ParseInt(end)), workunits))
  {
  }

  /** `--endworkunit 1_0` reads as 10: from workunit 1 the report visits the
      workunits 1 to 10. */
  lemma UnderscoreEndVisited(workunits: map<string, Workunit>, k: string)
    requires "1" in workunits
    ensures Visited(workunits, "1", Some("1_0")).Ok?
    ensures k in Visited(workunits, "1", Some("1_0")).value <==>
      k in workunits && exists n :: 1 <= n <= 10 && k == IntToString(n)
  {
    UnderscoreRead();
    assert IsDigits("1") && ParseNat("1") == 1 by {
      assert "1"[..0] == [];
    }
    DigitsParseInt("1");
    VisitedRange(workunits, "1", "1_0", k);
  }

  /** An ID is in the range exactly when it is the decimal form of an integer
      from the first to the last. */
  lemma IdRangeHas(a: int, b: int, k: string)
    ensures k in IdRange(a, b) <==> exists n :: a <= n <= b && k == IntToString(n)
  {
    var ids := IdRange(a, b);
    if exists n :: a <= n <= b && k == IntToString(n) {
      var n :| a <= n <= b && k == IntToString(n);
      assert ids[n - a] == k;
    }
    if k in ids {
      var i :| 0 <= i < |ids| && ids[i] == k;
      assert k == IntToString(a + i);
    }
  }

  /** `process` (lines 99-214): the report over the visited workunits. */
  function Process(workunits: map<string, Workunit>, start: string, end: Option<string>): (r: Result<Report, Exit>)
    ensures Visited(workunits, start, end).Err? ==> r == Err(Visited(workunits, start, end).error)
    ensures Visited(workunits, start, end).Ok? ==>
      var keys := Visited(workunits, start, end).value;
      (r.Err? <==> exists i :: 0 <= i < |keys| && !workunits[keys[i]].hasStatus)
      && (r.Ok? ==> r.value == Report(Lines(VisitedSubjobs(workunits, keys)),
                                      CountEntries(EmptyTally(), Tallied(VisitedSubjobs(workunits, keys)))))
  {
    match Visited(workunits, start, end)
    case Err(e) => Err(e)
    case Ok(keys) =>
      WorkunitsReportSpec(workunits, Report([], EmptyTally()), keys);
      WorkunitsReport(workunits, Report([], EmptyTally()), keys)
  }

  /** Over the whole report, every category's success and failure counts add
      up to the number of its entries among all tallied subjobs, and there is
      one line per subjob of the visited workunits. */
  lemma ProcessBalance(workunits: map<string, Workunit>, start: string, end: Option<string>, c: string)
    requires Process(workunits, start, end).Ok?
    ensures var keys := Visited(workunits, start, end).value;
      var r := Process(workunits, start, end).value;
      |r.lines| == |VisitedSubjobs(workunits, keys)|
      && Get(r.tally.success, c) + Get(r.tally.failed, c) == CategoryCount(Tallied(VisitedSubjobs(workunits, keys)), c)
  {
    var keys := Visited(workunits, start, end).value;
    TallyBalance(Tallied(VisitedSubjobs(workunits, keys)), c);
    LinesLength(VisitedSubjobs(workunits, keys));
  }

  lemma {:induction false} LinesLength(sjs: seq<Subjob>)
    ensures |Lines(sjs)| == |sjs|
    decreases |sjs|
  {
    if sjs != [] {
      LinesLength(sjs[1..]);
    }
  }

  // ------------------------------------------------------------ the status path

  /** `get_status_info_path` (lines 227-238) for a given output prefix. */
  function StatusInfoPath(prefix: string, c: Collection.CollectionRef): string {
    Join([prefix, "complete", "status", c.metatranche, c.tranche], "/") + "/" + c.name + ".json.gz"
  }

  /** The report reads each collection's summary where the pipeline writes
      it: the status output of `generate_remote_path` in object-store mode,
      for the same prefix. */
  lemma StatusPathMatchesWriter(prefix: string, workflowDir: string, c: Collection.CollectionRef)
    ensures Collection.GenerateRemotePath("s3", prefix, workflowDir, c, "status", "json.gz")
            == Engines.Done(StatusInfoPath(prefix, c))
  {
  }

  /** The key line 229 reads, as spelled there. */
  const MisspelledPrefixKey := "object_store_job_ouput_data_prefix_full"

  /** The key `parse_config` of tools/vflp_prepare_folders.py:64 writes. */
  const PrefixKey := "object_store_job_output_data_prefix_full"

  /** The path as line 229 computes it from the configuration: a missing key
      raises `KeyError`, and a value that is not text cannot be joined. */
  function StatusInfoPathAsWritten(config: map<string, ControlFile.Value>, c: Collection.CollectionRef): (r: Result<string, string>)
    ensures MisspelledPrefixKey !in config ==> r == Err("KeyError")
  {
    if MisspelledPrefixKey !in config then Err("KeyError")
    else match config[MisspelledPrefixKey]
      case Str(p) => Ok(StatusInfoPath(p, c))
      case _ => Err("TypeError")
  }

  /** The path read with the key the configuration actually holds. */
  function StatusInfoPathFixed(config: map<string, ControlFile.Value>, c: Collection.CollectionRef): (r: Result<string, string>)
    ensures PrefixKey !in config ==> r == Err("KeyError")
  {
    if PrefixKey !in config then Err("KeyError")
    else match config[PrefixKey]
      case Str(p) => Ok(StatusInfoPath(p, c))
      case _ => Err("TypeError")
  }

  lemma MisspelledKeyPlain()
    ensures ControlFile.TrancheKey(MisspelledPrefixKey).None? && !ControlFile.SlotName(MisspelledPrefixKey)
    ensures MisspelledPrefixKey !in ControlFile.DerivedKeys() && MisspelledPrefixKey !in ControlFile.TimeoutKeys()
  {
    assert MisspelledPrefixKey[0] == 'o';
    assert !StartsWith(MisspelledPrefixKey, "tranche_") by {
      assert MisspelledPrefixKey[..8][0] == 'o';
    }
    assert MisspelledPrefixKey != PrefixKey by {
      assert MisspelledPrefixKey[19] != PrefixKey[19];
    }
  }

  /** The misspelling makes the path unreadable: for every control file that
      parses and does not itself set the misspelled key, the configuration
      lacks it and line 229 raises `KeyError`. */
  lemma MisspelledKeyMissing(lines: seq<string>, c: Collection.CollectionRef)
    requires ControlFile.ParseConfig(lines).Ok?
    requires forall i :: 0 <= i < |ControlFile.Settings(lines)| ==> ControlFile.Settings(lines)[i].key != MisspelledPrefixKey
    ensures StatusInfoPathAsWritten(ControlFile.ParseConfig(lines).value.values, c) == Err("KeyError")
  {
    var ss := ControlFile.Settings(lines);
    var raw := ControlFile.Record(ss).value.values;
    MisspelledKeyPlain();
    ControlFile.RecordSetting(ss, MisspelledPrefixKey);
    assert MisspelledPrefixKey !in raw;
    var d := ControlFile.Derive(raw);
    assert MisspelledPrefixKey !in d;
    ControlFile.TimeoutKeysApart();
    ControlFile.DefaultTimeoutsSpec(d, ControlFile.TimeoutKeys());
    assert MisspelledPrefixKey !in ControlFile.Finalize(raw);
  }

  /** With the key spelled as the configuration holds it, every control file
      that parses yields the path under `<output prefix>/<job name>`. */
  lemma FixedKeyFound(lines: seq<string>, c: Collection.CollectionRef)
    requires ControlFile.ParseConfig(lines).Ok?
    ensures var raw := ControlFile.Record(ControlFile.Settings(lines)).value.values;
      StatusInfoPathFixed(ControlFile.ParseConfig(lines).value.values, c)
        == Ok(StatusInfoPath(raw["object_store_job_output_data_prefix"].s + "/" + raw["job_name"].s, c))
  {
    var raw := ControlFile.Record(ControlFile.Settings(lines)).value.values;
    ControlFile.FinalizeSpec(raw);
    assert PrefixKey in ControlFile.DerivedKeys();
  }
}
