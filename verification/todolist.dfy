/** The todo-list block of `tools/vflp_prepare_folders.py` (`main`, lines
    248-258): read `key count` lines, keep those whose count is a decimal
    numeral, let a repeated key keep its last count at its first position,
    and write the keys sorted by count, largest first, ties in that order. */
module TodoList {

  import opened Base
  import opened PyStr
  import opened Sorting
  import Partitioner

  /** One dictionary item `collection_values[key] = count`. */
  datatype Entry = Entry(key: string, count: nat)

  // ------------------------------------------------------------------ reading

  /** `line.strip().split(maxsplit=1)` unpacks into two names; a line with
      fewer than two fields raises `ValueError` and ends the program. */
  predicate Readable(line: string) {
    |SplitOnce(Strip(line))| == 2
  }

  predicate AllReadable(lines: seq<string>) {
    forall i :: 0 <= i < |lines| ==> Readable(lines[i])
  }

  /** A collection key as `split` leaves it: non-empty and free of whitespace. */
  predicate IsToken(k: string) {
    |k| > 0 && NoSpace(k)
  }

  /** The collection key: the first whitespace-separated field. */
  function KeyOf(line: string): (k: string)
    requires Readable(line)
    ensures IsToken(k)
    ensures k == Split(Strip(line))[0]
  {
    SplitOnce(Strip(line))[0]
  }

  /** The count text: everything after the first field, with surrounding whitespace gone. */
  function CountText(line: string): string
    requires Readable(line)
  {
    SplitOnce(Strip(line))[1]
  }

  /** `re.search(r'^\d+$', ligand_count)`: the count is kept, converted by `int()`. */
  predicate Accepted(line: string)
    requires Readable(line)
  {
    IsDigits(CountText(line))
  }

  /** The message printed for a line whose count is not a decimal numeral. */
  function RejectMessage(line: string): string
    requires Readable(line)
  {
    KeyOf(line) + " had non positive int count of '" + CountText(line) + "'"
  }

  /** The dictionary item of a line, or `None` for a rejected line. */
  function LineEntry(line: string): (r: Option<Entry>)
    requires Readable(line)
    ensures r.Some? <==> Accepted(line)
    ensures r.Some? ==> r.value.key == KeyOf(line) && r.value.count == ParseNat(CountText(line))
  {
    if Accepted(line) then Some(Entry(KeyOf(line), ParseNat(CountText(line)))) else None
  }

  /** Each line's outcome, in file order. */
  function Parsed(lines: seq<string>): (ps: seq<Option<Entry>>)
    requires AllReadable(lines)
    ensures |ps| == |lines| && forall i :: 0 <= i < |lines| ==> ps[i] == LineEntry(lines[i])
  {
    seq(|lines|, i requires 0 <= i < |lines| && Readable(lines[i]) => LineEntry(lines[i]))
  }

  /** The present values, in order. */
  function Somes<T>(os: seq<Option<T>>): seq<T>
    decreases |os|
  {
    if os == [] then []
    else
      var pre := Somes(os[..|os| - 1]);
      match os[|os| - 1]
      case Some(x) => pre + [x]
      case None => pre
  }

  /** The positions holding `None`. */
  function NoneAt<T>(os: seq<Option<T>>): seq<nat>
    decreases |os|
  {
    if os == [] then []
    else
      var pre := NoneAt(os[..|os| - 1]);
      if os[|os| - 1].None? then pre + [|os| - 1] else pre
  }

  /** `Somes` keeps exactly the present values. */
  lemma {:induction false} SomesSpec<T>(os: seq<Option<T>>)
    ensures forall x :: x in Somes(os) ==> Some(x) in os
    ensures forall i :: 0 <= i < |os| && os[i].Some? ==> os[i].value in Somes(os)
    ensures |Somes(os)| + |NoneAt(os)| == |os|
    decreases |os|
  {
    if os != [] {
      var pre := os[..|os| - 1];
      SomesSpec(pre);
      assert forall i :: 0 <= i < |pre| ==> pre[i] == os[i];
    }
  }

  /** The accepted lines as entries, in file order. */
  function Valid(lines: seq<string>): seq<Entry>
    requires AllReadable(lines)
  {
    Somes(Parsed(lines))
  }

  /** The messages printed for the rejected lines, in file order. */
  function Rejections(lines: seq<string>): (ms: seq<string>)
    requires AllReadable(lines)
  {
    var at := NoneAt(Parsed(lines));
    NoneAtBounded(Parsed(lines));
    seq(|at|, k requires 0 <= k < |at| => RejectMessage(lines[at[k]]))
  }

  lemma {:induction false} NoneAtBounded<T>(os: seq<Option<T>>)
    ensures forall k :: 0 <= k < |NoneAt(os)| ==> NoneAt(os)[k] < |os| && os[NoneAt(os)[k]].None?
    decreases |os|
  {
    if os != [] {
      var pre := os[..|os| - 1];
      NoneAtBounded(pre);
      assert forall i :: 0 <= i < |pre| ==> pre[i] == os[i];
    }
  }

  /** Every kept entry is a line's first field with its converted count, every
      accepted line is kept, and every other line is reported. */
  lemma ValidEntries(lines: seq<string>)
    requires AllReadable(lines)
    ensures forall e :: e in Valid(lines) ==> IsToken(e.key) && exists i :: 0 <= i < |lines| && LineEntry(lines[i]) == Some(e)
    ensures forall i :: 0 <= i < |lines| && Accepted(lines[i]) ==> LineEntry(lines[i]).value in Valid(lines)
    ensures |Valid(lines)| + |Rejections(lines)| == |lines|
  {
    var ps := Parsed(lines);
    SomesSpec(ps);
    forall e | e in Valid(lines)
      ensures IsToken(e.key) && exists i :: 0 <= i < |lines| && LineEntry(lines[i]) == Some(e)
    {
      KeptFrom(lines, ps, e);
    }
  }

  /** A kept entry comes from some line. */
  lemma KeptFrom(lines: seq<string>, ps: seq<Option<Entry>>, e: Entry)
    requires AllReadable(lines) && ps == Parsed(lines) && Some(e) in ps
    ensures IsToken(e.key) && exists i :: 0 <= i < |lines| && LineEntry(lines[i]) == Some(e)
  {
    var i :| 0 <= i < |ps| && ps[i] == Some(e);
    assert LineEntry(lines[i]) == Some(e);
  }

  // ------------------------------------------------------------------ the dictionary

  function Keys(es: seq<Entry>): (ks: seq<string>)
    ensures |ks| == |es| && forall i :: 0 <= i < |es| ==> ks[i] == es[i].key
  {
    seq(|es|, i requires 0 <= i < |es| => es[i].key)
  }

  predicate DistinctKeys(es: seq<Entry>) {
    forall i, j :: 0 <= i < j < |es| ==> es[i].key != es[j].key
  }

  /** `d[key] = count` on an insertion-ordered dictionary. */
  function Upsert(es: seq<Entry>, e: Entry): (r: seq<Entry>)
    requires DistinctKeys(es)
    ensures DistinctKeys(r)
    ensures e.key in Keys(es) ==> |r| == |es|
    ensures e.key !in Keys(es) ==> r == es + [e]
    ensures forall i :: 0 <= i < |es| ==> r[i] == (if es[i].key == e.key then e else es[i])
  {
    if e.key in Keys(es) then
      seq(|es|, i requires 0 <= i < |es| => if es[i].key == e.key then e else es[i])
    else es + [e]
  }

  /** The dictionary after reading entries `vs` in order. */
  function Dict(vs: seq<Entry>): (r: seq<Entry>)
    ensures DistinctKeys(r)
    decreases |vs|
  {
    if vs == [] then [] else Upsert(Dict(vs[..|vs| - 1]), vs[|vs| - 1])
  }

  /** The collection values of the file. */
  function Collect(lines: seq<string>): (r: seq<Entry>)
    requires AllReadable(lines)
    ensures DistinctKeys(r)
  {
    Dict(Valid(lines))
  }

  // Reference definitions for the dictionary's contents and order.

  /** The count of the last entry for `k`. */
  function LastCount(vs: seq<Entry>, k: string): nat
    requires k in Keys(vs)
    decreases |vs|
  {
    if vs[|vs| - 1].key == k then vs[|vs| - 1].count
    else
      assert k in Keys(vs[..|vs| - 1]) by {
        var i :| 0 <= i < |vs| && Keys(vs)[i] == k;
        assert i < |vs| - 1 && Keys(vs[..|vs| - 1])[i] == k;
      }
      LastCount(vs[..|vs| - 1], k)
  }

  /** The position of the first entry for `k`. */
  function FirstAt(vs: seq<Entry>, k: string): (n: nat)
    requires k in Keys(vs)
    ensures n < |vs| && vs[n].key == k
    decreases |vs|
  {
    var pre := vs[..|vs| - 1];
    if k in Keys(pre) then
      var n := FirstAt(pre, k);
      assert vs[n] == pre[n];
      n
    else |vs| - 1
  }

  lemma KeysSnoc(vs: seq<Entry>, e: Entry)
    ensures Keys(vs + [e]) == Keys(vs) + [e.key]
    ensures (vs + [e])[..|vs|] == vs
  {
  }

  /** The dictionary holds exactly the keys read, each once. */
  lemma {:induction false} DictKeys(vs: seq<Entry>)
    ensures forall k :: k in Keys(Dict(vs)) <==> k in Keys(vs)
    decreases |vs|
  {
    if vs != [] {
      var pre := vs[..|vs| - 1];
      var e := vs[|vs| - 1];
      DictKeys(pre);
      KeysSnoc(pre, e);
      assert vs == pre + [e];
      DictKeysStep(Dict(pre), e);
    }
  }

  lemma DictKeysStep(d: seq<Entry>, e: Entry)
    requires DistinctKeys(d)
    ensures forall k :: k in Keys(Upsert(d, e)) <==> k in Keys(d) || k == e.key
  {
    var r := Upsert(d, e);
    if e.key in Keys(d) {
      forall k | k in Keys(r) ensures k in Keys(d) || k == e.key {
        var i :| 0 <= i < |r| && Keys(r)[i] == k;
        assert Keys(d)[i] == d[i].key;
      }
      forall k | k in Keys(d) ensures k in Keys(r) {
        var i :| 0 <= i < |d| && Keys(d)[i] == k;
        assert Keys(r)[i] == r[i].key;
      }
    } else {
      KeysSnoc(d, e);
    }
  }

  /** A repeated key keeps the count of its last accepted line. */
  lemma {:induction false} DictLastWins(vs: seq<Entry>)
    ensures forall i :: 0 <= i < |Dict(vs)| ==>
              Dict(vs)[i].key in Keys(vs) && Dict(vs)[i].count == LastCount(vs, Dict(vs)[i].key)
    decreases |vs|
  {
    if vs != [] {
      var pre := vs[..|vs| - 1];
      var e := vs[|vs| - 1];
      DictLastWins(pre);
      DictKeys(vs);
      DictKeys(pre);
      KeysSnoc(pre, e);
      assert vs == pre + [e];
      var d := Dict(pre);
      var r := Dict(vs);
      assert r == Upsert(d, e);
      forall i | 0 <= i < |r|
        ensures r[i].key in Keys(vs) && r[i].count == LastCount(vs, r[i].key)
      {
        assert Keys(r)[i] == r[i].key;
        if i < |d| && d[i].key != e.key {
          assert r[i] == d[i];
          assert Keys(d)[i] == d[i].key;
        }
      }
    }
  }

  /** The keys of `d` appear in the order of their first entry in `vs`. */
  predicate OrderedByFirst(d: seq<Entry>, vs: seq<Entry>) {
    forall i, j :: 0 <= i < j < |d| ==>
      d[i].key in Keys(vs) && d[j].key in Keys(vs) && FirstAt(vs, d[i].key) < FirstAt(vs, d[j].key)
  }

  /** Keys stay in the order of their first accepted line. */
  lemma {:induction false} DictFirstOrder(vs: seq<Entry>)
    ensures OrderedByFirst(Dict(vs), vs)
    decreases |vs|
  {
    if vs != [] {
      var pre := vs[..|vs| - 1];
      DictFirstOrder(pre);
      DictKeys(pre);
      DictOrderStep(pre, vs[|vs| - 1]);
      assert vs == pre + [vs[|vs| - 1]];
    }
  }

  lemma DictOrderStep(pre: seq<Entry>, e: Entry)
    requires forall k :: k in Keys(Dict(pre)) <==> k in Keys(pre)
    requires OrderedByFirst(Dict(pre), pre)
    ensures OrderedByFirst(Dict(pre + [e]), pre + [e])
  {
    var vs := pre + [e];
    KeysSnoc(pre, e);
    assert vs[..|vs| - 1] == pre;
    var d := Dict(pre);
    var r := Dict(vs);
    assert r == Upsert(d, e);
    forall i, j | 0 <= i < j < |r|
      ensures r[i].key in Keys(vs) && r[j].key in Keys(vs) && FirstAt(vs, r[i].key) < FirstAt(vs, r[j].key)
    {
      assert r[i].key == d[i].key;
      assert Keys(d)[i] == d[i].key;
      if j < |d| {
        assert r[j].key == d[j].key;
        assert Keys(d)[j] == d[j].key;
      } else {
        assert r[j] == e && e.key !in Keys(pre);
      }
    }
  }

  // ------------------------------------------------------------------ sorting

  predicate Descending(es: seq<Entry>) {
    forall i, j :: 0 <= i < j < |es| ==> es[i].count >= es[j].count
  }

  /** The sort key: Python's `reverse=True` sort is stable, so sorting by count
      in reverse is the stable ascending sort on the negated count. */
  function ByCount(e: Entry): int {
    -(e.count as int)
  }

  /** `sorted(..., key=count, reverse=True)`. */
  function SortDesc(es: seq<Entry>): (r: seq<Entry>)
    ensures multiset(r) == multiset(es)
  {
    SortBy(es, ByCount)
  }

  /** The sort puts larger counts first and keeps the entries of each count in
      their input order, which pins the output down. */
  lemma SortDescSpec(es: seq<Entry>)
    ensures Descending(SortDesc(es))
    ensures forall c: int :: WithKey(SortDesc(es), ByCount, c) == WithKey(es, ByCount, c)
  {
    SortBySpec(es, ByCount);
    var r := SortDesc(es);
    forall i, j | 0 <= i < j < |r| ensures r[i].count >= r[j].count {
      assert ByCount(r[i]) <= ByCount(r[j]);
    }
  }

  // ------------------------------------------------------------------ writing

  /** One line of `../workflow/todo.all`. */
  function RenderLine(e: Entry): string {
    e.key + " " + NatToString(e.count) + "\n"
  }

  function Render(es: seq<Entry>): string
    decreases |es|
  {
    if es == [] then "" else RenderLine(es[0]) + Render(es[1..])
  }

  /** The file the block writes. */
  function TodoFile(lines: seq<string>): string
    requires AllReadable(lines)
  {
    Render(SortDesc(Collect(lines)))
  }

  /** The first position from `i` on holding `false`, or `|bs|`. */
  function FirstFalse(bs: seq<bool>, i: nat): (n: nat)
    requires i <= |bs|
    ensures i <= n <= |bs|
    ensures forall j :: i <= j < n ==> bs[j]
    ensures n < |bs| ==> !bs[n]
    decreases |bs| - i
  {
    if i == |bs| || !bs[i] then i else FirstFalse(bs, i + 1)
  }

  /** The whole block: the first line with fewer than two fields (a blank one
      included) raises `ValueError` before anything is written, and that
      line's position is the error; otherwise the file is written. */
  function TodoRun(lines: seq<string>): (r: Result<string, nat>)
    ensures r.Err? <==> !AllReadable(lines)
    ensures r.Err? ==> r.error < |lines| && !Readable(lines[r.error]) && AllReadable(lines[..r.error])
    ensures r.Ok? ==> AllReadable(lines) && r.value == TodoFile(lines)
  {
    var ok := seq(|lines|, j requires 0 <= j < |lines| => Readable(lines[j]));
    var n := FirstFalse(ok, 0);
    if n < |lines| then
      assert !Readable(lines[n]);
      assert AllReadable(lines[..n]) by {
        forall j | 0 <= j < n ensures Readable(lines[..n][j]) {
          assert ok[j];
        }
      }
      Err(n)
    else
      assert AllReadable(lines) by {
        forall j | 0 <= j < |lines| ensures Readable(lines[j]) {
          assert ok[j];
        }
      }
      Ok(TodoFile(lines))
  }

  /** A written line reads back, by whitespace splitting, as its key and its count. */
  lemma RenderLineFields(e: Entry)
    requires |e.key| > 0 && NoSpace(e.key)
    ensures Split(RenderLine(e)) == [e.key, NatToString(e.count)]
    ensures ParseNat(NatToString(e.count)) == e.count
  {
    var n := NatToString(e.count);
    DigitsNoSpace(n);
    SplitTwoFields(e.key, n);
    ParseNatToString(e.count);
  }

  lemma DigitsNoSpace(s: string)
    requires IsDigits(s)
    ensures |s| > 0 && NoSpace(s)
  {
    assert forall i :: 0 <= i < |s| ==> IsDigit(s[i]);
  }

  lemma SplitTwoFields(a: string, b: string)
    requires |a| > 0 && NoSpace(a) && |b| > 0 && NoSpace(b)
    ensures Split(a + " " + b + "\n") == [a, b]
  {
    assert a + " " + b + "\n" == a + [' '] + (b + ['\n'] + []);
    SplitCons(a, ' ', b + ['\n'] + []);
    SplitCons(b, '\n', []);
  }

  /** The workunit preparation reads each written line back as the same
      collection and count (when the key has the three "_"-separated parts it expects). */
  lemma RenderLineRoundTrip(e: Entry)
    requires |e.key| > 0 && NoSpace(e.key)
    requires |SplitSep(e.key, '_')| == 3
    ensures Partitioner.ValidTodoLine(RenderLine(e))
    ensures Partitioner.ParseTodoLine(RenderLine(e)).key == e.key
    ensures Partitioner.ParseTodoLine(RenderLine(e)).count == e.count
  {
    RenderLineFields(e);
    DigitsParseInt(NatToString(e.count));
  }
}
