/** A stable sort by an integer key, the behaviour of Python's `sorted(xs,
    key=...)`. Python's `reverse=True` is also stable (equal keys keep their
    input order), so a descending sort is the ascending sort of the negated
    key.

    The specification is two-sided: the output is ordered by key, and for
    every key value the elements carrying it form the same subsequence before
    and after. The second fact makes the output a permutation of the input
    and, together with the first, determines it uniquely.
 */
module Sorting {

  predicate SortedBy<T>(xs: seq<T>, key: T -> int) {
    forall i, j :: 0 <= i < j < |xs| ==> key(xs[i]) <= key(xs[j])
  }

  /** The elements whose key is `k`, in their order of appearance. */
  function WithKey<T>(xs: seq<T>, key: T -> int, k: int): seq<T>
    decreases |xs|
  {
    if xs == [] then []
    else (if key(xs[0]) == k then [xs[0]] else []) + WithKey(xs[1..], key, k)
  }

  lemma {:induction false} WithKeyAppend<T>(a: seq<T>, b: seq<T>, key: T -> int, k: int)
    ensures WithKey(a + b, key, k) == WithKey(a, key, k) + WithKey(b, key, k)
    decreases |a|
  {
    if a != [] {
      assert (a + b)[1..] == a[1..] + b;
      WithKeyAppend(a[1..], b, key, k);
    } else {
      assert a + b == b;
    }
  }

  lemma {:induction false} WithKeyNone<T>(xs: seq<T>, key: T -> int, k: int)
    requires forall i :: 0 <= i < |xs| ==> key(xs[i]) != k
    ensures WithKey(xs, key, k) == []
    decreases |xs|
  {
    if xs != [] {
      WithKeyNone(xs[1..], key, k);
    }
  }

  /** Every element of the input appears in exactly one key class, so
      collecting all classes accounts for the whole multiset. */
  lemma {:induction false} WithKeyMember<T>(xs: seq<T>, key: T -> int, x: T)
    ensures multiset(WithKey(xs, key, key(x)))[x] == multiset(xs)[x]
    decreases |xs|
  {
    if xs != [] {
      WithKeyMember(xs[1..], key, x);
      assert xs == [xs[0]] + xs[1..];
    }
  }

  /** Place `e` after every element whose key is at most its own. */
  function Insert<T>(s: seq<T>, e: T, key: T -> int): (r: seq<T>)
    ensures multiset(r) == multiset(s) + multiset{e}
    decreases |s|
  {
    if s == [] then [e]
    else if key(s[0]) <= key(e) then
      assert s == [s[0]] + s[1..];
      [s[0]] + Insert(s[1..], e, key)
    else [e] + s
  }

  lemma {:induction false} InsertSorted<T>(s: seq<T>, e: T, key: T -> int)
    requires SortedBy(s, key)
    ensures SortedBy(Insert(s, e, key), key)
    ensures forall k :: WithKey(Insert(s, e, key), key, k) == WithKey(s, key, k) + WithKey([e], key, k)
    decreases |s|
  {
    if s != [] {
      if key(s[0]) <= key(e) {
        InsertSorted(s[1..], e, key);
        InsertBehind(s, e, key);
      } else {
        InsertInFront(s, e, key);
      }
    }
  }

  lemma InsertBehind<T>(s: seq<T>, e: T, key: T -> int)
    requires SortedBy(s, key) && s != [] && key(s[0]) <= key(e)
    requires SortedBy(Insert(s[1..], e, key), key)
    requires forall k :: WithKey(Insert(s[1..], e, key), key, k) == WithKey(s[1..], key, k) + WithKey([e], key, k)
    ensures SortedBy(Insert(s, e, key), key)
    ensures forall k :: WithKey(Insert(s, e, key), key, k) == WithKey(s, key, k) + WithKey([e], key, k)
  {
    var tail := Insert(s[1..], e, key);
    assert Insert(s, e, key) == [s[0]] + tail;
    BoundedBelow(s, e, tail, key);
    SortedCons(s[0], tail, key);
    WithKeyBehind(s[0], s[1..], tail, e, key);
    assert [s[0]] + s[1..] == s;
  }

  lemma WithKeyBehind<T>(x: T, rest: seq<T>, tail: seq<T>, e: T, key: T -> int)
    requires forall k :: WithKey(tail, key, k) == WithKey(rest, key, k) + WithKey([e], key, k)
    ensures forall k :: WithKey([x] + tail, key, k) == WithKey([x] + rest, key, k) + WithKey([e], key, k)
  {
    forall k ensures WithKey([x] + tail, key, k) == WithKey([x] + rest, key, k) + WithKey([e], key, k) {
      WithKeyBehindAt(x, rest, tail, e, key, k);
    }
  }

  lemma WithKeyBehindAt<T>(x: T, rest: seq<T>, tail: seq<T>, e: T, key: T -> int, k: int)
    requires WithKey(tail, key, k) == WithKey(rest, key, k) + WithKey([e], key, k)
    ensures WithKey([x] + tail, key, k) == WithKey([x] + rest, key, k) + WithKey([e], key, k)
  {
    var h := if key(x) == k then [x] else [];
    WithKeyCons(x, tail, key, k);
    WithKeyCons(x, rest, key, k);
    assert h + (WithKey(rest, key, k) + WithKey([e], key, k)) == (h + WithKey(rest, key, k)) + WithKey([e], key, k);
  }

  lemma WithKeyCons<T>(x: T, rest: seq<T>, key: T -> int, k: int)
    ensures WithKey([x] + rest, key, k) == (if key(x) == k then [x] else []) + WithKey(rest, key, k)
  {
    assert ([x] + rest)[0] == x;
    assert ([x] + rest)[1..] == rest;
  }

  lemma BoundedBelow<T>(s: seq<T>, e: T, tail: seq<T>, key: T -> int)
    requires SortedBy(s, key) && s != [] && key(s[0]) <= key(e)
    requires multiset(tail) == multiset(s[1..]) + multiset{e}
    ensures forall x :: x in tail ==> key(s[0]) <= key(x)
  {
    forall x | x in tail ensures key(s[0]) <= key(x) {
      assert x in multiset(tail);
      if x != e {
        assert x in multiset(s[1..]);
        var i :| 0 <= i < |s[1..]| && s[1..][i] == x;
        assert s[i + 1] == x;
      }
    }
  }

  lemma SortedCons<T>(x: T, tail: seq<T>, key: T -> int)
    requires SortedBy(tail, key)
    requires forall y :: y in tail ==> key(x) <= key(y)
    ensures SortedBy([x] + tail, key)
  {
    var r := [x] + tail;
    forall i, j | 0 <= i < j < |r| ensures key(r[i]) <= key(r[j]) {
      assert r[j] == tail[j - 1];
      if i > 0 {
        assert r[i] == tail[i - 1];
      }
    }
  }

  lemma InsertInFront<T>(s: seq<T>, e: T, key: T -> int)
    requires SortedBy(s, key) && s != [] && key(e) < key(s[0])
    ensures SortedBy(Insert(s, e, key), key)
    ensures forall k :: WithKey(Insert(s, e, key), key, k) == WithKey(s, key, k) + WithKey([e], key, k)
  {
    assert Insert(s, e, key) == [e] + s;
    forall k ensures WithKey([e] + s, key, k) == WithKey(s, key, k) + WithKey([e], key, k) {
      WithKeyAppend([e], s, key, k);
      if key(e) == k {
        WithKeyNone(s, key, k);
      }
    }
  }

  /** Stable insertion sort by `key`, smallest key first. */
  function SortBy<T>(xs: seq<T>, key: T -> int): (r: seq<T>)
    ensures multiset(r) == multiset(xs)
    decreases |xs|
  {
    if xs == [] then []
    else
      assert xs == xs[..|xs| - 1] + [xs[|xs| - 1]];
      Insert(SortBy(xs[..|xs| - 1], key), xs[|xs| - 1], key)
  }

  /** The sort orders by key and keeps every key class in input order. */
  lemma {:induction false} SortBySpec<T>(xs: seq<T>, key: T -> int)
    ensures SortedBy(SortBy(xs, key), key)
    ensures forall k :: WithKey(SortBy(xs, key), key, k) == WithKey(xs, key, k)
    decreases |xs|
  {
    if xs != [] {
      var pre := xs[..|xs| - 1];
      var e := xs[|xs| - 1];
      SortBySpec(pre, key);
      InsertSorted(SortBy(pre, key), e, key);
      assert xs == pre + [e];
      forall k ensures WithKey(xs, key, k) == WithKey(pre, key, k) + WithKey([e], key, k) {
        WithKeyAppend(pre, [e], key, k);
      }
    }
  }

  /** The specification pins the output down: any sequence ordered by key
      whose key classes agree with the input's is the sort's output. */
  lemma {:induction false} SortByUnique<T>(xs: seq<T>, ys: seq<T>, key: T -> int)
    requires SortedBy(xs, key) && SortedBy(ys, key)
    requires forall k :: WithKey(xs, key, k) == WithKey(ys, key, k)
    ensures xs == ys
    decreases |xs| + |ys|
  {
    NonEmptyTogether(xs, ys, key);
    if xs != [] {
      LeadsAgree(xs, ys, key);
      SameTailClasses(xs, ys, key);
      SortedTail(xs, key);
      SortedTail(ys, key);
      SortByUnique(xs[1..], ys[1..], key);
      assert xs == [xs[0]] + xs[1..];
      assert ys == [ys[0]] + ys[1..];
    }
  }

  /** A non-empty key class names an element holding that key. */
  lemma {:induction false} WithKeyWitness<T>(xs: seq<T>, key: T -> int, k: int)
    requires WithKey(xs, key, k) != []
    ensures exists i :: 0 <= i < |xs| && key(xs[i]) == k
    decreases |xs|
  {
    if key(xs[0]) != k {
      WithKeyWitness(xs[1..], key, k);
      var i :| 0 <= i < |xs[1..]| && key(xs[1..][i]) == k;
      assert xs[i + 1] == xs[1..][i];
    }
  }

  /** Sequences with the same key classes are empty together. */
  lemma NonEmptyTogether<T>(xs: seq<T>, ys: seq<T>, key: T -> int)
    requires forall k :: WithKey(xs, key, k) == WithKey(ys, key, k)
    ensures xs == [] <==> ys == []
  {
    if xs != [] {
      assert WithKey(ys, key, key(xs[0])) == WithKey(xs, key, key(xs[0])) != [];
      WithKeyWitness(ys, key, key(xs[0]));
    }
    if ys != [] {
      assert WithKey(xs, key, key(ys[0])) == WithKey(ys, key, key(ys[0])) != [];
      WithKeyWitness(xs, key, key(ys[0]));
    }
  }

  /** Sorted sequences with the same key classes start with the same element:
      each head's key is the smallest, and it leads its class. */
  lemma LeadsAgree<T>(xs: seq<T>, ys: seq<T>, key: T -> int)
    requires SortedBy(xs, key) && SortedBy(ys, key) && xs != [] && ys != []
    requires forall k :: WithKey(xs, key, k) == WithKey(ys, key, k)
    ensures xs[0] == ys[0]
  {
    var kx := key(xs[0]);
    var ky := key(ys[0]);
    LeadClass(xs, key);
    LeadClass(ys, key);
    assert WithKey(ys, key, kx) == WithKey(xs, key, kx);
    WithKeyWitness(ys, key, kx);
    assert WithKey(xs, key, ky) == WithKey(ys, key, ky);
    WithKeyWitness(xs, key, ky);
    assert kx == ky;
  }

  lemma SameTailClasses<T>(xs: seq<T>, ys: seq<T>, key: T -> int)
    requires xs != [] && ys != [] && xs[0] == ys[0]
    requires forall k :: WithKey(xs, key, k) == WithKey(ys, key, k)
    ensures forall k :: WithKey(xs[1..], key, k) == WithKey(ys[1..], key, k)
  {
    forall k ensures WithKey(xs[1..], key, k) == WithKey(ys[1..], key, k) {
      var a := WithKey(xs[1..], key, k);
      var b := WithKey(ys[1..], key, k);
      if key(xs[0]) == k {
        assert WithKey(xs, key, k) == [xs[0]] + a;
        assert WithKey(ys, key, k) == [ys[0]] + b;
        assert a == ([xs[0]] + a)[1..];
        assert b == ([ys[0]] + b)[1..];
      } else {
        assert WithKey(xs, key, k) == a;
        assert WithKey(ys, key, k) == b;
      }
    }
  }

  /** In a sorted sequence nothing precedes the head's key, so the head
      leads its key class. */
  lemma LeadClass<T>(xs: seq<T>, key: T -> int)
    requires SortedBy(xs, key) && xs != []
    ensures WithKey(xs, key, key(xs[0])) != [] && WithKey(xs, key, key(xs[0]))[0] == xs[0]
    ensures forall i :: 0 <= i < |xs| ==> key(xs[0]) <= key(xs[i])
  {
  }

  lemma SortedTail<T>(xs: seq<T>, key: T -> int)
    requires SortedBy(xs, key) && xs != []
    ensures SortedBy(xs[1..], key)
  {
    forall i, j | 0 <= i < j < |xs| - 1 ensures key(xs[1..][i]) <= key(xs[1..][j]) {
      assert xs[1..][i] == xs[i + 1];
      assert xs[1..][j] == xs[j + 1];
    }
  }
}
