// `[...xs].sort((a, b) => key(a) - key(b))`: a stable sort of a copy by a
// numeric key, as the report, the summary and the dashboard use it.
module Sorting {

  ghost predicate SortedBy<T>(s: seq<T>, key: T -> real) {
    forall i, j :: 0 <= i < j < |s| ==> key(s[i]) <= key(s[j])
  }

  /** Inserts x after every element whose key is not greater than its own,
      so equal keys keep their arrival order. */
  function Insert<T>(x: T, s: seq<T>, key: T -> real): (r: seq<T>)
    requires SortedBy(s, key)
    ensures |r| == |s| + 1
    ensures multiset(r) == multiset(s) + multiset{x}
    ensures SortedBy(r, key)
  {
    if s == [] || key(s[|s| - 1]) <= key(x) then
      s + [x]
    else
      var init, last := s[..|s| - 1], s[|s| - 1];
      SortedSplit(s, init, last, key);
      var r0 := Insert(x, init, key);
      AppendLargest(x, init, last, r0, key);
      r0 + [last]
  }

  /** A sorted sequence is its sorted front followed by an element no
      smaller than any of it. */
  lemma SortedSplit<T>(s: seq<T>, init: seq<T>, last: T, key: T -> real)
    requires s != [] && SortedBy(s, key)
    requires init == s[..|s| - 1] && last == s[|s| - 1]
    ensures s == init + [last]
    ensures SortedBy(init, key)
    ensures forall i :: 0 <= i < |init| ==> key(init[i]) <= key(last)
  {
  }

  /** Appending an element no smaller than everything before keeps the order. */
  lemma AppendLargest<T>(x: T, init: seq<T>, last: T, r0: seq<T>, key: T -> real)
    requires key(x) < key(last)
    requires forall i :: 0 <= i < |init| ==> key(init[i]) <= key(last)
    requires multiset(r0) == multiset(init) + multiset{x} && SortedBy(r0, key)
    ensures SortedBy(r0 + [last], key)
  {
    forall k | 0 <= k < |r0| ensures key(r0[k]) <= key(last) {
      var y := r0[k];
      assert y in multiset(r0);
      if y != x {
        assert y in multiset(init);
        var i :| 0 <= i < |init| && init[i] == y;
      }
    }
  }

  /** Insertion sort: sorted by key, and a permutation of the input. */
  function SortBy<T>(s: seq<T>, key: T -> real): (r: seq<T>)
    ensures |r| == |s|
    ensures multiset(r) == multiset(s)
    ensures SortedBy(r, key)
  {
    if s == [] then []
    else
      assert s == s[..|s| - 1] + [s[|s| - 1]];
      Insert(s[|s| - 1], SortBy(s[..|s| - 1], key), key)
  }

  lemma SortByMembers<T>(s: seq<T>, key: T -> real, x: T)
    ensures x in SortBy(s, key) <==> x in s
  {
    assert x in SortBy(s, key) <==> x in multiset(SortBy(s, key));
  }

  /** Two ascending integer sequences with the same elements are equal: the
      result of sorting does not depend on the order of the input. */
  lemma {:induction false} SortedIntsUnique(a: seq<int>, b: seq<int>)
    requires forall i, j :: 0 <= i < j < |a| ==> a[i] <= a[j]
    requires forall i, j :: 0 <= i < j < |b| ==> b[i] <= b[j]
    requires multiset(a) == multiset(b)
    ensures a == b
  {
    if a != [] {
      assert |a| == |multiset(a)| == |b|;
      var x := a[|a| - 1];
      LastsAgree(a, b);
      RemoveLast(a, b, x);
      SortedIntsUnique(a[..|a| - 1], b[..|b| - 1]);
      assert a == a[..|a| - 1] + [x];
      assert b == b[..|b| - 1] + [x];
    }
  }

  /** Two ascending orders of one multiset end in the same element. */
  lemma LastsAgree(a: seq<int>, b: seq<int>)
    requires a != [] && b != []
    requires forall i, j :: 0 <= i < j < |a| ==> a[i] <= a[j]
    requires forall i, j :: 0 <= i < j < |b| ==> b[i] <= b[j]
    requires multiset(a) == multiset(b)
    ensures a[|a| - 1] == b[|b| - 1]
  {
    var x, y := a[|a| - 1], b[|b| - 1];
    assert y in multiset(a);
    assert x in multiset(b);
    var i :| 0 <= i < |a| && a[i] == y;
    var j :| 0 <= j < |b| && b[j] == x;
  }

  /** Dropping the same last element leaves equal multisets. */
  lemma RemoveLast(a: seq<int>, b: seq<int>, x: int)
    requires a != [] && b != [] && a[|a| - 1] == x && b[|b| - 1] == x
    requires multiset(a) == multiset(b)
    ensures multiset(a[..|a| - 1]) == multiset(b[..|b| - 1])
  {
    assert a == a[..|a| - 1] + [x];
    assert b == b[..|b| - 1] + [x];
    var ma, mb := multiset(a[..|a| - 1]), multiset(b[..|b| - 1]);
    assert multiset(a) == ma + multiset{x};
    assert multiset(b) == mb + multiset{x};
    forall z ensures ma[z] == mb[z] {
      assert (ma + multiset{x})[z] == (mb + multiset{x})[z];
    }
  }

  function IntKey(x: int): real { x as real }

  /** Integers in ascending order. */
  function SortInts(s: seq<int>): (r: seq<int>)
    ensures |r| == |s| && multiset(r) == multiset(s)
    ensures forall i, j :: 0 <= i < j < |r| ==> r[i] <= r[j]
  {
    var r := SortBy(s, IntKey);
    assert SortedBy(r, IntKey);
    r
  }

  /** Sorting integers forgets the input order. */
  lemma SortIntsOrderFree(a: seq<int>, b: seq<int>)
    requires multiset(a) == multiset(b)
    ensures SortInts(a) == SortInts(b)
  {
    SortedIntsUnique(SortInts(a), SortInts(b));
  }

  /** Sorting input that is already in key order changes nothing. */
  lemma {:induction false} SortByAlreadySorted<T>(s: seq<T>, key: T -> real)
    requires SortedBy(s, key)
    ensures SortBy(s, key) == s
  {
    if s != [] {
      var init, x := s[..|s| - 1], s[|s| - 1];
      SortedSplit(s, init, x, key);
      SortByAlreadySorted(init, key);
      assert SortBy(s, key) == Insert(x, SortBy(init, key), key);
      assert init == [] || key(init[|init| - 1]) <= key(x);
    }
  }
}
