// Arithmetic shared by the statistics: JavaScript rounding, sums, means,
// counting and filtering over sequences.
module Numeric {

  function Abs(x: int): (r: nat)
    ensures r == x || r == -x
  {
    if x < 0 then -x else x
  }

  function Min(a: int, b: int): (r: int)
    ensures r <= a && r <= b && (r == a || r == b)
  {
    if a <= b then a else b
  }

  function Max(a: int, b: int): (r: int)
    ensures r >= a && r >= b && (r == a || r == b)
  {
    if a >= b then a else b
  }

  function MaxReal(a: real, b: real): (r: real)
    ensures r >= a && r >= b && (r == a || r == b)
  {
    if a >= b then a else b
  }

  function AbsReal(x: real): (r: real)
    ensures r >= 0.0 && (r == x || r == -x)
  {
    if x < 0.0 then -x else x
  }

  /** `Math.round(x)`: the nearest integer, halves rounded up. */
  function RoundHalfUp(x: real): (r: int)
    ensures x - 0.5 < r as real <= x + 0.5
  {
    (x + 0.5).Floor
  }

  lemma RoundHalfUpOfInt(n: int)
    ensures RoundHalfUp(n as real) == n
  {
  }

  lemma RoundHalfUpMonotone(x: real, y: real)
    requires x <= y
    ensures RoundHalfUp(x) <= RoundHalfUp(y)
  {
  }

  /** `Math.round` of a value in [lo, hi] lies in [lo, hi] when the bounds are integers. */
  lemma RoundHalfUpWithin(x: real, lo: int, hi: int)
    requires lo as real <= x <= hi as real
    ensures lo <= RoundHalfUp(x) <= hi
  {
  }

  /** `Number(x.toFixed(d))` with `scale` = 10^d: the nearest multiple of
      1/scale, halves rounded away from zero. */
  function ToFixed(x: real, scale: nat): (r: real)
    requires scale > 0
    ensures AbsReal(r - x) <= 0.5 / scale as real
    ensures x >= 0.0 ==> r >= 0.0
  {
    if x >= 0.0 then RoundToStep(x, scale) else -RoundToStep(-x, scale)
  }

  /** `Math.round(x * scale) / scale` for a non-negative x: the nearest
      multiple of 1/scale, at most half a step away. */
  function RoundToStep(x: real, scale: nat): (q: real)
    requires x >= 0.0 && scale > 0
    ensures q >= 0.0 && -0.5 / scale as real <= q - x <= 0.5 / scale as real
  {
    ScaledRoundClose(x, scale);
    RoundHalfUp(x * scale as real) as real / scale as real
  }

  lemma ScaledRoundClose(x: real, scale: nat)
    requires x >= 0.0 && scale > 0
    ensures RoundHalfUp(x * scale as real) as real / scale as real >= 0.0
    ensures -0.5 / scale as real <= RoundHalfUp(x * scale as real) as real / scale as real - x <= 0.5 / scale as real
  {
    MulMonotone(0.0, x, scale as real);
    StepBounds(x, scale as real, x * scale as real, RoundHalfUp(x * scale as real) as real);
  }

  /** A numerator within half of x * S puts the quotient by S within half
      a step 0.5 / S of x. */
  lemma StepBounds(x: real, S: real, y: real, r: real)
    requires S > 0.0 && y == x * S && r >= 0.0 && -0.5 <= r - y <= 0.5
    ensures r / S >= 0.0 && -0.5 / S <= r / S - x <= 0.5 / S
  {
    var q := r / S;
    var h := 0.5 / S;
    assert q * S == r && h * S == 0.5;
    assert (q - x - h) * S == q * S - x * S - h * S;
    assert (q - x + h) * S == q * S - x * S + h * S;
    SignOfFactor(q, S);
    SignOfFactor(q - x - h, S);
    SignOfFactor(q - x + h, S);
  }

  lemma MulMonotone(a: real, b: real, S: real)
    requires a <= b && S >= 0.0
    ensures a * S <= b * S
  {
    assert b * S - a * S == (b - a) * S;
  }

  /** The sign of a product with a positive factor is the sign of the other. */
  lemma SignOfFactor(a: real, S: real)
    requires S > 0.0
    ensures a * S <= 0.0 ==> a <= 0.0
    ensures a * S >= 0.0 ==> a >= 0.0
  {
  }

  function ToFixed2(x: real): (r: real)
    ensures AbsReal(r - x) <= 0.005
    ensures x >= 0.0 ==> r >= 0.0
  {
    ToFixed(x, 100)
  }

  /** The whole number of hundredths that `toFixed(2)` leaves. */
  function Hundredths(x: real): (k: int)
    ensures ToFixed2(x) == k as real / 100.0
  {
    if x >= 0.0 then RoundHalfUp(x * 100.0) else -RoundHalfUp(-x * 100.0)
  }

  function ToFixed1(x: real): (r: real)
    ensures AbsReal(r - x) <= 0.05
    ensures x >= 0.0 ==> r >= 0.0
  {
    ToFixed(x, 10)
  }

  /** The whole number of tenths that `toFixed(1)` leaves. */
  function Tenths(x: real): (k: int)
    ensures ToFixed1(x) == k as real / 10.0
  {
    if x >= 0.0 then RoundHalfUp(x * 10.0) else -RoundHalfUp(-x * 10.0)
  }

  /** A value that already has at most two decimals is left unchanged by `toFixed(2)`. */
  lemma ToFixed2OfHundredths(k: int)
    ensures ToFixed2(k as real / 100.0) == k as real / 100.0
  {
    if k >= 0 {
      assert (k as real / 100.0) * 100.0 == k as real;
      RoundHalfUpOfInt(k);
    } else {
      assert -(k as real / 100.0) * 100.0 == (-k) as real;
      RoundHalfUpOfInt(-k);
    }
  }

  lemma ToFixed2OfInt(n: int)
    ensures ToFixed2(n as real) == n as real
  {
    assert n as real == (100 * n) as real / 100.0;
    ToFixed2OfHundredths(100 * n);
  }

  /** `Number(Math.sqrt(t / 10000).toFixed(2)) * 100` for `t >= 0`, computed
      exactly: the integer k nearest to the square root of t. */
  function RoundedSqrt(t: real): (k: nat)
    requires t >= 0.0
    ensures k == 0 || (k as real - 0.5) * (k as real - 0.5) <= t
    ensures t < (k as real + 0.5) * (k as real + 0.5)
  {
    RoundedSqrtFrom(t, 0)
  }

  function RoundedSqrtFrom(t: real, k: nat): (r: nat)
    requires t >= 0.0
    requires k == 0 || (k as real - 0.5) * (k as real - 0.5) <= t
    ensures r == 0 || (r as real - 0.5) * (r as real - 0.5) <= t
    ensures t < (r as real + 0.5) * (r as real + 0.5)
    decreases t.Floor + 1 - k
  {
    if t < (k as real + 0.5) * (k as real + 0.5) then k
    else
      SqrtStep(t, k);
      RoundedSqrtFrom(t, k + 1)
  }

  /** When (k + 1/2)^2 is still at most t, k is at most t and the search may
      move on to k + 1. */
  lemma SqrtStep(t: real, k: nat)
    requires (k as real + 0.5) * (k as real + 0.5) <= t
    ensures k <= t.Floor
    ensures ((k + 1) as real - 0.5) * ((k + 1) as real - 0.5) <= t
  {
    var K := k as real;
    assert (k + 1) as real - 0.5 == K + 0.5;
    assert (K + 0.5) * (K + 0.5) == K * K + K + 0.25;
    assert K * K >= 0.0;
  }

  lemma SquareMonotone(a: real, b: real)
    requires 0.0 <= a <= b
    ensures a * a <= b * b
  {
    assert a * a <= a * b;
    assert a * b <= b * b;
  }

  /** The rounded square root of a perfect square is its root. */
  lemma RoundedSqrtOfSquare(n: nat)
    ensures RoundedSqrt((n * n) as real) == n
  {
    var k := RoundedSqrt((n * n) as real);
    var N := n as real;
    assert (n * n) as real == N * N;
    assert (N + 0.5) * (N + 0.5) == N * N + N + 0.25;
    assert (N - 0.5) * (N - 0.5) == N * N - N + 0.25;
    if k > n {
      SquareMonotone(N + 0.5, k as real - 0.5);
    } else if k < n {
      SquareMonotone(k as real + 0.5, N - 0.5);
    }
  }

  lemma RoundedSqrtZero()
    ensures RoundedSqrt(0.0) == 0
  {
  }

  /** Sum of a sequence of integers. */
  function Sum(s: seq<int>): int
  {
    if s == [] then 0 else Sum(s[..|s| - 1]) + s[|s| - 1]
  }

  lemma SumAppend(a: seq<int>, b: seq<int>)
    ensures Sum(a + b) == Sum(a) + Sum(b)
    decreases |b|
  {
    if b != [] {
      assert (a + b)[..|a + b| - 1] == a + b[..|b| - 1];
      SumAppend(a, b[..|b| - 1]);
    } else {
      assert a + b == a;
    }
  }

  lemma {:induction false} SumBounds(s: seq<int>, lo: int, hi: int)
    requires forall i :: 0 <= i < |s| ==> lo <= s[i] <= hi
    ensures |s| * lo <= Sum(s) <= |s| * hi
  {
    if s != [] {
      SumBounds(s[..|s| - 1], lo, hi);
    }
  }

  lemma {:induction false} SumAtLeast(s: seq<int>, lo: int)
    requires forall i :: 0 <= i < |s| ==> lo <= s[i]
    ensures |s| * lo <= Sum(s)
  {
    if s != [] {
      SumAtLeast(s[..|s| - 1], lo);
    }
  }

  lemma {:induction false} SumAtMost(s: seq<int>, hi: int)
    requires forall i :: 0 <= i < |s| ==> s[i] <= hi
    ensures Sum(s) <= |s| * hi
  {
    if s != [] {
      SumAtMost(s[..|s| - 1], hi);
    }
  }

  lemma {:induction false} SumConstant(s: seq<int>, c: int)
    requires forall i :: 0 <= i < |s| ==> s[i] == c
    ensures Sum(s) == |s| * c
  {
    SumBounds(s, c, c);
  }

  /** Arithmetic mean as a real; the callers guard the empty case. */
  function Mean(s: seq<int>): (m: real)
    requires |s| > 0
  {
    Sum(s) as real / |s| as real
  }

  lemma MeanBounds(s: seq<int>, lo: int, hi: int)
    requires |s| > 0
    requires forall i :: 0 <= i < |s| ==> lo <= s[i] <= hi
    ensures lo as real <= Mean(s) <= hi as real
  {
    SumBounds(s, lo, hi);
    DivBetween(Sum(s), |s|, lo, hi);
  }

  lemma DivBetween(a: int, n: int, lo: int, hi: int)
    requires n > 0 && n * lo <= a <= n * hi
    ensures lo as real <= a as real / n as real <= hi as real
  {
    var q := a as real / n as real;
    assert q * n as real == a as real;
    assert (n * lo) as real == n as real * lo as real;
    assert (n * hi) as real == n as real * hi as real;
  }

  /** A quotient is at least lo when the numerator is at least n * lo. */
  lemma DivAtLeast(a: int, n: int, lo: int)
    requires n > 0 && n * lo <= a
    ensures lo as real <= a as real / n as real
  {
    var q := a as real / n as real;
    assert q * n as real == a as real;
    assert (n * lo) as real == n as real * lo as real;
  }

  /** A quotient exceeds lo when the numerator exceeds n * lo. */
  lemma DivAbove(a: int, n: int, lo: real)
    requires n > 0 && lo * n as real < a as real
    ensures lo < a as real / n as real
  {
    var q := a as real / n as real;
    assert q * n as real == a as real;
    assert (q - lo) * n as real > 0.0;
  }

  /** A quotient is at most hi when the numerator is at most n * hi. */
  lemma DivAtMost(a: int, n: int, hi: int)
    requires n > 0 && a <= n * hi
    ensures a as real / n as real <= hi as real
  {
    var q := a as real / n as real;
    assert q * n as real == a as real;
    assert (n * hi) as real == n as real * hi as real;
  }

  lemma MeanAtLeast(s: seq<int>, lo: int)
    requires |s| > 0 && forall i :: 0 <= i < |s| ==> lo <= s[i]
    ensures lo as real <= Mean(s)
  {
    SumAtLeast(s, lo);
    DivAtLeast(Sum(s), |s|, lo);
  }

  lemma MeanAtMost(s: seq<int>, hi: int)
    requires |s| > 0 && forall i :: 0 <= i < |s| ==> s[i] <= hi
    ensures Mean(s) <= hi as real
  {
    SumAtMost(s, hi);
    DivAtMost(Sum(s), |s|, hi);
  }

  lemma MeanConstant(s: seq<int>, c: int)
    requires |s| > 0
    requires forall i :: 0 <= i < |s| ==> s[i] == c
    ensures Mean(s) == c as real
  {
    MeanBounds(s, c, c);
  }

  /** Sum of the absolute day-over-day changes |s[i] - s[i-1]| for i >= 1. */
  function SumAbsDiff(s: seq<int>): (r: nat)
  {
    if |s| < 2 then 0
    else SumAbsDiff(s[..|s| - 1]) + Abs(s[|s| - 1] - s[|s| - 2])
  }

  lemma {:induction false} SumAbsDiffConstant(s: seq<int>)
    requires forall i, j :: 0 <= i < j < |s| ==> s[i] == s[j]
    ensures SumAbsDiff(s) == 0
  {
    if |s| >= 2 {
      SumAbsDiffConstant(s[..|s| - 1]);
    }
  }

  lemma {:induction false} SumAbsDiffAtLeast(s: seq<int>, step: nat)
    requires forall i :: 1 <= i < |s| ==> Abs(s[i] - s[i - 1]) >= step
    ensures |s| >= 1 ==> SumAbsDiff(s) >= (|s| - 1) * step
  {
    if |s| >= 2 {
      SumAbsDiffAtLeast(s[..|s| - 1], step);
    }
  }

  /** The percentage 100 k / n of k days out of n, and how it rounds. */
  lemma Share(k: nat, n: nat)
    requires k <= n && n > 0
    ensures var q := (100 * k) as real / n as real;
      && 0.0 <= q <= 100.0 && 0 <= RoundHalfUp(q) <= 100
      && (k == n ==> q == 100.0) && (k == 0 ==> q == 0.0)
      && (k == n ==> RoundHalfUp(q) == 100)
      && (RoundHalfUp(q) == 0 ==> 200 * k <= n)
  {
    var q := (100 * k) as real / n as real;
    DivBetween(100 * k, n, 0, 100);
    RoundHalfUpWithin(q, 0, 100);
    if k == n {
      DivBetween(100 * k, n, 100, 100);
      RoundHalfUpOfInt(100);
    }
    if 200 * k > n {
      DivAtLeastHalf(k, n);
    }
  }

  /** A share above one in two hundred rounds to at least 1. */
  lemma DivAtLeastHalf(k: nat, n: nat)
    requires n > 0 && 200 * k > n
    ensures RoundHalfUp((100 * k) as real / n as real) >= 1
  {
    DivAbove(100 * k, n, 0.5);
  }

  lemma {:induction false} SumAbsDiffAtMost(s: seq<int>, step: nat)
    requires forall i :: 1 <= i < |s| ==> Abs(s[i] - s[i - 1]) <= step
    ensures |s| >= 1 ==> SumAbsDiff(s) <= (|s| - 1) * step
  {
    if |s| >= 2 {
      SumAbsDiffAtMost(s[..|s| - 1], step);
    }
  }

  /** `Math.round((k / n) * 100)`: the rounded percentage of k days out of n. */
  function Percent(k: nat, n: nat): (p: int)
    requires k <= n && n > 0
    ensures 0 <= p <= 100
    ensures k == n ==> p == 100
    ensures k == 0 ==> p == 0
    ensures p == 0 ==> 200 * k <= n
    ensures (100 * k) as real / n as real - 0.5 < p as real <= (100 * k) as real / n as real + 0.5
  {
    Share(k, n);
    RoundHalfUp((100 * k) as real / n as real)
  }

  /** More days out of the same total never give a smaller percentage. */
  lemma PercentMonotone(k1: nat, k2: nat, n: nat)
    requires k1 <= k2 <= n && n > 0
    ensures Percent(k1, n) <= Percent(k2, n)
  {
    var q1 := (100 * k1) as real / n as real;
    var q2 := (100 * k2) as real / n as real;
    assert q1 * n as real == (100 * k1) as real;
    assert q2 * n as real == (100 * k2) as real;
    assert (q2 - q1) * n as real >= 0.0;
    RoundHalfUpMonotone(q1, q2);
  }

  /** `toFixed` keeps a non-negative value inside integer bounds around it. */
  lemma ToFixedWithin(x: real, scale: nat, lo: nat, hi: int)
    requires scale > 0 && lo as real <= x <= hi as real
    ensures lo as real <= ToFixed(x, scale) <= hi as real
  {
    var y := x * scale as real;
    assert ToFixed(x, scale) == RoundHalfUp(y) as real / scale as real;
    ScaledBounds(x, scale, lo, hi);
    RoundHalfUpWithin(y, lo * scale, hi * scale);
    DivBetween(RoundHalfUp(y), scale, lo, hi);
  }

  lemma ScaledBounds(x: real, scale: nat, lo: int, hi: int)
    requires lo as real <= x <= hi as real
    ensures (lo * scale) as real <= x * scale as real <= (hi * scale) as real
  {
    assert (lo * scale) as real == lo as real * scale as real;
    assert (hi * scale) as real == hi as real * scale as real;
    MulMonotone(lo as real, x, scale as real);
    MulMonotone(x, hi as real, scale as real);
  }

  /** The elements of s that satisfy p, in order (`Array.prototype.filter`). */
  function Filter<T>(s: seq<T>, p: T -> bool): (r: seq<T>)
    ensures |r| <= |s|
  {
    if s == [] then []
    else Filter(s[..|s| - 1], p) + (if p(s[|s| - 1]) then [s[|s| - 1]] else [])
  }

  /** The filter keeps exactly the elements of s that satisfy p. */
  lemma {:induction false} FilterMembers<T>(s: seq<T>, p: T -> bool)
    ensures forall x :: x in Filter(s, p) ==> x in s && p(x)
    ensures forall x :: x in s && p(x) ==> x in Filter(s, p)
  {
    if s != [] {
      var init, last := s[..|s| - 1], s[|s| - 1];
      FilterMembers(init, p);
      assert s == init + [last];
    }
  }

  lemma FilterAppend<T>(a: seq<T>, b: seq<T>, p: T -> bool)
    ensures Filter(a + b, p) == Filter(a, p) + Filter(b, p)
    decreases |b|
  {
    if b == [] {
      assert a + b == a;
    } else {
      assert (a + b)[..|a + b| - 1] == a + b[..|b| - 1];
      FilterAppend(a, b[..|b| - 1], p);
    }
  }

  /** Filtering a sequence with one element in front. */
  lemma FilterPrepend<T>(x: T, s: seq<T>, p: T -> bool)
    ensures Filter([x] + s, p) == (if p(x) then [x] else []) + Filter(s, p)
  {
    assert Filter([x], p) == (if p(x) then [x] else []) by {
      assert [x][..0] == [];
    }
    FilterAppend([x], s, p);
  }

  /** Filtering a four-element sequence, element by element. */
  lemma Filter4<T>(a: T, b: T, c: T, d: T, p: T -> bool)
    ensures Filter([a, b, c, d], p) ==
      (if p(a) then [a] else []) + (if p(b) then [b] else []) + (if p(c) then [c] else []) + (if p(d) then [d] else [])
  {
    assert [a][..0] == [];
    assert Filter([a], p) == (if p(a) then [a] else []);
    assert [a, b][..1] == [a];
    assert Filter([a, b], p) == Filter([a], p) + (if p(b) then [b] else []);
    assert [a, b, c][..2] == [a, b];
    assert Filter([a, b, c], p) == Filter([a, b], p) + (if p(c) then [c] else []);
    assert [a, b, c, d][..3] == [a, b, c];
  }

  /** Filtering a five-element sequence, element by element. */
  lemma Filter5<T>(a: T, b: T, c: T, d: T, e: T, p: T -> bool)
    ensures Filter([a, b, c, d, e], p) ==
      (if p(a) then [a] else []) + (if p(b) then [b] else []) + (if p(c) then [c] else [])
      + (if p(d) then [d] else []) + (if p(e) then [e] else [])
  {
    assert [a, b, c, d, e][..4] == [a, b, c, d];
    Filter4(a, b, c, d, p);
  }

  /** A filter and its complement split the input: their sizes add up. */
  lemma {:induction false} FilterPartition<T>(s: seq<T>, p: T -> bool, q: T -> bool)
    requires forall x :: x in s ==> (q(x) <==> !p(x))
    ensures |Filter(s, p)| + |Filter(s, q)| == |s|
  {
    if s != [] {
      FilterPartition(s[..|s| - 1], p, q);
    }
  }

  /** The test of `filter(v => v !== value)`. */
  function Unequal<T(==)>(value: T): T -> bool {
    (v: T) => v != value
  }

  /** Everything kept: the filter is the identity. */
  lemma {:induction false} FilterAll<T>(s: seq<T>, p: T -> bool)
    requires forall x :: x in s ==> p(x)
    ensures Filter(s, p) == s
  {
    if s != [] {
      var init := s[..|s| - 1];
      assert forall x :: x in init ==> x in s;
      FilterAll(init, p);
    }
  }

  /** Nothing kept: the filter is empty. */
  lemma {:induction false} FilterNone<T>(s: seq<T>, p: T -> bool)
    requires forall x :: x in s ==> !p(x)
    ensures Filter(s, p) == []
  {
    if s != [] {
      var init := s[..|s| - 1];
      assert forall x :: x in init ==> x in s;
      FilterNone(init, p);
    }
  }

  /** A stronger condition keeps no more elements than a weaker one. */
  lemma {:induction false} FilterMonotone<T>(s: seq<T>, p: T -> bool, q: T -> bool)
    requires forall x :: x in s && p(x) ==> q(x)
    ensures |Filter(s, p)| <= |Filter(s, q)|
  {
    if s != [] {
      FilterMonotone(s[..|s| - 1], p, q);
    }
  }

  /** Some element of s satisfies p exactly when the filter keeps something. */
  lemma FilterNonEmpty<T>(s: seq<T>, p: T -> bool)
    ensures |Filter(s, p)| >= 1 <==> exists i :: 0 <= i < |s| && p(s[i])
  {
    FilterMembers(s, p);
    if exists i :: 0 <= i < |s| && p(s[i]) {
      var i :| 0 <= i < |s| && p(s[i]);
      assert s[i] in Filter(s, p);
    }
    if |Filter(s, p)| >= 1 {
      var x := Filter(s, p)[0];
      assert x in Filter(s, p);
    }
  }

  /** The filter keeps two elements or more exactly when two positions of s
      satisfy p. */
  lemma {:induction false} FilterAtLeastTwo<T>(s: seq<T>, p: T -> bool)
    ensures |Filter(s, p)| >= 2 <==> exists i, j :: 0 <= i < j < |s| && p(s[i]) && p(s[j])
  {
    if s != [] {
      var init := s[..|s| - 1];
      var last := s[|s| - 1];
      assert Filter(s, p) == Filter(init, p) + (if p(last) then [last] else []);
      FilterAtLeastTwo(init, p);
      FilterNonEmpty(init, p);
      if exists i, j :: 0 <= i < j < |s| && p(s[i]) && p(s[j]) {
        var i, j :| 0 <= i < j < |s| && p(s[i]) && p(s[j]);
        if j < |init| {
          assert p(init[i]) && p(init[j]);
        } else {
          assert p(last) && p(init[i]);
        }
      }
      if |Filter(s, p)| >= 2 {
        if p(last) {
          var i :| 0 <= i < |init| && p(init[i]);
          assert p(s[i]) && p(s[|s| - 1]);
        } else {
          var i, j :| 0 <= i < j < |init| && p(init[i]) && p(init[j]);
          assert s[i] == init[i] && s[j] == init[j];
          assert 0 <= i < j < |s| && p(s[i]) && p(s[j]);
        }
      }
    }
  }

  /** No element occurs twice. */
  predicate Distinct<T(==)>(s: seq<T>) {
    forall i, j :: 0 <= i < j < |s| ==> s[i] != s[j]
  }

  /** Filtering keeps a sequence free of repeats. */
  lemma {:induction false} FilterDistinct<T>(s: seq<T>, p: T -> bool)
    requires Distinct(s)
    ensures Distinct(Filter(s, p))
  {
    if s != [] {
      var init := s[..|s| - 1];
      assert Distinct(init);
      FilterDistinct(init, p);
      FilterMembers(init, p);
      assert s[|s| - 1] !in init;
    }
  }

  /** An element of a repeat-free sequence occurs once. */
  lemma {:induction false} DistinctCountOne<T>(s: seq<T>, x: T)
    requires Distinct(s)
    ensures multiset(s)[x] <= 1
  {
    if s != [] {
      var init := s[..|s| - 1];
      assert s == init + [s[|s| - 1]];
      assert Distinct(init);
      DistinctCountOne(init, x);
      if x == s[|s| - 1] {
        assert x !in init;
      }
    }
  }

  /** A rearrangement of a repeat-free sequence is repeat-free. */
  lemma DistinctPermutation<T>(s: seq<T>, t: seq<T>)
    requires Distinct(s) && multiset(s) == multiset(t)
    ensures Distinct(t)
  {
    forall i, j | 0 <= i < j < |t| ensures t[i] != t[j] {
      if t[i] == t[j] {
        var x := t[i];
        assert t == t[..i] + [x] + t[i + 1..j] + [x] + t[j + 1..];
        assert multiset(t)[x] >= 2;
        DistinctCountOne(s, x);
        assert false;
      }
    }
  }

  /** Applies f to every element (`Array.prototype.map`). */
  function Map<T, U>(s: seq<T>, f: T -> U): (r: seq<U>)
    ensures |r| == |s|
    ensures forall i :: 0 <= i < |s| ==> r[i] == f(s[i])
  {
    seq(|s|, i requires 0 <= i < |s| => f(s[i]))
  }
}
