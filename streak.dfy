// The current and best journaling streaks of
// src/app/dashboard/elements/StreakCounter.tsx, over entry dates given as
// day numbers.
module Streak {
  import opened Numeric
  import Sorting

  /** Every step from index a up to index b is exactly one day. */
  ghost predicate Consecutive(s: seq<int>, a: int, b: int)
    requires 0 <= a <= b < |s|
  {
    forall j :: a < j <= b ==> s[j] - s[j - 1] == 1
  }

  /** Every step from index a to the last date is exactly one day. */
  ghost predicate RunToEnd(s: seq<int>, a: int) {
    0 <= a < |s| && Consecutive(s, a, |s| - 1)
  }

  /** The state (best, streak) of the best-streak loop after it has read
      all of s: a step of one day extends the streak, a larger step resets
      it to 1, and a repeated day leaves both alone. */
  function Scan(s: seq<int>): (r: (nat, nat))
    requires |s| >= 1
    ensures 1 <= r.1 <= r.0 <= |s|
  {
    if |s| == 1 then (1, 1)
    else
      var (best, streak) := Scan(s[..|s| - 1]);
      var diff := s[|s| - 1] - s[|s| - 2];
      if diff == 1 then (Max(best, streak + 1), streak + 1)
      else if diff > 1 then (best, 1)
      else (best, streak)
  }

  /** The current-streak count: one plus the run of one-day steps that ends
      at the latest date. */
  function TrailingRun(s: seq<int>): (n: nat)
    requires |s| >= 1
    ensures 1 <= n <= |s|
  {
    if |s| == 1 || s[|s| - 1] - s[|s| - 2] != 1 then 1
    else TrailingRun(s[..|s| - 1]) + 1
  }

  /** The streak of the scan covers every run of one-day steps ending at the
      last date, and the best covers every run anywhere. */
  lemma {:induction false} ScanCoversRuns(s: seq<int>)
    requires |s| >= 1
    ensures forall a :: RunToEnd(s, a) ==> Scan(s).1 >= |s| - a
    ensures forall a, b :: 0 <= a <= b < |s| && Consecutive(s, a, b) ==> Scan(s).0 >= b - a + 1
  {
    if |s| > 1 {
      var init := s[..|s| - 1];
      ScanCoversRuns(init);
      forall a | RunToEnd(s, a) ensures Scan(s).1 >= |s| - a {
        if a < |s| - 1 {
          assert RunToEnd(init, a);
        }
      }
      forall a, b | 0 <= a <= b < |s| && Consecutive(s, a, b) ensures Scan(s).0 >= b - a + 1 {
        if b < |s| - 1 {
          assert Consecutive(init, a, b);
        } else {
          assert RunToEnd(s, a);
        }
      }
    }
  }

  /** The dates never decrease. */
  ghost predicate Ascending(s: seq<int>) {
    forall i, j :: 0 <= i <= j < |s| ==> s[i] <= s[j]
  }

  /** No step from index a up to index b skips a day: each is one day or a
      repeated day. */
  ghost predicate NoGap(s: seq<int>, a: int, b: int)
    requires 0 <= a <= b < |s|
  {
    forall j :: a < j <= b ==> s[j] - s[j - 1] <= 1
  }

  /** Where the streak the loop holds at the end of s began: just after the
      last step of more than one day, or the first date. */
  function RunStart(s: seq<int>): (a: nat)
    requires |s| >= 1
    ensures a < |s|
  {
    if |s| == 1 then 0
    else if s[|s| - 1] - s[|s| - 2] > 1 then |s| - 1
    else RunStart(s[..|s| - 1])
  }

  /** On ascending dates the loop's streak is the number of days from
      RunStart to the last date, a stretch with no gap that no gapless
      stretch starting earlier extends. */
  lemma {:induction false} StreakIsRunFromStart(s: seq<int>)
    requires |s| >= 1 && Ascending(s)
    ensures Scan(s).1 == s[|s| - 1] - s[RunStart(s)] + 1
    ensures NoGap(s, RunStart(s), |s| - 1)
    ensures RunStart(s) > 0 ==> s[RunStart(s)] - s[RunStart(s) - 1] > 1
  {
    if |s| > 1 {
      var init := s[..|s| - 1];
      assert Ascending(init);
      StreakIsRunFromStart(init);
      if s[|s| - 1] - s[|s| - 2] <= 1 {
        assert NoGap(init, RunStart(init), |init| - 1);
      }
    }
  }

  /** The best streak on ascending dates is the longest gapless stretch,
      counted in calendar days: no gapless stretch from index a to index b
      covers more days than the best, and some stretch covers exactly that
      many. */
  lemma BestIsLongestRun(s: seq<int>)
    requires |s| >= 1 && Ascending(s)
    ensures forall a, b :: 0 <= a <= b < |s| && NoGap(s, a, b) ==> s[b] - s[a] + 1 <= Scan(s).0
    ensures exists a, b :: 0 <= a <= b < |s| && NoGap(s, a, b) && s[b] - s[a] + 1 == Scan(s).0
  {
    BestCoversGaplessRuns(s);
    BestAttained(s);
  }

  lemma {:induction false} BestCoversGaplessRuns(s: seq<int>)
    requires |s| >= 1 && Ascending(s)
    ensures forall a, b :: 0 <= a <= b < |s| && NoGap(s, a, b) ==> s[b] - s[a] + 1 <= Scan(s).0
  {
    if |s| > 1 {
      var init := s[..|s| - 1];
      assert Ascending(init);
      BestCoversGaplessRuns(init);
      StreakIsRunFromStart(s);
      forall a, b | 0 <= a <= b < |s| && NoGap(s, a, b) ensures s[b] - s[a] + 1 <= Scan(s).0 {
        if b < |s| - 1 {
          assert NoGap(init, a, b);
        } else {
          LastRunWithinStreak(s, a);
        }
      }
    }
  }

  /** A gapless stretch that ends at the last date starts no earlier than
      RunStart, so it covers no more days than the loop's streak. */
  lemma LastRunWithinStreak(s: seq<int>, a: int)
    requires |s| >= 1 && Ascending(s) && 0 <= a < |s| && NoGap(s, a, |s| - 1)
    ensures s[|s| - 1] - s[a] + 1 <= Scan(s).1
  {
    StreakIsRunFromStart(s);
    var st := RunStart(s);
    assert st <= a;
    assert s[st] <= s[a];
  }

  lemma {:induction false} BestAttained(s: seq<int>)
    requires |s| >= 1 && Ascending(s)
    ensures exists a, b :: 0 <= a <= b < |s| && NoGap(s, a, b) && s[b] - s[a] + 1 == Scan(s).0
  {
    if |s| == 1 {
      assert NoGap(s, 0, 0);
    } else {
      var init := s[..|s| - 1];
      assert Ascending(init);
      BestAttained(init);
      var a0, b0 :| 0 <= a0 <= b0 < |init| && NoGap(init, a0, b0) && init[b0] - init[a0] + 1 == Scan(init).0;
      if Scan(s).0 == Scan(init).0 {
        assert NoGap(s, a0, b0);
      } else {
        StreakIsRunFromStart(s);
        assert NoGap(s, RunStart(s), |s| - 1);
      }
    }
  }

  /** A repeated day does not break a streak and does not count twice. */
  lemma RepeatedDayStreak(d: int)
    ensures Scan([d, d + 1, d + 1, d + 2]).0 == 3
  {
    var s := [d, d + 1, d + 1, d + 2];
    assert Ascending(s);
    BestIsLongestRun(s);
    assert NoGap(s, 0, 3);
  }

  /** TrailingRun is exactly the maximal run of one-day steps at the end. */
  lemma {:induction false} TrailingRunMaximal(s: seq<int>)
    requires |s| >= 1
    ensures Consecutive(s, |s| - TrailingRun(s), |s| - 1)
    ensures TrailingRun(s) < |s| ==> s[|s| - TrailingRun(s)] - s[|s| - TrailingRun(s) - 1] != 1
  {
    if |s| > 1 && s[|s| - 1] - s[|s| - 2] == 1 {
      var init := s[..|s| - 1];
      TrailingRunMaximal(init);
      assert Consecutive(init, |init| - TrailingRun(init), |init| - 1);
    }
  }

  /** The current streak never exceeds the best one. */
  lemma CurrentAtMostBest(s: seq<int>)
    requires |s| >= 1
    ensures TrailingRun(s) <= Scan(s).0
  {
    TrailingRunMaximal(s);
    ScanCoversRuns(s);
    assert RunToEnd(s, |s| - TrailingRun(s));
  }

  /** The component's two numbers: (0, 0) without entries, otherwise both
      loops run over the dates sorted ascending. */
  method Streaks(dates: seq<int>) returns (current: nat, best: nat)
    ensures |dates| == 0 ==> current == 0 && best == 0
    ensures |dates| > 0 ==> var sorted := Sorting.SortInts(dates);
      best == Scan(sorted).0 && current == TrailingRun(sorted)
    ensures |dates| > 0 ==> 1 <= current <= best <= |dates|
    ensures |dates| > 0 ==> var sorted := Sorting.SortInts(dates);
      && (forall a, b :: 0 <= a <= b < |sorted| && NoGap(sorted, a, b) ==> sorted[b] - sorted[a] + 1 <= best)
      && (exists a, b :: 0 <= a <= b < |sorted| && NoGap(sorted, a, b) && sorted[b] - sorted[a] + 1 == best)
  {
    if |dates| == 0 {
      return 0, 0;
    }
    var sorted := Sorting.SortInts(dates);
    best := BestStreak(sorted);
    current := CurrentStreak(sorted);
    CurrentAtMostBest(sorted);
    BestIsLongestRun(sorted);
  }

  /** The best-streak loop. */
  method BestStreak(sorted: seq<int>) returns (best: nat)
    requires |sorted| >= 1
    ensures best == Scan(sorted).0
  {
    best := 1;
    var streak := 1;
    var i := 1;
    while i < |sorted|
      invariant 1 <= i <= |sorted|
      invariant (best, streak) == Scan(sorted[..i])
    {
      assert sorted[..i + 1][..i] == sorted[..i];
      var diff := sorted[i] - sorted[i - 1];
      if diff == 1 {
        streak := streak + 1;
        best := Max(best, streak);
      } else if diff > 1 {
        streak := 1;
      }
      i := i + 1;
    }
    assert sorted[..|sorted|] == sorted;
  }

  /** The current-streak loop: walk back from the latest date while the
      steps are one day. */
  method CurrentStreak(sorted: seq<int>) returns (current: nat)
    requires |sorted| >= 1
    ensures current == TrailingRun(sorted)
  {
    current := 1;
    var j := |sorted| - 1;
    while j > 0
      invariant 0 <= j < |sorted|
      invariant current == |sorted| - j
      invariant Consecutive(sorted, j, |sorted| - 1)
    {
      var diff := sorted[j] - sorted[j - 1];
      if diff == 1 {
        current := current + 1;
      } else {
        break;
      }
      j := j - 1;
    }
    TrailingRunIs(sorted, j);
  }

  /** A maximal run of one-day steps at the end of s has TrailingRun's length. */
  lemma {:induction false} TrailingRunIs(s: seq<int>, j: nat)
    requires j < |s| && Consecutive(s, j, |s| - 1)
    requires j == 0 || s[j] - s[j - 1] != 1
    ensures TrailingRun(s) == |s| - j
  {
    if j < |s| - 1 {
      var init := s[..|s| - 1];
      assert Consecutive(init, j, |init| - 1);
      TrailingRunIs(init, j);
    }
  }

  /** Both streaks depend only on which dates occur how often, not on the
      order the entries arrive in. */
  lemma StreaksOrderFree(a: seq<int>, b: seq<int>)
    requires multiset(a) == multiset(b) && |a| > 0
    ensures Scan(Sorting.SortInts(a)) == Scan(Sorting.SortInts(b))
    ensures TrailingRun(Sorting.SortInts(a)) == TrailingRun(Sorting.SortInts(b))
  {
    Sorting.SortIntsOrderFree(a, b);
  }

  /** Seven consecutive days are a seven-day streak, current and best. */
  lemma WeekStreak(d: int)
    ensures var s := [d, d + 1, d + 2, d + 3, d + 4, d + 5, d + 6];
      Scan(s).0 == 7 && TrailingRun(s) == 7
  {
    var s := [d, d + 1, d + 2, d + 3, d + 4, d + 5, d + 6];
    assert Consecutive(s, 0, 6);
    ScanCoversRuns(s);
    TrailingRunIs(s, 0);
  }
}
