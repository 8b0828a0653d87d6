// The three dashboard cards that compare mood across habit groups:
// src/app/dashboard/elements/RootCauseInsightCard.tsx,
// src/app/dashboard/elements/SecondaryImpactInsight.tsx and
// src/app/dashboard/elements/GentleSuggestionCard.tsx. All three split the
// rows the same way and differ in how they pick a factor.
module InsightCards {
  import opened Wrappers
  import opened Numeric
  import opened Journal
  import Sorting

  datatype Factor = Sleep | Exercise | Screen

  /** The factors in the order the cards list them. */
  const Factors: seq<Factor> := [Sleep, Exercise, Screen]

  /** The mood a row adds to a sum: a null mood adds 0. */
  function MoodOf(e: JournalRow): int { e.mood.Or(0) }

  predicate GoodSleep(e: JournalRow) { e.sleep_hours.Defined() && e.sleep_hours.Or(0) >= 7 }
  predicate PoorSleep(e: JournalRow) { e.sleep_hours.Defined() && e.sleep_hours.Or(0) < 7 }
  predicate NoExercise(e: JournalRow) { !Exercised(e) }
  predicate HighScreen(e: JournalRow) { e.screen_entertainment.Defined() && e.screen_entertainment.Or(0.0) >= 3.0 }
  predicate LowScreen(e: JournalRow) { e.screen_entertainment.Defined() && e.screen_entertainment.Or(0.0) < 3.0 }

  /** Mood mean of the `better` group minus that of the `worse` group, and 0
      unless both groups have rows. */
  function GroupDiff(better: seq<JournalRow>, worse: seq<JournalRow>): real {
    if |better| > 0 && |worse| > 0 then Mean(Map(better, MoodOf)) - Mean(Map(worse, MoodOf)) else 0.0
  }

  /** The three diffs: good minus poor sleep, exercise minus rest days, low
      minus high entertainment screen time. */
  function Diff(entries: seq<JournalRow>, f: Factor): real {
    match f
    case Sleep => GroupDiff(Filter(entries, GoodSleep), Filter(entries, PoorSleep))
    case Exercise => GroupDiff(Filter(entries, Exercised), Filter(entries, NoExercise))
    case Screen => GroupDiff(Filter(entries, LowScreen), Filter(entries, HighScreen))
  }

  /** The three diffs, computed once per card. */
  datatype Diffs = Diffs(sleep: real, exercise: real, screen: real) {
    function Of(f: Factor): real {
      match f
      case Sleep => sleep
      case Exercise => exercise
      case Screen => screen
    }
  }

  function DiffsOf(entries: seq<JournalRow>): (d: Diffs)
    ensures forall f :: d.Of(f) == Diff(entries, f)
  {
    Diffs(Diff(entries, Sleep), Diff(entries, Exercise), Diff(entries, Screen))
  }

  /** The size of a diff: the cards compare `Math.abs(diff)`. */
  function Impact(d: Diffs, f: Factor): real {
    AbsReal(d.Of(f))
  }

  lemma FactorsListed()
    ensures forall f :: f in Factors
  {
    forall f: Factor ensures f in Factors {
      match f
      case Sleep => assert Factors[0] == f;
      case Exercise => assert Factors[1] == f;
      case Screen => assert Factors[2] == f;
    }
  }

  /** With every mood in [lo, hi], no diff exceeds hi - lo in size. */
  lemma DiffBounds(entries: seq<JournalRow>, f: Factor, lo: int, hi: int)
    requires lo <= hi && forall e :: e in entries ==> lo <= MoodOf(e) <= hi
    ensures AbsReal(Diff(entries, f)) <= (hi - lo) as real
  {
    match f
    case Sleep =>
      FilterMembers(entries, GoodSleep);
      FilterMembers(entries, PoorSleep);
      GroupDiffBounds(Filter(entries, GoodSleep), Filter(entries, PoorSleep), lo, hi);
    case Exercise =>
      FilterMembers(entries, Exercised);
      FilterMembers(entries, NoExercise);
      GroupDiffBounds(Filter(entries, Exercised), Filter(entries, NoExercise), lo, hi);
    case Screen =>
      FilterMembers(entries, LowScreen);
      FilterMembers(entries, HighScreen);
      GroupDiffBounds(Filter(entries, LowScreen), Filter(entries, HighScreen), lo, hi);
  }

  lemma GroupDiffBounds(better: seq<JournalRow>, worse: seq<JournalRow>, lo: int, hi: int)
    requires lo <= hi && forall e :: e in better || e in worse ==> lo <= MoodOf(e) <= hi
    ensures AbsReal(GroupDiff(better, worse)) <= (hi - lo) as real
  {
    if |better| > 0 && |worse| > 0 {
      GroupMeanBounds(better, lo, hi);
      GroupMeanBounds(worse, lo, hi);
      var x := Mean(Map(better, MoodOf)) - Mean(Map(worse, MoodOf));
      assert GroupDiff(better, worse) == x;
      assert -(hi - lo) as real <= x <= (hi - lo) as real;
    }
  }

  lemma GroupMeanBounds(group: seq<JournalRow>, lo: int, hi: int)
    requires |group| > 0 && forall e :: e in group ==> lo <= MoodOf(e) <= hi
    ensures lo as real <= Mean(Map(group, MoodOf)) <= hi as real
  {
    var moods := Map(group, MoodOf);
    assert forall i :: 0 <= i < |moods| ==> group[i] in group;
    MeanBounds(moods, lo, hi);
  }

  /** Exercise and rest days split every row between them, and a habit
      that is kept every day (or never) has no exercise diff. */
  lemma ExerciseGroupsPartition(entries: seq<JournalRow>)
    ensures |Filter(entries, Exercised)| + |Filter(entries, NoExercise)| == |entries|
    ensures (forall e :: e in entries ==> Exercised(e)) ==> Diff(entries, Exercise) == 0.0
    ensures (forall e :: e in entries ==> !Exercised(e)) ==> Diff(entries, Exercise) == 0.0
  {
    FilterPartition(entries, Exercised, NoExercise);
    if forall e :: e in entries ==> Exercised(e) {
      FilterAll(entries, Exercised);
    }
    if forall e :: e in entries ==> !Exercised(e) {
      FilterAll(entries, NoExercise);
    }
  }

  /** The position `factors.reduce((a, b) => |b.diff| > |a.diff| ? b : a)`
      ends on: the largest impact, the earliest position on ties. */
  function StrongestIndex(d: Diffs, fs: seq<Factor>): (i: nat)
    requires |fs| > 0
    ensures i < |fs|
    ensures forall j :: 0 <= j < |fs| ==> Impact(d, fs[j]) <= Impact(d, fs[i])
    ensures forall j :: 0 <= j < i ==> Impact(d, fs[j]) < Impact(d, fs[i])
  {
    if |fs| == 1 then 0
    else
      var a := StrongestIndex(d, fs[..|fs| - 1]);
      assert fs[a] == fs[..|fs| - 1][a];
      if Impact(d, fs[|fs| - 1]) > Impact(d, fs[a]) then
        assert forall j :: 0 <= j < |fs| - 1 ==> fs[j] == fs[..|fs| - 1][j];
        |fs| - 1
      else
        assert forall j :: 0 <= j < |fs| - 1 ==> fs[j] == fs[..|fs| - 1][j];
        a
  }

  function Strongest(d: Diffs, fs: seq<Factor>): (f: Factor)
    requires |fs| > 0
    ensures f in fs && forall g :: g in fs ==> Impact(d, g) <= Impact(d, f)
  {
    fs[StrongestIndex(d, fs)]
  }

  datatype Strength = Low | Moderate | Strong

  /* -------------------- RootCauseInsightCard -------------------- */

  datatype RootCause =
    | RootNotEnoughData
    | NoStrongPattern
    | RootFinding(factor: Factor, strength: Strength, stat: real)

  /** The root-cause card: fewer than 4 rows is too little data; otherwise
      the strongest factor is reported when its diff reaches 0.5 in size,
      as Strong from 1.5 and Moderate below. */
  function RootCauseInsight(n: nat, d: Diffs): (r: RootCause)
    ensures r.RootNotEnoughData? <==> n < 4
    ensures r.NoStrongPattern? <==> n >= 4 && forall f :: Impact(d, f) < 0.5
    ensures r.RootFinding? ==>
      && Impact(d, r.factor) >= 0.5
      && (forall g :: Impact(d, g) <= Impact(d, r.factor))
      && (r.strength == Strong <==> Impact(d, r.factor) >= 1.5)
      && (r.strength == Moderate <==> Impact(d, r.factor) < 1.5)
      && r.stat == ToFixed1(d.Of(r.factor))
  {
    if n < 4 then RootNotEnoughData
    else
      var strongest := Strongest(d, Factors);
      FactorsListed();
      if Impact(d, strongest) < 0.5 then NoStrongPattern
      else
        RootFinding(strongest, if Impact(d, strongest) >= 1.5 then Strong else Moderate,
                    ToFixed1(d.Of(strongest)))
  }

  /** On a tie the earlier factor of Sleep, Exercise, Screen is reported. */
  lemma RootCauseTieBreak(n: nat, d: Diffs)
    requires RootCauseInsight(n, d).RootFinding?
    ensures var f := RootCauseInsight(n, d).factor;
      (f == Exercise ==> Impact(d, Sleep) < Impact(d, Exercise))
      && (f == Screen ==> Impact(d, Sleep) < Impact(d, Screen)
                          && Impact(d, Exercise) < Impact(d, Screen))
  {
    var i := StrongestIndex(d, Factors);
    assert Factors[0] == Sleep && Factors[1] == Exercise && Factors[2] == Screen;
  }

  /* -------------------- SecondaryImpactInsight -------------------- */

  datatype Secondary =
    | SecondaryNotEnoughData
    | NoSecondaryFactor
    | SecondaryFinding(factor: Factor, strength: Strength, stat: real)

  /** Factors whose diff is not noise, in table order. */
  function Survivors(d: Diffs): (s: seq<Factor>)
    ensures Distinct(s)
    ensures forall f :: f in s <==> Impact(d, f) >= 0.4
  {
    assert Distinct(Factors);
    FactorsListed();
    FilterDistinct(Factors, Clears(d));
    FilterMembers(Factors, Clears(d));
    Filter(Factors, Clears(d))
  }

  function Clears(d: Diffs): Factor -> bool {
    (f: Factor) => Impact(d, f) >= 0.4
  }

  function ByImpactDescending(d: Diffs): Factor -> real {
    (f: Factor) => -Impact(d, f)
  }

  /** The survivors, largest impact first (a stable sort). */
  function Ranked(d: Diffs): (r: seq<Factor>)
    ensures |r| == |Survivors(d)| && Distinct(r)
    ensures forall f :: f in r <==> Impact(d, f) >= 0.4
    ensures forall i, j :: 0 <= i < j < |r| ==> Impact(d, r[i]) >= Impact(d, r[j])
  {
    var s := Survivors(d);
    var r := Sorting.SortBy(s, ByImpactDescending(d));
    RankedFacts(d, s, r);
    r
  }

  lemma RankedFacts(d: Diffs, s: seq<Factor>, r: seq<Factor>)
    requires s == Survivors(d) && r == Sorting.SortBy(s, ByImpactDescending(d))
    ensures |r| == |s| && Distinct(r)
    ensures forall f :: f in r <==> Impact(d, f) >= 0.4
    ensures forall i, j :: 0 <= i < j < |r| ==> Impact(d, r[i]) >= Impact(d, r[j])
  {
    DistinctPermutation(s, r);
    forall f ensures f in r <==> f in s {
      assert f in r <==> f in multiset(r);
      assert f in s <==> f in multiset(s);
    }
    var key := ByImpactDescending(d);
    assert Sorting.SortedBy(r, key);
    forall i, j | 0 <= i < j < |r| ensures Impact(d, r[i]) >= Impact(d, r[j]) {
      assert key(r[i]) <= key(r[j]);
    }
  }

  /** The secondary-impact card: the second factor by impact among those of
      impact 0.4 or more, Moderate from 1.2 and Low below. */
  function SecondaryImpactInsight(n: nat, d: Diffs): (r: Secondary)
    ensures r.SecondaryNotEnoughData? <==> n < 4
    ensures r.NoSecondaryFactor? <==>
      (n >= 4 && forall f, g :: Impact(d, f) >= 0.4 && Impact(d, g) >= 0.4 ==> f == g)
    ensures r.SecondaryFinding? ==>
      && Impact(d, r.factor) >= 0.4
      && (exists g :: g != r.factor && Impact(d, g) >= Impact(d, r.factor)
            && forall h :: h != r.factor && h != g ==> Impact(d, h) <= Impact(d, r.factor))
      && (r.strength == Moderate <==> Impact(d, r.factor) >= 1.2)
      && (r.strength == Low <==> Impact(d, r.factor) < 1.2)
      && r.stat == ToFixed1(d.Of(r.factor))
  {
    if n < 4 then SecondaryNotEnoughData
    else
      var ranked := Ranked(d);
      if |ranked| < 2 then
        AtMostOneSurvivor(d, ranked);
        NoSecondaryFactor
      else
        var secondary := ranked[1];
        SecondaryIsSecond(d, ranked);
        SecondaryFinding(secondary, if Impact(d, secondary) >= 1.2 then Moderate else Low,
                         ToFixed1(d.Of(secondary)))
  }

  /** With fewer than two survivors no two distinct factors clear 0.4. */
  lemma AtMostOneSurvivor(d: Diffs, ranked: seq<Factor>)
    requires ranked == Ranked(d) && |ranked| < 2
    ensures forall f, g :: Impact(d, f) >= 0.4 && Impact(d, g) >= 0.4 ==> f == g
  {
    forall f, g | Impact(d, f) >= 0.4 && Impact(d, g) >= 0.4 ensures f == g {
      assert f in ranked && g in ranked;
    }
  }

  /** Exactly one factor ranks ahead of the second one, and every other
      factor has no larger impact. */
  lemma SecondaryIsSecond(d: Diffs, ranked: seq<Factor>)
    requires ranked == Ranked(d) && |ranked| >= 2
    ensures Impact(d, ranked[1]) >= 0.4 && !(forall f, g :: Impact(d, f) >= 0.4 && Impact(d, g) >= 0.4 ==> f == g)
    ensures ranked[0] != ranked[1] && Impact(d, ranked[0]) >= Impact(d, ranked[1])
    ensures forall h :: h != ranked[1] && h != ranked[0] ==> Impact(d, h) <= Impact(d, ranked[1])
  {
    assert ranked[0] in ranked && ranked[1] in ranked;
    forall h | h != ranked[1] && h != ranked[0] ensures Impact(d, h) <= Impact(d, ranked[1]) {
      if Impact(d, h) >= 0.4 {
        assert h in ranked;
        var k :| 0 <= k < |ranked| && ranked[k] == h;
        assert k >= 2;
      }
    }
  }

  /* -------------------- GentleSuggestionCard -------------------- */

  datatype Suggestion =
    | SuggestionNotEnoughData
    | FairlyBalanced
    | GentleNudge(factor: Factor)

  /** The suggestion card: the strongest factor when its diff reaches 0.5 in
      size (tone Gentle), otherwise the balanced message (tone Neutral). */
  function GentleSuggestion(n: nat, d: Diffs): (r: Suggestion)
    ensures r.SuggestionNotEnoughData? <==> n < 4
    ensures r.FairlyBalanced? <==> n >= 4 && forall f :: Impact(d, f) < 0.5
    ensures r.GentleNudge? ==>
      Impact(d, r.factor) >= 0.5 && forall g :: Impact(d, g) <= Impact(d, r.factor)
  {
    if n < 4 then SuggestionNotEnoughData
    else
      var strongest := Strongest(d, Factors);
      FactorsListed();
      if Impact(d, strongest) < 0.5 then FairlyBalanced
      else GentleNudge(strongest)
  }

  /** The suggestion always follows the root-cause card: both name the same
      factor, or both find no pattern. */
  lemma SuggestionFollowsRootCause(n: nat, d: Diffs)
    ensures RootCauseInsight(n, d).RootFinding? <==> GentleSuggestion(n, d).GentleNudge?
    ensures RootCauseInsight(n, d).RootFinding? ==>
      RootCauseInsight(n, d).factor == GentleSuggestion(n, d).factor
  {
  }

  /** The secondary factor is never the one the root-cause card reports
      when that one clears the noise bar strictly ahead of all others. */
  lemma SecondaryDiffersFromClearWinner(n: nat, d: Diffs, f: Factor)
    requires n >= 4
    requires Impact(d, f) >= 0.4
    requires forall g :: g != f ==> Impact(d, g) < Impact(d, f)
    ensures SecondaryImpactInsight(n, d).SecondaryFinding? ==> SecondaryImpactInsight(n, d).factor != f
  {
  }

  /* -------------------- the cards on journal rows -------------------- */

  /** The root-cause card on the rows: too little data below four rows;
      otherwise the factor whose mood difference is largest in size, once
      that size reaches 0.5. */
  function RootCauseCard(entries: seq<JournalRow>): (r: RootCause)
    ensures r.RootNotEnoughData? <==> |entries| < 4
    ensures r.NoStrongPattern? <==> |entries| >= 4 && forall f :: AbsReal(Diff(entries, f)) < 0.5
    ensures r.RootFinding? ==>
      && AbsReal(Diff(entries, r.factor)) >= 0.5
      && (forall g :: AbsReal(Diff(entries, g)) <= AbsReal(Diff(entries, r.factor)))
      && r.stat == ToFixed1(Diff(entries, r.factor))
  {
    var d := DiffsOf(entries);
    assert forall f :: Impact(d, f) == AbsReal(Diff(entries, f));
    RootCauseInsight(|entries|, d)
  }

  /** The secondary card on the rows: a factor whose mood difference is at
      least 0.4 in size with exactly one other factor ranked ahead of it. */
  function SecondaryImpactCard(entries: seq<JournalRow>): (r: Secondary)
    ensures r.SecondaryNotEnoughData? <==> |entries| < 4
    ensures r.SecondaryFinding? ==>
      && AbsReal(Diff(entries, r.factor)) >= 0.4
      && (exists g :: g != r.factor && AbsReal(Diff(entries, g)) >= AbsReal(Diff(entries, r.factor)))
      && r.stat == ToFixed1(Diff(entries, r.factor))
  {
    SecondaryImpactInsight(|entries|, DiffsOf(entries))
  }

  /** The suggestion card on the rows: a nudge towards the factor whose
      mood difference is largest in size, once that size reaches 0.5. */
  function GentleSuggestionCard(entries: seq<JournalRow>): (r: Suggestion)
    ensures r.SuggestionNotEnoughData? <==> |entries| < 4
    ensures r.FairlyBalanced? <==> |entries| >= 4 && forall f :: AbsReal(Diff(entries, f)) < 0.5
    ensures r.GentleNudge? ==>
      AbsReal(Diff(entries, r.factor)) >= 0.5 && forall g :: AbsReal(Diff(entries, g)) <= AbsReal(Diff(entries, r.factor))
  {
    var d := DiffsOf(entries);
    assert forall f :: Impact(d, f) == AbsReal(Diff(entries, f));
    GentleSuggestion(|entries|, d)
  }
}
