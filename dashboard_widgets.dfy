// The small dashboard widgets: the mood overview (average and volatility),
// the volatility bar, the activity ring, the weekly sleep ring and the
// exercise/mood comparison bars. Each widget's fetch is replaced by the rows
// it would receive; `None` stands for a failed query.
module DashboardWidgets {
  import opened Wrappers
  import opened Numeric
  import opened Journal
  import Dashboard

  // ---------------------------------------------------------------------
  // MoodOverviewHorizontal.tsx
  // ---------------------------------------------------------------------

  /** `averageMood`: null without entries, otherwise the mean mood (missing
      counted as 0) to one decimal. */
  function AverageMood(entries: seq<JournalRow>): (r: Option<real>)
    ensures r.None? <==> |entries| == 0
    ensures r.Some? ==> AbsReal(r.value - Mean(Dashboard.Moods(entries))) <= 0.05
  {
    if |entries| == 0 then None else Some(ToFixed1(Mean(Dashboard.Moods(entries))))
  }

  /** Moods logged inside [lo, hi] average inside [lo, hi]. */
  lemma AverageMoodBounds(entries: seq<JournalRow>, lo: nat, hi: int)
    requires |entries| > 0
    requires forall e :: e in entries ==> lo <= e.mood.Or(0) <= hi
    ensures lo as real <= AverageMood(entries).value <= hi as real
  {
    var m := Dashboard.Moods(entries);
    forall i | 0 <= i < |m| ensures lo <= m[i] <= hi {
      assert entries[i] in entries;
    }
    MeanBounds(m, lo, hi);
    ToFixedWithin(Mean(m), 10, lo, hi);
  }

  /** The overview's `moodVolatility`: the same loop as the dashboard page,
      with "0.00" below two entries. */
  method OverviewVolatility(entries: seq<JournalRow>) returns (vol: real)
    ensures |entries| < 2 ==> vol == 0.0
    ensures |entries| >= 2 ==> vol == ToFixed2(Dashboard.MeanAbsChange(entries))
  {
    if |entries| < 2 {
      ToFixed2OfInt(0);
      return ToFixed2(0.0);
    }
    var totalChange := Dashboard.TotalChange(Dashboard.Moods(entries));
    vol := ToFixed2(totalChange as real / (|entries| - 1) as real);
  }

  datatype MoodColor = Muted | Green | Yellow | Red

  /** `moodColor`: muted without an average, then green from 7, yellow from 4. */
  function MoodColorOf(averageMood: Option<real>): (c: MoodColor)
    ensures c == Muted <==> averageMood.None?
    ensures c == Green <==> averageMood.Some? && averageMood.value >= 7.0
    ensures c == Yellow <==> averageMood.Some? && 4.0 <= averageMood.value < 7.0
    ensures c == Red <==> averageMood.Some? && averageMood.value < 4.0
  {
    if averageMood.None? then Muted
    else if averageMood.value >= 7.0 then Green
    else if averageMood.value >= 4.0 then Yellow
    else Red
  }

  /** A week logged at 7 or more shows green; one logged below 4 shows red. */
  lemma MoodColorOfWeek(entries: seq<JournalRow>)
    requires |entries| > 0
    ensures (forall e :: e in entries ==> 7 <= e.mood.Or(0) <= 10) ==> MoodColorOf(AverageMood(entries)) == Green
    ensures (forall e :: e in entries ==> 0 <= e.mood.Or(0) <= 3) ==> MoodColorOf(AverageMood(entries)) == Red
  {
    if forall e :: e in entries ==> 7 <= e.mood.Or(0) <= 10 {
      AverageMoodBounds(entries, 7, 10);
    }
    if forall e :: e in entries ==> 0 <= e.mood.Or(0) <= 3 {
      AverageMoodBounds(entries, 0, 3);
    }
  }

  // ---------------------------------------------------------------------
  // MoodVolatilityLine.tsx
  // ---------------------------------------------------------------------

  datatype VolatilityLabel = Stable | Moderate | HighSwings

  /** The bar: the value clamped to [0, 6] as a percentage, and a level
      read from the unclamped value. */
  datatype VolatilityLine = VolatilityLine(percentage: real, level: VolatilityLabel)

  function VolatilityLineOf(value: real): (v: VolatilityLine)
    ensures 0.0 <= v.percentage <= 100.0
    ensures 0.0 <= value <= 6.0 ==> v.percentage * 6.0 == value * 100.0
    ensures value <= 0.0 ==> v.percentage == 0.0
    ensures value >= 6.0 ==> v.percentage == 100.0
    ensures v.level == Stable <==> value <= 2.0
    ensures v.level == Moderate <==> 2.0 < value <= 4.0
    ensures v.level == HighSwings <==> value > 4.0
  {
    var clamped := if value < 0.0 then 0.0 else if value > 6.0 then 6.0 else value;
    var percentage := (clamped / 6.0) * 100.0;
    var level := if value <= 2.0 then Stable else if value <= 4.0 then Moderate else HighSwings;
    VolatilityLine(percentage, level)
  }

  /** A larger volatility never moves the bar back. */
  lemma VolatilityLineMonotone(a: real, b: real)
    requires a <= b
    ensures VolatilityLineOf(a).percentage <= VolatilityLineOf(b).percentage
  {
  }

  // ---------------------------------------------------------------------
  // ActivityRing.tsx
  // ---------------------------------------------------------------------

  datatype Ring = Ring(completed: nat, remaining: nat)

  /** Days logged against the range: `remaining = max(0, range - completed)`. */
  function ActivityRing(entries: seq<JournalRow>, range: nat): (r: Ring)
    ensures r.completed == |entries|
    ensures r.completed <= range ==> r.completed + r.remaining == range
    ensures r.completed >= range ==> r.remaining == 0
  {
    Ring(|entries|, Max(0, range - |entries|))
  }

  // ---------------------------------------------------------------------
  // SleepConsistencyRing.tsx
  // ---------------------------------------------------------------------

  /** `goodSleepDays` over this week's rows; 0 when the query failed. */
  function GoodSleepDays(week: Option<seq<JournalRow>>): (k: nat)
    ensures week.None? ==> k == 0
    ensures week.Some? ==> k == Dashboard.GoodSleepDays(week.value) && k <= |week.value|
  {
    if week.None? then 0 else Dashboard.GoodSleepDays(week.value)
  }

  /** The ring: good nights against the seven days of the week. */
  function SleepRing(week: Option<seq<JournalRow>>): (r: Ring)
    ensures r.completed == GoodSleepDays(week)
    ensures r.completed <= 7 ==> r.completed + r.remaining == 7
    ensures r.completed >= 7 ==> r.remaining == 0
  {
    var good := GoodSleepDays(week);
    Ring(good, Max(0, 7 - good))
  }

  datatype RingColor = RingGreen | RingAmber | RingRed

  function SleepRingColor(goodSleepDays: nat): (c: RingColor)
    ensures c == RingGreen <==> goodSleepDays >= 5
    ensures c == RingAmber <==> 3 <= goodSleepDays < 5
    ensures c == RingRed <==> goodSleepDays < 3
  {
    if goodSleepDays >= 5 then RingGreen else if goodSleepDays >= 3 then RingAmber else RingRed
  }

  /** A week of at most seven rows always fills the ring exactly. */
  lemma SleepRingFillsWeek(week: seq<JournalRow>)
    requires |week| <= 7
    ensures SleepRing(Some(week)).completed + SleepRing(Some(week)).remaining == 7
  {
  }

  // ---------------------------------------------------------------------
  // ExerciseMoodComparison.tsx
  // ---------------------------------------------------------------------

  datatype BarKind = ExerciseDaysBar | NoExerciseBar
  datatype Bar = Bar(kind: BarKind, mood: real)

  predicate NotExercised(e: JournalRow) { !Exercised(e) }

  /** `avg(arr)`: 0 for an empty list, otherwise the mean. */
  function AvgOrZero(values: seq<int>): (m: real)
    ensures |values| == 0 ==> m == 0.0
    ensures |values| > 0 ==> m == Mean(values)
  {
    if |values| == 0 then 0.0 else Mean(values)
  }

  /** The two bars, or nothing for a failed query or fewer than three rows. */
  function ExerciseMoodBars(rows: Option<seq<JournalRow>>): (bars: seq<Bar>)
    ensures rows.None? || |rows.value| < 3 <==> bars == []
    ensures bars != [] ==> |bars| == 2 && bars[0].kind == ExerciseDaysBar && bars[1].kind == NoExerciseBar
    ensures bars != [] ==>
      var exercise := Filter(rows.value, Exercised);
      var rest := Filter(rows.value, NotExercised);
      |exercise| + |rest| == |rows.value|
      && AbsReal(bars[0].mood - AvgOrZero(Dashboard.Moods(exercise))) <= 0.05
      && AbsReal(bars[1].mood - AvgOrZero(Dashboard.Moods(rest))) <= 0.05
  {
    if rows.None? || |rows.value| < 3 then []
    else
      var exercise := Filter(rows.value, Exercised);
      var rest := Filter(rows.value, NotExercised);
      FilterPartition(rows.value, Exercised, NotExercised);
      [Bar(ExerciseDaysBar, ToFixed1(AvgOrZero(Dashboard.Moods(exercise)))),
       Bar(NoExerciseBar, ToFixed1(AvgOrZero(Dashboard.Moods(rest))))]
  }

  /** Without a single exercise day the exercise bar reads 0, and the other
      bar is the average of every row. */
  lemma NoExerciseWeek(rows: seq<JournalRow>)
    requires |rows| >= 3 && forall e :: e in rows ==> !Exercised(e)
    ensures ExerciseMoodBars(Some(rows))[0].mood == 0.0
    ensures ExerciseMoodBars(Some(rows))[1].mood == ToFixed1(Mean(Dashboard.Moods(rows)))
  {
    FilterNone(rows, Exercised);
    FilterAll(rows, NotExercised);
    ToFixed1OfZero();
  }

  lemma ToFixed1OfZero()
    ensures ToFixed1(0.0) == 0.0
  {
    RoundHalfUpOfInt(0);
  }
}
