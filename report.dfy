// The aggregation body of the GET handler in src/app/api/report/route.ts,
// lifted into a method of (rows, days): trend series, averages, the exercise
// habit, best and worst days, the risk block, insights and recommendations.
module Report {
  import opened Wrappers
  import opened Numeric
  import opened Journal
  import Sorting
  import UserSummary

  /* -------------------- query -------------------- */

  /** `days`: the query value when it is a finite number above zero (None
      stands for a value that is not finite), otherwise 365. */
  function ReportDays(raw: Option<real>): (days: real)
    ensures days > 0.0
    ensures raw.Some? && raw.value > 0.0 ==> days == raw.value
    ensures raw.None? || raw.value <= 0.0 ==> days == 365.0
  {
    if raw.Some? && raw.value > 0.0 then raw.value else 365.0
  }

  /* -------------------- trends -------------------- */

  datatype TrendPoint = TrendPoint(date: int, mood: Option<int>, sleep: Option<int>,
                                   stress: Option<int>, productivity: Option<int>)

  /** `field ?? null`. */
  function OrNull(f: Field<int>): (o: Option<int>)
    ensures o.Some? <==> f.Value?
    ensures o.Some? ==> o.value == f.v
  {
    if f.Value? then Some(f.v) else None
  }

  function RowDate(r: JournalRow): real { r.date as real }

  /** `[...entries].sort(by date)`. */
  function SortedEntries(entries: seq<JournalRow>): (sorted: seq<JournalRow>)
    ensures |sorted| == |entries| && multiset(sorted) == multiset(entries)
    ensures forall i, j :: 0 <= i < j < |sorted| ==> sorted[i].date <= sorted[j].date
  {
    var sorted := Sorting.SortBy(entries, RowDate);
    assert Sorting.SortedBy(sorted, RowDate);
    sorted
  }

  /** One point per row, in the rows' (date) order, with null for a missing value. */
  function Trends(sorted: seq<JournalRow>): (t: seq<TrendPoint>)
    ensures |t| == |sorted|
    ensures forall i :: 0 <= i < |t| ==> t[i].date == sorted[i].date
    ensures forall i :: 0 <= i < |t| ==>
      t[i].mood == OrNull(sorted[i].mood) && t[i].sleep == OrNull(sorted[i].sleep_hours)
      && t[i].stress == OrNull(sorted[i].stress_level) && t[i].productivity == OrNull(sorted[i].productivity)
  {
    Map(sorted, (e: JournalRow) => TrendPoint(e.date, OrNull(e.mood), OrNull(e.sleep_hours),
                                              OrNull(e.stress_level), OrNull(e.productivity)))
  }

  /** The trend series of the sorted rows runs in ascending date order. */
  lemma TrendsAscending(entries: seq<JournalRow>)
    ensures var t := Trends(SortedEntries(entries));
      |t| == |entries| && forall i, j :: 0 <= i < j < |t| ==> t[i].date <= t[j].date
  {
  }

  /* -------------------- averages -------------------- */

  datatype Key = MoodKey | SleepKey | StressKey | ProductivityKey | OverthinkingKey

  function Column(e: JournalRow, key: Key): Field<int> {
    match key
    case MoodKey => e.mood
    case SleepKey => e.sleep_hours
    case StressKey => e.stress_level
    case ProductivityKey => e.productivity
    case OverthinkingKey => e.overthinking
  }

  /** The values of a column over exactly the rows where it holds a number. */
  function ColumnValues(rows: seq<JournalRow>, key: Key): seq<int> {
    UserSummary.Numbers(Map(rows, (e: JournalRow) => Column(e, key)))
  }

  /** `typeof e[key] === "number"`. */
  function IsNumber(key: Key): JournalRow -> bool {
    (e: JournalRow) => Column(e, key).Value?
  }

  /** `e[key]` on a row that passed the filter. */
  function NumberOf(key: Key): JournalRow -> int {
    (e: JournalRow) => Column(e, key).Or(0)
  }

  /** `avg(key)`: the rows whose value is a number, then their mean. */
  function Avg(sorted: seq<JournalRow>, key: Key): (a: Option<real>)
    ensures a.None? <==> forall e :: e in sorted ==> !Column(e, key).Value?
    ensures a.Some? ==> ColumnValues(sorted, key) != [] && a.value == Mean(ColumnValues(sorted, key))
  {
    var valid := Filter(sorted, IsNumber(key));
    ValidValues(sorted, key);
    FilterMembers(sorted, IsNumber(key));
    if |valid| == 0 then
      assert forall e :: e in sorted ==> !Column(e, key).Value? by {
        forall e | e in sorted && Column(e, key).Value? ensures e in valid { }
      }
      None
    else
      assert valid[0] in valid;
      Some(Sum(Map(valid, NumberOf(key))) as real / |valid| as real)
  }

  lemma {:induction false} ValidValues(rows: seq<JournalRow>, key: Key)
    ensures Map(Filter(rows, IsNumber(key)), NumberOf(key)) == ColumnValues(rows, key)
  {
    if rows != [] {
      var init := rows[..|rows| - 1];
      ValidValues(init, key);
      assert Map(rows, (e: JournalRow) => Column(e, key))[..|rows| - 1]
             == Map(init, (e: JournalRow) => Column(e, key));
    }
  }

  /** The average lies between the smallest and largest value a row holds. */
  lemma AvgBounds(sorted: seq<JournalRow>, key: Key, lo: int, hi: int)
    requires forall e :: e in sorted && Column(e, key).Value? ==> lo <= Column(e, key).v <= hi
    requires Avg(sorted, key).Some?
    ensures lo as real <= Avg(sorted, key).value <= hi as real
  {
    var vs := ColumnValues(sorted, key);
    ValidValues(sorted, key);
    var valid := Filter(sorted, IsNumber(key));
    FilterMembers(sorted, IsNumber(key));
    assert forall i :: 0 <= i < |vs| ==> valid[i] in valid;
    MeanBounds(vs, lo, hi);
  }

  datatype Averages = Averages(mood: Option<real>, sleep_hours: Option<real>, productivity: Option<real>,
                               stress_level: Option<real>, overthinking: Option<real>)

  /* -------------------- habits -------------------- */

  datatype HabitTrend = HabitUp | HabitDown | HabitFlat
  datatype Habit = Habit(name: string, consistency: int, trend: HabitTrend)

  /** `getConsistency`: the percentage of exercise days, 0 for no days. */
  function HalfConsistency(days: seq<JournalRow>): (c: real)
    ensures 0.0 <= c <= 100.0
    ensures |days| > 0 && ExerciseDays(days) == |days| ==> c == 100.0
    ensures ExerciseDays(days) == 0 ==> c == 0.0
  {
    if |days| == 0 then 0.0
    else
      var count := ExerciseDays(days);
      Share(count, |days|);
      (100 * count) as real / |days| as real
  }

  /** The half-split trend: second-half percentage minus first-half
      percentage beyond a 5-point dead band. */
  function HabitTrendOf(sorted: seq<JournalRow>): (t: HabitTrend)
    ensures var diff := HalfConsistency(sorted[|sorted| / 2..]) - HalfConsistency(sorted[..|sorted| / 2]);
      (t == HabitUp <==> diff > 5.0) && (t == HabitDown <==> diff < -5.0)
  {
    var midpoint := |sorted| / 2;
    var diff := HalfConsistency(sorted[midpoint..]) - HalfConsistency(sorted[..midpoint]);
    if diff > 5.0 then HabitUp else if diff < -5.0 then HabitDown else HabitFlat
  }

  /** `Math.round(exerciseDays / totalDays * 100)`. */
  function ExerciseConsistency(sorted: seq<JournalRow>): (c: int)
    requires |sorted| > 0
    ensures 0 <= c <= 100
    ensures ExerciseDays(sorted) == |sorted| ==> c == 100
    ensures c == 0 ==> 200 * ExerciseDays(sorted) <= |sorted|
  {
    var exerciseDays := ExerciseDays(sorted);
    Share(exerciseDays, |sorted|);
    RoundHalfUp((100 * exerciseDays) as real / |sorted| as real)
  }

  /** The habit table: empty for no rows, else the single "Exercise" row. */
  function Habits(sorted: seq<JournalRow>): (h: seq<Habit>)
    ensures |sorted| == 0 <==> h == []
    ensures |sorted| > 0 ==> h == [Habit("Exercise", ExerciseConsistency(sorted), HabitTrendOf(sorted))]
  {
    if |sorted| == 0 then []
    else [Habit("Exercise", ExerciseConsistency(sorted), HabitTrendOf(sorted))]
  }

  /** With two rows or more, a habit kept every day or never is flat: both
      halves agree. */
  lemma SteadyHabitIsFlat(sorted: seq<JournalRow>)
    requires |sorted| >= 2
    requires (forall e :: e in sorted ==> Exercised(e)) || (forall e :: e in sorted ==> !Exercised(e))
    ensures HabitTrendOf(sorted) == HabitFlat
  {
    var mid := |sorted| / 2;
    var first, second := sorted[..mid], sorted[mid..];
    assert forall e :: e in first ==> e in sorted;
    assert forall e :: e in second ==> e in sorted;
    if forall e :: e in sorted ==> Exercised(e) {
      FilterAll(first, Exercised);
      FilterAll(second, Exercised);
    } else {
      FilterNone(first, Exercised);
      FilterNone(second, Exercised);
    }
  }

  /** A single row falls in the second half alone: one exercise day reads
      as an upward habit trend, one rest day as flat. */
  lemma OneDayHabitTrend(row: JournalRow)
    ensures HabitTrendOf([row]) == if Exercised(row) then HabitUp else HabitFlat
  {
    assert [row][1 / 2..] == [row];
    assert [row][..1 / 2] == [];
    assert [row][..0] == [];
  }

  /* -------------------- best and worst days -------------------- */

  /** The notes `toDaySummary` can attach to a day, in push order. */
  datatype Note = LowSleep | HighStress | HighProductivity | HighOverthinking

  function Label(n: Note): string {
    match n
    case LowSleep => "Low sleep"
    case HighStress => "High stress"
    case HighProductivity => "High productivity"
    case HighOverthinking => "High overthinking"
  }

  datatype DaySummary = DaySummary(date: int, mood: int, sleepHours: int, notes: seq<Note>)

  const AllNotes: seq<Note> := [LowSleep, HighStress, HighProductivity, HighOverthinking]

  /** Each note's guard: the value is a number and crosses its threshold. */
  predicate NoteHolds(e: JournalRow, note: Note) {
    match note
    case LowSleep => e.sleep_hours.Value? && e.sleep_hours.v < 6
    case HighStress => e.stress_level.Value? && e.stress_level.v > 6
    case HighProductivity => e.productivity.Value? && e.productivity.v >= 7
    case HighOverthinking => e.overthinking.Value? && e.overthinking.v > 6
  }

  function NoteOf(e: JournalRow): Note -> bool {
    (note: Note) => NoteHolds(e, note)
  }

  /** The notes pushed by `toDaySummary`: exactly the notes that hold, in
      the fixed order. */
  function Notes(e: JournalRow): (notes: seq<Note>)
    ensures notes == Filter(AllNotes, NoteOf(e))
  {
    Filter4(LowSleep, HighStress, HighProductivity, HighOverthinking, NoteOf(e));
    (if e.sleep_hours.Value? && e.sleep_hours.v < 6 then [LowSleep] else [])
    + (if e.stress_level.Value? && e.stress_level.v > 6 then [HighStress] else [])
    + (if e.productivity.Value? && e.productivity.v >= 7 then [HighProductivity] else [])
    + (if e.overthinking.Value? && e.overthinking.v > 6 then [HighOverthinking] else [])
  }

  /** `toDaySummary` on a row whose mood is a number. */
  function ToDaySummary(e: JournalRow): (d: DaySummary)
    requires e.mood.Value?
    ensures d.date == e.date && d.mood == e.mood.v
    ensures d.sleepHours == e.sleep_hours.Or(0)
    ensures d.notes == Notes(e)
  {
    DaySummary(e.date, e.mood.v, e.sleep_hours.Or(0), Notes(e))
  }

  predicate HasMood(e: JournalRow) { e.mood.Value? }

  function MoodDays(sorted: seq<JournalRow>): (md: seq<JournalRow>)
    ensures forall e :: e in md <==> e in sorted && e.mood.Value?
  {
    FilterMembers(sorted, HasMood);
    Filter(sorted, HasMood)
  }

  function MoodDesc(e: JournalRow): real { -(e.mood.Or(0) as real) }
  function MoodAsc(e: JournalRow): real { e.mood.Or(0) as real }

  function Take3<T>(s: seq<T>): (r: seq<T>)
    ensures |r| == Min(3, |s|) && r == s[..|r|]
  {
    if |s| <= 3 then s else s[..3]
  }

  function Summaries(days: seq<JournalRow>): (r: seq<DaySummary>)
    requires forall e :: e in days ==> e.mood.Value?
    ensures |r| == |days| && forall i :: 0 <= i < |r| ==> r[i] == ToDaySummary(days[i])
  {
    seq(|days|, i requires 0 <= i < |days| => ToDaySummary(days[i]))
  }

  /** The first three rows of the stable sort by `key`, as day summaries. */
  function Podium(moodDays: seq<JournalRow>, key: JournalRow -> real): (top: seq<DaySummary>)
    requires forall e :: e in moodDays ==> e.mood.Value?
    ensures |top| == Min(3, |moodDays|)
    ensures forall i :: 0 <= i < |top| ==> exists e :: e in moodDays && top[i] == ToDaySummary(e)
  {
    var sorted := Sorting.SortBy(moodDays, key);
    TopThree(moodDays, key, sorted);
    var top := Summaries(Take3(sorted));
    assert forall i :: 0 <= i < |top| ==> sorted[i] in moodDays && top[i] == ToDaySummary(sorted[i]);
    top
  }

  /** The podium is the head of the sorted rows: in key order, and every
      row left off keys at or after the third. */
  lemma PodiumRanked(moodDays: seq<JournalRow>, key: JournalRow -> real)
    requires forall e :: e in moodDays ==> e.mood.Value?
    ensures var sorted := Sorting.SortBy(moodDays, key); var top := Podium(moodDays, key);
      && (forall i :: 0 <= i < |top| ==> sorted[i] in moodDays && top[i] == ToDaySummary(sorted[i]))
      && (forall i, j :: 0 <= i < j < |top| ==> key(sorted[i]) <= key(sorted[j]))
      && (|top| == 3 ==> forall e :: e in moodDays ==> key(sorted[2]) <= key(e) || ToDaySummary(e) in top)
  {
    var sorted := Sorting.SortBy(moodDays, key);
    var top := Podium(moodDays, key);
    TopThree(moodDays, key, sorted);
    assert forall i :: 0 <= i < |top| ==> top[i] == ToDaySummary(sorted[i]);
    if |top| == 3 {
      forall e | e in moodDays ensures key(sorted[2]) <= key(e) || ToDaySummary(e) in top {
        if e in sorted[..3] {
          var j :| 0 <= j < 3 && sorted[..3][j] == e;
          assert top[j] == ToDaySummary(e);
        }
      }
    }
  }

  lemma SummaryIn(moodDays: seq<JournalRow>, e: JournalRow)
    requires forall e :: e in moodDays ==> e.mood.Value?
    requires e in moodDays
    ensures ToDaySummary(e) in Summaries(moodDays)
  {
    var j :| 0 <= j < |moodDays| && moodDays[j] == e;
    assert Summaries(moodDays)[j] == ToDaySummary(e);
  }

  /** The three highest-mood days, highest first; ties keep date order. */
  function BestDays(moodDays: seq<JournalRow>): (best: seq<DaySummary>)
    requires forall e :: e in moodDays ==> e.mood.Value?
    ensures |best| == Min(3, |moodDays|)
  {
    var top := Podium(moodDays, MoodDesc);
    assert |top| == Min(3, |moodDays|);
    top
  }

  /** The best days fall in mood, and no day left off beats the third. */
  lemma BestDaysRanked(moodDays: seq<JournalRow>)
    requires forall e :: e in moodDays ==> e.mood.Value?
    ensures var best := BestDays(moodDays);
      && (forall i :: 0 <= i < |best| ==> best[i] in Summaries(moodDays))
      && (forall i, j :: 0 <= i < j < |best| ==> best[i].mood >= best[j].mood)
      && (|best| == 3 ==> forall e :: e in moodDays ==> e.mood.v <= best[2].mood || ToDaySummary(e) in best)
  {
    PodiumRanked(moodDays, MoodDesc);
    var sorted := Sorting.SortBy(moodDays, MoodDesc);
    var best := BestDays(moodDays);
    forall i | 0 <= i < |best| ensures best[i] in Summaries(moodDays) {
      SummaryIn(moodDays, sorted[i]);
    }
  }

  /** The three lowest-mood days, lowest first; ties keep date order. */
  function WorstDays(moodDays: seq<JournalRow>): (worst: seq<DaySummary>)
    requires forall e :: e in moodDays ==> e.mood.Value?
    ensures |worst| == Min(3, |moodDays|)
  {
    var top := Podium(moodDays, MoodAsc);
    assert |top| == Min(3, |moodDays|);
    top
  }

  /** The worst days rise in mood, and no day left off is below the third. */
  lemma WorstDaysRanked(moodDays: seq<JournalRow>)
    requires forall e :: e in moodDays ==> e.mood.Value?
    ensures var worst := WorstDays(moodDays);
      && (forall i :: 0 <= i < |worst| ==> worst[i] in Summaries(moodDays))
      && (forall i, j :: 0 <= i < j < |worst| ==> worst[i].mood <= worst[j].mood)
      && (|worst| == 3 ==> forall e :: e in moodDays ==> e.mood.v >= worst[2].mood || ToDaySummary(e) in worst)
  {
    PodiumRanked(moodDays, MoodAsc);
    var sorted := Sorting.SortBy(moodDays, MoodAsc);
    var worst := WorstDays(moodDays);
    forall i | 0 <= i < |worst| ensures worst[i] in Summaries(moodDays) {
      SummaryIn(moodDays, sorted[i]);
    }
  }

  /** What the sort gives the first three places: members of the input,
      with every other row keyed at or after the third. */
  lemma TopThree(moodDays: seq<JournalRow>, key: JournalRow -> real, sorted: seq<JournalRow>)
    requires sorted == Sorting.SortBy(moodDays, key)
    ensures forall i :: 0 <= i < |sorted| ==> sorted[i] in moodDays
    ensures |sorted| >= 3 ==> forall e :: e in moodDays ==> key(sorted[2]) <= key(e) || e in sorted[..3]
  {
    forall i | 0 <= i < |sorted| ensures sorted[i] in moodDays {
      assert sorted[i] in multiset(sorted);
    }
    if |sorted| >= 3 {
      forall e | e in moodDays ensures key(sorted[2]) <= key(e) || e in sorted[..3] {
        assert e in multiset(moodDays);
        var j :| 0 <= j < |sorted| && sorted[j] == e;
        if j < 3 {
          assert sorted[..3][j] == e;
        }
      }
    }
  }

  /* -------------------- risk -------------------- */

  datatype Overall = Stable | ModerateRisk | HighRisk
  datatype Risk = Risk(moodVolatility: int, sleepRegularity: int, stressConsistency: int, overall: Overall)

  /** `moodVolatility`: the mean absolute day-over-day mood change times 20,
      rounded and capped at 100; 0 with fewer than two moods. */
  function MoodVolatility(moods: seq<int>): (v: int)
    ensures 0 <= v <= 100
    ensures |moods| < 2 ==> v == 0
  {
    if |moods| > 1 then
      var x := (20 * SumAbsDiff(moods)) as real / (|moods| - 1) as real;
      DivAtLeast(20 * SumAbsDiff(moods), |moods| - 1, 0);
      RoundHalfUpMonotone(0.0, x);
      RoundHalfUpOfInt(0);
      Min(100, RoundHalfUp(x))
    else 0
  }

  /** `sleepRegularity`: 100 minus ten times the summed absolute changes
      (not divided by the number of days), floored at 0; 100 with fewer than
      two values. */
  function SleepRegularity(sleeps: seq<int>): (r: int)
    ensures 0 <= r <= 100
    ensures |sleeps| < 2 ==> r == 100
  {
    if |sleeps| > 1 then
      RoundHalfUpOfInt(SumAbsDiff(sleeps) * 10);
      Max(0, 100 - RoundHalfUp((SumAbsDiff(sleeps) * 10) as real))
    else 100
  }

  /** Steady moods score 0; moods that swing by 5 or more every day
      saturate the score at 100. */
  lemma MoodVolatilityExtremes(moods: seq<int>)
    ensures (forall i, j :: 0 <= i < j < |moods| ==> moods[i] == moods[j]) ==> MoodVolatility(moods) == 0
    ensures |moods| >= 2 && (forall i :: 1 <= i < |moods| ==> Abs(moods[i] - moods[i - 1]) >= 5)
            ==> MoodVolatility(moods) == 100
  {
    if forall i, j :: 0 <= i < j < |moods| ==> moods[i] == moods[j] {
      SumAbsDiffConstant(moods);
      RoundHalfUpOfInt(0);
    }
    if |moods| >= 2 && (forall i :: 1 <= i < |moods| ==> Abs(moods[i] - moods[i - 1]) >= 5) {
      SumAbsDiffAtLeast(moods, 5);
      var n := |moods| - 1;
      DivAtLeast(20 * SumAbsDiff(moods), n, 100);
      RoundHalfUpMonotone(100.0, (20 * SumAbsDiff(moods)) as real / n as real);
      RoundHalfUpOfInt(100);
    }
  }

  /** Steady sleep is fully regular; ten hours of total change or more
      drive the score to 0, however long the window. */
  lemma SleepRegularityExtremes(sleeps: seq<int>)
    ensures (forall i, j :: 0 <= i < j < |sleeps| ==> sleeps[i] == sleeps[j]) ==> SleepRegularity(sleeps) == 100
    ensures |sleeps| >= 2 && SumAbsDiff(sleeps) >= 10 ==> SleepRegularity(sleeps) == 0
  {
    if forall i, j :: 0 <= i < j < |sleeps| ==> sleeps[i] == sleeps[j] {
      SumAbsDiffConstant(sleeps);
      RoundHalfUpOfInt(0);
    }
    RoundHalfUpOfInt(SumAbsDiff(sleeps) * 10);
  }

  /** `overall`: high above 60, moderate above 35, else stable. */
  function OverallOf(moodVolatility: int): (o: Overall)
    ensures o == HighRisk <==> moodVolatility > 60
    ensures o == ModerateRisk <==> 35 < moodVolatility <= 60
    ensures o == Stable <==> moodVolatility <= 35
  {
    if moodVolatility > 60 then HighRisk else if moodVolatility > 35 then ModerateRisk else Stable
  }

  /* -------------------- insights and recommendations -------------------- */

  /** The statistics the rule tables read. */
  datatype RuleInputs = RuleInputs(avgMood: Option<real>, moodVolatility: int, avgOverthinking: Option<real>,
                                   avgSleep: Option<real>, avgStress: Option<real>,
                                   exerciseConsistency: Option<int>)

  predicate Above(a: Option<real>, t: real) { a.Some? && a.value > t }
  predicate Below(a: Option<real>, t: real) { a.Some? && a.value < t }

  datatype Confidence = LowConfidence | MediumConfidence | HighConfidence

  /** The insight rules, in push order. */
  datatype Insight = MoodHigh | Fluctuation | FrequentOverthinking | ShortSleep | SustainedStress

  function InsightText(ins: Insight): string {
    match ins
    case MoodHigh => "Your overall mood is trending high. This correlates with your current routines."
    case Fluctuation => "Significant mood fluctuations detected. Consider identifying external triggers."
    case FrequentOverthinking => "High levels of overthinking are being reported frequently."
    case ShortSleep => "Your average sleep duration is low. Poor sleep may be affecting mood and focus."
    case SustainedStress => "Stress levels have been consistently high during this period."
  }

  function InsightConfidence(ins: Insight): Confidence {
    match ins
    case Fluctuation | ShortSleep => HighConfidence
    case _ => MediumConfidence
  }

  const AllInsights: seq<Insight> := [MoodHigh, Fluctuation, FrequentOverthinking, ShortSleep, SustainedStress]

  predicate InsightHolds(s: RuleInputs, ins: Insight) {
    match ins
    case MoodHigh => Above(s.avgMood, 7.0)
    case Fluctuation => s.moodVolatility > 40
    case FrequentOverthinking => Above(s.avgOverthinking, 6.0)
    case ShortSleep => Below(s.avgSleep, 6.0)
    case SustainedStress => Above(s.avgStress, 6.0)
  }

  lemma AllInsightsListed()
    ensures forall ins :: ins in AllInsights
  {
    forall ins: Insight ensures ins in AllInsights {
      match ins
      case MoodHigh => assert AllInsights[0] == ins;
      case Fluctuation => assert AllInsights[1] == ins;
      case FrequentOverthinking => assert AllInsights[2] == ins;
      case ShortSleep => assert AllInsights[3] == ins;
      case SustainedStress => assert AllInsights[4] == ins;
    }
  }

  function InsightRule(s: RuleInputs): Insight -> bool {
    (ins: Insight) => InsightHolds(s, ins)
  }

  /** The insights that fire: each one exactly when its rule holds, in table order. */
  function FiredInsights(s: RuleInputs): (fired: seq<Insight>)
    ensures forall ins :: ins in fired <==> InsightHolds(s, ins)
    ensures |fired| <= 5
  {
    AllInsightsListed();
    FilterMembers(AllInsights, InsightRule(s));
    Filter(AllInsights, InsightRule(s))
  }

  /** The recommendation rules, in push order, and the fallback. */
  datatype Recommendation = SleepSchedule | TrackTriggers | Mindfulness | MoreActivity | KeepRoutine

  function RecommendationText(rec: Recommendation): string {
    match rec
    case SleepSchedule => "Prioritize a consistent sleep schedule to improve cognitive function."
    case TrackTriggers => "Consider tracking triggers for mood shifts to identify patterns."
    case Mindfulness => "Incorporate short mindfulness or breathing exercises during high-stress windows."
    case MoreActivity => "Increasing physical activity frequency may help stabilize your mood."
    case KeepRoutine => "Maintain your current routines; consistency is key to your recent stability."
  }

  const AllRecommendations: seq<Recommendation> := [SleepSchedule, TrackTriggers, Mindfulness, MoreActivity]

  predicate RecommendationHolds(s: RuleInputs, rec: Recommendation) {
    match rec
    case SleepSchedule => Below(s.avgSleep, 7.0)
    case TrackTriggers => s.moodVolatility > 50
    case Mindfulness => Above(s.avgStress, 7.0)
    case MoreActivity => s.exerciseConsistency.Some? && s.exerciseConsistency.value < 40
    case KeepRoutine => false
  }

  function RecommendationRule(s: RuleInputs): Recommendation -> bool {
    (rec: Recommendation) => RecommendationHolds(s, rec)
  }

  /** The recommendation rules that fire, in table order. */
  function FiredRecommendations(s: RuleInputs): (fired: seq<Recommendation>)
    ensures forall rec :: rec in fired <==> RecommendationHolds(s, rec)
    ensures KeepRoutine !in fired
  {
    assert forall rec :: rec != KeepRoutine ==> rec in AllRecommendations;
    FilterMembers(AllRecommendations, RecommendationRule(s));
    Filter(AllRecommendations, RecommendationRule(s))
  }

  /** The recommendations: the fired rules, or the single fallback when
      none fires. */
  function Recommendations(s: RuleInputs): (recs: seq<Recommendation>)
    ensures recs != []
    ensures recs == [KeepRoutine] <==> FiredRecommendations(s) == []
    ensures FiredRecommendations(s) != [] ==> recs == FiredRecommendations(s)
  {
    var fired := FiredRecommendations(s);
    if fired == [] then [KeepRoutine]
    else
      assert fired[0] in fired;
      fired
  }

  /** The fallback is given exactly when sleep averages at least 7 (or is
      unknown), volatility is at most 50, stress at most 7 (or unknown) and
      exercise consistency at least 40 (or there are no rows). */
  lemma FallbackIff(s: RuleInputs)
    ensures Recommendations(s) == [KeepRoutine] <==>
      !Below(s.avgSleep, 7.0) && s.moodVolatility <= 50 && !Above(s.avgStress, 7.0)
      && !(s.exerciseConsistency.Some? && s.exerciseConsistency.value < 40)
  {
    var fired := FiredRecommendations(s);
    if fired != [] {
      assert fired[0] in fired;
    } else {
      assert SleepSchedule !in fired && TrackTriggers !in fired && Mindfulness !in fired && MoreActivity !in fired;
    }
  }

  /** The insight table unrolled, rule by rule in order. */
  lemma InsightTable(s: RuleInputs)
    ensures FiredInsights(s) ==
      (if Above(s.avgMood, 7.0) then [MoodHigh] else [])
      + (if s.moodVolatility > 40 then [Fluctuation] else [])
      + (if Above(s.avgOverthinking, 6.0) then [FrequentOverthinking] else [])
      + (if Below(s.avgSleep, 6.0) then [ShortSleep] else [])
      + (if Above(s.avgStress, 6.0) then [SustainedStress] else [])
  {
    Filter5(MoodHigh, Fluctuation, FrequentOverthinking, ShortSleep, SustainedStress, InsightRule(s));
  }

  /** The recommendation table unrolled, rule by rule in order. */
  lemma RecommendationTable(s: RuleInputs)
    ensures FiredRecommendations(s) ==
      (if Below(s.avgSleep, 7.0) then [SleepSchedule] else [])
      + (if s.moodVolatility > 50 then [TrackTriggers] else [])
      + (if Above(s.avgStress, 7.0) then [Mindfulness] else [])
      + (if s.exerciseConsistency.Some? && s.exerciseConsistency.value < 40 then [MoreActivity] else [])
  {
    Filter4(SleepSchedule, TrackTriggers, Mindfulness, MoreActivity, RecommendationRule(s));
  }

  /** `insights.push` rule by rule. */
  method PushInsights(s: RuleInputs) returns (insights: seq<Insight>)
    ensures insights == FiredInsights(s)
  {
    ghost var a := if Above(s.avgMood, 7.0) then [MoodHigh] else [];
    ghost var b := if s.moodVolatility > 40 then [Fluctuation] else [];
    ghost var c := if Above(s.avgOverthinking, 6.0) then [FrequentOverthinking] else [];
    ghost var d := if Below(s.avgSleep, 6.0) then [ShortSleep] else [];
    insights := [];
    if s.avgMood.Some? && s.avgMood.value > 7.0 {
      insights := insights + [MoodHigh];
    }
    assert insights == a;
    if s.moodVolatility > 40 {
      insights := insights + [Fluctuation];
    }
    assert insights == a + b;
    if s.avgOverthinking.Some? && s.avgOverthinking.value > 6.0 {
      insights := insights + [FrequentOverthinking];
    }
    assert insights == a + b + c;
    if s.avgSleep.Some? && s.avgSleep.value < 6.0 {
      insights := insights + [ShortSleep];
    }
    assert insights == a + b + c + d;
    if s.avgStress.Some? && s.avgStress.value > 6.0 {
      insights := insights + [SustainedStress];
    }
    InsightTable(s);
  }

  /** `recommendations.push` rule by rule, then the fallback when empty. */
  method PushRecommendations(s: RuleInputs) returns (recommendations: seq<Recommendation>)
    ensures recommendations == Recommendations(s)
  {
    ghost var a := if Below(s.avgSleep, 7.0) then [SleepSchedule] else [];
    ghost var b := if s.moodVolatility > 50 then [TrackTriggers] else [];
    ghost var c := if Above(s.avgStress, 7.0) then [Mindfulness] else [];
    recommendations := [];
    if s.avgSleep.Some? && s.avgSleep.value < 7.0 {
      recommendations := recommendations + [SleepSchedule];
    }
    assert recommendations == a;
    if s.moodVolatility > 50 {
      recommendations := recommendations + [TrackTriggers];
    }
    assert recommendations == a + b;
    if s.avgStress.Some? && s.avgStress.value > 7.0 {
      recommendations := recommendations + [Mindfulness];
    }
    assert recommendations == a + b + c;
    if s.exerciseConsistency.Some? && s.exerciseConsistency.value < 40 {
      recommendations := recommendations + [MoreActivity];
    }
    RecommendationTable(s);
    assert recommendations == FiredRecommendations(s);
    if |recommendations| == 0 {
      recommendations := recommendations + [KeepRoutine];
    }
  }

  /* -------------------- the handler body -------------------- */

  datatype ReportData = ReportData(
    totalDays: nat,
    averages: Averages,
    habits: seq<Habit>,
    trends: seq<TrendPoint>,
    bestDays: seq<DaySummary>,
    worstDays: seq<DaySummary>,
    risk: Risk,
    insights: seq<Insight>,
    recommendations: seq<Recommendation>)

  /** The habit table as the handler builds it: one push when there are rows. */
  method HabitRows(sorted: seq<JournalRow>) returns (habits: seq<Habit>)
    ensures habits == Habits(sorted)
  {
    habits := [];
    if |sorted| > 0 {
      var exerciseConsistency := ExerciseConsistency(sorted);
      var trend := HabitFlat;
      var midpoint := |sorted| / 2;
      var diff := HalfConsistency(sorted[midpoint..]) - HalfConsistency(sorted[..midpoint]);
      if diff > 5.0 {
        trend := HabitUp;
      } else if diff < -5.0 {
        trend := HabitDown;
      }
      habits := habits + [Habit("Exercise", exerciseConsistency, trend)];
    }
  }

  /** The risk block: stress consistency is the complement of mood volatility. */
  function RiskOf(moodVolatility: int, sleepRegularity: int): (r: Risk)
    ensures r.stressConsistency + r.moodVolatility == 100
    ensures r.moodVolatility == moodVolatility && r.sleepRegularity == sleepRegularity
    ensures r.overall == OverallOf(moodVolatility)
  {
    Risk(moodVolatility, sleepRegularity, 100 - moodVolatility, OverallOf(moodVolatility))
  }

  /** The body of the GET handler after the rows are fetched. */
  method BuildReport(entries: seq<JournalRow>) returns (report: ReportData)
    ensures var sorted := SortedEntries(entries);
      var moodVolatility := MoodVolatility(ColumnValues(sorted, MoodKey));
      && report.totalDays == |entries|
      && report.trends == Trends(sorted)
      && report.averages == Averages(Avg(sorted, MoodKey), Avg(sorted, SleepKey), Avg(sorted, ProductivityKey),
                                     Avg(sorted, StressKey), Avg(sorted, OverthinkingKey))
      && report.habits == Habits(sorted)
      && report.bestDays == BestDays(MoodDays(sorted))
      && report.worstDays == WorstDays(MoodDays(sorted))
      && report.risk == RiskOf(moodVolatility, SleepRegularity(ColumnValues(sorted, SleepKey)))
      && report.insights == FiredInsights(RuleInputs(Avg(sorted, MoodKey), moodVolatility, Avg(sorted, OverthinkingKey),
                                                     Avg(sorted, SleepKey), Avg(sorted, StressKey),
                                                     if |sorted| > 0 then Some(ExerciseConsistency(sorted)) else None))
      && report.recommendations == Recommendations(RuleInputs(Avg(sorted, MoodKey), moodVolatility, Avg(sorted, OverthinkingKey),
                                                     Avg(sorted, SleepKey), Avg(sorted, StressKey),
                                                     if |sorted| > 0 then Some(ExerciseConsistency(sorted)) else None))
  {
    var sorted := SortedEntries(entries);
    var trends := Trends(sorted);
    var habits := HabitRows(sorted);

    var moodDays := MoodDays(sorted);
    var bestDays := BestDays(moodDays);
    var worstDays := WorstDays(moodDays);

    var moodVolatility := MoodVolatility(ColumnValues(sorted, MoodKey));
    var sleepRegularity := SleepRegularity(ColumnValues(sorted, SleepKey));

    var avgMood := Avg(sorted, MoodKey);
    var avgSleep := Avg(sorted, SleepKey);
    var avgStress := Avg(sorted, StressKey);
    var avgOverthinking := Avg(sorted, OverthinkingKey);
    var inputs := RuleInputs(avgMood, moodVolatility, avgOverthinking, avgSleep, avgStress,
                             if |habits| > 0 then Some(habits[0].consistency) else None);
    var insights := PushInsights(inputs);
    var recommendations := PushRecommendations(inputs);

    report := ReportData(
      |entries|,
      Averages(avgMood, avgSleep, Avg(sorted, ProductivityKey), avgStress, avgOverthinking),
      habits, trends, bestDays, worstDays,
      RiskOf(moodVolatility, sleepRegularity),
      insights, recommendations);
  }
}
