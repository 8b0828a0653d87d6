// The risk level of src/app/dashboard/elements/RiskLevelBadge.tsx: a score
// from the last seven days' averages and the entry count of the current
// Monday-start week. "Today" is a day number given by the caller
// (day 0 is Thursday 1 January 1970).
module RiskBadge {
  import opened Wrappers
  import opened Numeric
  import opened Journal

  datatype Level = Low | Medium | High

  /** The first day of the Monday-start week that holds `today`. */
  function WeekStart(today: int): (start: int)
    ensures start <= today < start + 7
    ensures (start + 3) % 7 == 0
  {
    today - (today + 3) % 7
  }

  predicate IsRecent(today: int, e: JournalRow) { e.date >= today - 6 }

  function Recent(entries: seq<JournalRow>, today: int): (recent: seq<JournalRow>)
    ensures forall e :: e in recent <==> e in entries && e.date >= today - 6
  {
    var keep := (e: JournalRow) => IsRecent(today, e);
    FilterMembers(entries, keep);
    Filter(entries, keep)
  }

  /** `recent.reduce((s, e) => s + (e[key] ?? 0), 0) / recent.length`. */
  function AvgOrZero(recent: seq<JournalRow>, column: JournalRow -> Field<int>): real
    requires |recent| > 0
  {
    Mean(Map(recent, (e: JournalRow) => column(e).Or(0)))
  }

  function MoodColumn(e: JournalRow): Field<int> { e.mood }
  function StressColumn(e: JournalRow): Field<int> { e.stress_level }
  function SleepColumn(e: JournalRow): Field<int> { e.sleep_hours }

  predicate NegativeThoughts(e: JournalRow) { e.negative_thoughts == Value("Yes") }

  function WeekCount(entries: seq<JournalRow>, today: int): (n: nat)
    ensures n <= |entries|
  {
    |Filter(entries, (e: JournalRow) => WeekStart(today) <= e.date <= WeekStart(today) + 6)|
  }

  /** The four recent-window signals, each with its weight. */
  function SignalScore(recent: seq<JournalRow>): (s: nat)
    ensures s <= 7
    ensures |recent| == 0 ==> s == 0
  {
    if |recent| == 0 then 0
    else
      (if AvgOrZero(recent, MoodColumn) < 4.0 then 2 else 0)
      + (if AvgOrZero(recent, StressColumn) > 7.0 then 2 else 0)
      + (if exists e :: e in recent && NegativeThoughts(e) then 2 else 0)
      + (if AvgOrZero(recent, SleepColumn) < 6.0 then 1 else 0)
  }

  /** The whole score: the signals plus one for fewer than three entries this week. */
  function Score(entries: seq<JournalRow>, today: int): (s: nat)
    ensures s <= 8
  {
    SignalScore(Recent(entries, today)) + (if WeekCount(entries, today) < 3 then 1 else 0)
  }

  function LevelOf(score: int): (l: Level)
    ensures l == High <==> score >= 5
    ensures l == Medium <==> 3 <= score < 5
    ensures l == Low <==> score < 3
  {
    if score >= 5 then High else if score >= 3 then Medium else Low
  }

  /** The badge's useMemo: None ("Not enough data") without entries,
      otherwise the level of the accumulated score. */
  method Risk(entries: seq<JournalRow>, today: int) returns (risk: Option<Level>)
    ensures risk.None? <==> |entries| == 0
    ensures risk.Some? ==> risk.value == LevelOf(Score(entries, today))
  {
    if |entries| == 0 {
      return None;
    }
    var score := 0;
    var recent := Recent(entries, today);
    if |recent| > 0 {
      var avgMood := AvgOrZero(recent, MoodColumn);
      var avgStress := AvgOrZero(recent, StressColumn);
      var avgSleep := AvgOrZero(recent, SleepColumn);
      var hasNegativeThoughts := exists e :: e in recent && NegativeThoughts(e);
      if avgMood < 4.0 {
        score := score + 2;
      }
      if avgStress > 7.0 {
        score := score + 2;
      }
      if hasNegativeThoughts {
        score := score + 2;
      }
      if avgSleep < 6.0 {
        score := score + 1;
      }
    }
    assert score == SignalScore(recent);
    var weekCount := WeekCount(entries, today);
    if weekCount < 3 {
      score := score + 1;
    }
    if score >= 5 {
      return Some(High);
    }
    if score >= 3 {
      return Some(Medium);
    }
    return Some(Low);
  }

  /** Without an entry in the last seven days the badge is Low: only the
      weekly count can score. */
  lemma NothingRecentIsLow(entries: seq<JournalRow>, today: int)
    requires forall e :: e in entries ==> e.date < today - 6
    ensures LevelOf(Score(entries, today)) == Low
  {
  }

  /** A recent "Yes" to negative thoughts together with a low average mood
      makes the badge at least Medium. */
  lemma NegativeAndLowMoodAtLeastMedium(entries: seq<JournalRow>, today: int, e: JournalRow)
    requires e in entries && e.date >= today - 6 && NegativeThoughts(e)
    requires AvgOrZero(Recent(entries, today), MoodColumn) < 4.0
    ensures LevelOf(Score(entries, today)) != Low
  {
    assert e in Recent(entries, today);
  }

  /** A week of calm recent entries scores at most the weekly point. */
  lemma CalmWeekIsLow(entries: seq<JournalRow>, today: int)
    requires forall e :: e in entries ==>
      e.mood.Value? && e.mood.v >= 4 && e.stress_level.Value? && e.stress_level.v <= 7
      && e.sleep_hours.Value? && e.sleep_hours.v >= 6 && !NegativeThoughts(e)
    ensures LevelOf(Score(entries, today)) == Low
  {
    var recent := Recent(entries, today);
    if |recent| > 0 {
      ColumnMeanAtLeast(recent, MoodColumn, 4);
      ColumnMeanAtLeast(recent, SleepColumn, 6);
      ColumnMeanAtMost(recent, StressColumn, 7);
    }
  }

  lemma ColumnMeanAtLeast(recent: seq<JournalRow>, column: JournalRow -> Field<int>, lo: int)
    requires |recent| > 0 && forall e :: e in recent ==> column(e).Value? && column(e).v >= lo
    ensures AvgOrZero(recent, column) >= lo as real
  {
    var vs := Map(recent, (e: JournalRow) => column(e).Or(0));
    assert forall i :: 0 <= i < |vs| ==> recent[i] in recent;
    MeanAtLeast(vs, lo);
  }

  lemma ColumnMeanAtMost(recent: seq<JournalRow>, column: JournalRow -> Field<int>, hi: int)
    requires |recent| > 0 && forall e :: e in recent ==> column(e).Value? && column(e).v <= hi
    ensures AvgOrZero(recent, column) <= hi as real
  {
    var vs := Map(recent, (e: JournalRow) => column(e).Or(0));
    assert forall i :: 0 <= i < |vs| ==> recent[i] in recent;
    MeanAtMost(vs, hi);
  }
}
