// The derived metrics of the dashboard page (src/app/dashboard/page.tsx):
// the range filter, the exercise-tag pie, mood volatility, best and worst
// day, and the sleep and exercise consistency percentages. The current
// instant is given by the caller, in milliseconds since the epoch.
module Dashboard {
  import opened Wrappers
  import opened Numeric
  import opened Journal
  import Text

  /** Milliseconds in a day. */
  const DayMs: int := 86_400_000

  /** `new Date(entry.date)` on a `YYYY-MM-DD` string: midnight UTC of that
      day, in milliseconds since the epoch (day 0). */
  function DayStart(day: int): int {
    day * DayMs
  }

  /** The cutoff: the current instant `now` moved back range − 1 days, so
      it keeps the time of day `now` has. */
  function Cutoff(now: int, range: int): int {
    now - (range - 1) * DayMs
  }

  /** The filter's test: the entry's midnight lies between the cutoff and
      the current instant, both included. */
  predicate InWindow(now: int, range: int, e: JournalRow) {
    Cutoff(now, range) <= DayStart(e.date) <= now
  }

  /** The first day the filter keeps: the cutoff's own day when the range
      is asked for exactly at midnight, otherwise the day after it, because
      that day's midnight lies before the cutoff. The last day kept is
      always the current one. */
  function FirstDayKept(now: int, range: int): int {
    if now % DayMs == 0 then now / DayMs - range + 1 else now / DayMs - range + 2
  }

  /** In days: an entry passes exactly when it is dated from FirstDayKept to
      the current day. At any time after midnight that leaves range − 1
      calendar days, the oldest day of the range being dropped. */
  lemma InWindowDays(now: int, range: int, e: JournalRow)
    ensures InWindow(now, range, e) <==> FirstDayKept(now, range) <= e.date <= now / DayMs
    ensures now % DayMs != 0 ==> (InWindow(now, range, e) <==> now / DayMs - range + 2 <= e.date <= now / DayMs)
  {
    var today, tod := now / DayMs, now % DayMs;
    assert now == today * DayMs + tod && 0 <= tod < DayMs;
  }

  /** With the 7-day range at ten in the morning, a week-old entry (dated
      six days back) is dropped and one dated five days back is kept. */
  lemma SevenDayRangeAtTen(today: int, weekOld: JournalRow, recent: JournalRow)
    requires weekOld.date == today - 6 && recent.date == today - 5
    ensures var now := today * DayMs + 36_000_000;
      !InWindow(now, 7, weekOld) && InWindow(now, 7, recent)
  {
  }

  /** `filteredEntries`: the entries whose day passes the filter, in their
      order. */
  function FilteredEntries(entries: seq<JournalRow>, now: int, range: int): (r: seq<JournalRow>)
    ensures forall e :: e in r <==> e in entries && FirstDayKept(now, range) <= e.date <= now / DayMs
    ensures |r| <= |entries|
  {
    if |entries| == 0 then []
    else
      var keep := (e: JournalRow) => InWindow(now, range, e);
      FilterMembers(entries, keep);
      forall e | e in entries ensures keep(e) <==> FirstDayKept(now, range) <= e.date <= now / DayMs {
        InWindowDays(now, range, e);
      }
      Filter(entries, keep)
  }

  /** A longer range keeps every entry a shorter one keeps. */
  lemma WiderRangeKeepsMore(entries: seq<JournalRow>, now: int, short: int, long: int)
    requires short <= long
    ensures |FilteredEntries(entries, now, short)| <= |FilteredEntries(entries, now, long)|
  {
    if |entries| > 0 {
      FilterMonotone(entries, (e: JournalRow) => InWindow(now, short, e), (e: JournalRow) => InWindow(now, long, e));
    }
  }

  /** Filtering twice with the same range and instant changes nothing. */
  lemma FilterIdempotent(entries: seq<JournalRow>, now: int, range: int)
    ensures FilteredEntries(FilteredEntries(entries, now, range), now, range) == FilteredEntries(entries, now, range)
  {
    var once := FilteredEntries(entries, now, range);
    if |once| > 0 {
      FilterAll(once, (e: JournalRow) => InWindow(now, range, e));
    }
  }

  /** `hasEnoughData`: two entries or more pass the range filter. */
  function HasEnoughData(entries: seq<JournalRow>, now: int, range: int): (b: bool)
    ensures b <==> exists i, j :: 0 <= i < j < |entries| && InWindow(now, range, entries[i]) && InWindow(now, range, entries[j])
  {
    FilterAtLeastTwo(entries, (e: JournalRow) => InWindow(now, range, e));
    |FilteredEntries(entries, now, range)| >= 2
  }

  // ---------------------------------------------------------------------
  // Exercise pie: a counter per tag, "Other: ..." folded into "Other"
  // ---------------------------------------------------------------------

  /** One slice of the pie: a tag and how often it was logged. */
  datatype Slice = Slice(id: string, value: nat)

  function CleanTag(tag: string): string {
    if Text.StartsWith(tag, "Other:") then "Other" else tag
  }

  /** `entry.exercise?.forEach`: a missing list contributes nothing. */
  function EntryTags(e: JournalRow): seq<string> {
    if e.exercise.Value? then e.exercise.v else []
  }

  function CleanTags(tags: seq<string>): (r: seq<string>)
    ensures |r| == |tags|
    ensures forall i :: 0 <= i < |tags| ==> r[i] == CleanTag(tags[i])
  {
    Map(tags, CleanTag)
  }

  /** Every cleaned tag of every entry, in the order the loops visit them. */
  function AllTags(entries: seq<JournalRow>): seq<string> {
    if entries == [] then []
    else AllTags(entries[..|entries| - 1]) + CleanTags(EntryTags(entries[|entries| - 1]))
  }

  /** How many tags the entries carry before cleaning. */
  function TagCount(entries: seq<JournalRow>): nat {
    if entries == [] then 0
    else TagCount(entries[..|entries| - 1]) + |EntryTags(entries[|entries| - 1])|
  }

  lemma {:induction false} AllTagsLength(entries: seq<JournalRow>)
    ensures |AllTags(entries)| == TagCount(entries)
  {
    if entries != [] {
      AllTagsLength(entries[..|entries| - 1]);
    }
  }

  function Ids(pie: seq<Slice>): seq<string> {
    if pie == [] then [] else [pie[0].id] + Ids(pie[1..])
  }

  /** The value recorded for `id`, or 0 (`exerciseCounts[id] || 0`). */
  function Count(pie: seq<Slice>, id: string): nat {
    if pie == [] then 0
    else if pie[0].id == id then pie[0].value
    else Count(pie[1..], id)
  }

  function Total(pie: seq<Slice>): nat {
    if pie == [] then 0 else pie[0].value + Total(pie[1..])
  }

  /** `exerciseCounts[id] = (exerciseCounts[id] || 0) + 1`: an existing key
      keeps its place, a new key goes last. */
  function Bump(pie: seq<Slice>, id: string): (r: seq<Slice>)
    ensures |r| == |pie| || |r| == |pie| + 1
  {
    if pie == [] then [Slice(id, 1)]
    else if pie[0].id == id then [Slice(id, pie[0].value + 1)] + pie[1..]
    else [pie[0]] + Bump(pie[1..], id)
  }

  /** The counter after visiting `tags` in order. */
  function Tally(tags: seq<string>): seq<Slice> {
    if tags == [] then [] else Bump(Tally(tags[..|tags| - 1]), tags[|tags| - 1])
  }

  lemma {:induction false} BumpTotal(pie: seq<Slice>, id: string)
    ensures Total(Bump(pie, id)) == Total(pie) + 1
  {
    if pie != [] && pie[0].id != id {
      BumpTotal(pie[1..], id);
      assert Bump(pie, id)[1..] == Bump(pie[1..], id);
    }
    if pie != [] && pie[0].id == id {
      assert Bump(pie, id)[1..] == pie[1..];
    }
  }

  lemma {:induction false} BumpCount(pie: seq<Slice>, id: string, k: string)
    ensures Count(Bump(pie, id), k) == Count(pie, k) + (if k == id then 1 else 0)
  {
    if pie != [] && pie[0].id != id {
      BumpCount(pie[1..], id, k);
      assert Bump(pie, id)[1..] == Bump(pie[1..], id);
    }
    if pie != [] && pie[0].id == id {
      assert Bump(pie, id)[1..] == pie[1..];
    }
  }

  lemma {:induction false} BumpIds(pie: seq<Slice>, id: string)
    ensures forall x :: x in Ids(Bump(pie, id)) <==> x in Ids(pie) || x == id
    ensures Distinct(Ids(pie)) ==> Distinct(Ids(Bump(pie, id)))
  {
    if pie != [] {
      var r := Bump(pie, id);
      assert r[1..] == if pie[0].id == id then pie[1..] else Bump(pie[1..], id);
      if pie[0].id != id {
        BumpIds(pie[1..], id);
        if Distinct(Ids(pie)) {
          DistinctCons(pie[0].id, Ids(pie[1..]));
          DistinctCons(pie[0].id, Ids(r[1..]));
        }
      } else if Distinct(Ids(pie)) {
        DistinctCons(pie[0].id, Ids(pie[1..]));
      }
    }
  }

  lemma DistinctCons(x: string, s: seq<string>)
    ensures Distinct([x] + s) <==> x !in s && Distinct(s)
  {
    if x !in s && Distinct(s) {
      forall i, j | 0 <= i < j < |[x] + s| ensures ([x] + s)[i] != ([x] + s)[j] {
        if i > 0 {
          assert ([x] + s)[i] == s[i - 1];
        }
        assert ([x] + s)[j] == s[j - 1];
      }
    }
    if Distinct([x] + s) {
      forall i, j | 0 <= i < j < |s| ensures s[i] != s[j] {
        assert s[i] == ([x] + s)[i + 1] && s[j] == ([x] + s)[j + 1];
      }
      forall k | 0 <= k < |s| ensures s[k] != x {
        assert s[k] == ([x] + s)[k + 1] && x == ([x] + s)[0];
      }
    }
  }

  /** The pie of a tag list: one slice per distinct tag, its value the
      number of times the tag occurs, the values adding up to the length. */
  lemma {:induction false} TallyFacts(tags: seq<string>)
    ensures Total(Tally(tags)) == |tags|
    ensures Distinct(Ids(Tally(tags)))
    ensures forall k :: Count(Tally(tags), k) == multiset(tags)[k]
    ensures forall k :: k in Ids(Tally(tags)) <==> k in tags
  {
    if tags != [] {
      var init, last := tags[..|tags| - 1], tags[|tags| - 1];
      TallyFacts(init);
      BumpTotal(Tally(init), last);
      BumpIds(Tally(init), last);
      assert tags == init + [last];
      forall k ensures Count(Tally(tags), k) == multiset(tags)[k] {
        BumpCount(Tally(init), last, k);
      }
    }
  }

  /** `exercisePieData`: the nested forEach over the entries and their tags. */
  method ExercisePie(entries: seq<JournalRow>) returns (pie: seq<Slice>)
    ensures pie == Tally(AllTags(entries))
    ensures Total(pie) == TagCount(entries)
    ensures Distinct(Ids(pie))
    ensures forall k :: Count(pie, k) == multiset(AllTags(entries))[k]
  {
    pie := [];
    for i := 0 to |entries|
      invariant pie == Tally(AllTags(entries[..i]))
    {
      var tags := EntryTags(entries[i]);
      ghost var before := AllTags(entries[..i]);
      assert before + CleanTags(tags[..0]) == before;
      for j := 0 to |tags|
        invariant pie == Tally(before + CleanTags(tags[..j]))
      {
        TallyStep(before, tags, j);
        pie := Bump(pie, CleanTag(tags[j]));
      }
      AllTagsStep(entries, i);
    }
    assert entries[..|entries|] == entries;
    TallyFacts(AllTags(entries));
    AllTagsLength(entries);
  }

  /** One more tag of the current entry is one more bump. */
  lemma TallyStep(before: seq<string>, tags: seq<string>, j: nat)
    requires j < |tags|
    ensures Tally(before + CleanTags(tags[..j + 1])) == Bump(Tally(before + CleanTags(tags[..j])), CleanTag(tags[j]))
  {
    var seen := before + CleanTags(tags[..j]);
    var next := before + CleanTags(tags[..j + 1]);
    assert next == seen + [CleanTag(tags[j])];
    assert next[..|next| - 1] == seen;
  }

  /** The tags of the first i+1 entries. */
  lemma AllTagsStep(entries: seq<JournalRow>, i: nat)
    requires i < |entries|
    ensures AllTags(entries[..i + 1]) == AllTags(entries[..i]) + CleanTags(EntryTags(entries[i])[..|EntryTags(entries[i])|])
  {
    var tags := EntryTags(entries[i]);
    assert tags[..|tags|] == tags;
    assert entries[..i + 1][..i] == entries[..i];
  }

  /** A tag starting with "Other:" is counted under "Other", never under its own text. */
  lemma OtherTagsFolded(entries: seq<JournalRow>, tag: string)
    requires Text.StartsWith(tag, "Other:")
    ensures tag !in AllTags(entries)
  {
    AllTagsClean(entries);
  }

  lemma {:induction false} AllTagsClean(entries: seq<JournalRow>)
    ensures forall t :: t in AllTags(entries) ==> !Text.StartsWith(t, "Other:")
  {
    if entries != [] {
      AllTagsClean(entries[..|entries| - 1]);
      var tags := EntryTags(entries[|entries| - 1]);
      forall i | 0 <= i < |tags| ensures !Text.StartsWith(CleanTag(tags[i]), "Other:") {
        if Text.StartsWith(tags[i], "Other:") {
          assert |CleanTag(tags[i])| < |"Other:"|;
        }
      }
    }
  }

  // ---------------------------------------------------------------------
  // Mood volatility: mean absolute day-over-day change, missing mood = 0
  // ---------------------------------------------------------------------

  function MoodOrZero(e: JournalRow): int { e.mood.Or(0) }

  function Moods(entries: seq<JournalRow>): (m: seq<int>)
    ensures |m| == |entries|
    ensures forall i :: 0 <= i < |entries| ==> m[i] == entries[i].mood.Or(0)
  {
    Map(entries, MoodOrZero)
  }

  /** The mean absolute change between consecutive entries' moods. */
  function MeanAbsChange(entries: seq<JournalRow>): (v: real)
    requires |entries| >= 2
    ensures v >= 0.0
  {
    SumAbsDiff(Moods(entries)) as real / (|entries| - 1) as real
  }

  /** `totalChange`: the loop summing |mood[i] - mood[i - 1]|. */
  method TotalChange(moods: seq<int>) returns (total: nat)
    ensures total == SumAbsDiff(moods)
  {
    total := 0;
    if |moods| < 2 {
      return;
    }
    for i := 1 to |moods|
      invariant total == SumAbsDiff(moods[..i])
    {
      assert moods[..i + 1][..i] == moods[..i];
      total := total + Abs(moods[i] - moods[i - 1]);
    }
    assert moods[..|moods|] == moods;
  }

  /** `moodVolatility`: 0 below two entries, otherwise the mean absolute
      change to two decimals. */
  method MoodVolatility(entries: seq<JournalRow>) returns (vol: real)
    ensures |entries| < 2 ==> vol == 0.0
    ensures |entries| >= 2 ==> vol == ToFixed2(MeanAbsChange(entries))
    ensures vol >= 0.0
  {
    if |entries| < 2 {
      return 0.0;
    }
    var totalChange := TotalChange(Moods(entries));
    vol := ToFixed2(totalChange as real / (|entries| - 1) as real);
  }

  /** Moods that never change give no volatility. */
  lemma SteadyMoodNoChange(entries: seq<JournalRow>)
    requires |entries| >= 2
    requires forall i, j :: 0 <= i < j < |entries| ==> entries[i].mood.Or(0) == entries[j].mood.Or(0)
    ensures MeanAbsChange(entries) == 0.0
    ensures ToFixed2(MeanAbsChange(entries)) == 0.0
  {
    SumAbsDiffConstant(Moods(entries));
    ToFixed2OfInt(0);
  }

  /** Moods on the slider's scale [lo, hi] change by at most hi - lo a day. */
  lemma MeanAbsChangeBounds(entries: seq<JournalRow>, lo: int, hi: int)
    requires |entries| >= 2 && lo <= hi
    requires forall e :: e in entries ==> lo <= e.mood.Or(0) <= hi
    ensures 0.0 <= MeanAbsChange(entries) <= (hi - lo) as real
    ensures 0.0 <= ToFixed2(MeanAbsChange(entries)) <= (hi - lo) as real
  {
    var m := Moods(entries);
    forall i | 1 <= i < |m| ensures Abs(m[i] - m[i - 1]) <= hi - lo {
      assert entries[i] in entries && entries[i - 1] in entries;
    }
    SumAbsDiffAtMost(m, hi - lo);
    DivAtMost(SumAbsDiff(m), |entries| - 1, hi - lo);
    ToFixedWithin(MeanAbsChange(entries), 100, 0, hi - lo);
  }

  // ---------------------------------------------------------------------
  // Best and worst day: a reduce keeping the earlier entry on ties
  // ---------------------------------------------------------------------

  /** The index the best-day reduce ends on: a maximal mood, the first one. */
  function BestIndex(entries: seq<JournalRow>): (b: nat)
    requires |entries| > 0
    ensures b < |entries|
    ensures forall j :: 0 <= j < |entries| ==> MoodOrZero(entries[j]) <= MoodOrZero(entries[b])
    ensures forall j :: 0 <= j < b ==> MoodOrZero(entries[j]) < MoodOrZero(entries[b])
  {
    if |entries| == 1 then 0
    else
      var b := BestIndex(entries[..|entries| - 1]);
      if MoodOrZero(entries[|entries| - 1]) > MoodOrZero(entries[b]) then |entries| - 1 else b
  }

  /** The index the worst-day reduce ends on: a minimal mood, the first one. */
  function WorstIndex(entries: seq<JournalRow>): (w: nat)
    requires |entries| > 0
    ensures w < |entries|
    ensures forall j :: 0 <= j < |entries| ==> MoodOrZero(entries[w]) <= MoodOrZero(entries[j])
    ensures forall j :: 0 <= j < w ==> MoodOrZero(entries[w]) < MoodOrZero(entries[j])
  {
    if |entries| == 1 then 0
    else
      var w := WorstIndex(entries[..|entries| - 1]);
      if MoodOrZero(entries[|entries| - 1]) < MoodOrZero(entries[w]) then |entries| - 1 else w
  }

  /** `bestDay`: null without entries, otherwise the first entry of highest mood. */
  function BestDay(entries: seq<JournalRow>): (r: Option<JournalRow>)
    ensures r.None? <==> |entries| == 0
    ensures r.Some? ==> exists b :: (0 <= b < |entries| && r.value == entries[b]
      && (forall j :: 0 <= j < |entries| ==> MoodOrZero(entries[j]) <= MoodOrZero(entries[b]))
      && (forall j :: 0 <= j < b ==> MoodOrZero(entries[j]) < MoodOrZero(entries[b])))
  {
    if |entries| == 0 then None else Some(entries[BestIndex(entries)])
  }

  /** `worstDay`: null without entries, otherwise the first entry of lowest mood. */
  function WorstDay(entries: seq<JournalRow>): (r: Option<JournalRow>)
    ensures r.None? <==> |entries| == 0
    ensures r.Some? ==> exists w :: (0 <= w < |entries| && r.value == entries[w]
      && (forall j :: 0 <= j < |entries| ==> MoodOrZero(entries[w]) <= MoodOrZero(entries[j]))
      && (forall j :: 0 <= j < w ==> MoodOrZero(entries[w]) < MoodOrZero(entries[j])))
  {
    if |entries| == 0 then None else Some(entries[WorstIndex(entries)])
  }

  /** The best day's mood is never below the worst day's. */
  lemma BestAtLeastWorst(entries: seq<JournalRow>)
    requires |entries| > 0
    ensures MoodOrZero(BestDay(entries).value) >= MoodOrZero(WorstDay(entries).value)
  {
    var b, w := BestIndex(entries), WorstIndex(entries);
    assert MoodOrZero(entries[w]) <= MoodOrZero(entries[b]);
  }

  /** When every mood is the same, both reduces keep the first entry. */
  lemma SteadyMoodFirstEntry(entries: seq<JournalRow>)
    requires |entries| > 0
    requires forall j :: 0 <= j < |entries| ==> MoodOrZero(entries[j]) == MoodOrZero(entries[0])
    ensures BestDay(entries) == Some(entries[0]) && WorstDay(entries) == Some(entries[0])
  {
    var b, w := BestIndex(entries), WorstIndex(entries);
    assert b == 0;
    assert w == 0;
  }

  // ---------------------------------------------------------------------
  // Consistency percentages
  // ---------------------------------------------------------------------

  /** `(e.sleep_hours ?? 0) >= 7`: a missing value counts as no sleep. */
  predicate GoodSleep(e: JournalRow) { e.sleep_hours.Or(0) >= 7 }

  function GoodSleepDays(entries: seq<JournalRow>): (k: nat)
    ensures k <= |entries|
  {
    |Filter(entries, GoodSleep)|
  }

  /** `sleepConsistency`: 0 without entries, otherwise the rounded
      percentage of nights of seven hours or more. */
  function SleepConsistency(entries: seq<JournalRow>): (p: int)
    ensures 0 <= p <= 100
    ensures |entries| == 0 ==> p == 0
    ensures |entries| > 0 ==> p == Percent(GoodSleepDays(entries), |entries|)
  {
    if |entries| == 0 then 0 else Percent(GoodSleepDays(entries), |entries|)
  }

  /** `exerciseConsistency`: 0 without entries, otherwise the rounded
      percentage of days with a non-empty exercise list. */
  function ExerciseConsistency(entries: seq<JournalRow>): (p: int)
    ensures 0 <= p <= 100
    ensures |entries| == 0 ==> p == 0
    ensures |entries| > 0 ==> p == Percent(ExerciseDays(entries), |entries|)
  {
    if |entries| == 0 then 0 else Percent(ExerciseDays(entries), |entries|)
  }

  /** Seven hours or more every night gives 100. */
  lemma AllGoodSleepFull(entries: seq<JournalRow>)
    requires |entries| > 0 && forall e :: e in entries ==> e.sleep_hours.Or(0) >= 7
    ensures SleepConsistency(entries) == 100
  {
    FilterAll(entries, GoodSleep);
  }

  /** Nights without a logged value count as short: no logged sleep gives 0. */
  lemma NoLoggedSleepZero(entries: seq<JournalRow>)
    requires forall e :: e in entries ==> !e.sleep_hours.Value?
    ensures SleepConsistency(entries) == 0
  {
    FilterNone(entries, GoodSleep);
  }

  /** Raising one night to seven hours never lowers the percentage. */
  lemma SleepConsistencyMonotone(entries: seq<JournalRow>, better: seq<JournalRow>)
    requires |better| == |entries| > 0
    requires forall i :: 0 <= i < |entries| ==> GoodSleep(entries[i]) ==> GoodSleep(better[i])
    ensures SleepConsistency(entries) <= SleepConsistency(better)
  {
    GoodSleepDaysMonotone(entries, better);
    PercentMonotone(GoodSleepDays(entries), GoodSleepDays(better), |entries|);
  }

  lemma {:induction false} GoodSleepDaysMonotone(entries: seq<JournalRow>, better: seq<JournalRow>)
    requires |better| == |entries|
    requires forall i :: 0 <= i < |entries| ==> GoodSleep(entries[i]) ==> GoodSleep(better[i])
    ensures GoodSleepDays(entries) <= GoodSleepDays(better)
  {
    if entries != [] {
      var n := |entries|;
      GoodSleepDaysMonotone(entries[..n - 1], better[..n - 1]);
    }
  }
}
