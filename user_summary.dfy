// The summary builder of src/lib/intelligence/buildUserMentalSummary.ts:
// numeric primitives (average, trend, volatility, sleep consistency, risk
// level, correlation) and the builder that combines them into a summary
// with a data-sufficiency gate.
module UserSummary {
  import opened Wrappers
  import opened Numeric
  import Sorting

  datatype TimeRange = Days7 | Days30 | Days90
  datatype Trend = Up | Down | Flat
  datatype RiskLevel = Low | Moderate | High

  /** The row type the builder declares: dates are day numbers. */
  datatype SummaryRow = SummaryRow(
    date: int,
    mood: Field<int>,
    stress: Field<int>,
    sleep_hours: Field<int>,
    exercised: Field<bool>)

  /** The three sums a Pearson correlation is made of; the coefficient is
      numerator / sqrt(denomX * denomY), rounded to two decimals. */
  datatype CorrelationSums = CorrelationSums(numerator: int, denomX: nat, denomY: nat)

  datatype MoodStats = MoodStats(average: Option<real>, trend: Trend, volatility: Option<real>)
  datatype SleepStats = SleepStats(averageHours: Option<real>, consistency: Option<real>)
  datatype StressStats = StressStats(average: Option<real>, trend: Trend)
  datatype Correlations = Correlations(sleepMood: Option<CorrelationSums>, exerciseStress: Option<CorrelationSums>)
  datatype DataQuality = DataQuality(daysPresent: nat, daysMissing: nat, sufficient: bool)

  datatype MentalSummary = MentalSummary(
    timeRange: TimeRange,
    mood: MoodStats,
    sleep: SleepStats,
    stress: StressStats,
    correlations: Correlations,
    riskLevel: RiskLevel,
    dataQuality: DataQuality)

  /* -------------------- helpers -------------------- */

  /** `computeAverage`: null for no values, otherwise the mean to two decimals. */
  function ComputeAverage(values: seq<int>): (r: Option<real>)
    ensures r.None? <==> values == []
    ensures r.Some? ==> AbsReal(r.value - Mean(values)) <= 0.005
  {
    if values == [] then None else Some(ToFixed2(Mean(values)))
  }

  lemma AverageOfConstant(values: seq<int>, c: int)
    requires values != []
    requires forall i :: 0 <= i < |values| ==> values[i] == c
    ensures ComputeAverage(values) == Some(c as real)
  {
    MeanConstant(values, c);
    ToFixed2OfInt(c);
  }

  /** The rounded second-half average minus the rounded first-half average. */
  function HalfDifference(values: seq<int>): real
    requires |values| >= 2
  {
    var mid := |values| / 2;
    ToFixed2(Mean(values[mid..])) - ToFixed2(Mean(values[..mid]))
  }

  /** `computeTrend`: flat below four values, otherwise the sign of the
      half difference beyond a 0.3 dead band. */
  function ComputeTrend(values: seq<int>): (t: Trend)
    ensures |values| < 4 ==> t == Flat
    ensures |values| >= 4 ==> (t == Up <==> HalfDifference(values) > 0.3)
    ensures |values| >= 4 ==> (t == Down <==> HalfDifference(values) < -0.3)
  {
    if |values| < 4 then Flat
    else
      var mid := |values| / 2;
      var firstAvg := ComputeAverage(values[..mid]);
      var secondAvg := ComputeAverage(values[mid..]);
      if firstAvg.None? || secondAvg.None? then Flat
      else
        var diff := secondAvg.value - firstAvg.value;
        if diff > 0.3 then Up
        else if diff < -0.3 then Down
        else Flat
  }

  lemma TrendOfConstant(values: seq<int>, c: int)
    requires forall i :: 0 <= i < |values| ==> values[i] == c
    ensures ComputeTrend(values) == Flat
  {
    if |values| >= 4 {
      var mid := |values| / 2;
      AverageOfConstant(values[..mid], c);
      AverageOfConstant(values[mid..], c);
    }
  }

  ghost predicate StrictlyIncreasing(s: seq<int>) {
    forall i, j :: 0 <= i < j < |s| ==> s[i] < s[j]
  }

  ghost predicate StrictlyDecreasing(s: seq<int>) {
    forall i, j :: 0 <= i < j < |s| ==> s[i] > s[j]
  }

  /** A strictly increasing series of at least four values trends up. */
  lemma TrendOfIncreasing(values: seq<int>)
    requires |values| >= 4 && StrictlyIncreasing(values)
    ensures ComputeTrend(values) == Up
  {
    var mid := |values| / 2;
    var first, second := values[..mid], values[mid..];
    var pivot := values[mid - 1];
    MeanBounds(first, values[0], pivot);
    MeanBounds(second, pivot + 1, values[|values| - 1]);
  }

  /** A strictly decreasing series of at least four values trends down. */
  lemma TrendOfDecreasing(values: seq<int>)
    requires |values| >= 4 && StrictlyDecreasing(values)
    ensures ComputeTrend(values) == Down
  {
    var mid := |values| / 2;
    var first, second := values[..mid], values[mid..];
    var pivot := values[mid - 1];
    MeanBounds(first, pivot, values[0]);
    MeanBounds(second, values[|values| - 1], pivot - 1);
  }

  /** The two-decimal mean as a whole number of hundredths. */
  function MeanHundredths(values: seq<int>): (k: int)
    requires values != []
    ensures ComputeAverage(values) == Some(k as real / 100.0)
  {
    Hundredths(Mean(values))
  }

  lemma MeanHundredthsOfConstant(values: seq<int>, c: int)
    requires values != []
    requires forall i :: 0 <= i < |values| ==> values[i] == c
    ensures MeanHundredths(values) == 100 * c
  {
    AverageOfConstant(values, c);
  }

  function Sq(z: int): (r: nat)
    ensures z != 0 ==> r > 0
  {
    z * z
  }

  /** Sum of squared deviations of the values from k/100, scaled by 10000
      so that it is a whole number: sum of (100 * v - k)^2. */
  function SumSqDev(s: seq<int>, k: int): nat
  {
    if s == [] then 0
    else SumSqDev(s[..|s| - 1], k) + Sq(100 * s[|s| - 1] - k)
  }

  /** Squared deviations add up to zero exactly when every value equals k/100. */
  lemma {:induction false} SumSqDevZero(s: seq<int>, k: int)
    ensures SumSqDev(s, k) == 0 <==> forall i :: 0 <= i < |s| ==> 100 * s[i] == k
  {
    if s != [] {
      var init := s[..|s| - 1];
      SumSqDevZero(init, k);
      assert forall i :: 0 <= i < |init| ==> init[i] == s[i];
      if 100 * s[|s| - 1] == k && SumSqDev(init, k) == 0 {
        forall i | 0 <= i < |s| ensures 100 * s[i] == k {
          if i < |init| { assert s[i] == init[i]; }
        }
      }
    }
  }

  /** The population variance about the two-decimal mean, times 10000. */
  function ScaledVariance(values: seq<int>): (t: real)
    requires values != []
    ensures t >= 0.0
  {
    SumSqDev(values, MeanHundredths(values)) as real / |values| as real
  }

  /** v is a non-negative whole number of hundredths. */
  ghost predicate WholeHundredths(v: real) {
    v >= 0.0 && (v * 100.0).Floor as real == v * 100.0
  }

  lemma HundredthsWhole(k: nat)
    ensures WholeHundredths(k as real / 100.0)
  {
    assert (k as real / 100.0) * 100.0 == k as real;
  }

  /** `computeVolatility`: null below two values, otherwise the population
      standard deviation to two decimals: in hundredths, the integer nearest
      to the square root of the scaled variance. */
  function ComputeVolatility(values: seq<int>): (r: Option<real>)
    ensures r.None? <==> |values| < 2
    ensures r.Some? ==> WholeHundredths(r.value)
    ensures r.Some? ==> var h := r.value * 100.0;
      (h == 0.0 || (h - 0.5) * (h - 0.5) <= ScaledVariance(values))
      && ScaledVariance(values) < (h + 0.5) * (h + 0.5)
  {
    if |values| < 2 then None
    else
      var avg := ComputeAverage(values);
      if avg.None? then None
      else
        var h := RoundedSqrt(ScaledVariance(values));
        HundredthsWhole(h);
        assert (h as real / 100.0) * 100.0 == h as real;
        Some(h as real / 100.0)
  }

  lemma VolatilityOfConstant(values: seq<int>, c: int)
    requires |values| >= 2
    requires forall i :: 0 <= i < |values| ==> values[i] == c
    ensures ComputeVolatility(values) == Some(0.0)
  {
    MeanHundredthsOfConstant(values, c);
    SumSqDevZero(values, 100 * c);
    RoundedSqrtZero();
  }

  /** `computeSleepConsistency`: null exactly when the volatility is,
      otherwise 10 minus the volatility, floored at 0. */
  function ComputeSleepConsistency(values: seq<int>): (r: Option<real>)
    ensures r.None? <==> ComputeVolatility(values).None?
    ensures r.Some? ==> r.value == MaxReal(0.0, 10.0 - ComputeVolatility(values).value)
    ensures r.Some? ==> 0.0 <= r.value <= 10.0
  {
    match ComputeVolatility(values)
    case None => None
    case Some(volatility) =>
      var c := MaxReal(0.0, 10.0 - volatility);
      ConsistencyExact(volatility);
      Some(ToFixed2(c))
  }

  /** Ten minus a whole number of hundredths, floored at zero, is already
      two-decimal, so rounding it again changes nothing. */
  lemma ConsistencyExact(volatility: real)
    requires WholeHundredths(volatility)
    ensures ToFixed2(MaxReal(0.0, 10.0 - volatility)) == MaxReal(0.0, 10.0 - volatility)
  {
    var k := (volatility * 100.0).Floor;
    assert volatility == k as real / 100.0;
    var c := MaxReal(0.0, 10.0 - volatility);
    if c == 0.0 {
      ToFixed2OfInt(0);
    } else {
      assert c == (1000 - k) as real / 100.0;
      ToFixed2OfHundredths(1000 - k);
    }
  }

  /* -------------------- risk level -------------------- */

  /** The additive score: +2 for a falling mood, +1 each for volatility
      above 2, sleep below 6 and stress above 7; null inputs add nothing. */
  function RiskScore(moodTrend: Trend, moodVolatility: Option<real>, sleepAvg: Option<real>,
                     stressAvg: Option<real>): (score: nat)
    ensures score <= 5
  {
    (if moodTrend == Down then 2 else 0)
    + (if moodVolatility.Some? && moodVolatility.value > 2.0 then 1 else 0)
    + (if sleepAvg.Some? && sleepAvg.value < 6.0 then 1 else 0)
    + (if stressAvg.Some? && stressAvg.value > 7.0 then 1 else 0)
  }

  function LevelOfScore(score: nat): (level: RiskLevel)
    ensures level == High <==> score >= 4
    ensures level == Moderate <==> 2 <= score <= 3
    ensures level == Low <==> score <= 1
  {
    if score >= 4 then High else if score >= 2 then Moderate else Low
  }

  /** `computeRiskLevel`, accumulating the score step by step. */
  method ComputeRiskLevel(moodTrend: Trend, moodVolatility: Option<real>, sleepAvg: Option<real>,
                          stressAvg: Option<real>) returns (level: RiskLevel)
    ensures level == LevelOfScore(RiskScore(moodTrend, moodVolatility, sleepAvg, stressAvg))
    ensures moodTrend != Down ==> level != High
    ensures moodTrend == Down ==> level != Low
  {
    var score := 0;
    if moodTrend == Down { score := score + 2; }
    if moodVolatility.Some? && moodVolatility.value > 2.0 { score := score + 1; }
    if sleepAvg.Some? && sleepAvg.value < 6.0 { score := score + 1; }
    if stressAvg.Some? && stressAvg.value > 7.0 { score := score + 1; }

    if score >= 4 { return High; }
    if score >= 2 { return Moderate; }
    return Low;
  }

  /* -------------------- correlation -------------------- */

  /** Sum of (100 * x[i] - kx) * (100 * y[i] - ky): the cross deviations
      about the means kx/100 and ky/100, scaled by 10000. */
  function CrossDev(x: seq<int>, y: seq<int>, kx: int, ky: int): int
    requires |x| == |y|
  {
    if x == [] then 0
    else CrossDev(x[..|x| - 1], y[..|y| - 1], kx, ky)
         + (100 * x[|x| - 1] - kx) * (100 * y[|y| - 1] - ky)
  }

  ghost predicate Constant(s: seq<int>) {
    forall i, j :: 0 <= i < |s| && 0 <= j < |s| ==> s[i] == s[j]
  }

  /** The squared deviations about the two-decimal mean vanish exactly when
      the series is constant. */
  lemma SqDevZeroIffConstant(s: seq<int>)
    requires s != []
    ensures SumSqDev(s, MeanHundredths(s)) == 0 <==> Constant(s)
  {
    var k := MeanHundredths(s);
    SumSqDevZero(s, k);
    if Constant(s) {
      MeanHundredthsOfConstant(s, s[0]);
    }
  }

  /** What `computeCorrelation` evaluates, as a function: null for unequal
      lengths, fewer than three pairs or a zero denominator; otherwise the
      three sums of the coefficient, each scaled by 10000 (the scale cancels
      in numerator / sqrt(denomX * denomY)). */
  function CorrelationOf(x: seq<int>, y: seq<int>): Option<CorrelationSums>
  {
    if |x| != |y| || |x| < 3 then None
    else
      var kx, ky := MeanHundredths(x), MeanHundredths(y);
      var dx, dy := SumSqDev(x, kx), SumSqDev(y, ky);
      if dx * dy == 0 then None
      else Some(CorrelationSums(CrossDev(x, y, kx, ky), dx, dy))
  }

  /** The loop of `computeCorrelation`: the three sums in one pass. */
  method AccumulateSums(x: seq<int>, y: seq<int>, kx: int, ky: int)
    returns (numerator: int, denomX: nat, denomY: nat)
    requires |x| == |y|
    ensures numerator == CrossDev(x, y, kx, ky)
    ensures denomX == SumSqDev(x, kx) && denomY == SumSqDev(y, ky)
  {
    numerator, denomX, denomY := 0, 0, 0;
    var i := 0;
    while i < |x|
      invariant 0 <= i <= |x|
      invariant numerator == CrossDev(x[..i], y[..i], kx, ky)
      invariant denomX == SumSqDev(x[..i], kx)
      invariant denomY == SumSqDev(y[..i], ky)
    {
      var dx := 100 * x[i] - kx;
      var dy := 100 * y[i] - ky;
      assert x[..i + 1][..i] == x[..i] && y[..i + 1][..i] == y[..i];
      numerator := numerator + dx * dy;
      denomX := denomX + Sq(dx);
      denomY := denomY + Sq(dy);
      i := i + 1;
    }
    assert x[..i] == x && y[..i] == y;
  }

  lemma ProductZero(a: nat, b: nat)
    ensures a * b == 0 <==> a == 0 || b == 0
  {
    if a > 0 && b > 0 {
      assert a * b >= b;
    }
  }

  /** `computeCorrelation`. */
  method ComputeCorrelation(x: seq<int>, y: seq<int>) returns (r: Option<CorrelationSums>)
    ensures r == CorrelationOf(x, y)
    ensures r.None? <==> |x| != |y| || |x| < 3 || Constant(x) || Constant(y)
  {
    if |x| != |y| || |x| < 3 {
      return None;
    }
    var meanX := ComputeAverage(x);
    var meanY := ComputeAverage(y);
    if meanX.None? || meanY.None? {
      return None;
    }
    var kx, ky := MeanHundredths(x), MeanHundredths(y);
    var numerator, denomX, denomY := AccumulateSums(x, y, kx, ky);
    SqDevZeroIffConstant(x);
    SqDevZeroIffConstant(y);
    ProductZero(denomX, denomY);
    if denomX * denomY == 0 {
      return None;
    }
    return Some(CorrelationSums(numerator, denomX, denomY));
  }

  /* -------------------- main -------------------- */

  /** The values of the fields that hold a number (`typeof v === "number"`). */
  function Numbers<T>(fields: seq<Field<T>>): (r: seq<T>)
    ensures |r| <= |fields|
  {
    if fields == [] then []
    else Numbers(fields[..|fields| - 1])
         + (if fields[|fields| - 1].Value? then [fields[|fields| - 1].v] else [])
  }

  lemma {:induction false} NumbersEmpty<T>(fields: seq<Field<T>>)
    ensures Numbers(fields) == [] <==> forall i :: 0 <= i < |fields| ==> !fields[i].Value?
  {
    if fields != [] {
      NumbersEmpty(fields[..|fields| - 1]);
      assert forall i :: 0 <= i < |fields| - 1 ==> fields[..|fields| - 1][i] == fields[i];
    }
  }

  function ByDate(r: SummaryRow): real { r.date as real }

  function MoodValues(sorted: seq<SummaryRow>): seq<int> {
    Numbers(Map(sorted, (r: SummaryRow) => r.mood))
  }

  function SleepValues(sorted: seq<SummaryRow>): seq<int> {
    Numbers(Map(sorted, (r: SummaryRow) => r.sleep_hours))
  }

  function StressValues(sorted: seq<SummaryRow>): seq<int> {
    Numbers(Map(sorted, (r: SummaryRow) => r.stress))
  }

  /** Rows with both a numeric sleep and a numeric mood, as two arrays read
      from the same rows, so the correlation sees matching pairs. */
  function SleepMoodPairs(sorted: seq<SummaryRow>): (p: (seq<int>, seq<int>))
    ensures |p.0| == |p.1|
    ensures |p.0| <= |sorted|
  {
    var rows := Filter(sorted, (r: SummaryRow) => r.sleep_hours.Value? && r.mood.Value?);
    (Map(rows, (r: SummaryRow) => r.sleep_hours.Or(0)), Map(rows, (r: SummaryRow) => r.mood.Or(0)))
  }

  /** Rows with a numeric stress and a boolean `exercised`, the latter as 1/0. */
  function ExerciseStressPairs(sorted: seq<SummaryRow>): (p: (seq<int>, seq<int>))
    ensures |p.0| == |p.1|
    ensures forall i :: 0 <= i < |p.0| ==> p.0[i] == 0 || p.0[i] == 1
  {
    var rows := Filter(sorted, (r: SummaryRow) => r.stress.Value? && r.exercised.Value?);
    (Map(rows, (r: SummaryRow) => if r.exercised.Or(false) then 1 else 0), Map(rows, (r: SummaryRow) => r.stress.Or(0)))
  }

  function ExpectedDays(timeRange: TimeRange): (n: nat)
    ensures n == 7 || n == 30 || n == 90
  {
    match timeRange
    case Days7 => 7
    case Days30 => 30
    case Days90 => 90
  }

  /** `Math.floor(expectedDays * 0.6)`. */
  function SufficientThreshold(timeRange: TimeRange): (n: int)
    ensures n == (match timeRange case Days7 => 4 case Days30 => 18 case Days90 => 54)
  {
    (ExpectedDays(timeRange) as real * 0.6).Floor
  }

  function BuildDataQuality(daysPresent: nat, timeRange: TimeRange): (q: DataQuality)
    ensures q.daysPresent == daysPresent
    ensures q.daysMissing == Max(0, ExpectedDays(timeRange) - daysPresent)
    ensures q.daysPresent + q.daysMissing >= ExpectedDays(timeRange)
    ensures q.sufficient <==> daysPresent >= SufficientThreshold(timeRange)
  {
    DataQuality(daysPresent, Max(0, ExpectedDays(timeRange) - daysPresent),
                daysPresent >= SufficientThreshold(timeRange))
  }

  /** `buildUserMentalSummary`. */
  function BuildUserMentalSummary(journals: seq<SummaryRow>, timeRange: TimeRange): (s: MentalSummary)
    ensures s.timeRange == timeRange
    ensures s.dataQuality == BuildDataQuality(|journals|, timeRange)
  {
    var sorted := Sorting.SortBy(journals, ByDate);
    var moodValues := MoodValues(sorted);
    var sleepValues := SleepValues(sorted);
    var stressValues := StressValues(sorted);

    var moodAverage := ComputeAverage(moodValues);
    var moodTrend := ComputeTrend(moodValues);
    var moodVolatility := ComputeVolatility(moodValues);
    var sleepAverage := ComputeAverage(sleepValues);
    var sleepConsistency := ComputeSleepConsistency(sleepValues);
    var stressAverage := ComputeAverage(stressValues);
    var stressTrend := ComputeTrend(stressValues);

    var riskLevel := LevelOfScore(RiskScore(moodTrend, moodVolatility, sleepAverage, stressAverage));
    var sleepMood := SleepMoodPairs(sorted);
    var exerciseStress := ExerciseStressPairs(sorted);

    MentalSummary(
      timeRange,
      MoodStats(moodAverage, moodTrend, moodVolatility),
      SleepStats(sleepAverage, sleepConsistency),
      StressStats(stressAverage, stressTrend),
      Correlations(CorrelationOf(sleepMood.0, sleepMood.1), CorrelationOf(exerciseStress.0, exerciseStress.1)),
      riskLevel,
      BuildDataQuality(|sorted|, timeRange))
  }

  /** With no rows every statistic is null, every trend flat, the risk low
      and the data insufficient. */
  lemma EmptySummary(timeRange: TimeRange)
    ensures var s := BuildUserMentalSummary([], timeRange);
      && s.mood == MoodStats(None, Flat, None)
      && s.sleep == SleepStats(None, None)
      && s.stress == StressStats(None, Flat)
      && s.correlations == Correlations(None, None)
      && s.riskLevel == Low
      && s.dataQuality.daysPresent == 0
      && !s.dataQuality.sufficient
  {
  }

  lemma {:induction false} NumbersOfValues<T>(fields: seq<Field<T>>)
    requires forall i :: 0 <= i < |fields| ==> fields[i].Value?
    ensures |Numbers(fields)| == |fields|
    ensures forall i :: 0 <= i < |fields| ==> Numbers(fields)[i] == fields[i].v
  {
    if fields != [] {
      NumbersOfValues(fields[..|fields| - 1]);
    }
  }

  /** Seven consecutive days with moods 3 to 9, seven hours of sleep and
      stress 5 every day. */
  function RisingMoodWeek(start: int): (rows: seq<SummaryRow>)
    ensures |rows| == 7
  {
    seq(7, i => SummaryRow(start + i, Value(3 + i), Value(5), Value(7), Undefined))
  }

  lemma RisingWeekSorted(start: int)
    ensures Sorting.SortBy(RisingMoodWeek(start), ByDate) == RisingMoodWeek(start)
  {
    var rows := RisingMoodWeek(start);
    assert Sorting.SortedBy(rows, ByDate);
    Sorting.SortByAlreadySorted(rows, ByDate);
  }

  lemma RisingWeekMoodValues(start: int)
    ensures MoodValues(RisingMoodWeek(start)) == [3, 4, 5, 6, 7, 8, 9]
  {
    NumbersOfValues(Map(RisingMoodWeek(start), (r: SummaryRow) => r.mood));
  }

  lemma RisingWeekConstantValues(start: int)
    ensures var sv := SleepValues(RisingMoodWeek(start));
      |sv| == 7 && forall i :: 0 <= i < |sv| ==> sv[i] == 7
    ensures var tv := StressValues(RisingMoodWeek(start));
      |tv| == 7 && forall i :: 0 <= i < |tv| ==> tv[i] == 5
  {
    NumbersOfValues(Map(RisingMoodWeek(start), (r: SummaryRow) => r.sleep_hours));
    NumbersOfValues(Map(RisingMoodWeek(start), (r: SummaryRow) => r.stress));
  }

  lemma RisingMoodAverage(mv: seq<int>)
    requires mv == [3, 4, 5, 6, 7, 8, 9]
    ensures ComputeAverage(mv) == Some(6.0)
    ensures MeanHundredths(mv) == 600
  {
    assert [3, 4, 5, 6, 7, 8, 9][..6] == [3, 4, 5, 6, 7, 8];
    assert [3, 4, 5, 6, 7, 8][..5] == [3, 4, 5, 6, 7];
    assert [3, 4, 5, 6, 7][..4] == [3, 4, 5, 6];
    assert [3, 4, 5, 6][..3] == [3, 4, 5];
    assert [3, 4, 5][..2] == [3, 4];
    assert [3, 4][..1] == [3];
    assert [3][..0] == [];
    assert Sum(mv) == 42;
    ToFixed2OfInt(6);
  }

  lemma RisingMoodVolatility(mv: seq<int>)
    requires mv == [3, 4, 5, 6, 7, 8, 9]
    ensures ComputeVolatility(mv) == Some(2.0)
  {
    RisingMoodAverage(mv);
    assert [3, 4, 5, 6, 7, 8, 9][..6] == [3, 4, 5, 6, 7, 8];
    assert [3, 4, 5, 6, 7, 8][..5] == [3, 4, 5, 6, 7];
    assert [3, 4, 5, 6, 7][..4] == [3, 4, 5, 6];
    assert [3, 4, 5, 6][..3] == [3, 4, 5];
    assert [3, 4, 5][..2] == [3, 4];
    assert [3, 4][..1] == [3];
    assert [3][..0] == [];
    assert SumSqDev(mv, 600) == 280000;
    assert ScaledVariance(mv) == (200 * 200) as real;
    RoundedSqrtOfSquare(200);
  }

  /** The rising-mood week trends up with mean 6.0 and standard deviation
      2.0 (not above 2), a constant sleep of full consistency, and low risk. */
  lemma RisingMoodWeekSummary(start: int)
    ensures var s := BuildUserMentalSummary(RisingMoodWeek(start), Days7);
      && s.mood == MoodStats(Some(6.0), Up, Some(2.0))
      && s.sleep == SleepStats(Some(7.0), Some(10.0))
      && s.stress == StressStats(Some(5.0), Flat)
      && s.riskLevel == Low
      && s.dataQuality == DataQuality(7, 0, true)
  {
    var rows := RisingMoodWeek(start);
    RisingWeekSorted(start);
    RisingWeekMoodValues(start);
    RisingWeekConstantValues(start);
    var mv, sv, tv := MoodValues(rows), SleepValues(rows), StressValues(rows);
    TrendOfIncreasing(mv);
    RisingMoodAverage(mv);
    RisingMoodVolatility(mv);
    VolatilityOfConstant(sv, 7);
    AverageOfConstant(sv, 7);
    AverageOfConstant(tv, 5);
    TrendOfConstant(tv, 5);
  }
}
