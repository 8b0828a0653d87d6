// The chat adapter of src/lib/intelligence/buildChatMentalSummary.ts: the
// summary of a 30-day range plus the requested window's coverage and the
// window dates no journal row carries.
module ChatSummary {
  import opened Wrappers
  import opened UserSummary

  datatype Coverage = NoCoverage | Partial | Full

  /** The requested window as given: first and last day, both inclusive. */
  datatype DateRange = DateRange(start: int, end: int)

  datatype ChatMeta = ChatMeta(
    dateRange: DateRange,
    daysPresent: nat,
    daysRequested: int,
    coverage: Coverage,
    missingDates: Option<seq<int>>)

  datatype ChatMentalSummary = ChatMentalSummary(summary: MentalSummary, meta: ChatMeta)

  /** The days start, start + 1, ..., start + n - 1. */
  function Window(start: int, n: int): (w: seq<int>)
    ensures |w| == if n < 0 then 0 else n
    ensures forall i :: 0 <= i < |w| ==> w[i] == start + i
  {
    seq(if n < 0 then 0 else n, i => start + i)
  }

  lemma WindowMembers(start: int, n: int)
    ensures forall d :: d in Window(start, n) <==> start <= d < start + n
    ensures StrictlyAscending(Window(start, n))
  {
    var w := Window(start, n);
    forall d | start <= d < start + n
      ensures d in w
    {
      assert w[d - start] == d;
    }
  }

  /** Whole days from start to end, plus one: the window is inclusive of
      both ends, and empty when end comes before start. */
  function DaysRequested(start: int, end: int): (n: int)
    ensures forall d :: d in Window(start, n) <==> start <= d <= end
    ensures start <= end ==> n >= 1
  {
    WindowMembers(start, end - start + 1);
    end - start + 1
  }

  /** The coverage class: none for no rows, partial for fewer rows than
      requested days, full otherwise (also when rows outnumber days). */
  function CoverageOf(daysPresent: nat, daysRequested: int): (c: Coverage)
    ensures c == NoCoverage <==> daysPresent == 0
    ensures c == Partial <==> 0 < daysPresent < daysRequested
    ensures c == Full <==> daysPresent > 0 && daysPresent >= daysRequested
  {
    if daysPresent == 0 then NoCoverage
    else if daysPresent < daysRequested then Partial
    else Full
  }

  ghost predicate StrictlyAscending(s: seq<int>) {
    forall i, j :: 0 <= i < j < |s| ==> s[i] < s[j]
  }

  function Dates(journals: seq<SummaryRow>): (present: set<int>)
    ensures forall j :: j in journals ==> j.date in present
    ensures forall d :: d in present ==> exists j :: j in journals && j.date == d
  {
    set j | j in journals :: j.date
  }

  /** The missing-dates loop: each day of the window, in order, that is not
      among the journal dates. */
  method MissingDates(start: int, daysRequested: int, present: set<int>) returns (missing: seq<int>)
    ensures StrictlyAscending(missing)
    ensures forall d :: d in missing <==> start <= d < start + daysRequested && d !in present
  {
    missing := [];
    var i := 0;
    while i < daysRequested
      invariant daysRequested >= 0 ==> 0 <= i <= daysRequested
      invariant daysRequested < 0 ==> i == 0
      invariant StrictlyAscending(missing)
      invariant forall d :: d in missing ==> start <= d < start + i && d !in present
      invariant forall d :: start <= d < start + i && d !in present ==> d in missing
    {
      var d := start + i;
      if d !in present {
        assert forall k :: 0 <= k < |missing| ==> missing[k] in missing;
        missing := missing + [d];
      }
      i := i + 1;
    }
  }

  /** The missing dates are the window minus the present dates, so their
      number is the window size minus the number of window days that have
      a row. */
  lemma MissingCount(start: int, daysRequested: nat, present: set<int>, missing: seq<int>)
    requires StrictlyAscending(missing)
    requires forall d :: d in missing <==> start <= d < start + daysRequested && d !in present
    ensures |missing| == daysRequested - |set d | d in Window(start, daysRequested) && d in present|
  {
    var w := Window(start, daysRequested);
    WindowMembers(start, daysRequested);
    var window := set d | d in w;
    var covered := set d | d in w && d in present;
    var m := set d | d in missing;
    assert m == window - covered;
    assert window == m + covered;
    assert m * covered == {};
    DistinctCard(w);
    DistinctCard(missing);
  }

  lemma {:induction false} DistinctCard(s: seq<int>)
    requires StrictlyAscending(s)
    ensures |set d | d in s| == |s|
  {
    if s != [] {
      var init := s[..|s| - 1];
      DistinctCard(init);
      assert (set d | d in s) == (set d | d in init) + {s[|s| - 1]};
      assert s[|s| - 1] !in init;
    }
  }

  /** `buildChatMentalSummary`, with the requested window as day numbers. */
  method BuildChatMentalSummary(journals: seq<SummaryRow>, startDate: int, endDate: int)
    returns (r: ChatMentalSummary)
    ensures r.summary == BuildUserMentalSummary(journals, Days30)
    ensures r.meta.dateRange == DateRange(startDate, endDate)
    ensures r.meta.daysRequested == DaysRequested(startDate, endDate)
    ensures r.meta.daysPresent == |journals|
    ensures r.meta.coverage == CoverageOf(|journals|, r.meta.daysRequested)
    ensures r.meta.missingDates.Some? <==> r.meta.coverage == Partial
    ensures r.meta.missingDates.Some? ==>
      var missing := r.meta.missingDates.value;
      StrictlyAscending(missing)
      && forall d :: d in missing <==> startDate <= d <= endDate && d !in Dates(journals)
  {
    var baseSummary := BuildUserMentalSummary(journals, Days30);
    var daysRequested := DaysRequested(startDate, endDate);
    var daysPresent := |journals|;

    var coverage := NoCoverage;
    if daysPresent == 0 {
      coverage := NoCoverage;
    } else if daysPresent < daysRequested {
      coverage := Partial;
    } else {
      coverage := Full;
    }

    var presentDates := Dates(journals);
    var missingDates := MissingDates(startDate, daysRequested, presentDates);

    var meta := ChatMeta(DateRange(startDate, endDate), daysPresent, daysRequested, coverage,
                         if coverage == Partial then Some(missingDates) else None);
    r := ChatMentalSummary(baseSummary, meta);
  }

  /** The statistics always judge sufficiency against 30 expected days,
      whatever window the chat asked for. */
  lemma ChatQualityIsThirtyDay(journals: seq<SummaryRow>)
    ensures BuildUserMentalSummary(journals, Days30).dataQuality.sufficient <==> |journals| >= 18
    ensures BuildUserMentalSummary(journals, Days30).dataQuality.daysMissing == if |journals| >= 30 then 0 else 30 - |journals|
  {
  }
}
