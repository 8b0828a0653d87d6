// The pure helpers of src/app/api/ai/chat/route.ts: `clamp`, the
// per-row normalisation, and how the normalised rows reach the summary.
module ChatRoute {
  import opened Wrappers
  import opened Numeric
  import opened Journal
  import opened UserSummary
  import ChatSummary
  import Sorting

  /** `Math.min(max, Math.max(min, v))`. */
  function Clamp(v: int, lo: int, hi: int): (r: int)
    ensures lo <= hi ==> lo <= r <= hi
    ensures lo <= v <= hi ==> r == v
    ensures v < lo && lo <= hi ==> r == lo
    ensures v > hi ==> r == hi
  {
    Min(hi, Max(lo, v))
  }

  /** The same `clamp` on a fractional number, as the screen-time hours
      reach it. */
  function ClampReal(v: real, lo: real, hi: real): (r: real)
    ensures lo <= hi ==> lo <= r <= hi
    ensures lo <= v <= hi ==> r == v
    ensures v < lo && lo <= hi ==> r == lo
    ensures v > hi ==> r == hi
  {
    var raised := if lo >= v then lo else v;
    if hi <= raised then hi else raised
  }

  /** On whole numbers the two clamps agree: they are one JavaScript
      function on numbers. */
  lemma ClampAgrees(v: int, lo: int, hi: int)
    ensures Clamp(v, lo, hi) as real == ClampReal(v as real, lo as real, hi as real)
  {
  }

  datatype NormalizedJournal = NormalizedJournal(
    date: int,
    mood: int,
    stress: int,
    sleepHours: int,
    productivity: int,
    overthinking: int,
    screenTimeHours: real,
    exercise: bool,
    dietScore: real,
    socialScore: real)

  function DietScore(diet: Field<string>): (s: real)
    ensures diet == Value("Good") ==> s == 1.0
    ensures diet == Value("Bad") ==> s == 0.0
    ensures diet != Value("Good") && diet != Value("Bad") ==> s == 0.5
  {
    if diet == Value("Good") then 1.0 else if diet == Value("Bad") then 0.0 else 0.5
  }

  function SocialScore(social: Field<string>): (s: real)
    ensures social == Value("Decent") ==> s == 1.0
    ensures social == Value("Zero") ==> s == 0.0
    ensures social != Value("Decent") && social != Value("Zero") ==> s == 0.5
  {
    if social == Value("Decent") then 1.0 else if social == Value("Zero") then 0.0 else 0.5
  }

  /** `normalizeJournal`: null columns take their defaults (mood, stress,
      productivity and overthinking 5, sleep 6, screen parts 0), then each
      value is clamped. */
  function NormalizeJournal(row: JournalRow): (n: NormalizedJournal)
    ensures n.date == row.date
    ensures 1 <= n.mood <= 10 && 1 <= n.stress <= 10
    ensures 1 <= n.productivity <= 10 && 1 <= n.overthinking <= 10
    ensures 0 <= n.sleepHours <= 12 && 0.0 <= n.screenTimeHours <= 24.0
    ensures n.exercise <==> Exercised(row)
  {
    NormalizedJournal(
      row.date,
      Clamp(row.mood.Or(5), 1, 10),
      Clamp(row.stress_level.Or(5), 1, 10),
      Clamp(row.sleep_hours.Or(6), 0, 12),
      Clamp(row.productivity.Or(5), 1, 10),
      Clamp(row.overthinking.Or(5), 1, 10),
      ClampReal(row.screen_work.Or(0.0) + row.screen_entertainment.Or(0.0), 0.0, 24.0),
      Exercised(row),
      DietScore(row.diet_status),
      SocialScore(row.social_time))
  }

  /** Missing columns take the documented defaults, and a present value
      in range passes through; a present 0 mood is clamped to 1. */
  lemma NormalizeDefaults(row: JournalRow)
    ensures !row.mood.Value? ==> NormalizeJournal(row).mood == 5
    ensures !row.stress_level.Value? ==> NormalizeJournal(row).stress == 5
    ensures !row.sleep_hours.Value? ==> NormalizeJournal(row).sleepHours == 6
    ensures !row.productivity.Value? ==> NormalizeJournal(row).productivity == 5
    ensures !row.overthinking.Value? ==> NormalizeJournal(row).overthinking == 5
    ensures row.mood == Value(0) ==> NormalizeJournal(row).mood == 1
    ensures row.mood.Value? && 1 <= row.mood.v <= 10 ==> NormalizeJournal(row).mood == row.mood.v
    ensures !row.screen_work.Value? && !row.screen_entertainment.Value? ==> NormalizeJournal(row).screenTimeHours == 0.0
    ensures row.screen_work.Value? && row.screen_entertainment.Value?
            && 0.0 <= row.screen_work.v + row.screen_entertainment.v <= 24.0
            ==> NormalizeJournal(row).screenTimeHours == row.screen_work.v + row.screen_entertainment.v
  {
  }

  /** How `buildUserMentalSummary` sees a normalised journal: it reads
      `mood` and `stress`, but the normalised row carries `sleepHours` and
      `exercise` instead of `sleep_hours` and `exercised`, so those keys are
      missing. */
  function AsSummaryRow(n: NormalizedJournal): (r: SummaryRow)
    ensures r.date == n.date && r.mood == Value(n.mood) && r.stress == Value(n.stress)
    ensures r.sleep_hours == Undefined && r.exercised == Undefined
  {
    SummaryRow(n.date, Value(n.mood), Value(n.stress), Undefined, Undefined)
  }

  /** The journals handed to the chat summary: each row normalised. */
  function ChatJournals(rows: seq<JournalRow>): (js: seq<SummaryRow>)
    ensures |js| == |rows|
    ensures forall i :: 0 <= i < |rows| ==> js[i] == AsSummaryRow(NormalizeJournal(rows[i]))
  {
    Map(rows, (row: JournalRow) => AsSummaryRow(NormalizeJournal(row)))
  }

  /** Because of the key mismatch, a chat summary never has sleep
      statistics or correlations, whatever the rows hold. */
  lemma ChatSummaryLacksSleep(rows: seq<JournalRow>)
    ensures var s := BuildUserMentalSummary(ChatJournals(rows), Days30);
      s.sleep == SleepStats(None, None) && s.correlations == Correlations(None, None)
  {
    var js := ChatJournals(rows);
    var sorted := Sorting.SortBy(js, ByDate);
    forall r | r in sorted
      ensures r.sleep_hours == Undefined && r.exercised == Undefined
    {
      Sorting.SortByMembers(js, ByDate, r);
    }
    var sleeps := Map(sorted, (r: SummaryRow) => r.sleep_hours);
    NumbersEmpty(sleeps);
    assert SleepValues(sorted) == [];
    FilterNone(sorted, (r: SummaryRow) => r.sleep_hours.Value? && r.mood.Value?);
    FilterNone(sorted, (r: SummaryRow) => r.stress.Value? && r.exercised.Value?);
  }

  /** The chat path end to end: the summary inside the chat adapter's result
      has no sleep statistics and no correlations. */
  method ChatSummaryOf(rows: seq<JournalRow>, startDate: int, endDate: int)
    returns (r: ChatSummary.ChatMentalSummary)
    ensures r.summary.sleep == SleepStats(None, None)
    ensures r.summary.correlations == Correlations(None, None)
    ensures r.meta.daysPresent == |rows|
  {
    var normalizedJournals := ChatJournals(rows);
    r := ChatSummary.BuildChatMentalSummary(normalizedJournals, startDate, endDate);
    ChatSummaryLacksSleep(rows);
  }
}
