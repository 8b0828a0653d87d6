# Ambit journal logic in Dafny

Ambit is a Next.js mental-health journal. Users fill in a four-step daily
entry covering mood, sleep, stress, exercise, screen time, caffeine and time
outdoors. A dashboard, a report page and a chat assistant then read those
rows back as statistics. This project models the deterministic layer beneath
that UI and proves properties of it. The layer consists of:

- **The statistics summary.** `buildUserMentalSummary` computes the mean,
  the half-split trend, the population volatility, sleep consistency, an
  additive risk level, correlation sums and a 60 % data-sufficiency gate.
  The chat adapter `buildChatMentalSummary` adds the requested day count,
  none/partial/full coverage and the missing dates. The modules are
  `UserSummary` and `ChatSummary`.
- **The report aggregation.** This is the body of the report route's `GET`
  after its database query, as a function of the rows the query returned.
  The `days` query parameter (`Report.ReportDays`) only sets the query's
  start date, which is not part of this model. The aggregation covers:
  - sorted trend series and averages that skip missing values;
  - exercise habit consistency with a half-split trend;
  - the three best and three worst days with their notes;
  - the risk block;
  - the insight and recommendation rule tables with their fallback.

  The module is `Report`, with `Sorting` providing the stable insertion sort
  it and the cards use.
- **The chat helpers.** These are `clamp` and `normalizeJournal`
  (`ChatRoute`), `updateChatContext` (`ChatContext`), `detectScope`
  (`DetectScope`) and `extractDateIntent` (`DateIntent`).
- **The dashboard.** `Dashboard` covers the page's range filter, exercise
  pie, volatility, best and worst day and consistency percentages.
  `DashboardWidgets` covers the mood overview, volatility line, activity
  ring, sleep ring and exercise/mood bars. `Streak` is the streak counter,
  `RiskBadge` the risk badge, and `InsightCards` the three insight cards.
- **The forms.** `JournalWizard` is the new-journal wizard: a `JournalForm`
  class holding the entry and the step. Its quick-add buttons are modelled in
  `Caffeine` and `Outdoors` and in the stress-trigger functions of
  `JournalWizard`. The onboarding step machine is an `OnboardingForm` class
  in `Onboarding`.
- **The landing page's `formatNumber`** (`Landing`).

The shared modules are:

- `Wrappers` holds `Option` and the three-way JSON field (`undefined`,
  `null`, a value), so each consumer's own test is modelled: `??`,
  `typeof === "number"` or `!== undefined`.
- `Journal` is the `journals` row. The two screen-time columns come from
  number inputs and are real numbers of hours; the slider columns are
  whole numbers.
- `Numeric` holds JavaScript rounding, means and filters.
- `Text` holds the `String.prototype` operations used.

Dates are integer day numbers. Where the code compares ISO `YYYY-MM-DD`
strings, comparing day numbers is the same comparison, since those strings
sort in chronological order; "today" is then a parameter. The dashboard's
range filter compares `Date` objects instead: the current instant is a
parameter in milliseconds since the epoch, an entry's date stands for its
midnight UTC, and `Dashboard.InWindowDays` shows what that means in days.
At any time after midnight the filter keeps `range - 1` calendar days, not
`range`: the oldest day's midnight lies before the cutoff.

The chat route's `normalizeJournal` emits `sleepHours` and `exercise`,
while `buildUserMentalSummary` reads `sleep_hours` and `exercised`. The
model keeps that mismatch (`ChatRoute.AsSummaryRow`) and proves what follows
from it: a chat summary never has sleep statistics or correlations
(`ChatRoute.ChatSummaryLacksSleep`).

Code that changes state step by step is modelled as methods with loops,
checked against specification functions. This covers the streak loops, the
correlation sums, the missing-date loop, the volatility sums, the exercise
counter, the report's `push` tables and the two form classes. The
filter/map/reduce code is modelled as functions.

## Model

| member | source | states |
|---|---|---|
| DetectScope.DetectScope | src/lib/ai/detectScope.ts:3-18 | the message is out of scope exactly when its lower-cased text contains one of weather, temperature, news, stocks, cricket, football |
| DetectScope.ScopeIgnoresCase | src/lib/ai/detectScope.ts:4 | lower-casing the message first does not change the verdict |
| DetectScope.NewsletterIsOutOfScope | src/lib/ai/detectScope.ts:7-13 | matching is by substring: "newsletter" is out of scope |
| DetectScope.ShortMessagesAllowed | src/lib/ai/detectScope.ts:17 | every message shorter than four characters, the empty one included, is allowed |
| DateIntent.ExtractDateIntent | src/lib/ai/extractDateIntent.ts:6-35 | "yesterday" gives the single day today − 1; otherwise "last week" gives the range today − 7 to today − 1 (seven days, ending before today); otherwise no intent; matching is on the lower-cased message |
| DateIntent.YesterdayWins | src/lib/ai/extractDateIntent.ts:15-21 | a message holding both phrases matches "yesterday", which is checked first |
| ChatContext.Last | src/lib/ai/updateChatContext.ts:22 | `slice(-n)` keeps min(n, length) elements and they are the suffix of the input |
| ChatContext.LastOfLast | src/lib/ai/updateChatContext.ts:11-22 | trimming the history before appending changes nothing: after any number of turns the window is the last four messages of the whole conversation |
| ChatContext.FocusOf | src/lib/ai/updateChatContext.ts:32-36 | "sleep" beats "stress", which beats "mood"/"feel"; without any of them the previous focus is kept, or "general" when there was none |
| ChatContext.UpdateChatContext | src/lib/ai/updateChatContext.ts:3-47 | the new context holds the last four of the previous messages plus the user message and the reply, the focus of FocusOf, the time range ("90" over "month" over "week", else the previous one), the first 140 characters of the reply, and every other field of the previous context (an absent context counts as empty) |
| ChatContext.WindowShape | src/lib/ai/updateChatContext.ts:15-22 | the window holds two to four messages and ends with the user's message followed by the reply |
| ChatContext.SleepInAnyCase | src/lib/ai/updateChatContext.ts:8-33 | a word that lower-cases to "sleep" ("SLEEP", "Sleep") anywhere in the message puts the focus on sleep, since the keywords are looked up in the lower-cased message |
| Landing.FormatNumber | src/app/page.tsx:16-21 | from one billion on the figure is n in billions, below it n in millions, rounded to a whole number of tenths: the multiple of 0.1 within half a tenth of it, halves going up (so within 0.05); never negative for n ≥ 0 |
| Landing.Suffix | src/app/page.tsx:193 | the suffix is "B+" exactly when isBillion holds and "M+" exactly when it does not |
| Landing.FormatNumberMonotone | src/app/page.tsx:16-21 | within one unit a larger figure never shows a smaller number |
| Landing.FormatNumberOfTenths | src/app/page.tsx:16-21 | a whole number of tenths of a billion (from one billion) or of a million is shown exactly |
| Landing.StatsDisplay | src/app/page.tsx:25-31 | the five figures read 1.1 B+, 332 M+, 0.7 M+, 1 M+ and 910 M+ |
| Landing.JustUnderBillion | src/app/page.tsx:16-23 | 999 999 999 is shown as 1000 M+: rounding happens after the unit is chosen |
| Onboarding.Check | src/app/onboarding/page.tsx:38-45 | a step's answer is rejected exactly when it fails that step's rule (1: a non-blank name; 2: sleep above 0; 3 to 5: non-blank problems, conditions, location; 6: happiness in 0..10); a rejection carries that step's non-empty message; a step outside 1..6 checks nothing |
| Onboarding.Advance | src/app/onboarding/page.tsx:38-47 | "Continue" moves one step on exactly when the answer passes and the step is below 6, otherwise it stays; the step stays within 1..6 |
| Onboarding.CompleteAnswersReachEnd | src/app/onboarding/page.tsx:35-47 | with answers that pass every step, k presses from step s reach min(s + k, 6) |
| Onboarding.RejectedAnswerBlocks | src/app/onboarding/page.tsx:38-45 | a rejected answer holds the form at its step however often "Continue" is pressed |
| Onboarding.Progress | src/app/onboarding/page.tsx:58 | progress × 6 = step × 100 |
| Onboarding.ProgressBounds | src/app/onboarding/page.tsx:58 | on steps 1..6 the bar is above 0, grows with the step, reaches at most 100, and is full exactly on step 6 |
| Onboarding.OnboardingForm.constructor | src/app/onboarding/page.tsx:11-19 | the form starts on step 1 with an empty name, 8 hours of sleep, happiness 5, no message and no user |
| Onboarding.OnboardingForm.SignIn | src/app/onboarding/page.tsx:21-27 | the session's user id is stored and the name is set from the account metadata, empty when absent; nothing else changes |
| Onboarding.OnboardingForm.Answer | src/app/onboarding/page.tsx:90-181 | an input edit replaces the answers and changes nothing else |
| Onboarding.OnboardingForm.HandleNext | src/app/onboarding/page.tsx:35-56 | the message is cleared, a rejected answer sets its message and keeps the step, a passing answer below step 6 advances; on step 6 the profile (user id and answers) is saved exactly when a non-empty user id exists, else "User not logged in"; the save's error becomes the message, and the form leaves for the dashboard only after a save without error; the step stays within 1..6 |
| Onboarding.OnboardingForm.Back | src/app/onboarding/page.tsx:195-197 | the back arrow, offered only after step 1, moves one step back and changes nothing else |
| ChatRoute.Clamp | src/app/api/ai/chat/route.ts:9-11 | with lo ≤ hi the result lies in [lo, hi]; a value in range is returned unchanged, one below is raised to lo, one above lowered to hi |
| ChatRoute.ClampReal | src/app/api/ai/chat/route.ts:9-11 | the same clamp on fractional numbers: with lo ≤ hi the result lies in [lo, hi]; in range unchanged, below raised to lo, above lowered to hi |
| ChatRoute.ClampAgrees | src/app/api/ai/chat/route.ts:9-11 | on whole numbers the clamp on reals gives the same value as the clamp on integers |
| ChatRoute.DietScore | src/app/api/ai/chat/route.ts:23 | 1 for "Good", 0 for "Bad", 0.5 for anything else, a missing value included |
| ChatRoute.SocialScore | src/app/api/ai/chat/route.ts:24 | 1 for "Decent", 0 for "Zero", 0.5 for anything else |
| ChatRoute.NormalizeJournal | src/app/api/ai/chat/route.ts:13-26 | the date passes through; mood, stress, productivity and overthinking end in [1, 10], sleep in [0, 12], screen time (work plus entertainment, fractional hours) in [0, 24]; exercise is true exactly when the row's exercise list is non-empty |
| ChatRoute.NormalizeDefaults | src/app/api/ai/chat/route.ts:16-21 | missing mood, stress, productivity and overthinking become 5 and missing sleep 6 before clamping; a present 0 mood is clamped to 1, not defaulted; an in-range mood passes unchanged; two missing screen parts give 0; two present parts whose sum lies in [0, 24] give exactly that sum, fractions kept |
| ChatRoute.AsSummaryRow | src/lib/intelligence/buildUserMentalSummary.ts:41-47 | the summary builder sees the normalised mood and stress, but finds no `sleep_hours` or `exercised` key, because the normalised row names them `sleepHours` and `exercise` |
| ChatRoute.ChatJournals | src/app/api/ai/chat/route.ts:58 | one summary row per fetched row, in order, each the normalised row as the summary builder reads it |
| ChatRoute.ChatSummaryLacksSleep | src/app/api/ai/chat/route.ts:58-59 | whatever the rows hold, the chat summary has null sleep statistics and null correlations |
| ChatRoute.ChatSummaryOf | src/app/api/ai/chat/route.ts:58-59 | end to end, the chat adapter's summary has no sleep statistics and no correlations, and counts one present day per fetched row |
| ChatSummary.DaysRequested | src/lib/intelligence/buildChatMentalSummary.ts:51-54 | the window start .. start + n − 1 holds exactly the days from start to end, both included; n ≥ 1 when start ≤ end |
| ChatSummary.CoverageOf | src/lib/intelligence/buildChatMentalSummary.ts:58-61 | "none" exactly when no row is present, "partial" exactly when 0 < present < requested, "full" otherwise, also when rows outnumber the days |
| ChatSummary.Dates | src/lib/intelligence/buildChatMentalSummary.ts:64 | the set of present dates holds exactly the dates of the journal rows |
| ChatSummary.MissingDates | src/lib/intelligence/buildChatMentalSummary.ts:65-74 | the loop's output is strictly ascending (so duplicate-free) and holds exactly the window days that no row carries |
| ChatSummary.MissingCount | src/lib/intelligence/buildChatMentalSummary.ts:65-74 | the number of missing dates is the window size minus the number of window days that have a row |
| ChatSummary.BuildChatMentalSummary | src/lib/intelligence/buildChatMentalSummary.ts:32-92 | the statistics are the 30-day summary of the rows; the range is echoed; days requested is inclusive; days present counts rows, not distinct dates; the coverage is CoverageOf; missing dates are present exactly when the coverage is partial, and then are ascending and are exactly the window days with no row |
| ChatSummary.ChatQualityIsThirtyDay | src/lib/intelligence/buildChatMentalSummary.ts:42-45 | the data-quality block always refers to 30 expected days: sufficient exactly from 18 rows, missing max(0, 30 − rows) |
| UserSummary.ComputeAverage | src/lib/intelligence/buildUserMentalSummary.ts:51-55 | null exactly for no values; otherwise within 0.005 of the mean (the two-decimal rounding) |
| UserSummary.AverageOfConstant | src/lib/intelligence/buildUserMentalSummary.ts:51-55 | the average of a constant non-empty series is that constant |
| UserSummary.ComputeTrend | src/lib/intelligence/buildUserMentalSummary.ts:57-70 | flat below four values; otherwise up exactly when the rounded mean of values[⌊n/2⌋..] minus that of values[..⌊n/2⌋] exceeds 0.3, down exactly when it is below −0.3 |
| UserSummary.TrendOfConstant | src/lib/intelligence/buildUserMentalSummary.ts:57-70 | a constant series is flat |
| UserSummary.TrendOfIncreasing | src/lib/intelligence/buildUserMentalSummary.ts:57-70 | a strictly increasing series of at least four integers trends up |
| UserSummary.TrendOfDecreasing | src/lib/intelligence/buildUserMentalSummary.ts:57-70 | a strictly decreasing series of at least four integers trends down |
| UserSummary.MeanHundredths | src/lib/intelligence/buildUserMentalSummary.ts:54 | the two-decimal average is a whole number of hundredths |
| UserSummary.MeanHundredthsOfConstant | src/lib/intelligence/buildUserMentalSummary.ts:54 | a constant series c has the average 100·c hundredths |
| UserSummary.SumSqDevZero | src/lib/intelligence/buildUserMentalSummary.ts:78-79 | the squared deviations about k/100 add up to zero exactly when every value equals k/100 |
| UserSummary.ScaledVariance | src/lib/intelligence/buildUserMentalSummary.ts:78-79 | the population variance (divided by n) about the two-decimal mean is never negative |
| UserSummary.HundredthsWhole | src/lib/intelligence/buildUserMentalSummary.ts:81 | k/100 is a whole number of hundredths |
| UserSummary.ComputeVolatility | src/lib/intelligence/buildUserMentalSummary.ts:72-82 | null exactly below two values; otherwise a non-negative whole number of hundredths h/100 with h the integer nearest the square root of 10000 × the population variance |
| UserSummary.VolatilityOfConstant | src/lib/intelligence/buildUserMentalSummary.ts:72-82 | a constant series of two or more values has volatility 0 |
| UserSummary.ComputeSleepConsistency | src/lib/intelligence/buildUserMentalSummary.ts:84-90 | null exactly when the volatility is null; otherwise max(0, 10 − volatility), which lies in [0, 10] |
| UserSummary.ConsistencyExact | src/lib/intelligence/buildUserMentalSummary.ts:89 | 10 minus a two-decimal volatility, floored at 0, is unchanged by the second `toFixed(2)` |
| UserSummary.RiskScore | src/lib/intelligence/buildUserMentalSummary.ts:98-103 | the additive score (2 for a falling mood, 1 each for volatility above 2, sleep below 6, stress above 7, nothing for a null input) is at most 5 |
| UserSummary.LevelOfScore | src/lib/intelligence/buildUserMentalSummary.ts:105-107 | high exactly from 4, moderate exactly for 2 and 3, low exactly below 2 |
| UserSummary.ComputeRiskLevel | src/lib/intelligence/buildUserMentalSummary.ts:92-108 | the level of the accumulated score; without a falling mood it is never high, with one never low |
| UserSummary.SqDevZeroIffConstant | src/lib/intelligence/buildUserMentalSummary.ts:127-132 | the squared deviations about the two-decimal mean vanish exactly when the series is constant |
| UserSummary.AccumulateSums | src/lib/intelligence/buildUserMentalSummary.ts:118-129 | the loop yields the cross-deviation sum and the two squared-deviation sums about the two-decimal means |
| UserSummary.ProductZero | src/lib/intelligence/buildUserMentalSummary.ts:131-132 | the denominator sqrt(denomX·denomY) is 0 exactly when one of the sums is 0 |
| UserSummary.ComputeCorrelation | src/lib/intelligence/buildUserMentalSummary.ts:110-135 | null exactly when the lengths differ, there are fewer than 3 pairs, or either series is constant; otherwise the three sums of the coefficient |
| UserSummary.Numbers | src/lib/intelligence/buildUserMentalSummary.ts:146-156 | `filter(typeof v === "number")` keeps at most as many values as there are fields |
| UserSummary.NumbersEmpty | src/lib/intelligence/buildUserMentalSummary.ts:146-156 | the filter is empty exactly when no field holds a number |
| UserSummary.NumbersOfValues | src/lib/intelligence/buildUserMentalSummary.ts:146-156 | when every field holds a number, the filter keeps all of them in order |
| UserSummary.SleepMoodPairs | src/lib/intelligence/buildUserMentalSummary.ts:180-185 | the sleep and mood arrays come from the same filtered rows, so they have equal length, at most the number of rows |
| UserSummary.CorrelationOf | src/lib/intelligence/buildUserMentalSummary.ts:110-135 | definition: null for unequal lengths, fewer than three pairs or a zero denominator, otherwise the three sums; ComputeCorrelation and SqDevZeroIffConstant state when it is null |
| UserSummary.MoodValues | src/lib/intelligence/buildUserMentalSummary.ts:146-148 | definition: the numeric moods of the sorted rows; Numbers, NumbersEmpty and NumbersOfValues state what the filter keeps |
| UserSummary.SleepValues | src/lib/intelligence/buildUserMentalSummary.ts:150-152 | definition: the numeric sleep hours of the sorted rows, stated through Numbers as for the moods |
| UserSummary.StressValues | src/lib/intelligence/buildUserMentalSummary.ts:154-156 | definition: the numeric stress levels of the sorted rows, stated through Numbers as for the moods |
| UserSummary.ExerciseStressPairs | src/lib/intelligence/buildUserMentalSummary.ts:192-197 | the exercise and stress arrays have equal length and the exercise array holds only 1 and 0 |
| UserSummary.ExpectedDays | src/lib/intelligence/buildUserMentalSummary.ts:168-169 | 7, 30 or 90 expected days |
| UserSummary.SufficientThreshold | src/lib/intelligence/buildUserMentalSummary.ts:235 | ⌊0.6 × expected⌋ is 4, 18 or 54 |
| UserSummary.BuildDataQuality | src/lib/intelligence/buildUserMentalSummary.ts:232-236 | present is the row count, missing is max(0, expected − present), present + missing covers the expected days, and the data is sufficient exactly from the threshold |
| UserSummary.BuildUserMentalSummary | src/lib/intelligence/buildUserMentalSummary.ts:138-238 | the time range is echoed and the data-quality block is BuildDataQuality of the row count |
| UserSummary.EmptySummary | src/lib/intelligence/buildUserMentalSummary.ts:138-238 | with no rows every statistic and correlation is null, both trends flat, the risk low and the data insufficient |
| UserSummary.RisingMoodWeek | src/lib/intelligence/buildUserMentalSummary.ts:138-238 | a worked input: seven consecutive days, moods 3 to 9 |
| UserSummary.RisingWeekSorted | src/lib/intelligence/buildUserMentalSummary.ts:142-144 | rows already in date order are not reordered by the sort |
| UserSummary.RisingWeekMoodValues | src/lib/intelligence/buildUserMentalSummary.ts:146-148 | the worked week's mood values are 3, 4, ..., 9 |
| UserSummary.RisingWeekConstantValues | src/lib/intelligence/buildUserMentalSummary.ts:150-156 | the worked week's sleep values are all 7 and its stress values all 5 |
| UserSummary.RisingMoodAverage | src/lib/intelligence/buildUserMentalSummary.ts:51-55 | the moods 3..9 average 6.00 |
| UserSummary.RisingMoodVolatility | src/lib/intelligence/buildUserMentalSummary.ts:72-82 | the moods 3..9 have population standard deviation 2.00 |
| UserSummary.RisingMoodWeekSummary | src/lib/intelligence/buildUserMentalSummary.ts:138-238 | the worked week trends up with mean 6 and volatility 2 (not above 2), sleep 7 with consistency 10, flat stress 5, low risk and sufficient 7-day data with nothing missing |
| Report.ReportDays | src/app/api/report/route.ts:6-7 | the query value when it is finite and above 0, otherwise 365; always above 0 |
| Report.OrNull | src/app/api/report/route.ts:47-50 | `?? null`: a missing or null value becomes null, a present one is kept |
| Report.SortedEntries | src/app/api/report/route.ts:38-40 | a permutation of the rows in ascending date order |
| Report.Trends | src/app/api/report/route.ts:45-51 | one point per row, in the rows' order, carrying its date and its mood, sleep, stress and productivity, or null where missing |
| Report.TrendsAscending | src/app/api/report/route.ts:38-51 | the trend series has one point per fetched row, in ascending date order |
| Report.Avg | src/app/api/report/route.ts:56-62 | null exactly when no row holds a number for the key; otherwise the mean over exactly the rows that do |
| Report.ValidValues | src/app/api/report/route.ts:57-60 | filtering the rows whose key is a number and reading the key gives exactly the column's numeric values |
| Report.AvgBounds | src/app/api/report/route.ts:56-62 | the average lies between any bounds that every numeric value respects |
| Report.HalfConsistency | src/app/api/report/route.ts:92-96 | 0 for no days; otherwise the exercise percentage, in [0, 100], 100 when every day has exercise and 0 when none has |
| Report.HabitTrendOf | src/app/api/report/route.ts:88-106 | up exactly when the second-half percentage minus the first-half one (split at ⌊n/2⌋) exceeds 5, down exactly when it is below −5 |
| Report.ExerciseConsistency | src/app/api/report/route.ts:85 | round(100 · exercise days / rows) lies in [0, 100], is 100 when every row has exercise, and is 0 only when fewer than half a percent do |
| Report.Habits | src/app/api/report/route.ts:78-113 | empty exactly when there are no rows, otherwise the single "Exercise" row with its consistency and trend |
| Report.SteadyHabitIsFlat | src/app/api/report/route.ts:88-106 | with two rows or more, exercising every day or never gives a flat trend |
| Report.OneDayHabitTrend | src/app/api/report/route.ts:88-106 | a single row falls in the second half alone: one exercise day reads as "up", one rest day as flat |
| Report.Notes | src/app/api/report/route.ts:116-132 | exactly the notes whose guard holds, in the order Low sleep (< 6), High stress (> 6), High productivity (≥ 7), High overthinking (> 6) |
| Report.ToDaySummary | src/app/api/report/route.ts:115-140 | the summary carries the row's date and mood, its sleep or 0, and its notes |
| Report.MoodDays | src/app/api/report/route.ts:142-144 | exactly the rows whose mood is a number |
| Report.Take3 | src/app/api/report/route.ts:148-153 | `slice(0, 3)`: the first min(3, n) elements |
| Report.Summaries | src/app/api/report/route.ts:149-154 | `map(toDaySummary)`: one summary per row, in order |
| Report.Podium | src/app/api/report/route.ts:146-154 | the first three of the sorted copy hold min(3, n) summaries, each of a row of the input |
| Report.PodiumRanked | src/app/api/report/route.ts:146-154 | the podium is the head of the sorted rows, in key order, and every row left off has a key at or after the third |
| Report.SummaryIn | src/app/api/report/route.ts:149-154 | the summary of every mood day is among the mapped summaries |
| Report.BestDays | src/app/api/report/route.ts:146-149 | min(3, n) best days |
| Report.BestDaysRanked | src/app/api/report/route.ts:146-149 | each best day summarises a mood day, moods fall from first to last, and no day left off has a higher mood than the third |
| Report.WorstDays | src/app/api/report/route.ts:151-154 | min(3, n) worst days |
| Report.WorstDaysRanked | src/app/api/report/route.ts:151-154 | each worst day summarises a mood day, moods rise from first to last, and no day left off has a lower mood than the third |
| Report.TopThree | src/app/api/report/route.ts:146-154 | the sorted copy holds only input rows, and every input row is keyed at or after the third or is among the first three |
| Report.MoodVolatility | src/app/api/report/route.ts:160-175 | min(100, round(20 × mean absolute change)) lies in [0, 100] and is 0 with fewer than two moods |
| Report.SleepRegularity | src/app/api/report/route.ts:177-197 | max(0, 100 − round(10 × summed absolute change)) lies in [0, 100] and is 100 with fewer than two values |
| Report.MoodVolatilityExtremes | src/app/api/report/route.ts:160-175 | steady moods score 0; moods that swing by 5 or more every day score 100 |
| Report.SleepRegularityExtremes | src/app/api/report/route.ts:177-197 | steady sleep scores 100; ten hours of summed change or more score 0 however long the window, since the sum is not divided by the day count |
| Report.OverallOf | src/app/api/report/route.ts:199-201 | high exactly above 60, moderate exactly in (35, 60], stable exactly up to 35 |
| Report.AllInsightsListed | src/app/api/report/route.ts:206-250 | the insight table lists every insight rule |
| Report.FiredInsights | src/app/api/report/route.ts:206-250 | an insight is present exactly when its threshold rule holds (mood > 7, volatility > 40, overthinking > 6, sleep < 6, stress > 6; a null average fires nothing) |
| Report.InsightTable | src/app/api/report/route.ts:206-250 | the insights are the fired rules in the fixed push order |
| Report.FiredRecommendations | src/app/api/report/route.ts:255-273 | a recommendation is present exactly when its rule holds (sleep < 7, volatility > 50, stress > 7, exercise consistency < 40), and never the fallback |
| Report.RecommendationTable | src/app/api/report/route.ts:255-273 | the recommendations are the fired rules in the fixed push order |
| Report.Recommendations | src/app/api/report/route.ts:255-278 | never empty; exactly the single fallback when no rule fires, otherwise the fired rules |
| Report.FallbackIff | src/app/api/report/route.ts:255-278 | the fallback alone is given exactly when sleep is at least 7 or unknown, volatility at most 50, stress at most 7 or unknown, and exercise consistency at least 40 or there are no rows |
| Report.PushInsights | src/app/api/report/route.ts:206-250 | the pushes build exactly the fired insights |
| Report.PushRecommendations | src/app/api/report/route.ts:255-278 | the pushes and the fallback build exactly the recommendations |
| Report.HabitRows | src/app/api/report/route.ts:78-113 | the push builds exactly the habit table |
| Report.RiskOf | src/app/api/report/route.ts:303-308 | stress consistency plus mood volatility is 100; volatility and regularity are echoed; overall follows OverallOf |
| Report.BuildReport | src/app/api/report/route.ts:33-312 | the report has the row count, the trends, the five averages, the habits, the best and worst days, the risk block, insights and recommendations, each the function above of the date-sorted rows |
| Sorting.Insert | src/app/api/report/route.ts:146-154 | inserting into a key-sorted sequence adds exactly that element and keeps it sorted |
| Sorting.SortBy | src/app/api/report/route.ts:38-40 | `[...xs].sort` by a numeric key gives a key-sorted permutation of the input, which is left unchanged |
| Sorting.SortByMembers | src/lib/intelligence/buildUserMentalSummary.ts:142-144 | sorting neither adds nor loses a row |
| Sorting.SortedIntsUnique | src/app/dashboard/elements/StreakCounter.tsx:24-26 | two ascending integer sequences with the same elements are equal |
| Sorting.SortInts | src/app/dashboard/elements/StreakCounter.tsx:24-26 | the dates in ascending order, a permutation of the input |
| Sorting.SortIntsOrderFree | src/app/dashboard/elements/StreakCounter.tsx:24-26 | sorting the dates forgets the input order |
| Sorting.SortByAlreadySorted | src/lib/intelligence/buildUserMentalSummary.ts:142-144 | input already in key order comes out unchanged |
| Streak.Scan | src/app/dashboard/elements/StreakCounter.tsx:29-40 | after the best-streak loop 1 ≤ streak ≤ best ≤ number of dates |
| Streak.TrailingRun | src/app/dashboard/elements/StreakCounter.tsx:43-48 | the current count lies between 1 and the number of dates |
| Streak.ScanCoversRuns | src/app/dashboard/elements/StreakCounter.tsx:29-40 | the loop's streak covers every run of one-day steps ending at the last date, and its best covers every such run anywhere |
| Streak.RunStart | src/app/dashboard/elements/StreakCounter.tsx:29-40 | the index where the loop's current streak began lies inside the dates |
| Streak.StreakIsRunFromStart | src/app/dashboard/elements/StreakCounter.tsx:29-40 | on ascending dates the loop's streak is the number of calendar days from the start of the current stretch to the last date; that stretch has no skipped day and the step before it skips one |
| Streak.BestIsLongestRun | src/app/dashboard/elements/StreakCounter.tsx:29-40 | on ascending dates the best streak is the longest stretch without a skipped day (repeated days allowed), counted as last − first + 1 days: every such stretch is at most the best and some stretch equals it |
| Streak.BestCoversGaplessRuns | src/app/dashboard/elements/StreakCounter.tsx:29-40 | no stretch of ascending dates without a skipped day spans more calendar days than the best streak |
| Streak.LastRunWithinStreak | src/app/dashboard/elements/StreakCounter.tsx:29-40 | a stretch without a skipped day that ends at the last date spans no more days than the loop's current streak |
| Streak.BestAttained | src/app/dashboard/elements/StreakCounter.tsx:29-40 | some stretch without a skipped day spans exactly the best streak's number of days |
| Streak.RepeatedDayStreak | src/app/dashboard/elements/StreakCounter.tsx:29-40 | days d, d+1, d+1, d+2 give a best streak of 3: a repeated day neither breaks nor lengthens the streak |
| Streak.TrailingRunMaximal | src/app/dashboard/elements/StreakCounter.tsx:43-48 | the current count is the run of one-day steps ending at the latest date, and the step just before it (a repeated day included) is not one day |
| Streak.TrailingRunIs | src/app/dashboard/elements/StreakCounter.tsx:43-48 | a maximal run of one-day steps at the end has exactly the current count's length |
| Streak.CurrentAtMostBest | src/app/dashboard/elements/StreakCounter.tsx:29-48 | the current streak never exceeds the best one |
| Streak.BestStreak | src/app/dashboard/elements/StreakCounter.tsx:29-40 | the loop computes the best of Scan |
| Streak.CurrentStreak | src/app/dashboard/elements/StreakCounter.tsx:43-48 | the backward loop computes TrailingRun |
| Streak.Streaks | src/app/dashboard/elements/StreakCounter.tsx:7-48 | (0, 0) without entries; otherwise both loops over the ascending dates, with 1 ≤ current ≤ best ≤ number of entries, and the best is the longest stretch of the ascending dates without a skipped day, counted in calendar days: no such stretch is longer and one is exactly that long |
| Streak.StreaksOrderFree | src/app/dashboard/elements/StreakCounter.tsx:24-26 | both streaks depend only on which dates occur how often, not on the input order |
| Streak.WeekStreak | src/app/dashboard/elements/StreakCounter.tsx:29-48 | seven consecutive days give a current and best streak of 7 |
| RiskBadge.WeekStart | src/app/dashboard/elements/RiskLevelBadge.tsx:50-51 | the Monday that starts the week of today: at most six days before it |
| RiskBadge.Recent | src/app/dashboard/elements/RiskLevelBadge.tsx:26-27 | exactly the entries dated today − 6 or later |
| RiskBadge.WeekCount | src/app/dashboard/elements/RiskLevelBadge.tsx:53-56 | the entries of the current week number at most all entries |
| RiskBadge.SignalScore | src/app/dashboard/elements/RiskLevelBadge.tsx:29-47 | the recent-window signals (2 for mood < 4, 2 for stress > 7, 2 for a "Yes" to negative thoughts, 1 for sleep < 6, averages counting missing as 0) add at most 7, and nothing without recent entries |
| RiskBadge.Score | src/app/dashboard/elements/RiskLevelBadge.tsx:23-58 | the score, signals plus 1 for fewer than three entries this week, lies in [0, 8] |
| RiskBadge.LevelOf | src/app/dashboard/elements/RiskLevelBadge.tsx:61-63 | High exactly from 5, Medium exactly for 3 and 4, Low exactly below 3 |
| RiskBadge.Risk | src/app/dashboard/elements/RiskLevelBadge.tsx:20-64 | null ("Not enough data") exactly without entries, otherwise the level of the accumulated score |
| RiskBadge.NothingRecentIsLow | src/app/dashboard/elements/RiskLevelBadge.tsx:29-63 | without a recent entry the badge is Low, since only the weekly point can score |
| RiskBadge.NegativeAndLowMoodAtLeastMedium | src/app/dashboard/elements/RiskLevelBadge.tsx:39-63 | a recent "Yes" to negative thoughts with a recent mood average below 4 makes the badge at least Medium |
| RiskBadge.CalmWeekIsLow | src/app/dashboard/elements/RiskLevelBadge.tsx:29-63 | entries that all have mood ≥ 4, stress ≤ 7, sleep ≥ 6 and no negative thoughts give Low |
| RiskBadge.ColumnMeanAtLeast | src/app/dashboard/elements/RiskLevelBadge.tsx:30-37 | a recent average is at least any lower bound of the column |
| RiskBadge.ColumnMeanAtMost | src/app/dashboard/elements/RiskLevelBadge.tsx:30-37 | a recent average is at most any upper bound of the column |
| RiskBadge.AvgOrZero | src/app/dashboard/elements/RiskLevelBadge.tsx:30-37 | definition: the mean of a column over the recent entries, a null read as 0; ColumnMeanAtLeast and ColumnMeanAtMost bound it |
| InsightCards.DiffsOf | src/app/dashboard/elements/RootCauseInsightCard.tsx:30-70 | each of the three diffs is the card's group-mean difference for that factor |
| InsightCards.FactorsListed | src/app/dashboard/elements/RootCauseInsightCard.tsx:72-94 | the card lists every factor |
| InsightCards.DiffBounds | src/app/dashboard/elements/RootCauseInsightCard.tsx:35-70 | with every mood in [lo, hi] no diff exceeds hi − lo in size |
| InsightCards.GroupDiffBounds | src/app/dashboard/elements/RootCauseInsightCard.tsx:35-39 | a group difference is at most hi − lo in size, and 0 when a group is empty |
| InsightCards.GroupMeanBounds | src/app/dashboard/elements/RootCauseInsightCard.tsx:27-28 | the mean of a non-empty group lies between its bounds |
| InsightCards.ExerciseGroupsPartition | src/app/dashboard/elements/RootCauseInsightCard.tsx:42-53 | exercise and rest days split the rows, and a habit kept every day or never has a zero diff |
| InsightCards.StrongestIndex | src/app/dashboard/elements/RootCauseInsightCard.tsx:96-98 | the reduce ends on a factor of largest impact, the earliest one on ties |
| InsightCards.Strongest | src/app/dashboard/elements/RootCauseInsightCard.tsx:96-98 | the chosen factor is listed and no listed factor has a larger impact |
| InsightCards.RootCauseInsight | src/app/dashboard/elements/RootCauseInsightCard.tsx:17-117 | too little data exactly below 4 rows; no strong pattern exactly when every impact is below 0.5; otherwise a factor of largest impact, Strong exactly from 1.5, with its diff to one decimal |
| InsightCards.RootCauseTieBreak | src/app/dashboard/elements/RootCauseInsightCard.tsx:96-98 | on a tie the earlier of Sleep, Exercise, Screen is reported |
| InsightCards.Survivors | src/app/dashboard/elements/SecondaryImpactInsight.tsx:95 | exactly the factors of impact at least 0.4, each once |
| InsightCards.Ranked | src/app/dashboard/elements/SecondaryImpactInsight.tsx:95-96 | the surviving factors, each once, in non-increasing impact |
| InsightCards.RankedFacts | src/app/dashboard/elements/SecondaryImpactInsight.tsx:95-96 | sorting the survivors keeps them and orders them by impact |
| InsightCards.SecondaryImpactInsight | src/app/dashboard/elements/SecondaryImpactInsight.tsx:17-118 | too little data exactly below 4 rows; no secondary factor exactly when at most one factor clears 0.4; otherwise a factor clearing 0.4 behind exactly one other, Moderate exactly from 1.2, with its diff to one decimal |
| InsightCards.AtMostOneSurvivor | src/app/dashboard/elements/SecondaryImpactInsight.tsx:99-108 | fewer than two ranked factors means no two distinct factors clear 0.4 |
| InsightCards.SecondaryIsSecond | src/app/dashboard/elements/SecondaryImpactInsight.tsx:99 | the second ranked factor clears 0.4, trails the first and leads every other factor |
| InsightCards.GentleSuggestion | src/app/dashboard/elements/GentleSuggestionCard.tsx:17-113 | too little data exactly below 4 rows; the balanced message exactly when every impact is below 0.5; otherwise a nudge about a factor of largest impact |
| InsightCards.SuggestionFollowsRootCause | src/app/dashboard/elements/GentleSuggestionCard.tsx:95-112 | the suggestion nudges exactly when the root-cause card reports a finding, and about the same factor |
| InsightCards.SecondaryDiffersFromClearWinner | src/app/dashboard/elements/SecondaryImpactInsight.tsx:95-99 | a factor strictly ahead of all others is never the secondary one |
| InsightCards.RootCauseCard | src/app/dashboard/elements/RootCauseInsightCard.tsx:17-117 | on journal rows: too little data exactly below 4 rows; no strong pattern exactly when every factor's mood difference is below 0.5 in size; otherwise a factor with the largest difference in size, at least 0.5, shown to one decimal |
| InsightCards.SecondaryImpactCard | src/app/dashboard/elements/SecondaryImpactInsight.tsx:17-118 | on journal rows: too little data exactly below 4 rows; a finding names a factor whose mood difference is at least 0.4 in size with another factor at least as strong, shown to one decimal |
| InsightCards.GentleSuggestionCard | src/app/dashboard/elements/GentleSuggestionCard.tsx:17-113 | on journal rows: too little data exactly below 4 rows; balanced exactly when every factor's mood difference is below 0.5 in size; otherwise a nudge towards a factor of largest difference |
| Dashboard.FilteredEntries | src/app/dashboard/page.tsx:62-73 | exactly the entries whose midnight lies between the cutoff (now moved back range − 1 days) and now: those dated from the cutoff's day (only when now is exactly midnight) or the day after it, up to the current day; no more than there were |
| Dashboard.InWindowDays | src/app/dashboard/page.tsx:65-72 | the filter's instant comparison in days: an entry passes exactly when dated from today − range + 1 (now exactly at midnight) or today − range + 2 (any later time) to today, so after midnight the range keeps range − 1 calendar days |
| Dashboard.SevenDayRangeAtTen | src/app/dashboard/page.tsx:65-72 | at 10:00 the 7-day range drops the entry dated six days back and keeps the one dated five days back |
| Dashboard.WiderRangeKeepsMore | src/app/dashboard/page.tsx:62-73 | at the same instant, a longer range never keeps fewer entries |
| Dashboard.FilterIdempotent | src/app/dashboard/page.tsx:62-73 | filtering an already filtered list by the same range at the same instant changes nothing |
| Dashboard.HasEnoughData | src/app/dashboard/page.tsx:89 | true exactly when two distinct entries pass the range filter |
| Dashboard.CleanTags | src/app/dashboard/page.tsx:194-195 | every tag starting with "Other:" becomes "Other", the others stay, position by position |
| Dashboard.AllTagsLength | src/app/dashboard/page.tsx:193-198 | the visited tags number as many as the entries carry |
| Dashboard.Bump | src/app/dashboard/page.tsx:196 | incrementing a counter adds at most one key |
| Dashboard.BumpTotal | src/app/dashboard/page.tsx:196 | an increment raises the total by one |
| Dashboard.BumpCount | src/app/dashboard/page.tsx:196 | an increment raises exactly the incremented key's count by one |
| Dashboard.BumpIds | src/app/dashboard/page.tsx:196 | the keys after an increment are the old keys plus the incremented one, still each once |
| Dashboard.TallyFacts | src/app/dashboard/page.tsx:190-205 | the counter has one slice per distinct tag, each counting its occurrences, adding up to the number of tags |
| Dashboard.Tally | src/app/dashboard/page.tsx:193-198 | definition: one increment per tag in order; TallyFacts states the counts it reaches |
| Dashboard.ExercisePie | src/app/dashboard/page.tsx:190-205 | the nested loops build the tally of all cleaned tags: each tag once, with its number of occurrences, totalling the tag count |
| Dashboard.TallyStep | src/app/dashboard/page.tsx:194-197 | one more tag of the current entry is one more increment |
| Dashboard.AllTagsStep | src/app/dashboard/page.tsx:193-198 | the tags of the first i + 1 entries extend those of the first i |
| Dashboard.OtherTagsFolded | src/app/dashboard/page.tsx:195 | no "Other: …" tag is ever counted under its own text |
| Dashboard.AllTagsClean | src/app/dashboard/page.tsx:195 | no counted tag starts with "Other:" |
| Dashboard.Moods | src/app/dashboard/page.tsx:220-221 | each entry's mood, a missing one as 0 |
| Dashboard.MeanAbsChange | src/app/dashboard/page.tsx:225 | the mean day-over-day change is never negative |
| Dashboard.TotalChange | src/app/dashboard/page.tsx:217-223 | the loop sums the absolute changes between consecutive moods |
| Dashboard.MoodVolatility | src/app/dashboard/page.tsx:214-226 | 0 below two entries, otherwise the mean absolute change to two decimals, never negative |
| Dashboard.SteadyMoodNoChange | src/app/dashboard/page.tsx:214-226 | moods that never change give a volatility of 0 |
| Dashboard.MeanAbsChangeBounds | src/app/dashboard/page.tsx:214-226 | with moods in [lo, hi] the volatility lies in [0, hi − lo] |
| Dashboard.BestIndex | src/app/dashboard/page.tsx:229-231 | the reduce ends on the first entry of highest mood |
| Dashboard.WorstIndex | src/app/dashboard/page.tsx:236-238 | the reduce ends on the first entry of lowest mood |
| Dashboard.BestDay | src/app/dashboard/page.tsx:227-232 | null exactly without entries, otherwise the first entry of highest mood (missing as 0) |
| Dashboard.WorstDay | src/app/dashboard/page.tsx:234-239 | null exactly without entries, otherwise the first entry of lowest mood (missing as 0) |
| Dashboard.BestAtLeastWorst | src/app/dashboard/page.tsx:227-239 | the best day's mood is never below the worst day's |
| Dashboard.SteadyMoodFirstEntry | src/app/dashboard/page.tsx:227-239 | equal moods make both reduces keep the first entry |
| Dashboard.GoodSleepDays | src/app/dashboard/page.tsx:244-246 | the nights of seven hours or more are at most all entries |
| Journal.ExerciseDays | src/app/dashboard/page.tsx:253-255 | the days logged with exercise (the count the dashboard and the report share) number at most all rows, and none exactly when no row has exercise |
| Dashboard.SleepConsistency | src/app/dashboard/page.tsx:241-249 | 0 without entries, otherwise the rounded percentage of nights of seven hours or more, in [0, 100] |
| Dashboard.ExerciseConsistency | src/app/dashboard/page.tsx:250-258 | 0 without entries, otherwise the rounded percentage of days with exercise, in [0, 100] |
| Dashboard.AllGoodSleepFull | src/app/dashboard/page.tsx:241-249 | seven hours or more every night gives 100 |
| Dashboard.NoLoggedSleepZero | src/app/dashboard/page.tsx:244-246 | nights without a logged value count as short, so no logged sleep gives 0 |
| Dashboard.SleepConsistencyMonotone | src/app/dashboard/page.tsx:241-249 | raising nights to seven hours never lowers the percentage |
| Dashboard.GoodSleepDaysMonotone | src/app/dashboard/page.tsx:244-246 | raising nights to seven hours never lowers the count |
| DashboardWidgets.AverageMood | src/app/dashboard/elements/MoodOverviewHorizontal.tsx:51-55 | null exactly without entries, otherwise within 0.05 of the mean mood (missing as 0) |
| DashboardWidgets.AverageMoodBounds | src/app/dashboard/elements/MoodOverviewHorizontal.tsx:51-55 | moods logged inside [lo, hi] give a displayed average inside [lo, hi] |
| DashboardWidgets.OverviewVolatility | src/app/dashboard/elements/MoodOverviewHorizontal.tsx:57-68 | "0.00" below two entries, otherwise the mean absolute day-over-day change to two decimals |
| DashboardWidgets.MoodColorOf | src/app/dashboard/elements/MoodOverviewHorizontal.tsx:72-79 | muted exactly without an average, green exactly from 7, yellow exactly in [4, 7), red exactly below 4 |
| DashboardWidgets.MoodColorOfWeek | src/app/dashboard/elements/MoodOverviewHorizontal.tsx:51-79 | a week logged at 7 or more shows green, one logged at 3 or less shows red |
| DashboardWidgets.VolatilityLineOf | src/app/dashboard/elements/MoodVolatilityLine.tsx:8-18 | the bar is the value clamped to [0, 6] as a percentage of 6; Stable exactly up to 2, Moderate exactly in (2, 4], High swings exactly above 4 |
| DashboardWidgets.VolatilityLineMonotone | src/app/dashboard/elements/MoodVolatilityLine.tsx:8-10 | a larger volatility never shortens the bar |
| DashboardWidgets.ActivityRing | src/app/dashboard/elements/ActivityRing.tsx:19-20 | completed is the number of entries; remaining fills up to the range and is 0 once the range is reached |
| DashboardWidgets.GoodSleepDays | src/app/dashboard/elements/SleepConsistencyRing.tsx:46-53 | 0 when the query failed, otherwise the nights of seven hours or more (missing as 0) |
| DashboardWidgets.SleepRing | src/app/dashboard/elements/SleepConsistencyRing.tsx:69 | good nights against seven days, remaining 0 once seven are reached |
| DashboardWidgets.SleepRingColor | src/app/dashboard/elements/SleepConsistencyRing.tsx:118-122 | green exactly from 5 good nights, amber exactly for 3 and 4, red exactly below 3 |
| DashboardWidgets.SleepRingFillsWeek | src/app/dashboard/elements/SleepConsistencyRing.tsx:46-69 | a week of at most seven rows fills the ring exactly |
| DashboardWidgets.AvgOrZero | src/app/dashboard/elements/ExerciseMoodComparison.tsx:44-45 | 0 for an empty list, otherwise the mean |
| DashboardWidgets.ExerciseMoodBars | src/app/dashboard/elements/ExerciseMoodComparison.tsx:39-67 | no bars exactly for a failed query or fewer than three rows; otherwise the exercise-day and rest-day bars, which split the rows, each within 0.05 of its group's mean mood |
| DashboardWidgets.NoExerciseWeek | src/app/dashboard/elements/ExerciseMoodComparison.tsx:44-67 | without an exercise day the exercise bar reads 0 and the other bar is the mean of every row to one decimal |
| JournalWizard.MultiSelect | src/app/journal/new/page.tsx:93-111 | a chosen option leaves the list (with "Other" every detail entry goes too, the rest stays); an unchosen one is appended after the unchanged list, "Other" together with an empty "Other: " detail |
| JournalWizard.MultiSelectTwice | src/app/journal/new/page.tsx:93-111 | choosing an option twice restores the list |
| JournalWizard.RewriteOther | src/app/journal/new/page.tsx:113-120 | every detail entry becomes "Other: " plus the typed text, every other entry stays in place |
| JournalWizard.RewriteOtherLastWins | src/app/journal/new/page.tsx:113-120 | typing twice keeps only the last text |
| JournalWizard.ExercisesToSave | src/app/journal/new/page.tsx:163-165 | exactly the selected entries that are neither "Other" nor an untyped "Other:" detail |
| JournalWizard.UntypedOtherNotSaved | src/app/journal/new/page.tsx:163-165 | choosing "Other" and typing nothing adds nothing to what is saved |
| JournalWizard.TriggerText | src/app/journal/new/page.tsx:547 | each trigger label is non-empty, has no surrounding blanks and does not end in a digit |
| JournalWizard.AddStressTrigger | src/app/journal/new/page.tsx:551-567 | a trimmed text that does not end with the tag gets ", tag" appended, or becomes the tag when empty |
| JournalWizard.AddStressTriggerCounts | src/app/journal/new/page.tsx:551-567 | each press raises the trailing count of that trigger by exactly one |
| JournalWizard.AddStressTriggerTwice | src/app/journal/new/page.tsx:551-567 | two presses raise it by two |
| JournalWizard.AddStressTriggerTrimmed | src/app/journal/new/page.tsx:551-567 | the result has no surrounding blanks, so the next press reads it unchanged |
| JournalWizard.RetagCounted | src/app/journal/new/page.tsx:555-562 | a trailing "tag xN" becomes "tag x(N+1)" |
| JournalWizard.RetagBare | src/app/journal/new/page.tsx:555-562 | a bare trailing tag becomes "tag x2" |
| JournalWizard.RecountCounts | src/app/journal/new/page.tsx:561 | the replacement "tag x(count+1)" counts count + 1 |
| JournalWizard.RetagAppend | src/app/journal/new/page.tsx:564-566 | an appended tag counts one more than before |
| JournalWizard.Retag | src/app/journal/new/page.tsx:555-566 | definition: a trailing counted tag is recounted, a bare trailing tag becomes "tag x2", otherwise the tag is appended after ", " (alone on an empty text); RetagCounted, RetagBare and RetagAppend state the count each case leaves |
| JournalWizard.Recount | src/app/journal/new/page.tsx:561 | definition: the matched tail replaced by "tag x(count+1)"; RecountCounts states the count it leaves |
| JournalWizard.CountedSuffix | src/app/journal/new/page.tsx:555 | a text ending in "tag xN" counts N |
| JournalWizard.RetagUnpadded | src/app/journal/new/page.tsx:551-567 | retagging text without surrounding blanks gives text without them |
| JournalWizard.Submit | src/app/journal/new/page.tsx:143-173 | a mood of 0 is refused first, then a missing user; otherwise the posted body is the entry's mood, stress triggers, caffeine and outdoors text with today's date and a single exercise list, the saved exercises, null exactly when none remain |
| JournalWizard.MoodLabelOf | src/app/journal/new/page.tsx:331-335 | the five labels cover (−∞, 2], (2, 4], (4, 6], (6, 8] and above 8 |
| JournalWizard.MoodLabelMonotone | src/app/journal/new/page.tsx:331-335 | a higher mood never shows a gloomier label |
| JournalWizard.MoodLabelsOfSlider | src/app/journal/new/page.tsx:331-335 | every two slider steps from 1 to 10 move to the next label |
| JournalWizard.JournalForm.constructor | src/app/journal/new/page.tsx:54-58 | a new form starts at step 1 with mood 5 and no exercise |
| JournalWizard.JournalForm.NextStep | src/app/journal/new/page.tsx:124-131 | one step on, never past step 4, the entry unchanged |
| JournalWizard.JournalForm.PrevStep | src/app/journal/new/page.tsx:133-140 | one step back, never before step 1, the entry unchanged |
| JournalWizard.JournalForm.SelectExercise | src/app/journal/new/page.tsx:93-111 | the exercise list becomes its multi-select update, nothing else changes |
| JournalWizard.JournalForm.ChangeOtherExercise | src/app/journal/new/page.tsx:113-120 | every detail entry is rewritten, nothing else changes |
| JournalWizard.JournalForm.PressStressTrigger | src/app/journal/new/page.tsx:551-567 | the stress-trigger text gets the quick-add edit, nothing else changes |
| JournalWizard.JournalForm.PressCaffeine | src/app/journal/new/page.tsx:852-864 | the caffeine text gets the quick-add edit, nothing else changes |
| JournalWizard.JournalForm.SetOutdoorMinutes | src/app/journal/new/page.tsx:913-919 | the outdoors text gets the new minutes with its tag group kept, nothing else changes |
| JournalWizard.JournalForm.ToggleOutdoorTag | src/app/journal/new/page.tsx:929-957 | the outdoors text gets the tag toggled and is rewritten as "M mins (tags)", nothing else changes |
| JournalWizard.JournalForm.SubmitEntry | src/app/journal/new/page.tsx:143-173 | the submit outcome of the current entry, the form unchanged |
| Caffeine.DrinkLabel | src/app/journal/new/page.tsx:842-846 | the labels Coffee, Tea and Energy Drink hold no digit or comma and do not start with a blank |
| Caffeine.FirstMatch | src/app/journal/new/page.tsx:854-855 | the leftmost position where a numeral, blanks and the label (in any case) start a match, or none when no position does |
| Caffeine.CupCount | src/app/journal/new/page.tsx:854-857 | definition: the numeral of the first match, 0 without one; AddCaffeineCounts states that a press raises it by one |
| Caffeine.AddCaffeine | src/app/journal/new/page.tsx:852-864 | the button's new caffeine text is longer than the drink's label |
| Caffeine.AddCaffeineCounts | src/app/journal/new/page.tsx:852-864 | every press raises the count the button reads for that drink by exactly one |
| Caffeine.AppendedCounts | src/app/journal/new/page.tsx:861-863 | without a match the appended "1 Label" is the first match and reads 1 |
| Caffeine.IncrementedCounts | src/app/journal/new/page.tsx:857-860 | with a match the rewritten numeral stays the first match and reads one more |
| Caffeine.AppendedMatch | src/app/journal/new/page.tsx:862-863 | "1 Label" after the old text and ", " is the first match |
| Caffeine.ReplacedMatch | src/app/journal/new/page.tsx:859 | writing "N+1 Label" over the first match leaves it the first match |
| Caffeine.NonDigitNoMatch | src/app/journal/new/page.tsx:854 | no match starts at a character that is not a digit |
| Outdoors.SpotText | src/app/journal/new/page.tsx:929 | Walk, Sunlight and Nature are non-empty, trimmed and free of commas |
| Outdoors.TagGroup | src/app/journal/new/page.tsx:938 | none exactly when no ")" follows a "("; otherwise the text between the first "(" and the last ")", which the text contains |
| Outdoors.TagList | src/app/journal/new/page.tsx:939 | splitting at commas, trimming and dropping blanks yields well-formed tags |
| Outdoors.TagListContained | src/app/journal/new/page.tsx:939 | every tag read from a group occurs in it |
| Outdoors.TagsOf | src/app/journal/new/page.tsx:938-939 | the tags of a text are well formed, none without a group |
| Outdoors.TagsContained | src/app/journal/new/page.tsx:938-939 | every tag of a text occurs in it |
| Outdoors.SliderText | src/app/journal/new/page.tsx:913-919 | the new text leads with the slider's minutes |
| Outdoors.SliderKeepsTags | src/app/journal/new/page.tsx:912-919 | the slider keeps the bracketed group, and the slider then reads back its own minutes |
| Outdoors.ToggledTags | src/app/journal/new/page.tsx:941-946 | a selected tag is removed (every copy), an unselected one is appended to the text's tags |
| Outdoors.OutdoorsLineMinutes | src/app/journal/new/page.tsx:949 | the minutes lead the written line |
| Outdoors.OutdoorsLineGroup | src/app/journal/new/page.tsx:949-952 | the group written into the line is the group read back from it |
| Outdoors.TagListOfJoin | src/app/journal/new/page.tsx:938-951 | joining well-formed tags with ", " and splitting the result gives them back |
| Outdoors.ToggleTagsRoundTrip | src/app/journal/new/page.tsx:929-957 | the tags read from a pressed text are the toggled list, and the minutes are those read before |
| Outdoors.ToggleSelects | src/app/journal/new/page.tsx:930-957 | pressing an unselected tag makes it show as selected |
| Outdoors.ToggleTwice | src/app/journal/new/page.tsx:929-957 | pressing a tag twice from unselected gives back the tags and the minutes |
| Outdoors.ToggleText | src/app/journal/new/page.tsx:935-955 | the written line keeps the minutes `parseInt` read from the current text, and its bracketed group is the toggled tags joined by ", ", none when no tag is left |
| Outdoors.IsSelected | src/app/journal/new/page.tsx:930 | definition: a tag is selected when the text contains it (`includes`), an undefined text selecting nothing; ToggleSelects and ToggleTwice state what a press does to it |
| Outdoors.Base | src/app/journal/new/page.tsx:936 | definition: an undefined text is read as "0 mins"; BaseGroup states that it carries no tags |
| Outdoors.OutdoorsLine | src/app/journal/new/page.tsx:949-952 | definition: "M mins", with " (group)" when there is a group; OutdoorsLineMinutes and OutdoorsLineGroup state that both read back |
| Outdoors.BaseGroup | src/app/journal/new/page.tsx:936 | the default "0 mins" holds no tags |
| Numeric.RoundHalfUp | src/app/dashboard/page.tsx:248 | `Math.round`: the integer within half of x, halves going up |
| Numeric.RoundHalfUpMonotone | src/app/api/report/route.ts:85 | rounding never reverses the order of two values |
| Numeric.RoundHalfUpWithin | src/app/dashboard/page.tsx:248 | a value between two integers rounds between them, so a percentage stays in [0, 100] |
| Numeric.ToFixed2 | src/lib/intelligence/buildUserMentalSummary.ts:54 | `Number(x.toFixed(2))` lies within 0.005 of x and keeps a non-negative x non-negative |
| Numeric.Hundredths | src/lib/intelligence/buildUserMentalSummary.ts:54 | what `toFixed(2)` leaves is a whole number of hundredths |
| Numeric.ToFixed2OfHundredths | src/lib/intelligence/buildUserMentalSummary.ts:54 | a value with at most two decimals is left unchanged |
| Numeric.ToFixed1 | src/app/dashboard/elements/MoodOverviewHorizontal.tsx:54 | `Number(x.toFixed(1))` lies within 0.05 of x and keeps a non-negative x non-negative |
| Numeric.Tenths | src/app/dashboard/elements/MoodOverviewHorizontal.tsx:54 | what `toFixed(1)` leaves is a whole number of tenths |
| Numeric.RoundedSqrt | src/lib/intelligence/buildUserMentalSummary.ts:81 | the square root to two decimals, in hundredths: the integer nearest to the root of the scaled variance |
| Numeric.RoundedSqrtOfSquare | src/lib/intelligence/buildUserMentalSummary.ts:81 | the root of a perfect square is exact |
| Numeric.SumBounds | src/lib/intelligence/buildUserMentalSummary.ts:51-55 | a sum of values in [lo, hi] lies between n·lo and n·hi |
| Numeric.Percent | src/app/dashboard/page.tsx:248 | `Math.round(k / n * 100)` for 0 ≤ k ≤ n is the integer within half of 100·k/n (halves up), lies in [0, 100], is 100 for k = n and 0 for k = 0, and is 0 only when k is at most half a percent of n |
| Numeric.PercentMonotone | src/app/dashboard/page.tsx:248 | more qualifying days never give a smaller percentage |
| Text.Trim | src/app/journal/new/page.tsx:552 | `trim()` gives the contiguous slice of the text that remains once the whitespace before and after it is removed: no blank at either end, only whitespace cut off |
| Text.Lower | src/lib/ai/updateChatContext.ts:8 | `toLowerCase` keeps the length and lower-cases each character on its own (ASCII letters) |
| Text.Contains | src/lib/ai/updateChatContext.ts:31-40 | definition of `includes`: the text occurs at some position; ContainsConcat states that a text inserted anywhere is found |
| Text.ParseLeadingInt | src/app/journal/new/page.tsx:937 | definition: the value of the leading digits, 0 without any (the `|| 0`); ParseLeadingIntOfNumeral states that a written numeral reads back |
| Text.BlankIffAllSpace | src/app/onboarding/page.tsx:39-43 | `!s.trim()` holds exactly when every character is whitespace |
| Text.NatToString | src/app/journal/new/page.tsx:561 | the numeral written for n is all digits and reads back as n |
| Text.ParseLeadingIntOfNumeral | src/app/journal/new/page.tsx:937 | `parseInt` of a numeral followed by a non-digit reads that numeral |

## Left out

- Floating point: `toFixed`, `Math.round` and `Math.sqrt` are modelled on exact reals. `toFixed(d)` is specified as a value within half a unit of the last place. `Math.round` is the nearest integer with halves going up. The square root of the volatility is the integer nearest to the root of the scaled variance. Binary rounding effects are not modelled.
- UserSummary.ComputeCorrelation: returns the three accumulated sums (numerator and the two denominators), not the Pearson coefficient itself. Its contract states exactly when the coefficient is null: unequal lengths, fewer than three pairs, or a constant series. The final square root and division are floating point.
- UserSummary.BuildUserMentalSummary: its own ensures covers the time range and the data-quality block. The other fields are stated through the lemmas about the primitives it applies, and through `RisingMoodWeekSummary` for a concrete week.
- Numeric.ToFixed2: weaker than JavaScript's exact decimal rounding of a binary double. It gives the nearest hundredth, halves away from zero, on the exact real.
- DashboardWidgets.AverageMood: stated as within 0.05 of the mean rather than as the exact `toFixed(1)` string converted back to a number.
- DashboardWidgets.ExerciseMoodBars: the bars are likewise stated within 0.05 of the group means.
- Dashboard.MoodVolatility: the page returns the number 0 or the string produced by `toFixed(2)`. The model returns the number that string denotes.
- Caffeine.AddCaffeine: its own ensures only bounds the length. The counting behaviour (one more for the pressed drink, every time) is `Caffeine.AddCaffeineCounts`.
- JournalWizard.AddStressTrigger: its own ensures states the append case. The counted and bare-tag cases are stated by `JournalWizard.AddStressTriggerCounts`.
- Sorting.SortBy: stability (equal keys keep their input order) is part of the definition but is not stated as a contract. The contracts state sortedness, permutation and, for already sorted input, identity.
- Wall clock and time zones: `new Date()`, `startOfWeek`, `subDays` and the UTC conversion through `toISOString` are replaced by an integer "today", or by the current instant in milliseconds for the dashboard's range filter. The local-versus-UTC drift is not modelled. Neither is the extra hour a daylight-saving change puts into `setDate`.
- I/O:
  - Supabase queries, `fetch`, router redirects, toasts, the auth listener and the profile upsert are left out.
  - A widget's query result is a parameter, with `None` for a failed query.
  - The onboarding upsert outcome is a parameter.
  - The report route's authentication, its date-bounded database query (`gte("date", from)`, the only use of `days`) and its `meta` block (generation time and the from/to dates) are not part of this model.
- Strings:
  - Lower-casing covers ASCII letters only, not Unicode case folding. `trim` and `\s` cover JavaScript's full whitespace set.
  - In the outdoors regular expression `/\(.*\)/`, `.` is treated as matching every character, including line terminators.
  - `parseInt` is modelled for texts that start with their digits. A sign or leading whitespace is not modelled.
- `Object.entries` order: JavaScript lists integer-like keys first. The exercise pie is modelled in insertion order, which matches for non-numeric tag names.
- Journal columns: mood, sleep, stress, productivity and overthinking are whole numbers, as the wizard's step-1 sliders write them. A fractional value written into the table some other way is not modelled. The two screen-time columns are real numbers of hours.
- The outdoors slider value is taken as a natural number of minutes. The range input only produces multiples of 15 from 0 to 300.
- Plain form inputs (sliders and text areas that only copy a value into the entry) are not modelled, beyond the fields the wizard's own logic edits.
- UI: titles, messages, colours as class names, charts, animation and loading skeletons are reduced to enumerations where the logic chooses between them, and are otherwise left out.
