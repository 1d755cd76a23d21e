# Mission-log dashboard: rank, aggregation and chart data

This project models the pure logic inside the Nityam "mission log" dashboard
script (`main.js`). The script loads a JSON document of daily reports. Each
report has a day, TITAN, ORACLE and SAGE points, bonus points and a note. The
script then computes:

- the cumulative score;
- the rank tier (RECRUIT, OPERATIVE, SPECIALIST or COMMANDER) that the score reaches;
- the progress bar towards the next tier, and its label;
- the per-day panel and doughnut chart for a picked day;
- the bar chart of the last seven daily totals.

The model extracts that logic into immutable datatypes and pure functions:

- `wrappers.dfy` (`Wrappers`): `Option`, used for the unbounded top threshold,
  the optional `logs` field and the day-lookup result.
- `decimal.dfy` (`Decimal`): how a template literal prints an integer in the
  progress label, with its parser and the round trip between them. It covers
  integral values below 1e21 in magnitude.
- `logs.dfy` (`Logs`): `LogEntry`, the daily total and the cumulative score.
  The score is built front to back like the script's `forEach` loop. It is
  also shown to equal the four per-category column sums.
- `rank.dfy` (`Rank`): the four-tier table, the step-function tier choice,
  the successor by declaration order, and the progress percentage as an exact
  `real`. The unbounded COMMANDER target is `None`, not `Infinity`. The module
  also holds the progress label.
- `charts.dfy` (`Charts`): the four-segment doughnut data.
- `history.dfy` (`History`): JavaScript's `slice` with a negative start, and
  the history bars.
- `day.dfy` (`DaySelector`): the first-match lookup of a picked day and the
  per-day panel. A miss shows "-" in all five numeric fields and the
  no-report message. The lookup is a pure function of the collection and the
  key, so it cannot change the collection. The module holds both the script's
  clearing (`ClearAsWritten`, which keeps the old doughnut, see Findings) and
  a corrected clearing (`Clear`, which removes it).
- `dashboard.dfy` (`Dashboard`): the page as a state value. It is one of:
  - `ConnectionLost`, when the fetch fails;
  - `NoMissions`, for an empty or absent `logs` field, decided before any
    total or rank is computed;
  - `Ready`.

  It models the date-picker change handler twice. `OnDateChange` is the
  handler as written, and it can leave a stale doughnut beside "-" fields.
  `OnDateChangeCorrected` uses the corrected clearing. A loaded page
  satisfies an invariant: its figures match its collection, and its day
  panel is consistent and is either a report of the collection on the picked
  day or the cleared panel for that day. The handler as written keeps the figures but can break the
  panel's consistency. The corrected handler keeps the whole invariant.

## Model

| member | source | states |
|---|---|---|
| Decimal.IntRoundTrip | main.js:157 | the score and target printed in the progress label parse back to the same integers, so distinct numbers print distinctly |
| Decimal.FromInt | main.js:157 | a printed integer starts with a minus sign exactly when it is negative, is otherwise all digits, and has no leading zero (zero prints as the single digit 0, since any longer spelling may not start with 0) |
| Logs.TotalScore | main.js:53-56 | with non-negative point fields the cumulative score passed to the rank calculator is non-negative |
| Logs.TotalAppend | main.js:53-56 | appending a report raises the cumulative score by exactly that report's four fields |
| Logs.TotalConcat | main.js:53-56 | the total of two concatenated collections is the sum of their totals |
| Logs.TotalIsColumnSums | main.js:53-56 | the total equals the TITAN, ORACLE, SAGE and bonus column sums added together |
| Logs.SumScores | main.js:53-56 | the running-total loop over the collection ends with the cumulative score |
| Rank.TierOf | main.js:132-135 | the chosen tier is the highest one whose threshold the score reaches; for non-negative scores its threshold is at most the score; the score is below its next threshold when that exists |
| Rank.Progress | main.js:146-149 | below the top tier the percentage is the covered share of the tier span times 100, (score - threshold) / (next - threshold) * 100; for a non-negative score it lies in [0, 100]; it is 100 exactly when the tier is COMMANDER |
| Rank.ProgressLabel | main.js:156-160 | the label is MAXIMUM RANK ACHIEVED exactly when the tier is COMMANDER |
| Rank.GetRank | main.js:124-162 | the view's name, colour and glyph all come from one tier; for a non-negative score the progress lies in [0, 100]; the progress is 100 and the label is the maximum-rank text exactly when the name is COMMANDER; below the top tier the progress is (score - threshold) / (next - threshold) * 100 |
| Rank.TableAdjacency | main.js:125-130 | each tier's stored next threshold is its declaration-order successor's threshold; only COMMANDER has no successor and an unbounded target; thresholds rise along the table |
| Rank.NameInjective | main.js:125-129 | the four tier names are distinct, so the returned name identifies the tier |
| Rank.NextName | main.js:143-144 | the next-tier name is the successor's name in declaration order, and it is MAX exactly for COMMANDER |
| Rank.TierBoundaries | main.js:126-135 | 0 and 249 give RECRUIT, 250 and 599 OPERATIVE, 600 and 1199 SPECIALIST, 1200 COMMANDER |
| Rank.TierMonotone | main.js:132-135 | a higher score never gives a lower tier in declaration order |
| Rank.ProgressBounds | main.js:146-149 | progress is exactly 100 for COMMANDER and in [0, 100) for every other tier when the score is non-negative, so it is 100 exactly at the top tier |
| Rank.ProgressMonotone | main.js:146-149 | within one tier a higher score never gives a lower progress bar |
| Rank.GetRankSound | main.js:124-162 | the rank view shows the highest tier reached, and a progress in [0, 100] that is 100 exactly when the name is COMMANDER and is otherwise (score - threshold) / (next - threshold) * 100 |
| Rank.LabelShape | main.js:156-160 | the label is MAXIMUM RANK ACHIEVED exactly for COMMANDER; otherwise it is "score / successor threshold XP to successor name" |
| Rank.RankScenarios | main.js:124-162 | score 0 is RECRUIT labelled "0 / 250 XP to OPERATIVE"; 250 is OPERATIVE; 425 is OPERATIVE at 50%; 600 is SPECIALIST at 0%; 1200 is COMMANDER at 100% with the maximum-rank label |
| Charts.Breakdown | main.js:174-176 | the doughnut is the fixed list of four segments TITAN, ORACLE, SAGE, Bonus, each carrying that category's points |
| Charts.BreakdownMatchesTotal | main.js:114-118 | the four segment values add up to the daily total printed in the panel |
| Charts.BreakdownDeterminesPoints | main.js:176 | two reports with the same doughnut have the same four point fields |
| History.SliceFrom | main.js:197 | `slice(start)` returns a suffix; a negative start keeps the last -start elements (all when there are fewer); a non-negative start drops that many |
| History.HistorySeries | main.js:194-202 | the bar series has min(7, n) bars; bar i is the date and daily total of the i-th report of the collection's last min(7, n) reports, in collection order |
| History.HistoryArrays | main.js:195-202 | the push loop fills the label and value arrays with exactly the days and totals of the bar series, in order |
| History.PushBars | main.js:199-202 | the push loop gives one label and one value per report, the report's date and daily total, in order |
| History.HistorySlides | main.js:197 | a new report appends its bar, and the oldest bar drops out once seven are shown |
| History.SingleDayHistory | main.js:197-202 | a one-report collection gives exactly one bar, for that day with its total |
| DaySelector.FindFirst | main.js:87 | the lookup returns a position whose report has the picked day with no earlier match, or nothing when no report has that day |
| DaySelector.Lookup | main.js:87-93 | a found report is the first report in the collection with the picked day; nothing is found exactly when no report has that day |
| DaySelector.LookupFindsOwnDay | main.js:87 | with unique dates, picking a report's own day finds that report |
| DaySelector.ShowReport | main.js:110-121 | a shown report's four fields match its doughnut segments, the total field is their sum, and the panel carries its day and note |
| DaySelector.ClearAsWritten | main.js:98-108 | clearing keeps whatever doughnut was drawn and otherwise equals the corrected clearing: the picked day, N/A, "-" in all five numeric fields and the no-report message; the panel is consistent exactly when no doughnut was drawn |
| DaySelector.Clear | main.js:98-106 | the corrected clearing shows the picked day, N/A, "-" fields and the no-report message with no doughnut, so the panel is consistent |
| DaySelector.SelectAsWritten | main.js:85-93 | the handler's panel shows the picked day, and it is consistent exactly when the day has a report or no doughnut was drawn before |
| DaySelector.Select | main.js:85-106 | the corrected handler's panel shows the picked day, is always consistent, and has a doughnut exactly when the day has a report |
| DaySelector.SelectShows | main.js:85-106 | with the corrected clearing, a hit shows the report's points, their sum, its note and its day; a miss shows "-" in all five numeric fields, N/A and the no-report message with no doughnut; the panel is always consistent |
| DaySelector.SelectIdempotent | main.js:85-95 | picking the same day twice shows the same panel as picking it once |
| DaySelector.SelectAsWrittenDiffersOnlyInChart | main.js:98-108 | the script's clearing and the corrected clearing agree on every field except the doughnut, and agree fully on a hit |
| DaySelector.StaleChartAfterMiss | main.js:107 | as written, showing a report's day and then picking a day with no report leaves the first doughnut beside "-" fields, while the corrected panel is consistent |
| Dashboard.InitDateSelector | main.js:70-84 | with reports, the picker spans the first to the last report's day, starts on the last and gets a change handler; without reports it shows today and gets no bounds and no handler |
| Dashboard.InitialDayHasReport | main.js:78-83 | the day the picker starts on has a report, and with unique dates it is the last report |
| Dashboard.LogsOf | main.js:16 | the collection is empty exactly when the `logs` field is absent or empty, and a non-empty collection is the field's value |
| Dashboard.ProcessOverallData | main.js:29-68 | a non-empty collection gives a populated dashboard of that collection that satisfies the invariant, shows the last report's panel and puts the picker on its day |
| Dashboard.Load | main.js:15-39 | a failed fetch gives the connection-lost state; an empty or absent collection gives the empty state with no rank; only a non-empty collection gives the populated dashboard |
| Dashboard.OnDateChange | main.js:85-95 | as written: the picker takes the picked value in both states that have one; a populated dashboard changes only its picker value and day panel; the panel shows the picked day; a hit shows the found report; a miss shows the cleared panel (N/A, five "-" fields, the no-report message) but keeps the old doughnut |
| Dashboard.OnDateChangeCorrected | main.js:85-106 | the same handler with the corrected clearing: same frame, the day panel is always consistent, and a miss shows exactly the cleared panel with no doughnut |
| Dashboard.LoadEstablishesInvariant | main.js:28-35 | a loaded dashboard shows its collection's total, rank, last-synced day and history, its day panel is the last report's and its picker is on that day; the panel is a report of the collection on the picked day |
| Dashboard.DateChangeKeepsFigures | main.js:85-95 | the handler as written keeps total, rank, history and picker bounds, and leaves the panel consistent exactly when the day has a report or no doughnut was drawn |
| Dashboard.DateChangePreservesInvariant | main.js:85-106 | the corrected handler keeps the whole invariant: the figures, a consistent panel, and a panel that is either a report of the collection on the picked day or the cleared panel for that day |
| Dashboard.DateChangeBreaksInvariant | main.js:107 | for every collection and every day with no report, the handler as written breaks the invariant right after loading, and the corrected handler keeps it |
| Dashboard.ReadyRankSound | main.js:52-60 | for well-formed reports the rank shown is the highest tier the total reaches, and the progress is 100 exactly for COMMANDER |
| Dashboard.ReselectLatestIsStable | main.js:32-35 | with unique dates, picking the day shown after loading changes nothing, with either handler |
| Dashboard.EmptyScenario | main.js:16-26 | an absent or empty `logs` field gives the empty state with today in the picker, and a date change there only moves the picker value |
| Dashboard.LoadOneReport | main.js:52-67 | loading any single report gives its daily total as the score, the rank of that total and one history bar for its day |
| Dashboard.SingleReportScenario | main.js:52-67 | one report of 10+5+5+0 gives total 20, rank RECRUIT and one bar worth 20 |

## Left out

- DOM reads and writes and the icon-font refresh are page plumbing. The model
  produces the values written, as datatypes.
- The network fetch, the cache-busting query string and promise chaining are
  modelled only by their outcome, `FetchOutcome`, which is `Failed` or
  `Fetched(document)`. An exception thrown later inside the success callback
  would also reach the connection-lost handler. That path is not modelled.
- Chart construction, destroy-before-redraw and chart options belong to an
  external library. The model keeps the data arrays and whether a doughnut
  is drawn.
- Date parsing, ISO normalisation and locale formatting depend on time zone
  and locale. `LogEntry.date` is taken to be the normalised day key already,
  and the bar labels and panel dates carry that key instead of formatted text.
- Rank colours and rank glyphs are carried as uninterpreted strings. The
  chart colours and other chart styling are not carried at all.
- Point fields are JavaScript numbers and could hold fractions. The model
  uses integers.
- JavaScript numbers are doubles. Totals above 2^53 would round, and from
  1e21 on a template literal prints exponent notation (`1e+21`). The model
  uses unbounded integers and positional digits instead.
- Rank.Progress: the percentage is an exact `real`. The script computes it in
  floating point, so it can differ in the last digits. For example, score 7
  gives 2.8 here and 2.8000000000000003 in the script.
- Rank.ProgressBounds: bounds are proved only for non-negative scores. A
  negative score gives a negative percentage, exactly as the script would.
  Well-formed data never produces one.
- The picker in the connection-lost state is not modelled. The failure can
  come before the picker is set up, so its state there is not determined.

## Findings

| source | as written | input that shows it | evidently intended | confidence | as-written member | corrected member |
|---|---|---|---|---|---|---|
| main.js:107 | a day without a report destroys `window.dailyChartInstance`; the chart is kept in the block-scoped `dailyChartInstance` (line 165), so that window property is never set and the old doughnut stays | reports for 2024-01-01 and 2024-01-03; 2024-01-03 is shown, then 2024-01-02, inside the picker's range, is picked | the doughnut is removed along with the numbers | high, not executed | DaySelector.StaleChartAfterMiss | DaySelector.SelectShows |
