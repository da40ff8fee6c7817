# flyrunhub leaderboard engine in Dafny

This project models the leaderboard engine of the flyrunhub backend
(`backend/index.js`). It takes the activity list fetched from the fitness
provider as an input sequence and covers the following pieces:

- **Run formatting (`formatRun`).** A run is sorted into a race band (5K, 10K,
  HM, FM or OTHER) by its distance. Its moving time is rendered as `HH:MM:SS`
  and its pace as `M:SS min/km`.
- **Week key (`getWeekKey`).** A day maps to the Monday that starts its week.
- **Paginator (`paginate`).** One page of ten rows is cut out with JavaScript
  `slice` semantics, together with the page metadata.
- **Race leaderboards (`/leaderboard/5k`, `/10k`, `/hm`, `/fm`).** The pipeline
  keeps the activities of type "Run", formats them and keeps one band. It then
  sorts them stably by moving time, numbers them from 1 and pages the result.
- **Weekly leaderboard (`/leaderboard/weekly`).** A loop adds up each run's
  kilometres into a dictionary keyed by week. The dictionary is then turned into
  rows and sorted with the most recent week first.

Modules:

- `Seqs`: an order-preserving filter and map.
- `StableSort`: a functional stable insertion sort, plus the in-place array sort
  proved equal to it.
- `Text`: decimal digits and two-digit padding.
- `RealMath`: `Math.floor`, `Math.round` and `%` on exact reals.
- `Runs`: `formatRun`.
- `Weeks`: `getWeekKey`.
- `Pagination`: `paginate`.
- `Leaderboards`: the two pipelines and the routes.

Representations:

- Distances are metres as a non-negative `real`, so every band test is an exact
  comparison.
- Dates are day numbers counted from 1970-01-01, which was a Thursday. The
  weekday follows `Date.prototype.getDay`, where 0 is Sunday.
- The two imperative parts are written as methods and proved against
  specification functions:
  - the weekly grouping loop, as a `map` plus the key insertion order that
    `Object.keys` reports;
  - the in-place stable `sort` of the 5K and 10K routes, on an `array`.

Behaviour of the code that the model keeps as it is:

- Runs of 5000 m and 5020 m are both 5K, because the 5K band is 4500 m to
  5500 m (`Runs.ClassifyExamples`).
- For a zero distance the code prints `Infinity:NaN min/km`, or `NaN:NaN min/km`
  when the moving time is also 0. The model keeps those strings.

One departure: `:60` seconds in the pace field is a bug in the code, recorded
under "## Findings". `Runs.FormatRun` uses the corrected pace, so the leaderboard
rows carry it (see "## Left out").

## Model

| member | source | states |
|---|---|---|
| Runs.Classify | backend/index.js:24-36 | Each band is returned exactly when the distance lies in its closed range of metres: [4500, 5500] for 5K, [9700, 10500] for 10K, [20000, 22000] for HM, [41000, 43000] for FM. Everything else is OTHER. |
| Runs.ClassifyExamples | backend/index.js:27-36 | The band edges are inclusive and the gaps between bands are OTHER. 5000 m and 5020 m are both 5K; 3000 m is OTHER. |
| Runs.FormatDurationRoundTrip | backend/index.js:45-52 | The `HH:MM:SS` string reads back as hours, minutes and seconds. They add up to the moving time, minutes and seconds are below 60, and the hours are `t / 3600`, not wrapped at 24. |
| Runs.FormatDurationInjective | backend/index.js:45-52 | Different moving times give different time strings. |
| Runs.FormatDurationExamples | backend/index.js:50-52 | 3661 s renders as "01:01:01" and 59 s as "00:00:59", each field padded to two digits. |
| Text.Pad2 | backend/index.js:50-52 | `padStart(2, "0")` of a number gives digits whose value is the number, with length 2 below 100 and the full digit count above. |
| Text.NoLeadingZero | backend/index.js:58-60 | `toString()` of a number of 10 or more does not start with '0'. |
| Text.NatToStringValue | backend/index.js:58-60 | `toString()` of a natural number gives decimal digits that read back as the number. |
| RealMath.Round | backend/index.js:57 | `Math.round` returns the integer within half a unit, with halves going up. |
| RealMath.Remainder | backend/index.js:57 | `%` of a non-negative by a positive number lies in [0, m), and what it takes away, `x - r`, is a whole multiple of `m`. |
| Runs.PaceAsWrittenBounds | backend/index.js:55-57 | The source's pace has minutes of at least 0 and seconds in 0..60 (not 0..59). Minutes × 60 + seconds is the pace rounded to the nearest second. |
| Runs.PaceSixtyReachable | backend/index.js:55-57 | 1799 s over 5000 m (359.8 s/km) gives 5 minutes and 60 seconds in the source's computation. |
| Runs.Pace | backend/index.js:55-57 | The corrected pace has seconds in 0..59 and adds up to the pace rounded to the nearest second. |
| Runs.PaceCorrectsOnlySixty | backend/index.js:55-57 | The corrected pace equals the source's pace whenever the source's seconds are below 60. Otherwise it carries the 60 seconds into one more minute. |
| Runs.PaceAccuracy | backend/index.js:55-57 | The shown pace is within half a second per kilometre of the exact pace. |
| Runs.FormatPacePartsRoundTrip | backend/index.js:58-60 | `M:SS min/km` reads back as the minutes and seconds it was built from. |
| Runs.FormatPaceRoundTrip | backend/index.js:55-60 | For a positive distance, the pace string reads back as seconds below 60 that add up to the rounded pace. For a zero distance it does not read back as a pace. |
| Runs.PaceSixtyShown | backend/index.js:55-60 | The source shows 1799 s over 5000 m as "5:60 min/km"; the corrected pace shows "6:00 min/km". |
| Runs.PaceExample | backend/index.js:55-60 | 1500 s over 5000 m reads "5:00 min/km". |
| Runs.FormatRunFields | backend/index.js:23-73 | A formatted run keeps the id, name and moving time. Its distance in km is the metres over 1000. Its time string reads back to the moving time and its pace string to the rounded pace. Its date is the activity's day. Its band is `Classify` of the distance, so it is 5K, 10K, HM or FM exactly when the distance is in that band's range. |
| Weeks.Weekday | backend/index.js:3 | `getDay` lies in 0..6. |
| Weeks.EpochThursday | backend/index.js:3 | Day 0, 1970-01-01, has weekday 4, a Thursday. |
| Weeks.WeekdayNext | backend/index.js:3 | The day after a day has the next weekday, with Saturday (6) followed by Sunday (0). |
| Weeks.WeekKey | backend/index.js:1-8 | The week key is a Monday, on or before the day and at most six days earlier. |
| Weeks.WeekKeyOfWeek | backend/index.js:3-5 | A Monday and the six days after it all have that Monday as their key. |
| Weeks.WeekKeyIdempotent | backend/index.js:1-8 | The key of a key is the key itself. |
| Weeks.SameWeek | backend/index.js:1-8 | Two days share a key exactly when the second lies in the Monday-to-Sunday week of the first. |
| Weeks.WeekKeyMonotonic | backend/index.js:1-8 | Later days never have earlier keys. |
| Pagination.CeilDiv | backend/index.js:18 | `Math.ceil(n / limit)` is the fewest pages of `limit` items that hold `n` items. |
| Pagination.SliceIndex | backend/index.js:19 | A non-negative slice index is capped at the length. A negative one counts back from the end and stops at 0. |
| Pagination.SliceWindow | backend/index.js:19 | A slice is never longer than its window. From a start at or past 0 it reads the window clamped to the array. |
| Pagination.PageStart | backend/index.js:11 | A page from 1 on starts at index 0 or later. Page 0 and negative pages end at or before index 0. |
| Pagination.NextPageStart | backend/index.js:11-12 | Each page starts `limit` items after the one before it. |
| Pagination.Paginate | backend/index.js:10-21 | The page and limit are echoed. `total` is the length and `totalPages` is `ceil(length / limit)`. There are at most `limit` results. For a page from 1 on, the results are the items from `(page-1)*limit` up to `limit` items later, clamped to the array; past the end they are empty. |
| Pagination.PastLastPageEmpty | backend/index.js:10-21 | A page above `totalPages` has no results. |
| Pagination.NonPositivePage | backend/index.js:11-19 | Page 0 is empty. A negative page is a window counted back from the end, as `slice` does with negative indices. |
| Pagination.NegativePageExample | backend/index.js:11-19 | Page -1 of 25 items holds items 5 to 14. |
| Pagination.PagesUpToPrefix | backend/index.js:10-21 | Pages 1..k together are exactly the items before the start of page k + 1. |
| Pagination.PagesCoverAll | backend/index.js:10-21 | Reading pages 1..totalPages in turn gives back the whole list in order. |
| StableSort.InsertionPoint | backend/index.js:298 | The insertion point lies just after the last element whose key is not larger than the new key, and only larger keys follow it. |
| StableSort.SortSorted | backend/index.js:298 | The sorted list is ordered by key. |
| StableSort.SortPermutes | backend/index.js:298 | The sorted list is a permutation of the input. |
| StableSort.SortStable | backend/index.js:298 | For every key value, the elements with that key keep their input order. |
| StableSort.SortStrict | backend/index.js:262 | Inputs with pairwise distinct keys sort into strictly increasing keys. |
| StableSort.InsertAt | backend/index.js:298 | Shifting larger elements right inserts `a[i]` into the sorted prefix `a[..i]` and leaves the rest of the array unchanged. |
| StableSort.SortInPlace | backend/index.js:298 | After the in-place sort, the array holds the stable sort of its old contents. |
| Leaderboards.RunsOnly | backend/index.js:291 | Only activities of type "Run" remain. Each is kept as many times as it was fetched; all other activities are dropped. |
| Leaderboards.FormatAll | backend/index.js:292 | `map(formatRun)` formats each run in place. |
| Leaderboards.FormatFilterCommute | backend/index.js:292-295 | Filtering the formatted runs by band equals formatting the runs whose distance lies in the band. |
| Leaderboards.MatchingRunsCount | backend/index.js:291-295 | There are as many matching runs as fetched runs with a distance in the band. |
| Leaderboards.MatchingRunsSound | backend/index.js:291-295 | Every matching entry has the route's band and is the formatting of a fetched activity of type "Run". |
| Leaderboards.MatchingRunsComplete | backend/index.js:291-295 | Every fetched run whose distance is in the band appears among the matching entries. |
| Leaderboards.Ranked | backend/index.js:301-308 | There are as many rows as sorted entries. Row i has rank i + 1 and carries the name, day, distance, time string and pace string of sorted entry i. |
| Leaderboards.RaceLeaderboardOrdered | backend/index.js:291-308 | The ranked entries are ordered by moving time and are a permutation of the matching runs. Entries with equal times keep fetch order. The ranks are exactly 1..N, with N the number of matching runs. |
| Leaderboards.RaceLeaderboardTimesAscend | backend/index.js:298-308 | The time strings of later rows read back to moving times that are no smaller. |
| Leaderboards.RaceRowOrigin | backend/index.js:291-308 | Row i has rank i + 1. It shows the name, day, distance, time and pace of a fetched "Run" whose distance is in the route's band. |
| Leaderboards.BuildRaceLeaderboard | backend/index.js:291-308 | Copying the matching runs into an array, sorting it in place and numbering it gives the race leaderboard. |
| Leaderboards.WeekTotalStep | backend/index.js:245-253 | One more run adds its kilometres to its own week only. |
| Leaderboards.WeekTotalAbsent | backend/index.js:249-253 | A week without runs totals zero. |
| Leaderboards.GroupByWeek | backend/index.js:243-254 | The dictionary has the weeks that contain a run and no others. Each week holds the sum of its runs' kilometres. The key list holds each dictionary key exactly once, in the order the weeks first occur in the runs (`Leaderboards.FirstSeen`). |
| Leaderboards.KeyRows | backend/index.js:257-261 | One row per key, in key order, carrying that key's total. |
| Leaderboards.KeyRowsOfRuns | backend/index.js:243-261 | Before sorting, the rows are the weeks that contain a run, each once with distinct keys, each with its total. |
| Leaderboards.PermutedRows | backend/index.js:262 | Reordering the rows keeps which weeks they cover and what they total. |
| Leaderboards.SortedKeyRowsAreLeaderboard | backend/index.js:257-262 | Sorting the rows built from the grouping loop's result newest first gives rows meeting the weekly description. |
| Leaderboards.BuildWeeklyLeaderboard | backend/index.js:238-262 | The weekly rows are strictly newest first, hold each week with a run exactly once with its total, and cover every such week. |
| Leaderboards.WeeklyLeaderboardUnique | backend/index.js:238-262 | That description fixes the rows: two row lists that both meet it are equal. |
| Leaderboards.WeekRowsEqual | backend/index.js:262 | Strictly descending rows that carry the same weeks with the right totals are equal. |
| Leaderboards.RequestedPage | backend/index.js:276 | `parseInt(page) \|\| 1`: a missing, unparsable or zero page means page 1, and any other number is used as it is. |
| Leaderboards.RaceRoute | backend/index.js:275-315 | Without a token the route answers 401 "Not authenticated with Strava". If the fetch failed it answers 500 "Failed to generate 5K leaderboard" (10K, HM, FM likewise). Otherwise it answers the requested page of ten rows of the race leaderboard. |
| Leaderboards.WeeklyRoute | backend/index.js:217-269 | Without a token the route answers 401 "Not authenticated with Strava". If the fetch failed it answers 500 "Failed to generate weekly leaderboard". Otherwise it answers the requested page of ten rows of a row list meeting the weekly description, which that description fixes. |

## Left out

- HTTP and Express plumbing are not modelled: routing, `res.json` and `res.status`. A route is a method from its inputs to a `Response`.
- The fetch from the provider is not modelled: the axios request, its `per_page` of 50 or 100, and the OAuth code-for-token exchange are network I/O. The fetched list is an input, or `None` when the request failed.
- The process-wide `ACCESS_TOKEN` is not modelled. Its presence is the `signedIn` input.
- The stale copy of `formatRun` inside `/activities` (backend/index.js:136-212) is not modelled. It has only two bands and refers to an undefined `raceDate`.
- `toLocaleDateString` and `toFixed(2)` are locale and float rendering. The date is kept as a day number and the distances and totals as exact reals.
- The `toISOString` step of `getWeekKey` is not modelled. It turns the local Monday into a UTC calendar string, a time-zone effect of JavaScript `Date`. Keys are day numbers, and sorting by `new Date(week_start)` is modelled as sorting by day number.
- Floating-point rounding is not modelled. Divisions and sums are exact, so `WeekTotal` is the exact sum of the runs' kilometres.
- Parsing `start_date_local` into a day is not modelled. An activity carries its `startDay`.
- `parseInt` itself is not modelled. Its result, or `None` for `NaN`, is the page input.
- Runs.FormatRun: the pace field is the corrected one (`Runs.FormatPace`), so every leaderboard row and route answer shows the carried-over pace. 1799 s over 5000 m shows "6:00 min/km" where the code prints "5:60 min/km". Only `Runs.FormatPaceAsWritten` produces the code's string.
- Pagination.Paginate: requires `limit >= 1`. Every call site passes 10, and a limit of 0 would yield `Infinity`/`NaN` metadata.
- Console logging in the error paths is not modelled.
- The React front end (src/App.js) and the Athlete schema (backend/models/Athlete.js) are not part of this model.
- Token refresh, multi-page fetching, dense week windows and cross-athlete aggregation are not modelled. The repository has no code for them.

## Findings

| source | as written | input that shows it | evidently intended | confidence | as-written member | corrected member |
|---|---|---|---|---|---|---|
| backend/index.js:55-60 | The minutes are `Math.floor(pace / 60)` and the seconds `Math.round(pace % 60)`, rounded separately, so the seconds can round up to 60. | 1799 s over 5000 m is 359.8 s/km, shown as "5:60 min/km" (`Runs.PaceAsWritten`, `Runs.PaceSixtyReachable`). | Round the pace to whole seconds first, then split it, so the run shows "6:00 min/km" (`Runs.Pace`, `Runs.FormatPace`, used by `Runs.FormatRun`). | not executed | Runs.PaceSixtyShown | Runs.PaceCorrectsOnlySixty |
