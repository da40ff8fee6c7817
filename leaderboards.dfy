/** The leaderboard routes of backend/index.js on an already fetched activity
    list: the race leaderboards (5K, 10K, HM, FM), which keep the runs of one
    band, sort them by moving time and number them, and the weekly leaderboard,
    which adds up the distance run in each Monday-to-Sunday week. */
module Leaderboards {
  import opened Seqs
  import opened Runs
  import opened StableSort
  import opened Weeks
  import opened Pagination

  /** Every leaderboard route pages its rows ten at a time. */
  const PageLimit := 10

  predicate IsRun(a: RawActivity) {
    a.activityType == "Run"
  }

  /** `activities.filter(a => a.type === "Run")`: the runs, in fetch order, each
      kept as many times as it was fetched. */
  function RunsOnly(acts: seq<RawActivity>): (r: seq<RawActivity>)
    ensures forall i :: 0 <= i < |r| ==> r[i].activityType == "Run"
    ensures forall x :: multiset(r)[x] == if IsRun(x) then multiset(acts)[x] else 0
  {
    var r := Filter(acts, IsRun);
    forall x ensures multiset(r)[x] == if IsRun(x) then multiset(acts)[x] else 0 {
      FilterMultiset(acts, IsRun, x);
    }
    forall i | 0 <= i < |r| ensures r[i].activityType == "Run" {
      FilterMembership(acts, IsRun, r[i]);
    }
    r
  }

  // ---------------------------------------------------------------------------
  // Race leaderboards

  /** `runs.map(formatRun)`. */
  function FormatAll(runs: seq<RawActivity>): (r: seq<ClassifiedRun>)
    ensures |r| == |runs| && forall i :: 0 <= i < |r| ==> r[i] == FormatRun(runs[i])
  {
    Map(runs, FormatRun)
  }

  predicate InBand(race: RaceType, a: RawActivity) {
    Classify(a.distance) == race
  }

  predicate HasType(race: RaceType, r: ClassifiedRun) {
    r.raceType == race
  }

  /** The formatted runs of one band, in fetch order. */
  function MatchingRuns(acts: seq<RawActivity>, race: RaceType): seq<ClassifiedRun> {
    Filter(FormatAll(RunsOnly(acts)), r => HasType(race, r))
  }

  function ByTime(r: ClassifiedRun): int {
    r.timeSeconds
  }

  /** `matching.sort((a, b) => a.time_seconds - b.time_seconds)`, stable. */
  function RankedRuns(acts: seq<RawActivity>, race: RaceType): seq<ClassifiedRun> {
    Sort(MatchingRuns(acts, race), ByTime)
  }

  /** A leaderboard row; `startDay` stands for the formatted date. */
  datatype RaceRow = RaceRow(rank: nat, name: string, startDay: int, distanceKm: real, time: string, pace: string)

  /** `sorted.map((r, idx) => ({ rank: idx + 1, ... }))`. */
  function Ranked(sorted: seq<ClassifiedRun>): (rows: seq<RaceRow>)
    ensures |rows| == |sorted|
    ensures forall i :: 0 <= i < |rows| ==> rows[i].rank == i + 1
    ensures forall i :: 0 <= i < |rows| ==>
      rows[i] == RaceRow(i + 1, sorted[i].name, sorted[i].startDay, sorted[i].distanceKm, sorted[i].time, sorted[i].pace)
  {
    seq(|sorted|, i requires 0 <= i < |sorted| =>
      RaceRow(i + 1, sorted[i].name, sorted[i].startDay, sorted[i].distanceKm, sorted[i].time, sorted[i].pace))
  }

  function RaceLeaderboard(acts: seq<RawActivity>, race: RaceType): seq<RaceRow> {
    Ranked(RankedRuns(acts, race))
  }

  /** Formatting and picking a band commute: the formatted runs of a band are the
      formatted runs whose distance lies in it. */
  lemma FormatFilterCommute(runs: seq<RawActivity>, race: RaceType)
    ensures Filter(FormatAll(runs), r => HasType(race, r)) == FormatAll(Filter(runs, a => InBand(race, a)))
  {
    FilterMap(runs, FormatRun, r => HasType(race, r), a => InBand(race, a));
  }

  /** There are exactly as many matching runs as fetched runs in the band. */
  lemma MatchingRunsCount(acts: seq<RawActivity>, race: RaceType)
    ensures |MatchingRuns(acts, race)| == |Filter(RunsOnly(acts), a => InBand(race, a))|
  {
    FormatFilterCommute(RunsOnly(acts), race);
  }

  /** Every matching run is the formatting of a fetched activity of type "Run" in the band. */
  lemma MatchingRunsSound(acts: seq<RawActivity>, race: RaceType, r: ClassifiedRun)
    ensures r in MatchingRuns(acts, race) ==>
      r.raceType == race && exists a :: a in acts && IsRun(a) && FormatRun(a) == r
  {
    if r in MatchingRuns(acts, race) {
      var runs := RunsOnly(acts);
      var f := Filter(runs, a => InBand(race, a));
      FormatFilterCommute(runs, race);
      var i :| 0 <= i < |f| && FormatAll(f)[i] == r;
      var a := f[i];
      FilterMembership(runs, a => InBand(race, a), a);
      assert multiset(runs)[a] > 0;
      assert a in acts && IsRun(a) && FormatRun(a) == r;
    }
  }

  /** Every fetched run in the band appears among the matching runs. */
  lemma MatchingRunsComplete(acts: seq<RawActivity>, race: RaceType, a: RawActivity)
    requires a in acts && IsRun(a) && Classify(a.distance) == race
    ensures FormatRun(a) in MatchingRuns(acts, race)
  {
    var runs := RunsOnly(acts);
    var f := Filter(runs, a => InBand(race, a));
    FormatFilterCommute(runs, race);
    assert multiset(acts)[a] > 0;
    assert multiset(runs)[a] > 0;
    FilterMembership(runs, a => InBand(race, a), a);
    var i :| 0 <= i < |f| && f[i] == a;
    assert FormatAll(f)[i] == FormatRun(a);
  }

  /** The rows list the runs of the band fastest first, each run once: the sorted
      runs are ordered by time, are a permutation of the matching runs, and keep
      runs with equal times in fetch order; ranks run from 1 to N. */
  lemma RaceLeaderboardOrdered(acts: seq<RawActivity>, race: RaceType)
    ensures var ranked := RankedRuns(acts, race); var matching := MatchingRuns(acts, race);
      && SortedBy(ranked, ByTime)
      && multiset(ranked) == multiset(matching)
      && (forall t :: KeyClass(ranked, ByTime, t) == KeyClass(matching, ByTime, t))
      && |RaceLeaderboard(acts, race)| == |matching|
      && (forall i :: 0 <= i < |matching| ==> RaceLeaderboard(acts, race)[i].rank == i + 1)
  {
    var matching := MatchingRuns(acts, race);
    SortSorted(matching, ByTime);
    SortPermutes(matching, ByTime);
    forall t ensures KeyClass(RankedRuns(acts, race), ByTime, t) == KeyClass(matching, ByTime, t) {
      SortStable(matching, ByTime, t);
    }
  }

  /** Read back, the time column of the rows never decreases. */
  lemma RaceLeaderboardTimesAscend(acts: seq<RawActivity>, race: RaceType, i: nat, j: nat)
    requires i < j < |RaceLeaderboard(acts, race)|
    ensures ParseDuration(RaceLeaderboard(acts, race)[i].time).Some?
    ensures ParseDuration(RaceLeaderboard(acts, race)[j].time).Some?
    ensures ClockSeconds(ParseDuration(RaceLeaderboard(acts, race)[i].time).value)
         <= ClockSeconds(ParseDuration(RaceLeaderboard(acts, race)[j].time).value)
  {
    var ranked := RankedRuns(acts, race);
    var matching := MatchingRuns(acts, race);
    RaceLeaderboardOrdered(acts, race);
    forall k | 0 <= k < |ranked|
      ensures ParseDuration(ranked[k].time).Some?
      ensures ClockSeconds(ParseDuration(ranked[k].time).value) == ranked[k].timeSeconds
    {
      assert multiset(matching)[ranked[k]] > 0;
      MatchingRunsSound(acts, race, ranked[k]);
      var a :| a in acts && IsRun(a) && FormatRun(a) == ranked[k];
      FormatRunFields(a);
    }
  }

  /** Row i of a race leaderboard has rank i + 1 and shows the name, day, distance,
      time and pace of a fetched activity of type "Run" whose distance lies in the band. */
  lemma RaceRowOrigin(acts: seq<RawActivity>, race: RaceType, i: nat)
    ensures i < |RaceLeaderboard(acts, race)| ==>
      exists a ::
        && a in acts && IsRun(a) && Classify(a.distance) == race
        && RaceLeaderboard(acts, race)[i] == RaceRow(i + 1, a.name, a.startDay, a.distance / 1000.0,
             FormatDuration(a.movingTime), FormatPace(a.movingTime, a.distance))
  {
    if i < |RaceLeaderboard(acts, race)| {
      var ranked := RankedRuns(acts, race);
      RaceLeaderboardOrdered(acts, race);
      assert multiset(MatchingRuns(acts, race))[ranked[i]] > 0;
      MatchingRunsSound(acts, race, ranked[i]);
      var a :| a in acts && IsRun(a) && FormatRun(a) == ranked[i];
      assert Classify(a.distance) == race;
    }
  }

  /** The race leaderboard as the route computes it: the matching runs are copied
      into an array, sorted there in place and numbered. */
  method BuildRaceLeaderboard(acts: seq<RawActivity>, race: RaceType) returns (rows: seq<RaceRow>)
    ensures rows == RaceLeaderboard(acts, race)
  {
    var matching := MatchingRuns(acts, race);
    var sorted := ToArray(matching);
    SortInPlace(sorted, ByTime);
    rows := Ranked(sorted[..]);
  }

  // ---------------------------------------------------------------------------
  // Weekly leaderboard

  /** Some run of `runs` starts in the week keyed `k`. */
  ghost predicate HasWeek(runs: seq<RawActivity>, k: int) {
    exists i :: 0 <= i < |runs| && WeekKey(runs[i].startDay) == k
  }

  /** The kilometres of the runs whose week key is `k`, added in fetch order. */
  function WeekTotal(runs: seq<RawActivity>, k: int): real
    decreases |runs|
  {
    if runs == [] then 0.0
    else
      var last := runs[|runs| - 1];
      WeekTotal(runs[..|runs| - 1], k) + (if WeekKey(last.startDay) == k then last.distance / 1000.0 else 0.0)
  }

  /** Taking one more run into account adds its kilometres to its own week only. */
  lemma WeekTotalStep(runs: seq<RawActivity>, i: nat, k: int)
    requires i < |runs|
    ensures WeekTotal(runs[..i + 1], k) == WeekTotal(runs[..i], k)
      + (if WeekKey(runs[i].startDay) == k then runs[i].distance / 1000.0 else 0.0)
  {
    assert runs[..i + 1][..i] == runs[..i];
  }

  /** A week without runs totals zero. */
  lemma {:induction false} WeekTotalAbsent(runs: seq<RawActivity>, k: int)
    requires !HasWeek(runs, k)
    ensures WeekTotal(runs, k) == 0.0
    decreases |runs|
  {
    if runs != [] {
      var runs' := runs[..|runs| - 1];
      forall j | 0 <= j < |runs'| ensures WeekKey(runs'[j].startDay) != k {
        assert runs'[j] == runs[j];
      }
      WeekTotalAbsent(runs', k);
    }
  }

  /** The week keys of `runs`, each listed once, at the first run that has it. */
  function FirstSeen(runs: seq<RawActivity>): seq<int>
    decreases |runs|
  {
    if runs == [] then []
    else
      var earlier := FirstSeen(runs[..|runs| - 1]);
      var k := WeekKey(runs[|runs| - 1].startDay);
      if k in earlier then earlier else earlier + [k]
  }

  /** The weekly grouping loop: one entry per week that has a run, holding the sum
      of its runs' kilometres, and the keys in the order they were first seen
      (the order Object.keys lists them in). */
  method GroupByWeek(runs: seq<RawActivity>) returns (totals: map<int, real>, keys: seq<int>)
    ensures forall k :: k in totals <==> HasWeek(runs, k)
    ensures forall k :: k in totals ==> totals[k] == WeekTotal(runs, k)
    ensures forall k :: k in keys <==> k in totals
    ensures forall i :: 0 <= i < |keys| ==> keys[i] in totals
    ensures forall i, j :: 0 <= i < j < |keys| ==> keys[i] != keys[j]
    ensures keys == FirstSeen(runs)
  {
    totals, keys := map[], [];
    var i := 0;
    while i < |runs|
      invariant 0 <= i <= |runs|
      invariant forall k :: k in totals <==> HasWeek(runs[..i], k)
      invariant forall k :: k in totals ==> totals[k] == WeekTotal(runs[..i], k)
      invariant forall k :: k in keys <==> k in totals
      invariant forall j :: 0 <= j < |keys| ==> keys[j] in totals
      invariant forall a, b :: 0 <= a < b < |keys| ==> keys[a] != keys[b]
      invariant keys == FirstSeen(runs[..i])
    {
      var run := runs[i];
      ghost var before := totals;
      var weekKey := WeekKey(run.startDay);
      var distanceKm := run.distance / 1000.0;
      if weekKey !in totals || totals[weekKey] == 0.0 {
        if weekKey !in totals {
          keys := keys + [weekKey];
        }
        totals := totals[weekKey := 0.0];
      }
      totals := totals[weekKey := totals[weekKey] + distanceKm];
      assert runs[..i + 1][..i] == runs[..i];
      forall k | k in totals ensures totals[k] == WeekTotal(runs[..i + 1], k) {
        WeekTotalStep(runs, i, k);
        if k == weekKey && weekKey !in before {
          WeekTotalAbsent(runs[..i], k);
        }
      }
      forall k ensures HasWeek(runs[..i + 1], k) <==> HasWeek(runs[..i], k) || k == weekKey {
        if HasWeek(runs[..i + 1], k) && k != weekKey {
          var j :| 0 <= j < i + 1 && WeekKey(runs[..i + 1][j].startDay) == k;
          assert runs[..i][j] == runs[..i + 1][j];
        }
        if HasWeek(runs[..i], k) {
          var j :| 0 <= j < i && WeekKey(runs[..i][j].startDay) == k;
          assert runs[..i + 1][j] == runs[..i][j];
        }
        if k == weekKey {
          assert runs[..i + 1][i] == run;
        }
      }
      i := i + 1;
    }
    assert runs[..i] == runs;
  }

  datatype WeekRow = WeekRow(weekStart: int, totalKm: real)

  function NewestFirst(r: WeekRow): int {
    -r.weekStart
  }

  ghost predicate NewestFirstStrictly(rows: seq<WeekRow>) {
    forall i, j :: 0 <= i < j < |rows| ==> rows[i].weekStart > rows[j].weekStart
  }

  /** Some row of `rows` is for the week keyed `k`. */
  ghost predicate HasRow(rows: seq<WeekRow>, k: int) {
    exists i :: 0 <= i < |rows| && rows[i].weekStart == k
  }

  /** Every row is a week that has a run, carrying that week's total. */
  ghost predicate RowsOfRuns(rows: seq<WeekRow>, runs: seq<RawActivity>) {
    forall i :: 0 <= i < |rows| ==>
      HasWeek(runs, rows[i].weekStart) && rows[i].totalKm == WeekTotal(runs, rows[i].weekStart)
  }

  /** Every week that has a run has a row. */
  ghost predicate CoversWeeks(rows: seq<WeekRow>, runs: seq<RawActivity>) {
    forall k :: HasWeek(runs, k) ==> HasRow(rows, k)
  }

  /** What the weekly leaderboard promises: weeks from the most recent down, each
      once, exactly the weeks that have a run, each with its total. */
  ghost predicate IsWeeklyLeaderboard(rows: seq<WeekRow>, runs: seq<RawActivity>) {
    NewestFirstStrictly(rows) && RowsOfRuns(rows, runs) && CoversWeeks(rows, runs)
  }

  /** The weekly leaderboard is determined by the runs: two row lists that both
      meet its description are equal. */
  lemma WeeklyLeaderboardUnique(a: seq<WeekRow>, b: seq<WeekRow>, runs: seq<RawActivity>)
    requires IsWeeklyLeaderboard(a, runs) && IsWeeklyLeaderboard(b, runs)
    ensures a == b
  {
    WeekRowsEqual(a, b, runs);
  }

  /** Two such row lists start with the same row: the newest week of each. */
  lemma NewestRowsEqual(a: seq<WeekRow>, b: seq<WeekRow>, runs: seq<RawActivity>)
    requires |a| > 0 && |b| > 0
    requires NewestFirstStrictly(a) && NewestFirstStrictly(b)
    requires RowsOfRuns(a, runs) && RowsOfRuns(b, runs)
    requires HasRow(b, a[0].weekStart) && HasRow(a, b[0].weekStart)
    ensures a[0] == b[0]
  {
    var j :| 0 <= j < |b| && b[j].weekStart == a[0].weekStart;
    var i :| 0 <= i < |a| && a[i].weekStart == b[0].weekStart;
    assert a[0].weekStart >= a[i].weekStart;
    assert b[j].weekStart >= b[0].weekStart;
    assert j == 0;
  }

  /** Dropping the newest row of each of two row lists with the same newest week
      keeps the remaining weeks of the first among those of the second. */
  lemma CoverTail(a: seq<WeekRow>, b: seq<WeekRow>)
    requires |a| > 0 && |b| > 0 && a[0].weekStart == b[0].weekStart
    requires NewestFirstStrictly(a) && NewestFirstStrictly(b)
    requires forall i :: 0 <= i < |a| ==> HasRow(b, a[i].weekStart)
    ensures forall x :: 0 <= x < |a[1..]| ==> HasRow(b[1..], a[1..][x].weekStart)
  {
    var a', b' := a[1..], b[1..];
    forall x | 0 <= x < |a'| ensures HasRow(b', a'[x].weekStart) {
      var k := a[x + 1].weekStart;
      assert HasRow(b, k);
      var y :| 0 <= y < |b| && b[y].weekStart == k;
      assert y != 0;
      assert b'[y - 1] == b[y];
    }
  }

  /** Dropping the newest row keeps the rest strictly descending, each a week
      with a run and its total. */
  lemma RowsTail(a: seq<WeekRow>, runs: seq<RawActivity>)
    requires |a| > 0 && NewestFirstStrictly(a) && RowsOfRuns(a, runs)
    ensures NewestFirstStrictly(a[1..]) && RowsOfRuns(a[1..], runs)
  {
    var a' := a[1..];
    forall x | 0 <= x < |a'| ensures a'[x] == a[x + 1] { }
  }

  /** Strictly descending rows, each a week with a run and its total, covering the
      same weeks, are equal. */
  lemma {:induction false} WeekRowsEqual(a: seq<WeekRow>, b: seq<WeekRow>, runs: seq<RawActivity>)
    requires NewestFirstStrictly(a) && NewestFirstStrictly(b)
    requires RowsOfRuns(a, runs) && RowsOfRuns(b, runs)
    requires forall i :: 0 <= i < |a| ==> HasRow(b, a[i].weekStart)
    requires forall j :: 0 <= j < |b| ==> HasRow(a, b[j].weekStart)
    ensures a == b
    decreases |a|
  {
    if a != [] {
      assert HasRow(b, a[0].weekStart);
    }
    if b != [] {
      assert HasRow(a, b[0].weekStart);
    }
    if a != [] {
      NewestRowsEqual(a, b, runs);
      CoverTail(a, b);
      CoverTail(b, a);
      RowsTail(a, runs);
      RowsTail(b, runs);
      WeekRowsEqual(a[1..], b[1..], runs);
      assert a == [a[0]] + a[1..] && b == [b[0]] + b[1..];
    }
  }

  /** One row per key, in key order: `.map(week => ({week_start, total_km}))`. */
  function KeyRows(keys: seq<int>, totals: map<int, real>): (rows: seq<WeekRow>)
    requires forall i :: 0 <= i < |keys| ==> keys[i] in totals
    ensures |rows| == |keys|
    ensures forall i :: 0 <= i < |keys| ==> rows[i] == WeekRow(keys[i], totals[keys[i]])
  {
    if keys == [] then []
    else
      [WeekRow(keys[0], totals[keys[0]])] + KeyRows(keys[1..], totals)
  }

  /** The rows built from the grouping loop's result, before sorting, are the
      weeks that have a run, each once, each with its total. */
  lemma KeyRowsOfRuns(keys: seq<int>, totals: map<int, real>, runs: seq<RawActivity>)
    requires forall k :: k in totals <==> HasWeek(runs, k)
    requires forall k :: k in totals ==> totals[k] == WeekTotal(runs, k)
    requires forall k :: k in keys <==> k in totals
    requires forall i :: 0 <= i < |keys| ==> keys[i] in totals
    requires forall i, j :: 0 <= i < j < |keys| ==> keys[i] != keys[j]
    ensures forall i, j :: 0 <= i < j < |keys| ==>
      NewestFirst(KeyRows(keys, totals)[i]) != NewestFirst(KeyRows(keys, totals)[j])
    ensures RowsOfRuns(KeyRows(keys, totals), runs)
    ensures CoversWeeks(KeyRows(keys, totals), runs)
  {
    var rows := KeyRows(keys, totals);
    forall i | 0 <= i < |rows|
      ensures HasWeek(runs, rows[i].weekStart) && rows[i].totalKm == WeekTotal(runs, rows[i].weekStart)
    {
      assert keys[i] in keys;
    }
    forall k | HasWeek(runs, k) ensures HasRow(rows, k) {
      var i :| 0 <= i < |keys| && keys[i] == k;
      assert rows[i].weekStart == k;
    }
  }

  /** Reordering rows keeps which weeks they are and what they total. */
  lemma PermutedRows(u: seq<WeekRow>, r: seq<WeekRow>, runs: seq<RawActivity>)
    requires multiset(u) == multiset(r)
    requires RowsOfRuns(u, runs) && CoversWeeks(u, runs)
    ensures RowsOfRuns(r, runs) && CoversWeeks(r, runs)
  {
    forall i | 0 <= i < |r|
      ensures HasWeek(runs, r[i].weekStart) && r[i].totalKm == WeekTotal(runs, r[i].weekStart)
    {
      assert r[i] in multiset(u);
      var j :| 0 <= j < |u| && u[j] == r[i];
    }
    forall k | HasWeek(runs, k) ensures HasRow(r, k) {
      var j :| 0 <= j < |u| && u[j].weekStart == k;
      assert u[j] in multiset(r);
      var i :| 0 <= i < |r| && r[i] == u[j];
    }
  }

  /** Sorting the grouping loop's rows newest first yields the weekly leaderboard. */
  lemma SortedKeyRowsAreLeaderboard(keys: seq<int>, totals: map<int, real>, runs: seq<RawActivity>)
    requires forall k :: k in totals <==> HasWeek(runs, k)
    requires forall k :: k in totals ==> totals[k] == WeekTotal(runs, k)
    requires forall k :: k in keys <==> k in totals
    requires forall i :: 0 <= i < |keys| ==> keys[i] in totals
    requires forall i, j :: 0 <= i < j < |keys| ==> keys[i] != keys[j]
    ensures IsWeeklyLeaderboard(Sort(KeyRows(keys, totals), NewestFirst), runs)
  {
    var unsorted := KeyRows(keys, totals);
    KeyRowsOfRuns(keys, totals, runs);
    SortStrict(unsorted, NewestFirst);
    SortPermutes(unsorted, NewestFirst);
    PermutedRows(unsorted, Sort(unsorted, NewestFirst), runs);
  }

  /** The weekly leaderboard as the route computes it: group the runs by week,
      turn each key into a row and sort the rows by week, most recent first. */
  method BuildWeeklyLeaderboard(acts: seq<RawActivity>) returns (rows: seq<WeekRow>)
    ensures IsWeeklyLeaderboard(rows, RunsOnly(acts))
  {
    var runs := RunsOnly(acts);
    var totals, keys := GroupByWeek(runs);
    var unsorted := KeyRows(keys, totals);
    var sorted := ToArray(unsorted);
    SortInPlace(sorted, NewestFirst);
    rows := sorted[..];
    SortedKeyRowsAreLeaderboard(keys, totals, runs);
  }

  // ---------------------------------------------------------------------------
  // Routes

  /** What a route answers: 401 when no athlete is signed in, 500 when the
      fetch failed, otherwise one page of rows. */
  datatype Response<T> = NotAuthenticated(message: string) | Failed(error: string) | Ok(body: Page<T>)

  function Status<T>(r: Response<T>): int {
    match r
    case NotAuthenticated(_) => 401
    case Failed(_) => 500
    case Ok(_) => 200
  }

  const NotAuthenticatedMessage := "Not authenticated with Strava"

  /** `parseInt(req.query.page) || 1`: a missing or unparsable page (NaN) and page 0
      both mean page 1; any other parsed number is used as it is. */
  function RequestedPage(parsed: Option<int>): (page: int)
    ensures page != 0
    ensures parsed.Some? && parsed.value != 0 ==> page == parsed.value
    ensures parsed.None? || parsed.value == 0 ==> page == 1
  {
    match parsed
    case None => 1
    case Some(n) => if n == 0 then 1 else n
  }

  function RaceFailureMessage(race: RaceType): string {
    "Failed to generate " + RaceLabel(race) + " leaderboard"
  }

  /** GET /leaderboard/5k, /10k, /hm and /fm. `signedIn` stands for the presence of
      an access token; `fetched` is the provider's activity list, or None when the
      request to the provider failed. */
  method RaceRoute(signedIn: bool, fetched: Option<seq<RawActivity>>, pageParam: Option<int>, race: RaceType)
    returns (resp: Response<RaceRow>)
    requires race != Other
    ensures !signedIn ==> resp == NotAuthenticated(NotAuthenticatedMessage) && Status(resp) == 401
    ensures signedIn && fetched.None? ==> resp == Failed(RaceFailureMessage(race)) && Status(resp) == 500
    ensures signedIn && fetched.Some? ==>
      resp == Ok(Paginate(RaceLeaderboard(fetched.value, race), RequestedPage(pageParam), PageLimit))
  {
    var page := RequestedPage(pageParam);
    if !signedIn {
      return NotAuthenticated(NotAuthenticatedMessage);
    }
    match fetched
    case None =>
      resp := Failed(RaceFailureMessage(race));
    case Some(acts) =>
      var leaderboard := BuildRaceLeaderboard(acts, race);
      resp := Ok(Paginate(leaderboard, page, PageLimit));
  }

  /** GET /leaderboard/weekly. */
  method WeeklyRoute(signedIn: bool, fetched: Option<seq<RawActivity>>, pageParam: Option<int>)
    returns (resp: Response<WeekRow>)
    ensures !signedIn ==> resp == NotAuthenticated(NotAuthenticatedMessage) && Status(resp) == 401
    ensures signedIn && fetched.None? ==> resp == Failed("Failed to generate weekly leaderboard") && Status(resp) == 500
    ensures signedIn && fetched.Some? ==>
      exists rows :: IsWeeklyLeaderboard(rows, RunsOnly(fetched.value))
        && resp == Ok(Paginate(rows, RequestedPage(pageParam), PageLimit))
  {
    var page := RequestedPage(pageParam);
    if !signedIn {
      return NotAuthenticated(NotAuthenticatedMessage);
    }
    match fetched
    case None =>
      resp := Failed("Failed to generate weekly leaderboard");
    case Some(acts) =>
      var leaderboard := BuildWeeklyLeaderboard(acts);
      resp := Ok(Paginate(leaderboard, page, PageLimit));
  }
}
