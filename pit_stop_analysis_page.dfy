/** The pit-stop analysis page: a summary of each round's list of fastest
    pit stops, a record per team (and per driver) over the season, the
    predictive score, one team's trend over the rounds, and the ranked
    lists the page draws. */
module PitStopAnalysisPage {
  import opened Maybe
  import opened Seqs
  import opened StableSort
  import RaceData
  import DataProcessing

  /** One entry of a round's `fastest_pit_stops`. */
  datatype PitStop = PitStop(team: string, driver: string, time: real, position: int)

  /** One element of the pit-stop data file. */
  datatype PitRound = PitRound(round: int, grandPrix: string, stops: seq<PitStop>)

  function Times(ps: seq<PitStop>): (r: seq<real>)
    ensures |r| == |ps| && forall i :: 0 <= i < |ps| ==> r[i] == ps[i].time
  {
    seq(|ps|, i requires 0 <= i < |ps| => ps[i].time)
  }

  function Places(ps: seq<PitStop>): (r: seq<int>)
    ensures |r| == |ps| && forall i :: 0 <= i < |ps| ==> r[i] == ps[i].position
  {
    seq(|ps|, i requires 0 <= i < |ps| => ps[i].position)
  }

  function TeamNames(ps: seq<PitStop>): (r: seq<string>)
    ensures |r| == |ps| && forall i :: 0 <= i < |ps| ==> r[i] == ps[i].team
  {
    seq(|ps|, i requires 0 <= i < |ps| => ps[i].team)
  }

  /** Every stop of the season, round after round. */
  function AllStops(rounds: seq<PitRound>): seq<PitStop> {
    if rounds == [] then [] else AllStops(rounds[..|rounds| - 1]) + rounds[|rounds| - 1].stops
  }

  // ---------------------------------------------------------------------
  // Round summaries

  /** `roundInfo`. An empty list has no fastest stop, and its average
      `0 / 0` is `NaN`, modelled as `None`. */
  datatype RoundInfo = RoundInfo(round: int, grandPrix: string, fastest: Option<PitStop>,
                                 top3Teams: seq<string>, averageTime: Option<real>)

  function RoundInfoOf(r: PitRound): RoundInfo {
    RoundInfo(r.round, r.grandPrix,
      if r.stops == [] then None else Some(r.stops[0]),
      TeamNames(Take(r.stops, 3)),
      if r.stops == [] then None else Some(RSum(Times(r.stops)) / |r.stops| as real))
  }

  /** The summary names the first three teams listed, and the average lies
      between the smallest and the largest time of the round. */
  lemma RoundInfoSpec(r: PitRound)
    ensures RoundInfoOf(r).fastest.Some? <==> r.stops != []
    ensures |RoundInfoOf(r).top3Teams| == (if |r.stops| < 3 then |r.stops| else 3)
    ensures forall i :: 0 <= i < |RoundInfoOf(r).top3Teams| ==> RoundInfoOf(r).top3Teams[i] == r.stops[i].team
    ensures RoundInfoOf(r).averageTime.Some? <==> r.stops != []
    ensures r.stops != [] ==>
      RMin(Times(r.stops)) <= RoundInfoOf(r).averageTime.value <= RMax(Times(r.stops))
  {
    if r.stops != [] {
      MeanAtLeastMin(Times(r.stops));
      MeanAtMostMax(Times(r.stops));
    }
  }

  /** `fastest` is the first stop listed; when the list is ordered by
      time, as the data file's lists are, that is the smallest time. */
  lemma FastestIsMin(r: PitRound)
    requires r.stops != []
    requires forall i, j :: 0 <= i < j < |r.stops| ==> r.stops[i].time <= r.stops[j].time
    ensures RoundInfoOf(r).fastest.value.time == RMin(Times(r.stops))
  {
    var m := RMin(Times(r.stops));
    var k :| 0 <= k < |r.stops| && Times(r.stops)[k] == m;
    assert k == 0 || r.stops[0].time <= r.stops[k].time;
  }

  // ---------------------------------------------------------------------
  // Records

  /** A team's (or driver's) record. `bestTime` starts at `Infinity`,
      modelled as `None`; `worstTime` starts at 0. */
  datatype Stat = Stat(appearances: nat, totalTime: real, bestTime: Option<real>, worstTime: real,
                       top3Count: nat, winCount: nat, positionSum: int)

  const Fresh: Stat := Stat(0, 0.0, None, 0.0, 0, 0, 0)

  /** `Math.min(best, t)`, where a missing best is `Infinity`. */
  function MinWith(best: Option<real>, t: real): real {
    match best
    case None => t
    case Some(b) => if t < b then t else b
  }

  /** `Math.max(worst, t)`. */
  function MaxWith(worst: real, t: real): real {
    if t > worst then t else worst
  }

  /** What one stop does to its record. */
  function Add(s: Stat, p: PitStop): Stat {
    Stat(s.appearances + 1, s.totalTime + p.time, Some(MinWith(s.bestTime, p.time)), MaxWith(s.worstTime, p.time),
      s.top3Count + (if p.position <= 3 then 1 else 0), s.winCount + (if p.position == 1 then 1 else 0),
      s.positionSum + p.position)
  }

  /** The `teamStats` (or `driverStats`) Map: keys in insertion order. */
  datatype Records = Records(keys: seq<string>, stats: map<string, Stat>) {

    /** Keys listed once each, exactly the keys have records, and every
        record counts the stop that created it. */
    predicate Valid() {
      && NoDup(keys)
      && stats.Keys == set k | k in keys
      && forall k :: k in stats ==> stats[k].appearances > 0
    }

    function Get(k: string): Stat {
      if k in stats then stats[k] else Fresh
    }

    /** `if (!m.has(k)) m.set(k, {...})`, then the stop's update. */
    function Step(k: string, p: PitStop): (r: Records)
      ensures r.keys == AddAll(keys, [k])
      ensures Valid() ==> r.Valid()
    {
      assert [k][..0] == [];
      Records(if k in keys then keys else keys + [k], stats[k := Add(Get(k), p)])
    }
  }

  const NoRecords: Records := Records([], map[])

  function TeamOf(): PitStop -> string {
    (p: PitStop) => p.team
  }

  function DriverOf(): PitStop -> string {
    (p: PitStop) => p.driver
  }

  function KeysOf(ps: seq<PitStop>, key: PitStop -> string): (r: seq<string>)
    ensures |r| == |ps| && forall i :: 0 <= i < |ps| ==> r[i] == key(ps[i])
  {
    seq(|ps|, i requires 0 <= i < |ps| => key(ps[i]))
  }

  function HasKey(key: PitStop -> string, k: string): PitStop -> bool {
    (p: PitStop) => key(p) == k
  }

  /** The Map after the given stops, each filed under `key(stop)`. */
  function Aggregate(ps: seq<PitStop>, key: PitStop -> string): Records {
    if ps == [] then NoRecords
    else Aggregate(ps[..|ps| - 1], key).Step(key(ps[|ps| - 1]), ps[|ps| - 1])
  }

  function IsTop3(): PitStop -> bool {
    (p: PitStop) => p.position <= 3
  }

  function IsWin(): PitStop -> bool {
    (p: PitStop) => p.position == 1
  }

  /** The record a list of stops should give, field by field: how many,
      the sum, the least and the greatest time (the greatest never below
      the starting 0), how many placed third or better and first, and the
      sum of places. */
  function Summary(ps: seq<PitStop>): Stat {
    Stat(|ps|, RSum(Times(ps)),
      if ps == [] then None else Some(RMin(Times(ps))),
      if ps == [] then 0.0 else MaxWith(0.0, RMax(Times(ps))),
      |Filter(ps, IsTop3())|, |Filter(ps, IsWin())|, Sum(Places(ps)))
  }

  lemma SummarySnoc(ps: seq<PitStop>, p: PitStop)
    ensures Summary(ps + [p]) == Add(Summary(ps), p)
  {
    var s := ps + [p];
    assert s[..|ps|] == ps;
    assert Times(s)[..|ps|] == Times(ps);
    assert Places(s)[..|ps|] == Places(ps);
  }

  /** Each key is listed once, in first-appearance order, and its record
      is the summary of exactly the stops filed under it. */
  lemma {:induction false} AggregateSpec(ps: seq<PitStop>, key: PitStop -> string, k: string)
    ensures Aggregate(ps, key).Valid()
    ensures Aggregate(ps, key).keys == AddAll([], KeysOf(ps, key))
    ensures Aggregate(ps, key).Get(k) == Summary(Filter(ps, HasKey(key, k)))
  {
    if ps != [] {
      var init, p := ps[..|ps| - 1], ps[|ps| - 1];
      AggregateSpec(init, key, k);
      assert KeysOf(ps, key) == KeysOf(init, key) + [key(p)];
      AddAllConcat([], KeysOf(init, key), [key(p)]);
      if key(p) == k {
        SummarySnoc(Filter(init, HasKey(key, k)), p);
      }
    }
  }

  /** Every stop counts once: the appearances of all records add up to
      the number of stops. */
  lemma {:induction false} AppearancesTotal(ps: seq<PitStop>, key: PitStop -> string)
    ensures TotalAppearances(Aggregate(ps, key), Aggregate(ps, key).keys) == |ps|
  {
    if ps != [] {
      var init, p := ps[..|ps| - 1], ps[|ps| - 1];
      var r := Aggregate(init, key);
      AppearancesTotal(init, key);
      AggregateSpec(init, key, key(p));
      var r' := r.Step(key(p), p);
      TotalStep(r, r.keys, key(p), p);
      if key(p) !in r.keys {
        assert r'.keys == r.keys + [key(p)];
        assert (r.keys + [key(p)])[..|r.keys|] == r.keys;
      }
    }
  }

  /** Sum of the appearances of the listed keys' records. */
  function TotalAppearances(r: Records, ks: seq<string>): int {
    if ks == [] then 0 else TotalAppearances(r, ks[..|ks| - 1]) + r.Get(ks[|ks| - 1]).appearances
  }

  /** Filing one stop under k adds one appearance to the total over keys
      that include k, and none to a total over keys that do not. */
  lemma {:induction false} TotalStep(r: Records, ks: seq<string>, k: string, p: PitStop)
    requires NoDup(ks)
    ensures TotalAppearances(r.Step(k, p), ks) == TotalAppearances(r, ks) + (if k in ks then 1 else 0)
  {
    if ks != [] {
      var init := ks[..|ks| - 1];
      TotalStep(r, init, k, p);
      assert ks == init + [ks[|ks| - 1]];
    }
  }

  /** What any record holds: its best time is at most its average, which
      is at most its worst time; wins are at most top-3 places, which are
      at most its appearances. */
  lemma SummaryBounds(ps: seq<PitStop>)
    requires ps != []
    ensures Summary(ps).bestTime.Some?
    ensures Summary(ps).bestTime.value <= Summary(ps).totalTime / Summary(ps).appearances as real <= Summary(ps).worstTime
    ensures Summary(ps).winCount <= Summary(ps).top3Count <= Summary(ps).appearances
  {
    MeanAtLeastMin(Times(ps));
    MeanAtMostMax(Times(ps));
    FilterWeaker(ps, IsWin(), IsTop3());
  }

  lemma {:induction false} FilterWeaker(s: seq<PitStop>, p: PitStop -> bool, q: PitStop -> bool)
    requires forall x :: p(x) ==> q(x)
    ensures |Filter(s, p)| <= |Filter(s, q)|
  {
    if s != [] {
      FilterWeaker(s[..|s| - 1], p, q);
    }
  }

  // ---------------------------------------------------------------------
  // Averages and the predictive score

  /** A team's record with its averages and predictive score. */
  datatype TeamRow = TeamRow(team: string, stat: Stat, averageTime: real, averagePosition: real, predictiveScore: real)

  /** Consistency 30, speed 20, place 25 and win rate 25. */
  function Weighted(s: Stat, rounds: nat): real
    requires s.appearances > 0 && rounds > 0
  {
    var n := s.appearances as real;
    (n / rounds as real) * 30.0 + (3.0 - s.totalTime / n) * 20.0 +
      (11.0 - s.positionSum as real / n) * 25.0 + (s.winCount as real / n) * 25.0
  }

  /** `Math.max(0, ...)`: the weighted sum, or 0 when that is negative. */
  function PredictiveScore(s: Stat, rounds: nat): (r: real)
    requires s.appearances > 0 && rounds > 0
    ensures r >= 0.0 && r >= Weighted(s, rounds)
    ensures r == 0.0 || r == Weighted(s, rounds)
  {
    if Weighted(s, rounds) > 0.0 then Weighted(s, rounds) else 0.0
  }

  /** The `teamStats.forEach` pass: averages, then the score. */
  function Finish(team: string, s: Stat, rounds: nat): TeamRow
    requires s.appearances > 0 && rounds > 0
  {
    TeamRow(team, s, s.totalTime / s.appearances as real, s.positionSum as real / s.appearances as real,
      PredictiveScore(s, rounds))
  }

  /** `Array.from(teamStats.entries())`, after the final pass. */
  function TeamRows(r: Records, rounds: nat): (rows: seq<TeamRow>)
    requires r.Valid() && (r.keys != [] ==> rounds > 0)
    ensures |rows| == |r.keys|
  {
    seq(|r.keys|, i requires 0 <= i < |r.keys| => Finish(r.keys[i], r.stats[r.keys[i]], rounds))
  }

  // ---------------------------------------------------------------------
  // processedData

  /** `processedData`: the rounds in order, each round's stops in order,
      every stop filed under its team and its driver; then the final
      pass over the teams. */
  method ProcessData(rounds: seq<PitRound>) returns (teams: Records, drivers: Records, roundData: seq<RoundInfo>, rows: seq<TeamRow>)
    ensures teams == Aggregate(AllStops(rounds), TeamOf())
    ensures drivers == Aggregate(AllStops(rounds), DriverOf())
    ensures roundData == RoundInfos(rounds)
    ensures teams.Valid() && (teams.keys != [] ==> |rounds| > 0)
    ensures rows == TeamRows(teams, |rounds|)
  {
    teams, drivers, roundData := NoRecords, NoRecords, [];
    for i := 0 to |rounds|
      invariant teams == Aggregate(AllStops(rounds[..i]), TeamOf())
      invariant drivers == Aggregate(AllStops(rounds[..i]), DriverOf())
      invariant roundData == RoundInfos(rounds[..i])
    {
      AllStopsStep(rounds, i);
      roundData := roundData + [RoundInfoOf(rounds[i])];
      teams, drivers := AddRoundStops(teams, drivers, AllStops(rounds[..i]), rounds[i].stops);
    }
    assert rounds[..|rounds|] == rounds;
    ProcessedValid(rounds);
    rows := FinishAll(teams, |rounds|);
  }

  /** `roundData`: one summary per round, in order. */
  function RoundInfos(rounds: seq<PitRound>): (r: seq<RoundInfo>)
    ensures |r| == |rounds| && forall i :: 0 <= i < |rounds| ==> r[i] == RoundInfoOf(rounds[i])
  {
    seq(|rounds|, i requires 0 <= i < |rounds| => RoundInfoOf(rounds[i]))
  }

  lemma AllStopsStep(rounds: seq<PitRound>, i: nat)
    requires i < |rounds|
    ensures AllStops(rounds[..i + 1]) == AllStops(rounds[..i]) + rounds[i].stops
    ensures RoundInfos(rounds[..i + 1]) == RoundInfos(rounds[..i]) + [RoundInfoOf(rounds[i])]
  {
    assert rounds[..i + 1][..i] == rounds[..i];
  }

  lemma AggregateSnoc(before: seq<PitStop>, stops: seq<PitStop>, j: nat, key: PitStop -> string)
    requires j < |stops|
    ensures Aggregate(before + stops[..j + 1], key) == Aggregate(before + stops[..j], key).Step(key(stops[j]), stops[j])
  {
    assert (before + stops[..j + 1])[..|before| + j] == before + stops[..j];
  }

  /** The team Map of a season is well formed, and has keys only when the
      season has rounds. */
  lemma ProcessedValid(rounds: seq<PitRound>)
    ensures Aggregate(AllStops(rounds), TeamOf()).Valid()
    ensures Aggregate(AllStops(rounds), TeamOf()).keys != [] ==> rounds != []
  {
    AggregateSpec(AllStops(rounds), TeamOf(), "");
    if rounds == [] {
      assert KeysOf(AllStops(rounds), TeamOf()) == [];
    }
  }

  /** `round.fastest_pit_stops.forEach(...)` for one round. */
  method AddRoundStops(teams0: Records, drivers0: Records, before: seq<PitStop>, stops: seq<PitStop>)
    returns (teams: Records, drivers: Records)
    requires teams0 == Aggregate(before, TeamOf()) && drivers0 == Aggregate(before, DriverOf())
    ensures teams == Aggregate(before + stops, TeamOf()) && drivers == Aggregate(before + stops, DriverOf())
  {
    teams, drivers := teams0, drivers0;
    assert before + stops[..0] == before;
    for j := 0 to |stops|
      invariant teams == Aggregate(before + stops[..j], TeamOf())
      invariant drivers == Aggregate(before + stops[..j], DriverOf())
    {
      var p := stops[j];
      AggregateSnoc(before, stops, j, TeamOf());
      AggregateSnoc(before, stops, j, DriverOf());
      teams := teams.Step(p.team, p);
      drivers := drivers.Step(p.driver, p);
    }
    assert stops[..|stops|] == stops;
  }

  /** `teamStats.forEach((stats, team) => ...)`: averages and scores. */
  method FinishAll(teams: Records, rounds: nat) returns (rows: seq<TeamRow>)
    requires teams.Valid() && (teams.keys != [] ==> rounds > 0)
    ensures rows == TeamRows(teams, rounds)
  {
    rows := [];
    for i := 0 to |teams.keys|
      invariant rows == TeamRows(teams, rounds)[..i]
    {
      var team := teams.keys[i];
      rows := rows + [Finish(team, teams.stats[team], rounds)];
    }
  }

  /** Each team row describes one team of the season, once, with the
      summary of exactly its own stops; its averages lie within its
      times, its wins within its top-3 places, and its score is not
      negative. */
  lemma TeamRowsSpec(rounds: seq<PitRound>, i: nat)
    requires i < |Aggregate(AllStops(rounds), TeamOf()).keys|
    ensures var teams := Aggregate(AllStops(rounds), TeamOf());
      teams.Valid() && rounds != [] &&
      var row := TeamRows(teams, |rounds|)[i];
      var own := Filter(AllStops(rounds), HasKey(TeamOf(), row.team));
      && row.team in TeamNames(AllStops(rounds))
      && row.stat == Summary(own) && own != []
      && row.averageTime == row.stat.totalTime / row.stat.appearances as real
      && row.stat.bestTime.value <= row.averageTime <= row.stat.worstTime
      && row.stat.winCount <= row.stat.top3Count <= row.stat.appearances
      && row.predictiveScore >= 0.0
  {
    var ps := AllStops(rounds);
    ProcessedValid(rounds);
    KeyRow(ps, TeamOf(), |rounds|, i);
    TeamKeys(ps);
  }

  /** The keys the team Map is built from are the stops' team names. */
  lemma TeamKeys(ps: seq<PitStop>)
    ensures TeamNames(ps) == KeysOf(ps, TeamOf())
  {
  }

  /** The i-th row of a Map keyed by `key` is finished from exactly the
      stops of its key, which is one of the stops' keys. */
  lemma KeyRow(ps: seq<PitStop>, key: PitStop -> string, rounds: nat, i: nat)
    requires rounds > 0 && i < |Aggregate(ps, key).keys|
    ensures Aggregate(ps, key).Valid()
    ensures var row := TeamRows(Aggregate(ps, key), rounds)[i];
      var own := Filter(ps, HasKey(key, row.team));
      && row.team in KeysOf(ps, key)
      && row.stat == Summary(own) && own != []
      && row.averageTime == row.stat.totalTime / row.stat.appearances as real
      && row.stat.bestTime.value <= row.averageTime <= row.stat.worstTime
      && row.stat.winCount <= row.stat.top3Count <= row.stat.appearances
      && row.predictiveScore >= 0.0
  {
    var r := Aggregate(ps, key);
    var k := r.keys[i];
    var own := Filter(ps, HasKey(key, k));
    AggregateSpec(ps, key, k);
    AddAllContents([], KeysOf(ps, key));
    assert r.stats[k] == r.Get(k);
    FinishSpec(k, own, rounds);
  }

  /** The row finished from a team's own stops: its averages lie within
      its times, its wins within its top-3 places, its score is not
      negative. */
  lemma FinishSpec(team: string, own: seq<PitStop>, rounds: nat)
    requires own != [] && rounds > 0
    ensures Summary(own).appearances > 0
    ensures var row := Finish(team, Summary(own), rounds);
      && row.team == team && row.stat == Summary(own)
      && row.averageTime == row.stat.totalTime / row.stat.appearances as real
      && row.stat.bestTime.Some? && row.stat.bestTime.value <= row.averageTime <= row.stat.worstTime
      && row.stat.winCount <= row.stat.top3Count <= row.stat.appearances
      && row.predictiveScore >= 0.0
  {
    SummaryBounds(own);
  }

  /** The team appearances add up to the number of stops in the season. */
  lemma TeamAppearancesTotal(rounds: seq<PitRound>)
    ensures var teams := Aggregate(AllStops(rounds), TeamOf());
      TotalAppearances(teams, teams.keys) == |AllStops(rounds)|
  {
    AppearancesTotal(AllStops(rounds), TeamOf());
  }

  // ---------------------------------------------------------------------
  // Ranked lists

  function ByScore(): (TeamRow, TeamRow) -> bool {
    ByKeyDesc((r: TeamRow) => r.predictiveScore)
  }

  function ByAppearances(): (TeamRow, TeamRow) -> bool {
    ByKeyDesc((r: TeamRow) => r.stat.appearances as real)
  }

  function ByAverageTime(): (TeamRow, TeamRow) -> bool {
    ByKeyAsc((r: TeamRow) => r.averageTime)
  }

  /** The prediction chart (n = 10) and summary (n = 5). */
  function Predictions(rows: seq<TeamRow>, n: nat): seq<TeamRow> {
    Take(Sort(rows, ByScore()), n)
  }

  /** The consistency chart: the eight teams with most appearances. */
  function Consistency(rows: seq<TeamRow>): seq<TeamRow> {
    Take(Sort(rows, ByAppearances()), 8)
  }

  /** The stats table: the ten teams with the lowest average time. */
  function FastestTeams(rows: seq<TeamRow>): seq<TeamRow> {
    Take(Sort(rows, ByAverageTime()), 10)
  }

  /** The predictions are the teams with the highest scores, highest
      first: no team left out scores above one listed. */
  lemma PredictionsSpec(rows: seq<TeamRow>, n: nat)
    ensures |Predictions(rows, n)| == if |rows| < n then |rows| else n
    ensures forall y :: y in Predictions(rows, n) ==> y in rows
    ensures forall i, j :: 0 <= i < j < |Predictions(rows, n)| ==>
      Predictions(rows, n)[i].predictiveScore >= Predictions(rows, n)[j].predictiveScore
    ensures forall x, y :: x in rows && x !in Predictions(rows, n) && y in Predictions(rows, n) ==>
      x.predictiveScore <= y.predictiveScore
  {
    var before := ByScore();
    KeyOrders((r: TeamRow) => r.predictiveScore);
    TopOfSort(rows, before, n);
    var p := Predictions(rows, n);
    forall i, j | 0 <= i < j < |p| ensures p[i].predictiveScore >= p[j].predictiveScore {
      assert !before(p[j], p[i]);
    }
    forall x, y | x in rows && x !in p && y in p ensures x.predictiveScore <= y.predictiveScore {
      assert !before(x, y);
    }
  }

  /** The consistency chart lists the teams with most appearances, most
      first. */
  lemma ConsistencySpec(rows: seq<TeamRow>)
    ensures |Consistency(rows)| == if |rows| < 8 then |rows| else 8
    ensures forall y :: y in Consistency(rows) ==> y in rows
    ensures forall i, j :: 0 <= i < j < |Consistency(rows)| ==>
      Consistency(rows)[i].stat.appearances >= Consistency(rows)[j].stat.appearances
    ensures forall x, y :: x in rows && x !in Consistency(rows) && y in Consistency(rows) ==>
      x.stat.appearances <= y.stat.appearances
  {
    var before := ByAppearances();
    KeyOrders((r: TeamRow) => r.stat.appearances as real);
    TopOfSort(rows, before, 8);
    var c := Consistency(rows);
    forall i, j | 0 <= i < j < |c| ensures c[i].stat.appearances >= c[j].stat.appearances {
      assert !before(c[j], c[i]);
    }
    forall x, y | x in rows && x !in c && y in c ensures x.stat.appearances <= y.stat.appearances {
      assert !before(x, y);
    }
  }

  /** The stats table lists the teams with the lowest average times,
      lowest first. */
  lemma FastestTeamsSpec(rows: seq<TeamRow>)
    ensures |FastestTeams(rows)| == if |rows| < 10 then |rows| else 10
    ensures forall y :: y in FastestTeams(rows) ==> y in rows
    ensures forall i, j :: 0 <= i < j < |FastestTeams(rows)| ==>
      FastestTeams(rows)[i].averageTime <= FastestTeams(rows)[j].averageTime
    ensures forall x, y :: x in rows && x !in FastestTeams(rows) && y in FastestTeams(rows) ==>
      x.averageTime >= y.averageTime
  {
    var before := ByAverageTime();
    KeyOrders((r: TeamRow) => r.averageTime);
    TopOfSort(rows, before, 10);
    var f := FastestTeams(rows);
    forall i, j | 0 <= i < j < |f| ensures f[i].averageTime <= f[j].averageTime {
      assert !before(f[j], f[i]);
    }
    forall x, y | x in rows && x !in f && y in f ensures x.averageTime >= y.averageTime {
      assert !before(x, y);
    }
  }

  // ---------------------------------------------------------------------
  // teamTrendData

  /** `stops.find(ps => ps.team === team)`. */
  function FindTeam(ps: seq<PitStop>, team: string): (r: Option<PitStop>)
    ensures r.None? <==> forall i :: 0 <= i < |ps| ==> ps[i].team != team
    ensures r.Some? ==>
      exists i :: 0 <= i < |ps| && ps[i] == r.value && r.value.team == team &&
        forall j :: 0 <= j < i ==> ps[j].team != team
  {
    if ps == [] then None
    else if ps[0].team == team then
      Some(ps[0])
    else
      var r := FindTeam(ps[1..], team);
      assert forall i :: 1 <= i < |ps| ==> ps[i] == ps[1..][i - 1];
      if r.Some? then
        var i :| 0 <= i < |ps[1..]| && ps[1..][i] == r.value && r.value.team == team &&
          forall j :: 0 <= j < i ==> ps[1..][j].team != team;
        assert ps[i + 1] == r.value;
        r
      else r
  }

  /** The line chart of one team. */
  datatype Trend = Trend(labels: seq<string>, name: string, data: seq<Option<real>>, color: string)

  /** One point per round: the time of the team's first stop in that
      round's list, or `null` when the list does not name the team. */
  function TrendPoint(r: PitRound, team: string): Option<real> {
    match FindTeam(r.stops, team)
    case None => None
    case Some(p) => Some(p.time)
  }

  /** `teamTrendData`: `null` until a team is selected. */
  method TeamTrend(rounds: seq<PitRound>, selected: string) returns (t: Option<Trend>)
    ensures t.None? <==> selected == ""
    ensures t.Some? ==>
      && |t.value.labels| == |rounds| && |t.value.data| == |rounds|
      && t.value.name == selected + " Pit Stop Times"
      && t.value.color == DataProcessing.TeamColor(selected)
      && forall i :: 0 <= i < |rounds| ==>
           t.value.labels[i] == RaceData.RoundTag(rounds[i].round) && t.value.data[i] == TrendPoint(rounds[i], selected)
  {
    if selected == "" {
      return None;
    }
    var labels, data := TrendSeries(rounds, selected);
    t := Some(Trend(labels, selected + " Pit Stop Times", data, DataProcessing.TeamColor(selected)));
  }

  /** A `R<round>` label per round. */
  function TrendLabels(rounds: seq<PitRound>): (r: seq<string>)
    ensures |r| == |rounds| && forall i :: 0 <= i < |rounds| ==> r[i] == RaceData.RoundTag(rounds[i].round)
  {
    seq(|rounds|, k requires 0 <= k < |rounds| => RaceData.RoundTag(rounds[k].round))
  }

  /** A trend point per round. */
  function TrendData(rounds: seq<PitRound>, team: string): (r: seq<Option<real>>)
    ensures |r| == |rounds| && forall i :: 0 <= i < |rounds| ==> r[i] == TrendPoint(rounds[i], team)
  {
    seq(|rounds|, k requires 0 <= k < |rounds| => TrendPoint(rounds[k], team))
  }

  lemma LabelsStep(rounds: seq<PitRound>, i: nat)
    requires i < |rounds|
    ensures TrendLabels(rounds[..i + 1]) == TrendLabels(rounds[..i]) + [RaceData.RoundTag(rounds[i].round)]
  {
    var a, b := TrendLabels(rounds[..i + 1]), TrendLabels(rounds[..i]) + [RaceData.RoundTag(rounds[i].round)];
    forall k | 0 <= k < i + 1 ensures a[k] == b[k] {
      if k < i {
        assert rounds[..i + 1][k] == rounds[..i][k];
      }
    }
  }

  lemma DataStep(rounds: seq<PitRound>, team: string, i: nat)
    requires i < |rounds|
    ensures TrendData(rounds[..i + 1], team) == TrendData(rounds[..i], team) + [TrendPoint(rounds[i], team)]
  {
    var a, b := TrendData(rounds[..i + 1], team), TrendData(rounds[..i], team) + [TrendPoint(rounds[i], team)];
    forall k | 0 <= k < i + 1 ensures a[k] == b[k] {
      if k < i {
        assert rounds[..i + 1][k] == rounds[..i][k];
      }
    }
  }

  /** `pitStopData.forEach(...)`: a label and a point per round. */
  method TrendSeries(rounds: seq<PitRound>, selected: string) returns (labels: seq<string>, data: seq<Option<real>>)
    ensures labels == TrendLabels(rounds) && data == TrendData(rounds, selected)
  {
    labels, data := [], [];
    for i := 0 to |rounds|
      invariant labels == TrendLabels(rounds[..i]) && data == TrendData(rounds[..i], selected)
    {
      LabelsStep(rounds, i);
      DataStep(rounds, selected, i);
      var point := RoundPoint(rounds[i], selected);
      labels := labels + [RaceData.RoundTag(rounds[i].round)];
      data := data + [point];
    }
    assert rounds[..|rounds|] == rounds;
  }

  /** The loop body: the time of the team's first stop in the round, or
      `null`. */
  method RoundPoint(r: PitRound, team: string) returns (point: Option<real>)
    ensures point == TrendPoint(r, team)
  {
    var found := FindTeam(r.stops, team);
    point := if found.Some? then Some(found.value.time) else None;
  }

  /** A trend point is present iff the round lists the team, and is then
      the time of the team's first listed stop. */
  lemma TrendPointSpec(r: PitRound, team: string)
    ensures TrendPoint(r, team).None? <==> team !in TeamNames(r.stops)
    ensures TrendPoint(r, team).Some? ==>
      exists i :: 0 <= i < |r.stops| && r.stops[i].team == team &&
        TrendPoint(r, team).value == r.stops[i].time && forall j :: 0 <= j < i ==> r.stops[j].team != team
  {
  }
}
