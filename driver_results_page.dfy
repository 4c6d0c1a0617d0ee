/** The 2025 driver race-results page: the same per-round position series
    as the race-results hook, built from the raw season (no renaming step
    and no empty-season guard), with the page's own team colour table. */
module DriverResultsPage {
  import opened Maybe
  import opened RaceData
  import opened SeriesTable
  import F1 = F1DataComponents

  /** The page's local `getTeamColor` table. */
  const PageTeamColors: map<string, string> := map[
    "McLaren" := "#FF8700",
    "Red Bull Racing" := "#1E41FF",
    "Mercedes" := "#00D2BE",
    "Ferrari" := "#DC0000",
    "Williams" := "#005AFF",
    "Alpine" := "#0090FF",
    "Aston Martin" := "#00665E",
    "Haas" := "#B6BABD",
    "Racing Bulls" := "#2B4562",
    "Kick Sauber" := "#00F500"]

  /** `teamColors[team] || "#888"`; a missing team is `undefined`. */
  function PageTeamColor(team: Option<string>): (c: string)
    ensures team.Some? && team.value in PageTeamColors ==> c == PageTeamColors[team.value]
    ensures team.None? || team.value !in PageTeamColors ==> c == "#888"
  {
    if team.Some? && team.value in PageTeamColors then PageTeamColors[team.value] else "#888"
  }

  /** One dataset per key of the position map, in key order, coloured by
      the team of the driver's first listed race result. */
  function PageDatasets(t: Table<Option<int>>, races: seq<Race>): (r: seq<F1.Dataset<Option<int>>>)
    requires AllHaveRaceResults(races)
    ensures |r| == |t.keys|
  {
    seq(|t.keys|, j requires 0 <= j < |t.keys| =>
      F1.Dataset(t.keys[j], Row(t, t.keys[j]), PageTeamColor(F1.FirstTeam(races, t.keys[j]))))
  }

  /** The chart `buildChartData` sets. */
  function ResultsChart(races: seq<Race>): F1.Chart<Option<int>>
    requires AllHaveRaceResults(races)
  {
    F1.Chart(F1.Labels(races, F1.RaceTag), PageDatasets(F1.PositionTable(races), races))
  }

  /** `buildChartData`: `f1SeasonData.races || []`, then the round loop. */
  method BuildChartData(season: Option<seq<Race>>) returns (c: F1.Chart<Option<int>>)
    requires AllHaveRaceResults(season.GetOr([]))
    ensures c == ResultsChart(season.GetOr([]))
  {
    var races := season.GetOr([]);
    var standings: Table<Option<int>> := EmptyTable();
    var labels: seq<string> := [];
    for i := 0 to |races|
      invariant standings == F1.PositionTable(races[..i])
      invariant labels == F1.Labels(races[..i], F1.RaceTag)
    {
      F1.PositionTableStep(races, i);
      F1.LabelsStep(races, i, F1.RaceTag);
      labels := labels + [RoundTag(races[i].round)];
      standings := PushEach(standings, races[i].raceResults.value, F1.PositionOf());
      standings := PadShort(standings, i + 1, F1.NoPosition());
    }
    assert races[..|races|] == races;
    c := F1.Chart(labels, PageDatasets(standings, races));
  }

  /** The page draws the same series as the race-results hook given the
      same races with nothing selected: one label "R" + round per race,
      and per driver the same name and positions; only the colours come
      from the page's own table. */
  lemma ResultsChartMatchesHook(races: seq<Race>)
    requires AllHaveRaceResults(races)
    ensures ResultsChart(races).labels == F1.RaceResultsChart(races, []).labels
    ensures |ResultsChart(races).labels| == |races|
    ensures forall i :: 0 <= i < |races| ==> ResultsChart(races).labels[i] == RoundTag(races[i].round)
    ensures |ResultsChart(races).datasets| == |F1.RaceResultsChart(races, []).datasets|
    ensures forall j :: 0 <= j < |ResultsChart(races).datasets| ==>
      ResultsChart(races).datasets[j].name == F1.RaceResultsChart(races, []).datasets[j].name &&
      ResultsChart(races).datasets[j].data == F1.RaceResultsChart(races, []).datasets[j].data
  {
  }

  /** The colour of a series: the page's colour for the team the driver
      had in the first race listing them; "#888" when that team is not in
      the table. */
  lemma {:induction false} SeriesColorSpec(races: seq<Race>, d: string)
    requires AllHaveRaceResults(races)
    ensures F1.FirstTeam(races, d).Some? ==>
      exists i :: 0 <= i < |races| && FindDriver(races[i].raceResults.value, d).Some? &&
        F1.FirstTeam(races, d).value == FindDriver(races[i].raceResults.value, d).value.team &&
        forall j :: 0 <= j < i ==> FindDriver(races[j].raceResults.value, d).None?
  {
    if races != [] && FindDriver(races[0].raceResults.value, d).None? {
      var rest := races[1..];
      SeriesColorSpec(rest, d);
      if F1.FirstTeam(races, d).Some? {
        var i :| 0 <= i < |rest| && FindDriver(rest[i].raceResults.value, d).Some? &&
          F1.FirstTeam(rest, d).value == FindDriver(rest[i].raceResults.value, d).value.team &&
          forall j :: 0 <= j < i ==> FindDriver(rest[j].raceResults.value, d).None?;
        assert rest[i] == races[i + 1];
        assert forall j :: 1 <= j < i + 1 ==> races[j] == rest[j - 1];
      }
    }
  }
}
