/** The driver statistics page: the scored drivers grouped by primary team,
    and one bar chart per team comparing the first two drivers of the
    group. */
module DriverStatsPage {
  import opened Maybe
  import opened Seqs
  import opened CompositeScore
  import ST = SeriesTable

  /** `teamColorMap`: the two bar colours of each team. */
  const TeamColorPairs: map<string, (string, string)> := map[
    "McLaren" := ("#FF8700", "#0057B8"),
    "Mercedes" := ("#00D2BE", "#C0C0C0"),
    "Red Bull Racing" := ("#1E41FF", "#FF1E00"),
    "Ferrari" := ("#DC0000", "#FFD700"),
    "Williams" := ("#005AFF", "#00CFFF"),
    "Alpine" := ("#0090FF", "#FF69B4"),
    "Aston Martin" := ("#00665E", "#D4AF37"),
    "Haas" := ("#B6BABD", "#FF0000"),
    "Racing Bulls" := ("#4B6B8C", "#FF3C38"),
    "Kick Sauber" := ("#00F500", "#000000")
  ]

  /** `teamColorMap[team] || ["#888", "#AAA"]`. */
  function ColorPair(team: string): (c: (string, string))
    ensures team in TeamColorPairs ==> c == TeamColorPairs[team]
    ensures team !in TeamColorPairs ==> c == ("#888", "#AAA")
  {
    if team in TeamColorPairs then TeamColorPairs[team] else ("#888", "#AAA")
  }

  // ---------------------------------------------------------------------
  // Grouping

  function OfTeam(team: string): Scored -> bool {
    (d: Scored) => d.stat.team == team
  }

  /** `grouped` after the given drivers were pushed under their team. */
  function Grouping(parsed: seq<Scored>): ST.Table<Scored> {
    if parsed == [] then ST.EmptyTable()
    else
      var d := parsed[|parsed| - 1];
      ST.Push(Grouping(parsed[..|parsed| - 1]), d.stat.team, d)
  }

  /** Each team is listed once, and its group holds that team's drivers in
      the order `parseDriverStats` returned them. */
  lemma {:induction false} GroupingSpec(parsed: seq<Scored>, team: string)
    ensures ST.Valid(Grouping(parsed))
    ensures ST.Row(Grouping(parsed), team) == Filter(parsed, OfTeam(team))
  {
    if parsed != [] {
      var init, d := parsed[..|parsed| - 1], parsed[|parsed| - 1];
      GroupingSpec(init, team);
      ST.PushValid(Grouping(init), d.stat.team, d);
    }
  }

  /** `parsed.forEach(driver => grouped[driver.team].push(driver))`. */
  method GroupTeams(parsed: seq<Scored>) returns (grouped: ST.Table<Scored>)
    ensures grouped == Grouping(parsed)
  {
    grouped := ST.EmptyTable();
    for j := 0 to |parsed|
      invariant grouped == Grouping(parsed[..j])
    {
      assert parsed[..j + 1][..j] == parsed[..j];
      var d := parsed[j];
      grouped := ST.Push(grouped, d.stat.team, d);
    }
    assert parsed[..|parsed|] == parsed;
  }

  // ---------------------------------------------------------------------
  // Charts

  /** One bar series: the driver's name, four values and a colour. */
  datatype Bars = Bars(name: string, data: seq<real>, color: string)

  /** `[normPoints, normQuali, normFinish, normHead]`. */
  function BarData(d: Scored): seq<real> {
    [d.normPoints, d.normQuali, d.normFinish, d.normHead]
  }

  /** The chart of one group: `null` for fewer than two drivers, otherwise
      the first two drivers in their team's colours. */
  function TeamChart(team: string, drivers: seq<Scored>): (r: Option<(Bars, Bars)>)
    ensures r.Some? <==> |drivers| >= 2
  {
    if |drivers| < 2 then None
    else
      var (c1, c2) := ColorPair(team);
      Some((Bars(drivers[0].stat.name, BarData(drivers[0]), c1), Bars(drivers[1].stat.name, BarData(drivers[1]), c2)))
  }

  /** Only the first two drivers of a group appear in its chart. */
  lemma TeamChartFirstTwo(team: string, drivers: seq<Scored>)
    requires |drivers| >= 2
    ensures TeamChart(team, drivers) == TeamChart(team, drivers[..2])
    ensures TeamChart(team, drivers).value.0.name == drivers[0].stat.name
    ensures TeamChart(team, drivers).value.1.name == drivers[1].stat.name
  {
  }

  /** `Object.entries(teamStats).map(...)`: one chart or `null` per team. */
  function Charts(grouped: ST.Table<Scored>): (r: seq<Option<(Bars, Bars)>>)
    ensures |r| == |grouped.keys|
  {
    seq(|grouped.keys|, k requires 0 <= k < |grouped.keys| => TeamChart(grouped.keys[k], ST.Row(grouped, grouped.keys[k])))
  }

  /** A team gets a chart iff at least two of the parsed drivers have it as
      their primary team; the bars then show the four normalised values of
      the first two of them, in the team's pair of colours. */
  lemma ChartsSpec(parsed: seq<Scored>, k: nat)
    requires k < |Grouping(parsed).keys|
    ensures Charts(Grouping(parsed))[k].Some? <==> |Filter(parsed, OfTeam(Grouping(parsed).keys[k]))| >= 2
    ensures Charts(Grouping(parsed))[k].Some? ==>
      var team := Grouping(parsed).keys[k];
      var c := Charts(Grouping(parsed))[k].value;
      c.0.data == BarData(Filter(parsed, OfTeam(team))[0]) && c.1.data == BarData(Filter(parsed, OfTeam(team))[1]) &&
      c.0.color == ColorPair(team).0 && c.1.color == ColorPair(team).1
  {
    GroupingSpec(parsed, Grouping(parsed).keys[k]);
  }
}
