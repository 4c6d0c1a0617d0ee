/** `useConstructorData`: each round's points per team (race results, then
    sprint results), running totals kept in a `Map` in order of first
    appearance, and each round's standings read off a stable sort of those
    totals, largest first. Teams not yet seen in a round get `null`. */
module ConstructorStandings {
  import opened Maybe
  import opened Seqs
  import opened Tallies
  import opened StableSort
  import opened RaceData
  import opened DataProcessing
  import ST = SeriesTable
  import F1 = F1DataComponents

  // ---------------------------------------------------------------------
  // Points maps

  /** `es.forEach(({team, points}) => m.set(team, (m.get(team) || 0) + points))`. */
  function AddEntries(t: Tally, es: seq<Entry>): Tally {
    if es == [] then t
    else
      var last := es[|es| - 1];
      AddEntries(t, es[..|es| - 1]).Add(last.team, last.points)
  }

  /** The points the entries give a team. */
  function TeamPoints(es: seq<Entry>, team: string): int {
    if es == [] then 0
    else TeamPoints(es[..|es| - 1], team) + (if es[|es| - 1].team == team then es[|es| - 1].points else 0)
  }

  /** Adding entries adds their teams as a `Set` would, and adds to each
      team the points its entries carry. */
  lemma {:induction false} AddEntriesSpec(t: Tally, es: seq<Entry>, team: string)
    ensures AddEntries(t, es).keys == AddAll(t.keys, TeamsOf(es))
    ensures t.Valid() ==> AddEntries(t, es).Valid()
    ensures AddEntries(t, es).Get(team) == t.Get(team) + TeamPoints(es, team)
  {
    if es != [] {
      var init := es[..|es| - 1];
      AddEntriesSpec(t, init, team);
      assert TeamsOf(es)[..|es| - 1] == TeamsOf(init);
    }
  }

  /** The `roundPoints` map of a round: race results, then sprint results
      when the round has them. */
  function RoundPoints(race: Race): Tally {
    AddEntries(AddEntries(NoPoints, EntriesOf(race.raceResults)), EntriesOf(race.sprintResults))
  }

  /** The teams a round lists, in the order the round adds them. */
  function RoundTeams(race: Race): seq<string> {
    TeamsOf(EntriesOf(race.raceResults)) + TeamsOf(EntriesOf(race.sprintResults))
  }

  /** A team's race and sprint points in one round. */
  function RoundTeamPoints(race: Race, team: string): int {
    TeamPoints(EntriesOf(race.raceResults), team) + TeamPoints(EntriesOf(race.sprintResults), team)
  }

  /** A round's map holds the teams it lists, in first-appearance order,
      each with its race and sprint points. */
  lemma RoundPointsSpec(race: Race, team: string)
    ensures RoundPoints(race).Valid()
    ensures RoundPoints(race).keys == AddAll([], RoundTeams(race))
    ensures RoundPoints(race).Get(team) == RoundTeamPoints(race, team)
  {
    var rr, sr := EntriesOf(race.raceResults), EntriesOf(race.sprintResults);
    AddEntriesSpec(NoPoints, rr, team);
    AddEntriesSpec(AddEntries(NoPoints, rr), sr, team);
    AddAllConcat([], TeamsOf(rr), TeamsOf(sr));
  }

  /** `r.forEach((points, team) => t.set(team, (t.get(team) || 0) + points))`,
      over the keys `ks` of `r`. */
  function MergeKeys(t: Tally, r: Tally, ks: seq<string>): Tally {
    if ks == [] then t
    else
      var last := ks[|ks| - 1];
      MergeKeys(t, r, ks[..|ks| - 1]).Add(last, r.Get(last))
  }

  function Merge(t: Tally, r: Tally): Tally {
    MergeKeys(t, r, r.keys)
  }

  lemma {:induction false} MergeKeysSpec(t: Tally, r: Tally, ks: seq<string>, team: string)
    requires NoDup(ks)
    ensures MergeKeys(t, r, ks).keys == AddAll(t.keys, ks)
    ensures t.Valid() ==> MergeKeys(t, r, ks).Valid()
    ensures MergeKeys(t, r, ks).Get(team) == t.Get(team) + (if team in ks then r.Get(team) else 0)
  {
    if ks != [] {
      var init := ks[..|ks| - 1];
      MergeKeysSpec(t, r, init, team);
      assert ks == init + [ks[|ks| - 1]];
    }
  }

  /** Merging a round adds its teams as a `Set` would, and its points to
      each team's total. */
  lemma MergeSpec(t: Tally, r: Tally, team: string)
    requires r.Valid()
    ensures Merge(t, r).keys == AddAll(t.keys, r.keys)
    ensures t.Valid() ==> Merge(t, r).Valid()
    ensures Merge(t, r).Get(team) == t.Get(team) + r.Get(team)
  {
    MergeKeysSpec(t, r, r.keys, team);
  }

  /** The `runningTotals` map after the given rounds. */
  function Totals(races: seq<Race>): Tally {
    if races == [] then NoPoints
    else Merge(Totals(races[..|races| - 1]), RoundPoints(races[|races| - 1]))
  }

  /** Every team listed so far, in the order the rounds list them. */
  function SeasonTeams(races: seq<Race>): seq<string> {
    if races == [] then []
    else SeasonTeams(races[..|races| - 1]) + RoundTeams(races[|races| - 1])
  }

  /** `allConstructors` after the given rounds. */
  function Teams(races: seq<Race>): seq<string> {
    AddAll([], SeasonTeams(races))
  }

  /** A team's points round by round. */
  function PointsSeries(races: seq<Race>, team: string): (s: seq<int>)
    ensures |s| == |races| && forall i :: 0 <= i < |races| ==> s[i] == RoundTeamPoints(races[i], team)
  {
    seq(|races|, i requires 0 <= i < |races| => RoundTeamPoints(races[i], team))
  }

  /** The running totals list the teams seen so far in first-appearance
      order, which is also the order of `allConstructors`. */
  lemma {:induction false} TotalsKeys(races: seq<Race>)
    ensures Totals(races).Valid()
    ensures Totals(races).keys == Teams(races)
  {
    if races != [] {
      var init, last := races[..|races| - 1], races[|races| - 1];
      TotalsKeys(init);
      RoundPointsSpec(last, "");
      MergeSpec(Totals(init), RoundPoints(last), "");
      calc {
        Totals(races).keys;
        AddAll(AddAll([], SeasonTeams(init)), AddAll([], RoundTeams(last)));
        { AddAllDistinct(AddAll([], SeasonTeams(init)), RoundTeams(last)); }
        AddAll(AddAll([], SeasonTeams(init)), RoundTeams(last));
        { AddAllConcat([], SeasonTeams(init), RoundTeams(last)); }
        Teams(races);
      }
    }
  }

  /** A team's running total is the sum of its points in every round so
      far. */
  lemma {:induction false} TotalsGet(races: seq<Race>, team: string)
    ensures Totals(races).Get(team) == Sum(PointsSeries(races, team))
  {
    if races != [] {
      var init, last := races[..|races| - 1], races[|races| - 1];
      TotalsGet(init, team);
      RoundPointsSpec(last, team);
      MergeSpec(Totals(init), RoundPoints(last), team);
      assert PointsSeries(races, team)[..|races| - 1] == PointsSeries(init, team);
    }
  }

  // ---------------------------------------------------------------------
  // Standings of a round

  /** `(a, b) => b[1] - a[1]` on `[team, total]` pairs: larger totals
      first. */
  function ByTotalDesc(totals: Tally): (string, string) -> bool {
    ByKeyDesc((team: string) => totals.Get(team) as real)
  }

  /** `[...runningTotals.entries()].sort(...).map(([team]) => team)`. */
  function Ranking(totals: Tally): seq<string> {
    Sort(totals.keys, ByTotalDesc(totals))
  }

  /** `sorted.indexOf(team)`: the first index, or -1. */
  function IndexOrMinusOne(sorted: seq<string>, team: string): int {
    if team in sorted then IndexOf(sorted, team) else -1
  }

  /** `pos !== -1 ? pos + 1 : null` for `pos = sorted.indexOf(team)`. */
  function RankIn(sorted: seq<string>, team: string): Option<int> {
    var pos := IndexOrMinusOne(sorted, team);
    if pos != -1 then Some(pos + 1) else None
  }

  /** The ranking lists each team of the totals once. */
  lemma RankingPermutes(totals: Tally)
    requires totals.Valid()
    ensures |Ranking(totals)| == |totals.keys| && NoDup(Ranking(totals))
    ensures forall team :: team in Ranking(totals) <==> team in totals.keys
  {
    var r := Ranking(totals);
    SortPermutes(totals.keys, ByTotalDesc(totals));
    SortNoDup(totals.keys, ByTotalDesc(totals));
    forall team ensures team in r <==> team in totals.keys {
      assert team in r <==> team in multiset(r);
      assert team in totals.keys <==> team in multiset(totals.keys);
    }
  }

  /** A team has a rank iff it has a total, and ranks run from 1 to the
      number of teams with a total. */
  lemma RankRange(totals: Tally, team: string)
    requires totals.Valid()
    ensures RankIn(Ranking(totals), team).Some? <==> team in totals.keys
    ensures RankIn(Ranking(totals), team).Some? ==> 1 <= RankIn(Ranking(totals), team).value <= |totals.keys|
  {
    RankingPermutes(totals);
  }

  /** Every rank from 1 to the number of teams belongs to exactly one
      team: the one at that place in the ranking. */
  lemma RankHolder(totals: Tally, rank: int)
    requires totals.Valid() && 1 <= rank <= |totals.keys|
    ensures |Ranking(totals)| == |totals.keys|
    ensures Ranking(totals)[rank - 1] in totals.keys
    ensures RankIn(Ranking(totals), Ranking(totals)[rank - 1]) == Some(rank)
    ensures forall team :: RankIn(Ranking(totals), team) == Some(rank) ==> team == Ranking(totals)[rank - 1]
  {
    var r := Ranking(totals);
    RankingPermutes(totals);
    assert IndexOf(r, r[rank - 1]) == rank - 1;
  }

  /** Higher totals rank first; equal totals keep the order in which the
      teams first appeared. */
  lemma RankOrder(totals: Tally, a: string, b: string)
    requires totals.Valid() && a in totals.keys && b in totals.keys && a != b
    ensures RankIn(Ranking(totals), a).Some? && RankIn(Ranking(totals), b).Some?
    ensures RankIn(Ranking(totals), a).value < RankIn(Ranking(totals), b).value <==>
      totals.Get(a) > totals.Get(b) ||
      (totals.Get(a) == totals.Get(b) && IndexOf(totals.keys, a) < IndexOf(totals.keys, b))
  {
    KeyOrders((team: string) => totals.Get(team) as real);
    SortedOrder(totals.keys, ByTotalDesc(totals), a, b);
  }

  // ---------------------------------------------------------------------
  // The per-team arrays

  /** The rank and the running total of a team after round `i`: the
      `pos + 1`-or-`null` and the `runningTotals.get(team) || 0` pushed
      for it in that round. */
  function RankAt(races: seq<Race>): (nat, string) -> Option<int> {
    (i: nat, team: string) =>
      if i < |races| then RankIn(Ranking(Totals(races[..i + 1])), team) else None
  }

  function TotalAt(races: seq<Race>): (nat, string) -> int {
    (i: nat, team: string) =>
      if i < |races| then Totals(races[..i + 1]).Get(team) else 0
  }

  /** A `Map` from each team to its values for the first `n` rounds. */
  function UpTo<V>(teams: seq<string>, n: nat, at: (nat, string) -> V): ST.Table<V> {
    ST.Table(teams, map team | team in teams :: seq(n, i requires 0 <= i < n => at(i, team)))
  }

  /** Pushing round `n`'s value onto every array gives the arrays of the
      first `n + 1` rounds. */
  lemma UpToStep<V>(teams: seq<string>, n: nat, at: (nat, string) -> V, value: string -> V)
    requires forall team :: value(team) == at(n, team)
    ensures ST.Extend(UpTo(teams, n, at), value) == UpTo(teams, n + 1, at)
  {
    var t, u := ST.Extend(UpTo(teams, n, at), value), UpTo(teams, n + 1, at);
    forall team | team in teams ensures t.rows[team] == u.rows[team] {
      assert t.rows[team] == seq(n, i requires 0 <= i < n => at(i, team)) + [value(team)];
    }
  }

  /** `teamStandings` at the end of the season. */
  function Standings(races: seq<Race>): ST.Table<Option<int>> {
    UpTo(Teams(races), |races|, RankAt(races))
  }

  /** `cumulativeMap` at the end of the season. */
  function CumulativeMap(races: seq<Race>): ST.Table<int> {
    UpTo(Teams(races), |races|, TotalAt(races))
  }

  /** `[...teamStandings.entries()].map(([team, positions]) => ...)`:
      one line per team, in key order, coloured by `getTeamColor`. */
  function TeamDatasets(t: ST.Table<Option<int>>): (r: seq<F1.Dataset<Option<int>>>)
    ensures |r| == |t.keys|
    ensures forall j :: 0 <= j < |t.keys| ==>
      r[j] == F1.Dataset(t.keys[j], ST.Row(t, t.keys[j]), TeamColor(t.keys[j]))
  {
    seq(|t.keys|, j requires 0 <= j < |t.keys| =>
      F1.Dataset(t.keys[j], ST.Row(t, t.keys[j]), TeamColor(t.keys[j])))
  }

  /** The chart: round labels, and the teams' lines. */
  function ConstructorChart(races: seq<Race>): (c: F1.Chart<Option<int>>)
    ensures c.labels == F1.Labels(races, F1.ConstructorLabel)
    ensures c.datasets == TeamDatasets(Standings(races))
  {
    F1.Chart(F1.Labels(races, F1.ConstructorLabel), TeamDatasets(Standings(races)))
  }

  // ---------------------------------------------------------------------
  // The hook

  /** `useConstructorData`: no chart and an empty `cumulativeMap` for a
      missing or empty season. */
  method UseConstructorData(rawRaces: Option<seq<Race>>)
    returns (chart: Option<F1.Chart<Option<int>>>, cumulative: ST.Table<int>)
    requires rawRaces.Some? ==> AllHaveRaceResults(rawRaces.value)
    ensures chart.None? <==> rawRaces.None? || rawRaces.value == []
    ensures chart.None? ==> cumulative == ST.EmptyTable()
    ensures chart.Some? ==> chart.value == ConstructorChart(Normalized(rawRaces.value, DriverChanges))
    ensures chart.Some? ==> cumulative == CumulativeMap(Normalized(rawRaces.value, DriverChanges))
  {
    var races := UseProcessedRaceData(rawRaces);
    if |races| == 0 {
      if rawRaces.Some? {
        NormalizedShape(rawRaces.value, DriverChanges);
      }
      return None, ST.EmptyTable();
    }
    F1.NormalizedKeepsRaceResults(rawRaces.value);
    var c;
    c, cumulative := BuildConstructorData(races);
    chart := Some(c);
  }

  /** The memoised body: labels, then the two passes over the rounds. */
  method BuildConstructorData(races: seq<Race>) returns (c: F1.Chart<Option<int>>, cumulative: ST.Table<int>)
    requires AllHaveRaceResults(races)
    ensures c == ConstructorChart(races)
    ensures cumulative == CumulativeMap(races)
  {
    var labels := F1.Labels(races, F1.ConstructorLabel);
    var all, history := CollectRounds(races);
    var standings;
    standings, cumulative := RankRounds(races, all, history);
    c := F1.Chart(labels, TeamDatasets(standings));
  }

  /** The first pass: each round's `roundPoints` (race results, then sprint
      results when present) into `pointsHistory`, and every team into
      `allConstructors`. */
  method CollectRounds(races: seq<Race>) returns (all: seq<string>, history: seq<Tally>)
    requires AllHaveRaceResults(races)
    ensures all == Teams(races) && history == History(races)
  {
    all, history := [], [];
    for i := 0 to |races|
      invariant all == Teams(races[..i])
      invariant history == History(races[..i])
    {
      TeamsStep(races, i);
      HistoryStep(races, i);
      var roundPoints;
      roundPoints, all := AddRound(NoPoints, all, races[i].raceResults.value);
      if races[i].sprintResults.Some? {
        roundPoints, all := AddRound(roundPoints, all, races[i].sprintResults.value);
      }
      history := history + [roundPoints];
    }
    assert races[..|races|] == races;
  }

  /** The second pass: an empty array per team, then per round the merge
      into `runningTotals`, the sort, and the pushes. */
  method RankRounds(races: seq<Race>, all: seq<string>, history: seq<Tally>)
    returns (standings: ST.Table<Option<int>>, cumulative: ST.Table<int>)
    requires all == Teams(races) && history == History(races)
    ensures standings == Standings(races) && cumulative == CumulativeMap(races)
  {
    AddAllContents([], SeasonTeams(races));
    standings := ST.Table(all, map team | team in all :: []);
    cumulative := ST.Table(all, map team | team in all :: []);
    UpToZero(all, RankAt(races));
    UpToZero(all, TotalAt(races));
    var totals := NoPoints;
    for i := 0 to |races|
      invariant totals == Totals(races[..i])
      invariant standings == UpTo(all, i, RankAt(races))
      invariant cumulative == UpTo(all, i, TotalAt(races))
    {
      TotalsStep(races, i);
      totals := MergeRound(totals, history[i]);
      var sorted := Ranking(totals);
      RoundStep(races, all, i);
      standings, cumulative := PushRound(standings, cumulative, sorted, totals);
    }
  }

  /** `pointsHistory`: each round's points map. */
  function History(races: seq<Race>): (h: seq<Tally>)
    ensures |h| == |races| && forall i :: 0 <= i < |races| ==> h[i] == RoundPoints(races[i])
  {
    seq(|races|, i requires 0 <= i < |races| => RoundPoints(races[i]))
  }

  lemma HistoryStep(races: seq<Race>, i: nat)
    requires i < |races|
    ensures History(races[..i + 1]) == History(races[..i]) + [RoundPoints(races[i])]
  {
    assert History(races[..i + 1])[..i] == History(races[..i]);
  }

  lemma TotalsStep(races: seq<Race>, i: nat)
    requires i < |races|
    ensures Totals(races[..i + 1]) == Merge(Totals(races[..i]), RoundPoints(races[i]))
  {
    assert races[..i + 1][..i] == races[..i];
  }

  lemma UpToZero<V>(teams: seq<string>, at: (nat, string) -> V)
    ensures UpTo(teams, 0, at) == ST.Table(teams, map team | team in teams :: [])
  {
    var rows := UpTo(teams, 0, at).rows;
    assert forall team :: team in rows ==> |rows[team]| == 0;
  }

  /** Round `i`'s ranks and totals, read off the running totals after it,
      extend both tables by that round. */
  lemma RoundStep(races: seq<Race>, teams: seq<string>, i: nat)
    requires i < |races|
    ensures ST.Extend(UpTo(teams, i, RankAt(races)), RankOf(Ranking(Totals(races[..i + 1])))) == UpTo(teams, i + 1, RankAt(races))
    ensures ST.Extend(UpTo(teams, i, TotalAt(races)), TotalOf(Totals(races[..i + 1]))) == UpTo(teams, i + 1, TotalAt(races))
  {
    UpToStep(teams, i, RankAt(races), RankOf(Ranking(Totals(races[..i + 1]))));
    UpToStep(teams, i, TotalAt(races), TotalOf(Totals(races[..i + 1])));
  }

  /** A round adds its race teams, then its sprint teams, to
      `allConstructors`. */
  lemma TeamsStep(races: seq<Race>, i: nat)
    requires i < |races|
    ensures Teams(races[..i + 1]) ==
      AddAll(AddAll(Teams(races[..i]), TeamsOf(EntriesOf(races[i].raceResults))), TeamsOf(EntriesOf(races[i].sprintResults)))
  {
    assert races[..i + 1][..i] == races[..i];
    AddAllConcat([], SeasonTeams(races[..i]), RoundTeams(races[i]));
    AddAllConcat(Teams(races[..i]), TeamsOf(EntriesOf(races[i].raceResults)), TeamsOf(EntriesOf(races[i].sprintResults)));
  }

  /** One results list of a round, entry by entry: the team joins
      `allConstructors` and its points go into `roundPoints`. */
  method AddRound(roundPoints: Tally, all: seq<string>, es: seq<Entry>) returns (r: Tally, teams: seq<string>)
    ensures r == AddEntries(roundPoints, es)
    ensures teams == AddAll(all, TeamsOf(es))
  {
    r, teams := roundPoints, all;
    for j := 0 to |es|
      invariant r == AddEntries(roundPoints, es[..j])
      invariant teams == AddAll(all, TeamsOf(es[..j]))
    {
      var e := es[j];
      assert es[..j + 1][..j] == es[..j];
      assert TeamsOf(es[..j + 1]) == TeamsOf(es[..j]) + [e.team];
      if e.team !in teams {
        teams := teams + [e.team];
      }
      r := r.Add(e.team, e.points);
    }
    assert es[..|es|] == es;
  }

  /** `roundPoints.forEach((points, team) => runningTotals.set(...))`. */
  method MergeRound(totals: Tally, roundPoints: Tally) returns (t: Tally)
    ensures t == Merge(totals, roundPoints)
  {
    t := totals;
    for j := 0 to |roundPoints.keys|
      invariant t == MergeKeys(totals, roundPoints, roundPoints.keys[..j])
    {
      assert roundPoints.keys[..j + 1][..j] == roundPoints.keys[..j];
      var team := roundPoints.keys[j];
      t := t.Add(team, roundPoints.Get(team));
    }
    assert roundPoints.keys[..|roundPoints.keys|] == roundPoints.keys;
  }

  function RankOf(sorted: seq<string>): string -> Option<int> {
    (team: string) => RankIn(sorted, team)
  }

  function TotalOf(totals: Tally): string -> int {
    (team: string) => totals.Get(team)
  }

  /** For every team: `pos = sorted.indexOf(team)`, push `pos + 1` or
      `null` onto its standings and `runningTotals.get(team) || 0` onto its
      cumulative array. */
  method PushRound(standings: ST.Table<Option<int>>, cumulative: ST.Table<int>, sorted: seq<string>, totals: Tally)
    returns (s: ST.Table<Option<int>>, c: ST.Table<int>)
    requires ST.Valid(standings) && ST.Valid(cumulative) && standings.keys == cumulative.keys
    ensures s == ST.Extend(standings, RankOf(sorted))
    ensures c == ST.Extend(cumulative, TotalOf(totals))
  {
    var teams := standings.keys;
    var ranks, sums := standings.rows, cumulative.rows;
    assert teams[..0] == [];
    for j := 0 to |teams|
      invariant ST.ExtendedUpTo(standings, RankOf(sorted), ranks, teams[..j])
      invariant ST.ExtendedUpTo(cumulative, TotalOf(totals), sums, teams[..j])
    {
      var team := teams[j];
      var pos := IndexOrMinusOne(sorted, team);
      var rank := if pos != -1 then Some(pos + 1) else None;
      var totalPts := totals.Get(team);
      ST.ExtendStep(standings, RankOf(sorted), ranks, j, rank);
      ST.ExtendStep(cumulative, TotalOf(totals), sums, j, totalPts);
      ranks := ranks[team := ranks[team] + [rank]];
      sums := sums[team := sums[team] + [totalPts]];
    }
    assert teams[..|teams|] == teams;
    ST.ExtendedAll(standings, RankOf(sorted), ranks);
    ST.ExtendedAll(cumulative, TotalOf(totals), sums);
    s, c := ST.Table(teams, ranks), ST.Table(teams, sums);
  }

  // ---------------------------------------------------------------------
  // What the arrays say

  /** A team is listed by the season iff some round lists it. */
  lemma SeasonTeamsContents(races: seq<Race>, team: string)
    ensures team in SeasonTeams(races) <==> exists k :: 0 <= k < |races| && team in RoundTeams(races[k])
  {
    if team in SeasonTeams(races) {
      SeasonTeamsFrom(races, team);
    }
    if exists k :: 0 <= k < |races| && team in RoundTeams(races[k]) {
      var k :| 0 <= k < |races| && team in RoundTeams(races[k]);
      SeasonTeamsHas(races, team, k);
    }
  }

  /** A team that round `k` lists is in the season's list. */
  lemma {:induction false} SeasonTeamsHas(races: seq<Race>, team: string, k: nat)
    requires k < |races| && team in RoundTeams(races[k])
    ensures team in SeasonTeams(races)
  {
    var init := races[..|races| - 1];
    assert SeasonTeams(races) == SeasonTeams(init) + RoundTeams(races[|races| - 1]);
    if k < |init| {
      assert init[k] == races[k];
      SeasonTeamsHas(init, team, k);
    }
  }

  /** A team in the season's list was listed by some round. */
  lemma {:induction false} SeasonTeamsFrom(races: seq<Race>, team: string)
    requires team in SeasonTeams(races)
    ensures exists k :: 0 <= k < |races| && team in RoundTeams(races[k])
  {
    var init, last := races[..|races| - 1], races[|races| - 1];
    assert SeasonTeams(races) == SeasonTeams(init) + RoundTeams(last);
    if team in SeasonTeams(init) {
      SeasonTeamsFrom(init, team);
      var k :| 0 <= k < |init| && team in RoundTeams(init[k]);
      assert races[k] == init[k];
    } else {
      assert team in RoundTeams(races[|races| - 1]);
    }
  }

  /** The teams listed by the first rounds come first in the season's
      list. */
  lemma {:induction false} SeasonTeamsPrefix(races: seq<Race>, n: nat)
    requires n <= |races|
    ensures SeasonTeams(races[..n]) <= SeasonTeams(races)
    decreases |races|
  {
    if n < |races| {
      var init := races[..|races| - 1];
      assert init[..n] == races[..n];
      SeasonTeamsPrefix(init, n);
    } else {
      assert races[..n] == races;
    }
  }

  /** `allConstructors` only grows at the back: the teams known after the
      first rounds are a prefix of the season's, in the same order. */
  lemma TeamsPrefix(races: seq<Race>, n: nat)
    requires n <= |races|
    ensures Teams(races[..n]) <= Teams(races)
  {
    SeasonTeamsPrefix(races, n);
    var s, p := SeasonTeams(races), SeasonTeams(races[..n]);
    assert s == p + s[|p|..];
    AddAllConcat([], p, s[|p|..]);
  }

  /** Both maps have one key per team the season lists, in order of first
      appearance, and one value per round for each. */
  lemma ArraysShape(races: seq<Race>, team: string)
    ensures Standings(races).keys == Teams(races) && CumulativeMap(races).keys == Teams(races)
    ensures NoDup(Teams(races))
    ensures team in Teams(races) <==> exists k :: 0 <= k < |races| && team in RoundTeams(races[k])
    ensures team in Teams(races) ==>
      |ST.Row(Standings(races), team)| == |races| && |ST.Row(CumulativeMap(races), team)| == |races|
  {
    AddAllContents([], SeasonTeams(races));
    SeasonTeamsContents(races, team);
  }

  /** Entry `i` of a team's arrays: its rank in, and its total from, the
      running totals after round `i`. */
  lemma ArraysAt(races: seq<Race>, i: nat, team: string)
    requires i < |races| && team in Teams(races)
    ensures |ST.Row(Standings(races), team)| == |races| && |ST.Row(CumulativeMap(races), team)| == |races|
    ensures ST.Row(Standings(races), team)[i] == RankIn(Ranking(Totals(races[..i + 1])), team)
    ensures ST.Row(CumulativeMap(races), team)[i] == Totals(races[..i + 1]).Get(team)
  {
  }

  /** A team has a rank in round `i` iff a round up to `i` lists it, and
      ranks run from 1 to the number of teams listed so far; a team not yet
      listed gets `null`. */
  lemma StandingsRanked(races: seq<Race>, i: nat, team: string)
    requires i < |races| && team in Teams(races)
    ensures |ST.Row(Standings(races), team)| == |races|
    ensures ST.Row(Standings(races), team)[i].Some? <==>
      exists k :: 0 <= k <= i && team in RoundTeams(races[k])
    ensures ST.Row(Standings(races), team)[i].Some? ==>
      1 <= ST.Row(Standings(races), team)[i].value <= |Teams(races[..i + 1])|
  {
    var prefix := races[..i + 1];
    ArraysAt(races, i, team);
    TotalsKeys(prefix);
    RankRange(Totals(prefix), team);
    AddAllContents([], SeasonTeams(prefix));
    SeasonTeamsUpTo(races, i, team);
  }

  /** A team is listed by rounds 0 to `i` iff one of them lists it. */
  lemma SeasonTeamsUpTo(races: seq<Race>, i: nat, team: string)
    requires i < |races|
    ensures team in SeasonTeams(races[..i + 1]) <==> exists k :: 0 <= k <= i && team in RoundTeams(races[k])
  {
    var prefix := races[..i + 1];
    SeasonTeamsContents(prefix, team);
    if exists k :: 0 <= k <= i && team in RoundTeams(races[k]) {
      var k :| 0 <= k <= i && team in RoundTeams(races[k]);
      assert prefix[k] == races[k];
    }
    if exists k :: 0 <= k < |prefix| && team in RoundTeams(prefix[k]) {
      var k :| 0 <= k < |prefix| && team in RoundTeams(prefix[k]);
      assert prefix[k] == races[k];
    }
  }

  /** A team's cumulative array holds its running total: entry `i` is the
      sum of its race and sprint points in rounds 0 to `i`. */
  lemma CumulativeRows(races: seq<Race>, team: string)
    requires team in Teams(races)
    ensures ST.Row(CumulativeMap(races), team) == RunningSums(PointsSeries(races, team))
  {
    var xs := PointsSeries(races, team);
    var row := ST.Row(CumulativeMap(races), team);
    AddAllContents([], SeasonTeams(races));
    RunningSumsAreSums(xs);
    forall i | 0 <= i < |races| ensures row[i] == RunningSums(xs)[i] {
      CumulativeAt(races, i, team);
    }
  }

  lemma CumulativeAt(races: seq<Race>, i: nat, team: string)
    requires i < |races| && team in Teams(races)
    ensures |ST.Row(CumulativeMap(races), team)| == |races|
    ensures ST.Row(CumulativeMap(races), team)[i] == Sum(PointsSeries(races, team)[..i + 1])
  {
    ArraysAt(races, i, team);
    TotalsGet(races[..i + 1], team);
    PointsSeriesPrefix(races, i + 1, team);
  }

  /** The points of the first rounds are the first points of the season. */
  lemma PointsSeriesPrefix(races: seq<Race>, n: nat, team: string)
    requires n <= |races|
    ensures PointsSeries(races[..n], team) == PointsSeries(races, team)[..n]
  {
    var xs, ys := PointsSeries(races[..n], team), PointsSeries(races, team)[..n];
    forall k | 0 <= k < n ensures xs[k] == ys[k] {
      assert races[..n][k] == races[k];
    }
  }

  /** Within a round, rank follows the cumulative array: one team ranks
      above another iff its total is larger, or equal and it was listed
      first in the season (the order of the chart's lines). */
  lemma StandingsOrder(races: seq<Race>, i: nat, a: string, b: string)
    requires i < |races| && a != b
    requires a in Teams(races[..i + 1]) && b in Teams(races[..i + 1])
    ensures a in Teams(races) && b in Teams(races)
    ensures |ST.Row(Standings(races), a)| == |races| && |ST.Row(Standings(races), b)| == |races|
    ensures |ST.Row(CumulativeMap(races), a)| == |races| && |ST.Row(CumulativeMap(races), b)| == |races|
    ensures ST.Row(Standings(races), a)[i].Some? && ST.Row(Standings(races), b)[i].Some?
    ensures ST.Row(Standings(races), a)[i].value < ST.Row(Standings(races), b)[i].value <==>
      ST.Row(CumulativeMap(races), a)[i] > ST.Row(CumulativeMap(races), b)[i] ||
      (ST.Row(CumulativeMap(races), a)[i] == ST.Row(CumulativeMap(races), b)[i] &&
       IndexOf(Teams(races), a) < IndexOf(Teams(races), b))
  {
    var prefix := races[..i + 1];
    var totals := Totals(prefix);
    TeamsPrefix(races, i + 1);
    IndexOfInPrefix(Teams(prefix), Teams(races), a);
    IndexOfInPrefix(Teams(prefix), Teams(races), b);
    ArraysAt(races, i, a);
    ArraysAt(races, i, b);
    TotalsKeys(prefix);
    RankOrder(totals, a, b);
  }

  /** Every rank from 1 to the number of teams listed up to round `i`
      belongs in round `i` to exactly one team. */
  lemma StandingsHolder(races: seq<Race>, i: nat, rank: int)
    requires i < |races| && 1 <= rank <= |Teams(races[..i + 1])|
    ensures forall team :: team in Teams(races) ==> |ST.Row(Standings(races), team)| == |races|
    ensures exists team :: team in Teams(races) && ST.Row(Standings(races), team)[i] == Some(rank)
    ensures forall a, b ::
      (a in Teams(races) && b in Teams(races) &&
       ST.Row(Standings(races), a)[i] == Some(rank) && ST.Row(Standings(races), b)[i] == Some(rank)) ==> a == b
  {
    var prefix := races[..i + 1];
    var totals := Totals(prefix);
    AddAllContents([], SeasonTeams(races));
    TotalsKeys(prefix);
    TeamsPrefix(races, i + 1);
    RankHolder(totals, rank);
    var holder := Ranking(totals)[rank - 1];
    assert holder in Teams(races);
    assert ST.Row(Standings(races), holder)[i] == Some(rank);
  }

  /** With no negative points, a team's cumulative array never goes
      down. */
  lemma CumulativeNonDecreasing(races: seq<Race>, team: string)
    requires F1.NonNegativePoints(races) && team in Teams(races)
    ensures |ST.Row(CumulativeMap(races), team)| == |races|
    ensures forall i, j :: 0 <= i <= j < |races| ==>
      ST.Row(CumulativeMap(races), team)[i] <= ST.Row(CumulativeMap(races), team)[j]
  {
    var xs := PointsSeries(races, team);
    CumulativeRows(races, team);
    forall i | 0 <= i < |races| ensures xs[i] >= 0 {
      TeamPointsNonNegative(EntriesOf(races[i].raceResults), team);
      TeamPointsNonNegative(EntriesOf(races[i].sprintResults), team);
    }
    RunningSumsMonotone(xs);
  }

  lemma {:induction false} TeamPointsNonNegative(es: seq<Entry>, team: string)
    requires forall e :: e in es ==> e.points >= 0
    ensures TeamPoints(es, team) >= 0
  {
    if es != [] {
      TeamPointsNonNegative(es[..|es| - 1], team);
      assert es[|es| - 1] in es;
    }
  }
}
