/** src/components/F1DataComponents.jsx: the chart series behind the
    championship, race-results and constructor pages, and the driver
    selection handler. Each hook body is modelled as a method over the
    normalised races (the `useProcessedRaceData` step included), proved
    equal to a specification function that the lemmas then describe. */
module F1DataComponents {
  import opened Maybe
  import opened Seqs
  import opened StableSort
  import opened Text
  import opened RaceData
  import opened DataProcessing
  import opened SeriesTable

  // ---------------------------------------------------------------------
  // Labels and chart records

  /** `race.circuit?.split(" ")[0] ?? "R" + round`: an empty first token
      is kept, since `??` only replaces a missing circuit. */
  function ChampionshipLabel(race: Race): (r: string)
    ensures race.circuit.Some? ==> r <= race.circuit.value && ' ' !in r
    ensures race.circuit.None? ==> r == RoundTag(race.round)
  {
    match race.circuit
    case Some(c) => FirstToken(c)
    case None => RoundTag(race.round)
  }

  /** `race.circuit?.split(" ")[0] || "R" + round`: an empty first token
      also falls back to the round tag. */
  function ConstructorLabel(race: Race): (r: string)
    ensures r != []
  {
    if race.circuit.Some? && FirstToken(race.circuit.value) != [] then FirstToken(race.circuit.value)
    else RoundTag(race.round)
  }

  /** The two label rules agree except on a circuit name that starts with
      a space (or is empty), where only the constructor chart uses the
      round tag. */
  lemma LabelsAgree(race: Race)
    ensures ChampionshipLabel(race) == ConstructorLabel(race) <==>
      race.circuit.None? || FirstToken(race.circuit.value) != []
  {
  }

  /** The x-axis label of the race-results chart: `R<round>`. */
  function RaceTag(race: Race): string {
    RoundTag(race.round)
  }

  /** `races.map(labelOf)`. */
  function Labels(races: seq<Race>, labelOf: Race -> string): (r: seq<string>)
    ensures |r| == |races| && forall i :: 0 <= i < |races| ==> r[i] == labelOf(races[i])
  {
    seq(|races|, k requires 0 <= k < |races| => labelOf(races[k]))
  }

  /** Labelling one more round appends its labelOf. */
  lemma LabelsStep(races: seq<Race>, i: nat, labelOf: Race -> string)
    requires i < |races|
    ensures Labels(races[..i + 1], labelOf) == Labels(races[..i], labelOf) + [labelOf(races[i])]
  {
  }

  datatype Dataset<V> = Dataset(name: string, data: seq<V>, color: string)

  datatype Chart<V> = Chart(labels: seq<string>, datasets: seq<Dataset<V>>)

  const Unselected: string := "rgba(200,200,200,0.3)"

  /** The team of a driver's first listed race result, found race by race
      (`races.find(r => r.race_results.some(...))?.race_results.find(...)?.team`). */
  function FirstTeam(races: seq<Race>, driver: string): (r: Option<string>)
    requires AllHaveRaceResults(races)
    ensures r.None? <==> forall i :: 0 <= i < |races| ==> FindDriver(races[i].raceResults.value, driver).None?
  {
    if races == [] then None
    else match FindDriver(races[0].raceResults.value, driver)
      case Some(e) => Some(e.team)
      case None =>
        assert forall i :: 1 <= i < |races| ==> races[i] == races[1..][i - 1];
        FirstTeam(races[1..], driver)
  }

  /** `getTeamColor(team)` where a missing team is `undefined`, which no
      table key matches. */
  function TeamColorOf(team: Option<string>): string {
    match team
    case Some(t) => TeamColor(t)
    case None => FallbackColor
  }

  /** A series is drawn in its team's colour when no driver is selected or
      it is one of the selected ones, and greyed out otherwise. */
  function SeriesColor(races: seq<Race>, driver: string, selected: seq<string>): (c: string)
    requires AllHaveRaceResults(races)
    ensures selected != [] && driver !in selected ==> c == Unselected
    ensures selected == [] || driver in selected ==> c == TeamColorOf(FirstTeam(races, driver))
  {
    if |selected| == 0 || driver in selected then TeamColorOf(FirstTeam(races, driver)) else Unselected
  }

  /** `Array.from(map.entries()).map(...)`: one dataset per key, in key
      order. */
  function Datasets<V>(t: Table<V>, races: seq<Race>, selected: seq<string>): (r: seq<Dataset<V>>)
    requires AllHaveRaceResults(races)
    ensures |r| == |t.keys|
    ensures forall j :: 0 <= j < |r| ==> r[j].name == t.keys[j] && r[j].data == Row(t, t.keys[j])
  {
    seq(|t.keys|, j requires 0 <= j < |t.keys| =>
      Dataset(t.keys[j], Row(t, t.keys[j]), SeriesColor(races, t.keys[j], selected)))
  }

  lemma NormalizedKeepsRaceResults(races: seq<Race>)
    requires AllHaveRaceResults(races)
    ensures AllHaveRaceResults(Normalized(races, DriverChanges))
  {
    NormalizedShape(races, DriverChanges);
  }

  // ---------------------------------------------------------------------
  // Race results: per-round finishing positions (useRaceResultsData)

  /** The entries a round pushes: its race results. */
  function RaceEntries(): Race -> seq<Entry> {
    (race: Race) => EntriesOf(race.raceResults)
  }

  lemma UniqueRounds(races: seq<Race>)
    requires UniqueDrivers(races)
    ensures DistinctRounds(races, RaceEntries())
  {
  }

  function PositionOf(): (seq<Option<int>>, Entry) -> Option<int> {
    (row: seq<Option<int>>, e: Entry) => e.position
  }

  /** Every round pushes the entry's `position`. */
  function Positions(): (Race, nat) -> ((seq<Option<int>>, Entry) -> Option<int>) {
    (race: Race, i: nat) => PositionOf()
  }

  function NoPosition(): seq<Option<int>> -> Option<int> {
    (row: seq<Option<int>>) => None
  }

  /** The `standings` map after the given rounds, as the code builds it:
      each listed driver's position is pushed, then every array shorter
      than the number of rounds gets one `null`. */
  function PositionTable(races: seq<Race>): Table<Option<int>> {
    Build(races, RaceEntries(), Positions(), NoPosition())
  }

  /** Round i of the loop: push the round's positions onto the map so
      far, then pad to i + 1. */
  lemma PositionTableStep(races: seq<Race>, i: nat)
    requires AllHaveRaceResults(races) && i < |races|
    ensures Valid(PositionTable(races[..i]))
    ensures Valid(PushAll(PositionTable(races[..i]), races[i].raceResults.value, PositionOf()))
    ensures PositionTable(races[..i + 1]) ==
      PadRows(PushAll(PositionTable(races[..i]), races[i].raceResults.value, PositionOf()), i + 1, NoPosition())
  {
    BuildStep(races, RaceEntries(), Positions(), NoPosition(), i + 1);
    assert races[..i + 1 - 1] == races[..i];
    PushAllValid(PositionTable(races[..i]), races[i].raceResults.value, PositionOf());
  }

  /** The position of a driver in a round, `null` when the driver is not
      listed. */
  function PositionIn(race: Race, driver: string): Option<int> {
    match FindDriver(EntriesOf(race.raceResults), driver)
    case None => None
    case Some(e) => e.position
  }

  /** No array is ever longer than the number of rounds. */
  lemma PositionRowsBounded(races: seq<Race>)
    requires UniqueDrivers(races)
    ensures forall d :: |Row(PositionTable(races), d)| <= |races|
  {
    UniqueRounds(races);
    BuildBounded(races, RaceEntries(), Positions(), NoPosition());
  }

  /** The series from round k on: one position (or `null`) per round. */
  lemma {:induction false} PositionSeries(races: seq<Race>, d: string, k: nat)
    requires k <= |races|
    ensures Series(races, RaceEntries(), Positions(), NoPosition(), d, k) ==
      seq(|races| - k, j requires 0 <= j < |races| - k => PositionIn(races[k + j], d))
    decreases |races|
  {
    var n := |races|;
    if n > k {
      var init := races[..n - 1];
      PositionSeries(init, d, k);
      var prior := Series(init, RaceEntries(), Positions(), NoPosition(), d, k);
      assert Next(prior, EntriesOf(races[n - 1].raceResults), PositionOf(), NoPosition(), d) == PositionIn(races[n - 1], d);
      var expected := seq(n - k, j requires 0 <= j < n - k => PositionIn(races[k + j], d));
      assert expected[..n - k - 1] == prior by {
        assert forall i :: 0 <= i < |init| ==> init[i] == races[i];
      }
      assert expected == expected[..n - k - 1] + [expected[n - k - 1]];
    }
  }

  /** A driver listed in the first round has one entry per round: the
      position when listed, `null` when not. */
  lemma PositionsFromRoundZero(races: seq<Race>, d: string)
    requires UniqueDrivers(races)
    requires races != [] && FindDriver(EntriesOf(races[0].raceResults), d).Some?
    ensures Row(PositionTable(races), d) == seq(|races|, i requires 0 <= i < |races| => PositionIn(races[i], d))
  {
    UniqueRounds(races);
    ListedIffFound(EntriesOf(races[0].raceResults), d);
    BuildFromFirstRound(races, RaceEntries(), Positions(), NoPosition(), d);
    PositionSeries(races, d, 0);
  }

  /** `useRaceResultsData`: `null` for a missing or empty season. */
  method UseRaceResultsData(rawRaces: Option<seq<Race>>, selected: seq<string>)
    returns (r: Option<Chart<Option<int>>>)
    requires rawRaces.Some? ==> AllHaveRaceResults(rawRaces.value)
    ensures r.None? <==> rawRaces.None? || rawRaces.value == []
    ensures r.Some? ==> AllHaveRaceResults(Normalized(rawRaces.value, DriverChanges))
    ensures r.Some? ==> r.value == RaceResultsChart(Normalized(rawRaces.value, DriverChanges), selected)
  {
    var races := UseProcessedRaceData(rawRaces);
    if |races| == 0 {
      if rawRaces.Some? {
        NormalizedShape(rawRaces.value, DriverChanges);
      }
      return None;
    }
    NormalizedKeepsRaceResults(rawRaces.value);
    var chart := BuildRaceResults(races, selected);
    r := Some(chart);
  }

  /** The memoised body: round tags, and the `standings` map grown round
      by round. */
  method BuildRaceResults(races: seq<Race>, selected: seq<string>) returns (c: Chart<Option<int>>)
    requires AllHaveRaceResults(races)
    ensures c == RaceResultsChart(races, selected)
  {
    var standings: Table<Option<int>> := EmptyTable();
    var labels: seq<string> := [];
    for i := 0 to |races|
      invariant standings == PositionTable(races[..i])
      invariant labels == Labels(races[..i], RaceTag)
    {
      PositionTableStep(races, i);
      LabelsStep(races, i, RaceTag);
      labels := labels + [RoundTag(races[i].round)];
      standings := PushEach(standings, races[i].raceResults.value, PositionOf());
      standings := PadShort(standings, i + 1, NoPosition());
    }
    assert races[..|races|] == races;
    c := Chart(labels, Datasets(standings, races, selected));
  }

  function RaceResultsChart(races: seq<Race>, selected: seq<string>): (c: Chart<Option<int>>)
    requires AllHaveRaceResults(races)
    ensures |c.labels| == |races|
    ensures forall i :: 0 <= i < |races| ==> c.labels[i] == RoundTag(races[i].round)
  {
    Chart(Labels(races, RaceTag),
      Datasets(PositionTable(races), races, selected))
  }

  const RoundOne: Race := Race(1, None, Some([Entry("A", "X", Some(1), 25, None)]), None, None)
  const RoundTwo: Race :=
    Race(2, None, Some([Entry("A", "X", Some(1), 25, None), Entry("B", "Y", Some(2), 18, None)]), None, None)

  /** In the two-round season above, B is listed only in the second
      round, once, after A. */
  lemma TwoRoundSeason()
    ensures UniqueDrivers([RoundOne, RoundTwo])
    ensures FirstListed([RoundOne, RoundTwo], RaceEntries(), "B") == 1
    ensures [RoundOne, RoundTwo][..2] == [RoundOne, RoundTwo]
    ensures FindDriver(RoundTwo.raceResults.value, "B") == Some(Entry("B", "Y", Some(2), 18, None))
  {
    assert [RoundOne, RoundTwo][..1] == [RoundOne];
    assert [RoundOne][..0] == [];
    assert DriversOf(RoundOne.raceResults.value) == ["A"];
    assert DriversOf(RoundTwo.raceResults.value) == ["A", "B"];
    var es := RoundTwo.raceResults.value;
    assert FindDriver(es[1..], "B") == Some(es[1]);
  }

  /** As written, a driver first listed in a later round gets a `null`
      pushed in that same round, right after the position: B, listed
      only in round 2, has [2, null] for two rounds. */
  lemma LateJoinerPositions()
    ensures Row(PositionTable([RoundOne, RoundTwo]), "B") == [Some(2), None]
  {
    TwoRoundSeason();
    UniqueRounds([RoundOne, RoundTwo]);
    LateJoiner([RoundOne, RoundTwo], RaceEntries(), Positions(), NoPosition(), "B");
  }

  /** The table the hook evidently intends: a driver first listed in
      round k starts with k `null`s, so that entry i of every array
      belongs to round label i. */
  function IntendedPositionTable(races: seq<Race>): Table<Option<int>> {
    IntendedBuild(races, RaceEntries(), Positions(), NoPosition())
  }

  /** Corrected: a listed driver's array has one entry per round from
      round 0, entry i being the position in round i or `null`; a driver
      no round lists has no array. */
  lemma IntendedPositions(races: seq<Race>, d: string)
    requires UniqueDrivers(races)
    ensures Row(IntendedPositionTable(races), d) ==
      if FirstListed(races, RaceEntries(), d) < |races|
      then seq(|races|, i requires 0 <= i < |races| => PositionIn(races[i], d))
      else []
  {
    UniqueRounds(races);
    IntendedSeries(races, RaceEntries(), Positions(), NoPosition(), d);
    PositionSeries(races, d, 0);
  }

  /** On the same season, the corrected table gives B `null` for round 1
      and its position for round 2. */
  lemma IntendedLateJoinerPositions()
    ensures Row(IntendedPositionTable([RoundOne, RoundTwo]), "B") == [None, Some(2)]
  {
    TwoRoundSeason();
    IntendedPositions([RoundOne, RoundTwo], "B");
    assert PositionIn(RoundOne, "B") == None;
  }

  /** `arr[j] || 0`: 0 past either end. */
  function ValueAt(row: seq<int>, j: int): int {
    if 0 <= j < |row| then row[j] else 0
  }

  /** `arr[arr.length - 1] || 0`. */
  function LastOrZero(row: seq<int>): int {
    if row == [] then 0 else row[|row| - 1]
  }

  /** `sprintMap.get(driver) || 0`, the map keeping a driver's last sprint
      entry. */
  function SprintPoints(race: Race, driver: string): int {
    match FindLastDriver(EntriesOf(race.sprintResults), driver)
    case None => 0
    case Some(e) => e.points
  }

  /** The value pushed in round i: `(arr[i - 1] || 0) + points + sprint`. */
  function PointsOf(race: Race, i: nat): (seq<int>, Entry) -> int {
    (row: seq<int>, e: Entry) => ValueAt(row, i - 1) + e.points + SprintPoints(race, e.driver)
  }

  /** The per-round value function of the points builder. */
  function Points(): (Race, nat) -> ((seq<int>, Entry) -> int) {
    (race: Race, i: nat) => PointsOf(race, i)
  }

  function CarryLast(): seq<int> -> int {
    (row: seq<int>) => LastOrZero(row)
  }

  /** The `pointsMap` after the given rounds, as the code builds it. */
  function PointsTable(races: seq<Race>): Table<int> {
    Build(races, RaceEntries(), Points(), CarryLast())
  }

  /** Round i of the loop: push `prev + total` for the round's entries,
      then pad to i + 1 by repeating the last value. */
  lemma PointsTableStep(races: seq<Race>, i: nat)
    requires AllHaveRaceResults(races) && i < |races|
    ensures Valid(PointsTable(races[..i]))
    ensures Valid(PushAll(PointsTable(races[..i]), races[i].raceResults.value, PointsOf(races[i], i)))
    ensures PointsTable(races[..i + 1]) ==
      PadRows(PushAll(PointsTable(races[..i]), races[i].raceResults.value, PointsOf(races[i], i)), i + 1, CarryLast())
  {
    BuildStep(races, RaceEntries(), Points(), CarryLast(), i + 1);
    assert races[..i + 1 - 1] == races[..i];
    PushAllValid(PointsTable(races[..i]), races[i].raceResults.value, PointsOf(races[i], i));
  }

  /** What a round adds to a driver's total: race points plus sprint
      points when listed in the race results, nothing otherwise (sprint
      points alone do not count). */
  function RoundTotal(race: Race, d: string): int {
    match FindDriver(EntriesOf(race.raceResults), d)
    case None => 0
    case Some(e) => e.points + SprintPoints(race, d)
  }

  /** What each round adds to a driver's total. */
  function RoundTotals(races: seq<Race>, d: string): (r: seq<int>)
    ensures |r| == |races| && forall i :: 0 <= i < |races| ==> r[i] == RoundTotal(races[i], d)
  {
    seq(|races|, i requires 0 <= i < |races| => RoundTotal(races[i], d))
  }

  /** The running total of a driver, one value per round. */
  function Cumulative(races: seq<Race>, d: string): (r: seq<int>)
    ensures |r| == |races|
  {
    RunningSums(RoundTotals(races, d))
  }

  lemma CumulativeUnfold(races: seq<Race>, d: string)
    requires races != []
    ensures Cumulative(races, d) == Cumulative(races[..|races| - 1], d) +
      [LastOrZero(Cumulative(races[..|races| - 1], d)) + RoundTotal(races[|races| - 1], d)]
  {
    var xs := RoundTotals(races, d);
    assert xs[..|xs| - 1] == RoundTotals(races[..|races| - 1], d);
  }

  /** Entry i is entry i - 1 plus the round's race and sprint points
      (the entry before round 0 being 0). */
  lemma CumulativeStep(races: seq<Race>, d: string)
    ensures races != [] ==> Cumulative(races, d)[0] == RoundTotal(races[0], d)
    ensures forall i :: 0 < i < |races| ==>
      Cumulative(races, d)[i] == Cumulative(races, d)[i - 1] + RoundTotal(races[i], d)
  {
    RunningSumsStep(RoundTotals(races, d));
  }

  predicate NonNegativePoints(races: seq<Race>) {
    forall i :: 0 <= i < |races| ==>
      (forall e :: e in EntriesOf(races[i].raceResults) ==> e.points >= 0) &&
      (forall e :: e in EntriesOf(races[i].sprintResults) ==> e.points >= 0)
  }

  /** With non-negative points, a running total never goes down. */
  lemma CumulativeNonDecreasing(races: seq<Race>, d: string)
    requires NonNegativePoints(races)
    ensures forall i, j :: 0 <= i <= j < |races| ==> Cumulative(races, d)[i] <= Cumulative(races, d)[j]
  {
    var xs := RoundTotals(races, d);
    forall i | 0 <= i < |races| ensures xs[i] >= 0 {
      var es := EntriesOf(races[i].raceResults);
      if FindDriver(es, d).Some? {
        var ss := EntriesOf(races[i].sprintResults);
        if FindLastDriver(ss, d).Some? {
          assert FindLastDriver(ss, d).value in ss;
        }
      }
    }
    RunningSumsMonotone(xs);
  }

  /** The value a round adds to a series as long as the rounds before:
      the previous total plus the round's race and sprint points. */
  lemma PointsNext(prior: seq<int>, race: Race, n: nat, d: string)
    requires |prior| == n - 1 && n >= 1
    ensures Next(prior, EntriesOf(race.raceResults), PointsOf(race, n - 1), CarryLast(), d) ==
      LastOrZero(prior) + RoundTotal(race, d)
  {
    match FindDriver(EntriesOf(race.raceResults), d) {
      case Some(e) =>
        assert ValueAt(prior, n - 2) == LastOrZero(prior);
      case None =>
    }
  }

  lemma PointsSeriesUnfold(races: seq<Race>, d: string)
    requires races != []
    ensures var prior := Series(races[..|races| - 1], RaceEntries(), Points(), CarryLast(), d, 0);
      Series(races, RaceEntries(), Points(), CarryLast(), d, 0) ==
        prior + [LastOrZero(prior) + RoundTotal(races[|races| - 1], d)]
  {
    var last := races[|races| - 1];
    var prior := Series(races[..|races| - 1], RaceEntries(), Points(), CarryLast(), d, 0);
    PointsNext(prior, last, |races|, d);
    assert Points()(last, |races| - 1) == PointsOf(last, |races| - 1);
  }

  /** Equal prefixes give equal running totals one round on. */
  lemma TotalsCongruent(a: seq<int>, b: seq<int>, r: int)
    requires a == b
    ensures a + [LastOrZero(a) + r] == b + [LastOrZero(b) + r]
  {
  }

  /** The per-round series of a driver is the running total of their
      race and sprint points. */
  lemma {:induction false} PointsSeries(races: seq<Race>, d: string)
    ensures Series(races, RaceEntries(), Points(), CarryLast(), d, 0) == Cumulative(races, d)
  {
    if races != [] {
      var init, last := races[..|races| - 1], races[|races| - 1];
      var prior := Series(init, RaceEntries(), Points(), CarryLast(), d, 0);
      calc {
        Series(races, RaceEntries(), Points(), CarryLast(), d, 0);
        { PointsSeriesUnfold(races, d); }
        prior + [LastOrZero(prior) + RoundTotal(last, d)];
        { PointsSeries(init, d); TotalsCongruent(prior, Cumulative(init, d), RoundTotal(last, d)); }
        Cumulative(init, d) + [LastOrZero(Cumulative(init, d)) + RoundTotal(last, d)];
        { CumulativeUnfold(races, d); }
        Cumulative(races, d);
      }
    }
  }

  /** A driver listed in the first round has exactly one value per round,
      the running total of their race and sprint points. */
  lemma PointsFromRoundZero(races: seq<Race>, d: string)
    requires UniqueDrivers(races)
    requires races != [] && FindDriver(EntriesOf(races[0].raceResults), d).Some?
    ensures Row(PointsTable(races), d) == Cumulative(races, d)
  {
    UniqueRounds(races);
    ListedIffFound(EntriesOf(races[0].raceResults), d);
    BuildFromFirstRound(races, RaceEntries(), Points(), CarryLast(), d);
    PointsSeries(races, d);
  }

  /** No points array is ever longer than the number of rounds. */
  lemma PointsRowsBounded(races: seq<Race>)
    requires UniqueDrivers(races)
    ensures forall d :: |Row(PointsTable(races), d)| <= |races|
  {
    UniqueRounds(races);
    BuildBounded(races, RaceEntries(), Points(), CarryLast());
  }

  /** Only drivers of race results get a series: sprint entries alone
      never create one. */
  lemma PointsKeys(races: seq<Race>, d: string)
    ensures d in PointsTable(races).rows <==>
      exists i :: 0 <= i < |races| && d in DriversOf(EntriesOf(races[i].raceResults))
  {
    BuildKeys(races, RaceEntries(), Points(), CarryLast(), d);
  }

  /** As written, a driver first listed in round 2 starts with that
      round's points twice: [18, 18] for two rounds. */
  lemma LateJoinerPoints()
    ensures Row(PointsTable([RoundOne, RoundTwo]), "B") == [18, 18]
  {
    TwoRoundSeason();
    UniqueRounds([RoundOne, RoundTwo]);
    assert SprintPoints(RoundTwo, "B") == 0;
    LateJoiner([RoundOne, RoundTwo], RaceEntries(), Points(), CarryLast(), "B");
  }

  /** The table the hook evidently intends: a driver first listed in
      round k starts with k zeros, so that `arr[i - 1]` is the total after
      the previous round. */
  function IntendedPointsTable(races: seq<Race>): Table<int> {
    IntendedBuild(races, RaceEntries(), Points(), CarryLast())
  }

  /** Corrected: a listed driver's array has one value per round from
      round 0, value i being the running total of their race and sprint
      points after round i; a driver no round lists has no array. */
  lemma IntendedPoints(races: seq<Race>, d: string)
    requires UniqueDrivers(races)
    ensures Row(IntendedPointsTable(races), d) ==
      if FirstListed(races, RaceEntries(), d) < |races| then Cumulative(races, d) else []
  {
    UniqueRounds(races);
    IntendedSeries(races, RaceEntries(), Points(), CarryLast(), d);
    PointsSeries(races, d);
  }

  /** On the same season, the corrected table gives B 0 after round 1 and
      18 after round 2. */
  lemma IntendedLateJoinerPoints()
    ensures Row(IntendedPointsTable([RoundOne, RoundTwo]), "B") == [0, 18]
  {
    TwoRoundSeason();
    IntendedPoints([RoundOne, RoundTwo], "B");
    CumulativeStep([RoundOne, RoundTwo], "B");
    assert RoundTotal(RoundOne, "B") == 0;
    assert SprintPoints(RoundTwo, "B") == 0;
  }

  /** `useChampionshipData`: `null` for a missing or empty season. */
  method UseChampionshipData(rawRaces: Option<seq<Race>>, selected: seq<string>)
    returns (r: Option<Chart<int>>)
    requires rawRaces.Some? ==> AllHaveRaceResults(rawRaces.value)
    ensures r.None? <==> rawRaces.None? || rawRaces.value == []
    ensures r.Some? ==> AllHaveRaceResults(Normalized(rawRaces.value, DriverChanges))
    ensures r.Some? ==> r.value == ChampionshipChart(Normalized(rawRaces.value, DriverChanges), selected)
  {
    var races := UseProcessedRaceData(rawRaces);
    if |races| == 0 {
      if rawRaces.Some? {
        NormalizedShape(rawRaces.value, DriverChanges);
      }
      return None;
    }
    NormalizedKeepsRaceResults(rawRaces.value);
    var chart := BuildChampionship(races, selected);
    r := Some(chart);
  }

  /** The memoised body: labels, the per-round sprint lookup, the push of
      `prev + total`, and the padding pass. */
  method BuildChampionship(races: seq<Race>, selected: seq<string>) returns (c: Chart<int>)
    requires AllHaveRaceResults(races)
    ensures c == ChampionshipChart(races, selected)
  {
    var pointsMap: Table<int> := EmptyTable();
    var labels: seq<string> := [];
    for i := 0 to |races|
      invariant pointsMap == PointsTable(races[..i])
      invariant labels == Labels(races[..i], ChampionshipLabel)
    {
      PointsTableStep(races, i);
      LabelsStep(races, i, ChampionshipLabel);
      labels := labels + [ChampionshipLabel(races[i])];
      pointsMap := PushEach(pointsMap, races[i].raceResults.value, PointsOf(races[i], i));
      pointsMap := PadShort(pointsMap, i + 1, CarryLast());
    }
    assert races[..|races|] == races;
    c := Chart(labels, Datasets(pointsMap, races, selected));
  }

  function ChampionshipChart(races: seq<Race>, selected: seq<string>): (c: Chart<int>)
    requires AllHaveRaceResults(races)
    ensures |c.labels| == |races|
    ensures forall i :: 0 <= i < |races| ==> c.labels[i] == ChampionshipLabel(races[i])
  {
    Chart(Labels(races, ChampionshipLabel),
      Datasets(PointsTable(races), races, selected))
  }
}
