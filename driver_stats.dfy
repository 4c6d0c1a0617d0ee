/** The first stage of `parseDriverStats`: one record per driver, filled
    round by round from the race results, then the qualifying results, then
    the sprint results; and `getPrimaryTeam`, the most frequent team of a
    driver. */
module DriverStats {
  import opened Maybe
  import opened Seqs
  import opened StableSort
  import opened Tallies
  import opened RaceData

  // ---------------------------------------------------------------------
  // Records

  /** A driver's record: points, the race and qualifying positions pushed
      (`null` kept), and the team of every entry. */
  datatype Record = Record(points: int, finishes: seq<Option<int>>, qualis: seq<Option<int>>, teams: seq<string>)

  /** `{ points: 0, finishes: [], qualis: [], teams: [], ... }`. */
  const Fresh: Record := Record(0, [], [], [])

  /** The three lists a round is read from. */
  datatype List = RaceList | QualifyingList | SprintList

  /** What one entry does to its driver's record: race entries add points,
      a finish and a team; qualifying entries a qualifying position and a
      team; sprint entries points and a team. */
  function Apply(r: Record, list: List, e: Entry): Record {
    match list
    case RaceList =>
      Record(r.points + e.points, r.finishes + [e.position], r.qualis, r.teams + [e.team])
    case QualifyingList =>
      Record(r.points, r.finishes, r.qualis + [e.position], r.teams + [e.team])
    case SprintList =>
      Record(r.points + e.points, r.finishes, r.qualis, r.teams + [e.team])
  }

  /** The `drivers` Map: names in first-appearance order, and records. */
  datatype Drivers = Drivers(names: seq<string>, records: map<string, Record>) {

    /** Names are listed once each, exactly the names have records, and
        every record has a team (the entry that created it pushed one). */
    predicate Valid() {
      && NoDup(names)
      && records.Keys == set n | n in names
      && forall n :: n in records ==> records[n].teams != []
    }

    /** `drivers.get(name)`, a fresh record for an unknown name. */
    function Get(name: string): Record {
      if name in records then records[name] else Fresh
    }

    /** `if (!drivers.has(driver)) drivers.set(driver, {...})`, then the
        entry's update of the record. */
    function Step(list: List, e: Entry): (r: Drivers)
      ensures r.names == AddAll(names, [e.driver])
      ensures Valid() ==> r.Valid()
    {
      assert [e.driver][..0] == [];
      Drivers(if e.driver in names then names else names + [e.driver],
        records[e.driver := Apply(Get(e.driver), list, e)])
    }
  }

  const NoDrivers: Drivers := Drivers([], map[])

  /** `list.forEach(entry => ...)`. */
  function AddList(ds: Drivers, list: List, es: seq<Entry>): Drivers {
    if es == [] then ds
    else AddList(ds, list, es[..|es| - 1]).Step(list, es[|es| - 1])
  }

  /** One round: race results, qualifying results, then sprint results
      when present. */
  function AddRound(ds: Drivers, race: Race): Drivers {
    var afterRace := AddList(ds, RaceList, EntriesOf(race.raceResults));
    var afterQuali := AddList(afterRace, QualifyingList, EntriesOf(race.qualifyingResults));
    AddList(afterQuali, SprintList, EntriesOf(race.sprintResults))
  }

  /** The `drivers` Map after the given rounds. */
  function Aggregate(races: seq<Race>): Drivers {
    if races == [] then NoDrivers
    else AddRound(Aggregate(races[..|races| - 1]), races[|races| - 1])
  }

  // ---------------------------------------------------------------------
  // One driver's record, read off the entries that name them

  function IsDriver(name: string): Entry -> bool {
    (e: Entry) => e.driver == name
  }

  /** The entries of a list that name the driver, in order. */
  function Named(es: seq<Entry>, name: string): seq<Entry> {
    Filter(es, IsDriver(name))
  }

  function PointsSum(es: seq<Entry>): int {
    if es == [] then 0 else PointsSum(es[..|es| - 1]) + es[|es| - 1].points
  }

  function Positions(es: seq<Entry>): (r: seq<Option<int>>)
    ensures |r| == |es| && forall k :: 0 <= k < |es| ==> r[k] == es[k].position
  {
    seq(|es|, k requires 0 <= k < |es| => es[k].position)
  }

  /** A driver's record after their entries of one list: the points of
      race and sprint entries, the positions of race (or qualifying)
      entries, and the teams of all. */
  function ApplyAll(r: Record, list: List, es: seq<Entry>): Record {
    Record(
      r.points + (if list == QualifyingList then 0 else PointsSum(es)),
      r.finishes + (if list == RaceList then Positions(es) else []),
      r.qualis + (if list == QualifyingList then Positions(es) else []),
      r.teams + TeamsOf(es))
  }

  lemma ApplyAllSnoc(r: Record, list: List, es: seq<Entry>, e: Entry)
    ensures ApplyAll(r, list, es + [e]) == Apply(ApplyAll(r, list, es), list, e)
  {
    assert (es + [e])[..|es|] == es;
    assert Positions(es + [e]) == Positions(es) + [e.position];
    assert TeamsOf(es + [e]) == TeamsOf(es) + [e.team];
  }

  /** Reading a list adds its drivers to the Map as a `Set` would, and
      changes a driver's record exactly as their own entries say. */
  lemma AddListSpec(ds: Drivers, list: List, es: seq<Entry>, name: string)
    ensures AddList(ds, list, es).names == AddAll(ds.names, DriversOf(es))
    ensures ds.Valid() ==> AddList(ds, list, es).Valid()
    ensures AddList(ds, list, es).Get(name) == ApplyAll(ds.Get(name), list, Named(es, name))
  {
    AddListNames(ds, list, es);
    AddListValid(ds, list, es);
    AddListRecord(ds, list, es, name);
  }

  lemma {:induction false} AddListNames(ds: Drivers, list: List, es: seq<Entry>)
    ensures AddList(ds, list, es).names == AddAll(ds.names, DriversOf(es))
  {
    if es != [] {
      var init, e := es[..|es| - 1], es[|es| - 1];
      AddListNames(ds, list, init);
      assert DriversOf(es) == DriversOf(init) + [e.driver];
      AddAllConcat(ds.names, DriversOf(init), [e.driver]);
    }
  }

  lemma {:induction false} AddListValid(ds: Drivers, list: List, es: seq<Entry>)
    ensures ds.Valid() ==> AddList(ds, list, es).Valid()
  {
    if es != [] {
      AddListValid(ds, list, es[..|es| - 1]);
    }
  }

  lemma {:induction false} AddListRecord(ds: Drivers, list: List, es: seq<Entry>, name: string)
    ensures AddList(ds, list, es).Get(name) == ApplyAll(ds.Get(name), list, Named(es, name))
  {
    if es == [] {
      assert ApplyAll(ds.Get(name), list, []) == ds.Get(name);
    } else {
      var init, e := es[..|es| - 1], es[|es| - 1];
      AddListRecord(ds, list, init, name);
      if e.driver == name {
        assert Named(es, name) == Named(init, name) + [e];
        ApplyAllSnoc(ds.Get(name), list, Named(init, name), e);
      } else {
        assert Named(es, name) == Named(init, name);
      }
    }
  }

  /** A driver's record after one more round. */
  function RoundRecord(r: Record, race: Race, name: string): Record {
    var afterRace := ApplyAll(r, RaceList, Named(EntriesOf(race.raceResults), name));
    var afterQuali := ApplyAll(afterRace, QualifyingList, Named(EntriesOf(race.qualifyingResults), name));
    ApplyAll(afterQuali, SprintList, Named(EntriesOf(race.sprintResults), name))
  }

  /** A driver's record over the given rounds, built from their own
      entries alone. */
  function SeasonRecord(races: seq<Race>, name: string): Record {
    if races == [] then Fresh
    else RoundRecord(SeasonRecord(races[..|races| - 1], name), races[|races| - 1], name)
  }

  /** The drivers a round lists, in the order the round adds them. */
  function RoundDrivers(race: Race): seq<string> {
    DriversOf(EntriesOf(race.raceResults)) + DriversOf(EntriesOf(race.qualifyingResults)) +
      DriversOf(EntriesOf(race.sprintResults))
  }

  function SeasonDrivers(races: seq<Race>): seq<string> {
    if races == [] then []
    else SeasonDrivers(races[..|races| - 1]) + RoundDrivers(races[|races| - 1])
  }

  lemma RoundSpec(ds: Drivers, race: Race, name: string)
    ensures AddRound(ds, race).names == AddAll(ds.names, RoundDrivers(race))
    ensures ds.Valid() ==> AddRound(ds, race).Valid()
    ensures AddRound(ds, race).Get(name) == RoundRecord(ds.Get(name), race, name)
  {
    var rr, qr, sr := EntriesOf(race.raceResults), EntriesOf(race.qualifyingResults), EntriesOf(race.sprintResults);
    var afterRace := AddList(ds, RaceList, rr);
    var afterQuali := AddList(afterRace, QualifyingList, qr);
    AddListSpec(ds, RaceList, rr, name);
    AddListSpec(afterRace, QualifyingList, qr, name);
    AddListSpec(afterQuali, SprintList, sr, name);
    AddAllConcat(ds.names, DriversOf(rr), DriversOf(qr));
    AddAllConcat(ds.names, DriversOf(rr) + DriversOf(qr), DriversOf(sr));
  }

  /** The Map lists every driver of the season once, in order of first
      appearance, and each driver's record is the one their own entries
      give. */
  lemma {:induction false} AggregateSpec(races: seq<Race>, name: string)
    ensures Aggregate(races).names == AddAll([], SeasonDrivers(races))
    ensures Aggregate(races).Valid()
    ensures Aggregate(races).Get(name) == SeasonRecord(races, name)
  {
    if races != [] {
      var init, last := races[..|races| - 1], races[|races| - 1];
      AggregateSpec(init, name);
      RoundSpec(Aggregate(init), last, name);
      AddAllConcat([], SeasonDrivers(init), RoundDrivers(last));
    }
  }

  // ---------------------------------------------------------------------
  // What a record holds

  /** A driver's race and sprint points in one round. */
  function RoundPoints(race: Race, name: string): int {
    PointsSum(Named(EntriesOf(race.raceResults), name)) + PointsSum(Named(EntriesOf(race.sprintResults), name))
  }

  function PointsPerRound(races: seq<Race>, name: string): (s: seq<int>)
    ensures |s| == |races| && forall i :: 0 <= i < |races| ==> s[i] == RoundPoints(races[i], name)
  {
    seq(|races|, i requires 0 <= i < |races| => RoundPoints(races[i], name))
  }

  /** `points` is the sum over the rounds of the driver's race and sprint
      points; qualifying entries add none. */
  lemma {:induction false} SeasonPoints(races: seq<Race>, name: string)
    ensures SeasonRecord(races, name).points == Sum(PointsPerRound(races, name))
  {
    if races != [] {
      var init := races[..|races| - 1];
      SeasonPoints(init, name);
      assert PointsPerRound(races, name)[..|init|] == PointsPerRound(init, name);
    }
  }

  /** No entry of the list names the driver iff none of its entries is
      theirs. */
  lemma NamedEmpty(es: seq<Entry>, name: string)
    ensures Named(es, name) == [] <==> name !in DriversOf(es)
  {
    if name in DriversOf(es) {
      var k :| 0 <= k < |es| && DriversOf(es)[k] == name;
      assert IsDriver(name)(es[k]);
    }
    if Named(es, name) != [] {
      var e := Named(es, name)[0];
      assert IsDriver(name)(e) && e in es;
      var k :| 0 <= k < |es| && es[k] == e;
      assert DriversOf(es)[k] == name;
    }
  }

  /** What one round adds to each field of a record. */
  lemma RoundRecordFields(r: Record, race: Race, name: string)
    ensures RoundRecord(r, race, name).points == r.points + RoundPoints(race, name)
    ensures RoundRecord(r, race, name).finishes == r.finishes + Positions(Named(EntriesOf(race.raceResults), name))
    ensures RoundRecord(r, race, name).qualis == r.qualis + Positions(Named(EntriesOf(race.qualifyingResults), name))
  {
  }

  /** Whether the round's race results list the driver. */
  predicate RacedIn(race: Race, name: string) {
    name in DriversOf(EntriesOf(race.raceResults))
  }

  /** Whether the round's qualifying results list the driver. */
  predicate QualifiedIn(race: Race, name: string) {
    name in DriversOf(EntriesOf(race.qualifyingResults))
  }

  /** `finishes` is empty iff no round's race results list the driver. */
  lemma {:induction false} SeasonFinishes(races: seq<Race>, name: string)
    ensures SeasonRecord(races, name).finishes == [] <==> forall i :: 0 <= i < |races| ==> !RacedIn(races[i], name)
  {
    if races != [] {
      var init, last := races[..|races| - 1], races[|races| - 1];
      var named := Named(EntriesOf(last.raceResults), name);
      SeasonFinishes(init, name);
      RoundRecordFields(SeasonRecord(init, name), last, name);
      NamedEmpty(EntriesOf(last.raceResults), name);
      assert SeasonRecord(races, name).finishes == SeasonRecord(init, name).finishes + Positions(named);
      assert Positions(named) == [] <==> !RacedIn(last, name);
      RacedInSnoc(races, init, name);
    }
  }

  lemma RacedInSnoc(races: seq<Race>, init: seq<Race>, name: string)
    requires races != [] && init == races[..|races| - 1]
    ensures (forall i :: 0 <= i < |races| ==> !RacedIn(races[i], name)) <==>
      (forall i :: 0 <= i < |init| ==> !RacedIn(init[i], name)) && !RacedIn(races[|races| - 1], name)
  {
  }

  /** `qualis` is empty iff no round's qualifying results list the driver. */
  lemma {:induction false} SeasonQualis(races: seq<Race>, name: string)
    ensures SeasonRecord(races, name).qualis == [] <==> forall i :: 0 <= i < |races| ==> !QualifiedIn(races[i], name)
  {
    if races != [] {
      var init, last := races[..|races| - 1], races[|races| - 1];
      var named := Named(EntriesOf(last.qualifyingResults), name);
      SeasonQualis(init, name);
      RoundRecordFields(SeasonRecord(init, name), last, name);
      NamedEmpty(EntriesOf(last.qualifyingResults), name);
      assert SeasonRecord(races, name).qualis == SeasonRecord(init, name).qualis + Positions(named);
      assert Positions(named) == [] <==> !QualifiedIn(last, name);
      QualifiedInSnoc(races, init, name);
    }
  }

  lemma QualifiedInSnoc(races: seq<Race>, init: seq<Race>, name: string)
    requires races != [] && init == races[..|races| - 1]
    ensures (forall i :: 0 <= i < |races| ==> !QualifiedIn(races[i], name)) <==>
      (forall i :: 0 <= i < |init| ==> !QualifiedIn(init[i], name)) && !QualifiedIn(races[|races| - 1], name)
  {
  }

  // ---------------------------------------------------------------------
  // Primary team

  /** `freq` after `for (const t of teams) freq[t] = (freq[t] || 0) + 1`. */
  function Frequencies(teams: seq<string>): Tally {
    if teams == [] then NoPoints
    else Frequencies(teams[..|teams| - 1]).Add(teams[|teams| - 1], 1)
  }

  /** `freq` lists each team once, in first-appearance order, with the
      number of times it occurs. */
  lemma {:induction false} FrequenciesSpec(teams: seq<string>)
    ensures Frequencies(teams).Valid() && Frequencies(teams).keys == AddAll([], teams)
    ensures forall t :: Frequencies(teams).Get(t) == Count(teams, t)
  {
    if teams != [] {
      var init := teams[..|teams| - 1];
      FrequenciesSpec(init);
      assert teams == init + [teams[|teams| - 1]];
      AddAllConcat([], init, [teams[|teams| - 1]]);
    }
  }

  /** `(a, b) => b[1] - a[1]` on `[team, count]` pairs. */
  function ByCount(freq: Tally): (string, string) -> bool {
    ByKeyDesc((t: string) => freq.Get(t) as real)
  }

  /** `Object.entries(freq).sort(...)[0][0]`. */
  function PrimaryTeam(teams: seq<string>): string
    requires teams != []
  {
    FrequenciesSpec(teams);
    AddAllContents([], teams);
    assert teams[0] in Frequencies(teams).keys;
    Sort(Frequencies(teams).keys, ByCount(Frequencies(teams)))[0]
  }

  /** The primary team is a team of the list that occurs most often, and
      the first to appear among those that do. */
  lemma PrimaryTeamSpec(teams: seq<string>)
    requires teams != []
    ensures PrimaryTeam(teams) in teams
    ensures forall t :: t in teams ==> Count(teams, t) <= Count(teams, PrimaryTeam(teams))
    ensures forall t :: t in teams && Count(teams, t) == Count(teams, PrimaryTeam(teams)) ==>
      IndexOf(teams, PrimaryTeam(teams)) <= IndexOf(teams, t)
  {
    var freq := Frequencies(teams);
    var sorted := Sort(freq.keys, ByCount(freq));
    var r := PrimaryTeam(teams);
    FrequenciesSpec(teams);
    AddAllContents([], teams);
    DistinctIsAddAll(teams);
    SortPermutes(freq.keys, ByCount(freq));
    KeyOrders((t: string) => freq.Get(t) as real);
    assert r == sorted[0] && r in multiset(sorted);
    assert r in freq.keys;
    forall t | t in teams && t != r
      ensures Count(teams, t) <= Count(teams, r)
      ensures Count(teams, t) == Count(teams, r) ==> IndexOf(teams, r) < IndexOf(teams, t)
    {
      assert t in freq.keys;
      SortedOrder(freq.keys, ByCount(freq), r, t);
      assert IndexOf(sorted, r) == 0;
      var i, j := IndexOf(freq.keys, r), IndexOf(freq.keys, t);
      if !ByCount(freq)(r, t) {
        DistinctOrder(teams, i, j);
      }
    }
  }

  /** `getPrimaryTeam`: count, sort, take the first. */
  method GetPrimaryTeam(teams: seq<string>) returns (team: string)
    requires teams != []
    ensures team == PrimaryTeam(teams)
  {
    var freq := NoPoints;
    for j := 0 to |teams|
      invariant freq == Frequencies(teams[..j])
    {
      assert teams[..j + 1][..j] == teams[..j];
      freq := freq.Add(teams[j], 1);
    }
    assert teams[..|teams|] == teams;
    FrequenciesSpec(teams);
    AddAllContents([], teams);
    assert teams[0] in freq.keys;
    var sorted := Sort(freq.keys, ByCount(freq));
    team := sorted[0];
  }

  // ---------------------------------------------------------------------
  // The aggregation loops

  /** The first loop of `parseDriverStats` over the rounds. */
  method AggregateRounds(races: seq<Race>) returns (ds: Drivers)
    requires forall i :: 0 <= i < |races| ==> races[i].raceResults.Some? && races[i].qualifyingResults.Some?
    ensures ds == Aggregate(races) && ds.Valid()
  {
    ds := NoDrivers;
    for i := 0 to |races|
      invariant ds == Aggregate(races[..i]) && ds.Valid()
    {
      assert races[..i + 1][..i] == races[..i];
      RoundSpec(ds, races[i], "");
      ds := ReadList(ds, RaceList, races[i].raceResults.value);
      ds := ReadList(ds, QualifyingList, races[i].qualifyingResults.value);
      if races[i].sprintResults.Some? {
        ds := ReadList(ds, SprintList, races[i].sprintResults.value);
      }
    }
    assert races[..|races|] == races;
  }

  /** One list of a round, entry by entry. */
  method ReadList(ds: Drivers, list: List, es: seq<Entry>) returns (r: Drivers)
    requires ds.Valid()
    ensures r == AddList(ds, list, es) && r.Valid()
  {
    r := ds;
    for j := 0 to |es|
      invariant r == AddList(ds, list, es[..j]) && r.Valid()
    {
      assert es[..j + 1][..j] == es[..j];
      r := ReadEntry(r, list, es[j]);
    }
    assert es[..|es|] == es;
    AddListSpec(ds, list, es, "");
  }

  /** Create the driver's record if needed, then add the entry to it. */
  method ReadEntry(ds: Drivers, list: List, e: Entry) returns (r: Drivers)
    requires ds.Valid()
    ensures r == ds.Step(list, e)
  {
    var names, records := ds.names, ds.records;
    if e.driver !in records {
      names, records := names + [e.driver], records[e.driver := Fresh];
    }
    assert records[e.driver] == ds.Get(e.driver);
    var d := UpdateRecord(records[e.driver], list, e);
    r := Drivers(names, records[e.driver := d]);
  }

  /** The entry's update of a record: points for race and sprint entries,
      a finish for race entries, a qualifying place for qualifying entries,
      the team for all. */
  method UpdateRecord(d0: Record, list: List, e: Entry) returns (d: Record)
    ensures d == Apply(d0, list, e)
  {
    d := d0;
    match list {
      case RaceList =>
        d := d.(points := d.points + e.points, finishes := d.finishes + [e.position], teams := d.teams + [e.team]);
      case QualifyingList =>
        d := d.(qualis := d.qualis + [e.position], teams := d.teams + [e.team]);
      case SprintList =>
        d := d.(points := d.points + e.points, teams := d.teams + [e.team]);
    }
  }
}
