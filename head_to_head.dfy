/** The head-to-head stage of `parseDriverStats`: drivers are grouped under
    their primary team, the first two of each team are paired, and in every
    round where both have a race result the one ahead gets a point in their
    `heads` counter against the other. */
module HeadToHead {
  import opened Maybe
  import opened Seqs
  import opened Tallies
  import opened RaceData
  import opened DriverStats
  import ST = SeriesTable

  // ---------------------------------------------------------------------
  // Grouping by primary team

  /** Whether the driver's primary team is `team`. */
  function OnTeam(ds: Drivers, team: string): string -> bool {
    (n: string) => n in ds.records && ds.records[n].teams != [] && PrimaryTeam(ds.records[n].teams) == team
  }

  /** `teamDrivers` after the first `n` names of the Map were pushed
      under their primary team. */
  function Grouped(ds: Drivers, n: nat): ST.Table<string>
    requires ds.Valid() && n <= |ds.names|
  {
    if n == 0 then ST.EmptyTable()
    else
      var name := ds.names[n - 1];
      ST.Push(Grouped(ds, n - 1), PrimaryTeam(ds.records[name].teams), name)
  }

  /** `teamDrivers`: every driver of the Map under their primary team. */
  function TeamDrivers(ds: Drivers): ST.Table<string>
    requires ds.Valid()
  {
    Grouped(ds, |ds.names|)
  }

  /** No name sits in two places of the table. */
  ghost predicate Separate(td: ST.Table<string>) {
    forall k1, k2, i, j ::
      (0 <= i < |ST.Row(td, k1)| && 0 <= j < |ST.Row(td, k2)| && ST.Row(td, k1)[i] == ST.Row(td, k2)[j]) ==>
      k1 == k2 && i == j
  }

  /** A team's array lists the names on that team in Map order. */
  lemma {:induction false} GroupedSpec(ds: Drivers, n: nat, team: string)
    requires ds.Valid() && n <= |ds.names|
    ensures ST.Row(Grouped(ds, n), team) == Filter(ds.names[..n], OnTeam(ds, team))
  {
    if n > 0 {
      var name := ds.names[n - 1];
      GroupedSpec(ds, n - 1, team);
      assert ds.names[..n][..n - 1] == ds.names[..n - 1];
      assert OnTeam(ds, team)(name) <==> PrimaryTeam(ds.records[name].teams) == team;
    }
  }

  /** Each team is listed once, and exactly the listed teams have arrays. */
  lemma {:induction false} GroupedValid(ds: Drivers, n: nat)
    requires ds.Valid() && n <= |ds.names|
    ensures ST.Valid(Grouped(ds, n))
  {
    if n > 0 {
      var name := ds.names[n - 1];
      GroupedValid(ds, n - 1);
      ST.PushValid(Grouped(ds, n - 1), PrimaryTeam(ds.records[name].teams), name);
    }
  }

  /** Names are listed once each, so the arrays are disjoint and free of
      repeats. */
  lemma GroupedSeparate(ds: Drivers)
    requires ds.Valid()
    ensures Separate(TeamDrivers(ds))
  {
    var td := TeamDrivers(ds);
    assert ds.names[..|ds.names|] == ds.names;
    forall k1, k2, i, j | 0 <= i < |ST.Row(td, k1)| && 0 <= j < |ST.Row(td, k2)| && ST.Row(td, k1)[i] == ST.Row(td, k2)[j]
      ensures k1 == k2 && i == j
    {
      GroupedSpec(ds, |ds.names|, k1);
      GroupedSpec(ds, |ds.names|, k2);
      var n := ST.Row(td, k1)[i];
      assert OnTeam(ds, k1)(n) && OnTeam(ds, k2)(n);
      FilterNoDup(ds.names, OnTeam(ds, k1));
    }
  }

  /** `teamDrivers` lists each team once, each team's drivers in Map
      order, and no driver twice. */
  lemma TeamDriversSpec(ds: Drivers, team: string)
    requires ds.Valid()
    ensures ST.Valid(TeamDrivers(ds)) && Separate(TeamDrivers(ds))
    ensures ST.Row(TeamDrivers(ds), team) == Filter(ds.names, OnTeam(ds, team))
  {
    GroupedSpec(ds, |ds.names|, team);
    GroupedValid(ds, |ds.names|);
    assert ds.names[..|ds.names|] == ds.names;
    GroupedSeparate(ds);
  }

  // ---------------------------------------------------------------------
  // One round

  /** `resultMap`: each race-result driver to their position; a later
      entry of the same driver overwrites an earlier one. */
  function ResultMap(es: seq<Entry>): map<string, Option<int>> {
    if es == [] then map[]
    else ResultMap(es[..|es| - 1])[es[|es| - 1].driver := es[|es| - 1].position]
  }

  /** The drivers of `resultMap` are those the list names, each with the
      position of their last entry. */
  lemma {:induction false} ResultMapSpec(es: seq<Entry>, d: string)
    ensures d in ResultMap(es) <==> FindLastDriver(es, d).Some?
    ensures d in ResultMap(es) ==> ResultMap(es)[d] == FindLastDriver(es, d).value.position
  {
    if es != [] {
      ResultMapSpec(es[..|es| - 1], d);
    }
  }

  /** `p1 < p2` on positions: JavaScript compares `null` as 0. */
  predicate Ahead(p: Option<int>, q: Option<int>) {
    p.GetOr(0) < q.GetOr(0)
  }

  /** `d1` and `d2` of `const [d1, d2] = drivers`, when both are truthy. */
  function PairOf(row: seq<string>): Option<(string, string)> {
    if |row| >= 2 && row[0] != "" && row[1] != "" then Some((row[0], row[1])) else None
  }

  /** Every driver's `heads` object. */
  type Heads = map<string, Tally>

  function HeadsOf(h: Heads, d: string): Tally {
    if d in h then h[d] else NoPoints
  }

  /** Both counters are created (`if (!heads[x]) heads[x] = 0`), then the
      driver strictly ahead gets one more. */
  function Versus(h: Heads, d1: string, d2: string, p1: Option<int>, p2: Option<int>): Heads {
    var h1 := h[d1 := HeadsOf(h, d1).Add(d2, 0)];
    var h2 := h1[d2 := HeadsOf(h1, d2).Add(d1, 0)];
    if Ahead(p1, p2) then h2[d1 := HeadsOf(h2, d1).Add(d2, 1)]
    else if Ahead(p2, p1) then h2[d2 := HeadsOf(h2, d2).Add(d1, 1)]
    else h2
  }

  /** One team in one round: nothing unless both drivers of the pair have
      a race result. */
  function TeamStep(h: Heads, row: seq<string>, rm: map<string, Option<int>>): Heads {
    match PairOf(row)
    case None => h
    case Some((d1, d2)) => if d1 in rm && d2 in rm then Versus(h, d1, d2, rm[d1], rm[d2]) else h
  }

  /** The given teams in one round, in order. */
  function RoundHeads(h: Heads, td: ST.Table<string>, teams: seq<string>, rm: map<string, Option<int>>): Heads {
    if teams == [] then h
    else TeamStep(RoundHeads(h, td, teams[..|teams| - 1], rm), ST.Row(td, teams[|teams| - 1]), rm)
  }

  /** Every driver's `heads` after the given rounds. */
  function SeasonHeads(races: seq<Race>, td: ST.Table<string>): Heads {
    if races == [] then map[]
    else
      var rm := ResultMap(EntriesOf(races[|races| - 1].raceResults));
      RoundHeads(SeasonHeads(races[..|races| - 1], td), td, td.keys, rm)
  }

  // ---------------------------------------------------------------------
  // What one driver's counter holds

  /** Whether `x` is one of the pair of the team's array. */
  predicate InPair(row: seq<string>, x: string) {
    PairOf(row).Some? && (PairOf(row).value.0 == x || PairOf(row).value.1 == x)
  }

  /** The other driver of `x`'s pair, searched over the given teams. */
  function Partner(td: ST.Table<string>, teams: seq<string>, x: string): (r: Option<string>)
    ensures r.Some? ==> exists k :: 0 <= k < |teams| && InPair(ST.Row(td, teams[k]), x)
  {
    if teams == [] then None
    else
      var row := ST.Row(td, teams[|teams| - 1]);
      if InPair(row, x) then Some(if PairOf(row).value.0 == x then PairOf(row).value.1 else PairOf(row).value.0)
      else
        var init := teams[..|teams| - 1];
        var r := Partner(td, init, x);
        assert forall k :: 0 <= k < |init| ==> init[k] == teams[k];
        r
  }

  /** What one round does to `x`'s counters when paired with `y`. */
  function Meet(t: Tally, x: string, y: string, rm: map<string, Option<int>>): Tally {
    if x in rm && y in rm then t.Add(y, if Ahead(rm[x], rm[y]) then 1 else 0) else t
  }

  /** A pair in one round changes the two drivers' counters, each as
      `Meet` says, and nobody else's. */
  lemma VersusSpec(h: Heads, d1: string, d2: string, rm: map<string, Option<int>>, x: string)
    requires d1 != d2 && d1 in rm && d2 in rm
    ensures HeadsOf(Versus(h, d1, d2, rm[d1], rm[d2]), x) ==
      if x == d1 then Meet(HeadsOf(h, d1), d1, d2, rm)
      else if x == d2 then Meet(HeadsOf(h, d2), d2, d1, rm)
      else HeadsOf(h, x)
  {
    var p1, p2 := rm[d1], rm[d2];
    var v := Versus(h, d1, d2, p1, p2);
    if x == d1 {
      AddTwice(HeadsOf(h, d1), d2);
      assert HeadsOf(v, d1) == HeadsOf(h, d1).Add(d2, if Ahead(p1, p2) then 1 else 0);
    } else if x == d2 {
      AddTwice(HeadsOf(h, d2), d1);
      assert HeadsOf(v, d2) == HeadsOf(h, d2).Add(d1, if Ahead(p2, p1) then 1 else 0);
    }
  }

  lemma AddTwice(t: Tally, y: string)
    ensures t.Add(y, 0).Add(y, 1) == t.Add(y, 1)
  {
    assert t.Add(y, 0).Add(y, 1).value == t.Add(y, 1).value;
  }

  /** A name in a team's pair shows up there only. */
  lemma PairOnce(td: ST.Table<string>, teams: seq<string>, j: nat, x: string)
    requires NoDup(teams) && Separate(td) && j < |teams| && InPair(ST.Row(td, teams[j]), x)
    ensures forall k :: 0 <= k < |teams| && k != j ==> !InPair(ST.Row(td, teams[k]), x)
  {
    forall k | 0 <= k < |teams| && k != j && InPair(ST.Row(td, teams[k]), x)
      ensures false
    {
    }
  }

  /** One round over the teams: `x`'s counters change as `Meet` with the
      partner says, or not at all when `x` has none. */
  lemma {:induction false} RoundHeadsSpec(h: Heads, td: ST.Table<string>, teams: seq<string>,
                                          rm: map<string, Option<int>>, x: string)
    requires NoDup(teams) && Separate(td)
    ensures HeadsOf(RoundHeads(h, td, teams, rm), x) ==
      match Partner(td, teams, x)
      case None => HeadsOf(h, x)
      case Some(y) => Meet(HeadsOf(h, x), x, y, rm)
  {
    if teams != [] {
      var init := teams[..|teams| - 1];
      var row := ST.Row(td, teams[|teams| - 1]);
      var before := RoundHeads(h, td, init, rm);
      RoundHeadsSpec(h, td, init, rm, x);
      if PairOf(row).Some? {
        var d1, d2 := PairOf(row).value.0, PairOf(row).value.1;
        assert row[0] == d1 && row[1] == d2;
        assert d1 != d2;
        if d1 in rm && d2 in rm {
          VersusSpec(before, d1, d2, rm, x);
        }
        if InPair(row, x) {
          PairOnce(td, teams, |teams| - 1, x);
        }
      }
    }
  }

  /** `x`'s counters over the given rounds when paired with `y`. */
  function SeasonMeet(races: seq<Race>, x: string, y: string): Tally {
    if races == [] then NoPoints
    else Meet(SeasonMeet(races[..|races| - 1], x, y), x, y, ResultMap(EntriesOf(races[|races| - 1].raceResults)))
  }

  /** Over the season, `x`'s counters are those `Meet` builds with their
      partner, and untouched when `x` has no partner. */
  lemma {:induction false} SeasonHeadsSpec(races: seq<Race>, td: ST.Table<string>, x: string)
    requires ST.Valid(td) && Separate(td)
    ensures HeadsOf(SeasonHeads(races, td), x) ==
      match Partner(td, td.keys, x)
      case None => NoPoints
      case Some(y) => SeasonMeet(races, x, y)
  {
    if races != [] {
      var init := races[..|races| - 1];
      SeasonHeadsSpec(init, td, x);
      RoundHeadsSpec(SeasonHeads(init, td), td, td.keys, ResultMap(EntriesOf(races[|races| - 1].raceResults)), x);
    }
  }

  /** Both drivers have a race result in the round and `x` is strictly
      ahead of `y`. */
  predicate Beat(race: Race, x: string, y: string) {
    var rm := ResultMap(EntriesOf(race.raceResults));
    x in rm && y in rm && Ahead(rm[x], rm[y])
  }

  /** The rounds where both drivers raced and `x` finished ahead. */
  function Wins(races: seq<Race>, x: string, y: string): nat {
    if races == [] then 0
    else Wins(races[..|races| - 1], x, y) + (if Beat(races[|races| - 1], x, y) then 1 else 0)
  }

  /** A driver's counters name only the partner, and the count against
      them is the number of rounds the driver beat them. */
  lemma {:induction false} SeasonMeetSpec(races: seq<Race>, x: string, y: string)
    ensures SeasonMeet(races, x, y).Valid()
    ensures SeasonMeet(races, x, y).keys == [] || SeasonMeet(races, x, y).keys == [y]
    ensures forall z :: SeasonMeet(races, x, y).Get(z) == if z == y then Wins(races, x, y) else 0
  {
    if races != [] {
      SeasonMeetSpec(races[..|races| - 1], x, y);
    }
  }

  /** Two drivers cannot both be ahead in one round, so their counts add
      up to at most the number of rounds. */
  lemma {:induction false} WinsBounded(races: seq<Race>, x: string, y: string)
    ensures Wins(races, x, y) + Wins(races, y, x) <= |races|
  {
    if races != [] {
      WinsBounded(races[..|races| - 1], x, y);
    }
  }

  // ---------------------------------------------------------------------
  // headWins

  function SumOver(t: Tally, keys: seq<string>): int {
    if keys == [] then 0 else SumOver(t, keys[..|keys| - 1]) + t.Get(keys[|keys| - 1])
  }

  /** `headOpponents.length ? Object.values(heads).reduce(+) : 0`. */
  function HeadWins(t: Tally): int {
    if |t.keys| > 0 then SumOver(t, t.keys) else 0
  }

  /** Counters that name at most `y` add up to the count against `y`. */
  lemma HeadWinsOne(t: Tally, y: string)
    requires t.Valid() && (t.keys == [] || t.keys == [y])
    ensures HeadWins(t) == t.Get(y)
  {
    if t.keys == [y] {
      assert t.keys[..0] == [];
      assert SumOver(t, t.keys) == SumOver(t, []) + t.Get(y);
    }
  }

  /** A driver's `headWins` is the number of rounds they beat their
      partner, and 0 without a partner. */
  lemma HeadWinsSpec(races: seq<Race>, td: ST.Table<string>, x: string)
    requires ST.Valid(td) && Separate(td)
    ensures HeadWins(HeadsOf(SeasonHeads(races, td), x)) ==
      match Partner(td, td.keys, x)
      case None => 0
      case Some(y) => Wins(races, x, y)
  {
    SeasonHeadsSpec(races, td, x);
    match Partner(td, td.keys, x)
    case None =>
    case Some(y) =>
      SeasonMeetSpec(races, x, y);
      HeadWinsOne(SeasonMeet(races, x, y), y);
  }

  /** The pairing the grouping gives: the first two drivers of the
      partner's primary team, when both names are non-empty. */
  lemma PartnerSpec(ds: Drivers, x: string, y: string)
    requires ds.Valid() && Partner(TeamDrivers(ds), TeamDrivers(ds).keys, x) == Some(y)
    ensures exists team :: PairOf(Filter(ds.names, OnTeam(ds, team))) in {Some((x, y)), Some((y, x))}
  {
    var td := TeamDrivers(ds);
    var k :| 0 <= k < |td.keys| && InPair(ST.Row(td, td.keys[k]), x);
    TeamDriversSpec(ds, td.keys[k]);
    PartnerAt(td, td.keys, k, x);
  }

  /** Found at team `k`, the partner is the other one of that team's pair. */
  lemma {:induction false} PartnerAt(td: ST.Table<string>, teams: seq<string>, k: nat, x: string)
    requires NoDup(teams) && Separate(td) && k < |teams| && InPair(ST.Row(td, teams[k]), x)
    ensures Partner(td, teams, x).Some?
    ensures PairOf(ST.Row(td, teams[k])) in {Some((x, Partner(td, teams, x).value)), Some((Partner(td, teams, x).value, x))}
  {
    var row := ST.Row(td, teams[|teams| - 1]);
    if k < |teams| - 1 {
      PairOnce(td, teams, k, x);
      assert !InPair(row, x);
      var init := teams[..|teams| - 1];
      assert init[k] == teams[k];
      PartnerAt(td, init, k, x);
    }
  }

  // ---------------------------------------------------------------------
  // The loops

  /** `for (const [name, data] of drivers.entries())`: push each name
      under its primary team. */
  method GroupByTeam(ds: Drivers) returns (td: ST.Table<string>)
    requires ds.Valid()
    ensures td == TeamDrivers(ds)
  {
    td := ST.EmptyTable();
    for j := 0 to |ds.names|
      invariant td == Grouped(ds, j)
    {
      td := PushUnderPrimaryTeam(ds, j, td);
    }
  }

  /** The loop body: the j-th name of the Map is pushed under its primary
      team, whose array is created when missing. */
  method PushUnderPrimaryTeam(ds: Drivers, j: nat, td: ST.Table<string>) returns (r: ST.Table<string>)
    requires ds.Valid() && j < |ds.names| && td == Grouped(ds, j)
    ensures r == Grouped(ds, j + 1)
  {
    var name := ds.names[j];
    var team := GetPrimaryTeam(ds.records[name].teams);
    r := ST.Push(td, team, name);
  }

  /** `rounds.forEach(round => ...)` of the head-to-head stage. */
  method ComputeHeads(races: seq<Race>, td: ST.Table<string>) returns (h: Heads)
    ensures h == SeasonHeads(races, td)
  {
    h := map[];
    for i := 0 to |races|
      invariant h == SeasonHeads(races[..i], td)
    {
      assert races[..i + 1][..i] == races[..i];
      var rm := BuildResultMap(EntriesOf(races[i].raceResults));
      h := PlayRound(h, td, rm);
    }
    assert races[..|races|] == races;
  }

  /** `round.race_results?.forEach(... resultMap[driver] = position)`. */
  method BuildResultMap(es: seq<Entry>) returns (rm: map<string, Option<int>>)
    ensures rm == ResultMap(es)
  {
    rm := map[];
    for j := 0 to |es|
      invariant rm == ResultMap(es[..j])
    {
      assert es[..j + 1][..j] == es[..j];
      rm := rm[es[j].driver := es[j].position];
    }
    assert es[..|es|] == es;
  }

  /** `Object.entries(teamDrivers).forEach(([team, [d1, d2]]) => ...)`. */
  method PlayRound(h: Heads, td: ST.Table<string>, rm: map<string, Option<int>>) returns (r: Heads)
    ensures r == RoundHeads(h, td, td.keys, rm)
  {
    r := h;
    for j := 0 to |td.keys|
      invariant r == RoundHeads(h, td, td.keys[..j], rm)
    {
      assert td.keys[..j + 1][..j] == td.keys[..j];
      r := PlayTeam(r, ST.Row(td, td.keys[j]), rm);
    }
    assert td.keys[..|td.keys|] == td.keys;
  }

  /** The loop body: one team's pair plays when both drivers are named
      and have a race result. */
  method PlayTeam(h: Heads, row: seq<string>, rm: map<string, Option<int>>) returns (r: Heads)
    ensures r == TeamStep(h, row, rm)
  {
    r := h;
    if |row| >= 2 && row[0] != "" && row[1] != "" && row[0] in rm && row[1] in rm {
      r := PlayPair(r, row[0], row[1], rm[row[0]], rm[row[1]]);
    }
  }

  /** Create both counters, then count one for the driver ahead. */
  method PlayPair(h: Heads, d1: string, d2: string, p1: Option<int>, p2: Option<int>) returns (r: Heads)
    ensures r == Versus(h, d1, d2, p1, p2)
  {
    var h1 := h[d1 := HeadsOf(h, d1).Add(d2, 0)];
    var h2 := h1[d2 := HeadsOf(h1, d2).Add(d1, 0)];
    r := h2;
    if Ahead(p1, p2) {
      r := h2[d1 := HeadsOf(h2, d1).Add(d2, 1)];
    } else if Ahead(p2, p1) {
      r := h2[d2 := HeadsOf(h2, d2).Add(d1, 1)];
    }
  }
}
