/** src/utils/dataProcessing.js: driver-identity normalisation (a rule
    table renaming a driver of a given team), the team colour lookup and
    the sorted list of all drivers. */
module DataProcessing {
  import opened Maybe
  import opened Seqs
  import opened StableSort
  import opened Text
  import opened RaceData

  /** A rule renames entries whose `driver` is `from` and `team` is `team`
      to `to`. There is no round field: a rule applies to every race. */
  datatype Rule = Rule(from: string, to: string, team: string)

  /** The shipped table. */
  const DriverChanges: seq<Rule> := [Rule("Jack Doohan", "Franco Colapinto", "Alpine")]

  predicate Matches(e: Entry, rule: Rule) {
    e.driver == rule.from && e.team == rule.team
  }

  /** The driver name after the rules: the `to` of the last rule that
      matches the ORIGINAL entry, or the original name when none does. */
  function RenamedDriver(e: Entry, rules: seq<Rule>): string {
    if rules == [] then e.driver
    else if Matches(e, rules[|rules| - 1]) then rules[|rules| - 1].to
    else RenamedDriver(e, rules[..|rules| - 1])
  }

  function RenameEntry(e: Entry, rules: seq<Rule>): Entry {
    e.(driver := RenamedDriver(e, rules))
  }

  function RenameList(list: Option<seq<Entry>>, rules: seq<Rule>): Option<seq<Entry>> {
    match list
    case None => None
    case Some(es) => Some(seq(|es|, k requires 0 <= k < |es| => RenameEntry(es[k], rules)))
  }

  function RenameRace(race: Race, rules: seq<Rule>): Race {
    race.(raceResults := RenameList(race.raceResults, rules),
          qualifyingResults := RenameList(race.qualifyingResults, rules),
          sprintResults := RenameList(race.sprintResults, rules))
  }

  /** What `processDriverChanges(races)` returns, for a given rule table. */
  function Normalized(races: seq<Race>, rules: seq<Rule>): seq<Race> {
    seq(|races|, i requires 0 <= i < |races| => RenameRace(races[i], rules))
  }

  /** The per-entry `forEach` over the rules: each matching rule overwrites
      the copy's driver, while the test reads the original entry. */
  method ProcessEntry(e: Entry, rules: seq<Rule>) returns (updated: Entry)
    ensures updated == RenameEntry(e, rules)
  {
    updated := e;
    for i := 0 to |rules|
      invariant updated == RenameEntry(e, rules[..i])
    {
      assert rules[..i + 1][..i] == rules[..i];
      if e.driver == rules[i].from && e.team == rules[i].team {
        updated := updated.(driver := rules[i].to);
      }
    }
    assert rules[..|rules|] == rules;
  }

  /** One result type: a present list is mapped entry by entry, a missing
      one stays missing. */
  method ProcessList(list: Option<seq<Entry>>, rules: seq<Rule>) returns (r: Option<seq<Entry>>)
    ensures r == RenameList(list, rules)
  {
    match list {
      case None =>
        r := None;
      case Some(es) =>
        var out: seq<Entry> := [];
        for k := 0 to |es|
          invariant |out| == k
          invariant forall j :: 0 <= j < k ==> out[j] == RenameEntry(es[j], rules)
        {
          var updated := ProcessEntry(es[k], rules);
          out := out + [updated];
        }
        assert out == seq(|es|, k requires 0 <= k < |es| => RenameEntry(es[k], rules));
        r := Some(out);
    }
  }

  /** `processDriverChanges`: each race is copied and its three result
      lists processed. */
  method ProcessDriverChanges(races: seq<Race>, rules: seq<Rule>) returns (out: seq<Race>)
    ensures out == Normalized(races, rules)
  {
    out := [];
    for i := 0 to |races|
      invariant |out| == i
      invariant forall j :: 0 <= j < i ==> out[j] == RenameRace(races[j], rules)
    {
      var race := races[i];
      var raceResults := ProcessList(race.raceResults, rules);
      var qualifyingResults := ProcessList(race.qualifyingResults, rules);
      var sprintResults := ProcessList(race.sprintResults, rules);
      out := out + [race.(raceResults := raceResults,
                          qualifyingResults := qualifyingResults,
                          sprintResults := sprintResults)];
    }
  }

  /** `useProcessedRaceData`: a missing or empty input gives `[]`. */
  method UseProcessedRaceData(rawRaces: Option<seq<Race>>) returns (out: seq<Race>)
    ensures rawRaces.None? || rawRaces.value == [] ==> out == []
    ensures rawRaces.Some? ==> out == Normalized(rawRaces.value, DriverChanges)
  {
    if rawRaces.None? || |rawRaces.value| == 0 {
      out := [];
    } else {
      out := ProcessDriverChanges(rawRaces.value, DriverChanges);
    }
  }

  // ---------------------------------------------------------------------
  // Properties of the normalisation

  /** Entries agree on everything except possibly the driver. */
  predicate SameButDriver(a: Entry, b: Entry) {
    a.(driver := b.driver) == b
  }

  /** Both lists missing, or both present with the same length and
      entries equal but for the driver. */
  predicate SameShape(a: Option<seq<Entry>>, b: Option<seq<Entry>>) {
    match a
    case None => b.None?
    case Some(xs) =>
      b.Some? && |b.value| == |xs| &&
      forall k :: 0 <= k < |xs| ==> SameButDriver(xs[k], b.value[k])
  }

  /** The same races in the same order; every list keeps its presence,
      length and order, and only `driver` can change. */
  lemma NormalizedShape(races: seq<Race>, rules: seq<Rule>)
    ensures |Normalized(races, rules)| == |races|
    ensures forall i :: 0 <= i < |races| ==>
      var out := Normalized(races, rules)[i];
      && out.round == races[i].round
      && out.circuit == races[i].circuit
      && SameShape(races[i].raceResults, out.raceResults)
      && SameShape(races[i].qualifyingResults, out.qualifyingResults)
      && SameShape(races[i].sprintResults, out.sprintResults)
  {
  }

  /** When no rule matches the original entry, its driver is kept. */
  lemma {:induction false} NoMatchKeeps(e: Entry, rules: seq<Rule>)
    requires forall j :: 0 <= j < |rules| ==> !Matches(e, rules[j])
    ensures RenamedDriver(e, rules) == e.driver
  {
    if rules != [] {
      NoMatchKeeps(e, rules[..|rules| - 1]);
    }
  }

  /** The last matching rule wins; rules later in the table that do not
      match the original entry have no effect. */
  lemma {:induction false} LastMatchWins(e: Entry, rules: seq<Rule>, k: nat)
    requires k < |rules| && Matches(e, rules[k])
    requires forall j :: k < j < |rules| ==> !Matches(e, rules[j])
    ensures RenamedDriver(e, rules) == rules[k].to
  {
    if k < |rules| - 1 {
      LastMatchWins(e, rules[..|rules| - 1], k);
    }
  }

  /** When some rule matches the original entry, the new name is the `to`
      of the last such rule (together with NoMatchKeeps: renaming happens
      iff a rule matches). */
  lemma {:induction false} MatchRenames(e: Entry, rules: seq<Rule>, j: nat) returns (k: nat)
    requires j < |rules| && Matches(e, rules[j])
    ensures j <= k < |rules| && Matches(e, rules[k])
    ensures forall i :: k < i < |rules| ==> !Matches(e, rules[i])
    ensures RenamedDriver(e, rules) == rules[k].to
  {
    var last := |rules| - 1;
    if Matches(e, rules[last]) {
      k := last;
    } else {
      k := MatchRenames(e, rules[..last], j);
      LastMatchWins(e, rules, k);
    }
  }

  /** With the shipped table: exactly Jack Doohan's Alpine entries become
      Franco Colapinto, in every race, whatever the round. */
  lemma ShippedRename(e: Entry)
    ensures RenamedDriver(e, DriverChanges) ==
      if e.driver == "Jack Doohan" && e.team == "Alpine" then "Franco Colapinto" else e.driver
  {
    assert DriverChanges[..0] == [];
  }

  /** No rule's target can be matched again: no `to` equals a `from` of
      the same team. */
  predicate NonChaining(rules: seq<Rule>) {
    forall j, k :: 0 <= j < |rules| && 0 <= k < |rules| ==>
      rules[j].to != rules[k].from || rules[j].team != rules[k].team
  }

  lemma RenameEntryIdempotent(e: Entry, rules: seq<Rule>)
    requires NonChaining(rules)
    ensures RenameEntry(RenameEntry(e, rules), rules) == RenameEntry(e, rules)
  {
    var once := RenameEntry(e, rules);
    if j :| 0 <= j < |rules| && Matches(e, rules[j]) {
      var k := MatchRenames(e, rules, j);
      NoMatchKeeps(once, rules);
    } else {
      NoMatchKeeps(e, rules);
    }
  }

  lemma RenameListIdempotent(list: Option<seq<Entry>>, rules: seq<Rule>)
    requires NonChaining(rules)
    ensures RenameList(RenameList(list, rules), rules) == RenameList(list, rules)
  {
    if list.Some? {
      var once := RenameList(list, rules).value;
      forall k | 0 <= k < |once|
        ensures RenameEntry(once[k], rules) == once[k]
      {
        RenameEntryIdempotent(list.value[k], rules);
      }
      assert RenameList(RenameList(list, rules), rules).value == once;
    }
  }

  /** Normalising twice is normalising once, for a non-chaining table. */
  lemma NormalizedIdempotent(races: seq<Race>, rules: seq<Rule>)
    requires NonChaining(rules)
    ensures Normalized(Normalized(races, rules), rules) == Normalized(races, rules)
  {
    forall i | 0 <= i < |races|
      ensures RenameRace(RenameRace(races[i], rules), rules) == RenameRace(races[i], rules)
    {
      RenameListIdempotent(races[i].raceResults, rules);
      RenameListIdempotent(races[i].qualifyingResults, rules);
      RenameListIdempotent(races[i].sprintResults, rules);
    }
  }

  /** The shipped table is non-chaining ("Franco Colapinto" is no rule's
      `from`), so `processDriverChanges` is idempotent on any season. */
  lemma ShippedIdempotent(races: seq<Race>)
    ensures Normalized(Normalized(races, DriverChanges), DriverChanges) ==
      Normalized(races, DriverChanges)
  {
    NormalizedIdempotent(races, DriverChanges);
  }

  // ---------------------------------------------------------------------
  // Team colours

  /** `TEAM_COLORS`. */
  const TeamColors: map<string, string> := map[
    "McLaren" := "#FF8700",
    "Red Bull Racing" := "#1E41FF",
    "Mercedes" := "#00D2BE",
    "Ferrari" := "#DC0000",
    "Williams" := "#005AFF",
    "Alpine" := "#FF69B4",
    "Aston Martin" := "#006F62",
    "Haas" := "#B6BABD",
    "Racing Bulls" := "#2B4562",
    "Kick Sauber" := "#00F500"]

  const FallbackColor: string := "#888888"

  /** `getTeamColor`: the table colour of a listed team, the fallback
      grey for any other name; the grey is no listed team's colour. */
  function TeamColor(team: string): (c: string)
    ensures team in TeamColors ==> c == TeamColors[team]
    ensures c == FallbackColor <==> team !in TeamColors
    ensures |c| == 7 && c[0] == '#'
  {
    if team in TeamColors then TeamColors[team] else FallbackColor
  }

  // ---------------------------------------------------------------------
  // All drivers

  /** The race-result drivers of a season in order of appearance; races
      without `race_results` contribute nothing. */
  function RaceDrivers(races: seq<Race>): seq<string> {
    if races == [] then []
    else RaceDrivers(races[..|races| - 1]) + DriversOf(EntriesOf(races[|races| - 1].raceResults))
  }

  lemma RaceDriversStep(races: seq<Race>, i: nat)
    requires i < |races|
    ensures RaceDrivers(races[..i + 1]) == RaceDrivers(races[..i]) + DriversOf(EntriesOf(races[i].raceResults))
  {
    assert races[..i + 1][..i] == races[..i];
  }

  /** `getAllDrivers`: a `Set` filled race by race, then `sort()`ed. The
      result lists each race-result driver exactly once, in strictly
      ascending string order. */
  method GetAllDrivers(races: seq<Race>) returns (r: seq<string>)
    ensures forall d :: d in r <==> d in RaceDrivers(races)
    ensures forall i, j :: 0 <= i < j < |r| ==> LexLess(r[i], r[j])
  {
    var seen: seq<string> := [];
    for i := 0 to |races|
      invariant NoDup(seen)
      invariant forall d :: d in seen <==> d in RaceDrivers(races[..i])
    {
      RaceDriversStep(races, i);
      seen := AddDrivers(seen, EntriesOf(races[i].raceResults));
    }
    assert races[..|races|] == races;
    r := Sort(seen, ByName());
    SortedNames(seen);
  }

  /** `es.forEach(e => set.add(e.driver))` on an insertion-ordered set. */
  method AddDrivers(seen: seq<string>, es: seq<Entry>) returns (r: seq<string>)
    requires NoDup(seen)
    ensures NoDup(r)
    ensures forall d :: d in r <==> d in seen || d in DriversOf(es)
  {
    r := seen;
    for j := 0 to |es|
      invariant NoDup(r)
      invariant forall d :: d in r <==> d in seen || d in DriversOf(es[..j])
    {
      assert DriversOf(es[..j + 1]) == DriversOf(es[..j]) + [es[j].driver];
      if es[j].driver !in r {
        r := r + [es[j].driver];
      }
    }
    assert es[..|es|] == es;
  }

  /** Default `sort()` order on names. */
  function ByName(): (string, string) -> bool {
    ByStringKey((s: string) => s)
  }

  /** Sorting distinct names lists the same names in strictly ascending
      order. */
  lemma SortedNames(names: seq<string>)
    requires NoDup(names)
    ensures forall d :: d in Sort(names, ByName()) <==> d in names
    ensures forall i, j :: 0 <= i < j < |names| ==>
      LexLess(Sort(names, ByName())[i], Sort(names, ByName())[j])
  {
    var r := Sort(names, ByName());
    SortPermutes(names, ByName());
    StringKeyOrder((s: string) => s);
    SortSorted(names, ByName());
    SortNoDup(names, ByName());
    forall d ensures d in r <==> d in names {
      assert d in r <==> d in multiset(r);
      assert d in names <==> d in multiset(names);
    }
    forall i, j | 0 <= i < j < |r| ensures LexLess(r[i], r[j]) {
      LexTotal(r[i], r[j]);
    }
  }
}
