/** The season records every page reads: an ordered list of races, each
    with optional result lists (`race_results`, `qualifying_results`,
    `sprint_results`). A missing list is `None`; an empty one is `Some([])`,
    which JavaScript treats as present. */
module RaceData {
  import opened Maybe
  import opened Seqs
  import opened Text

  /** One line of a result list. `position` may be `null` in the data;
      `time` is only carried by qualifying entries. */
  datatype Entry = Entry(
    driver: string,
    team: string,
    position: Option<int>,
    points: int,
    time: Option<string>)

  datatype Race = Race(
    round: int,
    circuit: Option<string>,
    raceResults: Option<seq<Entry>>,
    qualifyingResults: Option<seq<Entry>>,
    sprintResults: Option<seq<Entry>>)

  /** Most pages read `race.race_results` without a guard (a missing list
      throws there), so they require every race to carry one. */
  predicate AllHaveRaceResults(races: seq<Race>) {
    forall i :: 0 <= i < |races| ==> races[i].raceResults.Some?
  }

  predicate AllHaveCircuit(races: seq<Race>) {
    forall i :: 0 <= i < |races| ==> races[i].circuit.Some?
  }

  /** `"R" + round`. */
  function RoundTag(round: int): (r: string)
    ensures |r| > 1 && r[0] == 'R'
  {
    "R" + IntToString(round)
  }

  /** The entries of a possibly missing list (`list?.forEach` sees none). */
  function EntriesOf(list: Option<seq<Entry>>): seq<Entry> {
    match list
    case None => []
    case Some(es) => es
  }

  /** `list.find(e => e.driver === driver)`: the first entry of the driver. */
  function FindDriver(es: seq<Entry>, driver: string): (r: Option<Entry>)
    ensures r.None? <==> forall k :: 0 <= k < |es| ==> es[k].driver != driver
    ensures r.Some? ==> r.value in es && r.value.driver == driver
  {
    if es == [] then None
    else if es[0].driver == driver then Some(es[0])
    else
      var r := FindDriver(es[1..], driver);
      assert forall k :: 1 <= k < |es| ==> es[k] == es[1..][k - 1];
      r
  }

  /** The search over a list extended at the back: the earlier entry
      wins, the new one counts only when none matched before. */
  lemma {:induction false} FindDriverSnoc(es: seq<Entry>, e: Entry, driver: string)
    ensures FindDriver(es + [e], driver) ==
      if FindDriver(es, driver).Some? then FindDriver(es, driver)
      else if e.driver == driver then Some(e) else None
  {
    if es != [] {
      assert (es + [e])[1..] == es[1..] + [e];
      FindDriverSnoc(es[1..], e, driver);
    }
  }

  /** The driver names of a result list, in order. */
  function DriversOf(es: seq<Entry>): (r: seq<string>)
    ensures |r| == |es| && forall k :: 0 <= k < |es| ==> r[k] == es[k].driver
  {
    seq(|es|, k requires 0 <= k < |es| => es[k].driver)
  }

  /** The teams of the entries, in order. */
  function TeamsOf(es: seq<Entry>): (r: seq<string>)
    ensures |r| == |es| && forall k :: 0 <= k < |es| ==> r[k] == es[k].team
  {
    seq(|es|, k requires 0 <= k < |es| => es[k].team)
  }

  /** A driver is listed iff the search finds an entry. */
  lemma ListedIffFound(es: seq<Entry>, d: string)
    ensures d in DriversOf(es) <==> FindDriver(es, d).Some?
  {
    if FindDriver(es, d).Some? {
      var k :| 0 <= k < |es| && es[k].driver == d;
      assert DriversOf(es)[k] == d;
    }
  }

  /** `m.set(e.driver, ...)` over a list keeps the LAST entry of a driver. */
  function FindLastDriver(es: seq<Entry>, driver: string): (r: Option<Entry>)
    ensures r.Some? ==> r.value in es && r.value.driver == driver
  {
    if es == [] then None
    else if es[|es| - 1].driver == driver then Some(es[|es| - 1])
    else FindLastDriver(es[..|es| - 1], driver)
  }

  /** Each race lists a driver at most once in its race results. */
  predicate UniqueDrivers(races: seq<Race>) {
    forall i :: 0 <= i < |races| ==> NoDup(DriversOf(EntriesOf(races[i].raceResults)))
  }
}
