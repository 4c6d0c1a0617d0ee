/** Records decoded from the OpenF1 API that the pit strategy and sector
    analysis pages share: drivers, the lookup of a driver by number, and
    the order in which an object keyed by driver number lists its keys. */
module OpenF1 {
  import opened Maybe
  import opened Seqs
  import opened StableSort
  import opened Text

  /** One driver record: `driver_number`, `name_acronym`. */
  datatype Driver = Driver(number: nat, acronym: string)

  /** `drivers.find(d => d.driver_number == num)`. */
  function FindNumber(drivers: seq<Driver>, num: nat): (r: Option<Driver>)
    ensures r.None? <==> forall i :: 0 <= i < |drivers| ==> drivers[i].number != num
    ensures r.Some? ==> r.value in drivers && r.value.number == num
  {
    if drivers == [] then None
    else if drivers[0].number == num then Some(drivers[0])
    else FindNumber(drivers[1..], num)
  }

  /** `driver?.name_acronym || "#" + num`. */
  function DriverName(drivers: seq<Driver>, num: nat): string {
    var d := FindNumber(drivers, num);
    if d.Some? && d.value.acronym != "" then d.value.acronym else "#" + NatToString(num)
  }

  /** `Object.keys` of an object whose keys are driver numbers: integer
      keys are listed in ascending order, whatever the insertion order. */
  function ObjectKeys(ks: seq<nat>): seq<nat> {
    Sort(ks, ByKeyAsc<nat>((k: nat) => k as real))
  }

  /** The keys listed are the keys inserted, each once, ascending. */
  lemma ObjectKeysSpec(ks: seq<nat>)
    requires NoDup(ks)
    ensures forall k :: k in ObjectKeys(ks) <==> k in ks
    ensures forall i, j :: 0 <= i < j < |ObjectKeys(ks)| ==> ObjectKeys(ks)[i] < ObjectKeys(ks)[j]
  {
    var before := ByKeyAsc<nat>((k: nat) => k as real);
    var r := ObjectKeys(ks);
    KeyOrders<nat>((k: nat) => k as real);
    SortPermutes(ks, before);
    SortSorted(ks, before);
    SortNoDup(ks, before);
    forall k ensures k in r <==> k in ks {
      assert k in r <==> k in multiset(r);
    }
    forall i, j | 0 <= i < j < |r| ensures r[i] < r[j] {
      assert !before(r[j], r[i]);
    }
  }
}
