/** A JavaScript `Map` (or plain object) from names to counts, read with
    `m.get(k) || 0` and bumped with `m.set(k, (m.get(k) || 0) + n)`; keys
    keep insertion order. */
module Tallies {
  import opened Seqs

  datatype Tally = Tally(keys: seq<string>, value: map<string, int>) {

    /** Keys are listed once each, and exactly the keys have a value. */
    predicate Valid() {
      NoDup(keys) && value.Keys == set k | k in keys
    }

    /** `m.get(k) || 0`. */
    function Get(k: string): int {
      if k in value then value[k] else 0
    }

    /** `m.set(k, (m.get(k) || 0) + n)`: a new key goes to the back, a
        known one keeps its place. */
    function Add(k: string, n: int): (r: Tally)
      ensures r.keys == AddAll(keys, [k])
      ensures Valid() ==> r.Valid()
      ensures forall j :: r.Get(j) == Get(j) + (if j == k then n else 0)
    {
      assert [k][..0] == [];
      Tally(if k in keys then keys else keys + [k], value[k := Get(k) + n])
    }
  }

  /** `new Map()`. */
  const NoPoints: Tally := Tally([], map[])
}
