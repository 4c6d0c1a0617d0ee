/** The "Map from a name to an array" the series builders grow round by
    round: `if (!m.has(k)) m.set(k, []); m.get(k).push(v)`, followed by a
    pass over `m.entries()` that appends one filler value to every array
    shorter than the number of rounds so far. Keys keep insertion order. */
module SeriesTable {
  import opened Maybe
  import opened Seqs
  import opened RaceData

  datatype Table<V> = Table(keys: seq<string>, rows: map<string, seq<V>>)

  /** Keys are listed once each, and exactly the keys have arrays. */
  predicate Valid<V>(t: Table<V>) {
    NoDup(t.keys) && t.rows.Keys == set k | k in t.keys
  }

  function EmptyTable<V>(): (t: Table<V>)
    ensures Valid(t)
  {
    Table([], map[])
  }

  /** The array of a key, `[]` when the key is absent. */
  function Row<V>(t: Table<V>, key: string): seq<V> {
    if key in t.rows then t.rows[key] else []
  }

  /** Create the key's array if needed, then push `v`. */
  function Push<V>(t: Table<V>, key: string, v: V): Table<V> {
    Table(if key in t.rows then t.keys else t.keys + [key], t.rows[key := Row(t, key) + [v]])
  }

  /** `entries.forEach(e => push(e.driver, f(current array, e)))`. */
  function PushAll<V>(t: Table<V>, es: seq<Entry>, f: (seq<V>, Entry) -> V): Table<V> {
    if es == [] then t
    else
      var u := PushAll(t, es[..|es| - 1], f);
      var e := es[|es| - 1];
      Push(u, e.driver, f(Row(u, e.driver), e))
  }

  function PadOne<V>(arr: seq<V>, n: nat, pad: seq<V> -> V): seq<V> {
    if |arr| < n then arr + [pad(arr)] else arr
  }

  /** The padding pass: every array shorter than `n` gets `pad(array)`. */
  function PadRows<V>(t: Table<V>, n: nat, pad: seq<V> -> V): (r: Table<V>)
    ensures r.keys == t.keys && r.rows.Keys == t.rows.Keys
  {
    Table(t.keys, map k | k in t.rows :: PadOne(t.rows[k], n, pad))
  }

  lemma PushValid<V>(t: Table<V>, key: string, v: V)
    requires Valid(t)
    ensures Valid(Push(t, key, v))
  {
  }

  lemma {:induction false} PushAllValid<V>(t: Table<V>, es: seq<Entry>, f: (seq<V>, Entry) -> V)
    requires Valid(t)
    ensures Valid(PushAll(t, es, f))
  {
    if es != [] {
      var u := PushAll(t, es[..|es| - 1], f);
      PushAllValid(t, es[..|es| - 1], f);
      PushValid(u, es[|es| - 1].driver, f(Row(u, es[|es| - 1].driver), es[|es| - 1]));
    }
  }

  lemma PadRowsRow<V>(t: Table<V>, n: nat, pad: seq<V> -> V, k: string)
    requires k in t.rows
    ensures Row(PadRows(t, n, pad), k) == PadOne(Row(t, k), n, pad)
  {
  }

  method PushEach<V>(t: Table<V>, es: seq<Entry>, f: (seq<V>, Entry) -> V) returns (r: Table<V>)
    ensures r == PushAll(t, es, f)
  {
    r := t;
    for j := 0 to |es|
      invariant r == PushAll(t, es[..j], f)
    {
      assert es[..j + 1][..j] == es[..j];
      var e := es[j];
      r := Push(r, e.driver, f(Row(r, e.driver), e));
    }
    assert es[..|es|] == es;
  }

  /** `for (const [k, arr] of m.entries()) if (arr.length < n) arr.push(pad)`. */
  method PadShort<V>(t: Table<V>, n: nat, pad: seq<V> -> V) returns (r: Table<V>)
    requires Valid(t)
    ensures r == PadRows(t, n, pad)
  {
    var rows := t.rows;
    assert t.keys[..0] == [];
    for j := 0 to |t.keys|
      invariant PaddedUpTo(t, n, pad, rows, t.keys[..j])
    {
      var k := t.keys[j];
      PadStep(t, n, pad, rows, j);
      var arr := rows[k];
      if |arr| < n {
        rows := rows[k := arr + [pad(arr)]];
      } else {
        assert rows == rows[k := PadOne(arr, n, pad)];
      }
    }
    assert t.keys[..|t.keys|] == t.keys;
    PaddedAll(t, n, pad, rows);
    r := Table(t.keys, rows);
  }

  /** The arrays of the keys in `done` are padded, the others untouched. */
  ghost predicate PaddedUpTo<V>(t: Table<V>, n: nat, pad: seq<V> -> V, rows: map<string, seq<V>>, done: seq<string>) {
    && rows.Keys == t.rows.Keys
    && forall k :: k in t.rows ==> rows[k] == if k in done then PadOne(t.rows[k], n, pad) else t.rows[k]
  }

  /** Padding the next key's array extends the keys done by one. */
  lemma PadStep<V>(t: Table<V>, n: nat, pad: seq<V> -> V, rows: map<string, seq<V>>, j: nat)
    requires Valid(t) && j < |t.keys|
    requires PaddedUpTo(t, n, pad, rows, t.keys[..j])
    ensures t.keys[j] in rows && rows[t.keys[j]] == t.rows[t.keys[j]]
    ensures PaddedUpTo(t, n, pad, rows[t.keys[j] := PadOne(rows[t.keys[j]], n, pad)], t.keys[..j + 1])
  {
    var k := t.keys[j];
    assert t.keys[..j + 1] == t.keys[..j] + [k];
    assert k !in t.keys[..j];
  }

  /** Arrays padded key by key, once every key is done, are the padding
      pass. */
  lemma PaddedAll<V>(t: Table<V>, n: nat, pad: seq<V> -> V, rows: map<string, seq<V>>)
    requires Valid(t) && PaddedUpTo(t, n, pad, rows, t.keys)
    ensures Table(t.keys, rows) == PadRows(t, n, pad)
  {
    assert forall k :: k in t.rows ==> k in t.keys;
  }

  /** Every key's array extended by one value computed from the key. */
  function Extend<V>(t: Table<V>, value: string -> V): (r: Table<V>)
    ensures r.keys == t.keys && r.rows.Keys == t.rows.Keys
  {
    Table(t.keys, map k | k in t.rows :: t.rows[k] + [value(k)])
  }

  /** The arrays of the keys in `done` are extended, the others untouched. */
  ghost predicate ExtendedUpTo<V>(t: Table<V>, value: string -> V, rows: map<string, seq<V>>, done: seq<string>) {
    && rows.Keys == t.rows.Keys
    && forall k :: k in t.rows ==> rows[k] == if k in done then t.rows[k] + [value(k)] else t.rows[k]
  }

  /** Extending the next key's array extends the keys done by one. */
  lemma ExtendStep<V>(t: Table<V>, value: string -> V, rows: map<string, seq<V>>, j: nat, v: V)
    requires Valid(t) && j < |t.keys|
    requires ExtendedUpTo(t, value, rows, t.keys[..j]) && v == value(t.keys[j])
    ensures t.keys[j] in rows && rows[t.keys[j]] == t.rows[t.keys[j]]
    ensures ExtendedUpTo(t, value, rows[t.keys[j] := rows[t.keys[j]] + [v]], t.keys[..j + 1])
  {
    var k := t.keys[j];
    assert t.keys[..j + 1] == t.keys[..j] + [k];
    assert k !in t.keys[..j];
  }

  /** Arrays extended key by key, once every key is done, are `Extend`. */
  lemma ExtendedAll<V>(t: Table<V>, value: string -> V, rows: map<string, seq<V>>)
    requires Valid(t) && ExtendedUpTo(t, value, rows, t.keys)
    ensures Table(t.keys, rows) == Extend(t, value)
  {
    assert forall k :: k in t.rows ==> k in t.keys;
  }

  /** With each driver listed once, a driver's array grows by exactly one
      value (computed from the array before) when listed, and not at all
      otherwise. */
  lemma {:induction false} PushAllRow<V>(t: Table<V>, es: seq<Entry>, f: (seq<V>, Entry) -> V, d: string)
    requires NoDup(DriversOf(es))
    ensures FindDriver(es, d).Some? ==>
      Row(PushAll(t, es, f), d) == Row(t, d) + [f(Row(t, d), FindDriver(es, d).value)]
    ensures FindDriver(es, d).None? ==> Row(PushAll(t, es, f), d) == Row(t, d)
  {
    if es != [] {
      var init := es[..|es| - 1];
      var e := es[|es| - 1];
      assert DriversOf(init) == DriversOf(es)[..|es| - 1];
      PushAllRow(t, init, f, d);
      assert es == init + [e];
      FindDriverSnoc(init, e, d);
      if e.driver == d {
        forall k | 0 <= k < |init| ensures DriversOf(init)[k] != d {
          assert DriversOf(es)[k] != DriversOf(es)[|es| - 1];
        }
        ListedIffFound(init, d);
      }
    }
  }

  /** A key has an array after the pushes iff it had one before or some
      entry names it. */
  lemma {:induction false} PushAllKeys<V>(t: Table<V>, es: seq<Entry>, f: (seq<V>, Entry) -> V, d: string)
    ensures d in PushAll(t, es, f).rows <==> d in t.rows || d in DriversOf(es)
  {
    if es != [] {
      var init := es[..|es| - 1];
      assert DriversOf(es) == DriversOf(init) + [es[|es| - 1].driver];
      PushAllKeys(t, init, f, d);
    }
  }

  /** After pushing one round whose drivers are listed once, and padding
      to `n`, no array is longer than `n` when none was longer than n - 1. */
  lemma StepBound<V>(t: Table<V>, es: seq<Entry>, f: (seq<V>, Entry) -> V, n: nat, pad: seq<V> -> V)
    requires NoDup(DriversOf(es))
    requires forall d :: |Row(t, d)| < n
    ensures forall d :: |Row(PadRows(PushAll(t, es, f), n, pad), d)| <= n
  {
    forall d ensures |Row(PadRows(PushAll(t, es, f), n, pad), d)| <= n {
      PushAllRow(t, es, f, d);
      if d in PushAll(t, es, f).rows {
        PadRowsRow(PushAll(t, es, f), n, pad, d);
      }
    }
  }

  /** The value one round should add to a key's array: the pushed value
      when the round lists the key, the filler otherwise. */
  function Next<V>(row: seq<V>, es: seq<Entry>, f: (seq<V>, Entry) -> V, pad: seq<V> -> V, d: string): V {
    match FindDriver(es, d)
    case Some(e) => f(row, e)
    case None => pad(row)
  }

  /** One round (pushes, then padding to `n`) on a key that is known or
      listed and whose array holds one value per earlier round: the array
      gains exactly one value, the pushed one when listed and the filler
      otherwise. */
  lemma RoundRow<V>(t: Table<V>, es: seq<Entry>, f: (seq<V>, Entry) -> V, n: nat, pad: seq<V> -> V, d: string)
    requires NoDup(DriversOf(es)) && n >= 1 && |Row(t, d)| == n - 1
    requires d in t.rows || d in DriversOf(es)
    ensures Row(PadRows(PushAll(t, es, f), n, pad), d) == Row(t, d) + [Next(Row(t, d), es, f, pad, d)]
  {
    var u := PushAll(t, es, f);
    PushAllRow(t, es, f, d);
    PushAllKeys(t, es, f, d);
    ListedIffFound(es, d);
    PadRowsRow(u, n, pad, d);
  }

  /** A key first listed in a round after the first (`n >= 2`) gets its
      pushed value and then, since its array is still shorter than `n`,
      a filler computed from it: two values in a single round. */
  lemma LateRow<V>(t: Table<V>, es: seq<Entry>, f: (seq<V>, Entry) -> V, n: nat, pad: seq<V> -> V, d: string)
    requires NoDup(DriversOf(es)) && n >= 2 && d !in t.rows && FindDriver(es, d).Some?
    ensures Row(PadRows(PushAll(t, es, f), n, pad), d) ==
      [f([], FindDriver(es, d).value), pad([f([], FindDriver(es, d).value)])]
  {
    var u := PushAll(t, es, f);
    var x := f([], FindDriver(es, d).value);
    assert Row(u, d) == [x] by {
      PushAllRow(t, es, f, d);
      assert Row(t, d) == [];
    }
    assert d in u.rows by {
      PushAllKeys(t, es, f, d);
      ListedIffFound(es, d);
    }
    PadRowsRow(u, n, pad, d);
  }

  // ---------------------------------------------------------------------
  // The builders, round by round

  /** Each round lists a driver at most once. */
  predicate DistinctRounds<R>(rounds: seq<R>, es: R -> seq<Entry>) {
    forall i :: 0 <= i < |rounds| ==> NoDup(DriversOf(es(rounds[i])))
  }

  /** The map after the given rounds, as the hooks build it: round i
      pushes `f(round, i)` for each listed entry, then pads every array
      shorter than i + 1. */
  function Build<R, V>(rounds: seq<R>, es: R -> seq<Entry>, f: (R, nat) -> ((seq<V>, Entry) -> V),
                       pad: seq<V> -> V): (t: Table<V>)
    ensures Valid(t)
  {
    if rounds == [] then EmptyTable()
    else
      var n := |rounds|;
      var prior := Build(rounds[..n - 1], es, f, pad);
      PushAllValid(prior, es(rounds[n - 1]), f(rounds[n - 1], n - 1));
      PadRows(PushAll(prior, es(rounds[n - 1]), f(rounds[n - 1], n - 1)), n, pad)
  }

  lemma BuildStep<R, V>(rounds: seq<R>, es: R -> seq<Entry>, f: (R, nat) -> ((seq<V>, Entry) -> V),
                        pad: seq<V> -> V, n: nat)
    requires 1 <= n <= |rounds|
    ensures Build(rounds[..n], es, f, pad) ==
      PadRows(PushAll(Build(rounds[..n - 1], es, f, pad), es(rounds[n - 1]), f(rounds[n - 1], n - 1)), n, pad)
  {
    assert rounds[..n][..n - 1] == rounds[..n - 1];
  }

  /** The array a driver should have from round k on: one value per
      round, computed from the values before. */
  function Series<R, V>(rounds: seq<R>, es: R -> seq<Entry>, f: (R, nat) -> ((seq<V>, Entry) -> V),
                        pad: seq<V> -> V, d: string, k: nat): (s: seq<V>)
    requires k <= |rounds|
    ensures |s| == |rounds| - k
    decreases |rounds|
  {
    if |rounds| == k then []
    else
      var n := |rounds|;
      var prior := Series(rounds[..n - 1], es, f, pad, d, k);
      prior + [Next(prior, es(rounds[n - 1]), f(rounds[n - 1], n - 1), pad, d)]
  }

  /** A driver listed in the first round gets exactly one value per
      round: the builder's array is the series. */
  lemma {:induction false} BuildFromFirstRound<R, V>(rounds: seq<R>, es: R -> seq<Entry>,
      f: (R, nat) -> ((seq<V>, Entry) -> V), pad: seq<V> -> V, d: string)
    requires DistinctRounds(rounds, es) && rounds != [] && d in DriversOf(es(rounds[0]))
    ensures Row(Build(rounds, es, f, pad), d) == Series(rounds, es, f, pad, d, 0)
  {
    var n := |rounds|;
    var init := rounds[..n - 1];
    var t := Build(init, es, f, pad);
    if n > 1 {
      assert init[0] == rounds[0];
      BuildFromFirstRound(init, es, f, pad, d);
      assert d in t.rows;
    }
    RoundRow(t, es(rounds[n - 1]), f(rounds[n - 1], n - 1), n, pad, d);
  }

  /** Every array in the map has at most one value per round. */
  lemma {:induction false} BuildBounded<R, V>(rounds: seq<R>, es: R -> seq<Entry>,
      f: (R, nat) -> ((seq<V>, Entry) -> V), pad: seq<V> -> V)
    requires DistinctRounds(rounds, es)
    ensures forall d :: |Row(Build(rounds, es, f, pad), d)| <= |rounds|
  {
    if rounds != [] {
      var n := |rounds|;
      BuildBounded(rounds[..n - 1], es, f, pad);
      StepBound(Build(rounds[..n - 1], es, f, pad), es(rounds[n - 1]), f(rounds[n - 1], n - 1), n, pad);
    }
  }

  /** A key has an array iff some round lists it: the padding pass never
      creates one. */
  lemma {:induction false} BuildKeys<R, V>(rounds: seq<R>, es: R -> seq<Entry>,
      f: (R, nat) -> ((seq<V>, Entry) -> V), pad: seq<V> -> V, d: string)
    ensures d in Build(rounds, es, f, pad).rows <==> exists i :: 0 <= i < |rounds| && d in DriversOf(es(rounds[i]))
  {
    if rounds != [] {
      var n := |rounds|;
      var init := rounds[..n - 1];
      BuildKeys(init, es, f, pad, d);
      PushAllKeys(Build(init, es, f, pad), es(rounds[n - 1]), f(rounds[n - 1], n - 1), d);
      if exists i :: 0 <= i < n && d in DriversOf(es(rounds[i])) {
        var i :| 0 <= i < n && d in DriversOf(es(rounds[i]));
        if i < n - 1 {
          assert init[i] == rounds[i];
        }
      }
      if exists i :: 0 <= i < |init| && d in DriversOf(es(init[i])) {
        var i :| 0 <= i < |init| && d in DriversOf(es(init[i]));
        assert init[i] == rounds[i];
      }
    }
  }

  /** The index of the first round listing `d`, or the number of rounds
      when none does. */
  function FirstListed<R>(rounds: seq<R>, es: R -> seq<Entry>, d: string): (k: nat)
    ensures k <= |rounds|
  {
    if rounds == [] then 0
    else
      var n := |rounds|;
      var k := FirstListed(rounds[..n - 1], es, d);
      if k < n - 1 then k else if d in DriversOf(es(rounds[n - 1])) then n - 1 else n
  }

  lemma {:induction false} FirstListedSpec<R>(rounds: seq<R>, es: R -> seq<Entry>, d: string)
    ensures forall i :: 0 <= i < FirstListed(rounds, es, d) ==> d !in DriversOf(es(rounds[i]))
    ensures FirstListed(rounds, es, d) < |rounds| ==> d in DriversOf(es(rounds[FirstListed(rounds, es, d)]))
  {
    if rounds != [] {
      var n := |rounds|;
      var init := rounds[..n - 1];
      FirstListedSpec(init, es, d);
      assert forall i :: 0 <= i < n - 1 ==> init[i] == rounds[i];
    }
  }

  /** As built, a key first listed in a round k after the first gets two
      values in that round, its pushed value and a filler computed from
      it, so its array is already two long after round k. */
  lemma LateJoiner<R, V>(rounds: seq<R>, es: R -> seq<Entry>, f: (R, nat) -> ((seq<V>, Entry) -> V),
                         pad: seq<V> -> V, d: string)
    requires DistinctRounds(rounds, es)
    requires 1 <= FirstListed(rounds, es, d) < |rounds|
    ensures var k := FirstListed(rounds, es, d);
      FindDriver(es(rounds[k]), d).Some? &&
      var x := f(rounds[k], k)([], FindDriver(es(rounds[k]), d).value);
      Row(Build(rounds[..k + 1], es, f, pad), d) == [x, pad([x])]
  {
    var k := FirstListed(rounds, es, d);
    FirstListedSpec(rounds, es, d);
    ListedIffFound(es(rounds[k]), d);
    var prior := Build(rounds[..k], es, f, pad);
    assert d !in prior.rows by {
      BuildKeys(rounds[..k], es, f, pad, d);
      assert forall i :: 0 <= i < k ==> rounds[..k][i] == rounds[i];
    }
    BuildStep(rounds, es, f, pad, k + 1);
    assert rounds[..k + 1 - 1] == rounds[..k];
    LateRow(prior, es(rounds[k]), f(rounds[k], k), k + 1, pad, d);
  }

  /** The array a key would have after n rounds without being listed:
      n fillers, each computed from the ones before it. */
  function Fillers<V>(pad: seq<V> -> V, n: nat): (r: seq<V>)
    ensures |r| == n
  {
    if n == 0 then [] else Fillers(pad, n - 1) + [pad(Fillers(pad, n - 1))]
  }

  /** Give every listed key that has no array yet the array `lead`. */
  function Open<V>(t: Table<V>, es: seq<Entry>, lead: seq<V>): Table<V> {
    if es == [] then t
    else
      var u := Open(t, es[..|es| - 1], lead);
      var k := es[|es| - 1].driver;
      if k in u.rows then u else Table(u.keys + [k], u.rows[k := lead])
  }

  lemma {:induction false} OpenValid<V>(t: Table<V>, es: seq<Entry>, lead: seq<V>)
    requires Valid(t)
    ensures Valid(Open(t, es, lead))
  {
    if es != [] {
      OpenValid(t, es[..|es| - 1], lead);
    }
  }

  /** Opening keeps the arrays that exist, gives `lead` to the listed keys
      that have none, and creates nothing else. */
  lemma {:induction false} OpenRow<V>(t: Table<V>, es: seq<Entry>, lead: seq<V>, d: string)
    ensures d in Open(t, es, lead).rows <==> d in t.rows || d in DriversOf(es)
    ensures Row(Open(t, es, lead), d) == if d in t.rows then Row(t, d) else if d in DriversOf(es) then lead else []
  {
    if es != [] {
      var init := es[..|es| - 1];
      assert DriversOf(es) == DriversOf(init) + [es[|es| - 1].driver];
      OpenRow(t, init, lead, d);
    }
  }

  /** One corrected round n: a listed key without an array starts with
      n - 1 fillers, then the round's pushes and the padding pass run as
      written. */
  function IntendedRound<V>(t: Table<V>, es: seq<Entry>, f: (seq<V>, Entry) -> V, pad: seq<V> -> V, n: nat): (r: Table<V>)
    requires Valid(t) && n >= 1
    ensures Valid(r)
  {
    OpenValid(t, es, Fillers(pad, n - 1));
    PushAllValid(Open(t, es, Fillers(pad, n - 1)), es, f);
    PadRows(PushAll(Open(t, es, Fillers(pad, n - 1)), es, f), n, pad)
  }

  /** The corrected round on a key whose array, if any, holds one value
      per earlier round: a known or listed key gains exactly one value
      on top of its array (n - 1 fillers for a new key); any other key
      stays absent. */
  lemma IntendedRoundRow<V>(t: Table<V>, es: seq<Entry>, f: (seq<V>, Entry) -> V, pad: seq<V> -> V, n: nat, d: string)
    requires Valid(t) && NoDup(DriversOf(es)) && n >= 1
    requires d in t.rows ==> |Row(t, d)| == n - 1
    ensures d in IntendedRound(t, es, f, pad, n).rows <==> d in t.rows || d in DriversOf(es)
    ensures var base := if d in t.rows then Row(t, d) else Fillers(pad, n - 1);
      d in t.rows || d in DriversOf(es) ==>
        Row(IntendedRound(t, es, f, pad, n), d) == base + [Next(base, es, f, pad, d)]
  {
    var o := Open(t, es, Fillers(pad, n - 1));
    OpenRow(t, es, Fillers(pad, n - 1), d);
    PushAllKeys(o, es, f, d);
    if d in t.rows || d in DriversOf(es) {
      RoundRow(o, es, f, n, pad, d);
    }
  }

  /** The map the hooks evidently intend: as built, except that a key
      first listed in round k starts with k fillers, so that every array
      stays aligned with the round labels. */
  function IntendedBuild<R, V>(rounds: seq<R>, es: R -> seq<Entry>, f: (R, nat) -> ((seq<V>, Entry) -> V),
                               pad: seq<V> -> V): (t: Table<V>)
    ensures Valid(t)
  {
    if rounds == [] then EmptyTable()
    else
      var n := |rounds|;
      IntendedRound(IntendedBuild(rounds[..n - 1], es, f, pad), es(rounds[n - 1]), f(rounds[n - 1], n - 1), pad, n)
  }

  /** Corrected arrays are aligned with the rounds: a key has an array
      iff some round lists it, and then one value per round, from round
      0 on. */
  lemma {:induction false} IntendedAligned<R, V>(rounds: seq<R>, es: R -> seq<Entry>,
      f: (R, nat) -> ((seq<V>, Entry) -> V), pad: seq<V> -> V, d: string)
    requires DistinctRounds(rounds, es)
    ensures d in IntendedBuild(rounds, es, f, pad).rows <==> FirstListed(rounds, es, d) < |rounds|
    ensures d in IntendedBuild(rounds, es, f, pad).rows ==> |Row(IntendedBuild(rounds, es, f, pad), d)| == |rounds|
  {
    if rounds != [] {
      var n := |rounds|;
      IntendedAligned(rounds[..n - 1], es, f, pad, d);
      IntendedRoundRow(IntendedBuild(rounds[..n - 1], es, f, pad), es(rounds[n - 1]), f(rounds[n - 1], n - 1), pad, n, d);
    }
  }

  /** Corrected round: a known or listed key gains exactly one value, the
      pushed one when listed and the filler otherwise, on top of its
      array or, for a key first listed now, on top of one filler per
      earlier round; any other key stays absent. */
  lemma IntendedStep<R, V>(rounds: seq<R>, es: R -> seq<Entry>, f: (R, nat) -> ((seq<V>, Entry) -> V),
                           pad: seq<V> -> V, d: string)
    requires DistinctRounds(rounds, es) && rounds != []
    ensures var n := |rounds|; var prior := IntendedBuild(rounds[..n - 1], es, f, pad);
      var base := if d in prior.rows then Row(prior, d) else Fillers(pad, n - 1);
      d in prior.rows || d in DriversOf(es(rounds[n - 1])) ==>
        Row(IntendedBuild(rounds, es, f, pad), d) ==
          base + [Next(base, es(rounds[n - 1]), f(rounds[n - 1], n - 1), pad, d)]
    ensures var n := |rounds|; var prior := IntendedBuild(rounds[..n - 1], es, f, pad);
      d !in prior.rows && d !in DriversOf(es(rounds[n - 1])) ==> d !in IntendedBuild(rounds, es, f, pad).rows
  {
    var n := |rounds|;
    IntendedAligned(rounds[..n - 1], es, f, pad, d);
    IntendedRoundRow(IntendedBuild(rounds[..n - 1], es, f, pad), es(rounds[n - 1]), f(rounds[n - 1], n - 1), pad, n, d);
  }

  /** Before the first round listing a key, its series is all fillers. */
  lemma {:induction false} SeriesUnlisted<R, V>(rounds: seq<R>, es: R -> seq<Entry>,
      f: (R, nat) -> ((seq<V>, Entry) -> V), pad: seq<V> -> V, d: string)
    requires FirstListed(rounds, es, d) == |rounds|
    ensures Series(rounds, es, f, pad, d, 0) == Fillers(pad, |rounds|)
  {
    if rounds != [] {
      var n := |rounds|;
      SeriesUnlisted(rounds[..n - 1], es, f, pad, d);
      ListedIffFound(es(rounds[n - 1]), d);
    }
  }

  /** Corrected arrays hold, for every round from round 0, exactly the
      values the series prescribes, fillers included before the first
      round listing the key. */
  lemma {:induction false} IntendedSeries<R, V>(rounds: seq<R>, es: R -> seq<Entry>,
      f: (R, nat) -> ((seq<V>, Entry) -> V), pad: seq<V> -> V, d: string)
    requires DistinctRounds(rounds, es)
    ensures Row(IntendedBuild(rounds, es, f, pad), d) ==
      if FirstListed(rounds, es, d) < |rounds| then Series(rounds, es, f, pad, d, 0) else []
  {
    IntendedAligned(rounds, es, f, pad, d);
    if rounds != [] {
      var n := |rounds|;
      var init := rounds[..n - 1];
      IntendedSeries(init, es, f, pad, d);
      IntendedAligned(init, es, f, pad, d);
      IntendedStep(rounds, es, f, pad, d);
      if FirstListed(init, es, d) == n - 1 {
        SeriesUnlisted(init, es, f, pad, d);
      }
    }
  }

  /** For a key listed in the first round the correction changes nothing. */
  lemma IntendedAgrees<R, V>(rounds: seq<R>, es: R -> seq<Entry>,
      f: (R, nat) -> ((seq<V>, Entry) -> V), pad: seq<V> -> V, d: string)
    requires DistinctRounds(rounds, es) && rounds != [] && d in DriversOf(es(rounds[0]))
    ensures Row(IntendedBuild(rounds, es, f, pad), d) == Row(Build(rounds, es, f, pad), d)
  {
    FirstListedSpec(rounds, es, d);
    assert FirstListed(rounds, es, d) == 0;
    IntendedSeries(rounds, es, f, pad, d);
    BuildFromFirstRound(rounds, es, f, pad, d);
  }
}
