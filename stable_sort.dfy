/** A stable sort, as `Array.prototype.sort` is required to be. The
    comparator is given as `before(a, b)`: "`a` goes strictly before `b`"
    (the comparator returns a negative number). Elements that neither goes
    before keep their input order. */
module StableSort {
  import opened Seqs

  /** The comparators the source uses (by a numeric key, by a string) are
      strict weak orders: asymmetric, and if `a` goes before `c` then any
      `b` goes after `a` or before `c`. */
  ghost predicate StrictWeakOrder<T(!new)>(before: (T, T) -> bool) {
    && (forall a, b :: before(a, b) ==> !before(b, a))
    && (forall a, b, c :: before(a, c) ==> before(a, b) || before(b, c))
  }

  /** No element goes before an element listed ahead of it. */
  ghost predicate SortedBy<T>(r: seq<T>, before: (T, T) -> bool) {
    forall i, j :: 0 <= i < j < |r| ==> !before(r[j], r[i])
  }

  /** Where `x` is inserted: ahead of the first element it goes before,
      hence after every element it does not go before. */
  function InsertPoint<T>(s: seq<T>, x: T, before: (T, T) -> bool): (p: nat)
    ensures p <= |s|
    ensures forall i :: 0 <= i < p ==> !before(x, s[i])
    ensures p < |s| ==> before(x, s[p])
  {
    if s == [] || before(x, s[0]) then 0
    else
      var p := 1 + InsertPoint(s[1..], x, before);
      assert forall i :: 1 <= i < |s| ==> s[i] == s[1..][i - 1];
      p
  }

  /** `x` placed at its insertion point. */
  function Insert<T>(s: seq<T>, x: T, before: (T, T) -> bool): (r: seq<T>)
    ensures |r| == |s| + 1
  {
    var p := InsertPoint(s, x, before);
    s[..p] + [x] + s[p..]
  }

  /** Insertion sort, adding the input's elements in order. */
  function Sort<T>(s: seq<T>, before: (T, T) -> bool): (r: seq<T>)
    ensures |r| == |s|
  {
    if s == [] then []
    else
      Insert(Sort(s[..|s| - 1], before), s[|s| - 1], before)
  }

  /** Sorting permutes its input. */
  lemma {:induction false} SortPermutes<T>(s: seq<T>, before: (T, T) -> bool)
    ensures multiset(Sort(s, before)) == multiset(s)
  {
    if s != [] {
      var init, x := s[..|s| - 1], s[|s| - 1];
      var q := Sort(init, before);
      SortPermutes(init, before);
      InsertPermutes(q, x, before);
      assert s == init + [x];
    }
  }

  /** Inserting adds exactly the one element. */
  lemma InsertPermutes<T>(s: seq<T>, x: T, before: (T, T) -> bool)
    ensures multiset(Insert(s, x, before)) == multiset(s) + multiset{x}
  {
    var p := InsertPoint(s, x, before);
    assert s == s[..p] + s[p..];
    calc {
      multiset(Insert(s, x, before));
      multiset(s[..p] + [x] + s[p..]);
      multiset(s[..p]) + multiset{x} + multiset(s[p..]);
    }
  }

  lemma GoesBeforeLater<T(!new)>(before: (T, T) -> bool, a: T, b: T, c: T)
    requires StrictWeakOrder(before)
    requires before(a, c) && !before(b, c)
    ensures before(a, b)
  {
  }

  lemma InOrder<T(!new)>(before: (T, T) -> bool, a: T, b: T, c: T)
    requires StrictWeakOrder(before)
    requires before(a, b) && before(b, c)
    ensures before(a, c)
  {
    assert before(a, c) || before(c, b);
  }

  /** Inserting into a sorted list keeps it sorted. */
  lemma InsertSorted<T(!new)>(s: seq<T>, x: T, before: (T, T) -> bool)
    requires StrictWeakOrder(before) && SortedBy(s, before)
    ensures SortedBy(Insert(s, x, before), before)
  {
    var p := InsertPoint(s, x, before);
    var r := Insert(s, x, before);
    forall i, j | 0 <= i < j < |r|
      ensures !before(r[j], r[i])
    {
      if i < p && j == p {
        assert r[i] == s[i] && r[j] == x;
      } else if i == p && p < j {
        assert r[i] == x && r[j] == s[j - 1];
        if before(s[j - 1], x) {
          InOrder(before, s[j - 1], x, s[p]);
        }
      } else if i < p && p < j {
        assert r[i] == s[i] && r[j] == s[j - 1];
      } else if j < p {
        assert r[i] == s[i] && r[j] == s[j];
      } else {
        assert r[i] == s[i - 1] && r[j] == s[j - 1];
      }
    }
  }

  /** The sort's result is ordered by the comparator. */
  lemma {:induction false} SortSorted<T(!new)>(s: seq<T>, before: (T, T) -> bool)
    requires StrictWeakOrder(before)
    ensures SortedBy(Sort(s, before), before)
  {
    if s != [] {
      SortSorted(s[..|s| - 1], before);
      InsertSorted(Sort(s[..|s| - 1], before), s[|s| - 1], before);
    }
  }

  /** Elements that neither goes before keep the order they have in the
      input (stated for inputs without repeated elements). */
  ghost predicate StableAgainst<T(!new)>(s: seq<T>, r: seq<T>, before: (T, T) -> bool)
  {
    forall i, j :: 0 <= i < j < |r| && r[i] in s && r[j] in s && !before(r[i], r[j]) ==>
      IndexOf(s, r[i]) < IndexOf(s, r[j])
  }

  lemma {:induction false} SortStable<T(!new)>(s: seq<T>, before: (T, T) -> bool)
    requires StrictWeakOrder(before) && NoDup(s)
    ensures StableAgainst(s, Sort(s, before), before)
  {
    if s != [] {
      var init, x := s[..|s| - 1], s[|s| - 1];
      var q := Sort(init, before);
      assert NoDup(init);
      SortStable(init, before);
      SortSorted(init, before);
      SortPermutes(init, before);
      forall k | 0 <= k < |q|
        ensures q[k] in init && IndexOf(s, q[k]) == IndexOf(init, q[k]) < |s| - 1
      {
        assert q[k] in multiset(init);
        PrefixIndexOf(s, q[k]);
      }
      assert x !in init;
      PrefixIndexOf(s, x);
      var p := InsertPoint(q, x, before);
      InsertStable(s, q, x, p, before);
    }
  }

  /** The induction step of `SortStable`: the newly inserted element is the
      input's last, and lands after every element it does not go before. */
  lemma InsertStable<T(!new)>(s: seq<T>, q: seq<T>, x: T, p: nat, before: (T, T) -> bool)
    requires StrictWeakOrder(before) && SortedBy(q, before)
    requires s != [] && x == s[|s| - 1] && IndexOf(s, x) == |s| - 1
    requires StableAgainst(s[..|s| - 1], q, before)
    requires forall k :: 0 <= k < |q| ==>
      q[k] in s[..|s| - 1] && IndexOf(s, q[k]) == IndexOf(s[..|s| - 1], q[k]) < |s| - 1
    requires p <= |q|
    requires p < |q| ==> before(x, q[p])
    ensures StableAgainst(s, q[..p] + [x] + q[p..], before)
  {
    var r := q[..p] + [x] + q[p..];
    forall k | p < k < |r|
      ensures r[k] == q[k - 1] && before(x, r[k])
    {
      if k - 1 > p {
        GoesBeforeLater(before, x, q[k - 1], q[p]);
      }
    }
    forall i, j | 0 <= i < j < |r| && r[i] in s && r[j] in s && !before(r[i], r[j])
      ensures IndexOf(s, r[i]) < IndexOf(s, r[j])
    {
      if j < p {
        assert r[i] == q[i] && r[j] == q[j];
      } else if j == p {
        assert r[i] == q[i] && r[j] == x;
      } else if i < p {
        assert r[i] == q[i] && r[j] == q[j - 1];
      } else {
        assert r[i] == q[i - 1] && r[j] == q[j - 1];
      }
    }
  }

  /** Sorting a list without repeats gives a list without repeats. */
  lemma {:induction false} SortNoDup<T>(s: seq<T>, before: (T, T) -> bool)
    requires NoDup(s)
    ensures NoDup(Sort(s, before))
  {
    if s != [] {
      var init, x := s[..|s| - 1], s[|s| - 1];
      var q := Sort(init, before);
      assert NoDup(init);
      SortNoDup(init, before);
      SortPermutes(init, before);
      assert x !in multiset(q) by { assert x !in init; }
      var p := InsertPoint(q, x, before);
      var r := q[..p] + [x] + q[p..];
      forall i, j | 0 <= i < j < |r|
        ensures r[i] != r[j]
      {
        if j < p || i > p {
        } else if i == p || j == p {
          assert r[i] in q || r[j] in q;
        }
      }
    }
  }

  /** Where two distinct elements land after sorting: `a` is ahead of `b`
      exactly when `a` goes before `b`, or neither goes before the other
      and `a` came first in the input. */
  lemma SortedOrder<T(!new)>(s: seq<T>, before: (T, T) -> bool, a: T, b: T)
    requires StrictWeakOrder(before) && NoDup(s)
    requires a in s && b in s && a != b
    ensures a in Sort(s, before) && b in Sort(s, before)
    ensures IndexOf(Sort(s, before), a) < IndexOf(Sort(s, before), b) <==>
      before(a, b) || (!before(b, a) && IndexOf(s, a) < IndexOf(s, b))
  {
    var r := Sort(s, before);
    SortPermutes(s, before);
    assert a in multiset(r) && b in multiset(r);
    SortSorted(s, before);
    SortStable(s, before);
    var i, j := IndexOf(r, a), IndexOf(r, b);
    assert r[i] == a && r[j] == b;
    if i < j {
      assert !before(b, a);
      assert !before(a, b) ==> IndexOf(s, a) < IndexOf(s, b);
    } else {
      assert j < i;
      assert !before(a, b);
      assert !before(b, a) ==> IndexOf(s, b) < IndexOf(s, a);
    }
  }

  /** `sort(...).slice(0, n)`: the kept elements come from the input in
      sorted order, and no element left out goes before a kept one. */
  lemma TopOfSort<T(!new)>(s: seq<T>, before: (T, T) -> bool, n: nat)
    requires StrictWeakOrder(before)
    ensures multiset(Take(Sort(s, before), n)) <= multiset(s)
    ensures forall y :: y in Take(Sort(s, before), n) ==> y in s
    ensures SortedBy(Take(Sort(s, before), n), before)
    ensures forall x, y :: x in s && x !in Take(Sort(s, before), n) && y in Take(Sort(s, before), n) ==> !before(x, y)
  {
    SortPermutes(s, before);
    SortSorted(s, before);
    PrefixOfSorted(s, Sort(s, before), Take(Sort(s, before), n), before);
  }

  /** A prefix of a sorted permutation of `s`. */
  lemma PrefixOfSorted<T(!new)>(s: seq<T>, r: seq<T>, t: seq<T>, before: (T, T) -> bool)
    requires multiset(r) == multiset(s) && SortedBy(r, before) && t <= r
    ensures multiset(t) <= multiset(s)
    ensures forall y :: y in t ==> y in s
    ensures SortedBy(t, before)
    ensures forall x, y :: x in s && x !in t && y in t ==> !before(x, y)
  {
    assert r == t + r[|t|..];
    assert multiset(r) == multiset(t) + multiset(r[|t|..]);
    forall y | y in t ensures y in s {
      assert y in multiset(t);
      assert y in multiset(s);
    }
    forall x, y | x in s && x !in t && y in t ensures !before(x, y) {
      assert x in multiset(r);
      var j := IndexOf(r, x);
      var i := IndexOf(t, y);
      assert r[i] == y && j >= |t|;
    }
  }

  /** Comparator `(a, b) => key(b) - key(a)`: larger keys first. */
  function ByKeyDesc<T>(key: T -> real): (T, T) -> bool {
    (a: T, b: T) => key(a) > key(b)
  }

  /** Comparator `(a, b) => key(a) - key(b)`: smaller keys first. */
  function ByKeyAsc<T>(key: T -> real): (T, T) -> bool {
    (a: T, b: T) => key(a) < key(b)
  }

  lemma KeyOrders<T(!new)>(key: T -> real)
    ensures StrictWeakOrder(ByKeyDesc(key))
    ensures StrictWeakOrder(ByKeyAsc(key))
  {
  }
}
