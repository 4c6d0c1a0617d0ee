/** Sequence helpers shared by the model: first-appearance deduplication
    (what a JavaScript `Set` keeps, in insertion order), counting and sums. */
module Seqs {

  /** No element occurs twice. */
  predicate NoDup<T(==)>(s: seq<T>) {
    forall i, j :: 0 <= i < j < |s| ==> s[i] != s[j]
  }

  /** Index of the first occurrence of `x` (`Array.prototype.indexOf`). */
  function IndexOf<T(==)>(s: seq<T>, x: T): (k: nat)
    requires x in s
    ensures k < |s| && s[k] == x
    ensures forall j :: 0 <= j < k ==> s[j] != x
  {
    if s[0] == x then 0 else 1 + IndexOf(s[1..], x)
  }

  /** The elements of `s` once each, in order of first appearance: what
      `[...new Set(s)]` or a `Set` filled by a loop over `s` holds. */
  function Distinct<T(==)>(s: seq<T>): (r: seq<T>)
  {
    if s == [] then []
    else
      var p := Distinct(s[..|s| - 1]);
      if s[|s| - 1] in p then p else p + [s[|s| - 1]]
  }

  /** `Distinct` keeps exactly the elements of its input, each once. */
  lemma {:induction false} DistinctContents<T>(s: seq<T>)
    ensures forall k :: 0 <= k < |Distinct(s)| ==> Distinct(s)[k] in s
    ensures forall k :: 0 <= k < |s| ==> s[k] in Distinct(s)
    ensures NoDup(Distinct(s))
  {
    if s != [] {
      var init := s[..|s| - 1];
      DistinctContents(init);
      assert forall k :: 0 <= k < |init| ==> init[k] == s[k];
    }
  }

  /** `Distinct` lists elements in the order of their first occurrence in
      the input. */
  lemma {:induction false} DistinctOrder<T>(s: seq<T>, i: nat, j: nat)
    requires i < j < |Distinct(s)|
    ensures Distinct(s)[i] in s && Distinct(s)[j] in s
    ensures IndexOf(s, Distinct(s)[i]) < IndexOf(s, Distinct(s)[j])
  {
    DistinctContents(s);
    var a, b := Distinct(s)[i], Distinct(s)[j];
    assert a in Distinct(s) && b in Distinct(s);
    assert a in s && b in s;
    var init := s[..|s| - 1];
    var last := s[|s| - 1];
    var p := Distinct(init);
    DistinctContents(init);
    PrefixIndexOf(s, Distinct(s)[i]);
    PrefixIndexOf(s, Distinct(s)[j]);
    if j < |p| {
      DistinctOrder(init, i, j);
    } else {
      assert Distinct(s)[j] == last && last !in init;
      assert Distinct(s)[i] == p[i] && p[i] in init;
    }
  }

  /** An element of a prefix has the same index in the whole sequence. */
  lemma IndexOfInPrefix<T>(p: seq<T>, s: seq<T>, x: T)
    requires p <= s && x in p
    ensures x in s && IndexOf(p, x) == IndexOf(s, x)
  {
    var k := IndexOf(p, x);
    assert s[k] == x;
    var m := IndexOf(s, x);
    assert m < |p| ==> p[m] == s[m];
  }

  /** Index lookups of elements of a prefix agree with the whole sequence. */
  lemma PrefixIndexOf<T>(s: seq<T>, x: T)
    requires s != [] && x in s
    ensures x in s[..|s| - 1] ==> IndexOf(s[..|s| - 1], x) == IndexOf(s, x)
    ensures x !in s[..|s| - 1] ==> IndexOf(s, x) == |s| - 1
  {
    var init := s[..|s| - 1];
    var m := IndexOf(s, x);
    if x in init {
      var k := IndexOf(init, x);
      assert s[k] == x;
      assert init[m] == s[m];
    }
  }

  /** `xs.forEach(x => set.add(x))` on a `Set` that lists `seen` in
      insertion order: new elements go to the back, known ones stay put. */
  function AddAll<T(==)>(seen: seq<T>, xs: seq<T>): (r: seq<T>)
    ensures seen <= r
  {
    if xs == [] then seen
    else
      var p := AddAll(seen, xs[..|xs| - 1]);
      if xs[|xs| - 1] in p then p else p + [xs[|xs| - 1]]
  }

  /** The set afterwards holds what it held and what was added, each once. */
  lemma {:induction false} AddAllContents<T>(seen: seq<T>, xs: seq<T>)
    ensures forall x :: x in AddAll(seen, xs) <==> x in seen || x in xs
    ensures NoDup(seen) ==> NoDup(AddAll(seen, xs))
  {
    if xs != [] {
      var init := xs[..|xs| - 1];
      AddAllContents(seen, init);
      assert xs == init + [xs[|xs| - 1]];
    }
  }

  /** Adding two lists in turn is adding their concatenation. */
  lemma {:induction false} AddAllConcat<T>(seen: seq<T>, a: seq<T>, b: seq<T>)
    ensures AddAll(seen, a + b) == AddAll(AddAll(seen, a), b)
  {
    if b == [] {
      assert a + b == a;
    } else {
      var init := b[..|b| - 1];
      AddAllConcat(seen, a, init);
      assert (a + b)[..|a + b| - 1] == a + init;
      assert (a + b)[|a + b| - 1] == b[|b| - 1];
    }
  }

  /** Adding the distinct elements of a list adds the list. */
  lemma {:induction false} AddAllDistinct<T>(seen: seq<T>, xs: seq<T>)
    ensures AddAll(seen, AddAll([], xs)) == AddAll(seen, xs)
  {
    if xs != [] {
      var init, x := xs[..|xs| - 1], xs[|xs| - 1];
      var p := AddAll([], init);
      AddAllDistinct(seen, init);
      AddAllContents([], init);
      AddAllContents(seen, init);
      if x !in p {
        assert (p + [x])[..|p|] == p;
      }
    }
  }

  /** `Distinct` is a `Set` filled from empty. */
  lemma {:induction false} DistinctIsAddAll<T>(xs: seq<T>)
    ensures Distinct(xs) == AddAll([], xs)
  {
    if xs != [] {
      DistinctIsAddAll(xs[..|xs| - 1]);
    }
  }

  /** Number of occurrences of `x`. */
  function Count<T(==)>(s: seq<T>, x: T): (n: nat)
    ensures n <= |s|
    ensures n == 0 <==> x !in s
  {
    if s == [] then 0
    else Count(s[..|s| - 1], x) + (if s[|s| - 1] == x then 1 else 0)
  }

  /** The elements satisfying `p`, in order (`Array.prototype.filter`). */
  function Filter<T>(s: seq<T>, p: T -> bool): (r: seq<T>)
    ensures |r| <= |s|
    ensures forall i :: 0 <= i < |r| ==> p(r[i]) && r[i] in s
    ensures forall i :: 0 <= i < |s| && p(s[i]) ==> s[i] in r
  {
    if s == [] then []
    else
      var init := Filter(s[..|s| - 1], p);
      assert forall i :: 0 <= i < |s| - 1 ==> s[i] == s[..|s| - 1][i];
      if p(s[|s| - 1]) then init + [s[|s| - 1]] else init
  }

  /** Filtering a concatenation filters each part. */
  lemma {:induction false} FilterConcat<T>(a: seq<T>, b: seq<T>, p: T -> bool)
    ensures Filter(a + b, p) == Filter(a, p) + Filter(b, p)
  {
    if b == [] {
      assert a + b == a;
    } else {
      var init := b[..|b| - 1];
      FilterConcat(a, init, p);
      assert (a + b)[..|a + b| - 1] == a + init;
    }
  }

  /** Filtering keeps a sequence whose every element passes. */
  lemma {:induction false} FilterKeepsAll<T>(s: seq<T>, p: T -> bool)
    requires forall i :: 0 <= i < |s| ==> p(s[i])
    ensures Filter(s, p) == s
  {
    if s != [] {
      FilterKeepsAll(s[..|s| - 1], p);
    }
  }

  /** Filtering a sequence without repeats leaves none. */
  lemma {:induction false} FilterNoDup<T>(s: seq<T>, p: T -> bool)
    requires NoDup(s)
    ensures NoDup(Filter(s, p))
  {
    if s != [] {
      var init := s[..|s| - 1];
      FilterNoDup(init, p);
      assert s[|s| - 1] !in init;
    }
  }

  /** The first `n` elements, or all of them when there are fewer
      (`Array.prototype.slice(0, n)`). */
  function Take<T>(s: seq<T>, n: nat): (r: seq<T>)
    ensures |r| == if |s| < n then |s| else n
    ensures r <= s
  {
    if |s| <= n then s else s[..n]
  }

  /** Sum of a sequence of integers (`reduce((a, b) => a + b, 0)`). */
  function Sum(s: seq<int>): int {
    if s == [] then 0 else Sum(s[..|s| - 1]) + s[|s| - 1]
  }

  /** Running totals: entry i is the sum of the first i + 1 values. */
  function RunningSums(xs: seq<int>): (r: seq<int>)
    ensures |r| == |xs|
  {
    if xs == [] then []
    else
      var prior := RunningSums(xs[..|xs| - 1]);
      prior + [(if prior == [] then 0 else prior[|prior| - 1]) + xs[|xs| - 1]]
  }

  /** Entry 0 is the first value; entry i adds value i to entry i - 1. */
  lemma {:induction false} RunningSumsStep(xs: seq<int>)
    ensures xs != [] ==> RunningSums(xs)[0] == xs[0]
    ensures forall i :: 0 < i < |xs| ==> RunningSums(xs)[i] == RunningSums(xs)[i - 1] + xs[i]
  {
    if xs != [] {
      var init := xs[..|xs| - 1];
      RunningSumsStep(init);
      var r := RunningSums(xs);
      assert r[..|init|] == RunningSums(init);
      assert forall i :: 0 <= i < |init| ==> r[i] == RunningSums(init)[i] && init[i] == xs[i];
    }
  }

  /** Entry i of the running totals is the sum of the first i + 1 values. */
  lemma {:induction false} RunningSumsAreSums(xs: seq<int>)
    ensures forall i :: 0 <= i < |xs| ==> RunningSums(xs)[i] == Sum(xs[..i + 1])
  {
    RunningSumsStep(xs);
    forall i | 0 <= i < |xs| ensures RunningSums(xs)[i] == Sum(xs[..i + 1]) {
      var k := 0;
      assert xs[..1][..0] == [];
      while k < i
        invariant k <= i && RunningSums(xs)[k] == Sum(xs[..k + 1])
      {
        k := k + 1;
        assert xs[..k + 1][..k] == xs[..k];
      }
    }
  }

  /** Running totals of non-negative values never go down. */
  lemma RunningSumsMonotone(xs: seq<int>)
    requires forall i :: 0 <= i < |xs| ==> xs[i] >= 0
    ensures forall i, j :: 0 <= i <= j < |xs| ==> RunningSums(xs)[i] <= RunningSums(xs)[j]
  {
    var r := RunningSums(xs);
    RunningSumsStep(xs);
    forall i, j | 0 <= i <= j < |xs| ensures r[i] <= r[j] {
      var k := i;
      while k < j
        invariant i <= k <= j && r[i] <= r[k]
      {
        k := k + 1;
      }
    }
  }

  /** Sum of a sequence of reals. */
  function RSum(s: seq<real>): real {
    if s == [] then 0.0 else RSum(s[..|s| - 1]) + s[|s| - 1]
  }

  /** Smallest element (`Math.min(...s)` on a non-empty list). */
  function RMin(s: seq<real>): (m: real)
    requires s != []
    ensures m in s
    ensures forall k :: 0 <= k < |s| ==> m <= s[k]
  {
    if |s| == 1 then s[0]
    else
      var p := RMin(s[..|s| - 1]);
      assert forall k :: 0 <= k < |s| - 1 ==> s[..|s| - 1][k] == s[k];
      if s[|s| - 1] < p then s[|s| - 1] else p
  }

  /** Largest element (`Math.max(...s)` on a non-empty list). */
  function RMax(s: seq<real>): (m: real)
    requires s != []
    ensures m in s
    ensures forall k :: 0 <= k < |s| ==> s[k] <= m
  {
    if |s| == 1 then s[0]
    else
      var p := RMax(s[..|s| - 1]);
      assert forall k :: 0 <= k < |s| - 1 ==> s[..|s| - 1][k] == s[k];
      if s[|s| - 1] > p then s[|s| - 1] else p
  }

  /** A lower bound on every element bounds the sum from below. */
  lemma {:induction false} SumAtLeast(s: seq<real>, m: real)
    requires forall k :: 0 <= k < |s| ==> m <= s[k]
    ensures |s| as real * m <= RSum(s)
  {
    if s != [] {
      var init := s[..|s| - 1];
      SumAtLeast(init, m);
      assert |s| as real * m == |init| as real * m + m;
    }
  }

  /** An upper bound on every element bounds the sum from above. */
  lemma {:induction false} SumAtMost(s: seq<real>, m: real)
    requires forall k :: 0 <= k < |s| ==> s[k] <= m
    ensures RSum(s) <= |s| as real * m
  {
    if s != [] {
      var init := s[..|s| - 1];
      SumAtMost(init, m);
      assert |s| as real * m == |init| as real * m + m;
    }
  }

  /** The mean of a non-empty list is at least its minimum. */
  lemma {:induction false} MeanAtLeastMin(s: seq<real>)
    requires s != []
    ensures RMin(s) <= RSum(s) / |s| as real
  {
    SumAtLeast(s, RMin(s));
    DivideBound(RMin(s), RSum(s), |s| as real);
  }

  /** The mean of a non-empty list is at most its maximum. */
  lemma {:induction false} MeanAtMostMax(s: seq<real>)
    requires s != []
    ensures RSum(s) / |s| as real <= RMax(s)
  {
    SumAtMost(s, RMax(s));
    DivideBound(-RMax(s), -RSum(s), |s| as real);
  }

  lemma DivideBound(m: real, total: real, n: real)
    requires n > 0.0 && n * m <= total
    ensures m <= total / n
    ensures -total / n == -(total / n)
  {
  }
}
