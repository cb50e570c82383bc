/**
  Maps of per-series values that are summed pointwise: the algebra of DELTA metrics.
 */
module Series {

  function MergeWith<K, V>(a: map<K, V>, b: map<K, V>, plus: (V, V) -> V): map<K, V> {
    map k | k in a.Keys + b.Keys ::
      if k in a && k in b then plus(a[k], b[k]) else if k in a then a[k] else b[k]
  }

  function PlusNat(a: nat, b: nat): nat {
    a + b
  }

  ghost predicate Associative<V(!new)>(plus: (V, V) -> V) {
    forall x, y, z :: plus(plus(x, y), z) == plus(x, plus(y, z))
  }

  lemma MergeAssociative<K, V(!new)>(a: map<K, V>, b: map<K, V>, c: map<K, V>, plus: (V, V) -> V)
    requires Associative(plus)
    ensures MergeWith(MergeWith(a, b, plus), c, plus) == MergeWith(a, MergeWith(b, c, plus), plus)
  {
    var left, right := MergeWith(MergeWith(a, b, plus), c, plus), MergeWith(a, MergeWith(b, c, plus), plus);
    forall k | k in left
      ensures left[k] == right[k]
    {
      if k in a && k in b && k in c {
        assert plus(plus(a[k], b[k]), c[k]) == plus(a[k], plus(b[k], c[k]));
      }
    }
  }

  lemma MergeEmpty<K, V>(a: map<K, V>, plus: (V, V) -> V)
    ensures MergeWith(a, map[], plus) == a && MergeWith(map[], a, plus) == a
  {
  }

  // One value added to one series.
  function Bump<K, V>(m: map<K, V>, k: K, v: V, plus: (V, V) -> V): map<K, V> {
    m[k := if k in m then plus(m[k], v) else v]
  }

  lemma MergeOne<K, V>(m: map<K, V>, k: K, v: V, plus: (V, V) -> V)
    ensures MergeWith(m, map[k := v], plus) == Bump(m, k, v, plus)
  {
  }

  /* ---------- totals over all series ---------- */

  ghost function PickAny<K>(s: set<K>): (k: K)
    requires s != {}
    ensures k in s
  {
    var k :| k in s; k
  }

  ghost function Total<K, V>(m: map<K, V>, f: V -> int): int {
    if m == map[] then 0
    else
      var k := PickAny(m.Keys);
      f(m[k]) + Total(m - {k}, f)
  }

  lemma {:induction false} TotalSplit<K, V>(m: map<K, V>, f: V -> int, k: K)
    requires k in m
    ensures Total(m, f) == f(m[k]) + Total(m - {k}, f)
    decreases |m|
  {
    var p := PickAny(m.Keys);
    if p != k {
      TotalSplit(m - {p}, f, k);
      TotalSplit(m - {k}, f, p);
      assert m - {p} - {k} == m - {k} - {p};
    }
  }

  lemma MergeWithout<K, V>(a: map<K, V>, b: map<K, V>, plus: (V, V) -> V, k: K)
    ensures MergeWith(a, b, plus) - {k} == MergeWith(a - {k}, b - {k}, plus)
  {
  }

  ghost predicate Additive<V(!new)>(plus: (V, V) -> V, f: V -> int) {
    forall x, y :: f(plus(x, y)) == f(x) + f(y)
  }

  lemma TotalAt<K, V>(m: map<K, V>, f: V -> int, k: K)
    ensures Total(m, f) == (if k in m then f(m[k]) else 0) + Total(m - {k}, f)
  {
    if k in m {
      TotalSplit(m, f, k);
    } else {
      assert m - {k} == m;
    }
  }

  /** A quantity that adds up value by value adds up over merged series. */
  lemma {:induction false} TotalMerge<K, V(!new)>(a: map<K, V>, b: map<K, V>, plus: (V, V) -> V, f: V -> int)
    requires Additive(plus, f)
    ensures Total(MergeWith(a, b, plus), f) == Total(a, f) + Total(b, f)
    decreases |b|
  {
    if b == map[] {
      MergeEmpty(a, plus);
    } else {
      var k := PickAny(b.Keys);
      TotalAt(a, f, k);
      TotalAt(b, f, k);
      TotalAt(MergeWith(a, b, plus), f, k);
      MergeWithout(a, b, plus, k);
      TotalMerge(a - {k}, b - {k}, plus, f);
    }
  }

  lemma TotalOne<K, V>(k: K, v: V, f: V -> int)
    ensures Total(map[k := v], f) == f(v)
  {
    TotalSplit(map[k := v], f, k);
    assert map[k := v] - {k} == map[];
  }

  lemma {:induction false} TotalNonNegative<K, V(!new)>(m: map<K, V>, f: V -> int)
    requires forall v :: f(v) >= 0
    ensures Total(m, f) >= 0
    decreases |m|
  {
    if m != map[] {
      TotalNonNegative(m - {PickAny(m.Keys)}, f);
    }
  }

  /* ---------- folding a list into a sum ---------- */

  function FoldWith<X, V>(xs: seq<X>, single: X -> V, plus: (V, V) -> V, zero: V): V {
    if xs == [] then zero else plus(FoldWith(xs[..|xs| - 1], single, plus, zero), single(xs[|xs| - 1]))
  }

  lemma {:induction false} FoldWithConcat<X, V(!new)>(a: seq<X>, b: seq<X>, single: X -> V, plus: (V, V) -> V, zero: V)
    requires Associative(plus) && forall v :: plus(v, zero) == v
    ensures FoldWith(a + b, single, plus, zero)
            == plus(FoldWith(a, single, plus, zero), FoldWith(b, single, plus, zero))
  {
    if b == [] {
      assert a + b == a;
    } else {
      var front, last := b[..|b| - 1], b[|b| - 1];
      FoldWithConcat(a, front, single, plus, zero);
      assert (a + b)[..|a + b| - 1] == a + front;
      var x, y := FoldWith(a, single, plus, zero), FoldWith(front, single, plus, zero);
      assert plus(plus(x, y), single(last)) == plus(x, plus(y, single(last)));
    }
  }

  ghost predicate Commutative<V(!new)>(plus: (V, V) -> V) {
    forall x, y :: plus(x, y) == plus(y, x)
  }

  lemma MergeCommutative<K, V(!new)>(a: map<K, V>, b: map<K, V>, plus: (V, V) -> V)
    requires Commutative(plus)
    ensures MergeWith(a, b, plus) == MergeWith(b, a, plus)
  {
    forall k | k in a && k in b
      ensures plus(a[k], b[k]) == plus(b[k], a[k])
    {
    }
  }

  // One element may be folded last instead of in the middle.
  lemma FoldMoveLast<X, V(!new)>(a: seq<X>, x: X, b: seq<X>, single: X -> V, plus: (V, V) -> V, zero: V)
    requires Associative(plus) && Commutative(plus) && forall v :: plus(v, zero) == v
    ensures FoldWith(a + [x] + b, single, plus, zero) == plus(FoldWith(a + b, single, plus, zero), single(x))
  {
    FoldWithConcat(a + [x], b, single, plus, zero);
    FoldWithConcat(a, b, single, plus, zero);
    assert (a + [x])[..|a|] == a;
    var p, q, r := FoldWith(a, single, plus, zero), single(x), FoldWith(b, single, plus, zero);
    assert plus(plus(p, q), r) == plus(p, plus(q, r));
    assert plus(q, r) == plus(r, q);
    assert plus(plus(p, r), q) == plus(p, plus(r, q));
  }

  lemma SplitAt<X>(ys: seq<X>, x: X) returns (a: seq<X>, b: seq<X>)
    requires x in ys
    ensures ys == a + [x] + b
  {
    var i :| 0 <= i < |ys| && ys[i] == x;
    a, b := ys[..i], ys[i + 1..];
  }

  lemma BagWithout<X>(front: seq<X>, x: X, a: seq<X>, b: seq<X>)
    requires multiset(front + [x]) == multiset(a + [x] + b)
    ensures multiset(front) == multiset(a + b)
  {
    assert multiset(a + b) == multiset(a + [x] + b) - multiset{x};
    assert multiset(front) == multiset(front + [x]) - multiset{x};
  }

  /** The order of a list does not matter to a sum. */
  lemma {:induction false} FoldPermutation<X, V(!new)>(xs: seq<X>, ys: seq<X>, single: X -> V,
                                                       plus: (V, V) -> V, zero: V)
    requires multiset(xs) == multiset(ys)
    requires Associative(plus) && Commutative(plus) && forall v :: plus(v, zero) == v
    ensures FoldWith(xs, single, plus, zero) == FoldWith(ys, single, plus, zero)
  {
    if xs == [] {
      assert |multiset(ys)| == |ys|;
    } else {
      var front, last := xs[..|xs| - 1], xs[|xs| - 1];
      assert xs == front + [last];
      assert last in multiset(ys);
      var a, b := SplitAt(ys, last);
      BagWithout(front, last, a, b);
      FoldPermutation(front, a + b, single, plus, zero);
      FoldMoveLast(a, last, b, single, plus, zero);
    }
  }
}
