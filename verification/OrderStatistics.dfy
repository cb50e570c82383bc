/**
  Sorting as a reference for order statistics, and how ranks are read off counts.
 */
module OrderStatistics {

  ghost predicate Ascending(s: seq<real>) {
    forall i, j :: 0 <= i <= j < |s| ==> s[i] <= s[j]
  }

  function Insert(x: real, s: seq<real>): (t: seq<real>)
    ensures |t| == |s| + 1
  {
    if s == [] then [x]
    else if s[|s| - 1] <= x then s + [x]
    else Insert(x, s[..|s| - 1]) + [s[|s| - 1]]
  }

  function Sorted(xs: seq<real>): (s: seq<real>)
    ensures |s| == |xs|
  {
    if xs == [] then [] else Insert(xs[|xs| - 1], Sorted(xs[..|xs| - 1]))
  }

  function CountAtMost(xs: seq<real>, v: real): nat {
    if xs == [] then 0
    else CountAtMost(xs[..|xs| - 1], v) + if xs[|xs| - 1] <= v then 1 else 0
  }

  lemma {:induction false} InsertContents(x: real, s: seq<real>)
    ensures multiset(Insert(x, s)) == multiset(s) + multiset{x}
  {
    if s != [] && s[|s| - 1] > x {
      InsertContents(x, s[..|s| - 1]);
      assert s == s[..|s| - 1] + [s[|s| - 1]];
    }
  }

  lemma {:induction false} InsertAtMost(x: real, s: seq<real>, bound: real)
    requires x <= bound && forall i :: 0 <= i < |s| ==> s[i] <= bound
    ensures forall i :: 0 <= i < |Insert(x, s)| ==> Insert(x, s)[i] <= bound
  {
    if s != [] && s[|s| - 1] > x {
      InsertAtMost(x, s[..|s| - 1], bound);
    }
  }

  lemma {:induction false} InsertAscending(x: real, s: seq<real>)
    requires Ascending(s)
    ensures Ascending(Insert(x, s))
  {
    if s != [] && s[|s| - 1] > x {
      InsertAscending(x, s[..|s| - 1]);
      InsertAtMost(x, s[..|s| - 1], s[|s| - 1]);
    }
  }

  lemma {:induction false} SortedSpec(xs: seq<real>)
    ensures Ascending(Sorted(xs)) && multiset(Sorted(xs)) == multiset(xs)
  {
    if xs != [] {
      var front, last := xs[..|xs| - 1], xs[|xs| - 1];
      SortedSpec(front);
      InsertContents(last, Sorted(front));
      InsertAscending(last, Sorted(front));
      assert xs == front + [last];
    }
  }

  lemma LastIsGreatest(s: seq<real>, x: real)
    requires Ascending(s) && x in multiset(s)
    ensures s != [] && x <= s[|s| - 1]
  {
    assert x in s;
  }

  lemma MultisetOfFront(s: seq<real>)
    requires s != []
    ensures multiset(s[..|s| - 1]) == multiset(s) - multiset{s[|s| - 1]}
  {
    assert s == s[..|s| - 1] + [s[|s| - 1]];
  }

  lemma SameLength(s: seq<real>, t: seq<real>)
    requires multiset(s) == multiset(t)
    ensures |s| == |t|
  {
    assert |multiset(s)| == |s| && |multiset(t)| == |t|;
  }

  lemma SameLast(s: seq<real>, t: seq<real>)
    requires Ascending(s) && Ascending(t) && multiset(s) == multiset(t) && s != [] && t != []
    ensures s[|s| - 1] == t[|t| - 1]
  {
    var x, y := s[|s| - 1], t[|t| - 1];
    assert x in multiset(s) && y in multiset(t);
    LastIsGreatest(t, x);
    LastIsGreatest(s, y);
  }

  lemma SameFront(s: seq<real>, t: seq<real>)
    requires multiset(s) == multiset(t) && s != [] && t != [] && s[|s| - 1] == t[|t| - 1]
    ensures multiset(s[..|s| - 1]) == multiset(t[..|t| - 1])
  {
    MultisetOfFront(s);
    MultisetOfFront(t);
  }

  lemma AscendingFront(s: seq<real>)
    requires Ascending(s) && s != []
    ensures Ascending(s[..|s| - 1])
  {
  }

  /** A sequence has one ascending arrangement. */
  lemma {:induction false} AscendingUnique(s: seq<real>, t: seq<real>)
    requires Ascending(s) && Ascending(t) && multiset(s) == multiset(t)
    ensures s == t
  {
    SameLength(s, t);
    if s != [] {
      var front, rest := s[..|s| - 1], t[..|t| - 1];
      SameLast(s, t);
      SameFront(s, t);
      AscendingFront(s);
      AscendingFront(t);
      AscendingUnique(front, rest);
      assert s == front + [s[|s| - 1]] && t == rest + [t[|t| - 1]];
    }
  }

  lemma {:induction false} CountOfInsert(x: real, s: seq<real>, v: real)
    ensures CountAtMost(Insert(x, s), v) == CountAtMost(s, v) + if x <= v then 1 else 0
  {
    if s != [] {
      var front, last := s[..|s| - 1], s[|s| - 1];
      if last <= x {
        assert (s + [x])[..|s|] == s;
      } else {
        CountOfInsert(x, front, v);
        assert (Insert(x, front) + [last])[..|Insert(x, front)|] == Insert(x, front);
      }
    }
  }

  lemma {:induction false} CountOfSorted(xs: seq<real>, v: real)
    ensures CountAtMost(Sorted(xs), v) == CountAtMost(xs, v)
  {
    if xs != [] {
      CountOfSorted(xs[..|xs| - 1], v);
      CountOfInsert(xs[|xs| - 1], Sorted(xs[..|xs| - 1]), v);
    }
  }

  lemma {:induction false} CountBounds(xs: seq<real>, v: real)
    ensures CountAtMost(xs, v) <= |xs|
    ensures (forall i :: 0 <= i < |xs| ==> xs[i] <= v) ==> CountAtMost(xs, v) == |xs|
    ensures (forall i :: 0 <= i < |xs| ==> xs[i] > v) ==> CountAtMost(xs, v) == 0
  {
    if xs != [] {
      var front := xs[..|xs| - 1];
      CountBounds(front, v);
      assert forall i :: 0 <= i < |front| ==> front[i] == xs[i];
    }
  }

  lemma {:induction false} RankOfAscending(s: seq<real>, r: nat, v: real)
    requires Ascending(s) && 1 <= r <= |s|
    ensures s[r - 1] <= v <==> CountAtMost(s, v) >= r
  {
    var front, last := s[..|s| - 1], s[|s| - 1];
    CountBounds(front, v);
    if last <= v {
      assert forall i :: 0 <= i < |front| ==> front[i] <= v;
    } else if r < |s| {
      RankOfAscending(front, r, v);
    }
  }

  /** The r-th smallest value is at most v if and only if at least r values are. */
  lemma RankByCount(xs: seq<real>, r: nat, v: real)
    requires 1 <= r <= |xs|
    ensures Sorted(xs)[r - 1] <= v <==> CountAtMost(xs, v) >= r
  {
    SortedSpec(xs);
    CountOfSorted(xs, v);
    RankOfAscending(Sorted(xs), r, v);
  }

  lemma {:induction false} CountMonotone(xs: seq<real>, a: real, b: real)
    requires a <= b
    ensures CountAtMost(xs, a) <= CountAtMost(xs, b)
  {
    if xs != [] {
      CountMonotone(xs[..|xs| - 1], a, b);
    }
  }

  // Between two bounds with different counts lies a value.
  lemma {:induction false} ValueBetween(xs: seq<real>, a: real, b: real) returns (i: nat)
    requires a <= b && CountAtMost(xs, a) < CountAtMost(xs, b)
    ensures i < |xs| && a < xs[i] <= b
  {
    var last := xs[|xs| - 1];
    if a < last <= b {
      i := |xs| - 1;
    } else {
      i := ValueBetween(xs[..|xs| - 1], a, b);
    }
  }
}
