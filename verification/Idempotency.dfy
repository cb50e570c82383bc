/**
  In-batch idempotency: keep the first record of each id, and the list laws of that rule.
 */
module Idempotency {
  import opened Models

  function Ids(xs: seq<Observation>): set<Id> {
    set x | x in xs :: x.id
  }

  // Blank ids never count as repeats.
  function Dedup(xs: seq<Observation>): seq<Observation> {
    if xs == [] then []
    else
      var front, last := xs[..|xs| - 1], xs[|xs| - 1];
      if last.id != BLANK && last.id in Ids(front) then Dedup(front) else Dedup(front) + [last]
  }

  // The records whose id is not already known.
  function Fresh(xs: seq<Observation>, known: set<Id>): seq<Observation> {
    if xs == [] then []
    else
      var front, last := xs[..|xs| - 1], xs[|xs| - 1];
      if last.id in known then Fresh(front, known) else Fresh(front, known) + [last]
  }

  ghost predicate NoBlank(xs: seq<Observation>) {
    forall x :: x in xs ==> x.id != BLANK
  }

  ghost predicate DistinctIds(xs: seq<Observation>) {
    forall i, j :: 0 <= i < j < |xs| ==> xs[i].id != xs[j].id
  }

  /** The source's loop over a whole list. */
  method DedupObservations(observations: seq<Observation>) returns (unique: seq<Observation>, duplicates: nat)
    ensures unique == Dedup(observations)
    ensures duplicates == |observations| - |unique|
  {
    var seen: set<Id> := {};
    unique, duplicates := [], 0;
    for i := 0 to |observations|
      invariant seen == Ids(observations[..i]) - {BLANK}
      invariant unique == Dedup(observations[..i])
      invariant duplicates == i - |unique|
    {
      var obs := observations[i];
      IdsExtend(observations, i);
      if obs.id != BLANK && obs.id in seen {
        duplicates := duplicates + 1;
      } else {
        if obs.id != BLANK {
          seen := seen + {obs.id};
        }
        unique := unique + [obs];
      }
    }
    assert observations[..|observations|] == observations;
  }

  lemma IdsExtend(xs: seq<Observation>, i: nat)
    requires i < |xs|
    ensures xs[..i + 1][..i] == xs[..i]
    ensures Ids(xs[..i + 1]) == Ids(xs[..i]) + {xs[i].id}
  {
    assert xs[..i + 1] == xs[..i] + [xs[i]];
    IdsConcat(xs[..i], [xs[i]]);
  }

  // What one more observation changes.
  lemma DedupStep(xs: seq<Observation>, i: nat, seen: set<Id>)
    requires i < |xs| && seen == Ids(xs[..i]) - {BLANK}
    ensures Dedup(xs[..i + 1]) == Dedup(xs[..i]) + (if xs[i].id in seen then [] else [xs[i]])
    ensures Ids(xs[..i + 1]) - {BLANK} == seen + (if xs[i].id == BLANK then {} else {xs[i].id})
  {
    IdsExtend(xs, i);
  }

  lemma IdsConcat(a: seq<Observation>, b: seq<Observation>)
    ensures Ids(a + b) == Ids(a) + Ids(b)
  {
    forall id | id in Ids(a) + Ids(b)
      ensures id in Ids(a + b)
    {
      var x :| (x in a || x in b) && x.id == id;
      assert x in a + b;
    }
  }

  lemma {:induction false} DedupKeepsIds(xs: seq<Observation>)
    ensures Ids(Dedup(xs)) == Ids(xs)
  {
    if xs != [] {
      var front, last := xs[..|xs| - 1], xs[|xs| - 1];
      DedupKeepsIds(front);
      assert xs == front + [last];
      IdsConcat(front, [last]);
      IdsConcat(Dedup(front), [last]);
      assert Ids([last]) == {last.id};
    }
  }

  lemma {:induction false} DedupSubset(xs: seq<Observation>)
    ensures forall x :: x in Dedup(xs) ==> x in xs
  {
    if xs != [] {
      DedupSubset(xs[..|xs| - 1]);
    }
  }

  /** One record per id survives. */
  lemma {:induction false} DedupDistinct(xs: seq<Observation>)
    requires NoBlank(xs)
    ensures DistinctIds(Dedup(xs))
  {
    if xs != [] {
      var front, last := xs[..|xs| - 1], xs[|xs| - 1];
      assert forall x :: x in front ==> x in xs;
      DedupDistinct(front);
      DedupKeepsIds(front);
      forall i | 0 <= i < |Dedup(front)|
        ensures Dedup(front)[i].id in Ids(front)
      {
        assert Dedup(front)[i] in Dedup(front);
      }
    }
  }

  lemma {:induction false} FreshMembers(xs: seq<Observation>, known: set<Id>)
    ensures forall x :: x in Fresh(xs, known) <==> x in xs && x.id !in known
  {
    if xs != [] {
      var front, last := xs[..|xs| - 1], xs[|xs| - 1];
      FreshMembers(front, known);
      assert xs == front + [last];
    }
  }

  lemma {:induction false} FreshDistinct(xs: seq<Observation>, known: set<Id>)
    requires DistinctIds(xs)
    ensures DistinctIds(Fresh(xs, known))
  {
    if xs != [] {
      var front, last := xs[..|xs| - 1], xs[|xs| - 1];
      FreshDistinct(front, known);
      FreshMembers(front, known);
      forall x | x in Fresh(front, known) ensures x.id != last.id {
        assert x in front;
      }
    }
  }

  lemma InEither<T>(xs: seq<T>, ys: seq<T>, all: seq<T>, x: T)
    requires all == xs + ys && (x in xs || x in ys)
    ensures x in all
  {
  }

  lemma InLonger<T>(xs: seq<T>, longer: seq<T>, x: T)
    requires xs <= longer && x in xs
    ensures x in longer
  {
    var i :| 0 <= i < |xs| && xs[i] == x;
    assert longer[i] == x;
  }

  lemma TwiceIn(xs: seq<Observation>, ys: seq<Observation>, longer: seq<Observation>, x: Observation, y: Observation)
    requires xs + ys <= longer && x in xs && y in ys && x.id == y.id
    ensures !DistinctIds(longer)
  {
    var i :| 0 <= i < |xs| && xs[i] == x;
    var j :| 0 <= j < |ys| && ys[j] == y;
    assert longer[i] == (xs + ys)[i] == x && longer[|xs| + j] == (xs + ys)[|xs| + j] == y;
  }

  lemma {:induction false} FreshCongruent(xs: seq<Observation>, p: set<Id>, q: set<Id>)
    requires forall x :: x in xs ==> (x.id in p <==> x.id in q)
    ensures Fresh(xs, p) == Fresh(xs, q)
  {
    if xs != [] {
      FreshCongruent(xs[..|xs| - 1], p, q);
    }
  }

  lemma DedupSnoc(xs: seq<Observation>, x: Observation)
    requires x.id != BLANK
    ensures Dedup(xs + [x]) == if x.id in Ids(xs) then Dedup(xs) else Dedup(xs) + [x]
  {
    assert (xs + [x])[..|xs|] == xs;
  }

  lemma FreshSnoc(xs: seq<Observation>, x: Observation, known: set<Id>)
    ensures Fresh(xs + [x], known) == if x.id in known then Fresh(xs, known) else Fresh(xs, known) + [x]
  {
    assert (xs + [x])[..|xs|] == xs;
  }

  lemma DedupConcatStep(a: seq<Observation>, front: seq<Observation>, last: Observation)
    requires last.id != BLANK
    requires Dedup(a + front) == Dedup(a) + Fresh(Dedup(front), Ids(a))
    ensures Dedup((a + front) + [last]) == Dedup(a) + Fresh(Dedup(front + [last]), Ids(a))
  {
    DedupSnoc(a + front, last);
    IdsConcat(a, front);
    DedupSnoc(front, last);
    FreshSnoc(Dedup(front), last, Ids(a));
  }

  /** Deduplicating a concatenation: the second part loses what the first already had. */
  lemma {:induction false} DedupConcat(a: seq<Observation>, b: seq<Observation>)
    requires NoBlank(b)
    ensures Dedup(a + b) == Dedup(a) + Fresh(Dedup(b), Ids(a))
  {
    if b == [] {
      assert a + b == a;
    } else {
      var front, last := b[..|b| - 1], b[|b| - 1];
      assert last in b && NoBlank(front);
      DedupConcat(a, front);
      DedupConcatStep(a, front, last);
      assert front + [last] == b && (a + front) + [last] == a + b;
    }
  }
}
