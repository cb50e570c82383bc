/**
  Lists of metric points as what a backend adds up: which series they touch, how often, and by how
  much.
 */
module Points {
  import opened Governance

  // A metric with its labels.
  type SeriesId = (Metric, map<Dim, Label>)

  function SeriesOf(p: Point): SeriesId {
    (p.metric, p.dims)
  }

  function Carried(p: Point): real {
    if p.value.Number? then p.value.x else 0.0
  }

  // What a list of DELTA points adds to a series.
  function ValueIn(points: seq<Point>, s: SeriesId): real {
    if points == [] then 0.0
    else
      var last := points[|points| - 1];
      ValueIn(points[..|points| - 1], s) + if SeriesOf(last) == s then Carried(last) else 0.0
  }

  // No series is touched twice.
  ghost predicate Once(points: seq<Point>) {
    forall i, j :: 0 <= i < j < |points| ==> SeriesOf(points[i]) != SeriesOf(points[j])
  }

  ghost predicate Within(points: seq<Point>, metrics: set<Metric>) {
    forall p :: p in points ==> p.metric in metrics
  }

  lemma {:induction false} ValueConcat(a: seq<Point>, b: seq<Point>, s: SeriesId)
    ensures ValueIn(a + b, s) == ValueIn(a, s) + ValueIn(b, s)
  {
    if b == [] {
      assert a + b == a;
    } else {
      ValueConcat(a, b[..|b| - 1], s);
      assert (a + b)[..|a + b| - 1] == a + b[..|b| - 1];
    }
  }

  lemma {:induction false} ValueAbsent(points: seq<Point>, s: SeriesId)
    requires forall p :: p in points ==> SeriesOf(p) != s
    ensures ValueIn(points, s) == 0.0
  {
    if points != [] {
      ValueAbsent(points[..|points| - 1], s);
    }
  }

  /** A list that touches no series twice adds to each exactly its one point. */
  lemma {:induction false} ValueOnce(points: seq<Point>, p: Point)
    requires Once(points) && p in points
    ensures ValueIn(points, SeriesOf(p)) == Carried(p)
  {
    var n := |points| - 1;
    var front := points[..n];
    if points[n] == p {
      forall q | q in front ensures SeriesOf(q) != SeriesOf(p) {
        var i :| 0 <= i < n && front[i] == q;
        assert points[i] == q;
      }
      ValueAbsent(front, SeriesOf(p));
    } else {
      var i :| 0 <= i < |points| && points[i] == p;
      assert front[i] == p;
      ValueOnce(front, p);
    }
  }

  // Two lists that share no series.
  ghost predicate Disjoint(a: seq<Point>, b: seq<Point>) {
    forall p, q :: p in a && q in b ==> SeriesOf(p) != SeriesOf(q)
  }

  lemma OnceConcat(a: seq<Point>, b: seq<Point>)
    requires Once(a) && Once(b) && Disjoint(a, b)
    ensures Once(a + b)
  {
    var all := a + b;
    forall i, j | 0 <= i < j < |all| ensures SeriesOf(all[i]) != SeriesOf(all[j]) {
      if i < |a| <= j {
        assert a[i] in a && b[j - |a|] in b;
      }
    }
  }

  // Families of different metrics side by side.
  lemma OnceFamilies(a: seq<Point>, b: seq<Point>, m: set<Metric>, n: set<Metric>)
    requires Once(a) && Once(b) && Within(a, m) && Within(b, n) && m !! n
    ensures Once(a + b) && Within(a + b, m + n)
  {
    OnceConcat(a, b);
  }

  /* ---------- the values of one series ---------- */

  // What a list of points says about a series, in order.
  function ValuesAt(points: seq<Point>, s: SeriesId): seq<Value> {
    if points == [] then []
    else
      var front, last := ValuesAt(points[..|points| - 1], s), points[|points| - 1];
      if SeriesOf(last) == s then front + [last.value] else front
  }

  lemma {:induction false} ValuesConcat(a: seq<Point>, b: seq<Point>, s: SeriesId)
    ensures ValuesAt(a + b, s) == ValuesAt(a, s) + ValuesAt(b, s)
  {
    if b == [] {
      assert a + b == a;
    } else {
      ValuesConcat(a, b[..|b| - 1], s);
      assert (a + b)[..|a + b| - 1] == a + b[..|b| - 1];
    }
  }

  lemma {:induction false} NoValues(points: seq<Point>, s: SeriesId)
    requires forall p :: p in points ==> SeriesOf(p) != s
    ensures ValuesAt(points, s) == []
  {
    if points != [] {
      NoValues(points[..|points| - 1], s);
    }
  }

  /** A list that touches no series twice says of each exactly what its one point says. */
  lemma OneValue(points: seq<Point>, p: Point)
    requires Once(points) && p in points
    ensures ValuesAt(points, SeriesOf(p)) == [p.value]
  {
    var s := SeriesOf(p);
    var i :| 0 <= i < |points| && points[i] == p;
    var before, after := points[..i], points[i + 1..];
    assert points == before + [p] + after;
    forall q | q in before || q in after ensures SeriesOf(q) != s {
      if q in before {
        var j :| 0 <= j < i && points[j] == q;
      } else {
        var j :| i < j < |points| && points[j] == q;
      }
    }
    NoValues(before, s);
    NoValues(after, s);
    ValuesConcat(before + [p], after, s);
    assert (before + [p])[..i] == before;
  }

  // Two lists with the same points of a series say the same of it.
  lemma SameValues(a: seq<Point>, b: seq<Point>, s: SeriesId)
    requires Once(a) && Once(b) && forall p :: SeriesOf(p) == s ==> (p in a <==> p in b)
    ensures ValuesAt(a, s) == ValuesAt(b, s)
  {
    if p :| p in a && SeriesOf(p) == s {
      OneValue(a, p);
      OneValue(b, p);
    } else {
      NoValues(a, s);
      NoValues(b, s);
    }
  }
}
