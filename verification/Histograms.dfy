/**
  The streaming histogram with explicit buckets, and the percentile estimated from it.

  The dictionary of bucket counts is a sequence here: position i counts the values of the i-th
  bound, the last position those above every bound.
 */
module Histograms {
  import opened Wrappers
  import opened OrderStatistics

  datatype Hist = Hist(counts: seq<nat>, sum: real, count: nat, min: Option<real>, max: Option<real>)

  // What Config checks of the bucket bounds.
  ghost predicate StrictlyAscending(bounds: seq<real>) {
    forall i, j :: 0 <= i < j < |bounds| ==> bounds[i] < bounds[j]
  }

  // The first bucket, from i on, whose bound is at least v.
  function BucketFrom(bounds: seq<real>, v: real, i: nat): (b: nat)
    requires i <= |bounds|
    ensures i <= b <= |bounds|
    ensures b < |bounds| ==> v <= bounds[b]
    ensures forall k :: i <= k < b ==> v > bounds[k]
    decreases |bounds| - i
  {
    if i == |bounds| || v <= bounds[i] then i else BucketFrom(bounds, v, i + 1)
  }

  function Bucket(bounds: seq<real>, v: real): (b: nat)
    ensures b <= |bounds|
  {
    BucketFrom(bounds, v, 0)
  }

  function Lesser(a: Option<real>, b: Option<real>): Option<real> {
    if a.None? then b else if b.None? || a.value <= b.value then a else b
  }

  function Greater(a: Option<real>, b: Option<real>): Option<real> {
    if a.None? then b else if b.None? || a.value >= b.value then a else b
  }

  function CountAt(counts: seq<nat>, i: nat): nat {
    if i < |counts| then counts[i] else 0
  }

  // Pointwise; a missing bucket counts 0.
  function AddCounts(a: seq<nat>, b: seq<nat>): (c: seq<nat>)
    ensures |c| == if |a| < |b| then |b| else |a|
  {
    seq(if |a| < |b| then |b| else |a|, i requires i >= 0 => CountAt(a, i) + CountAt(b, i))
  }

  // The histogram of no value, and of one.
  function Empty(buckets: nat): (h: Hist)
    ensures |h.counts| == buckets
  {
    Hist(seq(buckets, _ => 0), 0.0, 0, None, None)
  }

  function Single(bounds: seq<real>, v: real): (h: Hist)
    ensures |h.counts| == |bounds| + 1
  {
    Hist(seq(|bounds| + 1, i => if i == Bucket(bounds, v) then 1 else 0), v, 1, Some(v), Some(v))
  }

  // The pointwise sum of two histograms.
  function Plus(a: Hist, b: Hist): Hist {
    Hist(AddCounts(a.counts, b.counts), a.sum + b.sum, a.count + b.count, Lesser(a.min, b.min), Greater(a.max, b.max))
  }

  // The histogram of a list.
  function Summary(bounds: seq<real>, xs: seq<real>): (h: Hist)
    ensures |h.counts| == |bounds| + 1
  {
    if xs == [] then Empty(|bounds| + 1)
    else Plus(Summary(bounds, xs[..|xs| - 1]), Single(bounds, xs[|xs| - 1]))
  }

  class HistAcc {
    const bounds: seq<real>
    var counts: seq<nat>
    var sum: real
    var count: nat
    var min: Option<real>
    var max: Option<real>

    ghost predicate Valid()
      reads this
    {
      |counts| == |bounds| + 1
    }

    function View(): Hist
      reads this
    {
      Hist(counts, sum, count, min, max)
    }

    constructor (bounds: seq<real>)
      ensures Valid() && this.bounds == bounds && View() == Empty(|bounds| + 1)
    {
      this.bounds := bounds;
      counts := seq(|bounds| + 1, _ => 0);
      sum, count, min, max := 0.0, 0, None, None;
    }

    method Add(v: real)
      requires Valid()
      modifies this
      ensures Valid() && View() == Plus(old(View()), Single(bounds, v))
    {
      count := count + 1;
      sum := sum + v;
      min := if min.None? || v < min.value then Some(v) else min;
      max := if max.None? || v > max.value then Some(v) else max;
      var i := 0;
      while i < |bounds|
        invariant i <= |bounds| && counts == old(counts) && Valid()
        invariant forall k :: 0 <= k < i ==> v > bounds[k]
        invariant View() == Hist(old(counts), old(sum) + v, old(count) + 1,
                                 Lesser(old(min), Some(v)), Greater(old(max), Some(v)))
      {
        if v <= bounds[i] {
          assert i == Bucket(bounds, v);
          counts := counts[i := counts[i] + 1];
          assert counts == AddCounts(old(counts), Single(bounds, v).counts);
          return;
        }
        i := i + 1;
      }
      assert |bounds| == Bucket(bounds, v);
      counts := counts[|bounds| := counts[|bounds|] + 1];
      assert counts == AddCounts(old(counts), Single(bounds, v).counts);
    }
  }

  /* ---------- the estimated percentile ---------- */

  // How many values fell into the first i buckets.
  function Cumulative(counts: seq<nat>, i: nat): nat
    requires i <= |counts|
  {
    if i == 0 then 0 else Cumulative(counts, i - 1) + counts[i - 1]
  }

  // Bucket i, with a bound, is where a target rank is met.
  predicate Meets(counts: seq<nat>, i: nat, target: real)
    requires i < |counts|
  {
    counts[i] > 0 && (Cumulative(counts, i) + counts[i]) as real >= target
  }

  // The first bucket at or after i that meets the target; the overflow bucket if none does.
  function SelectedFrom(counts: seq<nat>, target: real, i: nat): (b: nat)
    requires i < |counts|
    ensures i <= b < |counts|
    ensures forall k :: i <= k < b ==> !Meets(counts, k, target)
    ensures b < |counts| - 1 ==> Meets(counts, b, target)
    decreases |counts| - i
  {
    if i == |counts| - 1 || Meets(counts, i, target) then i else SelectedFrom(counts, target, i + 1)
  }

  function RealMin(a: real, b: real): real {
    if a <= b then a else b
  }

  function RealMax(a: real, b: real): real {
    if a >= b then a else b
  }

  // The ends of bucket i, cut to the observed range.
  function LowerEdge(bounds: seq<real>, h: Hist, i: nat): real
    requires i <= |bounds| && h.min.Some?
  {
    if i == 0 then h.min.value else RealMax(bounds[i - 1], h.min.value)
  }

  function UpperEdge(bounds: seq<real>, h: Hist, i: nat): real
    requires i < |bounds| && h.max.Some?
  {
    RealMin(bounds[i], h.max.value)
  }

  function Target(h: Hist, q: real): real {
    q / 100.0 * h.count as real
  }

  // A point between two edges, the upper one never below the lower.
  function Between(lower: real, upper: real, fraction: real): real {
    lower + (RealMax(lower, upper) - lower) * fraction
  }

  // How far into a bucket of c values the target lies.
  function Share(target: real, cum: nat, c: nat): real
    requires c > 0
  {
    (target - cum as real) / c as real
  }

  // Where the interpolation starts: the previous bound, tightened in the first nonempty bucket.
  function LowerEnd(bounds: seq<real>, h: Hist, i: nat): real
    requires i < |bounds| && i < |h.counts| && h.min.Some?
  {
    var prev := if i == 0 then h.min.value else bounds[i - 1];
    if Cumulative(h.counts, i) == 0 then RealMax(prev, h.min.value) else prev
  }

  // The interpolation inside bucket i, which has a bound and is not empty.
  function Interpolated(bounds: seq<real>, h: Hist, i: nat, target: real): real
    requires i < |bounds| && |h.counts| == |bounds| + 1 && h.counts[i] > 0 && h.min.Some? && h.max.Some?
  {
    Between(LowerEnd(bounds, h, i), UpperEdge(bounds, h, i), Share(target, Cumulative(h.counts, i), h.counts[i]))
  }

  // The estimate at a target rank, and at a percentage.
  function EstimateAt(bounds: seq<real>, h: Hist, target: real): Option<real>
    requires |h.counts| == |bounds| + 1 && (h.count > 0 ==> h.min.Some? && h.max.Some?)
  {
    if h.count == 0 then None
    else if h.count == 1 then h.min
    else
      var i := SelectedFrom(h.counts, target, 0);
      if i == |bounds| then h.max else Some(Interpolated(bounds, h, i, target))
  }

  function Estimate(bounds: seq<real>, h: Hist, q: real): Option<real>
    requires |h.counts| == |bounds| + 1 && (h.count > 0 ==> h.min.Some? && h.max.Some?)
  {
    EstimateAt(bounds, h, Target(h, q))
  }

  method HistPercentile(acc: HistAcc, q: real) returns (p: Option<real>)
    requires acc.Valid() && (acc.count > 0 ==> acc.min.Some? && acc.max.Some?)
    ensures p == Estimate(acc.bounds, acc.View(), q)
  {
    if acc.count == 0 {
      return None;
    }
    if acc.count == 1 {
      return acc.min;
    }
    var target := Target(acc.View(), q);
    var cum: nat := 0;
    var prev := acc.min.value;
    for i := 0 to |acc.bounds|
      invariant cum == Cumulative(acc.counts, i)
      invariant prev == if i == 0 then acc.min.value else acc.bounds[i - 1]
      invariant SelectedFrom(acc.counts, target, 0) == SelectedFrom(acc.counts, target, i)
    {
      var c := acc.counts[i];
      if c > 0 && (cum + c) as real >= target {
        var fraction := Share(target, cum, c);
        var lower := if cum == 0 then RealMax(prev, acc.min.value) else prev;
        var upper := RealMin(acc.bounds[i], acc.max.value);
        return Some(Between(lower, upper, fraction));
      }
      cum := cum + c;
      prev := acc.bounds[i];
    }
    return acc.max;
  }

  /* ---------- what the summary knows about the values ---------- */

  ghost predicate IsRange(xs: seq<real>, h: Hist) {
    && h.min.Some? && h.max.Some?
    && (forall i :: 0 <= i < |xs| ==> h.min.value <= xs[i] <= h.max.value)
    && h.min.value in xs && h.max.value in xs
  }

  lemma {:induction false} SummaryRange(bounds: seq<real>, xs: seq<real>)
    ensures Summary(bounds, xs).count == |xs|
    ensures xs == [] ==> Summary(bounds, xs).min == None && Summary(bounds, xs).max == None
    ensures xs != [] ==> IsRange(xs, Summary(bounds, xs))
  {
    if xs != [] {
      var front, last := xs[..|xs| - 1], xs[|xs| - 1];
      SummaryRange(bounds, front);
      assert xs == front + [last];
    }
  }

  lemma {:induction false} CumulativeOfSum(a: seq<nat>, b: seq<nat>, i: nat)
    requires |a| == |b| && i <= |a|
    ensures Cumulative(AddCounts(a, b), i) == Cumulative(a, i) + Cumulative(b, i)
  {
    if i > 0 {
      CumulativeOfSum(a, b, i - 1);
    }
  }

  lemma {:induction false} CumulativeOfSingle(bounds: seq<real>, v: real, i: nat)
    requires i <= |bounds| + 1
    ensures Cumulative(Single(bounds, v).counts, i) == if Bucket(bounds, v) < i then 1 else 0
  {
    if i > 0 {
      CumulativeOfSingle(bounds, v, i - 1);
    }
  }

  lemma {:induction false} CumulativeOfEmpty(buckets: nat, i: nat)
    requires i <= buckets
    ensures Cumulative(Empty(buckets).counts, i) == 0
  {
    if i > 0 {
      CumulativeOfEmpty(buckets, i - 1);
    }
  }

  /** The buckets up to a bound together count exactly the values at most that bound, and all
      buckets together count every value once. */
  lemma {:induction false} CumulativeCounts(bounds: seq<real>, xs: seq<real>, i: nat)
    requires StrictlyAscending(bounds) && i <= |bounds| + 1
    ensures Cumulative(Summary(bounds, xs).counts, i)
            == if i == 0 then 0 else if i <= |bounds| then CountAtMost(xs, bounds[i - 1]) else |xs|
  {
    if xs == [] {
      CumulativeOfEmpty(|bounds| + 1, i);
    } else {
      var front, last := xs[..|xs| - 1], xs[|xs| - 1];
      CumulativeCounts(bounds, front, i);
      CumulativeOfSum(Summary(bounds, front).counts, Single(bounds, last).counts, i);
      CumulativeOfSingle(bounds, last, i);
    }
  }

  lemma {:induction false} CumulativeGrows(counts: seq<nat>, i: nat, j: nat)
    requires i <= j <= |counts|
    ensures Cumulative(counts, i) <= Cumulative(counts, j)
  {
    if i < j {
      CumulativeGrows(counts, i, j - 1);
    }
  }

  // A nonempty bucket with a bound has a nonempty clipped interval.
  lemma EdgesInOrder(bounds: seq<real>, xs: seq<real>, i: nat)
    requires StrictlyAscending(bounds) && i < |bounds| && Summary(bounds, xs).counts[i] > 0 && xs != []
    ensures var h := Summary(bounds, xs);
            && h.min.Some? && h.max.Some?
            && LowerEdge(bounds, h, i) <= UpperEdge(bounds, h, i)
            && LowerEnd(bounds, h, i) == LowerEdge(bounds, h, i)
  {
    var h := Summary(bounds, xs);
    SummaryRange(bounds, xs);
    CumulativeCounts(bounds, xs, i);
    CumulativeCounts(bounds, xs, i + 1);
    CountBounds(xs, bounds[i]);
    assert exists k :: 0 <= k < |xs| && xs[k] <= bounds[i];
    if i > 0 {
      var k := ValueBetween(xs, bounds[i - 1], bounds[i]);
      CountBounds(xs, bounds[i - 1]);
    }
  }

  // Before the selected bucket the target is not yet passed.
  lemma {:induction false} BelowTarget(counts: seq<nat>, target: real, i: nat)
    requires i < |counts| && target >= 0.0
    requires forall k :: 0 <= k < i ==> !Meets(counts, k, target)
    ensures Cumulative(counts, i) as real <= target
    ensures Cumulative(counts, i) > 0 ==> (Cumulative(counts, i) as real) < target
  {
    if i > 0 {
      BelowTarget(counts, target, i - 1);
      assert !Meets(counts, i - 1, target);
    }
  }

  lemma ShareInRange(s: real, t: real, cum: nat, c: nat)
    requires c > 0 && cum as real <= s <= t <= (cum + c) as real
    ensures 0.0 <= Share(s, cum, c) <= Share(t, cum, c) <= 1.0
  {
    DivideInRange(s - cum as real, t - cum as real, c as real);
  }

  lemma DivideInRange(a: real, b: real, c: real)
    requires c > 0.0 && 0.0 <= a <= b <= c
    ensures 0.0 <= a / c <= b / c <= 1.0
  {
  }

  lemma BetweenMonotone(lower: real, upper: real, f: real, g: real)
    requires lower <= upper && 0.0 <= f <= g <= 1.0
    ensures lower <= Between(lower, upper, f) <= Between(lower, upper, g) <= upper
  {
    var width := upper - lower;
    assert 0.0 <= width * f <= width * g <= width * 1.0;
  }

  // Inside its bucket the estimate stays between the clipped edges and follows the target.
  lemma InterpolatedInBucket(bounds: seq<real>, xs: seq<real>, i: nat, s: real, t: real)
    requires StrictlyAscending(bounds) && i < |bounds| && xs != []
    requires Summary(bounds, xs).counts[i] > 0
    requires var counts := Summary(bounds, xs).counts;
             (Cumulative(counts, i) as real) <= s <= t <= (Cumulative(counts, i) + counts[i]) as real
    ensures var h := Summary(bounds, xs);
            && h.min.Some? && h.max.Some?
            && LowerEdge(bounds, h, i) <= Interpolated(bounds, h, i, s) <= Interpolated(bounds, h, i, t)
                 <= UpperEdge(bounds, h, i)
  {
    var h := Summary(bounds, xs);
    EdgesInOrder(bounds, xs, i);
    var cum, c := Cumulative(h.counts, i), h.counts[i];
    ShareInRange(s, t, cum, c);
    BetweenMonotone(LowerEnd(bounds, h, i), UpperEdge(bounds, h, i), Share(s, cum, c), Share(t, cum, c));
  }

  // The bucket a target selects, and where its rank interval lies.
  lemma SelectedMeets(counts: seq<nat>, target: real)
    requires counts != [] && target >= 0.0
    ensures var i := SelectedFrom(counts, target, 0);
            && (Cumulative(counts, i) as real) <= target
            && (i < |counts| - 1 ==> counts[i] > 0 && target <= (Cumulative(counts, i) + counts[i]) as real)
  {
    BelowTarget(counts, target, SelectedFrom(counts, target, 0));
  }

  lemma TargetInRange(h: Hist, q: real)
    requires 0.0 <= q <= 100.0
    ensures 0.0 <= Target(h, q) <= h.count as real
  {
    assert q / 100.0 * h.count as real <= 1.0 * h.count as real;
  }

  // The estimate lies between the clipped edges of its bucket, and on the maximum in the overflow.
  lemma EstimateInBucket(bounds: seq<real>, xs: seq<real>, q: real)
    requires StrictlyAscending(bounds) && 0.0 <= q <= 100.0 && |xs| > 1
    ensures var h := Summary(bounds, xs);
            var i := SelectedFrom(h.counts, Target(h, q), 0);
            && h.min.Some? && h.max.Some? && Estimate(bounds, h, q).Some?
            && (i < |bounds| ==>
                  LowerEdge(bounds, h, i) <= Estimate(bounds, h, q).value <= UpperEdge(bounds, h, i))
            && (i == |bounds| ==> Estimate(bounds, h, q) == h.max)
  {
    var h := Summary(bounds, xs);
    SummaryRange(bounds, xs);
    TargetInRange(h, q);
    SelectedMeets(h.counts, Target(h, q));
    var i := SelectedFrom(h.counts, Target(h, q), 0);
    if i < |bounds| {
      InterpolatedInBucket(bounds, xs, i, Target(h, q), Target(h, q));
    }
  }

  /** The estimate never leaves the observed range. */
  lemma EstimateInRange(bounds: seq<real>, xs: seq<real>, q: real)
    requires StrictlyAscending(bounds) && 0.0 <= q <= 100.0 && xs != []
    ensures var h := Summary(bounds, xs);
            && h.min.Some? && h.max.Some? && Estimate(bounds, h, q).Some?
            && h.min.value <= Estimate(bounds, h, q).value <= h.max.value
  {
    SummaryRange(bounds, xs);
    if |xs| > 1 {
      EstimateInBucket(bounds, xs, q);
    }
  }

  /** A higher percentile is never estimated lower, across buckets, gaps and the overflow. */
  lemma EstimateMonotone(bounds: seq<real>, xs: seq<real>, p: real, q: real)
    requires StrictlyAscending(bounds) && 0.0 <= p <= q <= 100.0 && xs != []
    ensures var h := Summary(bounds, xs);
            && h.min.Some? && h.max.Some? && Estimate(bounds, h, p).Some? && Estimate(bounds, h, q).Some?
            && Estimate(bounds, h, p).value <= Estimate(bounds, h, q).value
  {
    EstimateInRange(bounds, xs, p);
    EstimateInRange(bounds, xs, q);
    SummaryRange(bounds, xs);
    if |xs| > 1 {
      var h := Summary(bounds, xs);
      var i, j := SelectedFrom(h.counts, Target(h, p), 0), SelectedFrom(h.counts, Target(h, q), 0);
      TargetMonotone(h, p, q);
      SelectedMonotone(h.counts, Target(h, p), Target(h, q), 0);
      if i == j && i < |bounds| {
        SameBucket(bounds, xs, p, q, i);
      } else {
        EstimateInBucket(bounds, xs, p);
        EstimateInBucket(bounds, xs, q);
        assert i < j < |bounds| ==> bounds[i] <= bounds[j - 1];
      }
    }
  }

  lemma SameBucket(bounds: seq<real>, xs: seq<real>, p: real, q: real, i: nat)
    requires StrictlyAscending(bounds) && 0.0 <= p <= q <= 100.0 && |xs| > 1 && i < |bounds|
    requires var h := Summary(bounds, xs);
             i == SelectedFrom(h.counts, Target(h, p), 0) && i == SelectedFrom(h.counts, Target(h, q), 0)
    ensures var h := Summary(bounds, xs);
            && h.min.Some? && h.max.Some? && Estimate(bounds, h, p).Some? && Estimate(bounds, h, q).Some?
            && Estimate(bounds, h, p).value <= Estimate(bounds, h, q).value
  {
    var h := Summary(bounds, xs);
    SummaryRange(bounds, xs);
    TargetInRange(h, p);
    TargetInRange(h, q);
    TargetMonotone(h, p, q);
    SelectedMeets(h.counts, Target(h, p));
    SelectedMeets(h.counts, Target(h, q));
    InterpolatedInBucket(bounds, xs, i, Target(h, p), Target(h, q));
  }

  lemma TargetMonotone(h: Hist, p: real, q: real)
    requires p <= q
    ensures Target(h, p) <= Target(h, q)
  {
    var n := h.count as real;
    assert p / 100.0 <= q / 100.0;
    assert (q / 100.0 - p / 100.0) * n >= 0.0;
  }

  lemma {:induction false} SelectedMonotone(counts: seq<nat>, s: real, t: real, i: nat)
    requires i < |counts| && s <= t
    ensures SelectedFrom(counts, s, i) <= SelectedFrom(counts, t, i)
    decreases |counts| - i
  {
    if i < |counts| - 1 && !Meets(counts, i, s) {
      SelectedMonotone(counts, s, t, i + 1);
    }
  }

  /** The percentiles a point carries are ordered. */
  lemma PercentilesOrdered(bounds: seq<real>, xs: seq<real>)
    requires StrictlyAscending(bounds) && xs != []
    ensures var h := Summary(bounds, xs);
            && h.min.Some? && h.max.Some?
            && Estimate(bounds, h, 50.0).Some? && Estimate(bounds, h, 95.0).Some? && Estimate(bounds, h, 99.0).Some?
            && h.min.value <= Estimate(bounds, h, 50.0).value <= Estimate(bounds, h, 95.0).value
                 <= Estimate(bounds, h, 99.0).value <= h.max.value
  {
    EstimateInRange(bounds, xs, 50.0);
    EstimateMonotone(bounds, xs, 50.0, 95.0);
    EstimateMonotone(bounds, xs, 95.0, 99.0);
    EstimateInRange(bounds, xs, 99.0);
  }

  /* ---------- the estimate against the exact order statistic ---------- */

  // The smallest rank that covers q percent of n values.
  function Rank(n: nat, q: real): int {
    -((-(q / 100.0 * n as real)).Floor)
  }

  lemma RankInRange(n: nat, q: real)
    requires n > 0 && 0.0 < q <= 100.0
    ensures 1 <= Rank(n, q) <= n
    ensures (Rank(n, q) - 1) as real < q / 100.0 * n as real <= Rank(n, q) as real
  {
    assert 0.0 < q / 100.0 <= 1.0;
    assert q / 100.0 * n as real <= 1.0 * n as real;
    assert 0.0 < q / 100.0 * n as real;
  }

  // The exact percentile: the value at that rank.
  function Exact(xs: seq<real>, q: real): real
    requires xs != [] && 0.0 < q <= 100.0
  {
    RankInRange(|xs|, q);
    SortedSpec(xs);
    Sorted(xs)[Rank(|xs|, q) - 1]
  }

  // The count up to bucket k reaches the rank exactly from the bucket of the ranked value on.
  lemma RankReached(bounds: seq<real>, xs: seq<real>, r: nat, k: nat)
    requires StrictlyAscending(bounds) && 1 <= r <= |xs| && 1 <= k <= |bounds|
    ensures Cumulative(Summary(bounds, xs).counts, k) >= r <==> k - 1 >= Bucket(bounds, Sorted(xs)[r - 1])
  {
    CumulativeCounts(bounds, xs, k);
    RankByCount(xs, r, bounds[k - 1]);
    var b := Bucket(bounds, Sorted(xs)[r - 1]);
    assert k - 1 > b ==> bounds[b] < bounds[k - 1];
  }

  lemma TargetAndRank(bounds: seq<real>, xs: seq<real>, q: real)
    requires xs != [] && 0.0 < q <= 100.0
    ensures var r, t := Rank(|xs|, q), Target(Summary(bounds, xs), q);
            1 <= r <= |xs| && (r - 1) as real < t <= r as real
  {
    SummaryRange(bounds, xs);
    RankInRange(|xs|, q);
  }

  /** The bucket the estimate selects is the one holding the exact percentile. */
  lemma SelectsTheRightBucket(bounds: seq<real>, xs: seq<real>, q: real)
    requires StrictlyAscending(bounds) && xs != [] && 0.0 < q <= 100.0
    ensures var h := Summary(bounds, xs);
            SelectedFrom(h.counts, Target(h, q), 0) == Bucket(bounds, Exact(xs, q))
  {
    var h, r, b := Summary(bounds, xs), Rank(|xs|, q), Bucket(bounds, Exact(xs, q));
    TargetAndRank(bounds, xs, q);
    forall k | 1 <= k < |h.counts|
      ensures Cumulative(h.counts, k) >= r <==> k - 1 >= b
    {
      RankReached(bounds, xs, r, k);
    }
    FirstToMeet(h.counts, Target(h, q), r, b, 0);
  }

  // With r the target rounded up, the first bucket to meet the target is the first to reach r.
  lemma {:induction false} FirstToMeet(counts: seq<nat>, target: real, r: int, b: nat, i: nat)
    requires counts != [] && i <= b < |counts| && r >= 1
    requires (r - 1) as real < target <= r as real
    requires forall k :: 1 <= k < |counts| ==> (Cumulative(counts, k) >= r <==> k - 1 >= b)
    ensures SelectedFrom(counts, target, i) == b
    decreases b - i
  {
    if i < |counts| - 1 {
      assert Cumulative(counts, i + 1) >= r <==> i >= b;
      assert i > 0 ==> (Cumulative(counts, i) >= r <==> i - 1 >= b);
      if i < b {
        assert Cumulative(counts, i) + counts[i] <= r - 1;
        FirstToMeet(counts, target, r, b, i + 1);
      }
    }
  }

  /** The estimate and the exact percentile share a bucket, cut to the observed range; in the
      overflow bucket the estimate is the exact maximum. */
  lemma EstimateBracketsExact(bounds: seq<real>, xs: seq<real>, q: real)
    requires StrictlyAscending(bounds) && xs != [] && 0.0 < q <= 100.0
    ensures var h := Summary(bounds, xs);
            var v, b := Exact(xs, q), Bucket(bounds, Exact(xs, q));
            && h.min.Some? && h.max.Some? && Estimate(bounds, h, q).Some?
            && (|xs| == 1 ==> Estimate(bounds, h, q).value == v)
            && (b < |bounds| ==>
                  && LowerEdge(bounds, h, b) <= v <= UpperEdge(bounds, h, b)
                  && LowerEdge(bounds, h, b) <= Estimate(bounds, h, q).value <= UpperEdge(bounds, h, b))
            && (b == |bounds| ==> Estimate(bounds, h, q).value == Sorted(xs)[|xs| - 1])
  {
    var h := Summary(bounds, xs);
    SummaryRange(bounds, xs);
    SortedSpec(xs);
    RankInRange(|xs|, q);
    SortedEnds(xs, h);
    SelectsTheRightBucket(bounds, xs, q);
    assert Exact(xs, q) in multiset(Sorted(xs));
    assert Exact(xs, q) in xs;
    if |xs| > 1 {
      EstimateInBucket(bounds, xs, q);
    }
  }

  lemma SortedEnds(xs: seq<real>, h: Hist)
    requires xs != [] && IsRange(xs, h)
    ensures |Sorted(xs)| == |xs| && Sorted(xs)[0] == h.min.value && Sorted(xs)[|xs| - 1] == h.max.value
  {
    var s := Sorted(xs);
    SortedSpec(xs);
    assert h.max.value in multiset(s) && h.min.value in multiset(s);
    LastIsGreatest(s, h.max.value);
    var i :| 0 <= i < |s| && s[i] == h.min.value;
    assert s[|xs| - 1] in multiset(xs) && s[0] in multiset(xs);
    assert s[|xs| - 1] in xs && s[0] in xs;
  }

  /* ---------- the number reported ---------- */

  // A point that divides an interval as a target divides the ranks from below to below + inside.
  predicate Interpolates(p: real, lower: real, upper: real, below: int, inside: int, target: real) {
    (p - lower) * inside as real == (target - below as real) * (upper - lower)
  }

  lemma BetweenInterpolates(lower: real, upper: real, target: real, cum: nat, c: nat)
    requires c > 0 && lower <= upper
    ensures Interpolates(Between(lower, upper, Share(target, cum, c)), lower, upper, cum, c, target)
  {
    var width, x, f := upper - lower, target - cum as real, Share(target, cum, c);
    assert f * c as real == x;
    assert width * f * c as real == width * (f * c as real);
  }

  // The estimates for a list of values.
  function PercentileAt(bounds: seq<real>, xs: seq<real>, target: real): Option<real> {
    SummaryRange(bounds, xs);
    EstimateAt(bounds, Summary(bounds, xs), target)
  }

  function Percentile(bounds: seq<real>, xs: seq<real>, q: real): Option<real> {
    SummaryRange(bounds, xs);
    Estimate(bounds, Summary(bounds, xs), q)
  }

  lemma TargetIs(h: Hist, q: real, n: nat, target: real)
    requires h.count == n && target == q / 100.0 * n as real
    ensures Target(h, q) == target
  {
  }

  lemma PercentileIs(bounds: seq<real>, xs: seq<real>, q: real, target: real)
    requires target == q / 100.0 * |xs| as real
    ensures Percentile(bounds, xs, q) == PercentileAt(bounds, xs, target)
  {
    SummaryRange(bounds, xs);
    TargetIs(Summary(bounds, xs), q, |xs|, target);
  }

  lemma CountsInBucket(bounds: seq<real>, xs: seq<real>, b: nat, below: nat, inside: nat)
    requires StrictlyAscending(bounds) && b < |bounds|
    requires below == if b == 0 then 0 else CountAtMost(xs, bounds[b - 1])
    requires inside == CountAtMost(xs, bounds[b]) - below
    ensures var counts := Summary(bounds, xs).counts;
            && Cumulative(counts, b) == below && Cumulative(counts, b + 1) == below + inside && counts[b] == inside
  {
    CumulativeCounts(bounds, xs, b);
    CumulativeCounts(bounds, xs, b + 1);
  }

  lemma InterpolatedIs(bounds: seq<real>, h: Hist, b: nat, target: real, p: real, lower: real, upper: real,
                       below: nat, inside: nat)
    requires b < |bounds| && |h.counts| == |bounds| + 1 && h.counts[b] > 0 && h.min.Some? && h.max.Some?
    requires p == Interpolated(bounds, h, b, target) && below == Cumulative(h.counts, b) && inside == h.counts[b]
    requires lower == LowerEnd(bounds, h, b) && upper == UpperEdge(bounds, h, b) && lower <= upper
    ensures Interpolates(p, lower, upper, below, inside, target)
  {
    BetweenInterpolates(lower, upper, target, below, inside);
  }

  lemma EdgesAre(bounds: seq<real>, xs: seq<real>, b: nat) returns (lower: real, upper: real)
    requires StrictlyAscending(bounds) && xs != [] && b < |bounds| && Summary(bounds, xs).counts[b] > 0
    ensures lower == if b == 0 || bounds[b - 1] <= Sorted(xs)[0] then Sorted(xs)[0] else bounds[b - 1]
    ensures upper == if bounds[b] <= Sorted(xs)[|xs| - 1] then bounds[b] else Sorted(xs)[|xs| - 1]
    ensures var h := Summary(bounds, xs);
            && h.min.Some? && h.max.Some? && lower == LowerEnd(bounds, h, b) && upper == UpperEdge(bounds, h, b)
    ensures lower <= upper
  {
    var h := Summary(bounds, xs);
    SummaryRange(bounds, xs);
    SortedEnds(xs, h);
    EdgesInOrder(bounds, xs, b);
    lower, upper := LowerEdge(bounds, h, b), UpperEdge(bounds, h, b);
  }

  // The first bucket to meet a target is the one in whose ranks it lies.
  lemma SelectedIs(counts: seq<nat>, target: real, b: nat)
    requires b < |counts| && target > 0.0
    requires (Cumulative(counts, b) as real) < target <= Cumulative(counts, b + 1) as real
    ensures SelectedFrom(counts, target, 0) == b && counts[b] > 0
  {
    var i := SelectedFrom(counts, target, 0);
    if i < b {
      CumulativeGrows(counts, i + 1, b);
    } else {
      assert Meets(counts, b, target);
    }
  }

  lemma SelectedPoint(bounds: seq<real>, xs: seq<real>, b: nat, p: real, target: real, below: nat, inside: nat)
    requires |xs| > 1 && b < |bounds| && PercentileAt(bounds, xs, target) == Some(p)
    requires target > 0.0 && (below as real) < target <= (below + inside) as real
    requires var counts := Summary(bounds, xs).counts;
             Cumulative(counts, b) == below && Cumulative(counts, b + 1) == below + inside
    ensures var h := Summary(bounds, xs);
            && h.min.Some? && h.max.Some? && h.counts[b] > 0 && p == Interpolated(bounds, h, b, target)
  {
    SummaryRange(bounds, xs);
    SelectedIs(Summary(bounds, xs).counts, target, b);
  }

  lemma PointDivides(bounds: seq<real>, xs: seq<real>, b: nat, p: real, target: real,
                     lower: real, upper: real, below: nat, inside: nat)
    requires StrictlyAscending(bounds) && xs != [] && b < |bounds|
    requires lower == if b == 0 || bounds[b - 1] <= Sorted(xs)[0] then Sorted(xs)[0] else bounds[b - 1]
    requires upper == if bounds[b] <= Sorted(xs)[|xs| - 1] then bounds[b] else Sorted(xs)[|xs| - 1]
    requires var h := Summary(bounds, xs);
             && h.min.Some? && h.max.Some? && h.counts[b] > 0 && p == Interpolated(bounds, h, b, target)
             && Cumulative(h.counts, b) == below && h.counts[b] == inside
    ensures Interpolates(p, lower, upper, below, inside, target)
  {
    var lo, up := EdgesAre(bounds, xs, b);
    InterpolatedIs(bounds, Summary(bounds, xs), b, target, p, lower, upper, below, inside);
  }

  lemma InterpolatesAt(bounds: seq<real>, xs: seq<real>, b: nat, p: real, target: real,
                       lower: real, upper: real, below: nat, inside: nat)
    requires StrictlyAscending(bounds) && |xs| > 1 && PercentileAt(bounds, xs, target) == Some(p)
    requires b < |bounds| && target > 0.0 && (below as real) < target <= (below + inside) as real
    requires below == if b == 0 then 0 else CountAtMost(xs, bounds[b - 1])
    requires inside == CountAtMost(xs, bounds[b]) - below
    requires lower == if b == 0 || bounds[b - 1] <= Sorted(xs)[0] then Sorted(xs)[0] else bounds[b - 1]
    requires upper == if bounds[b] <= Sorted(xs)[|xs| - 1] then bounds[b] else Sorted(xs)[|xs| - 1]
    ensures Interpolates(p, lower, upper, below, inside, target)
  {
    CountsInBucket(bounds, xs, b, below, inside);
    SelectedPoint(bounds, xs, b, p, target, below, inside);
    PointDivides(bounds, xs, b, p, target, lower, upper, below, inside);
  }

  /** The number itself: when the target rank lies in bucket b, the estimate is the point of that bucket,
      cut to the least and greatest value, that divides it as the target divides the values counted there. */
  lemma EstimateInterpolates(bounds: seq<real>, xs: seq<real>, q: real, b: nat, p: real, target: real,
                             lower: real, upper: real, below: nat, inside: nat)
    requires StrictlyAscending(bounds) && |xs| > 1 && Percentile(bounds, xs, q) == Some(p)
    requires target == q / 100.0 * |xs| as real
    requires b < |bounds| && target > 0.0 && (below as real) < target <= (below + inside) as real
    requires below == if b == 0 then 0 else CountAtMost(xs, bounds[b - 1])
    requires inside == CountAtMost(xs, bounds[b]) - below
    requires lower == if b == 0 || bounds[b - 1] <= Sorted(xs)[0] then Sorted(xs)[0] else bounds[b - 1]
    requires upper == if bounds[b] <= Sorted(xs)[|xs| - 1] then bounds[b] else Sorted(xs)[|xs| - 1]
    ensures Interpolates(p, lower, upper, below, inside, target)
  {
    PercentileIs(bounds, xs, q, target);
    InterpolatesAt(bounds, xs, b, p, target, lower, upper, below, inside);
  }

  /** An exact percentile is at most v exactly when q percent of the values are; so the target rank lies
      in the bucket that holds it. */
  lemma ExactByCount(xs: seq<real>, q: real, v: real)
    requires xs != [] && 0.0 < q <= 100.0
    ensures Exact(xs, q) <= v <==> q / 100.0 * |xs| as real <= CountAtMost(xs, v) as real
  {
    RankInRange(|xs|, q);
    RankByCount(xs, Rank(|xs|, q), v);
  }

  /** A single value is every percentile of itself. */
  lemma EstimateOfOne(bounds: seq<real>, x: real, q: real)
    ensures Percentile(bounds, [x], q) == Some(x)
  {
    SummaryRange(bounds, [x]);
  }
}
