/**
  What the statistics of a baseline are: a median that halves it, a MAD that halves its deviations, a
  mean of them; what a verdict says in these terms; and which values a value is scored against.
 */
module Baselines {
  import opened Wrappers
  import opened OrderStatistics
  import opened Quality

  /* ---------- the median and the MAD halve ---------- */

  /** At least half of the values are at most the median, and at most half are below anything less. */
  lemma MedianHalves(xs: seq<real>, v: real)
    requires xs != []
    ensures 2 * CountAtMost(xs, Median(xs)) >= |xs|
    ensures v < Median(xs) ==> 2 * CountAtMost(xs, v) <= |xs|
  {
    var s, n := Sorted(xs), |xs|;
    var low, high := (n - 1) / 2, n / 2;
    SortedSpec(xs);
    MedianOfMiddle(xs);
    RankByCount(xs, low + 1, Median(xs));
    RankByCount(xs, high + 1, v);
  }

  /** At least half of the values lie within the MAD of the median, and at most half within anything
      less. */
  lemma MadHalves(xs: seq<real>, v: real)
    requires xs != []
    ensures var ds := Deviations(xs, Median(xs));
            && 2 * CountAtMost(ds, Mad(xs)) >= |xs| && (v < Mad(xs) ==> 2 * CountAtMost(ds, v) <= |xs|)
  {
    MedianHalves(Deviations(xs, Median(xs)), v);
  }

  /** And with an even number of values the median is midway between the two in the middle. */
  lemma MedianIsMidway(xs: seq<real>, a: real, b: real)
    requires xs != [] && |xs| % 2 == 0
    requires a == Sorted(xs)[|xs| / 2 - 1] && b == Sorted(xs)[|xs| / 2]
    ensures a <= Median(xs) <= b && Median(xs) - a == b - Median(xs)
  {
    SortedSpec(xs);
  }

  /* ---------- the mean deviation is a mean ---------- */

  lemma {:induction false} SumBetween(xs: seq<real>, lo: real, hi: real)
    requires forall i :: 0 <= i < |xs| ==> lo <= xs[i] <= hi
    ensures lo * |xs| as real <= Sum(xs) <= hi * |xs| as real
  {
    if xs != [] {
      var n := |xs| - 1;
      SumBetween(xs[..n], lo, hi);
      assert lo * |xs| as real == lo * n as real + lo && hi * |xs| as real == hi * n as real + hi;
    }
  }

  lemma QuotientBetween(sum: real, n: real, lo: real, hi: real)
    requires n > 0.0 && lo * n <= sum <= hi * n
    ensures lo <= sum / n <= hi
  {
    RatioAtLeast(sum, n, lo);
    RatioAtLeast(-sum, n, -hi);
    assert (-hi) * n == -(hi * n);
    assert (-sum) / n == -(sum / n);
  }

  // How far a value is from a center.
  function Away(x: real, center: real): real {
    if x < center then center - x else x - center
  }

  lemma DeviationsAre(xs: seq<real>, center: real)
    ensures forall i :: 0 <= i < |xs| ==> Deviations(xs, center)[i] == Away(xs[i], center)
  {
    forall i | 0 <= i < |xs| ensures Deviations(xs, center)[i] == Away(xs[i], center) {
      assert Deviations(xs, center)[i] == Abs(xs[i] - center);
    }
  }

  lemma MeanBetween(xs: seq<real>, n: nat, least: real, greatest: real)
    requires n == |xs| > 0 && forall i :: 0 <= i < n ==> least <= xs[i] <= greatest
    ensures least <= Sum(xs) / n as real <= greatest
  {
    SumBetween(xs, least, greatest);
    QuotientBetween(Sum(xs), n as real, least, greatest);
  }

  /** The mean deviation lies between the least and the greatest distance of a value from the median; so it
      is d when every value is d away. */
  lemma MeanAdBetween(xs: seq<real>, least: real, greatest: real)
    requires xs != [] && forall i :: 0 <= i < |xs| ==> least <= Away(xs[i], Median(xs)) <= greatest
    ensures least <= MeanAd(xs) <= greatest
  {
    DeviationsAre(xs, Median(xs));
    MeanBetween(Deviations(xs, Median(xs)), |xs|, least, greatest);
  }

  /* ---------- a baseline repeated ---------- */

  // k copies, one after the other.
  function Repeat<T>(xs: seq<T>, k: nat): (ys: seq<T>) {
    if k == 0 then [] else Repeat(xs, k - 1) + xs
  }

  lemma {:induction false} RepeatLength<T>(xs: seq<T>, k: nat)
    ensures |Repeat(xs, k)| == k * |xs|
  {
    if k > 0 {
      RepeatLength(xs, k - 1);
      OneMoreTime(k, |xs|);
    }
  }

  lemma OneMoreTime(k: nat, n: int)
    requires k > 0
    ensures k * n == (k - 1) * n + n
  {
  }

  lemma {:induction false} CountConcat(a: seq<real>, b: seq<real>, v: real)
    ensures CountAtMost(a + b, v) == CountAtMost(a, v) + CountAtMost(b, v)
  {
    if b == [] {
      assert a + b == a;
    } else {
      CountConcat(a, b[..|b| - 1], v);
      assert (a + b)[..|a + b| - 1] == a + b[..|b| - 1];
    }
  }

  lemma {:induction false} SumConcat(a: seq<real>, b: seq<real>)
    ensures Sum(a + b) == Sum(a) + Sum(b)
  {
    if b == [] {
      assert a + b == a;
    } else {
      SumConcat(a, b[..|b| - 1]);
      assert (a + b)[..|a + b| - 1] == a + b[..|b| - 1];
    }
  }

  lemma {:induction false} CountOfRepeat(xs: seq<real>, k: nat, v: real)
    ensures CountAtMost(Repeat(xs, k), v) == k * CountAtMost(xs, v)
  {
    if k > 0 {
      CountOfRepeat(xs, k - 1, v);
      CountConcat(Repeat(xs, k - 1), xs, v);
      OneMoreTime(k, CountAtMost(xs, v));
    }
  }

  lemma {:induction false} SumOfRepeat(xs: seq<real>, k: nat)
    ensures Sum(Repeat(xs, k)) == k as real * Sum(xs)
  {
    if k > 0 {
      SumOfRepeat(xs, k - 1);
      SumConcat(Repeat(xs, k - 1), xs);
      assert k as real * Sum(xs) == (k - 1) as real * Sum(xs) + Sum(xs);
    }
  }

  lemma {:induction false} DeviationsOfRepeat(xs: seq<real>, k: nat, center: real)
    ensures Deviations(Repeat(xs, k), center) == Repeat(Deviations(xs, center), k)
  {
    if k > 0 {
      DeviationsOfRepeat(xs, k - 1, center);
      assert Deviations(Repeat(xs, k - 1) + xs, center)
          == Deviations(Repeat(xs, k - 1), center) + Deviations(xs, center);
    }
  }

  lemma Distribute(k: int, x: int, y: int)
    ensures k * (x + y) == k * x + k * y
  {
  }

  lemma NonNegative(k: nat, d: nat)
    ensures k * d >= 0
  {
  }

  lemma Product(k: nat, a: int, b: int)
    requires a < b
    ensures k * a + k <= k * b
  {
    var d := b - a - 1;
    NonNegative(k, d);
    Distribute(k, a, 1);
    Distribute(k, a + 1, d);
    assert a + 1 + d == b;
  }

  // Position j of k copies belongs to rank m of one.
  ghost predicate Falls(k: nat, j: nat, m: nat) {
    k * m <= j < k * m + k
  }

  // At least j + 1 of k copies means at least m + 1 of one.
  lemma RankOfRepeat(k: nat, j: nat, m: nat, count: nat)
    requires Falls(k, j, m)
    ensures k * count >= j + 1 <==> count >= m + 1
  {
    if m < count {
      Product(k, m, count);
    } else if count < m {
      Product(k, count, m);
    }
  }

  lemma SameRank(xs: seq<real>, k: nat, j: nat, m: nat, v: real)
    requires Falls(k, j, m) && j < |Repeat(xs, k)| && m < |xs|
    ensures Sorted(Repeat(xs, k))[j] <= v <==> Sorted(xs)[m] <= v
  {
    RankByCount(Repeat(xs, k), j + 1, v);
    CountOfRepeat(xs, k, v);
    RankOfRepeat(k, j, m, CountAtMost(xs, v));
    RankByCount(xs, m + 1, v);
  }

  lemma SortedOfRepeat(xs: seq<real>, k: nat, j: nat, m: nat)
    requires Falls(k, j, m) && j < |Repeat(xs, k)|
    ensures m < |xs| && Sorted(Repeat(xs, k))[j] == Sorted(xs)[m]
  {
    RepeatLength(xs, k);
    RankOfRepeat(k, j, m, |xs|);
    SameRank(xs, k, j, m, Sorted(Repeat(xs, k))[j]);
    SameRank(xs, k, j, m, Sorted(xs)[m]);
  }

  // The middle positions of k copies fall on those of one.
  lemma MiddleOfRepeat(n: nat, k: nat, all: nat)
    requires n > 0 && k > 0 && all == k * n
    ensures all > 0 && Falls(k, all / 2, n / 2) && Falls(k, (all - 1) / 2, (n - 1) / 2)
  {
    var m := n / 2;
    Distribute(k, m, m);
    if n % 2 == 0 {
      Distribute(k, m - 1, 1);
      assert n == m + m;
    } else {
      Distribute(k, m + m, 1);
      assert n == m + m + 1;
    }
    Product(k, 0, n);
  }

  lemma MedianOfRepeat(xs: seq<real>, k: nat)
    requires xs != [] && k > 0
    ensures Repeat(xs, k) != [] && Median(Repeat(xs, k)) == Median(xs)
  {
    var ys := Repeat(xs, k);
    RepeatLength(xs, k);
    MiddleOfRepeat(|xs|, k, |ys|);
    SortedOfRepeat(xs, k, |ys| / 2, |xs| / 2);
    SortedOfRepeat(xs, k, (|ys| - 1) / 2, (|xs| - 1) / 2);
    MedianOfMiddle(xs);
    MedianOfMiddle(ys);
  }

  lemma QuotientIs(total: real, all: real, r: real)
    requires all > 0.0 && total == r * all
    ensures total / all == r
  {
  }

  lemma Regroup(k: real, r: real, n: real)
    ensures k * (r * n) == r * (k * n)
  {
  }

  lemma MeanOfRepeat(sum: real, n: nat, k: nat, total: real, all: nat)
    requires n > 0 && k > 0 && all == k * n && total == k as real * sum
    ensures all > 0 && total / all as real == sum / n as real
  {
    var r := sum / n as real;
    assert sum == r * n as real;
    Regroup(k as real, r, n as real);
    assert all as real == k as real * n as real;
    Product(k, 0, n);
    QuotientIs(total, all as real, r);
  }

  lemma MadOfRepeat(xs: seq<real>, k: nat)
    requires xs != [] && k > 0
    ensures Repeat(xs, k) != [] && Mad(Repeat(xs, k)) == Mad(xs)
  {
    MedianOfRepeat(xs, k);
    DeviationsOfRepeat(xs, k, Median(xs));
    MedianOfRepeat(Deviations(xs, Median(xs)), k);
  }

  lemma MeanAdIs(xs: seq<real>, med: real, ds: seq<real>, sum: real, n: nat)
    requires xs != [] && med == Median(xs) && ds == Deviations(xs, med) && sum == Sum(ds) && n == |xs|
    ensures MeanAd(xs) == sum / n as real
  {
  }

  lemma SumsOfRepeat(ds: seq<real>, k: nat, es: seq<real>) returns (sum: real, total: real)
    requires es == Repeat(ds, k)
    ensures sum == Sum(ds) && total == Sum(es) && total == k as real * sum
  {
    SumOfRepeat(ds, k);
    sum, total := Sum(ds), Sum(es);
  }

  lemma MeanAdOfRepeat(xs: seq<real>, k: nat)
    requires xs != [] && k > 0
    ensures Repeat(xs, k) != [] && MeanAd(Repeat(xs, k)) == MeanAd(xs)
  {
    var med, ys := Median(xs), Repeat(xs, k);
    MedianOfRepeat(xs, k);
    DeviationsOfRepeat(xs, k, med);
    RepeatLength(xs, k);
    var sum, total := SumsOfRepeat(Deviations(xs, med), k, Deviations(ys, med));
    MeanOfRepeat(sum, |xs|, k, total, |ys|);
    MeanAdIs(xs, med, Deviations(xs, med), sum, |xs|);
    MeanAdIs(ys, med, Deviations(ys, med), total, |ys|);
  }

  /** A baseline repeated as a whole has the same statistics, and gives every value the same verdict. */
  lemma RepeatedBaseline(value: real, xs: seq<real>, k: nat, threshold: real)
    requires xs != [] && k > 0
    ensures var ys := Repeat(xs, k);
            && ys != [] && Median(ys) == Median(xs) && Mad(ys) == Mad(xs) && MeanAd(ys) == MeanAd(xs)
            && Score(value, ys, threshold) == Score(value, xs, threshold)
  {
    MedianOfRepeat(xs, k);
    MadOfRepeat(xs, k);
    MeanAdOfRepeat(xs, k);
  }

  /* ---------- what a verdict says ---------- */

  lemma RatioTimesUnit(d: real, unit: real)
    requires unit > 0.0
    ensures Magnitude(d, unit) * unit == Away(d, 0.0)
  {
    AbsOfRatio(d, unit);
    assert Abs(d) / unit * unit == Abs(d);
  }

  lemma VerdictMeans(value: real, med: real, mad: real, meanAd: real, threshold: real)
    ensures var s := Verdict(value, med, mad, meanAd, threshold);
            && (mad > 0.0 ==> s.absZ.Some? && s.absZ.value * mad == 0.6745 * Away(value, med))
            && (mad <= 0.0 && meanAd > 0.0 ==>
                  s.absZ.Some? && s.absZ.value * (1.2533 * meanAd) == Away(value, med))
  {
    if mad > 0.0 {
      var z := Magnitude(value - med, mad / MAD_TO_SIGMA);
      RatioTimesUnit(value - med, mad / MAD_TO_SIGMA);
      assert z * (mad / 0.6745) == z * mad / 0.6745;
    } else if meanAd > 0.0 {
      RatioTimesUnit(value - med, MEAN_AD_TO_SIGMA * meanAd);
    }
  }

  /** The |z| of a value, times the MAD, is 0.6745 times its distance from the median; at MAD zero, times
      1.2533 mean deviations it is the distance.  It is an anomaly from the threshold on.  Against a
      constant baseline a value is an anomaly, without a |z|, exactly when it differs. */
  lemma ScoreMeans(value: real, baseline: seq<real>, threshold: real)
    requires baseline != []
    ensures var s, med := Score(value, baseline, threshold), Median(baseline);
            && (Mad(baseline) > 0.0 ==>
                  s.absZ.Some? && s.absZ.value * Mad(baseline) == 0.6745 * Away(value, med))
            && (Mad(baseline) <= 0.0 && MeanAd(baseline) > 0.0 ==>
                  s.absZ.Some? && s.absZ.value * (1.2533 * MeanAd(baseline)) == Away(value, med))
            && (Mad(baseline) > 0.0 || MeanAd(baseline) > 0.0 ==>
                  s.status == Ok && (s.anomaly <==> s.absZ.value >= threshold))
            && (Mad(baseline) <= 0.0 && MeanAd(baseline) <= 0.0 ==>
                  s == Scored(DegenerateConstantBaseline, if value == med then Some(0.0) else None, value != med))
  {
    VerdictMeans(value, Median(baseline), Mad(baseline), MeanAd(baseline), threshold);
  }

  /* ---------- what a value is scored against ---------- */

  lemma HalfSnoc(lengths: seq<real>, x: real, parity: nat)
    requires parity <= 1
    ensures Half(lengths + [x], parity) == Half(lengths, parity) + if |lengths| % 2 == parity then [x] else []
  {
  }

  lemma {:induction false} HalvesSplit(lengths: seq<real>)
    ensures multiset(Half(lengths, 0)) + multiset(Half(lengths, 1)) == multiset(lengths)
  {
    if lengths != [] {
      var front, last := lengths[..|lengths| - 1], lengths[|lengths| - 1];
      HalvesSplit(front);
      HalfSnoc(front, last, 0);
      HalfSnoc(front, last, 1);
      assert lengths == front + [last];
    }
  }

  /** A value never influences what it is scored against, in a group of any size. */
  lemma OwnBaseline(lengths: seq<real>, i: nat, v: real)
    requires i < |lengths|
    ensures BaselineOf(lengths[i := v], i) == BaselineOf(lengths, i)
  {
    if |lengths| <= EXACT_LIMIT {
      assert Others(lengths[i := v], i) == Others(lengths, i);
    } else {
      assert Half(lengths[i := v], 1 - i % 2) == Half(lengths, 1 - i % 2);
    }
  }

  /** Up to 2,000 values it is all the others. */
  lemma SmallBaseline(lengths: seq<real>, i: nat)
    requires i < |lengths| <= 2_000
    ensures multiset(BaselineOf(lengths, i)) == multiset(lengths) - multiset{lengths[i]}
  {
    OthersContents(lengths, i);
  }

  /** In a larger group the values at even and at odd positions are scored against each other. */
  lemma LargeBaseline(lengths: seq<real>, i: nat, j: nat)
    requires |lengths| > 2_000 && i < |lengths| && j < |lengths| && i % 2 != j % 2
    ensures multiset(BaselineOf(lengths, i)) + multiset(BaselineOf(lengths, j)) == multiset(lengths)
  {
    HalvesSplit(lengths);
    assert {BaselineOf(lengths, i), BaselineOf(lengths, j)} == {Half(lengths, 0), Half(lengths, 1)};
  }
}
