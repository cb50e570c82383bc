/**
  Robust anomaly scoring of completion lengths: median and MAD baselines, each value scored
  against the others of its group.
 */
module Quality {
  import opened Wrappers
  import opened OrderStatistics
  import opened Normalization

  const MAD_TO_SIGMA := 0.6745
  const MEAN_AD_TO_SIGMA := 1.2533
  const EXACT_LIMIT: nat := 2_000

  datatype Status = Ok | ColdStart | DegenerateConstantBaseline

  // The status, |z| and verdict of one value.
  datatype Scored = Scored(status: Status, absZ: Option<real>, anomaly: bool)

  datatype AnomalyResult = AnomalyResult(status: Status, score: Option<real>, isAnomaly: bool)

  datatype GroupResult = GroupResult(status: Status, anomalyCount: nat, maxAbsZ: Option<real>)

  function Abs(x: real): real {
    if x < 0.0 then -x else x
  }

  function Map<T>(xs: seq<real>, f: real -> T): (ys: seq<T>)
    ensures |ys| == |xs| && forall i :: 0 <= i < |xs| ==> ys[i] == f(xs[i])
  {
    seq(|xs|, i requires 0 <= i < |xs| => f(xs[i]))
  }

  function Sum(xs: seq<real>): real {
    if xs == [] then 0.0 else Sum(xs[..|xs| - 1]) + xs[|xs| - 1]
  }

  // `statistics.median`.
  function Median(xs: seq<real>): real
    requires xs != []
  {
    var s, n := Sorted(xs), |xs|;
    if n % 2 == 1 then s[n / 2] else (s[n / 2 - 1] + s[n / 2]) / 2.0
  }

  function Deviations(xs: seq<real>, center: real): (ds: seq<real>)
    ensures |ds| == |xs|
  {
    Map(xs, x => Abs(x - center))
  }

  function Mad(xs: seq<real>): real
    requires xs != []
  {
    Median(Deviations(xs, Median(xs)))
  }

  function MeanAd(xs: seq<real>): real
    requires xs != []
  {
    Sum(Deviations(xs, Median(xs))) / |xs| as real
  }

  // |z|: a deviation in units of the estimated spread.
  function Magnitude(deviation: real, unit: real): real
    requires unit > 0.0
  {
    Abs(deviation / unit)
  }

  // The verdict from the baseline's three statistics.
  function Verdict(value: real, med: real, mad: real, meanAd: real, threshold: real): Scored {
    if mad > 0.0 then
      var z := Magnitude(value - med, mad / MAD_TO_SIGMA);
      Scored(Ok, Some(z), z >= threshold)
    else if meanAd > 0.0 then
      var z := Magnitude(value - med, MEAN_AD_TO_SIGMA * meanAd);
      Scored(Ok, Some(z), z >= threshold)
    else Scored(DegenerateConstantBaseline, if value == med then Some(0.0) else None, value != med)
  }

  // A value against a baseline, as `score_group` does it.
  function Score(value: real, baseline: seq<real>, threshold: real): Scored
    requires baseline != []
  {
    Verdict(value, Median(baseline), Mad(baseline), MeanAd(baseline), threshold)
  }

  // A value against a separate baseline, with a signed score.
  function RobustZscore(value: real, baseline: seq<real>, cfg: AnomalyConfig): AnomalyResult
    requires cfg.minSample >= 1
  {
    if |baseline| < cfg.minSample then AnomalyResult(ColdStart, None, false)
    else
      var med, mad, meanAd := Median(baseline), Mad(baseline), MeanAd(baseline);
      if mad > 0.0 then
        var z := MAD_TO_SIGMA * (value - med) / mad;
        AnomalyResult(Ok, Some(z), Abs(z) >= cfg.threshold)
      else if meanAd > 0.0 then
        var z := (value - med) / (MEAN_AD_TO_SIGMA * meanAd);
        AnomalyResult(Ok, Some(z), Abs(z) >= cfg.threshold)
      else if value == med then AnomalyResult(DegenerateConstantBaseline, Some(0.0), false)
      else AnomalyResult(DegenerateConstantBaseline, None, true)
  }

  /* ---------- scoring a group ---------- */

  function Others(lengths: seq<real>, i: nat): seq<real>
    requires i < |lengths|
  {
    lengths[..i] + lengths[i + 1..]
  }

  // How a value is scored against a baseline; `None` where that raises.  The group logic works for
  // any such rule.
  type Scorer = (real, seq<real>) -> Option<Scored>

  // The source's rule: the median of nothing raises.
  function ScorerOf(threshold: real): Scorer {
    (value: real, baseline: seq<real>) =>
      if baseline == [] then None else Some(Score(value, baseline, threshold))
  }

  // Every value against all the others.
  function LeaveOneOut(lengths: seq<real>, score: Scorer): (scores: seq<Option<Scored>>)
    ensures |scores| == |lengths|
  {
    seq(|lengths|, i requires 0 <= i < |lengths| => score(lengths[i], Others(lengths, i)))
  }

  // `lengths[parity::2]`.
  function Half(lengths: seq<real>, parity: nat): (half: seq<real>)
    requires parity <= 1
    ensures |lengths| >= 2 ==> half != []
  {
    seq((|lengths| + 1 - parity) / 2, i requires 0 <= i < (|lengths| + 1 - parity) / 2 => lengths[2 * i + parity])
  }

  // Every value against the other half.
  function CrossFit(lengths: seq<real>, score: Scorer): (scores: seq<Option<Scored>>)
    ensures |scores| == |lengths|
  {
    seq(|lengths|, i requires 0 <= i < |lengths| => score(lengths[i], Half(lengths, 1 - i % 2)))
  }

  predicate Raises(scores: seq<Option<Scored>>) {
    exists i :: 0 <= i < |scores| && scores[i].None?
  }

  function Values(scores: seq<Option<Scored>>): (scored: seq<Scored>)
    requires !Raises(scores)
    ensures |scored| == |scores|
  {
    seq(|scores|, i requires 0 <= i < |scores| => scores[i].value)
  }

  // A loop over scores ends with the first that raises.
  function Collected(scores: seq<Option<Scored>>): Option<seq<Scored>> {
    if Raises(scores) then None else Some(Values(scores))
  }

  function MaxOf(a: Option<real>, b: Option<real>): Option<real> {
    if a.None? then b else if b.None? || a.value >= b.value then a else b
  }

  function AddScored(g: GroupResult, s: Scored): GroupResult {
    GroupResult(if s.status == Ok then Ok else g.status, g.anomalyCount + (if s.anomaly then 1 else 0),
                MaxOf(g.maxAbsZ, s.absZ))
  }

  // Status, anomaly count and maximum of a list of scores.
  function GroupOf(scored: seq<Scored>): GroupResult {
    if scored == [] then GroupResult(DegenerateConstantBaseline, 0, None)
    else AddScored(GroupOf(scored[..|scored| - 1]), scored[|scored| - 1])
  }

  function ScoresOf(lengths: seq<real>, score: Scorer): seq<Option<Scored>> {
    if |lengths| <= EXACT_LIMIT then LeaveOneOut(lengths, score) else CrossFit(lengths, score)
  }

  // The result for a group; `None` where scoring one of its values raises.
  function GroupScore(lengths: seq<real>, minSample: int, score: Scorer): Option<GroupResult> {
    if |lengths| < minSample then Some(GroupResult(ColdStart, 0, None))
    else
      var scored := Collected(ScoresOf(lengths, score));
      if scored.None? then None else Some(GroupOf(scored.value))
  }

  method ScoreLeaveOneOut(lengths: seq<real>, score: Scorer) returns (scored: Option<seq<Scored>>)
    ensures scored == Collected(LeaveOneOut(lengths, score))
  {
    var done: seq<Scored> := [];
    ghost var scores := LeaveOneOut(lengths, score);
    for i := 0 to |lengths|
      invariant |done| == i && forall k :: 0 <= k < i ==> scores[k] == Some(done[k])
    {
      var baseline := lengths[..i] + lengths[i + 1..];
      assert baseline == Others(lengths, i);
      var s := score(lengths[i], baseline);
      if s.None? {
        assert scores[i].None?;
        return None;
      }
      done := done + [s.value];
    }
    assert !Raises(scores) && done == Values(scores);
    scored := Some(done);
  }

  method ScoreCrossFit(lengths: seq<real>, score: Scorer) returns (scored: Option<seq<Scored>>)
    ensures scored == Collected(CrossFit(lengths, score))
  {
    var done: seq<Scored> := [];
    var left, right := Half(lengths, 0), Half(lengths, 1);
    ghost var scores := CrossFit(lengths, score);
    for i := 0 to |lengths|
      invariant |done| == i && forall k :: 0 <= k < i ==> scores[k] == Some(done[k])
    {
      var s := score(lengths[i], if i % 2 == 0 then right else left);
      if s.None? {
        assert scores[i].None?;
        return None;
      }
      done := done + [s.value];
    }
    assert !Raises(scores) && done == Values(scores);
    scored := Some(done);
  }

  // The positions of the anomalies.
  function Anomalies(scored: seq<Scored>): set<nat> {
    set i | 0 <= i < |scored| && scored[i].anomaly
  }

  // The greatest of the finite |z|, if there is one.
  ghost predicate IsMaxAbsZ(max: Option<real>, scored: seq<Scored>) {
    if max.None? then forall i :: 0 <= i < |scored| ==> scored[i].absZ.None?
    else
      && (exists i :: 0 <= i < |scored| && scored[i].absZ == max)
      && forall i :: 0 <= i < |scored| && scored[i].absZ.Some? ==> scored[i].absZ.value <= max.value
  }

  /** The fold over the scores: the number of anomalies, the greatest finite |z|, and ok exactly when
      some score is. */
  lemma {:induction false} GroupMeans(scored: seq<Scored>)
    ensures var g := GroupOf(scored);
            && g.anomalyCount == |Anomalies(scored)| && IsMaxAbsZ(g.maxAbsZ, scored)
            && (g.status == Ok <==> exists i :: 0 <= i < |scored| && scored[i].status == Ok)
            && (g.status != Ok ==> g.status == DegenerateConstantBaseline)
  {
    if scored != [] {
      var n := |scored| - 1;
      var front := scored[..n];
      GroupMeans(front);
      AnomaliesSnoc(scored);
      MaxSnoc(GroupOf(front).maxAbsZ, front, scored[n]);
      assert scored == front + [scored[n]];
      if i :| 0 <= i < n && front[i].status == Ok {
        assert scored[i].status == Ok;
      }
    } else {
      assert Anomalies(scored) == {};
    }
  }

  lemma MaxSnoc(max: Option<real>, scored: seq<Scored>, s: Scored)
    requires IsMaxAbsZ(max, scored)
    ensures IsMaxAbsZ(MaxOf(max, s.absZ), scored + [s])
  {
    var all := scored + [s];
    assert all[|scored|] == s;
    if max.Some? {
      var i :| 0 <= i < |scored| && scored[i].absZ == max;
      assert all[i].absZ == max;
    }
  }

  lemma AnomaliesSnoc(scored: seq<Scored>)
    requires scored != []
    ensures var n := |scored| - 1;
            |Anomalies(scored)| == |Anomalies(scored[..n])| + if scored[n].anomaly then 1 else 0
  {
    var n := |scored| - 1;
    assert Anomalies(scored) == Anomalies(scored[..n]) + if scored[n].anomaly then {n} else {};
  }

  method Summarize(scored: seq<Scored>) returns (g: GroupResult)
    ensures g == GroupOf(scored)
    ensures g.anomalyCount == |Anomalies(scored)| && IsMaxAbsZ(g.maxAbsZ, scored)
    ensures g.status == Ok <==> exists i :: 0 <= i < |scored| && scored[i].status == Ok
  {
    g := GroupResult(DegenerateConstantBaseline, 0, None);
    for i := 0 to |scored|
      invariant g == GroupOf(scored[..i])
    {
      assert scored[..i + 1][..i] == scored[..i];
      g := AddScored(g, scored[i]);
    }
    assert scored[..|scored|] == scored;
    GroupMeans(scored);
  }

  method ScoreGroup(lengths: seq<real>, minSample: int, score: Scorer) returns (result: Option<GroupResult>)
    ensures result == GroupScore(lengths, minSample, score)
  {
    if |lengths| < minSample {
      return Some(GroupResult(ColdStart, 0, None));
    }
    var scored: Option<seq<Scored>>;
    if |lengths| <= EXACT_LIMIT {
      scored := ScoreLeaveOneOut(lengths, score);
    } else {
      scored := ScoreCrossFit(lengths, score);
    }
    if scored.None? {
      return None;
    }
    var g := Summarize(scored.value);
    result := Some(g);
  }

  lemma ScoresRaise(lengths: seq<real>, threshold: real)
    ensures Raises(ScoresOf(lengths, ScorerOf(threshold))) <==> |lengths| == 1
  {
    var scores := ScoresOf(lengths, ScorerOf(threshold));
    if |lengths| <= EXACT_LIMIT {
      forall i | 0 <= i < |lengths| ensures scores[i].None? <==> |lengths| == 1 {
        assert |Others(lengths, i)| == |lengths| - 1;
      }
      if |lengths| == 1 {
        assert scores[0].None?;
      }
    } else {
      forall i | 0 <= i < |lengths| ensures scores[i].Some? {
        assert Half(lengths, 1 - i % 2) != [];
      }
    }
  }

  /** Scoring a group raises, taking the median of nothing, exactly for a single value with a minimum
      sample of at most one. */
  lemma RaisesExactly(lengths: seq<real>, minSample: int, threshold: real)
    ensures GroupScore(lengths, minSample, ScorerOf(threshold)).None? <==> |lengths| == 1 && minSample <= 1
  {
    ScoresRaise(lengths, threshold);
  }

  lemma SameRatio(d: real, mad: real)
    requires mad > 0.0
    ensures MAD_TO_SIGMA * d / mad == d / (mad / MAD_TO_SIGMA)
  {
    var unit := mad / MAD_TO_SIGMA;
    var z := d / unit;
    assert d == z * unit;
    assert MAD_TO_SIGMA * d == z * mad;
  }

  /** The two scoring functions agree on every baseline that is not a cold start: same status, same
      verdict, and the group score is the magnitude of the signed one. */
  lemma ScorersAgree(value: real, baseline: seq<real>, cfg: AnomalyConfig)
    requires 1 <= cfg.minSample <= |baseline|
    ensures var signed, s := RobustZscore(value, baseline, cfg), Score(value, baseline, cfg.threshold);
            && signed.status == s.status && signed.isAnomaly == s.anomaly
            && s.absZ == (if signed.score.Some? then Some(Abs(signed.score.value)) else None)
  {
    VerdictsAgree(value, Median(baseline), Mad(baseline), MeanAd(baseline), cfg.threshold);
  }

  lemma VerdictsAgree(value: real, med: real, mad: real, meanAd: real, threshold: real)
    ensures mad > 0.0 ==>
      Verdict(value, med, mad, meanAd, threshold)
      == (var z := MAD_TO_SIGMA * (value - med) / mad; Scored(Ok, Some(Abs(z)), Abs(z) >= threshold))
  {
    if mad > 0.0 {
      SameRatio(value - med, mad);
    }
  }

  /* ---------- breakdown point ---------- */

  // How many values lie outside [lo, hi].
  function CountOutside(xs: seq<real>, lo: real, hi: real): nat {
    if xs == [] then 0
    else CountOutside(xs[..|xs| - 1], lo, hi) + if lo <= xs[|xs| - 1] <= hi then 0 else 1
  }

  lemma {:induction false} OutsideBounds(xs: seq<real>, lo: real, hi: real, v: real)
    ensures v < lo ==> CountAtMost(xs, v) <= CountOutside(xs, lo, hi)
    ensures v == hi ==> CountAtMost(xs, v) + CountOutside(xs, lo, hi) >= |xs|
  {
    if xs != [] {
      OutsideBounds(xs[..|xs| - 1], lo, hi, v);
    }
  }

  /** The median stays in [lo, hi] while fewer than half of the values lie outside it. */
  lemma MedianBreakdown(xs: seq<real>, lo: real, hi: real)
    requires 2 * CountOutside(xs, lo, hi) < |xs|
    ensures lo <= Median(xs) <= hi
  {
    var s, n := Sorted(xs), |xs|;
    var low, high := (n - 1) / 2, n / 2;
    OutsideBounds(xs, lo, hi, hi);
    RankByCount(xs, low + 1, hi);
    RankByCount(xs, high + 1, hi);
    OutsideBounds(xs, lo, hi, s[low]);
    RankByCount(xs, low + 1, s[low]);
    SortedSpec(xs);
    assert s[low] <= s[high];
  }

  lemma {:induction false} DeviationsOutside(xs: seq<real>, lo: real, hi: real, center: real)
    requires lo <= center <= hi
    ensures CountOutside(Deviations(xs, center), 0.0, hi - lo) <= CountOutside(xs, lo, hi)
  {
    if xs != [] {
      var front, last := xs[..|xs| - 1], xs[|xs| - 1];
      DeviationsOutside(front, lo, hi, center);
      assert Deviations(xs, center) == Deviations(front, center) + [Abs(last - center)];
    }
  }

  /** So does the MAD, within the width of the interval. */
  lemma MadBreakdown(xs: seq<real>, lo: real, hi: real)
    requires 2 * CountOutside(xs, lo, hi) < |xs|
    ensures 0.0 <= Mad(xs) <= hi - lo
  {
    MedianBreakdown(xs, lo, hi);
    DeviationsOutside(xs, lo, hi, Median(xs));
    MedianBreakdown(Deviations(xs, Median(xs)), 0.0, hi - lo);
  }

  // Further than (threshold / 0.6745) widths outside the interval.
  ghost predicate FarOut(value: real, lo: real, hi: real, threshold: real) {
    var margin := threshold / MAD_TO_SIGMA * (hi - lo);
    value > hi + margin || value < lo - margin
  }

  lemma FarIsFlagged(value: real, med: real, mad: real, meanAd: real, width: real, threshold: real)
    requires 0.0 < mad <= width && threshold > 0.0
    requires Abs(value - med) > threshold / MAD_TO_SIGMA * width
    ensures Verdict(value, med, mad, meanAd, threshold).anomaly
  {
    var unit, t := mad / MAD_TO_SIGMA, threshold / MAD_TO_SIGMA;
    assert t * mad <= t * width;
    assert t * mad == threshold * unit;
    RatioAbove(Abs(value - med), unit, threshold);
    AbsOfRatio(value - med, unit);
  }

  lemma RatioAbove(x: real, unit: real, threshold: real)
    requires unit > 0.0 && x > threshold * unit
    ensures x / unit >= threshold
  {
    var r := x / unit;
    assert r * unit == x;
    assert (r - threshold) * unit > 0.0;
  }

  lemma AbsOfRatio(d: real, unit: real)
    requires unit > 0.0
    ensures Abs(d / unit) == Abs(d) / unit
  {
    if d >= 0.0 {
      assert d / unit >= 0.0;
    } else {
      assert (-d) / unit > 0.0;
      assert d / unit == -((-d) / unit);
    }
  }

  lemma FarFromCenter(value: real, center: real, lo: real, hi: real, threshold: real)
    requires FarOut(value, lo, hi, threshold) && lo <= center <= hi && threshold > 0.0
    ensures Abs(value - center) > threshold / MAD_TO_SIGMA * (hi - lo)
  {
    var t := threshold / MAD_TO_SIGMA;
    assert t > 0.0;
    assert t * (hi - lo) >= 0.0;
  }

  lemma FarVerdict(value: real, med: real, mad: real, meanAd: real, lo: real, hi: real, threshold: real)
    requires lo <= med <= hi && 0.0 < mad <= hi - lo && threshold > 0.0
    requires FarOut(value, lo, hi, threshold)
    ensures Verdict(value, med, mad, meanAd, threshold).anomaly
  {
    FarFromCenter(value, med, lo, hi, threshold);
    FarIsFlagged(value, med, mad, meanAd, hi - lo, threshold);
  }

  lemma FarScore(value: real, baseline: seq<real>, lo: real, hi: real, threshold: real)
    requires baseline != [] && lo <= Median(baseline) <= hi && 0.0 < Mad(baseline) <= hi - lo && threshold > 0.0
    requires FarOut(value, lo, hi, threshold)
    ensures Score(value, baseline, threshold).anomaly
  {
    FarVerdict(value, Median(baseline), Mad(baseline), MeanAd(baseline), lo, hi, threshold);
  }

  lemma RobustStatistics(baseline: seq<real>, lo: real, hi: real)
    requires 2 * CountOutside(baseline, lo, hi) < |baseline|
    ensures lo <= Median(baseline) <= hi && 0.0 <= Mad(baseline) <= hi - lo
  {
    MedianBreakdown(baseline, lo, hi);
    MadBreakdown(baseline, lo, hi);
  }

  /** Detection under poisoning: whatever fewer than half of the baseline holds, a value far
      outside the range of the rest is flagged, provided the MAD is positive. */
  lemma RobustDetection(value: real, baseline: seq<real>, lo: real, hi: real, threshold: real)
    requires 2 * CountOutside(baseline, lo, hi) < |baseline| && threshold > 0.0
    requires Mad(baseline) > 0.0 && FarOut(value, lo, hi, threshold)
    ensures Score(value, baseline, threshold).anomaly
  {
    RobustStatistics(baseline, lo, hi);
    FarScore(value, baseline, lo, hi, threshold);
  }

  // What the value at position i of a group is scored against.
  function BaselineOf(lengths: seq<real>, i: nat): seq<real>
    requires i < |lengths|
  {
    if |lengths| <= EXACT_LIMIT then Others(lengths, i) else Half(lengths, 1 - i % 2)
  }

  lemma ScoredAgainst(lengths: seq<real>, i: nat, score: Scorer)
    requires i < |lengths|
    ensures |ScoresOf(lengths, score)| == |lengths|
    ensures ScoresOf(lengths, score)[i] == score(lengths[i], BaselineOf(lengths, i))
  {
  }

  // The value at position i lies far outside a range that holds a majority of its baseline.
  ghost predicate FarAt(lengths: seq<real>, i: nat, lo: real, hi: real, threshold: real)
    requires i < |lengths|
  {
    var baseline := BaselineOf(lengths, i);
    && 2 * CountOutside(baseline, lo, hi) < |baseline| && Mad(baseline) > 0.0
    && FarOut(lengths[i], lo, hi, threshold)
  }

  // The positions of such values, each with a range of its own.
  ghost predicate Far(lengths: seq<real>, i: nat, threshold: real)
    requires i < |lengths|
  {
    exists lo, hi :: FarAt(lengths, i, lo, hi, threshold)
  }

  ghost function FarPositions(lengths: seq<real>, threshold: real): set<nat> {
    set i | 0 <= i < |lengths| && Far(lengths, i, threshold)
  }

  lemma FarScored(lengths: seq<real>, i: nat, threshold: real)
    requires threshold > 0.0 && i in FarPositions(lengths, threshold)
    ensures var scores := ScoresOf(lengths, ScorerOf(threshold));
            i < |scores| && (scores[i].Some? ==> scores[i].value.anomaly)
  {
    var lo, hi :| FarAt(lengths, i, lo, hi, threshold);
    RobustDetection(lengths[i], BaselineOf(lengths, i), lo, hi, threshold);
    ScoredAgainst(lengths, i, ScorerOf(threshold));
  }

  lemma SubsetSize<T>(a: set<T>, b: set<T>)
    requires a <= b
    ensures |a| <= |b|
  {
    assert b == a + (b - a);
  }

  /** So a group of any size counts at least the values that are that far out of a majority of what
      they are scored against: of the others, or in a large group of the other half. */
  lemma GroupDetects(lengths: seq<real>, minSample: int, threshold: real)
    requires 2 <= |lengths| && minSample <= |lengths| && threshold > 0.0
    ensures var g := GroupScore(lengths, minSample, ScorerOf(threshold));
            g.Some? && g.value.anomalyCount >= |FarPositions(lengths, threshold)|
  {
    var scores := ScoresOf(lengths, ScorerOf(threshold));
    ScoresRaise(lengths, threshold);
    GroupMeans(Values(scores));
    forall i | i in FarPositions(lengths, threshold) ensures i in Anomalies(Values(scores)) {
      FarScored(lengths, i, threshold);
    }
    SubsetSize(FarPositions(lengths, threshold), Anomalies(Values(scores)));
  }

  /* ---------- exactly when detection is complete ---------- */

  function RealMin(x: real, y: real): real {
    if x < y then x else y
  }

  // The fallback flags what lies just outside the margins.
  ghost predicate Clears(med: real, meanAd: real, lo: real, hi: real, threshold: real) {
    RealMin(hi - med, med - lo) + threshold / MAD_TO_SIGMA * (hi - lo) >= threshold * (MEAN_AD_TO_SIGMA * meanAd)
  }

  lemma RatioAtLeast(x: real, unit: real, threshold: real)
    requires unit > 0.0
    ensures x / unit >= threshold <==> x >= threshold * unit
  {
    var r := x / unit;
    assert r * unit == x;
    if r >= threshold {
      assert (r - threshold) * unit >= 0.0;
    } else {
      assert (threshold - r) * unit > 0.0;
    }
  }

  lemma FallbackFlags(value: real, med: real, meanAd: real, threshold: real)
    requires meanAd > 0.0
    ensures Verdict(value, med, 0.0, meanAd, threshold).anomaly
            <==> Abs(value - med) >= threshold * (MEAN_AD_TO_SIGMA * meanAd)
  {
    var unit := MEAN_AD_TO_SIGMA * meanAd;
    AbsOfRatio(value - med, unit);
    RatioAtLeast(Abs(value - med), unit, threshold);
  }

  ghost predicate Beyond(value: real, lo: real, hi: real, margin: real) {
    value > hi + margin || value < lo - margin
  }

  // Everything beyond the margins is at least `need` away from the center, or something is not.
  lemma BeyondIsFar(lo: real, hi: real, med: real, margin: real, need: real) returns (value: real)
    requires lo <= med <= hi && margin >= 0.0
    ensures RealMin(hi - med, med - lo) + margin >= need ==>
              forall v :: Beyond(v, lo, hi, margin) ==> Abs(v - med) >= need
    ensures RealMin(hi - med, med - lo) + margin < need ==>
              Beyond(value, lo, hi, margin) && Abs(value - med) < need
  {
    if hi - med + margin < need {
      value := (hi + margin + med + need) / 2.0;
    } else {
      value := (lo - margin + med - need) / 2.0;
    }
  }

  lemma {:induction false} SumNonNegative(xs: seq<real>)
    requires forall i :: 0 <= i < |xs| ==> xs[i] >= 0.0
    ensures Sum(xs) >= 0.0
  {
    if xs != [] {
      SumNonNegative(xs[..|xs| - 1]);
    }
  }

  lemma MeanAdNonNegative(xs: seq<real>)
    requires xs != []
    ensures MeanAd(xs) >= 0.0
  {
    var ds := Deviations(xs, Median(xs));
    assert forall i :: 0 <= i < |ds| ==> ds[i] == Abs(xs[i] - Median(xs));
    SumNonNegative(ds);
  }

  lemma MarginNonNegative(lo: real, hi: real, threshold: real)
    requires lo <= hi && threshold > 0.0
    ensures threshold / MAD_TO_SIGMA * (hi - lo) >= 0.0
  {
    var t := threshold / MAD_TO_SIGMA;
    assert t > 0.0;
    assert t * (hi - lo) >= 0.0;
  }

  lemma FarOutIsBeyond(value: real, lo: real, hi: real, threshold: real)
    ensures FarOut(value, lo, hi, threshold) <==> Beyond(value, lo, hi, threshold / MAD_TO_SIGMA * (hi - lo))
  {
  }

  // Every value far out of [lo, hi] gets flagged.
  ghost predicate DetectsAll(lo: real, hi: real, threshold: real, flags: real -> bool) {
    forall v :: FarOut(v, lo, hi, threshold) ==> flags(v)
  }

  lemma FallbackDetects(med: real, meanAd: real, lo: real, hi: real, threshold: real, flags: real -> bool)
    requires lo <= med <= hi && meanAd > 0.0 && threshold > 0.0
    requires forall v :: flags(v) <==> Verdict(v, med, 0.0, meanAd, threshold).anomaly
    ensures DetectsAll(lo, hi, threshold, flags) <==> Clears(med, meanAd, lo, hi, threshold)
  {
    var margin, need := threshold / MAD_TO_SIGMA * (hi - lo), threshold * (MEAN_AD_TO_SIGMA * meanAd);
    MarginNonNegative(lo, hi, threshold);
    var value := BeyondIsFar(lo, hi, med, margin, need);
    FarOutIsBeyond(value, lo, hi, threshold);
    FallbackFlags(value, med, meanAd, threshold);
    forall v ensures flags(v) <==> Abs(v - med) >= need {
      FallbackFlags(v, med, meanAd, threshold);
    }
    forall v | FarOut(v, lo, hi, threshold) ensures Beyond(v, lo, hi, margin) {
      FarOutIsBeyond(v, lo, hi, threshold);
    }
  }

  lemma ConstantDetects(med: real, mad: real, meanAd: real, lo: real, hi: real, threshold: real, flags: real -> bool)
    requires lo <= med <= hi && mad <= 0.0 && meanAd <= 0.0 && threshold > 0.0
    requires forall v :: flags(v) <==> Verdict(v, med, mad, meanAd, threshold).anomaly
    ensures DetectsAll(lo, hi, threshold, flags)
  {
    MarginNonNegative(lo, hi, threshold);
    forall v | FarOut(v, lo, hi, threshold) ensures flags(v) {
      FarOutIsBeyond(v, lo, hi, threshold);
    }
  }

  function FlagsOf(baseline: seq<real>, threshold: real): real -> bool
    requires baseline != []
  {
    v => Score(v, baseline, threshold).anomaly
  }

  /** Exactly when poisoning cannot hide: for a baseline with a majority in [lo, hi], every value far
      outside is flagged if and only if the MAD is positive, or the baseline is constant in the mean,
      or the mean deviation is small against the margins and the distance of the median to them. */
  lemma DetectionIsExact(baseline: seq<real>, lo: real, hi: real, threshold: real)
    requires 2 * CountOutside(baseline, lo, hi) < |baseline| && threshold > 0.0
    ensures DetectsAll(lo, hi, threshold, FlagsOf(baseline, threshold)) <==>
              || Mad(baseline) > 0.0 || MeanAd(baseline) == 0.0
              || Clears(Median(baseline), MeanAd(baseline), lo, hi, threshold)
  {
    RobustStatistics(baseline, lo, hi);
    MeanAdNonNegative(baseline);
    var flags := FlagsOf(baseline, threshold);
    if Mad(baseline) > 0.0 {
      forall v | FarOut(v, lo, hi, threshold) ensures flags(v) {
        RobustDetection(v, baseline, lo, hi, threshold);
      }
    } else if MeanAd(baseline) == 0.0 {
      ConstantDetects(Median(baseline), Mad(baseline), MeanAd(baseline), lo, hi, threshold, flags);
    } else {
      FallbackDetects(Median(baseline), MeanAd(baseline), lo, hi, threshold, flags);
    }
  }

  lemma TwoZerosAndOne()
    ensures Sorted([0.0, 0.0, 1.0]) == [0.0, 0.0, 1.0] && Sum([0.0, 0.0, 1.0]) == 1.0
    ensures CountOutside([0.0, 0.0, 1.0], 0.0, 0.0) == 1
  {
    var b := [0.0, 0.0, 1.0];
    var c := b[..2];
    assert c == [0.0, 0.0] && c[..1] == [0.0] && c[..1][..0] == [];
    assert Sorted(c[..1]) == [0.0];
    assert Sorted(c) == [0.0, 0.0];
    assert Sum(c[..1]) == 0.0;
    assert CountOutside(c[..1], 0.0, 0.0) == 0;
  }

  /** A baseline that hides one: an outlier among three inflates the mean deviation that takes over
      at MAD zero. */
  lemma ZeroMadMasks()
    ensures var baseline := [0.0, 0.0, 1.0];
            && 2 * CountOutside(baseline, 0.0, 0.0) < |baseline| && FarOut(1.0, 0.0, 0.0, 3.5)
            && Mad(baseline) == 0.0 && !Score(1.0, baseline, 3.5).anomaly
  {
    var b := [0.0, 0.0, 1.0];
    TwoZerosAndOne();
    assert Deviations(b, 0.0) == b by {
      assert forall i :: 0 <= i < 3 ==> Deviations(b, 0.0)[i] == Abs(b[i] - 0.0);
    }
  }

  /* ---------- order does not matter ---------- */

  lemma SortedOfPermutation(xs: seq<real>, ys: seq<real>)
    requires multiset(xs) == multiset(ys)
    ensures Sorted(xs) == Sorted(ys)
  {
    SortedSpec(xs);
    SortedSpec(ys);
    AscendingUnique(Sorted(xs), Sorted(ys));
  }

  lemma MapSnoc<T>(xs: seq<real>, x: real, f: real -> T)
    ensures Map(xs + [x], f) == Map(xs, f) + [f(x)]
  {
  }

  lemma {:induction false} MapOfInsert<T>(x: real, s: seq<real>, f: real -> T)
    ensures multiset(Map(Insert(x, s), f)) == multiset(Map(s, f)) + multiset{f(x)}
  {
    if s == [] || s[|s| - 1] <= x {
      MapSnoc(s, x, f);
    } else {
      var front, last := s[..|s| - 1], s[|s| - 1];
      MapOfInsert(x, front, f);
      MapSnoc(Insert(x, front), last, f);
      MapSnoc(front, last, f);
      assert s == front + [last];
    }
  }

  lemma {:induction false} MapOfSorted<T>(xs: seq<real>, f: real -> T)
    ensures multiset(Map(xs, f)) == multiset(Map(Sorted(xs), f))
  {
    if xs != [] {
      var front, last := xs[..|xs| - 1], xs[|xs| - 1];
      MapOfSorted(front, f);
      MapSnoc(front, last, f);
      assert xs == front + [last];
      MapOfInsert(last, Sorted(front), f);
    }
  }

  lemma {:induction false} SumOfInsert(x: real, s: seq<real>)
    ensures Sum(Insert(x, s)) == Sum(s) + x
  {
    if s != [] && s[|s| - 1] > x {
      var front, last := s[..|s| - 1], s[|s| - 1];
      SumOfInsert(x, front);
      assert (Insert(x, front) + [last])[..|s|] == Insert(x, front);
    } else {
      assert (s + [x])[..|s|] == s;
    }
  }

  lemma {:induction false} SumOfSorted(xs: seq<real>)
    ensures Sum(Sorted(xs)) == Sum(xs)
  {
    if xs != [] {
      SumOfSorted(xs[..|xs| - 1]);
      SumOfInsert(xs[|xs| - 1], Sorted(xs[..|xs| - 1]));
    }
  }

  // The statistics of a baseline do not depend on its order.
  lemma StatisticsOfPermutation(xs: seq<real>, ys: seq<real>)
    requires xs != [] && multiset(xs) == multiset(ys)
    ensures |ys| == |xs| && Median(xs) == Median(ys) && Mad(xs) == Mad(ys) && MeanAd(xs) == MeanAd(ys)
  {
    assert |multiset(xs)| == |xs| && |multiset(ys)| == |ys|;
    SortedOfPermutation(xs, ys);
    var center := Median(xs);
    var f := (x: real) => Abs(x - center);
    var dx, dy := Deviations(xs, center), Deviations(ys, center);
    MapOfSorted(xs, f);
    MapOfSorted(ys, f);
    assert dx == Map(xs, f) && dy == Map(ys, f);
    SortedOfPermutation(dx, dy);
    SumOfSorted(dx);
    SumOfSorted(dy);
  }

  ghost predicate OrderBlind(score: Scorer) {
    forall v, xs, ys :: multiset(xs) == multiset(ys) ==> score(v, xs) == score(v, ys)
  }

  lemma ScorerIsOrderBlind(threshold: real)
    ensures OrderBlind(ScorerOf(threshold))
  {
    forall v, xs: seq<real>, ys: seq<real> | multiset(xs) == multiset(ys)
      ensures ScorerOf(threshold)(v, xs) == ScorerOf(threshold)(v, ys)
    {
      assert |multiset(xs)| == |xs| && |multiset(ys)| == |ys|;
      if xs != [] {
        StatisticsOfPermutation(xs, ys);
      }
    }
  }

  // s without one occurrence of v.
  function Without(s: seq<real>, v: real): seq<real> {
    if s == [] then []
    else if s[|s| - 1] == v then s[..|s| - 1]
    else Without(s[..|s| - 1], v) + [s[|s| - 1]]
  }

  lemma {:induction false} WithoutContents(s: seq<real>, v: real)
    requires v in s
    ensures multiset(Without(s, v)) == multiset(s) - multiset{v}
  {
    var front, last := s[..|s| - 1], s[|s| - 1];
    assert s == front + [last];
    if last != v {
      WithoutContents(front, v);
    }
  }

  lemma OthersContents(xs: seq<real>, i: nat)
    requires i < |xs|
    ensures multiset(Others(xs, i)) == multiset(xs) - multiset{xs[i]}
  {
    assert xs == xs[..i] + [xs[i]] + xs[i + 1..];
  }

  // How a member of a group with the given (sorted) values is scored.
  function InGroup(sorted: seq<real>, score: Scorer): real -> Option<Scored> {
    v => score(v, Without(sorted, v))
  }

  lemma LeaveOneOutByValue(xs: seq<real>, score: Scorer)
    requires OrderBlind(score)
    ensures LeaveOneOut(xs, score) == Map(xs, InGroup(Sorted(xs), score))
  {
    SortedSpec(xs);
    forall i | 0 <= i < |xs|
      ensures score(xs[i], Others(xs, i)) == InGroup(Sorted(xs), score)(xs[i])
    {
      OthersContents(xs, i);
      assert xs[i] in multiset(Sorted(xs));
      WithoutContents(Sorted(xs), xs[i]);
    }
  }

  lemma GroupSnoc(scored: seq<Scored>, s: Scored)
    ensures GroupOf(scored + [s]) == AddScored(GroupOf(scored), s)
  {
    assert (scored + [s])[..|scored|] == scored;
  }

  lemma AddScoredCommutes(g: GroupResult, a: Scored, b: Scored)
    ensures AddScored(AddScored(g, a), b) == AddScored(AddScored(g, b), a)
  {
  }

  lemma {:induction false} GroupOfInsert(x: real, s: seq<real>, f: real -> Scored)
    ensures GroupOf(Map(Insert(x, s), f)) == AddScored(GroupOf(Map(s, f)), f(x))
  {
    if s == [] || s[|s| - 1] <= x {
      MapSnoc(s, x, f);
      GroupSnoc(Map(s, f), f(x));
    } else {
      var front, last := s[..|s| - 1], s[|s| - 1];
      GroupOfInsert(x, front, f);
      MapSnoc(Insert(x, front), last, f);
      MapSnoc(front, last, f);
      assert s == front + [last];
      GroupSnoc(Map(Insert(x, front), f), f(last));
      GroupSnoc(Map(front, f), f(last));
      AddScoredCommutes(GroupOf(Map(front, f)), f(x), f(last));
    }
  }

  lemma {:induction false} GroupOfSorted(xs: seq<real>, f: real -> Scored)
    ensures GroupOf(Map(xs, f)) == GroupOf(Map(Sorted(xs), f))
  {
    if xs != [] {
      var front, last := xs[..|xs| - 1], xs[|xs| - 1];
      GroupOfSorted(front, f);
      MapSnoc(front, last, f);
      assert xs == front + [last];
      GroupSnoc(Map(front, f), f(last));
      GroupOfInsert(last, Sorted(front), f);
    }
  }

  // A rule that does not raise.
  function Sure(f: real -> Option<Scored>): real -> Scored {
    x => if f(x).Some? then f(x).value else Scored(Ok, None, false)
  }

  lemma ValuesOfMap(xs: seq<real>, f: real -> Option<Scored>)
    requires !Raises(Map(xs, f))
    ensures Values(Map(xs, f)) == Map(xs, Sure(f))
  {
    forall i | 0 <= i < |xs| ensures Map(xs, f)[i] == Some(Sure(f)(xs[i])) {
      assert Map(xs, f)[i].Some?;
    }
  }

  lemma GroupOfPermutation(xs: seq<real>, ys: seq<real>, f: real -> Option<Scored>)
    requires Sorted(xs) == Sorted(ys) && !Raises(Map(xs, f)) && !Raises(Map(ys, f))
    ensures GroupOf(Values(Map(xs, f))) == GroupOf(Values(Map(ys, f)))
  {
    ValuesOfMap(xs, f);
    ValuesOfMap(ys, f);
    GroupOfSorted(xs, Sure(f));
    GroupOfSorted(ys, Sure(f));
  }

  /** Up to the exact limit, the result of a group depends only on the multiset of its lengths. */
  lemma GroupIgnoresOrder(xs: seq<real>, ys: seq<real>, minSample: int, threshold: real)
    requires multiset(xs) == multiset(ys) && |xs| <= EXACT_LIMIT
    ensures GroupScore(xs, minSample, ScorerOf(threshold)) == GroupScore(ys, minSample, ScorerOf(threshold))
  {
    var score := ScorerOf(threshold);
    assert |multiset(xs)| == |xs| && |multiset(ys)| == |ys|;
    ScorerIsOrderBlind(threshold);
    SortedOfPermutation(xs, ys);
    LeaveOneOutByValue(xs, score);
    LeaveOneOutByValue(ys, score);
    ScoresRaise(xs, threshold);
    ScoresRaise(ys, threshold);
    if |xs| != 1 {
      GroupOfPermutation(xs, ys, InGroup(Sorted(xs), score));
    }
  }

  /* ---------- translation and scale do not matter ---------- */

  function Reverse(s: seq<real>): (r: seq<real>)
    ensures |r| == |s| && forall i :: 0 <= i < |s| ==> r[i] == s[|s| - 1 - i]
  {
    if s == [] then [] else [s[|s| - 1]] + Reverse(s[..|s| - 1])
  }

  lemma {:induction false} ReverseContents(s: seq<real>)
    ensures multiset(Reverse(s)) == multiset(s)
  {
    if s != [] {
      ReverseContents(s[..|s| - 1]);
      assert s == s[..|s| - 1] + [s[|s| - 1]];
    }
  }

  ghost predicate Increasing(f: real -> real) {
    forall x, y :: x <= y ==> f(x) <= f(y)
  }

  ghost predicate Decreasing(f: real -> real) {
    forall x, y :: x <= y ==> f(y) <= f(x)
  }

  lemma SortedOfIncreasing(xs: seq<real>, f: real -> real)
    requires Increasing(f)
    ensures Sorted(Map(xs, f)) == Map(Sorted(xs), f)
  {
    SortedSpec(xs);
    SortedSpec(Map(xs, f));
    MapOfSorted(xs, f);
    AscendingUnique(Sorted(Map(xs, f)), Map(Sorted(xs), f));
  }

  lemma AscendingReverse(s: seq<real>, f: real -> real)
    requires Decreasing(f) && Ascending(s)
    ensures Ascending(Reverse(Map(s, f)))
  {
  }

  lemma SortedOfDecreasing(xs: seq<real>, f: real -> real)
    requires Decreasing(f)
    ensures Sorted(Map(xs, f)) == Reverse(Map(Sorted(xs), f))
  {
    var t := Reverse(Map(Sorted(xs), f));
    SortedSpec(xs);
    SortedSpec(Map(xs, f));
    MapOfSorted(xs, f);
    ReverseContents(Map(Sorted(xs), f));
    AscendingReverse(Sorted(xs), f);
    AscendingUnique(Sorted(Map(xs, f)), t);
  }

  // The two middle elements, the same one for an odd length.
  function Middle(s: seq<real>): (real, real)
    requires s != []
  {
    (s[(|s| - 1) / 2], s[|s| / 2])
  }

  lemma MedianOfMiddle(xs: seq<real>)
    requires xs != []
    ensures Median(xs) == (Middle(Sorted(xs)).0 + Middle(Sorted(xs)).1) / 2.0
  {
  }

  lemma MiddleOfReverse(s: seq<real>)
    requires s != []
    ensures Middle(Reverse(s)) == (Middle(s).1, Middle(s).0)
  {
    var n := |s|;
    assert n - 1 - (n - 1) / 2 == n / 2;
  }

  lemma MiddleOfMap(s: seq<real>, f: real -> real)
    requires s != []
    ensures Middle(Map(s, f)) == (f(Middle(s).0), f(Middle(s).1))
  {
  }

  // The two middle values move with the values, in either order.
  lemma MiddleMoves(xs: seq<real>, f: real -> real, p: real, q: real)
    requires xs != [] && (Increasing(f) || Decreasing(f))
    requires Middle(Sorted(xs)) == (p, q)
    ensures Middle(Sorted(Map(xs, f))) in {(f(p), f(q)), (f(q), f(p))}
  {
    MiddleOfMap(Sorted(xs), f);
    if Increasing(f) {
      SortedOfIncreasing(xs, f);
    } else {
      SortedOfDecreasing(xs, f);
      MiddleOfReverse(Map(Sorted(xs), f));
    }
  }

  /* ---------- values that move, spreads that stretch ---------- */

  // f keeps the midpoint of x and y.
  ghost predicate Midpoint(f: real -> real, x: real, y: real) {
    (f(x) + f(y)) / 2.0 == f((x + y) / 2.0)
  }

  ghost predicate Straight(f: real -> real) {
    && (Increasing(f) || Decreasing(f))
    && forall x, y :: Midpoint(f, x, y)
  }

  // g stretches the distance of x and m as f moves them apart.
  ghost predicate Distance(f: real -> real, g: real -> real, x: real, m: real) {
    Abs(f(x) - f(m)) == g(Abs(x - m))
  }

  ghost predicate Additive(g: real -> real, x: real, y: real) {
    g(x + y) == g(x) + g(y)
  }

  ghost predicate Homogeneous(g: real -> real, x: real, n: real) {
    n > 0.0 ==> g(x) / n == g(x / n)
  }

  // The verdict does not see the motion.
  ghost predicate Fair(f: real -> real, g: real -> real, threshold: real, v: real, m: real, d: real, e: real) {
    Verdict(f(v), f(m), g(d), g(e), threshold) == Verdict(v, m, d, e, threshold)
  }

  // f moves values and g stretches distances accordingly.
  ghost predicate Motion(f: real -> real, g: real -> real) {
    && Straight(f) && Straight(g)
    && (forall x, m :: Distance(f, g, x, m))
    && (g(0.0) == 0.0 && forall x, y :: Additive(g, x, y))
    && (forall x, n :: Homogeneous(g, x, n))
  }

  lemma MedianMoves(xs: seq<real>, f: real -> real)
    requires xs != [] && Straight(f)
    ensures Median(Map(xs, f)) == f(Median(xs))
  {
    var (p, q) := Middle(Sorted(xs));
    MiddleMoves(xs, f, p, q);
    MedianOfMiddle(xs);
    MedianOfMiddle(Map(xs, f));
    assert Midpoint(f, p, q);
  }

  lemma DeviationsMove(xs: seq<real>, m: real, f: real -> real, g: real -> real)
    requires forall x, y :: Distance(f, g, x, y)
    ensures Deviations(Map(xs, f), f(m)) == Map(Deviations(xs, m), g)
  {
    forall i | 0 <= i < |xs|
      ensures Abs(Map(xs, f)[i] - f(m)) == g(Deviations(xs, m)[i])
    {
      assert Distance(f, g, xs[i], m);
    }
  }

  lemma {:induction false} SumMoves(xs: seq<real>, g: real -> real)
    requires g(0.0) == 0.0 && forall x, y :: Additive(g, x, y)
    ensures Sum(Map(xs, g)) == g(Sum(xs))
  {
    if xs != [] {
      var front, last := xs[..|xs| - 1], xs[|xs| - 1];
      SumMoves(front, g);
      assert Map(xs, g)[..|xs| - 1] == Map(front, g);
      assert Additive(g, Sum(front), last);
    }
  }

  // Median moves with the values, MAD and mean deviation stretch.
  lemma StatisticsMove(xs: seq<real>, f: real -> real, g: real -> real)
    requires xs != [] && Motion(f, g)
    ensures var ys := Map(xs, f);
            Median(ys) == f(Median(xs)) && Mad(ys) == g(Mad(xs)) && MeanAd(ys) == g(MeanAd(xs))
  {
    var m := Median(xs);
    var ds := Deviations(xs, m);
    MedianMoves(xs, f);
    DeviationsMove(xs, m, f, g);
    MedianMoves(ds, g);
    SumMoves(ds, g);
    assert Homogeneous(g, Sum(ds), |xs| as real);
  }

  // A rule that gives the same verdict when value and baseline move together.
  ghost predicate Equivariant(score: Scorer, f: real -> real) {
    forall v, xs :: SameScore(score, f, v, xs)
  }

  ghost predicate SameScore(score: Scorer, f: real -> real, v: real, xs: seq<real>) {
    score(f(v), Map(xs, f)) == score(v, xs)
  }

  lemma ScoreMoves(v: real, xs: seq<real>, f: real -> real, g: real -> real, threshold: real)
    requires Motion(f, g) && xs != []
    requires Fair(f, g, threshold, v, Median(xs), Mad(xs), MeanAd(xs))
    ensures Score(f(v), Map(xs, f), threshold) == Score(v, xs, threshold)
  {
    StatisticsMove(xs, f, g);
  }

  lemma ScorerIsEquivariant(f: real -> real, g: real -> real, threshold: real)
    requires Motion(f, g)
    requires forall v, m, d, e :: Fair(f, g, threshold, v, m, d, e)
    ensures Equivariant(ScorerOf(threshold), f)
  {
    forall v: real, xs: seq<real>
      ensures SameScore(ScorerOf(threshold), f, v, xs)
    {
      if xs != [] {
        assert Fair(f, g, threshold, v, Median(xs), Mad(xs), MeanAd(xs));
        ScoreMoves(v, xs, f, g, threshold);
      }
    }
  }

  lemma OthersOfMap(xs: seq<real>, i: nat, f: real -> real)
    requires i < |xs|
    ensures Others(Map(xs, f), i) == Map(Others(xs, i), f)
  {
  }

  lemma HalfOfMap(xs: seq<real>, parity: nat, f: real -> real)
    requires parity <= 1
    ensures Half(Map(xs, f), parity) == Map(Half(xs, parity), f)
  {
  }

  lemma ScoresOfMotion(lengths: seq<real>, score: Scorer, f: real -> real)
    requires Equivariant(score, f)
    ensures LeaveOneOut(Map(lengths, f), score) == LeaveOneOut(lengths, score)
    ensures CrossFit(Map(lengths, f), score) == CrossFit(lengths, score)
  {
    var moved := Map(lengths, f);
    forall i | 0 <= i < |lengths|
      ensures LeaveOneOut(moved, score)[i] == LeaveOneOut(lengths, score)[i]
    {
      OthersOfMap(lengths, i, f);
      assert SameScore(score, f, lengths[i], Others(lengths, i));
    }
    forall i | 0 <= i < |lengths|
      ensures CrossFit(moved, score)[i] == CrossFit(lengths, score)[i]
    {
      var half := Half(lengths, 1 - i % 2);
      HalfOfMap(lengths, 1 - i % 2, f);
      assert SameScore(score, f, lengths[i], half);
    }
  }

  /* ---------- affine maps are such motions ---------- */

  function Affine(a: real, c: real): real -> real {
    x => a * x + c
  }

  lemma ScaleOrder(a: real, c: real, x: real, y: real)
    requires x <= y
    ensures a >= 0.0 ==> a * x + c <= a * y + c
    ensures a <= 0.0 ==> a * y + c <= a * x + c
  {
    assert a * (y - x) == a * y - a * x;
    if a >= 0.0 {
      assert a * (y - x) >= 0.0;
    } else {
      assert (-a) * (y - x) >= 0.0;
    }
  }

  lemma MeanOfAffine(x: real, y: real, a: real, c: real)
    ensures ((a * x + c) + (a * y + c)) / 2.0 == a * ((x + y) / 2.0) + c
  {
    assert a * (x + y) == a * x + a * y;
  }

  lemma AffineIsStraight(a: real, c: real)
    ensures Straight(Affine(a, c))
  {
    var f := Affine(a, c);
    forall x: real, y: real | x <= y
      ensures a >= 0.0 ==> f(x) <= f(y)
      ensures a <= 0.0 ==> f(y) <= f(x)
    {
      ScaleOrder(a, c, x, y);
    }
    forall x, y ensures Midpoint(f, x, y) {
      MeanOfAffine(x, y, a, c);
    }
  }

  lemma AbsOfProduct(a: real, x: real)
    ensures Abs(a * x) == Abs(a) * Abs(x)
  {
    if a >= 0.0 && x < 0.0 {
      assert a * x == -(a * (-x));
    } else if a < 0.0 && x >= 0.0 {
      assert a * x == -((-a) * x);
    } else if a < 0.0 && x < 0.0 {
      assert a * x == (-a) * (-x);
    }
  }

  lemma DistanceOfAffine(a: real, c: real, x: real, m: real)
    ensures Distance(Affine(a, c), Affine(Abs(a), 0.0), x, m)
  {
    assert (a * x + c) - (a * m + c) == a * (x - m);
    AbsOfProduct(a, x - m);
  }

  lemma ScaleIsLinear(b: real, x: real, y: real)
    ensures Additive(Affine(b, 0.0), x, y) && Homogeneous(Affine(b, 0.0), x, y)
  {
    if y > 0.0 {
      assert b * x / y == b * (x / y);
    }
    assert b * (x + y) == b * x + b * y;
  }

  lemma AffineIsMotion(a: real, c: real)
    ensures Motion(Affine(a, c), Affine(Abs(a), 0.0))
  {
    var f, g := Affine(a, c), Affine(Abs(a), 0.0);
    AffineIsStraight(a, c);
    AffineIsStraight(Abs(a), 0.0);
    forall x, m ensures Distance(f, g, x, m) {
      DistanceOfAffine(a, c, x, m);
    }
    forall x, y ensures Additive(g, x, y) && Homogeneous(g, x, y) {
      ScaleIsLinear(Abs(a), x, y);
    }
  }

  lemma CancelFactor(a: real, d: real, unit: real)
    requires a > 0.0 && unit > 0.0
    ensures a * unit > 0.0 && a * d / (a * unit) == d / unit
  {
    var r := d / unit;
    assert d == r * unit;
    assert a * d == r * (a * unit);
  }

  // A scaled deviation over a scaled unit has the same magnitude.
  lemma MagnitudeOfScaled(a: real, d: real, unit: real)
    requires a != 0.0 && unit > 0.0
    ensures Abs(a) * unit > 0.0
    ensures Magnitude(a * d, Abs(a) * unit) == Magnitude(d, unit)
  {
    assert Abs(a) > 0.0;
    AbsOfRatio(a * d, Abs(a) * unit);
    AbsOfRatio(d, unit);
    AbsOfProduct(a, d);
    CancelFactor(Abs(a), Abs(d), unit);
  }

  lemma SignOfScaled(a: real, x: real)
    requires a != 0.0
    ensures Abs(a) * x > 0.0 <==> x > 0.0
  {
    assert Abs(a) > 0.0;
    if x > 0.0 {
      assert Abs(a) * x > 0.0;
    } else {
      assert Abs(a) * (-x) >= 0.0;
    }
  }

  lemma UnitOfMad(b: real, mad: real)
    ensures b * mad / MAD_TO_SIGMA == b * (mad / MAD_TO_SIGMA)
  {
  }

  lemma UnitOfMeanAd(b: real, meanAd: real)
    ensures MEAN_AD_TO_SIGMA * (b * meanAd) == b * (MEAN_AD_TO_SIGMA * meanAd)
  {
  }

  lemma DifferenceOfAffine(a: real, c: real, x: real, m: real)
    requires a != 0.0
    ensures a * x + c - (a * m + c) == a * (x - m)
    ensures a * x + c == a * m + c <==> x == m
  {
    var d := x - m;
    assert a * x == a * m + a * d;
    if d != 0.0 {
      assert a * d != 0.0;
    }
  }

  lemma SameVerdict(value: real, med: real, mad: real, meanAd: real,
                    value': real, med': real, mad': real, meanAd': real, threshold: real)
    requires mad > 0.0 <==> mad' > 0.0
    requires meanAd > 0.0 <==> meanAd' > 0.0
    requires value == med <==> value' == med'
    requires mad > 0.0 ==>
      Magnitude(value - med, mad / MAD_TO_SIGMA) == Magnitude(value' - med', mad' / MAD_TO_SIGMA)
    requires meanAd > 0.0 ==>
      Magnitude(value - med, MEAN_AD_TO_SIGMA * meanAd) == Magnitude(value' - med', MEAN_AD_TO_SIGMA * meanAd')
    ensures Verdict(value, med, mad, meanAd, threshold) == Verdict(value', med', mad', meanAd', threshold)
  {
  }

  lemma MadBranch(a: real, d: real, d': real, mad: real, mad': real)
    requires a != 0.0 && mad > 0.0 && d' == a * d && mad' == Abs(a) * mad && mad' > 0.0
    ensures Magnitude(d, mad / MAD_TO_SIGMA) == Magnitude(d', mad' / MAD_TO_SIGMA)
  {
    UnitOfMad(Abs(a), mad);
    MagnitudeOfScaled(a, d, mad / MAD_TO_SIGMA);
  }

  lemma MeanAdBranch(a: real, d: real, d': real, meanAd: real, meanAd': real)
    requires a != 0.0 && meanAd > 0.0 && d' == a * d && meanAd' == Abs(a) * meanAd && meanAd' > 0.0
    ensures Magnitude(d, MEAN_AD_TO_SIGMA * meanAd) == Magnitude(d', MEAN_AD_TO_SIGMA * meanAd')
  {
    UnitOfMeanAd(Abs(a), meanAd);
    MagnitudeOfScaled(a, d, MEAN_AD_TO_SIGMA * meanAd);
  }

  // What the branches of the verdict look at, for values that moved by x -> a * x + c.
  lemma VerdictInputs(a: real, c: real, v: real, m: real, d: real, e: real,
                      v': real, m': real, d': real, e': real)
    requires a != 0.0 && v' == a * v + c && m' == a * m + c && d' == Abs(a) * d && e' == Abs(a) * e
    ensures (d > 0.0 <==> d' > 0.0) && (e > 0.0 <==> e' > 0.0) && (v == m <==> v' == m')
    ensures v' - m' == a * (v - m)
  {
    SignOfScaled(a, d);
    SignOfScaled(a, e);
    DifferenceOfAffine(a, c, v, m);
  }

  lemma VerdictOfMoved(a: real, c: real, v: real, m: real, d: real, e: real,
                       v': real, m': real, d': real, e': real, threshold: real)
    requires a != 0.0 && v' == a * v + c && m' == a * m + c && d' == Abs(a) * d && e' == Abs(a) * e
    ensures Verdict(v', m', d', e', threshold) == Verdict(v, m, d, e, threshold)
  {
    VerdictInputs(a, c, v, m, d, e, v', m', d', e');
    if d > 0.0 {
      MadBranch(a, v - m, v' - m', d, d');
    }
    if e > 0.0 {
      MeanAdBranch(a, v - m, v' - m', e, e');
    }
    SameVerdict(v, m, d, e, v', m', d', e', threshold);
  }

  lemma AffineIsFair(a: real, c: real, threshold: real, v: real, m: real, d: real, e: real)
    requires a != 0.0
    ensures Fair(Affine(a, c), Affine(Abs(a), 0.0), threshold, v, m, d, e)
  {
    var f, g := Affine(a, c), Affine(Abs(a), 0.0);
    VerdictOfMoved(a, c, v, m, d, e, f(v), f(m), g(d), g(e), threshold);
  }

  /** Status, anomaly count and maximum |z| of a group are unchanged when every length is
      translated, or scaled by a nonzero factor, for groups of any size. */
  lemma GroupIgnoresUnits(lengths: seq<real>, minSample: int, threshold: real, a: real, c: real)
    requires a != 0.0
    ensures GroupScore(Map(lengths, Affine(a, c)), minSample, ScorerOf(threshold))
            == GroupScore(lengths, minSample, ScorerOf(threshold))
  {
    var f, g := Affine(a, c), Affine(Abs(a), 0.0);
    AffineIsMotion(a, c);
    forall v, m, d, e ensures Fair(f, g, threshold, v, m, d, e) {
      AffineIsFair(a, c, threshold, v, m, d, e);
    }
    ScorerIsEquivariant(f, g, threshold);
    ScoresOfMotion(lengths, ScorerOf(threshold), f);
  }
}
