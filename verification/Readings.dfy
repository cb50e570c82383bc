/**
  What a window adds to each DELTA counter and distribution, read off its accumulators; these readings
  add up over windows, and they are what the emitted points carry.
 */
module Readings {
  import opened Wrappers
  import opened Models
  import opened Idempotency
  import opened Governance
  import opened Histograms
  import opened Normalization
  import opened Series
  import opened Aggregation
  import opened Points
  import opened Emission

  // The counters built from the accumulators.
  const ACCUMULATED: set<Metric> :=
    {RequestCount, RequestErrors, UnknownDimension} + SPEND_METRICS + CACHE_METRICS + GAP_METRICS

  // The distributions, and all that adds up.
  const DISTRIBUTIONS: set<Metric> := {RequestDuration, RequestTtft}
  const ADDITIVE: set<Metric> := ACCUMULATED + DISTRIBUTIONS

  function OutcomeReading(counts: map<PrimaryDims, Counts>, dims: map<Dim, Label>): int {
    var pk := PkOf(dims);
    if pk !in counts then 0
    else if dims == pk.AsDict()[Outcome := Success] then counts[pk].success
    else if dims == pk.AsDict()[Outcome := Error] then counts[pk].error
    else 0
  }

  function ErrorReading(errcat: map<(PrimaryDims, Label), nat>, dims: map<Dim, Label>): int {
    var key := ErrorKeyOf(dims);
    if key in errcat && dims == key.0.AsDict()[ErrorCategory := key.1] then errcat[key] else 0
  }

  function FoldReading(unknown: map<Label, nat>, dims: map<Dim, Label>): int {
    var d := At(dims, Dimension);
    if d in unknown && dims == map[Dimension := d] then unknown[d] else 0
  }

  function CostAmount(m: Metric, c: CostEntry): real {
    match m
    case CostUsd => c.usd
    case CostRequestCount => c.count as real
    case TokensInput => c.input as real
    case TokensOutput => c.output as real
    case CacheReadTokens => c.cacheRead as real
    case CacheHitCount => c.cacheHits as real
    case CostRecordsMissing => c.missing as real
    case CostRecordsInvalid => c.invalid as real
    case _ => 0.0
  }

  function CostReading(cost: map<CostKey, CostEntry>, includeProvider: bool, s: SeriesId): real {
    var ck := CkOf(s.1, includeProvider);
    if ck in cost && s.1 == CostDims(ck, includeProvider) then CostAmount(s.0, cost[ck]) else 0.0
  }

  // What the accumulators say about a counter series.
  function Reading(v: View, includeProvider: bool, s: SeriesId): real {
    if s.0 == RequestCount then OutcomeReading(v.outcomes.counts, s.1) as real
    else if s.0 == RequestErrors then ErrorReading(v.outcomes.errcat, s.1) as real
    else if s.0 == UnknownDimension then FoldReading(v.unknown, s.1) as real
    else CostReading(v.costs.cost, includeProvider, s)
  }

  function HistReading(series: map<PrimaryDims, Hist>, dims: map<Dim, Label>): Option<Hist> {
    var pk := PkOf(dims);
    if pk in series && dims == pk.AsDict() then Some(series[pk]) else None
  }

  // What they say about a distribution.
  function Distribution(v: View, s: SeriesId): Option<Hist> {
    HistReading(if s.0 == RequestDuration then v.times.dur else v.times.ttft, s.1)
  }

  /* ---------- distributions of points ---------- */

  function HistOf(p: Point): Option<Hist> {
    if p.value.Buckets? then Some(p.value.hist) else None
  }

  function Joined(a: Option<Hist>, b: Option<Hist>): Option<Hist> {
    if a.None? then b else if b.None? then a else Some(Plus(a.value, b.value))
  }

  // What a list of DELTA points adds to the distribution of a series: counts, sums, extremes and
  // every bucket.
  function HistIn(points: seq<Point>, s: SeriesId): Option<Hist> {
    if points == [] then None
    else
      var last := points[|points| - 1];
      Joined(HistIn(points[..|points| - 1], s), if SeriesOf(last) == s then HistOf(last) else None)
  }

  lemma JoinedAssociative(a: Option<Hist>, b: Option<Hist>, c: Option<Hist>)
    ensures Joined(Joined(a, b), c) == Joined(a, Joined(b, c))
  {
    PlusAssociative();
    if a.Some? && b.Some? && c.Some? {
      assert Plus(Plus(a.value, b.value), c.value) == Plus(a.value, Plus(b.value, c.value));
    }
  }

  lemma {:induction false} HistConcat(a: seq<Point>, b: seq<Point>, s: SeriesId)
    ensures HistIn(a + b, s) == Joined(HistIn(a, s), HistIn(b, s))
  {
    if b == [] {
      assert a + b == a;
    } else {
      var front, last := b[..|b| - 1], b[|b| - 1];
      HistConcat(a, front, s);
      assert (a + b)[..|a + b| - 1] == a + front;
      JoinedAssociative(HistIn(a, s), HistIn(front, s), if SeriesOf(last) == s then HistOf(last) else None);
    }
  }

  lemma {:induction false} HistAbsent(points: seq<Point>, s: SeriesId)
    requires forall p :: p in points ==> SeriesOf(p) != s
    ensures HistIn(points, s) == None
  {
    if points != [] {
      HistAbsent(points[..|points| - 1], s);
    }
  }

  lemma HistOnce(points: seq<Point>, p: Point)
    requires Once(points) && p in points
    ensures HistIn(points, SeriesOf(p)) == HistOf(p)
  {
    var s := SeriesOf(p);
    var i :| 0 <= i < |points| && points[i] == p;
    var before, after := points[..i], points[i + 1..];
    assert points == before + [p] + after;
    forall q | q in before || q in after ensures SeriesOf(q) != s {
      if q in before {
        var j :| 0 <= j < i && points[j] == q;
      } else {
        var j :| i < j < |points| && points[j] == q;
      }
    }
    HistAbsent(before, s);
    HistAbsent(after, s);
    HistConcat(before + [p], after, s);
    assert (before + [p])[..i] == before;
  }

  /* ---------- readings add up ---------- */

  lemma OutcomeAdds(a: map<PrimaryDims, Counts>, b: map<PrimaryDims, Counts>, dims: map<Dim, Label>)
    ensures OutcomeReading(MergeWith(a, b, PlusCounts), dims) == OutcomeReading(a, dims) + OutcomeReading(b, dims)
  {
  }

  lemma ErrorAdds(a: map<(PrimaryDims, Label), nat>, b: map<(PrimaryDims, Label), nat>, dims: map<Dim, Label>)
    ensures ErrorReading(MergeWith(a, b, PlusNat), dims) == ErrorReading(a, dims) + ErrorReading(b, dims)
  {
  }

  lemma FoldAdds(a: map<Label, nat>, b: map<Label, nat>, dims: map<Dim, Label>)
    ensures FoldReading(MergeWith(a, b, PlusNat), dims) == FoldReading(a, dims) + FoldReading(b, dims)
  {
  }

  lemma CostAdds(a: map<CostKey, CostEntry>, b: map<CostKey, CostEntry>, includeProvider: bool, s: SeriesId)
    ensures CostReading(MergeWith(a, b, PlusCost), includeProvider, s)
            == CostReading(a, includeProvider, s) + CostReading(b, includeProvider, s)
  {
  }

  /** DELTA: the reading of a sum of accumulators is the sum of the readings, in every series. */
  lemma ReadingAdds(a: View, b: View, includeProvider: bool, s: SeriesId)
    ensures Reading(Merge(a, b), includeProvider, s) == Reading(a, includeProvider, s) + Reading(b, includeProvider, s)
  {
    if s.0 == RequestCount {
      OutcomeAdds(a.outcomes.counts, b.outcomes.counts, s.1);
    } else if s.0 == RequestErrors {
      ErrorAdds(a.outcomes.errcat, b.outcomes.errcat, s.1);
    } else if s.0 == UnknownDimension {
      FoldAdds(a.unknown, b.unknown, s.1);
    } else {
      CostAdds(a.costs.cost, b.costs.cost, includeProvider, s);
    }
  }

  lemma HistAdds(a: map<PrimaryDims, Hist>, b: map<PrimaryDims, Hist>, dims: map<Dim, Label>)
    ensures HistReading(MergeWith(a, b, Plus), dims) == Joined(HistReading(a, dims), HistReading(b, dims))
  {
  }

  /** The distribution of a sum of accumulators is the sum of the distributions. */
  lemma DistributionAdds(a: View, b: View, s: SeriesId)
    ensures Distribution(Merge(a, b), s) == Joined(Distribution(a, s), Distribution(b, s))
  {
    HistAdds(a.times.dur, b.times.dur, s.1);
    HistAdds(a.times.ttft, b.times.ttft, s.1);
  }

  /* ---------- the points carry the readings ---------- */

  lemma ValueIs(points: seq<Point>, p: Point, s: SeriesId, x: real)
    requires Once(points)
    requires || (p in points && SeriesOf(p) == s && Carried(p) == x)
             || (x == 0.0 && forall q :: q in points ==> SeriesOf(q) != s)
    ensures ValueIn(points, s) == x
  {
    if p in points && SeriesOf(p) == s {
      ValueOnce(points, p);
    } else {
      ValueAbsent(points, s);
    }
  }

  // The one point of a block of a key that touches a series, if there is one.
  ghost predicate Carries(block: seq<Point>, s: SeriesId, p: Point, x: real) {
    if p in block then SeriesOf(p) == s && Carried(p) == x
    else x == 0.0 && forall q :: q in block ==> SeriesOf(q) != s
  }

  lemma CountKey(counts: map<PrimaryDims, Counts>, p: Point)
    requires FromCounts(counts, p)
    ensures PkOf(p.dims) in counts && p in CountPoints(PkOf(p.dims), counts[PkOf(p.dims)])
  {
    var k :| k in counts && p in CountPoints(k, counts[k]);
    CountPointKey(k, counts[k]);
  }

  lemma CountCarries(pk: PrimaryDims, c: Counts, dims: map<Dim, Label>) returns (p: Point)
    ensures Carries(CountPoints(pk, c), (RequestCount, dims), p,
                    (if dims == pk.AsDict()[Outcome := Success] then c.success
                     else if dims == pk.AsDict()[Outcome := Error] then c.error else 0) as real)
  {
    p := if dims == pk.AsDict()[Outcome := Success] then CountPoints(pk, c)[0]
         else Count(RequestCount, dims, if dims == pk.AsDict()[Outcome := Error] then c.error else 0);
    assert pk.AsDict()[Outcome := Success][Outcome] != pk.AsDict()[Outcome := Error][Outcome];
  }

  lemma OutcomeValue(points: seq<Point>, counts: map<PrimaryDims, Counts>, dims: map<Dim, Label>)
    requires Once(points) && forall p: Point :: p.metric == RequestCount ==> (p in points <==> FromCounts(counts, p))
    ensures ValueIn(points, (RequestCount, dims)) == OutcomeReading(counts, dims) as real
  {
    var pk, s := PkOf(dims), (RequestCount, dims);
    var p := Count(RequestCount, dims, 0);
    if pk in counts {
      p := CountCarries(pk, counts[pk], dims);
    }
    forall q | q in points && SeriesOf(q) == s ensures pk in counts && q in CountPoints(pk, counts[pk]) {
      CountKey(counts, q);
    }
    if pk in counts && p in CountPoints(pk, counts[pk]) {
      assert FromCounts(counts, p);
    }
    ValueIs(points, p, s, OutcomeReading(counts, dims) as real);
  }

  lemma ErrorKey(errcat: map<(PrimaryDims, Label), nat>, p: Point)
    requires FromErrors(errcat, p)
    ensures var key := ErrorKeyOf(p.dims); key in errcat && p == ErrorPoint(key, errcat[key])
  {
    var k :| k in errcat && p == ErrorPoint(k, errcat[k]);
    assert ErrorKeyOf(p.dims) == k;
  }

  lemma ErrorValue(points: seq<Point>, errcat: map<(PrimaryDims, Label), nat>, dims: map<Dim, Label>)
    requires Once(points) && forall p: Point :: p.metric == RequestErrors ==> (p in points <==> FromErrors(errcat, p))
    ensures ValueIn(points, (RequestErrors, dims)) == ErrorReading(errcat, dims) as real
  {
    var key, s := ErrorKeyOf(dims), (RequestErrors, dims);
    var p := Count(RequestErrors, dims, ErrorReading(errcat, dims));
    forall q | q in points && SeriesOf(q) == s ensures key in errcat && q == ErrorPoint(key, errcat[key]) {
      ErrorKey(errcat, q);
    }
    if key in errcat && dims == key.0.AsDict()[ErrorCategory := key.1] {
      assert p == ErrorPoint(key, errcat[key]);
      assert FromErrors(errcat, p);
    }
    ValueIs(points, p, s, ErrorReading(errcat, dims) as real);
  }

  lemma FoldKey(unknown: map<Label, nat>, p: Point)
    requires FromFolds(unknown, p)
    ensures var d := At(p.dims, Dimension); d in unknown && p == FoldPoint(d, unknown[d])
  {
  }

  lemma FoldValue(points: seq<Point>, unknown: map<Label, nat>, dims: map<Dim, Label>)
    requires Once(points)
    requires forall p: Point :: p.metric == UnknownDimension ==> (p in points <==> FromFolds(unknown, p))
    ensures ValueIn(points, (UnknownDimension, dims)) == FoldReading(unknown, dims) as real
  {
    var d, s := At(dims, Dimension), (UnknownDimension, dims);
    var p := Count(UnknownDimension, dims, FoldReading(unknown, dims));
    forall q | q in points && SeriesOf(q) == s ensures d in unknown && q == FoldPoint(d, unknown[d]) {
      FoldKey(unknown, q);
    }
    if d in unknown && dims == map[Dimension := d] {
      assert p == FoldPoint(d, unknown[d]);
      assert FromFolds(unknown, p);
    }
    ValueIs(points, p, s, FoldReading(unknown, dims) as real);
  }

  lemma SpendCarries(dims: map<Dim, Label>, c: CostEntry, m: Metric) returns (p: Point)
    requires m in SPEND_METRICS
    ensures p in SpendPoints(dims, c) && Carries(SpendPoints(dims, c), (m, dims), p, CostAmount(m, c)) && p.metric == m
  {
    var i := if m == CostUsd then 0 else if m == CostRequestCount then 1 else if m == TokensInput then 2 else 3;
    p := SpendPoints(dims, c)[i];
  }

  lemma CacheCarries(dims: map<Dim, Label>, c: CostEntry, m: Metric) returns (p: Point)
    requires m in CACHE_METRICS && HitsCover(c)
    ensures Carries(CachePoints(dims, c), (m, dims), p, CostAmount(m, c)) && p.metric == m
  {
    p := Count(m, dims, if m == CacheReadTokens then c.cacheRead else c.cacheHits);
    if c.cacheHits > 0 {
      assert p == CachePoints(dims, c)[if m == CacheReadTokens then 0 else 1];
    }
  }

  lemma GapCarries(dims: map<Dim, Label>, c: CostEntry, m: Metric) returns (p: Point)
    requires m in GAP_METRICS
    ensures Carries(GapPoints(dims, c), (m, dims), p, CostAmount(m, c)) && p.metric == m
  {
    p := Count(m, dims, if m == CostRecordsMissing then c.missing else c.invalid);
  }

  // A part of a block that alone holds a metric.
  lemma CarriesIn(part: seq<Point>, before: seq<Point>, after: seq<Point>, s: SeriesId, p: Point, x: real)
    requires Carries(part, s, p, x) && p.metric == s.0
    requires forall q :: q in before || q in after ==> q.metric != s.0
    ensures Carries(before + part + after, s, p, x)
  {
  }

  lemma CarriesAmong(spend: seq<Point>, ratio: seq<Point>, cache: seq<Point>, gap: seq<Point>, s: SeriesId, p: Point,
                     x: real)
    requires Within(spend, SPEND_METRICS) && Within(ratio, {TokensCompletionRatio})
    requires Within(cache, CACHE_METRICS) && Within(gap, GAP_METRICS) && p.metric == s.0
    requires s.0 in SPEND_METRICS ==> Carries(spend, s, p, x)
    requires s.0 in CACHE_METRICS ==> Carries(cache, s, p, x)
    requires s.0 in GAP_METRICS ==> Carries(gap, s, p, x)
    requires s.0 in SPEND_METRICS + CACHE_METRICS + GAP_METRICS
    ensures Carries(spend + ratio + cache + gap, s, p, x)
  {
    if s.0 in SPEND_METRICS {
      CarriesIn(spend, [], ratio + cache + gap, s, p, x);
      assert [] + spend + (ratio + cache + gap) == spend + ratio + cache + gap;
    } else if s.0 in CACHE_METRICS {
      CarriesIn(cache, spend + ratio, gap, s, p, x);
    } else {
      CarriesIn(gap, spend + ratio + cache, [], s, p, x);
      assert spend + ratio + cache + gap + [] == spend + ratio + cache + gap;
    }
  }

  lemma CostCarries(ck: CostKey, c: CostEntry, includeProvider: bool, m: Metric) returns (p: Point)
    requires m in SPEND_METRICS + CACHE_METRICS + GAP_METRICS && HitsCover(c)
    ensures Carries(CostPoints(ck, c, includeProvider), (m, CostDims(ck, includeProvider)), p, CostAmount(m, c))
  {
    var dims := CostDims(ck, includeProvider);
    SpendFamily(dims, c);
    ExtraFamilies(dims, c);
    if m in SPEND_METRICS {
      p := SpendCarries(dims, c, m);
    } else if m in CACHE_METRICS {
      p := CacheCarries(dims, c, m);
    } else {
      p := GapCarries(dims, c, m);
    }
    CarriesAmong(SpendPoints(dims, c), RatioPoints(dims, c), CachePoints(dims, c), GapPoints(dims, c),
                 (m, dims), p, CostAmount(m, c));
  }

  lemma CostKeyed(cost: map<CostKey, CostEntry>, includeProvider: bool, p: Point)
    requires OneProvider(cost, includeProvider) && FromCosts(cost, includeProvider, p)
    ensures var ck := CkOf(p.dims, includeProvider);
            ck in cost && p.dims == CostDims(ck, includeProvider) && p in CostPoints(ck, cost[ck], includeProvider)
  {
    var k :| k in cost && p in CostPoints(k, cost[k], includeProvider);
    CostPointsOnce(k, cost[k], includeProvider);
    CostDimsKey(k, includeProvider);
  }

  lemma CostValue(points: seq<Point>, cost: map<CostKey, CostEntry>, includeProvider: bool, s: SeriesId)
    requires s.0 in SPEND_METRICS + CACHE_METRICS + GAP_METRICS && OneProvider(cost, includeProvider)
    requires forall k :: k in cost ==> HitsCover(cost[k])
    requires Once(points)
    requires forall p: Point :: p.metric == s.0 ==> (p in points <==> FromCosts(cost, includeProvider, p))
    ensures ValueIn(points, s) == CostReading(cost, includeProvider, s)
  {
    var ck := CkOf(s.1, includeProvider);
    var p := Count(s.0, s.1, 0);
    var here := ck in cost && s.1 == CostDims(ck, includeProvider);
    if here {
      p := CostCarries(ck, cost[ck], includeProvider, s.0);
    }
    forall q | q in points && SeriesOf(q) == s ensures here && q in CostPoints(ck, cost[ck], includeProvider) {
      CostKeyed(cost, includeProvider, q);
    }
    if here && p in CostPoints(ck, cost[ck], includeProvider) {
      assert FromCosts(cost, includeProvider, p);
    }
    ValueIs(points, p, s, CostReading(cost, includeProvider, s));
  }

  // Points that carry the whole histogram, with or without percentiles.
  ghost predicate Renders(render: Hist -> Value) {
    forall h :: render(h).Buckets? && render(h).hist == h
  }

  lemma HistKeyed(metric: Metric, series: map<PrimaryDims, Hist>, render: Hist -> Value, p: Point)
    requires FromHist(metric, series, render, p)
    ensures var pk := PkOf(p.dims); pk in series && p == HistPoint(metric, pk, series[pk], render)
  {
    var k :| k in series && p == HistPoint(metric, k, series[k], render);
    assert PkOf(k.AsDict()) == k;
  }

  lemma HistValue(points: seq<Point>, metric: Metric, series: map<PrimaryDims, Hist>, render: Hist -> Value,
                  dims: map<Dim, Label>)
    requires Once(points) && Renders(render)
    requires forall p: Point :: p.metric == metric ==> (p in points <==> FromHist(metric, series, render, p))
    ensures HistIn(points, (metric, dims)) == HistReading(series, dims)
  {
    var pk, s := PkOf(dims), (metric, dims);
    if pk in series && dims == pk.AsDict() {
      var p := HistPoint(metric, pk, series[pk], render);
      assert FromHist(metric, series, render, p);
      HistOnce(points, p);
    } else {
      forall q | q in points ensures SeriesOf(q) != s {
        if q.metric == metric {
          HistKeyed(metric, series, render, q);
        }
      }
      HistAbsent(points, s);
    }
  }

  // The points of the accumulated counters among others.
  ghost predicate Selects(points: seq<Point>, v: View, render: Hist -> Value, includeProvider: bool) {
    forall p: Point :: p.metric in ADDITIVE ==>
      (p in points <==> Workload(v, render, includeProvider, p) || FromFolds(v.unknown, p))
  }

  lemma MetricsOfFamilies(v: View, render: Hist -> Value, includeProvider: bool, p: Point)
    ensures FromHist(RequestDuration, v.times.dur, render, p) ==> p.metric == RequestDuration
    ensures FromHist(RequestTtft, v.times.ttft, render, p) ==> p.metric == RequestTtft
    ensures FromErrors(v.outcomes.errcat, p) ==> p.metric == RequestErrors
    ensures FromFolds(v.unknown, p) ==> p.metric == UnknownDimension
  {
  }

  // A metric tells the families apart.
  lemma Exclusive(m: Metric, dur: bool, ttft: bool, counts: bool, errors: bool, costs: bool, folds: bool)
    requires (dur ==> m == RequestDuration) && (ttft ==> m == RequestTtft) && (counts ==> m == RequestCount)
    requires (errors ==> m == RequestErrors) && (costs ==> m in COST_METRICS) && (folds ==> m == UnknownDimension)
    ensures var all := (dur || ttft || counts || errors || costs) || folds;
            && (m == RequestCount ==> (all <==> counts)) && (m == RequestErrors ==> (all <==> errors))
            && (m == UnknownDimension ==> (all <==> folds)) && (m == RequestDuration ==> (all <==> dur))
            && (m == RequestTtft ==> (all <==> ttft))
            && (m in SPEND_METRICS + CACHE_METRICS + GAP_METRICS ==> (all <==> costs))
  {
  }

  lemma CountsOnly(v: View, render: Hist -> Value, includeProvider: bool, p: Point)
    ensures var all := Workload(v, render, includeProvider, p) || FromFolds(v.unknown, p);
            && (p.metric == RequestCount ==> (all <==> FromCounts(v.outcomes.counts, p)))
            && (p.metric == RequestErrors ==> (all <==> FromErrors(v.outcomes.errcat, p)))
            && (p.metric == UnknownDimension ==> (all <==> FromFolds(v.unknown, p)))
            && (p.metric == RequestDuration ==> (all <==> FromHist(RequestDuration, v.times.dur, render, p)))
            && (p.metric == RequestTtft ==> (all <==> FromHist(RequestTtft, v.times.ttft, render, p)))
            && (p.metric in SPEND_METRICS + CACHE_METRICS + GAP_METRICS ==>
                  (all <==> FromCosts(v.costs.cost, includeProvider, p)))
  {
    MetricsOfFamilies(v, render, includeProvider, p);
    MetricOfCounts(v.outcomes.counts, p);
    MetricOfCosts(v.costs.cost, includeProvider, p);
    Exclusive(p.metric, FromHist(RequestDuration, v.times.dur, render, p),
              FromHist(RequestTtft, v.times.ttft, render, p),
              FromCounts(v.outcomes.counts, p), FromErrors(v.outcomes.errcat, p),
              FromCosts(v.costs.cost, includeProvider, p), FromFolds(v.unknown, p));
  }

  lemma MetricOfCounts(counts: map<PrimaryDims, Counts>, p: Point)
    ensures FromCounts(counts, p) ==> p.metric == RequestCount
  {
  }

  lemma MetricOfCosts(cost: map<CostKey, CostEntry>, includeProvider: bool, p: Point)
    ensures FromCosts(cost, includeProvider, p) ==> p.metric in COST_METRICS
  {
    if FromCosts(cost, includeProvider, p) {
      var k :| k in cost && p in CostPoints(k, cost[k], includeProvider);
      CostPointsOnce(k, cost[k], includeProvider);
    }
  }

  /** The points of a window add to every accumulated counter exactly its reading. */
  lemma PointsCarryReadings(points: seq<Point>, v: View, render: Hist -> Value, includeProvider: bool, s: SeriesId)
    requires Once(points) && Selects(points, v, render, includeProvider) && s.0 in ACCUMULATED
    requires GovernedView(v, includeProvider) && CoveredView(v)
    ensures ValueIn(points, s) == Reading(v, includeProvider, s)
  {
    forall p: Point | p.metric == s.0
      ensures p in points <==> Workload(v, render, includeProvider, p) || FromFolds(v.unknown, p)
      ensures s.0 == RequestCount ==> (p in points <==> FromCounts(v.outcomes.counts, p))
      ensures s.0 == RequestErrors ==> (p in points <==> FromErrors(v.outcomes.errcat, p))
      ensures s.0 == UnknownDimension ==> (p in points <==> FromFolds(v.unknown, p))
      ensures s.0 in SPEND_METRICS + CACHE_METRICS + GAP_METRICS ==>
                (p in points <==> FromCosts(v.costs.cost, includeProvider, p))
    {
      CountsOnly(v, render, includeProvider, p);
    }
    if s.0 == RequestCount {
      OutcomeValue(points, v.outcomes.counts, s.1);
    } else if s.0 == RequestErrors {
      ErrorValue(points, v.outcomes.errcat, s.1);
    } else if s.0 == UnknownDimension {
      FoldValue(points, v.unknown, s.1);
    } else {
      CostValue(points, v.costs.cost, includeProvider, s);
    }
  }

  /** And to every distribution exactly the histogram of the accumulators. */
  lemma PointsCarryDistributions(points: seq<Point>, v: View, render: Hist -> Value, includeProvider: bool, s: SeriesId)
    requires Once(points) && Selects(points, v, render, includeProvider) && s.0 in DISTRIBUTIONS && Renders(render)
    ensures HistIn(points, s) == Distribution(v, s)
  {
    forall p: Point | p.metric == s.0
      ensures s.0 == RequestDuration ==> (p in points <==> FromHist(RequestDuration, v.times.dur, render, p))
      ensures s.0 == RequestTtft ==> (p in points <==> FromHist(RequestTtft, v.times.ttft, render, p))
    {
      CountsOnly(v, render, includeProvider, p);
    }
    if s.0 == RequestDuration {
      HistValue(points, RequestDuration, v.times.dur, render, s.1);
    } else {
      HistValue(points, RequestTtft, v.times.ttft, render, s.1);
    }
  }

  /* ---------- what a backend shows ---------- */

  // The points add to every counter and distribution what the accumulators say.
  ghost predicate Shows(points: seq<Point>, v: View, includeProvider: bool) {
    && (forall s: SeriesId :: s.0 in ACCUMULATED ==> ValueIn(points, s) == Reading(v, includeProvider, s))
    && (forall s: SeriesId :: s.0 in DISTRIBUTIONS ==> HistIn(points, s) == Distribution(v, s))
  }

  lemma SelectedShow(points: seq<Point>, v: View, render: Hist -> Value, includeProvider: bool)
    requires Once(points) && Selects(points, v, render, includeProvider) && Renders(render)
    requires GovernedView(v, includeProvider) && CoveredView(v)
    ensures Shows(points, v, includeProvider)
  {
    forall s: SeriesId | s.0 in ACCUMULATED ensures ValueIn(points, s) == Reading(v, includeProvider, s) {
      PointsCarryReadings(points, v, render, includeProvider, s);
    }
    forall s: SeriesId | s.0 in DISTRIBUTIONS ensures HistIn(points, s) == Distribution(v, s) {
      PointsCarryDistributions(points, v, render, includeProvider, s);
    }
  }

  /** DELTA at the backend: the points of two windows together show the sum of their accumulators. */
  lemma ShowsMore(points: seq<Point>, v: View, flush: seq<Point>, w: View, includeProvider: bool)
    requires Shows(points, v, includeProvider) && Shows(flush, w, includeProvider)
    ensures Shows(points + flush, Merge(v, w), includeProvider)
  {
    forall s: SeriesId | s.0 in ACCUMULATED
      ensures ValueIn(points + flush, s) == Reading(Merge(v, w), includeProvider, s)
    {
      ValueConcat(points, flush, s);
      ReadingAdds(v, w, includeProvider, s);
    }
    forall s: SeriesId | s.0 in DISTRIBUTIONS ensures HistIn(points + flush, s) == Distribution(Merge(v, w), s) {
      HistConcat(points, flush, s);
      DistributionAdds(v, w, s);
    }
  }

  lemma NothingShown(includeProvider: bool)
    ensures Shows([], NOTHING, includeProvider)
  {
  }

  /* ---------- the batch wrapper ---------- */

  lemma NoMetricShared()
    ensures WORKLOAD_METRICS !! TRUST_METRICS && MalformedRecords !in ADDITIVE && DuplicateRecords !in ADDITIVE
  {
  }

  lemma TrustNotAccumulated(malformed: nat, duplicates: nat, p: Point)
    requires p in TrustPoints(malformed, duplicates)
    ensures p.metric !in ADDITIVE
  {
    NoMetricShared();
  }

  // The points of one aggregation.
  ghost predicate Batch(v: View, render: Hist -> Value, includeProvider: bool, malformed: nat, duplicates: nat,
                        p: Point)
  {
    Workload(v, render, includeProvider, p) || FromFolds(v.unknown, p) || p in TrustPoints(malformed, duplicates)
  }

  /** The batch wrapper: the points of one aggregation, each series once, adding to every counter and
      distribution what the observations with repeated ids removed amount to. */
  method Aggregate(observations: seq<Observation>, malformed: nat, plan: Plan, render: Hist -> Value,
                   includeProvider: bool, duplicateCount: nat)
    returns (points: seq<Point>, duplicates: nat)
    requires Governs(plan, includeProvider) && Covers(plan) && Renders(render)
    ensures duplicates == duplicateCount + |observations| - |Dedup(observations)|
    ensures Once(points) && Shows(points, Fold(Dedup(observations), plan), includeProvider)
    ensures forall p :: p in points <==>
              Batch(Fold(Dedup(observations), plan), render, includeProvider, malformed, duplicates, p)
  {
    var agg;
    agg, duplicates := AddAll(observations, plan, duplicateCount);
    ghost var v := Fold(Dedup(observations), plan);
    FoldGoverned(Dedup(observations), plan, includeProvider);
    FoldCovered(Dedup(observations), plan);
    var workload, trust := Build(agg.State(), render, includeProvider, malformed, duplicates);
    points := workload + trust;
    NoMetricShared();
    OnceFamilies(workload, trust, WORKLOAD_METRICS, TRUST_METRICS);
    forall p: Point | p.metric in ADDITIVE
      ensures p in points <==> Workload(v, render, includeProvider, p) || FromFolds(v.unknown, p)
    {
      if p in TrustPoints(malformed, duplicates) {
        TrustNotAccumulated(malformed, duplicates, p);
      }
    }
    SelectedShow(points, v, render, includeProvider);
  }
}
