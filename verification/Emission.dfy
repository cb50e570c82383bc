/**
  Materializing the accumulators as metric points, within the governance contract: every point
  passes the schema guard, and a window never exceeds the cardinality ceiling.
 */
module Emission {
  import opened Wrappers
  import opened Models
  import opened Governance
  import opened Histograms
  import opened Normalization
  import opened Aggregation
  import opened Conservation
  import opened OrderStatistics
  import opened Points

  /* ---------- the points of each series ---------- */

  // Histograms the percentiles can be read off.
  predicate Readable(h: Hist, bounds: seq<real>) {
    |h.counts| == |bounds| + 1 && h.count > 0 && h.min.Some? && h.max.Some?
  }

  function Quantile(bounds: seq<real>, h: Hist, q: real): Option<real> {
    if Readable(h, bounds) then Estimate(bounds, h, q) else None
  }

  // How a histogram is rendered: its buckets and three estimated percentiles.
  function Rendering(bounds: seq<real>): Hist -> Value {
    h => Buckets(h, Quantile(bounds, h, 50.0), Quantile(bounds, h, 95.0), Quantile(bounds, h, 99.0))
  }

  function HistPoint(metric: Metric, pk: PrimaryDims, h: Hist, render: Hist -> Value): Point {
    Point(metric, Histogram, Milliseconds, pk.AsDict(), render(h))
  }

  function Count(metric: Metric, dims: map<Dim, Label>, n: int): Point {
    Point(metric, Counter, One, dims, Number(n as real))
  }

  function CountPoints(pk: PrimaryDims, c: Counts): seq<Point> {
    [Count(RequestCount, pk.AsDict()[Outcome := Success], c.success)]
    + if c.error > 0 then [Count(RequestCount, pk.AsDict()[Outcome := Error], c.error)] else []
  }

  function ErrorPoint(key: (PrimaryDims, Label), n: nat): Point {
    Count(RequestErrors, key.0.AsDict()[ErrorCategory := key.1], n)
  }

  function CostDims(ck: CostKey, includeProvider: bool): map<Dim, Label> {
    var dims := map[Team := ck.team, Route := ck.route, ModelFamily := ck.modelFamily];
    if includeProvider then dims[ProviderRegion := ck.provider] else dims
  }

  function SpendPoints(dims: map<Dim, Label>, c: CostEntry): seq<Point> {
    [Point(CostUsd, Counter, Usd, dims, Number(c.usd)), Count(CostRequestCount, dims, c.count),
     Count(TokensInput, dims, c.input), Count(TokensOutput, dims, c.output)]
  }

  function RatioPoints(dims: map<Dim, Label>, c: CostEntry): seq<Point> {
    if c.input > 0 then [Point(TokensCompletionRatio, Gauge, Ratio, dims, Number(c.output as real / c.input as real))]
    else []
  }

  function CachePoints(dims: map<Dim, Label>, c: CostEntry): seq<Point> {
    if c.cacheHits > 0 then [Count(CacheReadTokens, dims, c.cacheRead), Count(CacheHitCount, dims, c.cacheHits)]
    else []
  }

  function GapPoints(dims: map<Dim, Label>, c: CostEntry): seq<Point> {
    (if c.missing > 0 then [Count(CostRecordsMissing, dims, c.missing)] else [])
    + (if c.invalid > 0 then [Count(CostRecordsInvalid, dims, c.invalid)] else [])
  }

  function CostPoints(ck: CostKey, c: CostEntry, includeProvider: bool): (points: seq<Point>)
    ensures |points| <= 9
  {
    var dims := CostDims(ck, includeProvider);
    SpendPoints(dims, c) + RatioPoints(dims, c) + CachePoints(dims, c) + GapPoints(dims, c)
  }

  function TrustPoints(malformed: nat, duplicates: nat): seq<Point> {
    (if malformed > 0 then [Count(MalformedRecords, map[], malformed)] else [])
    + (if duplicates > 0 then [Count(DuplicateRecords, map[], duplicates)] else [])
  }

  function FoldPoint(d: Label, n: nat): Point {
    Count(UnknownDimension, map[Dimension := d], n)
  }

  /* ---------- build ---------- */

  // The points of all keys of a dictionary, key by key.  A point tells its key, so no series is
  // touched twice.
  method PointsOf<K>(keys: set<K>, block: K --> seq<Point>, most: nat, ghost keyOf: SeriesId -> K)
    returns (points: seq<Point>)
    requires forall k :: k in keys ==> block.requires(k) && |block(k)| <= most
    requires forall k :: k in keys ==> Once(block(k))
    requires forall k, p :: k in keys && p in block(k) ==> keyOf(SeriesOf(p)) == k
    ensures forall k, p :: k in keys && p in block(k) ==> p in points
    ensures forall p :: p in points ==> exists k :: k in keys && p in block(k)
    ensures |points| <= most * |keys| && Once(points)
  {
    points := [];
    var rest := keys;
    while rest != {}
      invariant rest <= keys
      invariant forall k, p :: k in keys - rest && p in block(k) ==> p in points
      invariant forall p :: p in points ==> exists k :: k in keys - rest && p in block(k)
      invariant |points| <= most * (|keys| - |rest|) && Once(points)
      decreases rest
    {
      var k :| k in rest;
      forall p, q | p in points && q in block(k) ensures SeriesOf(p) != SeriesOf(q) {
        var k' :| k' in keys - rest && p in block(k');
      }
      OnceConcat(points, block(k));
      points := points + block(k);
      rest := rest - {k};
    }
  }

  // One point for each key of a dictionary.
  method OnePointEach<K>(keys: set<K>, point: K --> Point, ghost keyOf: SeriesId -> K) returns (points: seq<Point>)
    requires forall k :: k in keys ==> point.requires(k)
    requires forall k :: k in keys ==> keyOf(SeriesOf(point(k))) == k
    ensures forall p :: p in points <==> exists k :: k in keys && p == point(k)
    ensures |points| <= |keys| && Once(points)
  {
    points := [];
    var rest := keys;
    while rest != {}
      invariant rest <= keys
      invariant forall p :: p in points <==> exists k :: k in keys - rest && p == point(k)
      invariant |points| <= |keys| - |rest| && Once(points)
      decreases rest
    {
      var k :| k in rest;
      forall p | p in points ensures SeriesOf(p) != SeriesOf(point(k)) {
        var k' :| k' in keys - rest && p == point(k');
      }
      OnceConcat(points, [point(k)]);
      points := points + [point(k)];
      rest := rest - {k};
    }
  }

  /* ---------- the key behind a series ---------- */

  function At(dims: map<Dim, Label>, d: Dim): Label {
    if d in dims then dims[d] else FreeText("")
  }

  function PkOf(dims: map<Dim, Label>): PrimaryDims {
    PrimaryDims(At(dims, Team), At(dims, Route), At(dims, ModelFamily), At(dims, Env))
  }

  function ErrorKeyOf(dims: map<Dim, Label>): (PrimaryDims, Label) {
    (PkOf(dims), At(dims, ErrorCategory))
  }

  function CkOf(dims: map<Dim, Label>, includeProvider: bool): CostKey {
    CostKey(At(dims, Team), At(dims, Route), At(dims, ModelFamily),
            if includeProvider then At(dims, ProviderRegion) else NO_PROVIDER)
  }

  const SPEND_METRICS: set<Metric> := {CostUsd, CostRequestCount, TokensInput, TokensOutput}
  const CACHE_METRICS: set<Metric> := {CacheReadTokens, CacheHitCount}
  const GAP_METRICS: set<Metric> := {CostRecordsMissing, CostRecordsInvalid}
  const COST_METRICS: set<Metric> := SPEND_METRICS + {TokensCompletionRatio} + CACHE_METRICS + GAP_METRICS

  lemma CountPointKey(pk: PrimaryDims, c: Counts)
    ensures Once(CountPoints(pk, c))
    ensures forall p :: p in CountPoints(pk, c) ==> p.metric == RequestCount && PkOf(p.dims) == pk
  {
    assert pk.AsDict()[Outcome := Success][Outcome] != pk.AsDict()[Outcome := Error][Outcome];
  }

  lemma CostDimsKey(ck: CostKey, includeProvider: bool)
    requires !includeProvider ==> ck.provider == NO_PROVIDER
    ensures CkOf(CostDims(ck, includeProvider), includeProvider) == ck
  {
  }

  // Points of one series of labels, one per metric.
  ghost predicate Family(points: seq<Point>, metrics: set<Metric>, dims: map<Dim, Label>) {
    Once(points) && Within(points, metrics) && forall p :: p in points ==> p.dims == dims
  }

  lemma FamilyConcat(a: seq<Point>, b: seq<Point>, m: set<Metric>, n: set<Metric>, dims: map<Dim, Label>)
    requires Family(a, m, dims) && Family(b, n, dims) && m !! n
    ensures Family(a + b, m + n, dims)
  {
    OnceFamilies(a, b, m, n);
  }

  lemma SpendFamily(dims: map<Dim, Label>, c: CostEntry)
    ensures Family(SpendPoints(dims, c), SPEND_METRICS, dims)
  {
  }

  lemma ExtraFamilies(dims: map<Dim, Label>, c: CostEntry)
    ensures Family(RatioPoints(dims, c), {TokensCompletionRatio}, dims)
    ensures Family(CachePoints(dims, c), CACHE_METRICS, dims) && Family(GapPoints(dims, c), GAP_METRICS, dims)
  {
  }

  lemma CostPointsOnce(ck: CostKey, c: CostEntry, includeProvider: bool)
    ensures Family(CostPoints(ck, c, includeProvider), COST_METRICS, CostDims(ck, includeProvider))
  {
    var dims := CostDims(ck, includeProvider);
    SpendFamily(dims, c);
    ExtraFamilies(dims, c);
    CostFamilies(SpendPoints(dims, c), RatioPoints(dims, c), CachePoints(dims, c), GapPoints(dims, c), dims);
  }

  lemma CostFamilies(spend: seq<Point>, ratio: seq<Point>, cache: seq<Point>, gap: seq<Point>, dims: map<Dim, Label>)
    requires Family(spend, SPEND_METRICS, dims) && Family(ratio, {TokensCompletionRatio}, dims)
    requires Family(cache, CACHE_METRICS, dims) && Family(gap, GAP_METRICS, dims)
    ensures Family(spend + ratio + cache + gap, COST_METRICS, dims)
  {
    FamilyConcat(spend, ratio, SPEND_METRICS, {TokensCompletionRatio}, dims);
    FamilyConcat(spend + ratio, cache, SPEND_METRICS + {TokensCompletionRatio}, CACHE_METRICS, dims);
    FamilyConcat(spend + ratio + cache, gap, SPEND_METRICS + {TokensCompletionRatio} + CACHE_METRICS, GAP_METRICS,
                 dims);
  }

  ghost predicate FromHist(metric: Metric, series: map<PrimaryDims, Hist>, render: Hist -> Value, p: Point) {
    exists k :: k in series && p == HistPoint(metric, k, series[k], render)
  }

  ghost predicate FromCounts(counts: map<PrimaryDims, Counts>, p: Point) {
    exists k :: k in counts && p in CountPoints(k, counts[k])
  }

  ghost predicate FromErrors(errcat: map<(PrimaryDims, Label), nat>, p: Point) {
    exists k :: k in errcat && p == ErrorPoint(k, errcat[k])
  }

  ghost predicate FromCosts(cost: map<CostKey, CostEntry>, includeProvider: bool, p: Point) {
    exists k :: k in cost && p in CostPoints(k, cost[k], includeProvider)
  }

  ghost predicate FromFolds(unknown: map<Label, nat>, p: Point) {
    exists d :: d in unknown && p == FoldPoint(d, unknown[d])
  }

  method HistPoints(metric: Metric, series: map<PrimaryDims, Hist>, render: Hist -> Value) returns (points: seq<Point>)
    ensures forall p :: p in points <==> FromHist(metric, series, render, p)
    ensures |points| <= |series| && Once(points) && Within(points, {metric})
  {
    points := OnePointEach(series.Keys, k requires k in series => HistPoint(metric, k, series[k], render),
                           (s: SeriesId) => PkOf(s.1));
  }

  method OutcomePoints(counts: map<PrimaryDims, Counts>) returns (points: seq<Point>)
    ensures forall p :: p in points <==> FromCounts(counts, p)
    ensures |points| <= 2 * |counts| && Once(points) && Within(points, {RequestCount})
  {
    forall k | k in counts
      ensures Once(CountPoints(k, counts[k]))
      ensures forall p :: p in CountPoints(k, counts[k]) ==> p.metric == RequestCount && PkOf(p.dims) == k
    {
      CountPointKey(k, counts[k]);
    }
    points := PointsOf(counts.Keys, k requires k in counts => CountPoints(k, counts[k]), 2, (s: SeriesId) => PkOf(s.1));
  }

  method ErrorPoints(errcat: map<(PrimaryDims, Label), nat>) returns (points: seq<Point>)
    ensures forall p :: p in points <==> FromErrors(errcat, p)
    ensures |points| <= |errcat| && Once(points) && Within(points, {RequestErrors})
  {
    points := OnePointEach(errcat.Keys, k requires k in errcat => ErrorPoint(k, errcat[k]),
                           (s: SeriesId) => ErrorKeyOf(s.1));
  }

  // Without provider regions all cost keys carry the same placeholder.
  ghost predicate OneProvider(cost: map<CostKey, CostEntry>, includeProvider: bool) {
    forall k :: k in cost && !includeProvider ==> k.provider == NO_PROVIDER
  }

  method CostFamilyPoints(cost: map<CostKey, CostEntry>, includeProvider: bool) returns (points: seq<Point>)
    requires OneProvider(cost, includeProvider)
    ensures forall p :: p in points <==> FromCosts(cost, includeProvider, p)
    ensures |points| <= 9 * |cost| && Once(points) && Within(points, COST_METRICS)
  {
    forall k | k in cost
      ensures var block := CostPoints(k, cost[k], includeProvider);
              && Once(block) && Within(block, COST_METRICS)
              && forall p :: p in block ==> CkOf(p.dims, includeProvider) == k
    {
      CostPointsOnce(k, cost[k], includeProvider);
      CostDimsKey(k, includeProvider);
    }
    points := PointsOf(cost.Keys, k requires k in cost => CostPoints(k, cost[k], includeProvider), 9,
                       (s: SeriesId) => CkOf(s.1, includeProvider));
  }

  method FoldPoints(unknown: map<Label, nat>) returns (points: seq<Point>)
    ensures forall p :: p in points <==> FromFolds(unknown, p)
    ensures Once(points) && Within(points, {UnknownDimension})
  {
    points := OnePointEach(unknown.Keys, d requires d in unknown => FoldPoint(d, unknown[d]),
                           (s: SeriesId) => At(s.1, Dimension));
  }

  ghost predicate Workload(v: View, render: Hist -> Value, includeProvider: bool, p: Point) {
    || FromHist(RequestDuration, v.times.dur, render, p) || FromHist(RequestTtft, v.times.ttft, render, p)
    || FromCounts(v.outcomes.counts, p) || FromErrors(v.outcomes.errcat, p)
    || FromCosts(v.costs.cost, includeProvider, p)
  }

  const WORKLOAD_METRICS: set<Metric> :=
    {RequestDuration} + {RequestTtft} + {RequestCount} + {RequestErrors} + COST_METRICS
  const TRUST_METRICS: set<Metric> := {MalformedRecords, DuplicateRecords} + {UnknownDimension}

  lemma WorkloadOnce(durations: seq<Point>, firstTokens: seq<Point>, counts: seq<Point>, errors: seq<Point>,
                     costs: seq<Point>)
    requires Once(durations) && Within(durations, {RequestDuration})
    requires Once(firstTokens) && Within(firstTokens, {RequestTtft})
    requires Once(counts) && Within(counts, {RequestCount}) && Once(errors) && Within(errors, {RequestErrors})
    requires Once(costs) && Within(costs, COST_METRICS)
    ensures Once(durations + firstTokens + counts + errors + costs)
    ensures Within(durations + firstTokens + counts + errors + costs, WORKLOAD_METRICS)
  {
    var two := {RequestDuration} + {RequestTtft};
    OnceFamilies(durations, firstTokens, {RequestDuration}, {RequestTtft});
    OnceFamilies(durations + firstTokens, counts, two, {RequestCount});
    OnceFamilies(durations + firstTokens + counts, errors, two + {RequestCount}, {RequestErrors});
    OnceFamilies(durations + firstTokens + counts + errors, costs, two + {RequestCount} + {RequestErrors},
                 COST_METRICS);
  }

  lemma TrustOnce(malformed: nat, duplicates: nat, folds: seq<Point>)
    requires Once(folds) && Within(folds, {UnknownDimension})
    ensures Once(TrustPoints(malformed, duplicates) + folds)
    ensures Within(TrustPoints(malformed, duplicates) + folds, TRUST_METRICS)
  {
    OnceFamilies(TrustPoints(malformed, duplicates), folds, {MalformedRecords, DuplicateRecords}, {UnknownDimension});
  }

  /** The points of a window: the workload families, then the trust counters, each series once. */
  method Build(v: View, render: Hist -> Value, includeProvider: bool, malformed: nat, duplicates: nat)
    returns (workload: seq<Point>, trust: seq<Point>)
    requires GovernedView(v, includeProvider)
    ensures forall p :: p in workload <==> Workload(v, render, includeProvider, p)
    ensures forall p :: p in trust <==> p in TrustPoints(malformed, duplicates) || FromFolds(v.unknown, p)
    ensures Once(workload) && Within(workload, WORKLOAD_METRICS) && Once(trust) && Within(trust, TRUST_METRICS)
    ensures |workload| <= EstimatedMaxTotalSeries()
  {
    var durations := HistPoints(RequestDuration, v.times.dur, render);
    var firstTokens := HistPoints(RequestTtft, v.times.ttft, render);
    var counts := OutcomePoints(v.outcomes.counts);
    var errors := ErrorPoints(v.outcomes.errcat);
    var costs := CostFamilyPoints(v.costs.cost, includeProvider);
    workload := durations + firstTokens + counts + errors + costs;
    WorkloadOnce(durations, firstTokens, counts, errors, costs);
    var folds := FoldPoints(v.unknown);
    trust := TrustPoints(malformed, duplicates) + folds;
    TrustOnce(malformed, duplicates, folds);
    WithinCeiling(v, includeProvider);
  }

  /* ---------- the ceiling ---------- */

  // Keys drawn from the closed vocabularies.
  ghost predicate GovernedCost(ck: CostKey, includeProvider: bool) {
    && ck.team in Vocabulary(Team) && ck.route in Vocabulary(Route) && ck.modelFamily in Vocabulary(ModelFamily)
    && (if includeProvider then ck.provider in Vocabulary(ProviderRegion) else ck.provider == NO_PROVIDER)
  }

  ghost predicate GovernedSample(s: Sample, includeProvider: bool) {
    && s.pk.Governed() && GovernedCost(s.ck, includeProvider) && s.folds <= Vocabulary(Dimension)
    && (s.failure.Some? ==> s.failure.value in Vocabulary(ErrorCategory))
  }

  lemma NormalizedIsGoverned(obs: Observation, cfg: Config)
    ensures GovernedSample(PlanOf(cfg).sample(obs), cfg.includeProviderRegion)
  {
  }

  ghost predicate GovernedView(v: View, includeProvider: bool) {
    && (forall k :: k in v.times.dur ==> k.Governed())
    && (forall k :: k in v.times.ttft ==> k.Governed())
    && (forall k :: k in v.outcomes.counts ==> k.Governed())
    && (forall k :: k in v.outcomes.errcat ==> k.0.Governed() && k.1 in Vocabulary(ErrorCategory))
    && (forall k :: k in v.costs.cost ==> GovernedCost(k, includeProvider))
    && v.unknown.Keys <= Vocabulary(Dimension)
  }

  ghost predicate Governs(plan: Plan, includeProvider: bool) {
    forall obs :: GovernedSample(plan.sample(obs), includeProvider)
  }

  lemma {:induction false} FoldGoverned(xs: seq<Observation>, plan: Plan, includeProvider: bool)
    requires Governs(plan, includeProvider)
    ensures GovernedView(Fold(xs, plan), includeProvider)
  {
    if xs != [] {
      FoldGoverned(xs[..|xs| - 1], plan, includeProvider);
      FoldLast(xs, plan);
      assert GovernedSample(plan.sample(xs[|xs| - 1]), includeProvider);
    }
  }

  // Cached tokens come from cache hits.
  predicate HitsCover(c: CostEntry) {
    c.cacheHits == 0 ==> c.cacheRead == 0
  }

  ghost predicate Covers(plan: Plan) {
    forall obs :: HitsCover(plan.sample(obs).cost)
  }

  ghost predicate CoveredView(v: View) {
    forall k :: k in v.costs.cost ==> HitsCover(v.costs.cost[k])
  }

  lemma {:induction false} FoldCovered(xs: seq<Observation>, plan: Plan)
    requires Covers(plan)
    ensures CoveredView(Fold(xs, plan))
  {
    if xs != [] {
      var s := plan.sample(xs[|xs| - 1]);
      FoldCovered(xs[..|xs| - 1], plan);
      FoldLast(xs, plan);
      assert HitsCover(s.cost);
    }
  }

  // At most |bs| elements share one first part when the second tells them apart.
  lemma {:induction false} FibreBound<T, B>(s: set<T>, snd: T -> B, bs: set<B>)
    requires forall x :: x in s ==> snd(x) in bs
    requires forall x, y :: x in s && y in s && snd(x) == snd(y) ==> x == y
    ensures |s| <= |bs|
  {
    if s != {} {
      var x :| x in s;
      FibreBound(s - {x}, snd, bs - {snd(x)});
    }
  }

  /** A set whose elements are told apart by two parts is no larger than the product. */
  lemma {:induction false} PairBound<T, A, B>(s: set<T>, fst: T -> A, snd: T -> B, as_: set<A>, bs: set<B>)
    requires forall x :: x in s ==> fst(x) in as_ && snd(x) in bs
    requires forall x, y :: x in s && y in s && fst(x) == fst(y) && snd(x) == snd(y) ==> x == y
    ensures |s| <= |as_| * |bs|
  {
    if as_ != {} {
      var a :| a in as_;
      var here := set x | x in s && fst(x) == a;
      FibreBound(here, snd, bs);
      PairBound(s - here, fst, snd, as_ - {a}, bs);
      assert |s| == |here| + |s - here|;
      assert |as_| * |bs| == |bs| + (|as_| - 1) * |bs|;
    } else {
      assert s == {};
    }
  }

  // At most a * b * c * d keys of four parts.
  lemma FourPartBound<T>(s: set<T>, part: T -> (Label, Label, Label, Label),
                         a: set<Label>, b: set<Label>, c: set<Label>, d: set<Label>)
    requires forall x :: x in s ==> part(x).0 in a && part(x).1 in b && part(x).2 in c && part(x).3 in d
    requires forall x, y :: x in s && y in s && part(x) == part(y) ==> x == y
    ensures |s| <= |a| * |b| * |c| * |d|
  {
    var ab := set x, y | x in a && y in b :: (x, y);
    var abc := set p, z | p in ab && z in c :: (p, z);
    PairBound(ab, (p: (Label, Label)) => p.0, (p: (Label, Label)) => p.1, a, b);
    PairBound(abc, (p: ((Label, Label), Label)) => p.0, (p: ((Label, Label), Label)) => p.1, ab, c);
    PairBound(s, x => ((part(x).0, part(x).1), part(x).2), x => part(x).3, abc, d);
    MultiplyBounds(|ab|, |a| * |b|, |c|);
    MultiplyBounds(|abc|, |a| * |b| * |c|, |d|);
  }

  lemma MultiplyBounds(x: nat, y: nat, z: nat)
    requires x <= y
    ensures x * z <= y * z
  {
  }

  lemma PrimaryBound(keys: set<PrimaryDims>)
    requires forall k :: k in keys ==> k.Governed()
    ensures |keys| <= 896
  {
    VocabularySizes();
    FourPartBound(keys, (k: PrimaryDims) => (k.team, k.route, k.modelFamily, k.env),
                  Vocabulary(Team), Vocabulary(Route), Vocabulary(ModelFamily), Vocabulary(Env));
  }

  lemma CostBound(keys: set<CostKey>, includeProvider: bool)
    requires forall k :: k in keys ==> GovernedCost(k, includeProvider)
    ensures |keys| <= 896
  {
    VocabularySizes();
    var providers := if includeProvider then Vocabulary(ProviderRegion) else {NO_PROVIDER};
    FourPartBound(keys, (k: CostKey) => (k.team, k.route, k.modelFamily, k.provider),
                  Vocabulary(Team), Vocabulary(Route), Vocabulary(ModelFamily), providers);
    MultiplyBounds(|providers|, 4, 224);
  }

  lemma ErrorBound(keys: set<(PrimaryDims, Label)>)
    requires forall k :: k in keys ==> k.0.Governed() && k.1 in Vocabulary(ErrorCategory)
    ensures |keys| <= 896 * 7
  {
    VocabularySizes();
    var pks := set k | k in keys :: k.0;
    PrimaryBound(pks);
    PairBound(keys, (k: (PrimaryDims, Label)) => k.0, (k: (PrimaryDims, Label)) => k.1, pks, Vocabulary(ErrorCategory));
    MultiplyBounds(|pks|, 896, 7);
  }

  /** For every input stream the accumulators hold at most as many points as the registry's
      ceiling. */
  lemma WithinCeiling(v: View, includeProvider: bool)
    requires GovernedView(v, includeProvider)
    ensures |v.times.dur| + |v.times.ttft| + 2 * |v.outcomes.counts| + |v.outcomes.errcat| + 9 * |v.costs.cost|
            <= EstimatedMaxTotalSeries()
  {
    CeilingValue();
    PrimaryBound(v.times.dur.Keys);
    PrimaryBound(v.times.ttft.Keys);
    PrimaryBound(v.outcomes.counts.Keys);
    ErrorBound(v.outcomes.errcat.Keys);
    CostBound(v.costs.cost.Keys, includeProvider);
  }

  /* ---------- every point passes the guard ---------- */

  lemma PrimaryPointAllowed(pk: PrimaryDims, extra: map<Dim, Label>, p: Point)
    requires pk.Governed() && p.dims == pk.AsDict() + extra && extra.Keys <= {Outcome, ErrorCategory}
    requires forall d :: d in extra ==> extra[d] in Vocabulary(d)
    requires Registry(p.metric).Some?
    requires p.kind == Registry(p.metric).value.kind && p.unit == Registry(p.metric).value.unit
    requires Registry(p.metric).value.dims == PRIMARY + extra.Keys
    ensures Allowed(p)
  {
  }

  lemma CostPointAllowed(ck: CostKey, includeProvider: bool, p: Point)
    requires GovernedCost(ck, includeProvider) && p.dims == CostDims(ck, includeProvider)
    requires Registry(p.metric).Some?
    requires p.kind == Registry(p.metric).value.kind && p.unit == Registry(p.metric).value.unit
    requires Registry(p.metric).value.dims == COST
    ensures Allowed(p)
  {
  }

  lemma SpendAllowed(ck: CostKey, c: CostEntry, includeProvider: bool, p: Point)
    requires GovernedCost(ck, includeProvider) && p in SpendPoints(CostDims(ck, includeProvider), c)
    ensures Allowed(p)
  {
    CostPointAllowed(ck, includeProvider, p);
  }

  lemma ExtraCostAllowed(ck: CostKey, c: CostEntry, includeProvider: bool, p: Point)
    requires GovernedCost(ck, includeProvider)
    requires var dims := CostDims(ck, includeProvider);
             p in RatioPoints(dims, c) || p in CachePoints(dims, c) || p in GapPoints(dims, c)
    ensures Allowed(p)
  {
    CostPointAllowed(ck, includeProvider, p);
  }

  lemma CostPointsAllowed(ck: CostKey, c: CostEntry, includeProvider: bool, p: Point)
    requires GovernedCost(ck, includeProvider) && p in CostPoints(ck, c, includeProvider)
    ensures Allowed(p)
  {
    if p in SpendPoints(CostDims(ck, includeProvider), c) {
      SpendAllowed(ck, c, includeProvider, p);
    } else {
      ExtraCostAllowed(ck, c, includeProvider, p);
    }
  }

  lemma CountPointsAllowed(pk: PrimaryDims, c: Counts, p: Point)
    requires pk.Governed() && p in CountPoints(pk, c)
    ensures Allowed(p)
  {
    if p == CountPoints(pk, c)[0] {
      PrimaryPointAllowed(pk, map[Outcome := Success], p);
    } else {
      PrimaryPointAllowed(pk, map[Outcome := Error], p);
    }
  }

  lemma HistPointAllowed(metric: Metric, series: map<PrimaryDims, Hist>, render: Hist -> Value, p: Point)
    requires metric == RequestDuration || metric == RequestTtft
    requires forall k :: k in series ==> k.Governed()
    requires FromHist(metric, series, render, p)
    ensures Allowed(p)
  {
    var k :| k in series && p == HistPoint(metric, k, series[k], render);
    PrimaryPointAllowed(k, map[], p);
  }

  lemma ErrorPointAllowed(pk: PrimaryDims, category: Label, n: nat, p: Point)
    requires pk.Governed() && category in Vocabulary(ErrorCategory) && p == ErrorPoint((pk, category), n)
    ensures Allowed(p)
  {
    assert p.dims == pk.AsDict() + map[ErrorCategory := category];
    PrimaryPointAllowed(pk, map[ErrorCategory := category], p);
  }

  /** Every point of a window satisfies the governance contract. */
  lemma WorkloadAllowed(v: View, render: Hist -> Value, includeProvider: bool, p: Point)
    requires GovernedView(v, includeProvider) && Workload(v, render, includeProvider, p)
    ensures Allowed(p)
  {
    if FromHist(RequestDuration, v.times.dur, render, p) {
      HistPointAllowed(RequestDuration, v.times.dur, render, p);
    } else if FromHist(RequestTtft, v.times.ttft, render, p) {
      HistPointAllowed(RequestTtft, v.times.ttft, render, p);
    } else if FromCounts(v.outcomes.counts, p) {
      var k :| k in v.outcomes.counts && p in CountPoints(k, v.outcomes.counts[k]);
      CountPointsAllowed(k, v.outcomes.counts[k], p);
    } else if FromErrors(v.outcomes.errcat, p) {
      var k :| k in v.outcomes.errcat && p == ErrorPoint(k, v.outcomes.errcat[k]);
      ErrorPointAllowed(k.0, k.1, v.outcomes.errcat[k], p);
    } else {
      var k :| k in v.costs.cost && p in CostPoints(k, v.costs.cost[k], includeProvider);
      CostPointsAllowed(k, v.costs.cost[k], includeProvider, p);
    }
  }

  lemma TrustAllowed(v: View, malformed: nat, duplicates: nat, includeProvider: bool, p: Point)
    requires GovernedView(v, includeProvider)
    requires p in TrustPoints(malformed, duplicates) || FromFolds(v.unknown, p)
    ensures Allowed(p)
  {
  }

  /* ---------- for every stream ---------- */

  /** The histograms of any stream can be read for percentiles. */
  lemma FoldReadable(xs: seq<Observation>, plan: Plan, pk: PrimaryDims)
    ensures pk in Fold(xs, plan).times.dur ==> Readable(Fold(xs, plan).times.dur[pk], plan.bounds)
    ensures pk in Fold(xs, plan).times.ttft ==> Readable(Fold(xs, plan).times.ttft[pk], plan.bounds)
  {
    DurationSeries(xs, plan, pk);
    SummaryRange(plan.bounds, Latencies(xs, plan, pk));
    FirstTokenSeries(xs, plan, pk);
    SummaryRange(plan.bounds, FirstTokens(xs, plan, pk));
  }

  /** A percentile of a duration point shares its bucket with the exact percentile of the latencies
      of that series. */
  lemma PointPercentiles(xs: seq<Observation>, plan: Plan, pk: PrimaryDims, q: real)
    requires StrictlyAscending(plan.bounds) && pk in Fold(xs, plan).times.dur && 0.0 < q <= 100.0
    ensures var h, values := Fold(xs, plan).times.dur[pk], Latencies(xs, plan, pk);
            && values != [] && Readable(h, plan.bounds) && Estimate(plan.bounds, h, q).Some?
            && var b := Bucket(plan.bounds, Exact(values, q));
               (if b < |plan.bounds|
                then LowerEdge(plan.bounds, h, b) <= Estimate(plan.bounds, h, q).value <= UpperEdge(plan.bounds, h, b)
                     && LowerEdge(plan.bounds, h, b) <= Exact(values, q) <= UpperEdge(plan.bounds, h, b)
                else Estimate(plan.bounds, h, q).value == Sorted(values)[|values| - 1])
  {
    DurationSeries(xs, plan, pk);
    EstimateBracketsExact(plan.bounds, Latencies(xs, plan, pk), q);
    SummaryRange(plan.bounds, Latencies(xs, plan, pk));
  }

  /** And it is the interpolated percentile of exactly those latencies. */
  lemma PointIsPercentile(xs: seq<Observation>, plan: Plan, pk: PrimaryDims, q: real)
    requires pk in Fold(xs, plan).times.dur
    ensures Readable(Fold(xs, plan).times.dur[pk], plan.bounds)
    ensures Estimate(plan.bounds, Fold(xs, plan).times.dur[pk], q)
            == Percentile(plan.bounds, Latencies(xs, plan, pk), q)
  {
    DurationSeries(xs, plan, pk);
    SummaryRange(plan.bounds, Latencies(xs, plan, pk));
  }

  lemma RenderingIs(bounds: seq<real>, h: Hist)
    requires Readable(h, bounds)
    ensures Rendering(bounds)(h) ==
            Buckets(h, Estimate(bounds, h, 50.0), Estimate(bounds, h, 95.0), Estimate(bounds, h, 99.0))
  {
  }

  /** With a valid configuration every emitted duration point carries its histogram and three percentiles,
      the estimates at 50, 95 and 99, in order and within the observed extremes. */
  lemma ConfiguredPercentiles(xs: seq<Observation>, cfg: Config, pk: PrimaryDims)
    requires cfg.Valid() && pk in Fold(xs, PlanOf(cfg)).times.dur
    ensures var h := Fold(xs, PlanOf(cfg)).times.dur[pk];
            var v := Rendering(cfg.buckets)(h);
            && Readable(h, cfg.buckets) && v.hist == h && v.p50 == Estimate(cfg.buckets, h, 50.0)
            && v.p95 == Estimate(cfg.buckets, h, 95.0) && v.p99 == Estimate(cfg.buckets, h, 99.0)
            && v.p50.Some? && v.p95.Some? && v.p99.Some? && h.min.Some? && h.max.Some?
            && h.min.value <= v.p50.value <= v.p95.value <= v.p99.value <= h.max.value
  {
    var values := Latencies(xs, PlanOf(cfg), pk);
    DurationSeries(xs, PlanOf(cfg), pk);
    SummaryRange(cfg.buckets, values);
    PercentilesOrdered(cfg.buckets, values);
    RenderingIs(cfg.buckets, Summary(cfg.buckets, values));
  }
}
