/**
  Which counter series a window reports: exactly those with something to count.
 */
module Presence {
  import opened Wrappers
  import opened Models
  import opened Governance
  import opened Normalization
  import opened Aggregation
  import opened Conservation
  import opened Points
  import opened Emission
  import opened Readings
  import opened Counters

  // Accumulators that hold no empty entry.
  ghost predicate Positive(v: View) {
    && (forall k :: k in v.outcomes.counts ==> v.outcomes.counts[k].success + v.outcomes.counts[k].error > 0)
    && (forall k :: k in v.outcomes.errcat ==> v.outcomes.errcat[k] > 0)
    && (forall k :: k in v.costs.cost ==> v.costs.cost[k].count > 0)
    && (forall k :: k in v.unknown ==> v.unknown[k] > 0)
  }

  lemma MergePositive(a: View, b: View)
    requires Positive(a) && Positive(b)
    ensures Positive(Merge(a, b))
  {
  }

  lemma {:induction false} FoldPositive(xs: seq<Observation>, plan: Plan, labels: Labelling, includeProvider: bool)
    requires Follows(plan, labels, includeProvider)
    ensures Positive(Fold(xs, plan))
  {
    if xs != [] {
      var last := xs[|xs| - 1];
      FoldPositive(xs[..|xs| - 1], plan, labels, includeProvider);
      FoldLast(xs, plan);
      OnePositive(last, plan, labels, includeProvider);
      MergePositive(Fold(xs[..|xs| - 1], plan), Contribution(last, plan));
    }
  }

  lemma OnePositive(obs: Observation, plan: Plan, labels: Labelling, includeProvider: bool)
    requires Follows(plan, labels, includeProvider)
    ensures Positive(Contribution(obs, plan))
  {
    assert LabelledAt(plan, labels, includeProvider, obs);
    assert CostAmount(CostRequestCount, plan.sample(obs).cost) == Spent(obs, CostRequestCount);
  }

  // A window reports a counter series.
  ghost predicate Reports(v: View, includeProvider: bool, s: SeriesId, p: Point) {
    && SeriesOf(p) == s
    && (FromCounts(v.outcomes.counts, p) || FromErrors(v.outcomes.errcat, p)
        || FromCosts(v.costs.cost, includeProvider, p) || FromFolds(v.unknown, p))
  }

  // The counter that decides over another: the requests of a cost series, or its cache hits.
  function Deciding(m: Metric): Metric {
    if m == CostUsd || m == TokensInput || m == TokensOutput then CostRequestCount
    else if m == CacheReadTokens then CacheHitCount
    else m
  }

  // What decides: for spend the requests of the series, for cached tokens its cache hits, for successes the
  // requests of either outcome, and otherwise the counter itself.
  function Weight(v: View, includeProvider: bool, s: SeriesId): real {
    if s.0 == RequestCount && At(s.1, Outcome) == Success then
      Reading(v, includeProvider, s) + Reading(v, includeProvider, (RequestCount, s.1[Outcome := Error]))
    else Reading(v, includeProvider, (Deciding(s.0), s.1))
  }

  lemma OutcomeLabels(pk: PrimaryDims)
    ensures var success, error := pk.AsDict()[Outcome := Success], pk.AsDict()[Outcome := Error];
            && PkOf(success) == pk && PkOf(error) == pk && success != error
            && success[Outcome := Error] == error && error[Outcome := Success] == success
  {
    assert pk.AsDict()[Outcome := Success][Outcome] != pk.AsDict()[Outcome := Error][Outcome];
  }

  lemma OutcomeReported(counts: map<PrimaryDims, Counts>, dims: map<Dim, Label>, p: Point)
    requires forall k :: k in counts ==> counts[k].success + counts[k].error > 0
    requires FromCounts(counts, p) && p.dims == dims
    ensures OutcomeReading(counts, dims)
            + (if At(dims, Outcome) == Success then OutcomeReading(counts, dims[Outcome := Error]) else 0) > 0
  {
    CountKey(counts, p);
    OutcomeLabels(PkOf(dims));
  }

  lemma SuccessLabels(dims: map<Dim, Label>)
    requires At(dims, Outcome) == Success
    ensures PkOf(dims[Outcome := Error]) == PkOf(dims) && dims[Outcome := Error][Outcome := Success] == dims
  {
  }

  lemma OutcomeFound(counts: map<PrimaryDims, Counts>, dims: map<Dim, Label>) returns (p: Point)
    requires OutcomeReading(counts, dims)
             + (if At(dims, Outcome) == Success then OutcomeReading(counts, dims[Outcome := Error]) else 0) > 0
    ensures FromCounts(counts, p) && SeriesOf(p) == (RequestCount, dims)
  {
    var pk := PkOf(dims);
    OutcomeLabels(pk);
    if At(dims, Outcome) == Success {
      SuccessLabels(dims);
    }
    var success := dims == pk.AsDict()[Outcome := Success];
    p := Count(RequestCount, dims, if success then counts[pk].success else counts[pk].error);
    assert p in CountPoints(pk, counts[pk]);
  }

  lemma OptionalPoint(dims: map<Dim, Label>, c: CostEntry, p: Point)
    ensures p in CachePoints(dims, c) ==> c.cacheHits > 0
    ensures p in GapPoints(dims, c) && p.metric == CostRecordsMissing ==> c.missing > 0
    ensures p in GapPoints(dims, c) && p.metric == CostRecordsInvalid ==> c.invalid > 0
  {
  }

  lemma BlockPoint(ck: CostKey, c: CostEntry, includeProvider: bool, p: Point)
    requires p in CostPoints(ck, c, includeProvider)
    ensures p.metric in CACHE_METRICS ==> c.cacheHits > 0
    ensures p.metric == CostRecordsMissing ==> c.missing > 0
    ensures p.metric == CostRecordsInvalid ==> c.invalid > 0
  {
    var dims := CostDims(ck, includeProvider);
    SpendFamily(dims, c);
    ExtraFamilies(dims, c);
    OptionalPoint(dims, c, p);
  }

  lemma CostReported(cost: map<CostKey, CostEntry>, includeProvider: bool, s: SeriesId, p: Point)
    requires OneProvider(cost, includeProvider) && forall k :: k in cost ==> cost[k].count > 0
    requires s.0 in SPEND_METRICS + CACHE_METRICS + GAP_METRICS
    requires FromCosts(cost, includeProvider, p) && SeriesOf(p) == s
    ensures CostReading(cost, includeProvider, (Deciding(s.0), s.1)) > 0.0
  {
    CostKeyed(cost, includeProvider, p);
    var ck := CkOf(s.1, includeProvider);
    BlockPoint(ck, cost[ck], includeProvider, p);
    AmountPositive(cost[ck], s.0);
  }

  lemma AmountPositive(c: CostEntry, m: Metric)
    requires m in SPEND_METRICS + CACHE_METRICS + GAP_METRICS && c.count > 0
    requires m in CACHE_METRICS ==> c.cacheHits > 0
    requires m == CostRecordsMissing ==> c.missing > 0
    requires m == CostRecordsInvalid ==> c.invalid > 0
    ensures CostAmount(Deciding(m), c) > 0.0
  {
  }

  lemma BlockHas(ck: CostKey, c: CostEntry, includeProvider: bool, m: Metric) returns (p: Point)
    requires m in SPEND_METRICS + CACHE_METRICS + GAP_METRICS && CostAmount(Deciding(m), c) > 0.0
    ensures p in CostPoints(ck, c, includeProvider) && SeriesOf(p) == (m, CostDims(ck, includeProvider))
  {
    var dims := CostDims(ck, includeProvider);
    if m in SPEND_METRICS {
      p := SpendCarries(dims, c, m);
    } else if m in CACHE_METRICS {
      p := CachePoints(dims, c)[if m == CacheReadTokens then 0 else 1];
    } else {
      p := Count(m, dims, if m == CostRecordsMissing then c.missing else c.invalid);
      assert p in GapPoints(dims, c);
    }
  }

  lemma CostFound(cost: map<CostKey, CostEntry>, includeProvider: bool, s: SeriesId) returns (p: Point)
    requires s.0 in SPEND_METRICS + CACHE_METRICS + GAP_METRICS
    requires CostReading(cost, includeProvider, (Deciding(s.0), s.1)) > 0.0
    ensures FromCosts(cost, includeProvider, p) && SeriesOf(p) == s
  {
    var ck := CkOf(s.1, includeProvider);
    p := BlockHas(ck, cost[ck], includeProvider, s.0);
  }

  // A metric tells the families of counters apart.
  lemma FamilyTold(v: View, includeProvider: bool, p: Point)
    ensures FromCounts(v.outcomes.counts, p) ==> p.metric == RequestCount
    ensures FromErrors(v.outcomes.errcat, p) ==> p.metric == RequestErrors
    ensures FromCosts(v.costs.cost, includeProvider, p) ==> p.metric in COST_METRICS
    ensures FromFolds(v.unknown, p) ==> p.metric == UnknownDimension
  {
    MetricOfCounts(v.outcomes.counts, p);
    MetricOfCosts(v.costs.cost, includeProvider, p);
  }

  lemma CostWeight(v: View, includeProvider: bool, s: SeriesId)
    requires s.0 != RequestCount && s.0 != RequestErrors && s.0 != UnknownDimension
    ensures Weight(v, includeProvider, s) == CostReading(v.costs.cost, includeProvider, (Deciding(s.0), s.1))
  {
  }

  lemma OutcomeWeight(v: View, includeProvider: bool, s: SeriesId, p: Point)
    requires s.0 == RequestCount && FromCounts(v.outcomes.counts, p) && SeriesOf(p) == s && Positive(v)
    ensures Weight(v, includeProvider, s) > 0.0
  {
    OutcomeReported(v.outcomes.counts, s.1, p);
  }

  lemma ErrorWeight(v: View, includeProvider: bool, s: SeriesId, p: Point)
    requires s.0 == RequestErrors && FromErrors(v.outcomes.errcat, p) && SeriesOf(p) == s && Positive(v)
    ensures Weight(v, includeProvider, s) > 0.0
  {
    ErrorKey(v.outcomes.errcat, p);
  }

  lemma FoldWeight(v: View, includeProvider: bool, s: SeriesId, p: Point)
    requires s.0 == UnknownDimension && FromFolds(v.unknown, p) && SeriesOf(p) == s && Positive(v)
    ensures Weight(v, includeProvider, s) > 0.0
  {
    FoldKey(v.unknown, p);
  }

  lemma CostMetric(m: Metric)
    requires m in COST_METRICS
    ensures m != RequestCount && m != RequestErrors && m != UnknownDimension
    ensures m in ACCUMULATED ==> m in SPEND_METRICS + CACHE_METRICS + GAP_METRICS
  {
  }

  lemma CostOnly(v: View, includeProvider: bool, s: SeriesId, p: Point)
    requires FromCosts(v.costs.cost, includeProvider, p) && SeriesOf(p) == s && s.0 in ACCUMULATED
    requires Positive(v) && OneProvider(v.costs.cost, includeProvider)
    ensures Weight(v, includeProvider, s) > 0.0
  {
    MetricOfCosts(v.costs.cost, includeProvider, p);
    CostMetric(s.0);
    CostReported(v.costs.cost, includeProvider, s, p);
    CostWeight(v, includeProvider, s);
  }

  lemma OnlyReported(v: View, includeProvider: bool, s: SeriesId, p: Point)
    requires Reports(v, includeProvider, s, p) && s.0 in ACCUMULATED
    requires Positive(v) && OneProvider(v.costs.cost, includeProvider)
    ensures Weight(v, includeProvider, s) > 0.0
  {
    FamilyTold(v, includeProvider, p);
    if FromCounts(v.outcomes.counts, p) {
      OutcomeWeight(v, includeProvider, s, p);
    } else if FromErrors(v.outcomes.errcat, p) {
      ErrorWeight(v, includeProvider, s, p);
    } else if FromFolds(v.unknown, p) {
      FoldWeight(v, includeProvider, s, p);
    } else {
      CostOnly(v, includeProvider, s, p);
    }
  }

  lemma IsReported(v: View, includeProvider: bool, s: SeriesId) returns (p: Point)
    requires s.0 in ACCUMULATED && Weight(v, includeProvider, s) > 0.0
    ensures Reports(v, includeProvider, s, p)
  {
    if s.0 == RequestCount {
      p := OutcomeFound(v.outcomes.counts, s.1);
    } else if s.0 == RequestErrors {
      p := ErrorPoint(ErrorKeyOf(s.1), v.outcomes.errcat[ErrorKeyOf(s.1)]);
      assert FromErrors(v.outcomes.errcat, p);
    } else if s.0 == UnknownDimension {
      p := FoldPoint(At(s.1, Dimension), v.unknown[At(s.1, Dimension)]);
      assert FromFolds(v.unknown, p);
    } else {
      CostWeight(v, includeProvider, s);
      p := CostFound(v.costs.cost, includeProvider, s);
    }
  }

  lemma ReportedBy(xs: seq<Observation>, plan: Plan, labels: Labelling, includeProvider: bool, s: SeriesId)
    requires s.0 in ACCUMULATED && Follows(plan, labels, includeProvider) && Governs(plan, includeProvider)
    ensures (exists p :: Reports(Fold(xs, plan), includeProvider, s, p))
            <==> Weight(Fold(xs, plan), includeProvider, s) > 0.0
  {
    FoldPositive(xs, plan, labels, includeProvider);
    FoldProvider(xs, plan, includeProvider);
    if Weight(Fold(xs, plan), includeProvider, s) > 0.0 {
      var p := IsReported(Fold(xs, plan), includeProvider, s);
    }
    if p :| Reports(Fold(xs, plan), includeProvider, s, p) {
      OnlyReported(Fold(xs, plan), includeProvider, s, p);
    }
  }

  // The same weight, in terms of the observations.
  ghost function Counts(xs: seq<Observation>, labels: Labelling, s: SeriesId): real {
    if s.0 == RequestCount && At(s.1, Outcome) == Success then
      Counted(xs, labels, s) + Counted(xs, labels, (RequestCount, s.1[Outcome := Error]))
    else Counted(xs, labels, (Deciding(s.0), s.1))
  }

  lemma DecidingIn(m: Metric)
    requires m in ACCUMULATED
    ensures Deciding(m) in ACCUMULATED
  {
  }

  lemma SuccessWeight(xs: seq<Observation>, plan: Plan, labels: Labelling, includeProvider: bool, s: SeriesId)
    requires s.0 == RequestCount && At(s.1, Outcome) == Success && Follows(plan, labels, includeProvider)
    ensures Weight(Fold(xs, plan), includeProvider, s) == Counts(xs, labels, s)
  {
    CountersAdd(xs, plan, labels, includeProvider, s);
    CountersAdd(xs, plan, labels, includeProvider, (RequestCount, s.1[Outcome := Error]));
  }

  lemma WeightIs(xs: seq<Observation>, plan: Plan, labels: Labelling, includeProvider: bool, s: SeriesId)
    requires s.0 in ACCUMULATED && Follows(plan, labels, includeProvider)
    ensures Weight(Fold(xs, plan), includeProvider, s) == Counts(xs, labels, s)
  {
    if s.0 == RequestCount && At(s.1, Outcome) == Success {
      SuccessWeight(xs, plan, labels, includeProvider, s);
    } else {
      DecidingIn(s.0);
      CountersAdd(xs, plan, labels, includeProvider, (Deciding(s.0), s.1));
    }
  }

  /** Which counter series a window reports: spend and tokens of the cost series that have a request, cached
      tokens and hits of those with a cache hit, successes of the series with a request of either outcome, and
      every other counter exactly where it is not zero. */
  lemma SeriesReported(xs: seq<Observation>, cfg: Config, s: SeriesId)
    requires s.0 in ACCUMULATED
    ensures (exists p :: Reports(Fold(xs, PlanOf(cfg)), cfg.includeProviderRegion, s, p))
            <==> Counts(xs, LabellingOf(cfg), s) > 0.0
  {
    PlanGoverns(cfg);
    PlanIsLabelled(cfg);
    ReportedBy(xs, PlanOf(cfg), LabellingOf(cfg), cfg.includeProviderRegion, s);
    WeightIs(xs, PlanOf(cfg), LabellingOf(cfg), cfg.includeProviderRegion, s);
  }
}
