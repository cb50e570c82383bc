/**
  What the counters and distributions of a window are in terms of the observations themselves: for every
  series, the sum over the observations of one of their fields, and the histogram of their times.
 */
module Counters {
  import opened Wrappers
  import opened Models
  import opened Governance
  import opened Histograms
  import opened Normalization
  import opened Series
  import opened Aggregation
  import opened Conservation
  import opened Points
  import opened Emission
  import opened Readings

  // The labels an observation is counted under.
  datatype Labels = Labels(primary: map<Dim, Label>, cost: map<Dim, Label>, category: Option<Label>, folds: set<Label>)

  type Labelling = Observation -> Labels

  function LabelsOf(obs: Observation, cfg: Config): Labels {
    var team, route, family := TeamOf(obs, cfg), RouteOf(obs, cfg), ModelFamilyOf(obs.providedModel);
    var cost := map[Team := team, Route := route, ModelFamily := family];
    Labels(cost[Env := EnvOf(obs)],
           if cfg.includeProviderRegion then cost[ProviderRegion := ProviderRegionOf(obs)] else cost,
           if HasFailed(obs) then Some(ErrorCategoryOf(obs)) else None,
           FoldedDimensions(obs, cfg))
  }

  function LabellingOf(cfg: Config): Labelling {
    obs => LabelsOf(obs, cfg)
  }

  predicate HasFailed(obs: Observation) {
    obs.level == "ERROR" || obs.error != None
  }

  function One(counts: bool): real {
    if counts then 1.0 else 0.0
  }

  // What one observation adds to a cost counter of its series, from its own fields.
  function Spent(obs: Observation, m: Metric): real {
    match m
    case CostUsd => if !obs.costInvalid && obs.costTotal.Some? then obs.costTotal.value else 0.0
    case CostRequestCount => 1.0
    case CostRecordsMissing => One(!obs.costInvalid && obs.costTotal.None?)
    case CostRecordsInvalid => One(obs.costInvalid)
    case TokensInput => obs.inputTokens as real
    case TokensOutput => obs.outputTokens as real
    case CacheReadTokens => obs.cacheReadTokens as real
    case CacheHitCount => One(obs.cacheReadTokens > 0)
    case _ => 0.0
  }

  // What it adds to any counter.
  ghost function Adds(obs: Observation, at: Labels, s: SeriesId): real {
    if s.0 == RequestCount then One(s.1 == at.primary[Outcome := if HasFailed(obs) then Error else Success])
    else if s.0 == RequestErrors then
      One(at.category.Some? && s.1 == at.primary[ErrorCategory := at.category.value])
    else if s.0 == UnknownDimension then One(exists d :: d in at.folds && s.1 == map[Dimension := d])
    else if s.1 == at.cost then Spent(obs, s.0)
    else 0.0
  }

  ghost function Counted(xs: seq<Observation>, labels: Labelling, s: SeriesId): real {
    if xs == [] then 0.0
    else Counted(xs[..|xs| - 1], labels, s) + Adds(xs[|xs| - 1], labels(xs[|xs| - 1]), s)
  }

  /* ---------- one observation ---------- */

  // A plan that keys, measures and judges an observation by these labels and its fields.
  ghost predicate Labelled(obs: Observation, s: Sample, at: Labels, includeProvider: bool) {
    && s.pk.AsDict() == at.primary && CostDims(s.ck, includeProvider) == at.cost
    && (!includeProvider ==> s.ck.provider == NO_PROVIDER)
    && s.folds == at.folds && s.failure == at.category && (s.failure.Some? <==> HasFailed(obs))
    && (forall m :: CostAmount(m, s.cost) == Spent(obs, m))
    && s.latency == (obs.end - obs.start) as real / 1000.0
    && s.ttft == if HasFirstToken(obs) then Some((obs.completionStart.value - obs.start) as real / 1000.0) else None
  }

  // The successful streaming requests whose completion starts between start and end.
  predicate HasFirstToken(obs: Observation) {
    !HasFailed(obs) && obs.stream && obs.completionStart.Some? && obs.start <= obs.completionStart.value <= obs.end
  }

  ghost predicate LabelledAt(plan: Plan, labels: Labelling, includeProvider: bool, obs: Observation) {
    Labelled(obs, plan.sample(obs), labels(obs), includeProvider)
  }

  ghost predicate Follows(plan: Plan, labels: Labelling, includeProvider: bool) {
    forall obs :: LabelledAt(plan, labels, includeProvider, obs)
  }

  lemma CountedOnce(s: Sample, dims: map<Dim, Label>)
    ensures OutcomeReading(OutcomesOf(s).counts, dims) as real
            == One(dims == s.pk.AsDict()[Outcome := if s.failure.Some? then Error else Success])
  {
    var pk := s.pk;
    assert pk.AsDict()[Outcome := Success][Outcome] != pk.AsDict()[Outcome := Error][Outcome];
    assert PkOf(pk.AsDict()[Outcome := Success]) == pk == PkOf(pk.AsDict()[Outcome := Error]);
  }

  lemma ErrorOnce(s: Sample, dims: map<Dim, Label>)
    ensures ErrorReading(OutcomesOf(s).errcat, dims) as real
            == One(s.failure.Some? && dims == s.pk.AsDict()[ErrorCategory := s.failure.value])
  {
    if s.failure.Some? {
      assert ErrorKeyOf(s.pk.AsDict()[ErrorCategory := s.failure.value]) == (s.pk, s.failure.value);
    }
  }

  lemma FoldedOnce(s: Sample, dims: map<Dim, Label>)
    ensures FoldReading(FoldsOf(s), dims) as real == One(exists d :: d in s.folds && dims == map[Dimension := d])
  {
    if d :| d in s.folds && dims == map[Dimension := d] {
      assert At(dims, Dimension) == d;
    }
  }

  lemma SpentOnce(s: Sample, includeProvider: bool, id: SeriesId)
    requires !includeProvider ==> s.ck.provider == NO_PROVIDER
    ensures CostReading(CostsOf(s).cost, includeProvider, id)
            == if id.1 == CostDims(s.ck, includeProvider) then CostAmount(id.0, s.cost) else 0.0
  {
    CostDimsKey(s.ck, includeProvider);
  }

  lemma OneObservation(obs: Observation, sample: Sample, bounds: seq<real>, at: Labels, includeProvider: bool,
                       s: SeriesId)
    requires s.0 in ACCUMULATED
    requires sample.pk.AsDict() == at.primary && CostDims(sample.ck, includeProvider) == at.cost
    requires !includeProvider ==> sample.ck.provider == NO_PROVIDER
    requires sample.folds == at.folds && sample.failure == at.category && (sample.failure.Some? <==> HasFailed(obs))
    requires CostAmount(s.0, sample.cost) == Spent(obs, s.0)
    ensures Reading(SampleView(sample, bounds), includeProvider, s) == Adds(obs, at, s)
  {
    if s.0 == RequestCount {
      CountedOnce(sample, s.1);
    } else if s.0 == RequestErrors {
      ErrorOnce(sample, s.1);
    } else if s.0 == UnknownDimension {
      FoldedOnce(sample, s.1);
    } else {
      SpentOnce(sample, includeProvider, s);
    }
  }

  /* ---------- a window ---------- */

  lemma OneAt(obs: Observation, plan: Plan, labels: Labelling, includeProvider: bool, s: SeriesId)
    requires s.0 in ACCUMULATED && Follows(plan, labels, includeProvider)
    ensures Reading(Contribution(obs, plan), includeProvider, s) == Adds(obs, labels(obs), s)
  {
    assert LabelledAt(plan, labels, includeProvider, obs);
    OneObservation(obs, plan.sample(obs), plan.bounds, labels(obs), includeProvider, s);
  }

  lemma {:induction false} CountersAdd(xs: seq<Observation>, plan: Plan, labels: Labelling, includeProvider: bool,
                                       s: SeriesId)
    requires s.0 in ACCUMULATED && Follows(plan, labels, includeProvider)
    ensures Reading(Fold(xs, plan), includeProvider, s) == Counted(xs, labels, s)
  {
    if xs != [] {
      var front, last := xs[..|xs| - 1], xs[|xs| - 1];
      CountersAdd(front, plan, labels, includeProvider, s);
      FoldLast(xs, plan);
      ReadingAdds(Fold(front, plan), Contribution(last, plan), includeProvider, s);
      OneAt(last, plan, labels, includeProvider, s);
    }
  }

  // The latencies, in milliseconds, of the observations under some labels.
  function LatenciesIn(xs: seq<Observation>, labels: Labelling, dims: map<Dim, Label>): seq<real> {
    if xs == [] then []
    else
      var front, last := LatenciesIn(xs[..|xs| - 1], labels, dims), xs[|xs| - 1];
      if labels(last).primary == dims then front + [(last.end - last.start) as real / 1000.0] else front
  }

  // Their times to first token, where there is one.
  function FirstTokensIn(xs: seq<Observation>, labels: Labelling, dims: map<Dim, Label>): seq<real> {
    if xs == [] then []
    else
      var front, last := FirstTokensIn(xs[..|xs| - 1], labels, dims), xs[|xs| - 1];
      if labels(last).primary == dims && HasFirstToken(last)
      then front + [(last.completionStart.value - last.start) as real / 1000.0]
      else front
  }

  lemma SeriesKey(pk: PrimaryDims, dims: map<Dim, Label>)
    ensures pk.AsDict() == dims <==> dims == PkOf(dims).AsDict() && pk == PkOf(dims)
  {
    assert PkOf(pk.AsDict()) == pk;
  }

  lemma TimesOfOne(obs: Observation, plan: Plan, labels: Labelling, includeProvider: bool, dims: map<Dim, Label>)
    requires Follows(plan, labels, includeProvider)
    ensures labels(obs).primary == dims <==> dims == PkOf(dims).AsDict() && plan.sample(obs).pk == PkOf(dims)
    ensures plan.sample(obs).latency == (obs.end - obs.start) as real / 1000.0
    ensures plan.sample(obs).ttft ==
            if HasFirstToken(obs) then Some((obs.completionStart.value - obs.start) as real / 1000.0) else None
  {
    assert LabelledAt(plan, labels, includeProvider, obs);
    SeriesKey(plan.sample(obs).pk, dims);
  }

  lemma {:induction false} SameTimes(xs: seq<Observation>, plan: Plan, labels: Labelling, includeProvider: bool,
                                     dims: map<Dim, Label>)
    requires Follows(plan, labels, includeProvider)
    ensures LatenciesIn(xs, labels, dims) ==
            if dims == PkOf(dims).AsDict() then Latencies(xs, plan, PkOf(dims)) else []
    ensures FirstTokensIn(xs, labels, dims) ==
            if dims == PkOf(dims).AsDict() then FirstTokens(xs, plan, PkOf(dims)) else []
  {
    if xs != [] {
      SameTimes(xs[..|xs| - 1], plan, labels, includeProvider, dims);
      TimesOfOne(xs[|xs| - 1], plan, labels, includeProvider, dims);
    }
  }

  // The histogram of some values, if there are any.
  function Histogram(bounds: seq<real>, values: seq<real>): Option<Hist> {
    if values == [] then None else Some(Summary(bounds, values))
  }

  lemma DistributionsAre(xs: seq<Observation>, plan: Plan, labels: Labelling, includeProvider: bool,
                         dims: map<Dim, Label>)
    requires Follows(plan, labels, includeProvider)
    ensures var v := Fold(xs, plan);
            && Distribution(v, (RequestDuration, dims)) == Histogram(plan.bounds, LatenciesIn(xs, labels, dims))
            && Distribution(v, (RequestTtft, dims)) == Histogram(plan.bounds, FirstTokensIn(xs, labels, dims))
  {
    SameTimes(xs, plan, labels, includeProvider, dims);
    DurationSeries(xs, plan, PkOf(dims));
    FirstTokenSeries(xs, plan, PkOf(dims));
  }

  function Having(xs: seq<Observation>, kind: Observation -> bool): nat {
    if xs == [] then 0 else Having(xs[..|xs| - 1], kind) + if kind(xs[|xs| - 1]) then 1 else 0
  }

  const MISSES_COST: Observation -> bool := (obs: Observation) => !obs.costInvalid && obs.costTotal.None?
  const COSTS_BADLY: Observation -> bool := (obs: Observation) => obs.costInvalid

  lemma GapOf(obs: Observation, s: Sample, at: Labels, includeProvider: bool)
    requires Labelled(obs, s, at, includeProvider)
    ensures s.cost.missing == if MISSES_COST(obs) then 1 else 0
    ensures s.cost.invalid == if COSTS_BADLY(obs) then 1 else 0
  {
    assert CostAmount(CostRecordsMissing, s.cost) == Spent(obs, CostRecordsMissing);
    assert CostAmount(CostRecordsInvalid, s.cost) == Spent(obs, CostRecordsInvalid);
  }

  lemma GapAt(plan: Plan, labels: Labelling, includeProvider: bool, obs: Observation)
    requires Follows(plan, labels, includeProvider)
    ensures plan.sample(obs).cost.missing == if MISSES_COST(obs) then 1 else 0
    ensures plan.sample(obs).cost.invalid == if COSTS_BADLY(obs) then 1 else 0
  {
    assert LabelledAt(plan, labels, includeProvider, obs);
    GapOf(obs, plan.sample(obs), labels(obs), includeProvider);
  }

  lemma {:induction false} GapsAdd(xs: seq<Observation>, plan: Plan, labels: Labelling, includeProvider: bool)
    requires Follows(plan, labels, includeProvider)
    ensures Fold(xs, plan).costs.missing == Having(xs, MISSES_COST)
    ensures Fold(xs, plan).costs.invalid == Having(xs, COSTS_BADLY)
  {
    if xs != [] {
      var front, last := xs[..|xs| - 1], xs[|xs| - 1];
      GapsAdd(front, plan, labels, includeProvider);
      FoldLast(xs, plan);
      GapAt(plan, labels, includeProvider, last);
    }
  }

  /* ---------- under a configuration ---------- */

  lemma SpentIs(obs: Observation, m: Metric)
    ensures CostAmount(m, CostOf(obs)) == Spent(obs, m)
  {
  }

  lemma TimesAre(obs: Observation)
    ensures obs.LatencyMs() == (obs.end - obs.start) as real / 1000.0
    ensures obs.TtftMs() ==
            if HasFirstToken(obs) then Some((obs.completionStart.value - obs.start) as real / 1000.0) else None
  {
  }

  lemma KeysAre(obs: Observation, cfg: Config)
    ensures var s, at := SampleOf(obs, cfg), LabelsOf(obs, cfg);
            && s.pk.AsDict() == at.primary && CostDims(s.ck, cfg.includeProviderRegion) == at.cost
            && (!cfg.includeProviderRegion ==> s.ck.provider == NO_PROVIDER)
            && s.folds == at.folds && s.failure == at.category && (s.failure.Some? <==> HasFailed(obs))
            && s.cost == CostOf(obs) && s.latency == obs.LatencyMs() && s.ttft == obs.TtftMs()
  {
  }

  lemma SampleLabelled(obs: Observation, s: Sample, at: Labels, includeProvider: bool)
    requires s.pk.AsDict() == at.primary && CostDims(s.ck, includeProvider) == at.cost
    requires !includeProvider ==> s.ck.provider == NO_PROVIDER
    requires s.folds == at.folds && s.failure == at.category && (s.failure.Some? <==> HasFailed(obs))
    requires s.cost == CostOf(obs) && s.latency == obs.LatencyMs() && s.ttft == obs.TtftMs()
    ensures Labelled(obs, s, at, includeProvider)
  {
    TimesAre(obs);
    forall m ensures CostAmount(m, s.cost) == Spent(obs, m) {
      SpentIs(obs, m);
    }
  }

  lemma PlanIsLabelled(cfg: Config)
    ensures Follows(PlanOf(cfg), LabellingOf(cfg), cfg.includeProviderRegion)
  {
    forall obs ensures LabelledAt(PlanOf(cfg), LabellingOf(cfg), cfg.includeProviderRegion, obs) {
      KeysAre(obs, cfg);
      SampleLabelled(obs, SampleOf(obs, cfg), LabelsOf(obs, cfg), cfg.includeProviderRegion);
    }
  }

  /** Every counter of a window is the sum, over its observations, of what each adds from its own fields:
      requests by outcome, errors by category, folded dimensions, tokens, cache hits, spend, and the
      records whose cost is missing or invalid. */
  lemma CounterIsSum(xs: seq<Observation>, cfg: Config, s: SeriesId)
    requires s.0 in ACCUMULATED
    ensures Reading(Fold(xs, PlanOf(cfg)), cfg.includeProviderRegion, s) == Counted(xs, LabellingOf(cfg), s)
  {
    PlanIsLabelled(cfg);
    CountersAdd(xs, PlanOf(cfg), LabellingOf(cfg), cfg.includeProviderRegion, s);
  }

  /** Every distribution of a window is the histogram of the times of its observations: latencies of all,
      times to first token of the successful streaming requests that report one within bounds. */
  lemma DistributionIsHistogram(xs: seq<Observation>, cfg: Config, dims: map<Dim, Label>)
    ensures var v, labels := Fold(xs, PlanOf(cfg)), LabellingOf(cfg);
            && Distribution(v, (RequestDuration, dims)) == Histogram(cfg.buckets, LatenciesIn(xs, labels, dims))
            && Distribution(v, (RequestTtft, dims)) == Histogram(cfg.buckets, FirstTokensIn(xs, labels, dims))
  {
    PlanIsLabelled(cfg);
    DistributionsAre(xs, PlanOf(cfg), LabellingOf(cfg), cfg.includeProviderRegion, dims);
  }

  /** The missing and invalid costs of a window are those of its observations. */
  lemma GapsAre(xs: seq<Observation>, cfg: Config)
    ensures Fold(xs, PlanOf(cfg)).costs.missing == Having(xs, MISSES_COST)
    ensures Fold(xs, PlanOf(cfg)).costs.invalid == Having(xs, COSTS_BADLY)
  {
    PlanIsLabelled(cfg);
    GapsAdd(xs, PlanOf(cfg), LabellingOf(cfg), cfg.includeProviderRegion);
  }

  /** So a backend that shows a window shows exactly these sums and histograms. */
  lemma ShownIsCounted(points: seq<Point>, xs: seq<Observation>, cfg: Config, s: SeriesId)
    requires Shows(points, Fold(xs, PlanOf(cfg)), cfg.includeProviderRegion)
    ensures s.0 in ACCUMULATED ==> ValueIn(points, s) == Counted(xs, LabellingOf(cfg), s)
    ensures s.0 == RequestDuration ==>
              HistIn(points, s) == Histogram(cfg.buckets, LatenciesIn(xs, LabellingOf(cfg), s.1))
    ensures s.0 == RequestTtft ==>
              HistIn(points, s) == Histogram(cfg.buckets, FirstTokensIn(xs, LabellingOf(cfg), s.1))
  {
    if s.0 in ACCUMULATED {
      CounterIsSum(xs, cfg, s);
    }
    DistributionIsHistogram(xs, cfg, s.1);
  }

  /* ---------- the completion ratio ---------- */

  lemma RatioFromCosts(v: View, render: Hist -> Value, includeProvider: bool, p: Point)
    requires p.metric == TokensCompletionRatio && Workload(v, render, includeProvider, p)
    ensures FromCosts(v.costs.cost, includeProvider, p)
  {
    if FromCounts(v.outcomes.counts, p) {
      MetricOfCounts(v.outcomes.counts, p);
    }
  }

  // A number that times the input is the output.
  predicate Relates(value: Value, input: real, output: real) {
    value.Number? && value.x * input == output
  }

  lemma Quotient(input: real, output: real, value: Value)
    requires input > 0.0 && value == Number(output / input)
    ensures Relates(value, input, output)
  {
  }

  lemma RatioPoint(ck: CostKey, c: CostEntry, includeProvider: bool, p: Point)
    requires p in CostPoints(ck, c, includeProvider) && p.metric == TokensCompletionRatio
    ensures p.dims == CostDims(ck, includeProvider) && c.input > 0
    ensures p.value == Number(c.output as real / c.input as real)
  {
    SpendFamily(CostDims(ck, includeProvider), c);
    ExtraFamilies(CostDims(ck, includeProvider), c);
  }

  lemma TokensOf(v: View, includeProvider: bool, ck: CostKey)
    requires ck in v.costs.cost && (!includeProvider ==> ck.provider == NO_PROVIDER)
    ensures var c, dims := v.costs.cost[ck], CostDims(ck, includeProvider);
            && Reading(v, includeProvider, (TokensInput, dims)) == c.input as real
            && Reading(v, includeProvider, (TokensOutput, dims)) == c.output as real
  {
    CostDimsKey(ck, includeProvider);
  }

  // A ratio point of these labels.
  ghost predicate RatioAt(v: View, render: Hist -> Value, includeProvider: bool, p: Point, dims: map<Dim, Label>) {
    Workload(v, render, includeProvider, p) && p.metric == TokensCompletionRatio && p.dims == dims
  }

  lemma RatioOf(v: View, render: Hist -> Value, includeProvider: bool, p: Point, input: real, output: real)
    requires RatioAt(v, render, includeProvider, p, p.dims) && OneProvider(v.costs.cost, includeProvider)
    requires input == Reading(v, includeProvider, (TokensInput, p.dims))
    requires output == Reading(v, includeProvider, (TokensOutput, p.dims))
    ensures input > 0.0 && p.value == Number(output / input)
  {
    RatioFromCosts(v, render, includeProvider, p);
    var ck :| ck in v.costs.cost && p in CostPoints(ck, v.costs.cost[ck], includeProvider);
    RatioPoint(ck, v.costs.cost[ck], includeProvider, p);
    TokensOf(v, includeProvider, ck);
  }

  lemma RatioReported(v: View, render: Hist -> Value, includeProvider: bool, dims: map<Dim, Label>) returns (p: Point)
    requires Reading(v, includeProvider, (TokensInput, dims)) > 0.0
    ensures RatioAt(v, render, includeProvider, p, dims)
  {
    var ck := CkOf(dims, includeProvider);
    var c := v.costs.cost[ck];
    p := Point(TokensCompletionRatio, Gauge, Ratio, dims, Number(c.output as real / c.input as real));
    assert p in RatioPoints(dims, c);
    assert p in CostPoints(ck, c, includeProvider);
    assert FromCosts(v.costs.cost, includeProvider, p);
  }

  lemma RatioIff(v: View, render: Hist -> Value, includeProvider: bool, dims: map<Dim, Label>,
                 input: real, output: real)
    requires OneProvider(v.costs.cost, includeProvider)
    requires input == Reading(v, includeProvider, (TokensInput, dims))
    requires output == Reading(v, includeProvider, (TokensOutput, dims))
    ensures input > 0.0 <==> exists p :: RatioAt(v, render, includeProvider, p, dims)
    ensures forall p :: RatioAt(v, render, includeProvider, p, dims) ==> Relates(p.value, input, output)
  {
    forall p | RatioAt(v, render, includeProvider, p, dims)
      ensures input > 0.0 && Relates(p.value, input, output)
    {
      RatioOf(v, render, includeProvider, p, input, output);
      Quotient(input, output, p.value);
    }
    if input > 0.0 {
      var p := RatioReported(v, render, includeProvider, dims);
    }
  }

  lemma FoldProvider(xs: seq<Observation>, plan: Plan, includeProvider: bool)
    requires Governs(plan, includeProvider)
    ensures OneProvider(Fold(xs, plan).costs.cost, includeProvider)
  {
    FoldGoverned(xs, plan, includeProvider);
  }

  lemma RatioIs(xs: seq<Observation>, plan: Plan, labels: Labelling, includeProvider: bool, render: Hist -> Value,
                dims: map<Dim, Label>, input: real, output: real)
    requires Follows(plan, labels, includeProvider) && Governs(plan, includeProvider)
    requires input == Counted(xs, labels, (TokensInput, dims)) && output == Counted(xs, labels, (TokensOutput, dims))
    ensures input > 0.0 <==> exists p :: RatioAt(Fold(xs, plan), render, includeProvider, p, dims)
    ensures forall p :: RatioAt(Fold(xs, plan), render, includeProvider, p, dims) ==> Relates(p.value, input, output)
  {
    FoldProvider(xs, plan, includeProvider);
    CountersAdd(xs, plan, labels, includeProvider, (TokensInput, dims));
    CountersAdd(xs, plan, labels, includeProvider, (TokensOutput, dims));
    RatioIff(Fold(xs, plan), render, includeProvider, dims, input, output);
  }

  lemma PlanGoverns(cfg: Config)
    ensures Governs(PlanOf(cfg), cfg.includeProviderRegion)
  {
    forall obs ensures GovernedSample(PlanOf(cfg).sample(obs), cfg.includeProviderRegion) {
      NormalizedIsGoverned(obs, cfg);
    }
  }

  /** A completion ratio is reported exactly for the series with input tokens, and times these it is their
      output tokens. */
  lemma RatioMeans(xs: seq<Observation>, cfg: Config, render: Hist -> Value, dims: map<Dim, Label>,
                   input: real, output: real)
    requires input == Counted(xs, LabellingOf(cfg), (TokensInput, dims))
    requires output == Counted(xs, LabellingOf(cfg), (TokensOutput, dims))
    ensures var v := Fold(xs, PlanOf(cfg));
            && (input > 0.0 <==> exists p :: RatioAt(v, render, cfg.includeProviderRegion, p, dims))
            && forall p :: RatioAt(v, render, cfg.includeProviderRegion, p, dims) ==> Relates(p.value, input, output)
  {
    PlanGoverns(cfg);
    PlanIsLabelled(cfg);
    RatioIs(xs, PlanOf(cfg), LabellingOf(cfg), cfg.includeProviderRegion, render, dims, input, output);
  }
}
