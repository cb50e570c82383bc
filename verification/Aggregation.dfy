/**
  Streaming aggregation: observations folded one at a time into per-series accumulators.

  The accumulated state is described by a `View`.  Each observation contributes a small view of its
  own, and adding an observation is a pointwise sum, so the views of two runs may be added too.
 */
module Aggregation {
  import opened Wrappers
  import opened Models
  import opened Governance
  import opened Histograms
  import opened Normalization
  import opened Series
  import opened Idempotency

  datatype Counts = Counts(success: nat, error: nat)

  datatype CostEntry = CostEntry(usd: real, count: nat, missing: nat, invalid: nat, input: nat, output: nat,
                                 cacheRead: nat, cacheHits: nat)

  datatype CostKey = CostKey(team: Label, route: Label, modelFamily: Label, provider: Label)

  // The accumulators, grouped: latencies, outcomes, costs, folds.
  datatype Times = Times(dur: map<PrimaryDims, Hist>, ttft: map<PrimaryDims, Hist>, ttftEligible: nat)
  datatype Outcomes = Outcomes(counts: map<PrimaryDims, Counts>, errcat: map<(PrimaryDims, Label), nat>, errors: nat)
  datatype Costs = Costs(cost: map<CostKey, CostEntry>, missing: nat, invalid: nat)
  datatype View = View(times: Times, outcomes: Outcomes, costs: Costs, unknown: map<Label, nat>, observations: nat)

  const NO_PROVIDER: Label := FreeText("n/a")

  /* ---------- sums ---------- */

  function PlusCounts(a: Counts, b: Counts): Counts {
    Counts(a.success + b.success, a.error + b.error)
  }

  function PlusCost(a: CostEntry, b: CostEntry): CostEntry {
    CostEntry(a.usd + b.usd, a.count + b.count, a.missing + b.missing, a.invalid + b.invalid,
              a.input + b.input, a.output + b.output, a.cacheRead + b.cacheRead, a.cacheHits + b.cacheHits)
  }

  function MergeTimes(a: Times, b: Times): Times {
    Times(MergeWith(a.dur, b.dur, Plus), MergeWith(a.ttft, b.ttft, Plus), a.ttftEligible + b.ttftEligible)
  }

  function MergeOutcomes(a: Outcomes, b: Outcomes): Outcomes {
    Outcomes(MergeWith(a.counts, b.counts, PlusCounts), MergeWith(a.errcat, b.errcat, PlusNat), a.errors + b.errors)
  }

  function MergeCosts(a: Costs, b: Costs): Costs {
    Costs(MergeWith(a.cost, b.cost, PlusCost), a.missing + b.missing, a.invalid + b.invalid)
  }

  function Merge(a: View, b: View): View {
    View(MergeTimes(a.times, b.times), MergeOutcomes(a.outcomes, b.outcomes), MergeCosts(a.costs, b.costs),
         MergeWith(a.unknown, b.unknown, PlusNat), a.observations + b.observations)
  }

  const NO_TIMES: Times := Times(map[], map[], 0)
  const NO_OUTCOMES: Outcomes := Outcomes(map[], map[], 0)
  const NO_COSTS: Costs := Costs(map[], 0, 0)
  const NOTHING: View := View(NO_TIMES, NO_OUTCOMES, NO_COSTS, map[], 0)

  lemma PlusAssociative()
    ensures Associative(Plus)
  {
    forall x: Hist, y: Hist, z: Hist
      ensures Plus(Plus(x, y), z) == Plus(x, Plus(y, z))
    {
      assert AddCounts(AddCounts(x.counts, y.counts), z.counts) == AddCounts(x.counts, AddCounts(y.counts, z.counts));
    }
  }

  lemma MergeIsAssociative(a: View, b: View, c: View)
    ensures Merge(Merge(a, b), c) == Merge(a, Merge(b, c))
  {
    PlusAssociative();
    MergeAssociative(a.times.dur, b.times.dur, c.times.dur, Plus);
    MergeAssociative(a.times.ttft, b.times.ttft, c.times.ttft, Plus);
    MergeAssociative(a.outcomes.counts, b.outcomes.counts, c.outcomes.counts, PlusCounts);
    MergeAssociative(a.outcomes.errcat, b.outcomes.errcat, c.outcomes.errcat, PlusNat);
    MergeAssociative(a.costs.cost, b.costs.cost, c.costs.cost, PlusCost);
    MergeAssociative(a.unknown, b.unknown, c.unknown, PlusNat);
  }

  lemma MergeNothing(a: View)
    ensures Merge(a, NOTHING) == a && Merge(NOTHING, a) == a
  {
    MergeEmpty(a.times.dur, Plus);
    MergeEmpty(a.times.ttft, Plus);
    MergeEmpty(a.outcomes.counts, PlusCounts);
    MergeEmpty(a.outcomes.errcat, PlusNat);
    MergeEmpty(a.costs.cost, PlusCost);
    MergeEmpty(a.unknown, PlusNat);
  }

  /* ---------- what one observation contributes ---------- */

  function CostKeyOf(obs: Observation, cfg: Config): CostKey {
    CostKey(TeamOf(obs, cfg), RouteOf(obs, cfg), ModelFamilyOf(obs.providedModel),
            if cfg.includeProviderRegion then ProviderRegionOf(obs) else NO_PROVIDER)
  }

  function CostOf(obs: Observation): CostEntry {
    var invalid := obs.costInvalid;
    var missing := !invalid && obs.costTotal.None?;
    CostEntry(if !invalid && obs.costTotal.Some? then obs.costTotal.value else 0.0,
              1, if missing then 1 else 0, if invalid then 1 else 0,
              obs.inputTokens, obs.outputTokens, obs.cacheReadTokens, if obs.IsCacheHit() then 1 else 0)
  }

  // What aggregation looks at: the series keys, the folds, and the measured values.
  datatype Sample = Sample(pk: PrimaryDims, ck: CostKey, folds: set<Label>, failure: Option<Label>,
                           latency: real, ttft: Option<real>, cost: CostEntry)

  // How observations are normalized, and the bucket bounds.  Aggregation works for any
  // normalization; `PlanOf` is the source's.
  datatype Plan = Plan(sample: Observation -> Sample, bounds: seq<real>)

  function PlanOf(cfg: Config): Plan {
    Plan(obs => SampleOf(obs, cfg), cfg.buckets)
  }

  function SampleOf(obs: Observation, cfg: Config): Sample {
    Sample(PrimaryDimsOf(obs, cfg), CostKeyOf(obs, cfg), FoldedDimensions(obs, cfg),
           if obs.IsError() then Some(ErrorCategoryOf(obs)) else None,
           obs.LatencyMs(), obs.TtftMs(), CostOf(obs))
  }

  function TimesOf(s: Sample, bounds: seq<real>): Times {
    Times(map[s.pk := Single(bounds, s.latency)],
          if s.ttft.Some? then map[s.pk := Single(bounds, s.ttft.value)] else map[],
          if s.ttft.Some? then 1 else 0)
  }

  function CountsOf(s: Sample): Counts {
    if s.failure.Some? then Counts(0, 1) else Counts(1, 0)
  }

  function OutcomesOf(s: Sample): Outcomes {
    Outcomes(map[s.pk := CountsOf(s)], if s.failure.Some? then map[(s.pk, s.failure.value) := 1] else map[],
             if s.failure.Some? then 1 else 0)
  }

  function CostsOf(s: Sample): Costs {
    Costs(map[s.ck := s.cost], s.cost.missing, s.cost.invalid)
  }

  function FoldsOf(s: Sample): map<Label, nat> {
    map d | d in s.folds :: 1
  }

  function SampleView(s: Sample, bounds: seq<real>): View {
    View(TimesOf(s, bounds), OutcomesOf(s), CostsOf(s), FoldsOf(s), 1)
  }

  function Contribution(obs: Observation, plan: Plan): View {
    SampleView(plan.sample(obs), plan.bounds)
  }

  // The aggregate of a list.
  function Fold(xs: seq<Observation>, plan: Plan): View {
    FoldWith(xs, x => Contribution(x, plan), Merge, NOTHING)
  }

  lemma MergeIsMonoid()
    ensures Associative(Merge) && forall v :: Merge(v, NOTHING) == v
  {
    forall a, b, c
      ensures Merge(Merge(a, b), c) == Merge(a, Merge(b, c))
    {
      MergeIsAssociative(a, b, c);
    }
    forall v
      ensures Merge(v, NOTHING) == v
    {
      MergeNothing(v);
    }
  }

  /** DELTA metrics add up: aggregating two lists separately and summing the accumulators is
      aggregating their concatenation. */
  lemma FoldConcat(a: seq<Observation>, b: seq<Observation>, plan: Plan)
    ensures Fold(a + b, plan) == Merge(Fold(a, plan), Fold(b, plan))
  {
    MergeIsMonoid();
    FoldWithConcat(a, b, x => Contribution(x, plan), Merge, NOTHING);
  }

  lemma PlusCommutative()
    ensures Commutative(Plus)
  {
    forall x: Hist, y: Hist ensures Plus(x, y) == Plus(y, x) {
      assert AddCounts(x.counts, y.counts) == AddCounts(y.counts, x.counts);
    }
  }

  lemma MergeIsCommutative()
    ensures Commutative(Merge)
  {
    PlusCommutative();
    forall a, b ensures Merge(a, b) == Merge(b, a) {
      MergeCommutative(a.times.dur, b.times.dur, Plus);
      MergeCommutative(a.times.ttft, b.times.ttft, Plus);
      MergeCommutative(a.outcomes.counts, b.outcomes.counts, PlusCounts);
      MergeCommutative(a.outcomes.errcat, b.outcomes.errcat, PlusNat);
      MergeCommutative(a.costs.cost, b.costs.cost, PlusCost);
      MergeCommutative(a.unknown, b.unknown, PlusNat);
    }
  }

  /** The aggregate does not depend on the order of the records. */
  lemma FoldIgnoresOrder(xs: seq<Observation>, ys: seq<Observation>, plan: Plan)
    requires multiset(xs) == multiset(ys)
    ensures Fold(xs, plan) == Fold(ys, plan)
  {
    MergeIsMonoid();
    MergeIsCommutative();
    FoldPermutation(xs, ys, x => Contribution(x, plan), Merge, NOTHING);
  }

  /* ---------- the accumulating object ---------- */

  class Aggregator {
    const plan: Plan
    var times: Times
    var outcomes: Outcomes
    var costs: Costs
    var unknown: map<Label, nat>
    var observations: nat

    function State(): View
      reads this
    {
      View(times, outcomes, costs, unknown, observations)
    }

    constructor (plan: Plan)
      ensures State() == NOTHING && this.plan == plan
    {
      this.plan := plan;
      times, outcomes, costs, unknown, observations := NO_TIMES, NO_OUTCOMES, NO_COSTS, map[], 0;
    }

    method Add(obs: Observation)
      modifies this
      ensures State() == Merge(old(State()), Contribution(obs, plan))
    {
      AddSample(plan.sample(obs));
    }

    method AddSample(s: Sample)
      modifies this
      ensures State() == Merge(old(State()), SampleView(s, plan.bounds))
    {
      observations := observations + 1;
      unknown := MergeWith(unknown, FoldsOf(s), PlusNat);
      AddOutcome(s);
      AddTimes(s);
      AddCost(s);
    }

    method AddTimes(s: Sample)
      modifies `times
      ensures times == MergeTimes(old(times), TimesOf(s, plan.bounds))
    {
      MergeOne(times.dur, s.pk, Single(plan.bounds, s.latency), Plus);
      if s.ttft.Some? {
        MergeOne(times.ttft, s.pk, Single(plan.bounds, s.ttft.value), Plus);
      } else {
        MergeEmpty(times.ttft, Plus);
      }
      times := times.(dur := Bump(times.dur, s.pk, Single(plan.bounds, s.latency), Plus));
      if s.ttft.Some? {
        times := times.(ttft := Bump(times.ttft, s.pk, Single(plan.bounds, s.ttft.value), Plus),
                        ttftEligible := times.ttftEligible + 1);
      }
    }

    method AddOutcome(s: Sample)
      modifies `outcomes
      ensures outcomes == MergeOutcomes(old(outcomes), OutcomesOf(s))
    {
      var c := if s.pk in outcomes.counts then outcomes.counts[s.pk] else Counts(0, 0);
      MergeOne(outcomes.counts, s.pk, CountsOf(s), PlusCounts);
      if s.failure.Some? {
        var key := (s.pk, s.failure.value);
        MergeOne(outcomes.errcat, key, 1, PlusNat);
        outcomes := outcomes.(counts := outcomes.counts[s.pk := c.(error := c.error + 1)],
                              errors := outcomes.errors + 1);
        outcomes := outcomes.(errcat := Bump(outcomes.errcat, key, 1, PlusNat));
      } else {
        MergeEmpty(outcomes.errcat, PlusNat);
        outcomes := outcomes.(counts := outcomes.counts[s.pk := c.(success := c.success + 1)]);
      }
    }

    method AddCost(s: Sample)
      modifies `costs
      ensures costs == MergeCosts(old(costs), CostsOf(s))
    {
      MergeOne(costs.cost, s.ck, s.cost, PlusCost);
      costs := costs.(cost := Bump(costs.cost, s.ck, s.cost, PlusCost));
      costs := costs.(missing := costs.missing + s.cost.missing, invalid := costs.invalid + s.cost.invalid);
    }
  }

  lemma FoldSnoc(xs: seq<Observation>, x: Observation, plan: Plan)
    ensures Fold(xs + [x], plan) == Merge(Fold(xs, plan), Contribution(x, plan))
  {
    assert (xs + [x])[..|xs|] == xs;
  }

  // One more observation of a list.
  method AddNext(agg: Aggregator, ghost xs: seq<Observation>, x: Observation)
    requires agg.State() == Fold(xs, agg.plan)
    modifies agg
    ensures agg.State() == Fold(xs + [x], agg.plan)
  {
    FoldSnoc(xs, x, agg.plan);
    agg.Add(x);
  }

  // The loop of the batch wrapper, which deduplicates while it adds.
  method AddAll(observations: seq<Observation>, plan: Plan, duplicateCount: nat)
    returns (agg: Aggregator, duplicates: nat)
    ensures fresh(agg) && agg.State() == Fold(Dedup(observations), plan)
    ensures duplicates == duplicateCount + |observations| - |Dedup(observations)|
  {
    agg := new Aggregator(plan);
    duplicates := duplicateCount;
    var seen: set<Id> := {};
    ghost var unique: seq<Observation> := [];
    for i := 0 to |observations|
      invariant seen == Ids(observations[..i]) - {BLANK}
      invariant unique == Dedup(observations[..i])
      invariant duplicates == duplicateCount + i - |unique|
      invariant fresh(agg) && agg.plan == plan && agg.State() == Fold(unique, plan)
    {
      var obs := observations[i];
      DedupStep(observations, i, seen);
      if obs.id in seen {
        duplicates := duplicates + 1;
      } else {
        AddNext(agg, unique, obs);
        unique := unique + [obs];
        if obs.id != BLANK {
          seen := seen + {obs.id};
        }
      }
    }
    assert observations[..|observations|] == observations;
  }
}
