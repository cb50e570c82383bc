/**
  What the aggregated series say about the observations behind them: the exact histogram of each
  series, and the accounting identities between the metric families.
 */
module Conservation {
  import opened Models
  import opened Governance
  import opened Histograms
  import opened Normalization
  import opened Series
  import opened Aggregation

  /* ---------- each histogram is that of its own values ---------- */

  // The latencies, in order, of the observations of one series.
  function Latencies(xs: seq<Observation>, plan: Plan, pk: PrimaryDims): seq<real> {
    if xs == [] then []
    else
      var front, s := Latencies(xs[..|xs| - 1], plan, pk), plan.sample(xs[|xs| - 1]);
      if s.pk == pk then front + [s.latency] else front
  }

  // The times to first token of one series, where defined.
  function FirstTokens(xs: seq<Observation>, plan: Plan, pk: PrimaryDims): seq<real> {
    if xs == [] then []
    else
      var front, s := FirstTokens(xs[..|xs| - 1], plan, pk), plan.sample(xs[|xs| - 1]);
      if s.pk == pk && s.ttft.Some? then front + [s.ttft.value] else front
  }

  lemma SummarySnoc(bounds: seq<real>, xs: seq<real>, v: real)
    ensures Summary(bounds, xs + [v]) == Plus(Summary(bounds, xs), Single(bounds, v))
    ensures xs == [] ==> Summary(bounds, xs + [v]) == Single(bounds, v)
  {
    assert (xs + [v])[..|xs|] == xs;
    assert AddCounts(Empty(|bounds| + 1).counts, Single(bounds, v).counts) == Single(bounds, v).counts;
  }

  lemma FoldLast(xs: seq<Observation>, plan: Plan)
    requires xs != []
    ensures Fold(xs, plan) == Merge(Fold(xs[..|xs| - 1], plan), Contribution(xs[|xs| - 1], plan))
  {
  }

  /** A series exists exactly when an observation belongs to it, and its duration histogram is the
      histogram of exactly those latencies. */
  lemma {:induction false} DurationSeries(xs: seq<Observation>, plan: Plan, pk: PrimaryDims)
    ensures var dur, values := Fold(xs, plan).times.dur, Latencies(xs, plan, pk);
            && (pk in dur <==> values != [])
            && (pk in dur ==> dur[pk] == Summary(plan.bounds, values))
  {
    if xs != [] {
      var front, s := xs[..|xs| - 1], plan.sample(xs[|xs| - 1]);
      DurationSeries(front, plan, pk);
      FoldLast(xs, plan);
      MergeOne(Fold(front, plan).times.dur, s.pk, Single(plan.bounds, s.latency), Plus);
      SummarySnoc(plan.bounds, Latencies(front, plan, pk), s.latency);
    }
  }

  /** The same for times to first token. */
  lemma {:induction false} FirstTokenSeries(xs: seq<Observation>, plan: Plan, pk: PrimaryDims)
    ensures var ttft, values := Fold(xs, plan).times.ttft, FirstTokens(xs, plan, pk);
            && (pk in ttft <==> values != [])
            && (pk in ttft ==> ttft[pk] == Summary(plan.bounds, values))
  {
    if xs != [] {
      var front, s := xs[..|xs| - 1], plan.sample(xs[|xs| - 1]);
      FirstTokenSeries(front, plan, pk);
      FoldLast(xs, plan);
      TtftStep(Fold(front, plan), s, plan.bounds);
      if s.ttft.Some? {
        SummarySnoc(plan.bounds, FirstTokens(front, plan, pk), s.ttft.value);
      }
    }
  }

  lemma TtftStep(v: View, s: Sample, bounds: seq<real>)
    ensures Merge(v, SampleView(s, bounds)).times.ttft ==
            if s.ttft.Some? then Bump(v.times.ttft, s.pk, Single(bounds, s.ttft.value), Plus) else v.times.ttft
  {
    if s.ttft.Some? {
      MergeOne(v.times.ttft, s.pk, Single(bounds, s.ttft.value), Plus);
    } else {
      MergeEmpty(v.times.ttft, Plus);
    }
  }

  /* ---------- the families agree, series by series ---------- */

  // What normalization promises of a valid observation.
  predicate Measured(s: Sample) {
    && s.latency >= 0.0
    && (s.ttft.Some? ==> s.failure.None? && 0.0 <= s.ttft.value <= s.latency)
    && s.cost.count == 1 && s.cost.missing + s.cost.invalid <= 1
  }

  lemma ValidIsMeasured(obs: Observation, cfg: Config)
    requires obs.Valid()
    ensures Measured(SampleOf(obs, cfg))
  {
    assert (obs.end - obs.start) as real >= 0.0;
  }

  ghost predicate AllMeasured(xs: seq<Observation>, plan: Plan) {
    forall x :: x in xs ==> Measured(plan.sample(x))
  }

  // Durations count every outcome, first tokens only successes and never more time.
  ghost predicate Balanced(v: View) {
    && v.times.dur.Keys == v.outcomes.counts.Keys
    && v.times.ttft.Keys <= v.times.dur.Keys
    && (forall k :: k in v.times.dur ==>
          && v.times.dur[k].count == v.outcomes.counts[k].success + v.outcomes.counts[k].error
          && v.times.dur[k].sum >= 0.0)
    && (forall k :: k in v.times.ttft ==>
          && v.times.ttft[k].count <= v.outcomes.counts[k].success
          && v.times.ttft[k].sum <= v.times.dur[k].sum)
    && (forall k :: k in v.costs.cost ==> v.costs.cost[k].missing + v.costs.cost[k].invalid <= v.costs.cost[k].count)
  }

  lemma MergeBalanced(a: View, b: View)
    requires Balanced(a) && Balanced(b)
    ensures Balanced(Merge(a, b))
  {
  }

  lemma {:induction false} FoldBalanced(xs: seq<Observation>, plan: Plan)
    requires AllMeasured(xs, plan)
    ensures Balanced(Fold(xs, plan))
  {
    if xs != [] {
      var front, last := xs[..|xs| - 1], xs[|xs| - 1];
      assert last in xs && forall x :: x in front ==> x in xs;
      FoldBalanced(front, plan);
      FoldLast(xs, plan);
      MergeBalanced(Fold(front, plan), Contribution(last, plan));
    }
  }

  /* ---------- the families agree in total ---------- */

  function HistCount(h: Hist): int { h.count }
  function OutcomeCount(c: Counts): int { c.success + c.error }
  function ErrorCount(c: Counts): int { c.error }
  function AsInt(n: nat): int { n }
  function CostCount(c: CostEntry): int { c.count }
  function CostMissing(c: CostEntry): int { c.missing }
  function CostInvalid(c: CostEntry): int { c.invalid }

  // The errors of one primary series, by category.
  function ErrorsAt(errcat: map<(PrimaryDims, Label), nat>, pk: PrimaryDims): map<(PrimaryDims, Label), nat> {
    map k | k in errcat && k.0 == pk :: errcat[k]
  }

  lemma MergeErrorsAt(a: map<(PrimaryDims, Label), nat>, b: map<(PrimaryDims, Label), nat>, pk: PrimaryDims)
    ensures ErrorsAt(MergeWith(a, b, PlusNat), pk) == MergeWith(ErrorsAt(a, pk), ErrorsAt(b, pk), PlusNat)
  {
  }

  function ErrorsCounted(counts: map<PrimaryDims, Counts>, pk: PrimaryDims): nat {
    if pk in counts then counts[pk].error else 0
  }

  ghost predicate TimesTotal(v: View) {
    Total(v.times.dur, HistCount) == v.observations && Total(v.times.ttft, HistCount) == v.times.ttftEligible
  }

  ghost predicate OutcomesTotal(v: View) {
    && Total(v.outcomes.counts, OutcomeCount) == v.observations
    && Total(v.outcomes.counts, ErrorCount) == v.outcomes.errors
    && Total(v.outcomes.errcat, AsInt) == v.outcomes.errors
  }

  ghost predicate CategoriesTotal(v: View) {
    forall pk :: Total(ErrorsAt(v.outcomes.errcat, pk), AsInt) == ErrorsCounted(v.outcomes.counts, pk)
  }

  ghost predicate CostsTotal(v: View) {
    && Total(v.costs.cost, CostCount) == v.observations
    && Total(v.costs.cost, CostMissing) == v.costs.missing
    && Total(v.costs.cost, CostInvalid) == v.costs.invalid
  }

  ghost predicate AllTotals(v: View) {
    TimesTotal(v) && OutcomesTotal(v) && CategoriesTotal(v) && CostsTotal(v)
  }

  lemma MergeTimesTotal(a: View, b: View)
    requires TimesTotal(a) && TimesTotal(b)
    ensures TimesTotal(Merge(a, b))
  {
    TotalMerge(a.times.dur, b.times.dur, Plus, HistCount);
    TotalMerge(a.times.ttft, b.times.ttft, Plus, HistCount);
  }

  lemma MergeOutcomesTotal(a: View, b: View)
    requires OutcomesTotal(a) && OutcomesTotal(b)
    ensures OutcomesTotal(Merge(a, b))
  {
    TotalMerge(a.outcomes.counts, b.outcomes.counts, PlusCounts, OutcomeCount);
    TotalMerge(a.outcomes.counts, b.outcomes.counts, PlusCounts, ErrorCount);
    TotalMerge(a.outcomes.errcat, b.outcomes.errcat, PlusNat, AsInt);
  }

  lemma MergeCategoriesTotal(a: View, b: View)
    requires CategoriesTotal(a) && CategoriesTotal(b)
    ensures CategoriesTotal(Merge(a, b))
  {
    var sum := Merge(a, b).outcomes;
    forall pk
      ensures Total(ErrorsAt(sum.errcat, pk), AsInt) == ErrorsCounted(sum.counts, pk)
    {
      MergeErrorsAt(a.outcomes.errcat, b.outcomes.errcat, pk);
      TotalMerge(ErrorsAt(a.outcomes.errcat, pk), ErrorsAt(b.outcomes.errcat, pk), PlusNat, AsInt);
    }
  }

  lemma MergeCostsTotal(a: View, b: View)
    requires CostsTotal(a) && CostsTotal(b)
    ensures CostsTotal(Merge(a, b))
  {
    TotalMerge(a.costs.cost, b.costs.cost, PlusCost, CostCount);
    TotalMerge(a.costs.cost, b.costs.cost, PlusCost, CostMissing);
    TotalMerge(a.costs.cost, b.costs.cost, PlusCost, CostInvalid);
  }

  lemma SampleTotals(s: Sample, bounds: seq<real>)
    requires Measured(s)
    ensures var v := SampleView(s, bounds); AllTotals(v)
  {
    TotalOne(s.pk, Single(bounds, s.latency), HistCount);
    if s.ttft.Some? {
      TotalOne(s.pk, Single(bounds, s.ttft.value), HistCount);
    }
    TotalOne(s.pk, CountsOf(s), OutcomeCount);
    TotalOne(s.pk, CountsOf(s), ErrorCount);
    TotalOne(s.ck, s.cost, CostCount);
    TotalOne(s.ck, s.cost, CostMissing);
    TotalOne(s.ck, s.cost, CostInvalid);
    SampleErrors(s);
  }

  lemma SampleErrors(s: Sample)
    ensures Total(OutcomesOf(s).errcat, AsInt) == OutcomesOf(s).errors
    ensures forall pk :: Total(ErrorsAt(OutcomesOf(s).errcat, pk), AsInt) == ErrorsCounted(OutcomesOf(s).counts, pk)
  {
    var errcat := OutcomesOf(s).errcat;
    if s.failure.Some? {
      TotalOne<(PrimaryDims, Label), nat>((s.pk, s.failure.value), 1, AsInt);
    }
    forall pk
      ensures Total(ErrorsAt(errcat, pk), AsInt) == ErrorsCounted(OutcomesOf(s).counts, pk)
    {
      assert ErrorsAt(errcat, pk) == if pk == s.pk then errcat else map[];
    }
  }

  /** For every stream: durations, outcomes and cost requests each count every observation once;
      error categories add up to the errors, in every series and in all; missing and invalid costs
      add up to their counters. */
  lemma {:induction false} FoldTotals(xs: seq<Observation>, plan: Plan)
    requires AllMeasured(xs, plan)
    ensures var v := Fold(xs, plan); v.observations == |xs| && AllTotals(v)
  {
    if xs != [] {
      var front, last := xs[..|xs| - 1], xs[|xs| - 1];
      assert last in xs && forall x :: x in front ==> x in xs;
      FoldTotals(front, plan);
      FoldLast(xs, plan);
      SampleTotals(plan.sample(last), plan.bounds);
      MergeTimesTotal(Fold(front, plan), Contribution(last, plan));
      MergeOutcomesTotal(Fold(front, plan), Contribution(last, plan));
      MergeCategoriesTotal(Fold(front, plan), Contribution(last, plan));
      MergeCostsTotal(Fold(front, plan), Contribution(last, plan));
    }
  }
}
