/**
  One run of the pipeline, from the loaded checkpoint to the guarded commit.
 */
module Pipeline {
  import opened Wrappers
  import opened Models
  import opened Checkpoints
  import opened Streaming
  import opened Telemetry
  import opened Points
  import opened Exporters
  import Histograms
  import Governance
  import Normalization
  import Aggregation
  import Reservoir
  import Emission
  import Readings

  type Point = Governance.Point

  // The configured parts of a run.
  datatype Job = Job(plan: Aggregation.Plan, render: Histograms.Hist -> Governance.Value, includeProvider: bool,
                     keyOf: Reservoir.Grouping, rule: GroupRule, sampleCap: nat)

  const SAMPLE_CAP: nat := 50_000

  function JobOf(cfg: Normalization.Config): Job {
    Job(Aggregation.PlanOf(cfg), Emission.Rendering(cfg.buckets), cfg.includeProviderRegion,
        obs => Reservoir.BaselineKey(obs, cfg), RuleOf(cfg.anomaly.minSample, cfg.anomaly.threshold), SAMPLE_CAP)
  }

  // Normalization keeps to the closed vocabularies and counts cached tokens only on cache hits, and
  // rendering leaves the histogram as it is.
  ghost predicate Governed(job: Job) {
    && Emission.Governs(job.plan, job.includeProvider) && Emission.Covers(job.plan) && Readings.Renders(job.render)
    && forall obs :: job.keyOf(obs).Governed()
  }

  lemma JobIsGoverned(cfg: Normalization.Config)
    ensures Governed(JobOf(cfg))
  {
    var plan := Aggregation.PlanOf(cfg);
    forall obs
      ensures Emission.GovernedSample(plan.sample(obs), cfg.includeProviderRegion)
      ensures Emission.HitsCover(plan.sample(obs).cost)
    {
      Emission.NormalizedIsGoverned(obs, cfg);
    }
  }

  /* ---------- what a run emits ---------- */

  // What a run has to tell besides its accumulators.
  datatype Report = Report(tally: Tally, truncated: bool, source: SourceStats, windowEnd: Option<int>)

  function RunPointsOf(r: Report, costs: Aggregation.Costs, workload: nat): seq<Point> {
    RunPoints(r.tally, r.truncated, costs.missing, costs.invalid, r.source, r.windowEnd, workload)
  }

  // The points flushed after processing xs.
  ghost predicate Flushes(job: Job, v: Aggregation.View, g: Reservoir.Groups, r: Report, workload: nat, p: Point) {
    || Emission.Workload(v, job.render, job.includeProvider, p)
    || p in Emission.TrustPoints(MalformedTotal(r.tally.malformed), r.tally.duplicates)
    || Emission.FromFolds(v.unknown, p)
    || FromScores(g, job.rule, p) || FromEmpties(g, p)
    || p in RunPointsOf(r, v.costs, workload)
  }

  lemma {:induction false} LengthsGoverned(xs: seq<Observation>, keyOf: Reservoir.Grouping, k: Reservoir.QualityKey)
    requires forall obs :: keyOf(obs).Governed()
    requires Reservoir.Lengths(xs, keyOf, k) != [] || Reservoir.Empties(xs, keyOf, k) > 0
    ensures k.Governed()
  {
    assert xs != [];
    var front, last := xs[..|xs| - 1], xs[|xs| - 1];
    if keyOf(last) != k {
      LengthsGoverned(front, keyOf, k);
    }
  }

  lemma GroupsGoverned(g: Reservoir.Groups, xs: seq<Observation>, keyOf: Reservoir.Grouping, cap: nat)
    requires Reservoir.Reflects(g, xs, keyOf, cap) && forall obs :: keyOf(obs).Governed()
    ensures forall k :: k in g.buckets || k in g.empty ==> k.Governed()
  {
    forall k | k in g.buckets || k in g.empty ensures k.Governed() {
      assert Reservoir.ReflectsAt(g, xs, keyOf, cap, k);
      LengthsGoverned(xs, keyOf, k);
    }
  }

  // The keys of a configuration name a model family all or none.
  ghost predicate Shaped(k: Reservoir.QualityKey, grouped: bool) {
    k.Governed() && k.modelFamily.Some? == grouped
  }

  lemma KeyBound(keys: set<Reservoir.QualityKey>, grouped: bool)
    requires forall k :: k in keys ==> Shaped(k, grouped)
    ensures |keys| <= if grouped then 28 else 4
  {
    Governance.VocabularySizes();
    var families := if grouped then Governance.Vocabulary(Governance.ModelFamily) else {Governance.Other};
    Emission.PairBound(keys, (k: Reservoir.QualityKey) => k.route,
                       (k: Reservoir.QualityKey) =>
                         if k.modelFamily.Some? then k.modelFamily.value else Governance.Other,
                       Governance.Vocabulary(Governance.Route), families);
  }

  lemma {:induction false} SomeMember(xs: seq<Observation>, keyOf: Reservoir.Grouping, k: Reservoir.QualityKey)
    returns (x: Observation)
    requires Reservoir.Lengths(xs, keyOf, k) != [] || Reservoir.Empties(xs, keyOf, k) > 0
    ensures keyOf(x) == k
  {
    assert xs != [];
    var front, last := xs[..|xs| - 1], xs[|xs| - 1];
    if keyOf(last) == k {
      x := last;
    } else {
      x := SomeMember(front, keyOf, k);
    }
  }

  lemma GroupsBounded(xs: seq<Observation>, keyOf: Reservoir.Grouping, cap: nat, grouped: bool, g: Reservoir.Groups)
    requires Reservoir.Reflects(g, xs, keyOf, cap) && forall obs :: Shaped(keyOf(obs), grouped)
    ensures |g.buckets| <= (if grouped then 28 else 4) && |g.empty| <= (if grouped then 28 else 4)
    ensures forall k :: k in g.buckets ==> |g.buckets[k]| <= cap
  {
    forall k | k in g.buckets || k in g.empty ensures Shaped(k, grouped) && (k in g.buckets ==> |g.buckets[k]| <= cap) {
      assert Reservoir.ReflectsAt(g, xs, keyOf, cap, k);
      var x := SomeMember(xs, keyOf, k);
      if k in g.buckets {
        Reservoir.SampledSize(g.buckets[k], Reservoir.Lengths(xs, keyOf, k), cap);
      }
    }
    KeyBound(g.buckets.Keys, grouped);
    KeyBound(g.empty.Keys, grouped);
  }

  lemma KeysAreShaped(cfg: Normalization.Config)
    ensures forall obs :: Shaped(JobOf(cfg).keyOf(obs), cfg.anomaly.routeModelGrouping)
  {
  }

  /** Quality state stays bounded however long the stream: at most 28 groups, 4 when models are not told
      apart, of at most the sample cap each. */
  lemma MemoryIsBounded(xs: seq<Observation>, cfg: Normalization.Config, g: Reservoir.Groups)
    requires Reservoir.Reflects(g, xs, JobOf(cfg).keyOf, SAMPLE_CAP)
    ensures |g.buckets| <= (if cfg.anomaly.routeModelGrouping then 28 else 4)
    ensures |g.empty| <= (if cfg.anomaly.routeModelGrouping then 28 else 4)
    ensures forall k :: k in g.buckets ==> |g.buckets[k]| <= SAMPLE_CAP
  {
    KeysAreShaped(cfg);
    GroupsBounded(xs, JobOf(cfg).keyOf, SAMPLE_CAP, cfg.anomaly.routeModelGrouping, g);
  }

  /** Every point of a run passes the schema guard. */
  lemma FlushedIsAllowed(job: Job, xs: seq<Observation>, g: Reservoir.Groups, r: Report, workload: nat, p: Point)
    requires Governed(job) && Reservoir.Reflects(g, xs, job.keyOf, job.sampleCap)
    requires Flushes(job, Aggregation.Fold(xs, job.plan), g, r, workload, p)
    ensures GUARD(p)
  {
    var v := Aggregation.Fold(xs, job.plan);
    Emission.FoldGoverned(xs, job.plan, job.includeProvider);
    FlushedByGoverned(job, v, xs, g, r, workload, p);
  }

  lemma FlushedByGoverned(job: Job, v: Aggregation.View, xs: seq<Observation>, g: Reservoir.Groups, r: Report,
                          workload: nat, p: Point)
    requires Governed(job) && Reservoir.Reflects(g, xs, job.keyOf, job.sampleCap)
    requires Emission.GovernedView(v, job.includeProvider) && Flushes(job, v, g, r, workload, p)
    ensures GUARD(p)
  {
    if Emission.Workload(v, job.render, job.includeProvider, p) {
      Emission.WorkloadAllowed(v, job.render, job.includeProvider, p);
    } else if FromScores(g, job.rule, p) || FromEmpties(g, p) {
      GroupsGoverned(g, xs, job.keyOf, job.sampleCap);
      QualityAllowed(g, job.rule, p);
    } else if p in RunPointsOf(r, v.costs, workload) {
      GuardAcceptsPlain();
      RunAccepted(GUARD, r.tally, r.truncated, v.costs.missing, v.costs.invalid, r.source, r.windowEnd, workload);
    } else {
      Emission.TrustAllowed(v, MalformedTotal(r.tally.malformed), r.tally.duplicates, job.includeProvider, p);
    }
  }

  // How many of the points are workload points.
  ghost predicate Sized(points: seq<Point>, workload: nat) {
    exists first, rest :: Parts(points, first, rest) && |first| == workload
  }

  lemma FlushSized(series: seq<Point>, trust: seq<Point>, quality: seq<Point>, run: seq<Point>)
    requires Once(series) && Within(series, Emission.WORKLOAD_METRICS)
    requires Once(trust) && Within(trust, Emission.TRUST_METRICS)
    requires Once(quality) && Within(quality, QUALITY_METRICS) && Once(run) && Within(run, RUN_METRICS)
    ensures Once(series + trust + quality + run) && Sized(series + trust + quality + run, |series|)
  {
    FlushOnce(series, trust, quality, run);
    WorkloadFirst(series, trust, quality, run);
  }

  /** Materialize the window, each series once; `None` where scoring a group raises. */
  method Gather(job: Job, v: Aggregation.View, g: Reservoir.Groups, r: Report)
    returns (flush: Option<seq<Point>>, workload: nat)
    requires Emission.GovernedView(v, job.includeProvider)
    ensures flush.None? <==> Raises(g, job.rule)
    ensures flush.Some? ==> forall p :: p in flush.value <==> Flushes(job, v, g, r, workload, p)
    ensures flush.Some? ==> Once(flush.value)
    ensures flush.Some? ==> Sized(flush.value, workload)
    ensures workload <= Governance.EstimatedMaxTotalSeries()
  {
    var series, trust :=
      Emission.Build(v, job.render, job.includeProvider, MalformedTotal(r.tally.malformed), r.tally.duplicates);
    workload := |series|;
    var quality := QualityPoints(g, job.rule);
    if quality.None? {
      return None, workload;
    }
    var run := RunPointsOf(r, v.costs, workload);
    RunPointsOnce(r.tally, r.truncated, v.costs.missing, v.costs.invalid, r.source, r.windowEnd, workload);
    FlushSized(series, trust, quality.value, run);
    flush := Some(series + trust + quality.value + run);
  }

  /* ---------- the run ---------- */

  datatype Settings = Settings(windowEnd: Option<int>, overlap: int, maxRecords: Option<nat>)
  {
    function Cutoff(): Option<int> {
      if windowEnd.Some? then Some(windowEnd.value - overlap) else None
    }
  }

  datatype Stats = Stats(sourceOk: bool, exportOk: bool, heartbeatOk: bool, conflict: bool)

  // How a run ends: with an exception, or with its stats.
  datatype Ending = LoadRaised | ScoringRaised | SaveRaised | Ended(stats: Stats)

  // What becomes of the calls of a run to the store and to the exporter.
  datatype Faults = Faults(load: bool, flush: Fault, firstBeat: Fault, save: Fault, lastBeat: Fault)

  function PriorMap(item: Option<Item>): map<Id, string> {
    if item.None? then map[] else item.value.seen
  }

  // What the item becomes when a run that kept xs commits.
  function Committed(item: Option<Item>, windowEnd: int, xs: seq<Observation>, cutoff: int, codec: Codec): Item {
    Encoded(Checkpoint(Some(windowEnd), Pruned(PriorMap(item), RecentPairs(xs, cutoff), cutoff, codec)),
            StoredVersion(item) + 1, codec)
  }

  // What the streaming pass of a run must come to: an account of the records, and the points of
  // what it kept, with the groups some draw of the generator leads to.
  ghost predicate Observed<R>(job: Job, raws: seq<R>, parse: R -> Outcome, prior: set<Id>, cutoff: Option<int>,
                              r: Report, groups: Reservoir.Groups, flush: Option<seq<Point>>, workload: nat) {
    var xs := Processed(raws, parse, prior);
    && Accounts(r.tally, raws, parse, prior, cutoff)
    && Reservoir.Reflects(groups, xs, job.keyOf, job.sampleCap)
    && (flush.None? <==> Raises(groups, job.rule))
    && (flush.Some? ==>
          && Once(flush.value)
          && forall p :: p in flush.value <==> Flushes(job, Aggregation.Fold(xs, job.plan), groups, r, workload, p))
  }

  lemma OtherPoints(job: Job, v: Aggregation.View, g: Reservoir.Groups, r: Report, workload: nat, p: Point)
    requires Flushes(job, v, g, r, workload, p) && p.metric in Readings.ADDITIVE
    ensures Emission.Workload(v, job.render, job.includeProvider, p) || Emission.FromFolds(v.unknown, p)
  {
    OtherRunPoints(r, v.costs, workload, p);
    OtherQualityPoints(g, job.rule, p);
  }

  lemma OtherRunPoints(r: Report, costs: Aggregation.Costs, workload: nat, p: Point)
    requires p.metric in Readings.ADDITIVE
    ensures p !in RunPointsOf(r, costs, workload)
  {
    var points := RunPointsOf(r, costs, workload);
    RunPointsOnce(r.tally, r.truncated, costs.missing, costs.invalid, r.source, r.windowEnd, workload);
    RunFamily(points);
    AccumulatedFamily(p.metric);
  }

  lemma OtherQualityPoints(g: Reservoir.Groups, rule: GroupRule, p: Point)
    requires p.metric in Readings.ADDITIVE
    ensures !FromScores(g, rule, p) && !FromEmpties(g, p)
    ensures p.metric != Governance.MalformedRecords && p.metric != Governance.DuplicateRecords
  {
    AccumulatedFamily(p.metric);
  }

  lemma AccumulatedFamily(m: Governance.Metric)
    requires m in Readings.ADDITIVE
    ensures FamilyOf(m) <= 1
  {
  }

  /** What a flush adds to a counter or distribution is what the accumulators behind it say. */
  lemma FlushShows<R>(job: Job, raws: seq<R>, parse: R -> Outcome, prior: set<Id>, cutoff: Option<int>, r: Report,
                      groups: Reservoir.Groups, flush: Option<seq<Point>>, workload: nat)
    requires Governed(job) && Observed(job, raws, parse, prior, cutoff, r, groups, flush, workload) && flush.Some?
    ensures Readings.Shows(flush.value, Aggregation.Fold(Processed(raws, parse, prior), job.plan), job.includeProvider)
  {
    var xs := Processed(raws, parse, prior);
    var v := Aggregation.Fold(xs, job.plan);
    Emission.FoldGoverned(xs, job.plan, job.includeProvider);
    Emission.FoldCovered(xs, job.plan);
    forall p: Point | p.metric in Readings.ADDITIVE
      ensures p in flush.value <==>
              Emission.Workload(v, job.render, job.includeProvider, p) || Emission.FromFolds(v.unknown, p)
    {
      if p in flush.value {
        OtherPoints(job, v, groups, r, workload, p);
      }
    }
    Readings.SelectedShow(flush.value, v, job.render, job.includeProvider);
  }

  lemma FlushAccepted<R>(job: Job, raws: seq<R>, parse: R -> Outcome, prior: set<Id>, cutoff: Option<int>, r: Report,
                         groups: Reservoir.Groups, flush: Option<seq<Point>>, workload: nat)
    requires Governed(job) && Observed(job, raws, parse, prior, cutoff, r, groups, flush, workload)
    ensures flush.Some? ==> Accepted(GUARD, flush.value)
  {
    if flush.Some? {
      forall p | p in flush.value ensures GUARD(p) {
        FlushedIsAllowed(job, Processed(raws, parse, prior), groups, r, workload, p);
      }
    }
  }

  method Observe<R>(source: Source<R>, sourceStats: SourceStats, parse: R -> Outcome, job: Job, settings: Settings,
                    cutoff: Option<int>, prior: set<Id>)
    returns (r: Report, failed: bool, flush: Option<seq<Point>>, ghost groups: Reservoir.Groups, ghost workload: nat)
    requires Governed(job)
    ensures r.truncated == Truncates(source, settings.maxRecords) && failed == (source.fails && !r.truncated)
    ensures r.source == sourceStats && r.windowEnd == settings.windowEnd
    ensures Observed(job, Taken(source, settings.maxRecords), parse, prior, cutoff, r, groups, flush, workload)
    ensures flush.Some? ==> Sized(flush.value, workload)
  {
    var agg := new Aggregation.Aggregator(job.plan);
    var quality := new Reservoir.QualityAccumulator(job.keyOf, job.sampleCap);
    var tally, truncated;
    tally, truncated, failed := Stream(source, parse, prior, cutoff, settings.maxRecords, agg, quality);
    r, groups := Report(tally, truncated, sourceStats, settings.windowEnd), quality.groups;
    Emission.FoldGoverned(Processed(Taken(source, settings.maxRecords), parse, prior), job.plan, job.includeProvider);
    var series: nat;
    flush, series := Gather(job, agg.State(), quality.groups, r);
    workload := series;
  }

  // What is delivered of a first heartbeat alone, and of a last one.
  function FirstBeat(backend: Backend, exportOk: bool, sourceOk: bool, faults: Faults): Beat {
    Beat(backend.hasHeartbeat && !faults.firstBeat.Fails?, exportOk, sourceOk, false, 0.0, false)
  }

  function FinalBeat(backend: Backend, duration: real, conflict: bool, faults: Faults): Beat {
    Beat(false, false, false, backend.hasHeartbeat && !faults.lastBeat.Fails?, duration, conflict)
  }

  /** The flush, only after a clean source, and the first heartbeat.  Without an exporter nothing is
      sent and nothing fails; with one, the flush reaches the backend exactly when the source was
      clean and delivery did not fail outright, and the heartbeat says whether it raised. */
  method Flush(backend: Backend?, flush: seq<Point>, sourceOk: bool, faults: Faults)
    returns (exportOk: bool, heartbeatOk: bool)
    requires Accepted(GUARD, flush)
    modifies backend
    ensures exportOk <==> sourceOk && (backend == null || faults.flush.Works?)
    ensures heartbeatOk <==> backend == null || !backend.hasHeartbeat || faults.firstBeat.Works?
    ensures backend != null ==>
              backend.metrics == old(backend.metrics) + if sourceOk && !faults.flush.Fails? then flush else []
    ensures backend != null ==>
              backend.beats == old(backend.beats) + BeatPoints(FirstBeat(backend, exportOk, sourceOk, faults))
    ensures backend != null ==>
              GainTells(backend.beats, old(backend.beats), FirstBeat(backend, exportOk, sourceOk, faults))
  {
    exportOk, heartbeatOk := sourceOk, true;
    if backend != null && sourceOk {
      exportOk := backend.Export(flush, faults.flush);
    }
    if backend != null && backend.hasHeartbeat {
      GuardAcceptsPlain();
      HealthAccepted(GUARD, exportOk, sourceOk, 0.0, false);
      heartbeatOk := backend.Heartbeat(Chosen(HealthPoints(exportOk, sourceOk)), faults.firstBeat);
    }
    if backend != null {
      OneBeat(FirstBeat(backend, exportOk, sourceOk, faults));
      BeatsTell(FirstBeat(backend, exportOk, sourceOk, faults), old(backend.beats));
    }
  }

  // The last heartbeat, after the checkpoint.
  method LastBeat(backend: Backend?, duration: real, conflict: bool, faults: Faults) returns (ok: bool)
    modifies backend
    ensures ok <==> backend == null || !backend.hasHeartbeat || faults.lastBeat.Works?
    ensures backend != null ==> backend.metrics == old(backend.metrics)
    ensures backend != null ==>
              backend.beats == old(backend.beats) + BeatPoints(FinalBeat(backend, duration, conflict, faults))
    ensures backend != null ==>
              GainTells(backend.beats, old(backend.beats), FinalBeat(backend, duration, conflict, faults))
  {
    ok := true;
    if backend != null && backend.hasHeartbeat {
      GuardAcceptsPlain();
      HealthAccepted(GUARD, true, true, duration, conflict);
      ok := backend.Heartbeat(Chosen(FinalPoints(duration, conflict)), faults.lastBeat);
    }
    if backend != null {
      OneBeat(FinalBeat(backend, duration, conflict, faults));
      BeatsTell(FinalBeat(backend, duration, conflict, faults), old(backend.beats));
    }
  }

  // Advance the watermark; a concurrent writer that got there first is a conflict.
  method Commit(store: DynamoDbCheckpointStore, windowEnd: int, cutoff: int, prior: map<Id, string>,
                current: seq<(Id, int)>, fault: Fault)
    returns (saving: Saving)
    requires WellVersioned(store.table.item)
    modifies store`version, store.table
    ensures saving.Raised? <==> !fault.Works?
    ensures saving.Conflict? <==> fault.Works? && old(store.version) != StoredVersion(old(store.table.item))
    ensures store.table.item ==
            if !fault.Fails? && old(store.version) == StoredVersion(old(store.table.item))
            then Some(Encoded(Checkpoint(Some(windowEnd), Pruned(prior, current, cutoff, store.codec)),
                              old(store.version) + 1, store.codec))
            else old(store.table.item)
  {
    var seen := PruneSeen(prior, current, cutoff, store.codec);
    saving := store.Save(Checkpoint(Some(windowEnd), seen), fault);
  }

  // What another writer leaves in the table while this run is streaming.
  predicate Later(rival: Option<Item>, item: Option<Item>) {
    rival.Some? ==> rival.value.version > StoredVersion(item)
  }

  // The stored item, if there is a store.
  function Stored(store: DynamoDbCheckpointStore?): Option<Item>
    reads store, if store == null then {} else {store.table}
  {
    if store == null then None else store.table.item
  }

  // The horizon of the ids collected while streaming, which only a store needs.
  function Collected(store: DynamoDbCheckpointStore?, settings: Settings): Option<int> {
    if store == null then None else settings.Cutoff()
  }

  // What a run is up against: whether its source was clean, whether it may commit at all, whether
  // there is an exporter and one with heartbeats, and whether the version it loaded is the stored one.
  datatype Setting = Setting(sourceOk: bool, savable: bool, connected: bool, beating: bool, current: bool)

  // The gate in front of the commit.
  predicate Opens(c: Setting, faults: Faults) {
    && c.savable && c.sourceOk && (c.connected ==> faults.flush.Works?) && (c.beating ==> faults.firstBeat.Works?)
  }

  // How a run ends whose flush was ready, whether its points are at the backend, and whether its
  // commit replaced the item: a call that raises may have had its effect.
  predicate Gated(ending: Ending, reached: bool, stored: bool, c: Setting, faults: Faults) {
    && (reached <==> c.sourceOk && (c.connected ==> !faults.flush.Fails?))
    && (stored <==> Opens(c, faults) && c.current && !faults.save.Fails?)
    && (ending == SaveRaised <==> Opens(c, faults) && !faults.save.Works?)
    && (ending != SaveRaised ==>
          && ending.Ended? && ending.stats.sourceOk == c.sourceOk
          && (ending.stats.exportOk <==> c.sourceOk && (c.connected ==> faults.flush.Works?))
          && (ending.stats.heartbeatOk <==> (c.beating ==> faults.firstBeat.Works? && faults.lastBeat.Works?))
          && (ending.stats.conflict <==> Opens(c, faults) && !c.current))
  }

  // The heartbeats of a run: the first tells whether the source was clean and whether the flush worked,
  // the last, which a run that raises does not reach, how long it took and whether its commit conflicted.
  function BeatOf(ending: Ending, c: Setting, faults: Faults, duration: real): Beat {
    Beat(c.beating && !faults.firstBeat.Fails?, c.sourceOk && (c.connected ==> faults.flush.Works?), c.sourceOk,
         c.beating && ending.Ended? && !faults.lastBeat.Fails?, duration, ending.Ended? && ending.stats.conflict)
  }

  // What the backend gains from a run whose flush was ready.
  ghost predicate Received(metrics: seq<Point>, beats: seq<Point>, metricsBefore: seq<Point>, beatsBefore: seq<Point>,
                           ending: Ending, reached: bool, c: Setting, flush: seq<Point>, faults: Faults, duration: real)
  {
    && metrics == metricsBefore + (if reached then flush else [])
    && beats == beatsBefore + BeatPoints(BeatOf(ending, c, faults, duration))
    && GainTells(beats, beatsBefore, BeatOf(ending, c, faults, duration))
  }

  // A first heartbeat and a last one make those of a run.
  lemma BeatsJoin(before: seq<Point>, between: seq<Point>, after: seq<Point>, first: Beat, final: Beat, b: Beat)
    requires between == before + BeatPoints(first) && after == between + BeatPoints(final)
    requires !first.last && !final.first
    requires b == first.(last := final.last, duration := final.duration, conflict := final.conflict)
    ensures after == before + BeatPoints(b) && GainTells(after, before, b)
  {
    assert after == before + (BeatPoints(first) + BeatPoints(final));
    assert BeatPoints(first) + BeatPoints(final) == BeatPoints(b);
    BeatsTell(b, before);
  }

  function Facing(backend: Backend?, sourceOk: bool, savable: bool, current: bool): Setting {
    Setting(sourceOk, savable, backend != null, backend != null && backend.hasHeartbeat, current)
  }

  // From the flush to the last heartbeat.
  method Settle(flush: seq<Point>, r: Report, sourceOk: bool, prior: map<Id, string>, settings: Settings,
                store: DynamoDbCheckpointStore?, backend: Backend?, faults: Faults, duration: real)
    returns (ending: Ending, ghost reached: bool, ghost stored: bool)
    requires Accepted(GUARD, flush) && (store != null ==> WellVersioned(store.table.item))
    modifies if store == null then {} else {store, store.table}
    modifies backend
    ensures var c := Facing(backend, sourceOk, store != null && settings.windowEnd.Some? && !r.truncated,
                            store != null && old(store.version) == StoredVersion(old(store.table.item)));
            && Gated(ending, reached, stored, c, faults)
            && (backend != null ==>
                  Received(backend.metrics, backend.beats, old(backend.metrics), old(backend.beats), ending, reached, c,
                           flush, faults, duration))
    ensures store != null ==>
              store.table.item ==
              if stored
              then Some(Encoded(Checkpoint(settings.windowEnd,
                                           Pruned(prior, r.tally.current, settings.Cutoff().value, store.codec)),
                                old(store.version) + 1, store.codec))
              else old(store.table.item)
  {
    ghost var current := store != null && store.version == StoredVersion(store.table.item);
    var exportOk, heartbeatOk := Flush(backend, flush, sourceOk, faults);
    ghost var between := if backend == null then [] else backend.beats;
    reached := sourceOk && (backend != null ==> !faults.flush.Fails?);
    var open := store != null && settings.windowEnd.Some? && exportOk && heartbeatOk && !r.truncated;
    stored := open && current && !faults.save.Fails?;
    var saving := Saving.Stored;
    if open {
      saving := Commit(store, settings.windowEnd.value, settings.Cutoff().value, prior, r.tally.current, faults.save);
    }
    if saving.Raised? {
      ending := SaveRaised;
    } else {
      var lastOk := LastBeat(backend, duration, saving.Conflict?, faults);
      ending := Ended(Stats(sourceOk, exportOk, heartbeatOk && lastOk, saving.Conflict?));
    }
    if backend != null {
      ghost var final := if saving.Raised? then Beat(false, false, false, false, duration, false)
                         else FinalBeat(backend, duration, saving.Conflict?, faults);
      ghost var c := Facing(backend, sourceOk, store != null && settings.windowEnd.Some? && !r.truncated, current);
      BeatsJoin(old(backend.beats), between, backend.beats, FirstBeat(backend, exportOk, sourceOk, faults), final,
                BeatOf(ending, c, faults, duration));
    }
  }

  // A run that has loaded its checkpoint.
  method RunLoaded<R>(source: Source<R>, sourceStats: SourceStats, parse: R -> Outcome, job: Job, settings: Settings,
                      store: DynamoDbCheckpointStore?, prior: map<Id, string>, backend: Backend?, faults: Faults,
                      duration: real)
    returns (ending: Ending, r: Report, flush: Option<seq<Point>>, ghost reached: bool, ghost stored: bool,
             ghost groups: Reservoir.Groups, ghost workload: nat)
    requires Governed(job) && (store != null ==> WellVersioned(store.table.item))
    modifies if store == null then {} else {store, store.table}
    modifies backend
    ensures r.truncated == Truncates(source, settings.maxRecords)
    ensures r.source == sourceStats && r.windowEnd == settings.windowEnd
    ensures Observed(job, Taken(source, settings.maxRecords), parse, prior.Keys, Collected(store, settings), r, groups,
                     flush, workload)
    ensures !ending.LoadRaised? && (ending.ScoringRaised? <==> flush.None?)
    ensures flush.None? ==> !reached && !stored
    ensures flush.Some? ==> Sized(flush.value, workload)
    ensures flush.Some? ==>
              Gated(ending, reached, stored,
                    Facing(backend, !(source.fails && !r.truncated),
                           store != null && settings.windowEnd.Some? && !r.truncated,
                           store != null && old(store.version) == StoredVersion(old(store.table.item))), faults)
    ensures backend != null && flush.None? ==>
              backend.metrics == old(backend.metrics) && backend.beats == old(backend.beats)
    ensures backend != null && flush.Some? ==>
              Received(backend.metrics, backend.beats, old(backend.metrics), old(backend.beats), ending, reached,
                       Facing(backend, !(source.fails && !r.truncated),
                              store != null && settings.windowEnd.Some? && !r.truncated,
                              store != null && old(store.version) == StoredVersion(old(store.table.item))),
                       flush.value, faults, duration)
    ensures store != null ==>
              store.table.item ==
              if stored
              then Some(Encoded(Checkpoint(settings.windowEnd,
                                           Pruned(prior, r.tally.current, settings.Cutoff().value, store.codec)),
                                old(store.version) + 1, store.codec))
              else old(store.table.item)
  {
    var failed;
    r, failed, flush, groups, workload :=
      Observe(source, sourceStats, parse, job, settings, Collected(store, settings), prior.Keys);
    reached, stored := false, false;
    if flush.None? {
      return ScoringRaised, r, flush, reached, stored, groups, workload;
    }
    FlushAccepted(job, Taken(source, settings.maxRecords), parse, prior.Keys, Collected(store, settings),
                  r, groups, flush, workload);
    ending, reached, stored := Settle(flush.value, r, !failed, prior, settings, store, backend, faults, duration);
  }

  /** A run.  It raises exactly when loading the checkpoint does, when scoring a group does, or when the
      save does with anything but a conflict.  In the first two cases it sends nothing and leaves the
      item alone.  Otherwise it attempts its commit exactly when it read its whole window from a source
      that did not raise, flushed and sent its heartbeat without an exception; the item is then
      replaced exactly when no other writer advanced it and the put had its effect. */
  method Run<R>(source: Source<R>, sourceStats: SourceStats, parse: R -> Outcome, job: Job, settings: Settings,
                store: DynamoDbCheckpointStore?, rival: Option<Item>, backend: Backend?, faults: Faults, duration: real)
    returns (ending: Ending, r: Report, flush: Option<seq<Point>>, ghost reached: bool, ghost stored: bool,
             ghost groups: Reservoir.Groups, ghost workload: nat)
    requires Governed(job)
    requires store != null ==>
               && WellVersioned(store.table.item) && Later(rival, store.table.item)
               && (store.table.item.Some? ==> Decoded(store.table.item, store.codec).Some?)
    modifies if store == null then {} else {store, store.table}
    modifies backend
    ensures r.source == sourceStats && r.windowEnd == settings.windowEnd
    ensures ending.LoadRaised? <==> store != null && faults.load
    ensures ending.LoadRaised? ==> flush.None? && Stored(store) == old(Stored(store))
    ensures !ending.LoadRaised? ==>
              && r.truncated == Truncates(source, settings.maxRecords)
              && Observed(job, Taken(source, settings.maxRecords), parse, PriorMap(old(Stored(store))).Keys,
                          Collected(store, settings), r, groups, flush, workload)
              && (ending.ScoringRaised? <==> flush.None?)
    ensures flush.None? ==> !reached && !stored
    ensures flush.Some? ==> Sized(flush.value, workload)
    ensures flush.Some? ==>
              Gated(ending, reached, stored, SettingOf(source, settings, store, rival, backend), faults)
    ensures backend != null && flush.None? ==>
              backend.metrics == old(backend.metrics) && backend.beats == old(backend.beats)
    ensures backend != null && flush.Some? ==>
              Received(backend.metrics, backend.beats, old(backend.metrics), old(backend.beats), ending, reached,
                       SettingOf(source, settings, store, rival, backend), flush.value, faults, duration)
    ensures store != null && !ending.LoadRaised? ==>
              store.table.item ==
              if stored
              then Some(Committed(old(Stored(store)), settings.windowEnd.value,
                                  Processed(Taken(source, settings.maxRecords), parse,
                                            PriorMap(old(Stored(store))).Keys),
                                  settings.Cutoff().value, store.codec))
              else if rival.Some? then rival else old(Stored(store))
  {
    if store != null && faults.load {
      r, flush := Report(NO_RECORDS, false, sourceStats, settings.windowEnd), None;
      groups, workload := Reservoir.Groups(map[], map[], map[]), 0;
      return LoadRaised, r, flush, false, false, groups, workload;
    }
    var prior := LoadPrior(store, rival);
    ending, r, flush, reached, stored, groups, workload :=
      RunLoaded(source, sourceStats, parse, job, settings, store, prior, backend, faults, duration);
  }

  function SettingOf<R>(source: Source<R>, settings: Settings, store: DynamoDbCheckpointStore?, rival: Option<Item>,
                        backend: Backend?): Setting
  {
    var truncated := Truncates(source, settings.maxRecords);
    Facing(backend, !(source.fails && !truncated), store != null && settings.windowEnd.Some? && !truncated,
           store != null && rival.None?)
  }

  // The map of the stored checkpoint; then another writer may advance the item.
  method LoadPrior(store: DynamoDbCheckpointStore?, rival: Option<Item>) returns (prior: map<Id, string>)
    requires store != null ==> store.table.item.Some? ==> Decoded(store.table.item, store.codec).Some?
    modifies if store == null then {} else {store, store.table}
    ensures prior == PriorMap(old(Stored(store)))
    ensures store != null ==>
              && store.version == StoredVersion(old(store.table.item))
              && store.table.item == if rival.Some? then rival else old(store.table.item)
  {
    prior := map[];
    if store != null {
      var checkpoint := store.Load();
      prior := if checkpoint.None? then map[] else checkpoint.value.seen;
      if rival.Some? {
        store.table.item := rival;
      }
    }
  }
}
