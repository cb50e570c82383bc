/**
  What a flush tells about the run and its quality groups: the value of every trust metric in terms of
  the records read, and of every quality metric in terms of the completion lengths behind it.
 */
module Reports {
  import opened Wrappers
  import opened Models
  import opened Governance
  import opened Points
  import opened Idempotency
  import opened Streaming
  import opened Telemetry
  import opened Pipeline
  import Histograms
  import Normalization
  import Aggregation
  import Emission
  import Readings
  import Counters
  import EndToEnd
  import Protocol
  import Reservoir
  import Q = Quality

  type Point = Governance.Point

  // What a list of points says about a metric without labels.
  function Says(points: seq<Point>, m: Metric): seq<Value> {
    ValuesAt(points, (m, map[]))
  }

  // A value that is reported under a condition.
  function When(condition: bool, x: real): seq<Value> {
    if condition then [Number(x)] else []
  }

  /* ---------- the points about the run ---------- */

  lemma Elsewhere(points: seq<Point>, metrics: set<Metric>, m: Metric)
    requires Within(points, metrics) && m !in metrics
    ensures Says(points, m) == []
  {
    NoValues(points, (m, map[]));
  }

  lemma CandidateSays(candidates: seq<(bool, Point)>, metrics: set<Metric>, i: nat, condition: bool, p: Point, x: real)
    requires Varied(candidates, metrics) && i < |candidates| && candidates[i] == (condition, p)
    requires p.dims == map[] && p.value == Number(x)
    ensures Says(Chosen(candidates), p.metric) == When(condition, x)
  {
    ChosenSays(candidates, metrics, i);
  }

  lemma VolumeSays(t: Tally, truncated: bool, missing: nat, invalid: nat)
    ensures var points := Chosen(VolumePoints(t, truncated, missing, invalid));
            && Says(points, RecordsRead) == When(true, t.read as real)
            && Says(points, RecordsProcessed) == When(true, t.processed as real)
  {
    var candidates, metrics := VolumePoints(t, truncated, missing, invalid), VOLUME_METRICS;
    VolumeVaried(t, truncated, missing, invalid);
    CandidateSays(candidates, metrics, 0, true, Plain(RecordsRead, t.read), t.read as real);
    CandidateSays(candidates, metrics, 1, true, Plain(RecordsProcessed, t.processed), t.processed as real);
  }

  lemma LossesSay(t: Tally, truncated: bool, missing: nat, invalid: nat)
    ensures var points := Chosen(VolumePoints(t, truncated, missing, invalid));
            && Says(points, CrossRunDuplicates) == When(t.crossRun > 0, t.crossRun as real)
            && Says(points, QuarantinedRecords) == When(t.quarantined > 0, t.quarantined as real)
  {
    var candidates, metrics := VolumePoints(t, truncated, missing, invalid), VOLUME_METRICS;
    VolumeVaried(t, truncated, missing, invalid);
    CandidateSays(candidates, metrics, 2, t.crossRun > 0, Plain(CrossRunDuplicates, t.crossRun), t.crossRun as real);
    CandidateSays(candidates, metrics, 3, t.quarantined > 0, Plain(QuarantinedRecords, t.quarantined),
                  t.quarantined as real);
  }

  lemma GapsSay(t: Tally, truncated: bool, missing: nat, invalid: nat)
    ensures var points := Chosen(VolumePoints(t, truncated, missing, invalid));
            && Says(points, ReadTruncated) == When(truncated, 1.0)
            && Says(points, RecordsMissingCost) == When(missing > 0, missing as real)
            && Says(points, RecordsInvalidCost) == When(invalid > 0, invalid as real)
  {
    var candidates, metrics := VolumePoints(t, truncated, missing, invalid), VOLUME_METRICS;
    VolumeVaried(t, truncated, missing, invalid);
    CandidateSays(candidates, metrics, 4, truncated, PlainGauge(ReadTruncated, One, 1.0), 1.0);
    CandidateSays(candidates, metrics, 5, missing > 0, Plain(RecordsMissingCost, missing), missing as real);
    CandidateSays(candidates, metrics, 6, invalid > 0, Plain(RecordsInvalidCost, invalid), invalid as real);
  }

  lemma VolumeVaried(t: Tally, truncated: bool, missing: nat, invalid: nat)
    ensures Varied(VolumePoints(t, truncated, missing, invalid), VOLUME_METRICS)
  {
    RunPartsOnce(t, truncated, missing, invalid, SourceStats(0, 0, 0, 0.0), None, 0);
  }

  lemma SourceSays(s: SourceStats)
    ensures var points := Chosen(SourcePoints(s));
            && Says(points, SourceRequests) == When(s.requests > 0, s.requests as real)
            && Says(points, SourceRetries) == When(s.retries > 0, s.retries as real)
            && Says(points, Metric.SourcePages) == When(s.pages > 0, s.pages as real)
            && Says(points, SourceLatencySeconds) == When(s.latency != 0.0, s.latency)
  {
    var candidates, metrics := SourcePoints(s), SOURCE_METRICS;
    SourceVaried(s);
    CandidateSays(candidates, metrics, 0, s.requests > 0, Plain(SourceRequests, s.requests), s.requests as real);
    CandidateSays(candidates, metrics, 1, s.retries > 0, Plain(SourceRetries, s.retries), s.retries as real);
    CandidateSays(candidates, metrics, 2, s.pages > 0, Plain(Metric.SourcePages, s.pages), s.pages as real);
    CandidateSays(candidates, metrics, 3, s.latency != 0.0, PlainGauge(SourceLatencySeconds, Seconds, s.latency),
                  s.latency);
  }

  lemma SourceVaried(s: SourceStats)
    ensures Varied(SourcePoints(s), SOURCE_METRICS)
  {
    RunPartsOnce(NO_RECORDS, false, 0, 0, s, None, 0);
  }

  // How long before the end of the window, in seconds, the latest data ends.
  function Behind(windowEnd: int, maxEnd: int): real {
    (windowEnd - maxEnd) as real / 1_000_000.0
  }

  lemma FreshnessSays(windowEnd: Option<int>, maxEnd: Option<int>)
    ensures var points := Chosen(FreshnessPoints(windowEnd, maxEnd));
            if windowEnd.None? || maxEnd.None? then
              Says(points, FreshnessSeconds) == Says(points, ClockSkewSeconds) == []
            else
              var behind := Behind(windowEnd.value, maxEnd.value);
              && Says(points, FreshnessSeconds) == [Number(if behind < 0.0 then 0.0 else behind)]
              && Says(points, ClockSkewSeconds) == When(behind < 0.0, -behind)
  {
    var candidates := FreshnessPoints(windowEnd, maxEnd);
    if windowEnd.Some? && maxEnd.Some? {
      TwoSay(candidates[0], candidates[1], (FreshnessSeconds, map[]));
      TwoSay(candidates[0], candidates[1], (ClockSkewSeconds, map[]));
      assert candidates == [candidates[0], candidates[1]];
    }
  }

  lemma EmittedSays(workload: nat)
    ensures Says(Chosen(SeriesPoint(workload)), SeriesEmitted) == [Number(workload as real)]
  {
    var candidates := SeriesPoint(workload);
    ChosenSays(candidates, {SeriesEmitted}, 0);
  }

  /* ---------- each metric in its family ---------- */

  lemma ConcatSays(a: seq<Point>, b: seq<Point>, c: seq<Point>, d: seq<Point>, m: Metric)
    ensures Says(a + b + c + d, m) == Says(a, m) + Says(b, m) + Says(c, m) + Says(d, m)
  {
    ValuesConcat(a, b, (m, map[]));
    ValuesConcat(a + b, c, (m, map[]));
    ValuesConcat(a + b + c, d, (m, map[]));
  }

  // Each part of the run's points speaks for its own metrics.
  lemma PartSays(volume: seq<Point>, source: seq<Point>, freshness: seq<Point>, emitted: seq<Point>, m: Metric)
    requires Within(volume, VOLUME_METRICS) && Within(source, SOURCE_METRICS)
    requires Within(freshness, FRESHNESS_METRICS) && Within(emitted, {SeriesEmitted})
    ensures var all := volume + source + freshness + emitted;
            && (m in VOLUME_METRICS ==> Says(all, m) == Says(volume, m))
            && (m in SOURCE_METRICS ==> Says(all, m) == Says(source, m))
            && (m in FRESHNESS_METRICS ==> Says(all, m) == Says(freshness, m))
            && (m == SeriesEmitted ==> Says(all, m) == Says(emitted, m))
  {
    ConcatSays(volume, source, freshness, emitted, m);
    if m !in VOLUME_METRICS {
      Elsewhere(volume, VOLUME_METRICS, m);
    }
    if m !in SOURCE_METRICS {
      Elsewhere(source, SOURCE_METRICS, m);
    }
    if m !in FRESHNESS_METRICS {
      Elsewhere(freshness, FRESHNESS_METRICS, m);
    }
    if m != SeriesEmitted {
      Elsewhere(emitted, {SeriesEmitted}, m);
    }
  }

  lemma RunSays(r: Report, costs: Aggregation.Costs, workload: nat, m: Metric)
    ensures var all := RunPointsOf(r, costs, workload);
            && (m in VOLUME_METRICS ==>
                  Says(all, m) == Says(Chosen(VolumePoints(r.tally, r.truncated, costs.missing, costs.invalid)), m))
            && (m in SOURCE_METRICS ==> Says(all, m) == Says(Chosen(SourcePoints(r.source)), m))
            && (m in FRESHNESS_METRICS ==>
                  Says(all, m) == Says(Chosen(FreshnessPoints(r.windowEnd, r.tally.maxEnd)), m))
            && (m == SeriesEmitted ==> Says(all, m) == Says(Chosen(SeriesPoint(workload)), m))
  {
    RunPartsOnce(r.tally, r.truncated, costs.missing, costs.invalid, r.source, r.windowEnd, workload);
    ChosenOnce(VolumePoints(r.tally, r.truncated, costs.missing, costs.invalid), VOLUME_METRICS);
    ChosenOnce(SourcePoints(r.source), SOURCE_METRICS);
    ChosenOnce(FreshnessPoints(r.windowEnd, r.tally.maxEnd), FRESHNESS_METRICS);
    ChosenOnce(SeriesPoint(workload), {SeriesEmitted});
    PartSays(Chosen(VolumePoints(r.tally, r.truncated, costs.missing, costs.invalid)), Chosen(SourcePoints(r.source)),
             Chosen(FreshnessPoints(r.windowEnd, r.tally.maxEnd)), Chosen(SeriesPoint(workload)), m);
  }

  lemma WorkloadIsFirst(v: Aggregation.View, render: Histograms.Hist -> Value, includeProvider: bool, p: Point)
    requires Emission.Workload(v, render, includeProvider, p)
    ensures FamilyOf(p.metric) == 0
  {
    Readings.MetricsOfFamilies(v, render, includeProvider, p);
    Readings.MetricOfCounts(v.outcomes.counts, p);
    Readings.MetricOfCosts(v.costs.cost, includeProvider, p);
    WorkloadMetric(p.metric);
  }

  lemma SmallIsMiddle(malformed: nat, duplicates: nat, unknown: map<Label, nat>, p: Point)
    ensures p in Emission.TrustPoints(malformed, duplicates) || Emission.FromFolds(unknown, p) ==>
              FamilyOf(p.metric) == 1
    ensures Emission.FromFolds(unknown, p) ==> p.metric == UnknownDimension
  {
  }

  lemma QualityIsMiddle(g: Reservoir.Groups, rule: GroupRule, p: Point)
    requires FromScores(g, rule, p) || FromEmpties(g, p)
    ensures FamilyOf(p.metric) == 2
  {
  }

  lemma RunIsLast(r: Report, costs: Aggregation.Costs, workload: nat, p: Point)
    requires p in RunPointsOf(r, costs, workload)
    ensures FamilyOf(p.metric) == 3
  {
    RunPointsOnce(r.tally, r.truncated, costs.missing, costs.invalid, r.source, r.windowEnd, workload);
    RunFamily(RunPointsOf(r, costs, workload));
  }

  // Where in a flush a point of a family comes from.
  lemma OnlyFrom(job: Job, v: Aggregation.View, g: Reservoir.Groups, r: Report, workload: nat, p: Point)
    requires Flushes(job, v, g, r, workload, p)
    ensures FamilyOf(p.metric) == 3 ==> p in RunPointsOf(r, v.costs, workload)
    ensures FamilyOf(p.metric) == 2 ==> FromScores(g, job.rule, p) || FromEmpties(g, p)
    ensures p.metric == MalformedRecords || p.metric == DuplicateRecords ==>
              p in Emission.TrustPoints(MalformedTotal(r.tally.malformed), r.tally.duplicates)
  {
    var workloads := Emission.Workload(v, job.render, job.includeProvider, p);
    var quality := FromScores(g, job.rule, p) || FromEmpties(g, p);
    var run := p in RunPointsOf(r, v.costs, workload);
    if workloads {
      WorkloadIsFirst(v, job.render, job.includeProvider, p);
    }
    if quality {
      QualityIsMiddle(g, job.rule, p);
    }
    if run {
      RunIsLast(r, v.costs, workload, p);
    }
    SmallIsMiddle(MalformedTotal(r.tally.malformed), r.tally.duplicates, v.unknown, p);
  }

  lemma TrustSays(malformed: nat, duplicates: nat)
    ensures var points := Emission.TrustPoints(malformed, duplicates);
            && Once(points) && Says(points, MalformedRecords) == When(malformed > 0, malformed as real)
            && Says(points, DuplicateRecords) == When(duplicates > 0, duplicates as real)
  {
    var a := (malformed > 0, Plain(MalformedRecords, malformed));
    var b := (duplicates > 0, Plain(DuplicateRecords, duplicates));
    ChosenTwo(a, b);
    TwoSay(a, b, (MalformedRecords, map[]));
    TwoSay(a, b, (DuplicateRecords, map[]));
  }

  // The points of a flush.
  ghost predicate IsFlush(points: seq<Point>, job: Job, v: Aggregation.View, g: Reservoir.Groups, r: Report,
                          workload: nat) {
    Once(points) && forall p :: p in points <==> Flushes(job, v, g, r, workload, p)
  }

  lemma RunMetric(points: seq<Point>, job: Job, v: Aggregation.View, g: Reservoir.Groups, r: Report, workload: nat,
                  m: Metric)
    requires IsFlush(points, job, v, g, r, workload) && FamilyOf(m) == 3
    ensures Says(points, m) == Says(RunPointsOf(r, v.costs, workload), m)
  {
    var run := RunPointsOf(r, v.costs, workload);
    RunPointsOnce(r.tally, r.truncated, v.costs.missing, v.costs.invalid, r.source, r.windowEnd, workload);
    forall p | SeriesOf(p) == (m, map[]) ensures p in points <==> p in run {
      if p in points {
        OnlyFrom(job, v, g, r, workload, p);
      }
    }
    SameValues(points, run, (m, map[]));
  }

  lemma TrustMetric(points: seq<Point>, job: Job, v: Aggregation.View, g: Reservoir.Groups, r: Report, workload: nat,
                    trust: seq<Point>, m: Metric)
    requires IsFlush(points, job, v, g, r, workload) && (m == MalformedRecords || m == DuplicateRecords)
    requires trust == Emission.TrustPoints(MalformedTotal(r.tally.malformed), r.tally.duplicates) && Once(trust)
    ensures Says(points, m) == Says(trust, m)
  {
    forall p | SeriesOf(p) == (m, map[]) ensures p in points <==> p in trust {
      if p in points {
        OnlyFrom(job, v, g, r, workload, p);
      }
    }
    SameValues(points, trust, (m, map[]));
  }

  /* ---------- the trust metrics ---------- */

  // What the trust metrics of a run are: from the records it read, the observations it kept of them, the
  // requests of its source, and the end of its window.
  ghost predicate TellsRecords<R>(points: seq<Point>, raws: seq<R>, parse: R -> Outcome, prior: set<Id>) {
    var named, kept := Named(raws, parse), Processed(raws, parse, prior);
    var poisonous, malformed := Poisonous(raws, parse), |raws| - |named| - Poisonous(raws, parse);
    var repeated, known := |named| - |Dedup(named)|, |Dedup(named)| - |kept|;
    && Says(points, RecordsRead) == When(true, |raws| as real)
    && Says(points, RecordsProcessed) == When(true, |kept| as real)
    && Says(points, MalformedRecords) == When(malformed > 0, malformed as real)
    && Says(points, QuarantinedRecords) == When(poisonous > 0, poisonous as real)
    && Says(points, DuplicateRecords) == When(repeated > 0, repeated as real)
    && Says(points, CrossRunDuplicates) == When(known > 0, known as real)
  }

  ghost predicate TellsCosts(points: seq<Point>, truncated: bool, missing: nat, invalid: nat, workload: nat) {
    && Says(points, ReadTruncated) == When(truncated, 1.0)
    && Says(points, RecordsMissingCost) == When(missing > 0, missing as real)
    && Says(points, RecordsInvalidCost) == When(invalid > 0, invalid as real)
    && Says(points, SeriesEmitted) == When(true, workload as real)
  }

  ghost predicate TellsSource(points: seq<Point>, s: SourceStats) {
    && Says(points, SourceRequests) == When(s.requests > 0, s.requests as real)
    && Says(points, SourceRetries) == When(s.retries > 0, s.retries as real)
    && Says(points, Metric.SourcePages) == When(s.pages > 0, s.pages as real)
    && Says(points, SourceLatencySeconds) == When(s.latency != 0.0, s.latency)
  }

  ghost predicate TellsFreshness(points: seq<Point>, windowEnd: Option<int>, latest: Option<int>) {
    if windowEnd.None? || latest.None? then Says(points, FreshnessSeconds) == Says(points, ClockSkewSeconds) == []
    else
      var behind := Behind(windowEnd.value, latest.value);
      && Says(points, FreshnessSeconds) == [Number(if behind < 0.0 then 0.0 else behind)]
      && Says(points, ClockSkewSeconds) == When(behind < 0.0, -behind)
  }

  lemma VolumeTold(points: seq<Point>, job: Job, v: Aggregation.View, g: Reservoir.Groups, r: Report, workload: nat)
    requires IsFlush(points, job, v, g, r, workload)
    ensures Says(points, RecordsRead) == When(true, r.tally.read as real)
    ensures Says(points, RecordsProcessed) == When(true, r.tally.processed as real)
    ensures Says(points, CrossRunDuplicates) == When(r.tally.crossRun > 0, r.tally.crossRun as real)
    ensures Says(points, QuarantinedRecords) == When(r.tally.quarantined > 0, r.tally.quarantined as real)
  {
    RunMetric(points, job, v, g, r, workload, RecordsRead);
    RunMetric(points, job, v, g, r, workload, RecordsProcessed);
    RunMetric(points, job, v, g, r, workload, CrossRunDuplicates);
    RunMetric(points, job, v, g, r, workload, QuarantinedRecords);
    RunSays(r, v.costs, workload, RecordsRead);
    RunSays(r, v.costs, workload, RecordsProcessed);
    RunSays(r, v.costs, workload, CrossRunDuplicates);
    RunSays(r, v.costs, workload, QuarantinedRecords);
    VolumeSays(r.tally, r.truncated, v.costs.missing, v.costs.invalid);
    LossesSay(r.tally, r.truncated, v.costs.missing, v.costs.invalid);
  }

  lemma TrustTold(points: seq<Point>, job: Job, v: Aggregation.View, g: Reservoir.Groups, r: Report, workload: nat,
                  malformed: nat)
    requires IsFlush(points, job, v, g, r, workload) && malformed == MalformedTotal(r.tally.malformed)
    ensures Says(points, MalformedRecords) == When(malformed > 0, malformed as real)
    ensures Says(points, DuplicateRecords) == When(r.tally.duplicates > 0, r.tally.duplicates as real)
  {
    var trust := Emission.TrustPoints(malformed, r.tally.duplicates);
    TrustSays(malformed, r.tally.duplicates);
    TrustMetric(points, job, v, g, r, workload, trust, MalformedRecords);
    TrustMetric(points, job, v, g, r, workload, trust, DuplicateRecords);
  }

  lemma MalformedCount<R>(t: Tally, raws: seq<R>, parse: R -> Outcome, prior: set<Id>, cutoff: Option<int>)
    requires Accounts(t, raws, parse, prior, cutoff)
    ensures MalformedTotal(t.malformed) == |raws| - |Named(raws, parse)| - Poisonous(raws, parse)
  {
    RecordsSplit(raws, parse);
  }

  lemma RecordsTold<R>(points: seq<Point>, t: Tally, malformed: nat, raws: seq<R>, parse: R -> Outcome, prior: set<Id>,
                       cutoff: Option<int>)
    requires Accounts(t, raws, parse, prior, cutoff)
    requires malformed == |raws| - |Named(raws, parse)| - Poisonous(raws, parse)
    requires Says(points, RecordsRead) == When(true, t.read as real)
    requires Says(points, RecordsProcessed) == When(true, t.processed as real)
    requires Says(points, CrossRunDuplicates) == When(t.crossRun > 0, t.crossRun as real)
    requires Says(points, QuarantinedRecords) == When(t.quarantined > 0, t.quarantined as real)
    requires Says(points, MalformedRecords) == When(malformed > 0, malformed as real)
    requires Says(points, DuplicateRecords) == When(t.duplicates > 0, t.duplicates as real)
    ensures TellsRecords(points, raws, parse, prior)
  {
  }

  lemma CostsTold(points: seq<Point>, job: Job, v: Aggregation.View, g: Reservoir.Groups, r: Report, workload: nat)
    requires IsFlush(points, job, v, g, r, workload)
    ensures TellsCosts(points, r.truncated, v.costs.missing, v.costs.invalid, workload)
  {
    RunMetric(points, job, v, g, r, workload, ReadTruncated);
    RunMetric(points, job, v, g, r, workload, RecordsMissingCost);
    RunMetric(points, job, v, g, r, workload, RecordsInvalidCost);
    RunMetric(points, job, v, g, r, workload, SeriesEmitted);
    RunSays(r, v.costs, workload, ReadTruncated);
    RunSays(r, v.costs, workload, RecordsMissingCost);
    RunSays(r, v.costs, workload, RecordsInvalidCost);
    RunSays(r, v.costs, workload, SeriesEmitted);
    GapsSay(r.tally, r.truncated, v.costs.missing, v.costs.invalid);
    EmittedSays(workload);
  }

  lemma SourceTold(points: seq<Point>, job: Job, v: Aggregation.View, g: Reservoir.Groups, r: Report, workload: nat)
    requires IsFlush(points, job, v, g, r, workload)
    ensures TellsSource(points, r.source)
  {
    RunMetric(points, job, v, g, r, workload, SourceRequests);
    RunMetric(points, job, v, g, r, workload, SourceRetries);
    RunMetric(points, job, v, g, r, workload, Metric.SourcePages);
    RunMetric(points, job, v, g, r, workload, SourceLatencySeconds);
    RunSays(r, v.costs, workload, SourceRequests);
    RunSays(r, v.costs, workload, SourceRetries);
    RunSays(r, v.costs, workload, Metric.SourcePages);
    RunSays(r, v.costs, workload, SourceLatencySeconds);
    SourceSays(r.source);
  }

  lemma FreshnessTold(points: seq<Point>, job: Job, v: Aggregation.View, g: Reservoir.Groups, r: Report, workload: nat)
    requires IsFlush(points, job, v, g, r, workload)
    ensures TellsFreshness(points, r.windowEnd, r.tally.maxEnd)
  {
    RunMetric(points, job, v, g, r, workload, FreshnessSeconds);
    RunMetric(points, job, v, g, r, workload, ClockSkewSeconds);
    RunSays(r, v.costs, workload, FreshnessSeconds);
    RunSays(r, v.costs, workload, ClockSkewSeconds);
    FreshnessSays(r.windowEnd, r.tally.maxEnd);
  }

  /** What a flush tells about its run: how many records were read, kept, malformed, poisonous, repeated and
      already known; whether the read was cut; how many kept records miss a cost or have an invalid one; what
      the source counted; how far the latest data lies behind the window's end; and how many workload points
      there are. */
  lemma FlushTells<R>(job: Job, raws: seq<R>, parse: R -> Outcome, prior: set<Id>, cutoff: Option<int>, r: Report,
                      g: Reservoir.Groups, flush: Option<seq<Point>>, workload: nat)
    requires Observed(job, raws, parse, prior, cutoff, r, g, flush, workload) && flush.Some?
    ensures var kept := Processed(raws, parse, prior);
            var costs := Aggregation.Fold(kept, job.plan).costs;
            && TellsRecords(flush.value, raws, parse, prior)
            && TellsCosts(flush.value, r.truncated, costs.missing, costs.invalid, workload)
            && TellsSource(flush.value, r.source) && TellsFreshness(flush.value, r.windowEnd, LatestEnd(kept))
  {
    var v := Aggregation.Fold(Processed(raws, parse, prior), job.plan);
    assert IsFlush(flush.value, job, v, g, r, workload);
    VolumeTold(flush.value, job, v, g, r, workload);
    TrustTold(flush.value, job, v, g, r, workload, MalformedTotal(r.tally.malformed));
    MalformedCount(r.tally, raws, parse, prior, cutoff);
    RecordsTold(flush.value, r.tally, MalformedTotal(r.tally.malformed), raws, parse, prior, cutoff);
    CostsTold(flush.value, job, v, g, r, workload);
    SourceTold(flush.value, job, v, g, r, workload);
    FreshnessTold(flush.value, job, v, g, r, workload);
  }

  /* ---------- the quality metrics ---------- */

  lemma KeyOfDict(k: Reservoir.QualityKey)
    ensures QkOf(k.AsDict()) == k
  {
  }

  // The point of a group in a flush comes from its own score.
  lemma ScoreOf(points: seq<Point>, job: Job, v: Aggregation.View, g: Reservoir.Groups, r: Report, workload: nat,
                p: Point, k: Reservoir.QualityKey)
    requires IsFlush(points, job, v, g, r, workload) && p in points && p.dims == k.AsDict()
    requires p.metric == QualityAnomalies || p.metric == QualityMaxZscore
    ensures k in g.buckets && job.rule(g.buckets[k]).Some? && p in ScorePoints(k, job.rule(g.buckets[k]).value)
  {
    OnlyFrom(job, v, g, r, workload, p);
    var j :| j in g.buckets && job.rule(g.buckets[j]).Some? && p in ScorePoints(j, job.rule(g.buckets[j]).value);
    ScorePointsKey(j, job.rule(g.buckets[j]).value);
    KeyOfDict(k);
  }

  lemma EmptyOf(points: seq<Point>, job: Job, v: Aggregation.View, g: Reservoir.Groups, r: Report, workload: nat,
                p: Point, k: Reservoir.QualityKey)
    requires IsFlush(points, job, v, g, r, workload) && p in points && p.dims == k.AsDict()
    requires p.metric == QualityEmptyCompletions
    ensures k in g.empty && p == Emission.Count(QualityEmptyCompletions, k.AsDict(), g.empty[k])
  {
    OnlyFrom(job, v, g, r, workload, p);
    var j :| j in g.empty && p == Emission.Count(QualityEmptyCompletions, j.AsDict(), g.empty[j]);
    KeyOfDict(j);
    KeyOfDict(k);
  }

  // A series of a flush says what its point says, if it has one.
  lemma PointSays(points: seq<Point>, s: SeriesId, condition: bool, p: Point, x: real)
    requires Once(points) && SeriesOf(p) == s && p.value == Number(x)
    requires condition ==> p in points
    requires !condition ==> forall q :: q in points ==> SeriesOf(q) != s
    ensures ValuesAt(points, s) == When(condition, x)
  {
    if condition {
      OneValue(points, p);
    } else {
      NoValues(points, s);
    }
  }

  // What a group's score has its points say.
  ghost predicate SaysScore(points: seq<Point>, k: Reservoir.QualityKey, result: Q.GroupResult) {
    && ValuesAt(points, (QualityAnomalies, k.AsDict()))
       == When(result.status != Q.ColdStart, result.anomalyCount as real)
    && ValuesAt(points, (QualityMaxZscore, k.AsDict()))
       == if result.status != Q.ColdStart && result.maxAbsZ.Some? then [Number(result.maxAbsZ.value)] else []
  }

  lemma ScoredPoints(k: Reservoir.QualityKey, result: Q.GroupResult, p: Point)
    ensures p.metric == QualityAnomalies && p in ScorePoints(k, result) ==> result.status != Q.ColdStart
    ensures p.metric == QualityMaxZscore && p in ScorePoints(k, result) ==>
              result.status != Q.ColdStart && result.maxAbsZ.Some?
    ensures result.status != Q.ColdStart ==>
              Emission.Count(QualityAnomalies, k.AsDict(), result.anomalyCount) in ScorePoints(k, result)
    ensures result.status != Q.ColdStart && result.maxAbsZ.Some? ==>
              Point.Point(QualityMaxZscore, Gauge, Unit.Score, k.AsDict(), Number(result.maxAbsZ.value))
              in ScorePoints(k, result)
  {
  }

  lemma AnomaliesTold(points: seq<Point>, job: Job, v: Aggregation.View, g: Reservoir.Groups, r: Report, workload: nat,
                      k: Reservoir.QualityKey, result: Q.GroupResult)
    requires IsFlush(points, job, v, g, r, workload) && k in g.buckets && job.rule(g.buckets[k]) == Some(result)
    ensures ValuesAt(points, (QualityAnomalies, k.AsDict())) ==
            When(result.status != Q.ColdStart, result.anomalyCount as real)
  {
    var p := Emission.Count(QualityAnomalies, k.AsDict(), result.anomalyCount);
    ScoredPoints(k, result, p);
    assert p in ScorePoints(k, result) ==> FromScores(g, job.rule, p);
    forall q | q in points && SeriesOf(q) == (QualityAnomalies, k.AsDict()) ensures result.status != Q.ColdStart {
      ScoreOf(points, job, v, g, r, workload, q, k);
      ScoredPoints(k, result, q);
    }
    PointSays(points, (QualityAnomalies, k.AsDict()), result.status != Q.ColdStart, p, result.anomalyCount as real);
  }

  lemma MaximumTold(points: seq<Point>, job: Job, v: Aggregation.View, g: Reservoir.Groups, r: Report, workload: nat,
                    k: Reservoir.QualityKey, result: Q.GroupResult)
    requires IsFlush(points, job, v, g, r, workload) && k in g.buckets && job.rule(g.buckets[k]) == Some(result)
    ensures ValuesAt(points, (QualityMaxZscore, k.AsDict())) ==
            if result.status != Q.ColdStart && result.maxAbsZ.Some? then [Number(result.maxAbsZ.value)] else []
  {
    var x := if result.maxAbsZ.Some? then result.maxAbsZ.value else 0.0;
    var p := Point.Point(QualityMaxZscore, Gauge, Unit.Score, k.AsDict(), Number(x));
    ScoredPoints(k, result, p);
    assert p in ScorePoints(k, result) ==> FromScores(g, job.rule, p);
    forall q | q in points && SeriesOf(q) == (QualityMaxZscore, k.AsDict())
      ensures result.status != Q.ColdStart && result.maxAbsZ.Some?
    {
      ScoreOf(points, job, v, g, r, workload, q, k);
      ScoredPoints(k, result, q);
    }
    PointSays(points, (QualityMaxZscore, k.AsDict()), result.status != Q.ColdStart && result.maxAbsZ.Some?, p, x);
  }

  lemma NoneTold(points: seq<Point>, job: Job, v: Aggregation.View, g: Reservoir.Groups, r: Report, workload: nat,
                 k: Reservoir.QualityKey)
    requires IsFlush(points, job, v, g, r, workload) && k !in g.buckets
    ensures ValuesAt(points, (QualityAnomalies, k.AsDict())) == ValuesAt(points, (QualityMaxZscore, k.AsDict())) == []
  {
    forall q | q in points && (q.metric == QualityAnomalies || q.metric == QualityMaxZscore)
      ensures q.dims != k.AsDict()
    {
      if q.dims == k.AsDict() {
        ScoreOf(points, job, v, g, r, workload, q, k);
      }
    }
    NoValues(points, (QualityAnomalies, k.AsDict()));
    NoValues(points, (QualityMaxZscore, k.AsDict()));
  }

  lemma EmptiesTold(points: seq<Point>, job: Job, v: Aggregation.View, g: Reservoir.Groups, r: Report, workload: nat,
                    k: Reservoir.QualityKey)
    requires IsFlush(points, job, v, g, r, workload)
    ensures ValuesAt(points, (QualityEmptyCompletions, k.AsDict())) ==
            if k in g.empty then [Number(g.empty[k] as real)] else []
  {
    var n := if k in g.empty then g.empty[k] else 0;
    var p := Emission.Count(QualityEmptyCompletions, k.AsDict(), n);
    assert k in g.empty ==> FromEmpties(g, p);
    forall q | q in points && SeriesOf(q) == SeriesOf(p) ensures k in g.empty {
      EmptyOf(points, job, v, g, r, workload, q, k);
    }
    PointSays(points, (QualityEmptyCompletions, k.AsDict()), k in g.empty, p, n as real);
  }

  // What a flush says of one group: nothing for one without lengths; otherwise the score of a sample of
  // its lengths, which is all of them up to the cap; and its empty completions.
  ghost predicate TellsGroup(points: seq<Point>, k: Reservoir.QualityKey, lengths: seq<nat>, empties: nat, cap: nat,
                             rule: GroupRule) {
    && (if lengths == []
        then ValuesAt(points, (QualityAnomalies, k.AsDict())) == ValuesAt(points, (QualityMaxZscore, k.AsDict())) == []
        else exists bucket :: ScoresSample(points, k, bucket, lengths, cap, rule))
    && ValuesAt(points, (QualityEmptyCompletions, k.AsDict())) == When(empties > 0, empties as real)
  }

  ghost predicate ScoresSample(points: seq<Point>, k: Reservoir.QualityKey, bucket: seq<nat>, lengths: seq<nat>,
                               cap: nat, rule: GroupRule) {
    && Reservoir.Sampled(bucket, lengths, cap) && (|lengths| <= cap ==> bucket == lengths)
    && rule(bucket).Some? && SaysScore(points, k, rule(bucket).value)
  }

  lemma GroupTold(points: seq<Point>, job: Job, v: Aggregation.View, g: Reservoir.Groups, r: Report, workload: nat,
                  xs: seq<Observation>, k: Reservoir.QualityKey)
    requires IsFlush(points, job, v, g, r, workload) && !Telemetry.Raises(g, job.rule)
    requires Reservoir.Reflects(g, xs, job.keyOf, job.sampleCap)
    ensures TellsGroup(points, k, Reservoir.Lengths(xs, job.keyOf, k), Reservoir.Empties(xs, job.keyOf, k),
                       job.sampleCap, job.rule)
  {
    var lengths := Reservoir.Lengths(xs, job.keyOf, k);
    assert Reservoir.ReflectsAt(g, xs, job.keyOf, job.sampleCap, k);
    if k in g.buckets {
      var bucket := g.buckets[k];
      Reservoir.SampledSize(bucket, lengths, job.sampleCap);
      assert job.rule(bucket).Some?;
      AnomaliesTold(points, job, v, g, r, workload, k, job.rule(bucket).value);
      MaximumTold(points, job, v, g, r, workload, k, job.rule(bucket).value);
      assert ScoresSample(points, k, bucket, lengths, job.sampleCap, job.rule);
    } else {
      NoneTold(points, job, v, g, r, workload, k);
    }
    EmptiesTold(points, job, v, g, r, workload, k);
  }

  lemma GroupsTold<R>(job: Job, raws: seq<R>, parse: R -> Outcome, prior: set<Id>, cutoff: Option<int>, r: Report,
                      g: Reservoir.Groups, flush: Option<seq<Point>>, workload: nat, k: Reservoir.QualityKey)
    requires Observed(job, raws, parse, prior, cutoff, r, g, flush, workload) && flush.Some?
    ensures var kept := Processed(raws, parse, prior);
            TellsGroup(flush.value, k, Reservoir.Lengths(kept, job.keyOf, k), Reservoir.Empties(kept, job.keyOf, k),
                       job.sampleCap, job.rule)
  {
    var kept := Processed(raws, parse, prior);
    var v := Aggregation.Fold(kept, job.plan);
    assert IsFlush(flush.value, job, v, g, r, workload);
    GroupTold(flush.value, job, v, g, r, workload, kept, k);
  }

  // How the source groups.
  function KeyOf(obs: Observation, cfg: Normalization.Config): Reservoir.QualityKey {
    Reservoir.QualityKey(Normalization.RouteOf(obs, cfg),
                         if cfg.anomaly.routeModelGrouping then Some(Normalization.ModelFamilyOf(obs.providedModel))
                         else None)
  }

  lemma JobMeans(cfg: Normalization.Config, obs: Observation, lengths: seq<nat>)
    ensures JobOf(cfg).keyOf(obs) == KeyOf(obs, cfg) && JobOf(cfg).sampleCap == 50_000
    ensures JobOf(cfg).rule(lengths) ==
            Q.GroupScore(AsReals(lengths), cfg.anomaly.minSample, Q.ScorerOf(cfg.anomaly.threshold))
    ensures KeyOf(obs, cfg).AsDict()[Route] == Normalization.RouteOf(obs, cfg)
    ensures ModelFamily in KeyOf(obs, cfg).AsDict() <==> cfg.anomaly.routeModelGrouping
    ensures cfg.anomaly.routeModelGrouping ==>
              KeyOf(obs, cfg).AsDict()[ModelFamily] == Normalization.ModelFamilyOf(obs.providedModel)
  {
  }

  /* ---------- a configured run ---------- */

  lemma JobParts(cfg: Normalization.Config)
    ensures JobOf(cfg).plan == Aggregation.PlanOf(cfg) && JobOf(cfg).includeProvider == cfg.includeProviderRegion
  {
  }

  /** The flush of a configured run: every counter is the sum over the observations kept of what each adds
      from its own fields, and every distribution the histogram of their times. */
  lemma FlushCounts<R>(cfg: Normalization.Config, raws: seq<R>, parse: R -> Outcome, prior: set<Id>,
                       cutoff: Option<int>, r: Report, g: Reservoir.Groups, flush: Option<seq<Point>>, workload: nat,
                       s: SeriesId)
    requires Observed(JobOf(cfg), raws, parse, prior, cutoff, r, g, flush, workload) && flush.Some?
    ensures var kept, labels := Processed(raws, parse, prior), Counters.LabellingOf(cfg);
            && (s.0 in Readings.ACCUMULATED ==> ValueIn(flush.value, s) == Counters.Counted(kept, labels, s))
            && (s.0 == RequestDuration ==>
                  Readings.HistIn(flush.value, s)
                  == Counters.Histogram(cfg.buckets, Counters.LatenciesIn(kept, labels, s.1)))
            && (s.0 == RequestTtft ==>
                  Readings.HistIn(flush.value, s)
                  == Counters.Histogram(cfg.buckets, Counters.FirstTokensIn(kept, labels, s.1)))
  {
    JobIsGoverned(cfg);
    FlushShows(JobOf(cfg), raws, parse, prior, cutoff, r, g, flush, workload);
    JobParts(cfg);
    Counters.ShownIsCounted(flush.value, Processed(raws, parse, prior), cfg, s);
  }

  /** And its trust metrics count the kept observations that miss a cost or have an invalid one. */
  lemma FlushTellsGaps<R>(cfg: Normalization.Config, raws: seq<R>, parse: R -> Outcome, prior: set<Id>,
                          cutoff: Option<int>, r: Report, g: Reservoir.Groups, flush: Option<seq<Point>>, workload: nat)
    requires Observed(JobOf(cfg), raws, parse, prior, cutoff, r, g, flush, workload) && flush.Some?
    ensures var kept := Processed(raws, parse, prior);
            TellsCosts(flush.value, r.truncated, Counters.Having(kept, Counters.MISSES_COST),
                       Counters.Having(kept, Counters.COSTS_BADLY), workload)
  {
    FlushTells(JobOf(cfg), raws, parse, prior, cutoff, r, g, flush, workload);
    JobParts(cfg);
    Counters.GapsAre(Processed(raws, parse, prior), cfg);
  }

  /** And each quality group is scored, at the configured minimum sample and threshold, on a sample of at
      most 50,000 of the lengths kept in it, all of them up to that many. */
  lemma FlushScores<R>(cfg: Normalization.Config, raws: seq<R>, parse: R -> Outcome, prior: set<Id>,
                       cutoff: Option<int>, r: Report, g: Reservoir.Groups, flush: Option<seq<Point>>, workload: nat,
                       k: Reservoir.QualityKey)
    requires Observed(JobOf(cfg), raws, parse, prior, cutoff, r, g, flush, workload) && flush.Some?
    ensures var kept := Processed(raws, parse, prior);
            TellsGroup(flush.value, k, Reservoir.Lengths(kept, JobOf(cfg).keyOf, k),
                       Reservoir.Empties(kept, JobOf(cfg).keyOf, k), 50_000,
                       RuleOf(cfg.anomaly.minSample, cfg.anomaly.threshold))
  {
    GroupsTold(JobOf(cfg), raws, parse, prior, cutoff, r, g, flush, workload, k);
  }

  /* ---------- any number of runs ---------- */

  /** What a backend holds after any history of configured runs: every counter is the sum, over what the runs
      in scope sent, of what each observation adds from its own fields; and when the schedule is safe, over
      everything those runs read, each id once. */
  lemma BackendCounts(cfg: Normalization.Config, metrics: seq<Point>, h: Protocol.History, scope: Protocol.Scope,
                      s: SeriesId)
    requires Readings.Shows(metrics, EndToEnd.Total(h, Aggregation.PlanOf(cfg), scope), cfg.includeProviderRegion)
    requires s.0 in Readings.ACCUMULATED
    ensures ValueIn(metrics, s) == Counters.Counted(Protocol.Sent(h, scope), Counters.LabellingOf(cfg), s)
    ensures forall starts: map<Id, int> :: Protocol.Respectful(h, starts) && Protocol.Safe(h, scope) ==>
              ValueIn(metrics, s) == Counters.Counted(Dedup(Protocol.Read(h, scope)), Counters.LabellingOf(cfg), s)
  {
    EndToEnd.TotalIsFold(h, Aggregation.PlanOf(cfg), scope);
    Counters.CounterIsSum(Protocol.Sent(h, scope), cfg, s);
    forall starts: map<Id, int> | Protocol.Respectful(h, starts) && Protocol.Safe(h, scope)
      ensures Protocol.Sent(h, scope) == Dedup(Protocol.Read(h, scope))
    {
      Protocol.ExactlyOnce(h, starts, scope);
    }
  }
}
