/**
  The points a run adds to the workload series: quality signals per baseline group, and the
  telemetry-trust metrics about the run itself.
 */
module Telemetry {
  import opened Wrappers
  import opened Governance
  import opened Emission
  import opened Points
  import opened Reservoir
  import opened Streaming
  import Q = Quality

  // The points whose condition holds, in order.
  function Chosen(candidates: seq<(bool, Point)>): seq<Point> {
    if candidates == [] then []
    else
      var front, last := Chosen(candidates[..|candidates| - 1]), candidates[|candidates| - 1];
      if last.0 then front + [last.1] else front
  }

  /* ---------- quality ---------- */

  // A per-window count of anomalies and the largest |z|; nothing for a cold start.
  function ScorePoints(key: QualityKey, g: Q.GroupResult): seq<Point> {
    if g.status == Q.ColdStart then []
    else
      [Count(QualityAnomalies, key.AsDict(), g.anomalyCount)]
      + if g.maxAbsZ.None? then []
        else [Point(QualityMaxZscore, Gauge, Unit.Score, key.AsDict(), Number(g.maxAbsZ.value))]
  }

  const QUALITY_METRICS: set<Metric> := {QualityAnomalies, QualityMaxZscore} + {QualityEmptyCompletions}

  function QkOf(dims: map<Dim, Label>): QualityKey {
    QualityKey(At(dims, Route), if ModelFamily in dims then Some(dims[ModelFamily]) else None)
  }

  lemma ScorePointsKey(key: QualityKey, g: Q.GroupResult)
    ensures Once(ScorePoints(key, g)) && Within(ScorePoints(key, g), {QualityAnomalies, QualityMaxZscore})
    ensures forall p :: p in ScorePoints(key, g) ==> QkOf(p.dims) == key
  {
  }

  function AsReals(lengths: seq<nat>): (xs: seq<real>)
    ensures |xs| == |lengths| && forall i :: 0 <= i < |xs| ==> xs[i] == lengths[i] as real
  {
    seq(|lengths|, i requires 0 <= i < |lengths| => lengths[i] as real)
  }

  // The score of a group; `None` where scoring raises.  `rule` is `GroupScore` at the configured
  // minimum sample and threshold.
  type GroupRule = seq<nat> -> Option<Q.GroupResult>

  function RuleOf(minSample: int, threshold: real): GroupRule {
    lengths => Q.GroupScore(AsReals(lengths), minSample, Q.ScorerOf(threshold))
  }

  // Scoring a window raises.
  ghost predicate Raises(g: Groups, rule: GroupRule) {
    exists k :: k in g.buckets && rule(g.buckets[k]).None?
  }

  /** Scoring a window raises exactly when a group has a single length and the minimum sample is at
      most one. */
  lemma RaisesIff(g: Groups, minSample: int, threshold: real)
    ensures Raises(g, RuleOf(minSample, threshold)) <==>
              minSample <= 1 && exists k :: k in g.buckets && |g.buckets[k]| == 1
  {
    forall k | k in g.buckets
      ensures RuleOf(minSample, threshold)(g.buckets[k]).None? <==> |g.buckets[k]| == 1 && minSample <= 1
    {
      Q.RaisesExactly(AsReals(g.buckets[k]), minSample, threshold);
    }
  }

  ghost predicate FromScores(g: Groups, rule: GroupRule, p: Point) {
    exists k :: k in g.buckets && rule(g.buckets[k]).Some? && p in ScorePoints(k, rule(g.buckets[k]).value)
  }

  ghost predicate FromEmpties(g: Groups, p: Point) {
    exists k :: k in g.empty && p == Count(QualityEmptyCompletions, k.AsDict(), g.empty[k])
  }

  method ScoreGroups(g: Groups, rule: GroupRule) returns (results: Option<map<QualityKey, Q.GroupResult>>)
    ensures results.None? <==> Raises(g, rule)
    ensures results.Some? ==>
              results.value.Keys == g.buckets.Keys &&
              forall k :: k in g.buckets ==> rule(g.buckets[k]) == Some(results.value[k])
  {
    var done: map<QualityKey, Q.GroupResult> := map[];
    var rest := g.buckets.Keys;
    while rest != {}
      invariant rest <= g.buckets.Keys && done.Keys == g.buckets.Keys - rest
      invariant forall k :: k in done ==> rule(g.buckets[k]) == Some(done[k])
      decreases rest
    {
      var k :| k in rest;
      var r := rule(g.buckets[k]);
      if r.None? {
        return None;
      }
      done := done[k := r.value];
      rest := rest - {k};
    }
    results := Some(done);
  }

  /** The quality points of a window, each series once, unless scoring raises. */
  method QualityPoints(g: Groups, rule: GroupRule) returns (points: Option<seq<Point>>)
    ensures points.None? <==> Raises(g, rule)
    ensures points.Some? ==> forall p :: p in points.value <==> FromScores(g, rule, p) || FromEmpties(g, p)
    ensures points.Some? ==> Once(points.value) && Within(points.value, QUALITY_METRICS)
  {
    var results := ScoreGroups(g, rule);
    if results.None? {
      return None;
    }
    var scores := ScoreFamily(results.value);
    var empties := EmptyFamily(g);
    OnceFamilies(scores, empties, {QualityAnomalies, QualityMaxZscore}, {QualityEmptyCompletions});
    points := Some(scores + empties);
  }

  method ScoreFamily(r: map<QualityKey, Q.GroupResult>) returns (points: seq<Point>)
    ensures forall p :: p in points <==> exists k :: k in r && p in ScorePoints(k, r[k])
    ensures Once(points) && Within(points, {QualityAnomalies, QualityMaxZscore})
  {
    forall k | k in r
      ensures Once(ScorePoints(k, r[k])) && Within(ScorePoints(k, r[k]), {QualityAnomalies, QualityMaxZscore})
      ensures forall p :: p in ScorePoints(k, r[k]) ==> QkOf(p.dims) == k
    {
      ScorePointsKey(k, r[k]);
    }
    points := PointsOf(r.Keys, k requires k in r => ScorePoints(k, r[k]), 2, (s: SeriesId) => QkOf(s.1));
  }

  method EmptyFamily(g: Groups) returns (points: seq<Point>)
    ensures forall p :: p in points <==> FromEmpties(g, p)
    ensures Once(points) && Within(points, {QualityEmptyCompletions})
  {
    points := OnePointEach(g.empty.Keys,
                           k requires k in g.empty => Count(QualityEmptyCompletions, k.AsDict(), g.empty[k]),
                           (s: SeriesId) => QkOf(s.1));
  }

  /* ---------- the run itself ---------- */

  // What a source exposes about its requests.
  datatype SourceStats = SourceStats(requests: nat, retries: nat, pages: nat, latency: real)

  function Plain(metric: Metric, n: int): Point {
    Count(metric, map[], n)
  }

  function PlainGauge(metric: Metric, unit: Unit, x: real): Point {
    Point(metric, Gauge, unit, map[], Number(x))
  }

  function VolumePoints(t: Tally, truncated: bool, missing: nat, invalid: nat): seq<(bool, Point)> {
    [(true, Plain(RecordsRead, t.read)), (true, Plain(RecordsProcessed, t.processed)),
     (t.crossRun > 0, Plain(CrossRunDuplicates, t.crossRun)),
     (t.quarantined > 0, Plain(QuarantinedRecords, t.quarantined)),
     (truncated, PlainGauge(ReadTruncated, One, 1.0)),
     (missing > 0, Plain(RecordsMissingCost, missing)), (invalid > 0, Plain(RecordsInvalidCost, invalid))]
  }

  function SourcePoints(s: SourceStats): seq<(bool, Point)> {
    [(s.requests > 0, Plain(SourceRequests, s.requests)), (s.retries > 0, Plain(SourceRetries, s.retries)),
     (s.pages > 0, Plain(Metric.SourcePages, s.pages)),
     (s.latency != 0.0, PlainGauge(SourceLatencySeconds, Seconds, s.latency))]
  }

  // Freshness of the data, and the skew of a latest end after the window's end.
  function FreshnessPoints(windowEnd: Option<int>, maxEnd: Option<int>): seq<(bool, Point)> {
    if windowEnd.None? || maxEnd.None? then []
    else
      var raw := (windowEnd.value - maxEnd.value) as real / 1_000_000.0;
      [(raw < 0.0, PlainGauge(ClockSkewSeconds, Seconds, -raw)),
       (true, PlainGauge(FreshnessSeconds, Seconds, if raw < 0.0 then 0.0 else raw))]
  }

  function SeriesPoint(workload: nat): seq<(bool, Point)> {
    [(true, PlainGauge(SeriesEmitted, One, workload as real))]
  }

  // What is flushed about the run, besides the workload and quality points.
  function RunPoints(t: Tally, truncated: bool, missing: nat, invalid: nat, source: SourceStats,
                     windowEnd: Option<int>, workload: nat): seq<Point> {
    Chosen(VolumePoints(t, truncated, missing, invalid)) + Chosen(SourcePoints(source))
    + Chosen(FreshnessPoints(windowEnd, t.maxEnd)) + Chosen(SeriesPoint(workload))
  }

  // The heartbeats after the flush and at the end.
  function HealthPoints(exportOk: bool, sourceOk: bool): seq<(bool, Point)> {
    [(true, PlainGauge(ExportSuccess, One, if exportOk then 1.0 else 0.0)),
     (!sourceOk, PlainGauge(SourceSuccess, One, 0.0))]
  }

  function FinalPoints(duration: real, conflict: bool): seq<(bool, Point)> {
    [(true, PlainGauge(RunDurationSeconds, Seconds, duration)), (conflict, Plain(CheckpointConflicts, 1))]
  }

  /* ---------- no series twice ---------- */

  const VOLUME_METRICS: set<Metric> := {RecordsRead, RecordsProcessed, CrossRunDuplicates, QuarantinedRecords,
                                        ReadTruncated, RecordsMissingCost, RecordsInvalidCost}
  const SOURCE_METRICS: set<Metric> := {SourceRequests, SourceRetries, Metric.SourcePages, SourceLatencySeconds}
  const FRESHNESS_METRICS: set<Metric> := {ClockSkewSeconds, FreshnessSeconds}
  const RUN_METRICS: set<Metric> := VOLUME_METRICS + SOURCE_METRICS + FRESHNESS_METRICS + {SeriesEmitted}

  // Candidates of pairwise different metrics.
  ghost predicate Varied(candidates: seq<(bool, Point)>, metrics: set<Metric>) {
    && (forall i :: 0 <= i < |candidates| ==> candidates[i].1.metric in metrics)
    && forall i, j :: 0 <= i < j < |candidates| ==> candidates[i].1.metric != candidates[j].1.metric
  }

  lemma {:induction false} ChosenOnce(candidates: seq<(bool, Point)>, metrics: set<Metric>)
    requires Varied(candidates, metrics)
    ensures Once(Chosen(candidates)) && Within(Chosen(candidates), metrics)
    ensures forall p :: p in Chosen(candidates) ==> exists i :: 0 <= i < |candidates| && candidates[i].1 == p
  {
    if candidates != [] {
      var n := |candidates| - 1;
      var front, last := candidates[..n], candidates[n];
      ChosenOnce(front, metrics);
      forall p | p in Chosen(front) ensures SeriesOf(p) != SeriesOf(last.1) {
        var i :| 0 <= i < n && front[i].1 == p;
        assert candidates[i].1 == p;
      }
      OnceConcat(Chosen(front), [last.1]);
      forall p | p in Chosen(candidates) ensures exists i :: 0 <= i < |candidates| && candidates[i].1 == p {
        if p in Chosen(front) {
          var i :| 0 <= i < n && front[i].1 == p;
          assert candidates[i].1 == p;
        } else {
          assert candidates[n].1 == p;
        }
      }
    }
  }

  /** Of a chosen list each candidate's series says its value or, where the condition fails, nothing. */
  lemma {:induction false} ChosenSays(candidates: seq<(bool, Point)>, metrics: set<Metric>, i: nat)
    requires Varied(candidates, metrics) && i < |candidates|
    ensures ValuesAt(Chosen(candidates), SeriesOf(candidates[i].1)) ==
            if candidates[i].0 then [candidates[i].1.value] else []
  {
    var n := |candidates| - 1;
    var front, last := candidates[..n], candidates[n];
    var s := SeriesOf(candidates[i].1);
    ValuesConcat(Chosen(front), [last.1], s);
    ValuesOfOne(last.1, s);
    if i < n {
      ChosenSays(front, metrics, i);
    } else {
      ChosenOnce(front, metrics);
      forall p | p in Chosen(front) ensures SeriesOf(p) != s {
        var j :| 0 <= j < n && front[j].1 == p;
        assert candidates[j].1 == p;
      }
      NoValues(Chosen(front), s);
    }
  }

  lemma ValuesOfOne(p: Point, s: SeriesId)
    ensures ValuesAt([p], s) == if SeriesOf(p) == s then [p.value] else []
  {
    assert [p][..0] == [];
  }

  /* ---------- what the heartbeats say ---------- */

  // Which of the two heartbeats of a run were delivered, and what they have to tell.
  datatype Beat = Beat(first: bool, exportOk: bool, sourceOk: bool, last: bool, duration: real, conflict: bool)

  // The export gauge and, only for a source that failed, the source gauge at the first; the duration and,
  // only for a conflict, its counter at the last.
  function Told(b: Beat, s: SeriesId): seq<Value> {
    if s == (ExportSuccess, map[]) then (if b.first then [Number(if b.exportOk then 1.0 else 0.0)] else [])
    else if s == (SourceSuccess, map[]) then (if b.first && !b.sourceOk then [Number(0.0)] else [])
    else if s == (RunDurationSeconds, map[]) then (if b.last then [Number(b.duration)] else [])
    else if s == (CheckpointConflicts, map[]) then (if b.last && b.conflict then [Number(1.0)] else [])
    else []
  }

  ghost predicate Tells(points: seq<Point>, b: Beat) {
    forall s: SeriesId :: ValuesAt(points, s) == Told(b, s)
  }

  // What a backend gained since it held only these.
  ghost predicate GainTells(points: seq<Point>, before: seq<Point>, b: Beat) {
    before <= points && Tells(points[|before|..], b)
  }

  lemma ChosenTwo(a: (bool, Point), b: (bool, Point))
    ensures Chosen([a, b]) == (if a.0 then [a.1] else []) + (if b.0 then [b.1] else [])
  {
    assert [a, b][..1] == [a] && [a][..0] == [];
    assert Chosen([a]) == if a.0 then [a.1] else [];
  }

  // What two candidates say of a series.
  lemma TwoSay(a: (bool, Point), b: (bool, Point), s: SeriesId)
    ensures ValuesAt(Chosen([a, b]), s) ==
            (if a.0 && SeriesOf(a.1) == s then [a.1.value] else [])
            + (if b.0 && SeriesOf(b.1) == s then [b.1.value] else [])
  {
    ChosenTwo(a, b);
    ValuesConcat(if a.0 then [a.1] else [], if b.0 then [b.1] else [], s);
    ValuesOfOne(a.1, s);
    ValuesOfOne(b.1, s);
  }

  lemma HealthSays(exportOk: bool, sourceOk: bool, s: SeriesId)
    ensures ValuesAt(Chosen(HealthPoints(exportOk, sourceOk)), s) ==
            if s == (ExportSuccess, map[]) then [Number(if exportOk then 1.0 else 0.0)]
            else if s == (SourceSuccess, map[]) && !sourceOk then [Number(0.0)]
            else []
  {
    var candidates := HealthPoints(exportOk, sourceOk);
    TwoSay(candidates[0], candidates[1], s);
    assert candidates == [candidates[0], candidates[1]];
  }

  lemma FinalSays(duration: real, conflict: bool, s: SeriesId)
    ensures ValuesAt(Chosen(FinalPoints(duration, conflict)), s) ==
            if s == (RunDurationSeconds, map[]) then [Number(duration)]
            else if s == (CheckpointConflicts, map[]) && conflict then [Number(1.0)]
            else []
  {
    var candidates := FinalPoints(duration, conflict);
    TwoSay(candidates[0], candidates[1], s);
    assert candidates == [candidates[0], candidates[1]];
  }

  // The heartbeats of a run, each delivered or not.
  function BeatPoints(b: Beat): seq<Point> {
    (if b.first then Chosen(HealthPoints(b.exportOk, b.sourceOk)) else [])
    + (if b.last then Chosen(FinalPoints(b.duration, b.conflict)) else [])
  }

  lemma OneBeat(b: Beat)
    ensures !b.last ==> BeatPoints(b) == if b.first then Chosen(HealthPoints(b.exportOk, b.sourceOk)) else []
    ensures !b.first ==> BeatPoints(b) == if b.last then Chosen(FinalPoints(b.duration, b.conflict)) else []
  {
  }

  lemma BeatSays(b: Beat, s: SeriesId)
    ensures ValuesAt(BeatPoints(b), s) == Told(b, s)
  {
    var first := if b.first then Chosen(HealthPoints(b.exportOk, b.sourceOk)) else [];
    var last := if b.last then Chosen(FinalPoints(b.duration, b.conflict)) else [];
    ValuesConcat(first, last, s);
    HealthSays(b.exportOk, b.sourceOk, s);
    FinalSays(b.duration, b.conflict, s);
  }

  /** The heartbeats of a run tell exactly that. */
  lemma BeatsTell(b: Beat, before: seq<Point>)
    ensures GainTells(before + BeatPoints(b), before, b)
  {
    forall s: SeriesId ensures ValuesAt(BeatPoints(b), s) == Told(b, s) {
      BeatSays(b, s);
    }
    assert (before + BeatPoints(b))[|before|..] == BeatPoints(b);
  }

  /* ---------- no series twice in a flush ---------- */

  lemma RunPartsOnce(t: Tally, truncated: bool, missing: nat, invalid: nat, source: SourceStats,
                     windowEnd: Option<int>, workload: nat)
    ensures Varied(VolumePoints(t, truncated, missing, invalid), VOLUME_METRICS)
    ensures Varied(SourcePoints(source), SOURCE_METRICS)
    ensures Varied(FreshnessPoints(windowEnd, t.maxEnd), FRESHNESS_METRICS)
    ensures Varied(SeriesPoint(workload), {SeriesEmitted})
  {
  }

  lemma RunFamilies(volume: seq<Point>, source: seq<Point>, freshness: seq<Point>, emitted: seq<Point>)
    requires Once(volume) && Within(volume, VOLUME_METRICS) && Once(source) && Within(source, SOURCE_METRICS)
    requires Once(freshness) && Within(freshness, FRESHNESS_METRICS)
    requires Once(emitted) && Within(emitted, {SeriesEmitted})
    ensures Once(volume + source + freshness + emitted) && Within(volume + source + freshness + emitted, RUN_METRICS)
  {
    OnceFamilies(volume, source, VOLUME_METRICS, SOURCE_METRICS);
    OnceFamilies(volume + source, freshness, VOLUME_METRICS + SOURCE_METRICS, FRESHNESS_METRICS);
    OnceFamilies(volume + source + freshness, emitted, VOLUME_METRICS + SOURCE_METRICS + FRESHNESS_METRICS,
                 {SeriesEmitted});
  }

  lemma RunPointsOnce(t: Tally, truncated: bool, missing: nat, invalid: nat, source: SourceStats,
                      windowEnd: Option<int>, workload: nat)
    ensures var points := RunPoints(t, truncated, missing, invalid, source, windowEnd, workload);
            Once(points) && Within(points, RUN_METRICS)
  {
    RunPartsOnce(t, truncated, missing, invalid, source, windowEnd, workload);
    ChosenOnce(VolumePoints(t, truncated, missing, invalid), VOLUME_METRICS);
    ChosenOnce(SourcePoints(source), SOURCE_METRICS);
    ChosenOnce(FreshnessPoints(windowEnd, t.maxEnd), FRESHNESS_METRICS);
    ChosenOnce(SeriesPoint(workload), {SeriesEmitted});
    RunFamilies(Chosen(VolumePoints(t, truncated, missing, invalid)), Chosen(SourcePoints(source)),
                Chosen(FreshnessPoints(windowEnd, t.maxEnd)), Chosen(SeriesPoint(workload)));
  }

  // The families of a flush: workload, trust, quality, run.
  function FamilyOf(m: Metric): nat {
    match m
    case MalformedRecords | DuplicateRecords | UnknownDimension => 1
    case QualityAnomalies | QualityMaxZscore | QualityEmptyCompletions => 2
    case RecordsRead | RecordsProcessed | CrossRunDuplicates | QuarantinedRecords | ReadTruncated
       | RecordsMissingCost | RecordsInvalidCost | SourceRequests | SourceRetries | SourcePages
       | SourceLatencySeconds | ClockSkewSeconds | FreshnessSeconds | SeriesEmitted => 3
    case _ => 0
  }

  ghost predicate OfFamily(points: seq<Point>, k: nat) {
    forall p :: p in points ==> FamilyOf(p.metric) == k
  }

  lemma WorkloadFamily(points: seq<Point>)
    requires Within(points, WORKLOAD_METRICS)
    ensures OfFamily(points, 0)
  {
    forall p | p in points ensures FamilyOf(p.metric) == 0 {
      assert p.metric in WORKLOAD_METRICS;
    }
  }

  lemma SmallFamilies(trust: seq<Point>, quality: seq<Point>)
    requires Within(trust, TRUST_METRICS) && Within(quality, QUALITY_METRICS)
    ensures OfFamily(trust, 1) && OfFamily(quality, 2)
  {
  }

  lemma VolumeMetric(m: Metric)
    ensures m in VOLUME_METRICS ==> FamilyOf(m) == 3
  {
  }

  lemma OtherRunMetric(m: Metric)
    ensures m in SOURCE_METRICS || m in FRESHNESS_METRICS || m == SeriesEmitted ==> FamilyOf(m) == 3
  {
  }

  lemma RunFamily(points: seq<Point>)
    requires Within(points, RUN_METRICS)
    ensures OfFamily(points, 3)
  {
    forall p | p in points ensures FamilyOf(p.metric) == 3 {
      var m := p.metric;
      assert m in VOLUME_METRICS || m in SOURCE_METRICS || m in FRESHNESS_METRICS || m == SeriesEmitted;
      VolumeMetric(m);
      OtherRunMetric(m);
    }
  }

  lemma FamilyDisjoint(a: seq<Point>, b: seq<Point>, k: nat, n: nat)
    requires OfFamily(a, k) && OfFamily(b, n) && k != n
    ensures Disjoint(a, b)
  {
  }

  lemma FourFamilies(a: seq<Point>, b: seq<Point>, c: seq<Point>, d: seq<Point>)
    requires Once(a) && Once(b) && Once(c) && Once(d)
    requires Disjoint(a, b) && Disjoint(a, c) && Disjoint(a, d) && Disjoint(b, c) && Disjoint(b, d) && Disjoint(c, d)
    ensures Once(a + b + c + d)
  {
    OnceConcat(a, b);
    OnceConcat(a + b, c);
    OnceConcat(a + b + c, d);
  }

  /** Of the points of a flush no two belong to the same series. */
  lemma FlushOnce(workload: seq<Point>, trust: seq<Point>, quality: seq<Point>, run: seq<Point>)
    requires Once(workload) && Within(workload, WORKLOAD_METRICS) && Once(trust) && Within(trust, TRUST_METRICS)
    requires Once(quality) && Within(quality, QUALITY_METRICS) && Once(run) && Within(run, RUN_METRICS)
    ensures Once(workload + trust + quality + run)
  {
    WorkloadFamily(workload);
    SmallFamilies(trust, quality);
    RunFamily(run);
    FamilyDisjoint(workload, trust, 0, 1);
    FamilyDisjoint(workload, quality, 0, 2);
    FamilyDisjoint(workload, run, 0, 3);
    FamilyDisjoint(trust, quality, 1, 2);
    FamilyDisjoint(trust, run, 1, 3);
    FamilyDisjoint(quality, run, 2, 3);
    FourFamilies(workload, trust, quality, run);
  }

  // A list that begins with its workload points, as a flush does.
  ghost predicate Parts(points: seq<Point>, first: seq<Point>, rest: seq<Point>) {
    points == first + rest && OfFamily(first, 0) && forall p :: p in rest ==> FamilyOf(p.metric) != 0
  }

  lemma WorkloadFirst(workload: seq<Point>, trust: seq<Point>, quality: seq<Point>, run: seq<Point>)
    requires Within(workload, WORKLOAD_METRICS) && Within(trust, TRUST_METRICS)
    requires Within(quality, QUALITY_METRICS) && Within(run, RUN_METRICS)
    ensures Parts(workload + trust + quality + run, workload, trust + quality + run)
  {
    WorkloadFamily(workload);
    SmallFamilies(trust, quality);
    RunFamily(run);
    assert workload + trust + quality + run == workload + (trust + quality + run);
  }

  lemma WorkloadMetric(m: Metric)
    ensures m in WORKLOAD_METRICS ==> FamilyOf(m) == 0
  {
  }

  /* ---------- all of them pass the guard ---------- */

  lemma QualityPointAllowed(k: QualityKey, p: Point)
    requires k.Governed() && p.dims == k.AsDict()
    requires Registry(p.metric).Some? && Registry(p.metric).value == Definition(p.kind, p.unit, QUALITY)
    ensures Allowed(p)
  {
  }

  lemma QualityAllowed(g: Groups, rule: GroupRule, p: Point)
    requires forall k :: k in g.buckets || k in g.empty ==> k.Governed()
    requires FromScores(g, rule, p) || FromEmpties(g, p)
    ensures Allowed(p)
  {
    if FromScores(g, rule, p) {
      var k :| k in g.buckets && rule(g.buckets[k]).Some? && p in ScorePoints(k, rule(g.buckets[k]).value);
      QualityPointAllowed(k, p);
    } else {
      var k :| k in g.empty && p == Count(QualityEmptyCompletions, k.AsDict(), g.empty[k]);
      QualityPointAllowed(k, p);
    }
  }

  // A guard that accepts every point of a registered metric without dimensions.
  ghost predicate AcceptsPlain(guard: Point -> bool) {
    && (forall m, n :: Registry(m) == Some(Definition(Counter, One, {})) ==> guard(Plain(m, n)))
    && (forall m, u, x :: Registry(m) == Some(Definition(Gauge, u, {})) ==> guard(PlainGauge(m, u, x)))
  }

  ghost predicate Accepted(guard: Point -> bool, points: seq<Point>) {
    forall p :: p in points ==> guard(p)
  }

  lemma {:induction false} ChosenAccepted(guard: Point -> bool, candidates: seq<(bool, Point)>)
    requires forall i :: 0 <= i < |candidates| ==> guard(candidates[i].1)
    ensures Accepted(guard, Chosen(candidates))
  {
    if candidates != [] {
      ChosenAccepted(guard, candidates[..|candidates| - 1]);
    }
  }

  lemma VolumeAccepted(guard: Point -> bool, t: Tally, truncated: bool, missing: nat, invalid: nat)
    requires AcceptsPlain(guard)
    ensures Accepted(guard, Chosen(VolumePoints(t, truncated, missing, invalid)))
  {
    ChosenAccepted(guard, VolumePoints(t, truncated, missing, invalid));
  }

  lemma SourceAccepted(guard: Point -> bool, s: SourceStats)
    requires AcceptsPlain(guard)
    ensures Accepted(guard, Chosen(SourcePoints(s)))
  {
    ChosenAccepted(guard, SourcePoints(s));
  }

  lemma FreshnessAccepted(guard: Point -> bool, windowEnd: Option<int>, maxEnd: Option<int>)
    requires AcceptsPlain(guard)
    ensures Accepted(guard, Chosen(FreshnessPoints(windowEnd, maxEnd)))
  {
    ChosenAccepted(guard, FreshnessPoints(windowEnd, maxEnd));
  }

  lemma SeriesAccepted(guard: Point -> bool, workload: nat)
    requires AcceptsPlain(guard)
    ensures Accepted(guard, Chosen(SeriesPoint(workload)))
  {
    ChosenAccepted(guard, SeriesPoint(workload));
  }

  lemma ConcatAccepted(guard: Point -> bool, a: seq<Point>, b: seq<Point>, c: seq<Point>, d: seq<Point>)
    requires Accepted(guard, a) && Accepted(guard, b) && Accepted(guard, c) && Accepted(guard, d)
    ensures Accepted(guard, a + b + c + d)
  {
  }

  lemma RunAccepted(guard: Point -> bool, t: Tally, truncated: bool, missing: nat, invalid: nat, source: SourceStats,
                    windowEnd: Option<int>, workload: nat)
    requires AcceptsPlain(guard)
    ensures Accepted(guard, RunPoints(t, truncated, missing, invalid, source, windowEnd, workload))
  {
    VolumeAccepted(guard, t, truncated, missing, invalid);
    SourceAccepted(guard, source);
    FreshnessAccepted(guard, windowEnd, t.maxEnd);
    SeriesAccepted(guard, workload);
    ConcatAccepted(guard, Chosen(VolumePoints(t, truncated, missing, invalid)), Chosen(SourcePoints(source)),
                   Chosen(FreshnessPoints(windowEnd, t.maxEnd)), Chosen(SeriesPoint(workload)));
  }

  lemma HealthAccepted(guard: Point -> bool, exportOk: bool, sourceOk: bool, duration: real, conflict: bool)
    requires AcceptsPlain(guard)
    ensures Accepted(guard, Chosen(HealthPoints(exportOk, sourceOk)))
    ensures Accepted(guard, Chosen(FinalPoints(duration, conflict)))
  {
    ChosenAccepted(guard, HealthPoints(exportOk, sourceOk));
    ChosenAccepted(guard, FinalPoints(duration, conflict));
  }

  const GUARD: Point -> bool := p => Allowed(p)

  lemma PlainAllowed(m: Metric, n: int)
    requires Registry(m) == Some(Definition(Counter, One, {}))
    ensures Allowed(Plain(m, n))
  {
  }

  lemma PlainGaugeAllowed(m: Metric, u: Unit, x: real)
    requires Registry(m) == Some(Definition(Gauge, u, {}))
    ensures Allowed(PlainGauge(m, u, x))
  {
  }

  lemma GuardAcceptsPlain()
    ensures AcceptsPlain(GUARD)
  {
    forall m, n | Registry(m) == Some(Definition(Counter, One, {})) ensures GUARD(Plain(m, n)) {
      PlainAllowed(m, n);
    }
    forall m, u, x | Registry(m) == Some(Definition(Gauge, u, {})) ensures GUARD(PlainGauge(m, u, x)) {
      PlainGaugeAllowed(m, u, x);
    }
  }
}
