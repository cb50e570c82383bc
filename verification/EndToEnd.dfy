/**
  The pipeline against the protocol: every run keeps the stored item in step with the history of
  runs and sends what the protocol calls new, and over any history the accumulators of the runs add
  up to one batch aggregation.
 */
module EndToEnd {
  import opened Wrappers
  import opened Models
  import opened Idempotency
  import opened Protocol
  import opened Checkpoints
  import opened Streaming
  import opened Telemetry
  import opened Points
  import opened Exporters
  import opened Pipeline
  import Timestamps
  import A = Aggregation
  import C = Conservation
  import N = Normalization
  import Reservoir
  import Readings

  /* ---------- the stored item stands for the history ---------- */

  // The checkpoint that a history leaves behind, with the text of its ends.
  ghost predicate Represents(item: Option<Item>, h: History, codec: Codec) {
    && WellVersioned(item) && StoredVersion(item) == Commits(h)
    && Stands(PriorMap(item), Seen(h), codec)
    && Decoded(item, codec) == if item.None? then None else Some(Checkpoint(Watermark(h), PriorMap(item)))
  }

  lemma Appended(h: History, run: Run)
    ensures Last(h + [run]) == run && Before(h + [run]) == h
  {
  }

  lemma IdleKeeps(item: Option<Item>, h: History, run: Run, codec: Codec)
    requires Represents(item, h, codec) && !run.committed
    ensures Represents(item, h + [run], codec)
  {
    Appended(h, run);
  }

  lemma DecodedCommit(item: Option<Item>, windowEnd: int, xs: seq<Observation>, cutoff: int, codec: Codec)
    requires ReadsBack(codec) && Timestamps.InRange(windowEnd)
    ensures var next := Committed(item, windowEnd, xs, cutoff, codec);
            && next.seen == Pruned(PriorMap(item), RecentPairs(xs, cutoff), cutoff, codec)
            && next.version == StoredVersion(item) + 1
            && Decoded(Some(next), codec) == Some(Checkpoint(Some(windowEnd), next.seen))
  {
  }

  /** A commit keeps them in step: the run dropped exactly the ids the protocol knows, and the new
      item stands for the longer history. */
  lemma CommitKeeps(item: Option<Item>, h: History, run: Run, xs: seq<Observation>, codec: Codec)
    requires Represents(item, h, codec) && ReadsBack(codec) && run.committed && Timestamps.InRange(run.windowEnd)
    requires xs == Fresh(Dedup(run.batch), PriorMap(item).Keys) && Printable(xs)
    ensures xs == NewIn(h + [run])
    ensures Represents(Some(Committed(item, run.windowEnd, xs, run.Cutoff(), codec)), h + [run], codec)
  {
    Appended(h, run);
    assert PriorMap(item).Keys == Seen(h).Keys;
    PruneRefines(PriorMap(item), xs, run.Cutoff(), codec);
    DecodedCommit(item, run.windowEnd, xs, run.Cutoff(), codec);
  }

  // A parser whose observations can be written down.
  ghost predicate Printing<R(!new)>(parse: R -> Outcome) {
    forall raw :: parse(raw).Parsed? ==> Timestamps.InRange(parse(raw).obs.end)
  }

  lemma ParserPrints()
    ensures Printing(ParseObservation)
  {
  }

  lemma {:induction false} NamedPrintable<R(!new)>(raws: seq<R>, parse: R -> Outcome)
    requires Printing(parse)
    ensures Printable(Named(raws, parse))
  {
    if raws != [] {
      NamedPrintable(raws[..|raws| - 1], parse);
    }
  }

  lemma ProcessedPrintable<R(!new)>(raws: seq<R>, parse: R -> Outcome, prior: set<Id>)
    requires Printing(parse)
    ensures Printable(Processed(raws, parse, prior))
  {
    NamedPrintable(raws, parse);
    DedupSubset(Named(raws, parse));
    FreshMembers(Dedup(Named(raws, parse)), prior);
  }

  // The run that a history gains.
  function Recorded<R>(source: Source<R>, parse: R -> Outcome, settings: Settings, from: int, reached: bool,
                       stored: bool): Run
    requires settings.windowEnd.Some?
  {
    Run(from, settings.windowEnd.value, settings.overlap, Named(Taken(source, settings.maxRecords), parse), reached,
        stored)
  }

  // The item after a run.
  function NextItem(item: Option<Item>, run: Run, xs: seq<Observation>, codec: Codec): Option<Item> {
    if run.committed then Some(Committed(item, run.windowEnd, xs, run.Cutoff(), codec)) else item
  }

  lemma StepKeeps(item: Option<Item>, h: History, run: Run, xs: seq<Observation>, codec: Codec)
    requires Represents(item, h, codec) && ReadsBack(codec) && Timestamps.InRange(run.windowEnd)
    requires xs == Fresh(Dedup(run.batch), PriorMap(item).Keys) && Printable(xs)
    ensures xs == NewIn(h + [run])
    ensures Represents(NextItem(item, run, xs, codec), h + [run], codec)
  {
    if run.committed {
      CommitKeeps(item, h, run, xs, codec);
    } else {
      IdleKeeps(item, h, run, codec);
      Appended(h, run);
      assert PriorMap(item).Keys == Seen(h).Keys;
    }
  }

  lemma ItemKeeps<R(!new)>(item: Option<Item>, h: History, run: Run, raws: seq<R>, parse: R -> Outcome, codec: Codec)
    requires Represents(item, h, codec) && ReadsBack(codec) && Timestamps.InRange(run.windowEnd)
    requires run.batch == Named(raws, parse) && Printing(parse)
    ensures var xs := Processed(raws, parse, PriorMap(item).Keys);
            xs == NewIn(h + [run]) && Represents(NextItem(item, run, xs, codec), h + [run], codec)
  {
    ProcessedPrintable(raws, parse, PriorMap(item).Keys);
    StepKeeps(item, h, run, Processed(raws, parse, PriorMap(item).Keys), codec);
  }

  lemma StoredKeeps<R(!new)>(item: Option<Item>, next: Option<Item>, h: History, source: Source<R>,
                             parse: R -> Outcome, settings: Settings, run: Run, codec: Codec)
    requires settings.windowEnd.Some? && Timestamps.InRange(settings.windowEnd.value) && Printing(parse)
    requires Represents(item, h, codec) && ReadsBack(codec)
    requires run == Recorded(source, parse, settings, run.from, run.exported, run.committed)
    requires next == if run.committed
                     then Some(Committed(item, settings.windowEnd.value,
                                         Processed(Taken(source, settings.maxRecords), parse, PriorMap(item).Keys),
                                         settings.Cutoff().value, codec))
                     else item
    ensures Processed(Taken(source, settings.maxRecords), parse, PriorMap(item).Keys) == NewIn(h + [run])
    ensures Represents(next, h + [run], codec)
  {
    var raws := Taken(source, settings.maxRecords);
    var xs := Processed(raws, parse, PriorMap(item).Keys);
    ItemKeeps(item, h, run, raws, parse, codec);
    assert run.windowEnd == settings.windowEnd.value && run.Cutoff() == settings.Cutoff().value;
    assert next == NextItem(item, run, xs, codec);
  }

  lemma FlushKeeps<R>(job: Job, raws: seq<R>, parse: R -> Outcome, prior: set<Id>, cutoff: Option<int>, r: Report,
                      groups: Reservoir.Groups, flush: Option<seq<Point>>, workload: nat)
    requires Governed(job) && Observed(job, raws, parse, prior, cutoff, r, groups, flush, workload)
    ensures flush.Some? ==> Accepted(GUARD, flush.value) && Once(flush.value)
    ensures flush.Some? ==>
              Readings.Shows(flush.value, A.Fold(Processed(raws, parse, prior), job.plan), job.includeProvider)
  {
    FlushAccepted(job, raws, parse, prior, cutoff, r, groups, flush, workload);
    if flush.Some? {
      FlushShows(job, raws, parse, prior, cutoff, r, groups, flush, workload);
    }
  }

  // What the backend gains by a run: nothing, or points that show exactly the new observations.
  ghost predicate Gains(metrics: seq<Point>, before: seq<Point>, next: History, flush: Option<seq<Point>>, job: Job) {
    && next != []
    && (if In(Last(next), Delivered)
        then flush.Some? && metrics == before + flush.value
             && Readings.Shows(flush.value, A.Fold(NewIn(next), job.plan), job.includeProvider)
        else metrics == before)
  }

  lemma GainsOf(metrics: seq<Point>, before: seq<Point>, h: History, run: Run, flush: Option<seq<Point>>, job: Job)
    requires run.committed ==> run.exported
    requires run.exported ==> flush.Some?
    requires metrics == if run.exported then before + flush.value else before
    requires flush.Some? ==> Readings.Shows(flush.value, A.Fold(NewIn(h + [run]), job.plan), job.includeProvider)
    ensures Gains(metrics, before, h + [run], flush, job)
  {
    Appended(h, run);
  }

  // A run of a job without rivals, with its store and backend.
  method RunAlone<R>(source: Source<R>, sourceStats: SourceStats, parse: R -> Outcome, job: Job, settings: Settings,
                     store: DynamoDbCheckpointStore, backend: Backend, faults: Faults, duration: real)
    returns (ending: Ending, r: Report, flush: Option<seq<Point>>, ghost groups: Reservoir.Groups,
             ghost workload: nat, ghost reached: bool, ghost stored: bool)
    requires settings.windowEnd.Some? && Governed(job) && WellVersioned(store.table.item)
    requires store.table.item.Some? ==> Decoded(store.table.item, store.codec).Some?
    modifies store, store.table, backend
    ensures !ending.LoadRaised? ==>
              Observed(job, Taken(source, settings.maxRecords), parse, PriorMap(old(store.table.item)).Keys,
                       settings.Cutoff(), r, groups, flush, workload)
    ensures ending.LoadRaised? ==> flush.None?
    ensures reached <==>
              flush.Some? && (source.fails ==> Truncates(source, settings.maxRecords)) && !faults.flush.Fails?
    ensures stored ==> reached && !Truncates(source, settings.maxRecords) && !source.fails
    ensures store.table.item ==
            if stored
            then Some(Committed(old(store.table.item), settings.windowEnd.value,
                                Processed(Taken(source, settings.maxRecords), parse,
                                          PriorMap(old(store.table.item)).Keys),
                                settings.Cutoff().value, store.codec))
            else old(store.table.item)
    ensures backend.metrics == old(backend.metrics) + if reached then flush.value else []
  {
    ending, r, flush, reached, stored, groups, workload :=
      Pipeline.Run(source, sourceStats, parse, job, settings, store, None, backend, faults, duration);
  }

  /** Every run keeps the stored item in step with the history, whatever the source yields and
      whatever fails; what it processes is exactly what the protocol calls new. */
  method RunStep<R(!new)>(source: Source<R>, sourceStats: SourceStats, parse: R -> Outcome, job: Job,
                          settings: Settings, store: DynamoDbCheckpointStore, backend: Backend, faults: Faults,
                          duration: real, from: int, ghost h: History)
    returns (ending: Ending, r: Report, flush: Option<seq<Point>>, ghost groups: Reservoir.Groups,
             ghost workload: nat, ghost run: Run)
    requires settings.windowEnd.Some? && Timestamps.InRange(settings.windowEnd.value)
    requires Represents(store.table.item, h, store.codec) && ReadsBack(store.codec)
    requires Printing(parse) && Governed(job)
    modifies store, store.table, backend
    ensures run == Recorded(source, parse, settings, from, run.exported, run.committed)
    ensures Represents(store.table.item, h + [run], store.codec)
    ensures var raws, prior := Taken(source, settings.maxRecords), PriorMap(old(store.table.item)).Keys;
            && Processed(raws, parse, prior) == NewIn(h + [run])
            && (!ending.LoadRaised? ==>
                  Observed(job, raws, parse, prior, settings.Cutoff(), r, groups, flush, workload))
    ensures ending.LoadRaised? ==> flush.None?
    ensures run.exported <==>
              flush.Some? && (source.fails ==> Truncates(source, settings.maxRecords)) && !faults.flush.Fails?
    ensures run.committed ==> run.exported && !Truncates(source, settings.maxRecords) && !source.fails
    ensures backend.metrics == old(backend.metrics) + if run.exported then flush.value else []
  {
    ghost var item, codec := store.table.item, store.codec;
    ghost var reached, stored;
    ending, r, flush, groups, workload, reached, stored :=
      RunAlone(source, sourceStats, parse, job, settings, store, backend, faults, duration);
    run := Recorded(source, parse, settings, from, reached, stored);
    StoredKeeps(item, store.table.item, h, source, parse, settings, run, codec);
  }

  /** And what it flushes touches no series twice, passes the schema guard and, if the run counts as
      exported, reaches the backend, where it adds to every counter and distribution what exactly the
      new observations amount to. */
  method RunKeeps<R(!new)>(source: Source<R>, sourceStats: SourceStats, parse: R -> Outcome, job: Job,
                           settings: Settings, store: DynamoDbCheckpointStore, backend: Backend, faults: Faults,
                           duration: real, from: int, ghost h: History)
    returns (ending: Ending, flush: Option<seq<Point>>, ghost next: History)
    requires settings.windowEnd.Some? && Timestamps.InRange(settings.windowEnd.value)
    requires Represents(store.table.item, h, store.codec) && ReadsBack(store.codec)
    requires Printing(parse) && Governed(job)
    modifies store, store.table, backend
    ensures |next| == |h| + 1 && Before(next) == h
    ensures Last(next) == Recorded(source, parse, settings, from, Last(next).exported, Last(next).committed)
    ensures Last(next).committed ==>
              Last(next).exported && !Truncates(source, settings.maxRecords) && !source.fails
    ensures Represents(store.table.item, next, store.codec)
    ensures flush.Some? ==> Accepted(GUARD, flush.value) && Once(flush.value)
    ensures Gains(backend.metrics, old(backend.metrics), next, flush, job)
  {
    ghost var prior := PriorMap(store.table.item).Keys;
    ghost var before := backend.metrics;
    var r;
    ghost var groups, workload, run;
    ending, r, flush, groups, workload, run :=
      RunStep(source, sourceStats, parse, job, settings, store, backend, faults, duration, from, h);
    next := h + [run];
    Appended(h, run);
    if flush.Some? {
      FlushKeeps(job, Taken(source, settings.maxRecords), parse, prior, settings.Cutoff(), r, groups, flush, workload);
    }
    GainsOf(backend.metrics, before, h, run, flush, job);
  }

  /* ---------- what a run reports is consistent ---------- */

  ghost predicate Validates<R(!new)>(parse: R -> Outcome) {
    forall raw :: parse(raw).Parsed? ==> parse(raw).obs.Valid()
  }

  ghost predicate Measures(plan: A.Plan) {
    forall obs: Observation :: obs.Valid() ==> C.Measured(plan.sample(obs))
  }

  lemma SourceValidates(cfg: N.Config)
    ensures Validates(ParseObservation) && Measures(A.PlanOf(cfg))
  {
    var plan := A.PlanOf(cfg);
    forall obs: Observation | obs.Valid() ensures C.Measured(plan.sample(obs)) {
      C.ValidIsMeasured(obs, cfg);
    }
  }

  lemma {:induction false} NamedValid<R(!new)>(raws: seq<R>, parse: R -> Outcome)
    requires Validates(parse)
    ensures forall x :: x in Named(raws, parse) ==> x.Valid()
  {
    if raws != [] {
      NamedValid(raws[..|raws| - 1], parse);
    }
  }

  /** For every stream and every run: read is the sum of what became of the records, and the families
      agree with the processed count and with each other, in total and series by series. */
  lemma RunConserves<R(!new)>(t: Tally, raws: seq<R>, parse: R -> Outcome, prior: set<Id>, cutoff: Option<int>,
                              plan: A.Plan)
    requires Accounts(t, raws, parse, prior, cutoff) && Validates(parse) && Measures(plan)
    ensures t.read == t.processed + MalformedTotal(t.malformed) + t.quarantined + t.duplicates + t.crossRun
    ensures var v := A.Fold(Processed(raws, parse, prior), plan);
            v.observations == t.processed && C.AllTotals(v) && C.Balanced(v)
  {
    Streaming.Conservation(t, raws, parse, prior, cutoff);
    var xs := Processed(raws, parse, prior);
    NamedValid(raws, parse);
    DedupSubset(Named(raws, parse));
    FreshMembers(Dedup(Named(raws, parse)), prior);
    C.FoldTotals(xs, plan);
    C.FoldBalanced(xs, plan);
  }

  /* ---------- sums over runs ---------- */

  // The pointwise sum of the accumulators of the runs in scope.
  function Total(h: History, plan: A.Plan, scope: Scope): A.View {
    if h == [] then A.NOTHING
    else
      var before := Total(Before(h), plan, scope);
      if In(Last(h), scope) then A.Merge(before, A.Fold(NewIn(h), plan)) else before
  }

  lemma {:induction false} TotalIsFold(h: History, plan: A.Plan, scope: Scope)
    ensures Total(h, plan, scope) == A.Fold(Sent(h, scope), plan)
  {
    if h != [] {
      TotalIsFold(Before(h), plan, scope);
      if In(Last(h), scope) {
        A.FoldConcat(Sent(Before(h), scope), NewIn(h), plan);
      } else {
        assert Sent(h, scope) == Sent(Before(h), scope);
      }
    }
  }

  /** The runs of a safe history, the committed ones or those that reached the backend, add up to one
      batch aggregation of everything they read, each id counted once. */
  lemma SafeIsBatch(h: History, starts: map<Id, int>, plan: A.Plan, scope: Scope)
    requires Respectful(h, starts) && Safe(h, scope)
    ensures Total(h, plan, scope) == A.Fold(Dedup(Read(h, scope)), plan)
  {
    TotalIsFold(h, plan, scope);
    ExactlyOnce(h, starts, scope);
  }

  /** When every run that exported something also committed, the backend holds the batch of the
      committed reads. */
  lemma AcknowledgedIsBatch(h: History, starts: map<Id, int>, plan: A.Plan)
    requires Respectful(h, starts) && Safe(h, Saved) && Unacknowledged(h) == []
    ensures Total(h, plan, Delivered) == Total(h, plan, Saved) == A.Fold(Dedup(Read(h, Saved)), plan)
  {
    TotalIsFold(h, plan, Delivered);
    TotalIsFold(h, plan, Saved);
    DeliveredSplits(h);
    A.FoldIgnoresOrder(Sent(h, Delivered), Sent(h, Saved), plan);
    SafeIsBatch(h, starts, plan, Saved);
  }

  /* ---------- aggregation of a set ---------- */

  ghost predicate Distinct(xs: seq<Observation>) {
    forall i, j :: 0 <= i < j < |xs| ==> xs[i] != xs[j]
  }

  // Each id names one observation.
  ghost predicate Faithful(xs: seq<Observation>) {
    forall x, y :: x in xs && y in xs && x.id == y.id ==> x == y
  }

  lemma {:induction false} DistinctOnce(xs: seq<Observation>, x: Observation)
    requires Distinct(xs)
    ensures multiset(xs)[x] == if x in xs then 1 else 0
  {
    if xs != [] {
      var front, last := xs[..|xs| - 1], xs[|xs| - 1];
      assert xs == front + [last];
      DistinctOnce(front, x);
      assert last !in front;
    }
  }

  lemma SameSetSameBag(xs: seq<Observation>, ys: seq<Observation>)
    requires Distinct(xs) && Distinct(ys) && forall x :: x in xs <==> x in ys
    ensures multiset(xs) == multiset(ys)
  {
    forall x: Observation ensures multiset(xs)[x] == multiset(ys)[x] {
      DistinctOnce(xs, x);
      DistinctOnce(ys, x);
    }
  }

  lemma DedupIsTheSet(xs: seq<Observation>)
    requires NoBlank(xs) && Faithful(xs)
    ensures Distinct(Dedup(xs)) && forall x :: x in Dedup(xs) <==> x in xs
  {
    DedupDistinct(xs);
    DedupSubset(xs);
    DedupKeepsIds(xs);
    forall x | x in xs ensures x in Dedup(xs) {
      assert x.id in Ids(Dedup(xs));
    }
  }

  /** When an id always names the same observation, the runs in scope add up to the aggregate of
      the set of observations they read, listed once each in any order. */
  lemma TotalIsAggregateOfSet(h: History, starts: map<Id, int>, plan: A.Plan, scope: Scope, distinct: seq<Observation>)
    requires Respectful(h, starts) && Safe(h, scope) && Faithful(Read(h, scope))
    requires Distinct(distinct) && forall x :: x in distinct <==> x in Read(h, scope)
    ensures Total(h, plan, scope) == A.Fold(distinct, plan)
  {
    var all := Read(h, scope);
    SafeIsBatch(h, starts, plan, scope);
    ReadHasNoBlank(h, starts, scope);
    DedupIsTheSet(all);
    SameSetSameBag(Dedup(all), distinct);
    A.FoldIgnoresOrder(Dedup(all), distinct, plan);
  }
}
