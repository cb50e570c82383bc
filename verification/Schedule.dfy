/**
  The job as it is invoked again and again: each invocation plans its window from the stored
  watermark, runs, and leaves the checkpoint to the next.
 */
module Schedule {
  import opened Wrappers
  import opened Models
  import opened Idempotency
  import opened Protocol
  import opened Checkpoints
  import opened Streaming
  import opened Telemetry
  import opened Exporters
  import opened Pipeline
  import opened EndToEnd
  import A = Aggregation
  import Readings
  import Timestamps

  // One invocation: its options, and everything it meets outside.  `source` answers a query from a
  // given instant up to the window's end; `planFails` says that the load its window is planned from
  // raises.
  datatype Invocation<R> = Invocation(windowEnd: int, window: nat, overlap: int, maxRecords: Option<nat>,
                                      source: int -> Source<R>, sourceStats: SourceStats, planFails: bool,
                                      faults: Faults, duration: real)
  {
    function Settings(): Settings {
      Pipeline.Settings.Settings(Some(windowEnd), overlap, maxRecords)
    }
  }

  function PlannedFrom<R>(watermark: Option<int>, call: Invocation<R>): int {
    if watermark.Some? then watermark.value - call.overlap else call.windowEnd - call.window
  }

  // The source keeps to the window it is asked for, and an id keeps its start.
  ghost predicate AnswersAt<R>(call: Invocation<R>, from: int, parse: R -> Outcome, starts: map<Id, int>) {
    forall x :: x in Named(Taken(call.source(from), call.maxRecords), parse) ==>
      x.id in starts && starts[x.id] == x.start && from <= x.start < call.windowEnd
  }

  ghost predicate Answers<R(!new)>(call: Invocation<R>, parse: R -> Outcome, starts: map<Id, int>) {
    && Timestamps.InRange(call.windowEnd)
    && forall from :: AnswersAt(call, from, parse, starts)
  }

  // Window ends never go back and the overlap never grows.
  ghost predicate Ordered<R>(calls: seq<Invocation<R>>) {
    forall i, k :: 0 <= i < k < |calls| ==>
      calls[i].windowEnd <= calls[k].windowEnd && calls[k].overlap <= calls[i].overlap
  }

  // Run k of a history is what invocation k makes of the watermark it finds.  It commits only what it
  // has read to the end from a source that did not raise, and exported.
  ghost predicate CalledAt<R>(h: History, calls: seq<Invocation<R>>, parse: R -> Outcome, k: nat)
    requires k < |h| <= |calls|
  {
    var run, call := h[k], calls[k];
    && run.from == PlannedFrom(Watermark(h[..k]), call)
    && run.windowEnd == call.windowEnd && run.overlap == call.overlap
    && run.batch == Named(Taken(call.source(run.from), call.maxRecords), parse)
    && (run.committed ==>
          run.exported && !Truncates(call.source(run.from), call.maxRecords) && !call.source(run.from).fails)
  }

  ghost predicate Called<R>(h: History, calls: seq<Invocation<R>>, parse: R -> Outcome) {
    |h| <= |calls| && forall k :: 0 <= k < |h| ==> CalledAt(h, calls, parse, k)
  }

  // The points of the runs in scope, given what each run flushed.
  function PointsIn(h: History, flushes: seq<seq<Point>>, scope: Scope): seq<Point>
    requires |flushes| == |h|
  {
    if h == [] then []
    else
      var n := |h| - 1;
      PointsIn(Before(h), flushes[..n], scope) + if In(Last(h), scope) then flushes[n] else []
  }

  /* ---------- one more run ---------- */

  lemma {:induction false} NoCommitNoWatermark(h: History)
    requires Commits(h) == 0
    ensures Watermark(h) == None
  {
    if h != [] {
      NoCommitNoWatermark(Before(h));
    }
  }

  lemma CalledMore<R>(h: History, run: Run, calls: seq<Invocation<R>>, parse: R -> Outcome)
    requires Called(h, calls, parse) && |h| < |calls|
    requires run.from == PlannedFrom(Watermark(h), calls[|h|])
    requires run.windowEnd == calls[|h|].windowEnd && run.overlap == calls[|h|].overlap
    requires var source := calls[|h|].source(run.from);
             && run.batch == Named(Taken(source, calls[|h|].maxRecords), parse)
             && (run.committed ==> run.exported && !Truncates(source, calls[|h|].maxRecords) && !source.fails)
    ensures Called(h + [run], calls, parse)
  {
    var next := h + [run];
    forall k | 0 <= k < |next| ensures CalledAt(next, calls, parse, k) {
      if k < |h| {
        assert CalledAt(h, calls, parse, k);
        assert next[..k] == h[..k];
      } else {
        assert next[..k] == h;
      }
    }
  }

  lemma {:induction false} NamedHasIds<R(!new)>(raws: seq<R>, parse: R -> Outcome)
    requires Validates(parse)
    ensures forall x :: x in Named(raws, parse) ==> x.id != BLANK && x.start <= x.end
  {
    if raws != [] {
      NamedHasIds(raws[..|raws| - 1], parse);
    }
  }

  /** The windows of such a history resume at the watermark, and what they read keeps to them. */
  lemma CalledIsLawful<R(!new)>(h: History, calls: seq<Invocation<R>>, parse: R -> Outcome, starts: map<Id, int>)
    requires Called(h, calls, parse) && Validates(parse)
    requires forall i :: 0 <= i < |calls| ==> Answers(calls[i], parse, starts)
    ensures Resuming(h) && Respectful(h, starts)
    ensures Ordered(calls) ==> Monotone(h)
  {
    forall k | 0 <= k < |h| ensures Resumes(h[k], Watermark(h[..k])) {
      assert CalledAt(h, calls, parse, k);
    }
    forall k, x | 0 <= k < |h| && x in h[k].batch ensures Admissible(h[k], x, starts) {
      assert CalledAt(h, calls, parse, k);
      NamedHasIds(Taken(calls[k].source(h[k].from), calls[k].maxRecords), parse);
      assert Answers(calls[k], parse, starts) && AnswersAt(calls[k], h[k].from, parse, starts);
    }
    if Ordered(calls) {
      forall i, k | 0 <= i < k < |h| ensures h[i].windowEnd <= h[k].windowEnd && h[k].overlap <= h[i].overlap {
        assert CalledAt(h, calls, parse, i) && CalledAt(h, calls, parse, k);
      }
    }
  }

  // What the points of the runs in scope show once one more run is done.
  lemma ShownMore(h: History, flushes: seq<seq<Point>>, run: Run, flush: seq<Point>, job: Job, scope: Scope)
    requires |flushes| == |h|
    requires Readings.Shows(PointsIn(h, flushes, scope), Total(h, job.plan, scope), job.includeProvider)
    requires In(run, scope) ==> Readings.Shows(flush, A.Fold(NewIn(h + [run]), job.plan), job.includeProvider)
    ensures PointsIn(h + [run], flushes + [flush], scope)
            == PointsIn(h, flushes, scope) + if In(run, scope) then flush else []
    ensures Readings.Shows(PointsIn(h + [run], flushes + [flush], scope), Total(h + [run], job.plan, scope),
                           job.includeProvider)
  {
    Appended(h, run);
    assert (flushes + [flush])[..|h|] == flushes;
    var points := PointsIn(h, flushes, scope);
    if In(run, scope) {
      Readings.ShowsMore(points, Total(h, job.plan, scope), flush, A.Fold(NewIn(h + [run]), job.plan),
                         job.includeProvider);
    } else {
      assert points + [] == points;
    }
  }

  /* ---------- the invocations ---------- */

  // The window starts at the stored watermark minus the overlap, or a window's length before its end.
  method Plan<R>(store: DynamoDbCheckpointStore, call: Invocation<R>, ghost h: History) returns (from: int)
    requires Represents(store.table.item, h, store.codec)
    modifies store`version
    ensures from == PlannedFrom(Watermark(h), call)
  {
    NoWatermark(store.table.item, h, store.codec);
    var resume := store.Load();
    from := call.windowEnd - call.window;
    if resume.Some? && resume.value.watermark.Some? {
      from := resume.value.watermark.value - call.overlap;
    }
  }

  lemma NoWatermark(item: Option<Item>, h: History, codec: Codec)
    requires Represents(item, h, codec)
    ensures item.None? ==> Watermark(h) == None
  {
    if item.None? {
      NoCommitNoWatermark(h);
    }
  }

  // What the backend holds, and what the points of all runs and of the committed ones show.
  ghost predicate Tallied(metrics: seq<Point>, flushes: seq<seq<Point>>, h: History, job: Job) {
    && |flushes| == |h| && metrics == PointsIn(h, flushes, Delivered)
    && Readings.Shows(metrics, Total(h, job.plan, Delivered), job.includeProvider)
    && Readings.Shows(PointsIn(h, flushes, Saved), Total(h, job.plan, Saved), job.includeProvider)
  }

  lemma TalliedMore(metrics: seq<Point>, before: seq<Point>, flushes: seq<seq<Point>>, h: History, run: Run,
                    flush: Option<seq<Point>>, job: Job)
    requires Tallied(before, flushes, h, job) && Gains(metrics, before, h + [run], flush, job)
    ensures Tallied(metrics, flushes + [if flush.Some? then flush.value else []], h + [run], job)
  {
    Appended(h, run);
    var points := if flush.Some? then flush.value else [];
    ShownMore(h, flushes, run, points, job, Delivered);
    ShownMore(h, flushes, run, points, job, Saved);
    assert metrics == before + if In(run, Delivered) then points else [];
  }

  // An invocation with its window.
  method InvokePlanned<R(!new)>(call: Invocation<R>, from: int, parse: R -> Outcome, job: Job,
                                store: DynamoDbCheckpointStore, backend: Backend, ghost h: History,
                                ghost flushes: seq<seq<Point>>, ghost calls: seq<Invocation<R>>)
    returns (ghost next: History, ghost flushesNext: seq<seq<Point>>)
    requires ReadsBack(store.codec) && Printing(parse) && Governed(job) && Timestamps.InRange(call.windowEnd)
    requires |h| < |calls| && call == calls[|h|] && Called(h, calls, parse) && from == PlannedFrom(Watermark(h), call)
    requires Represents(store.table.item, h, store.codec) && Tallied(backend.metrics, flushes, h, job)
    modifies store, store.table, backend
    ensures |next| == |h| + 1 && Called(next, calls, parse)
    ensures Represents(store.table.item, next, store.codec) && Tallied(backend.metrics, flushesNext, next, job)
  {
    ghost var before := backend.metrics;
    var ending, flush;
    ending, flush, next := RunKeeps(call.source(from), call.sourceStats, parse, job, call.Settings(), store, backend,
                                    call.faults, call.duration, from, h);
    ghost var run := Last(next);
    assert next == h + [run];
    CalledMore(h, run, calls, parse);
    TalliedMore(backend.metrics, before, flushes, h, run, flush, job);
    flushesNext := flushes + [if flush.Some? then flush.value else []];
  }

  // One invocation.
  method Invoke<R(!new)>(call: Invocation<R>, parse: R -> Outcome, job: Job, store: DynamoDbCheckpointStore,
                         backend: Backend, ghost h: History, ghost flushes: seq<seq<Point>>,
                         ghost calls: seq<Invocation<R>>)
    returns (ghost next: History, ghost flushesNext: seq<seq<Point>>)
    requires ReadsBack(store.codec) && Printing(parse) && Governed(job) && Timestamps.InRange(call.windowEnd)
    requires |h| < |calls| && call == calls[|h|] && Called(h, calls, parse)
    requires Represents(store.table.item, h, store.codec) && Tallied(backend.metrics, flushes, h, job)
    modifies store, store.table, backend
    ensures |next| == |h| + 1 && Called(next, calls, parse)
    ensures Represents(store.table.item, next, store.codec) && Tallied(backend.metrics, flushesNext, next, job)
  {
    if call.planFails {
      next, flushesNext := Unplanned(call, parse, store, backend.metrics, job, h, flushes, calls);
    } else {
      var from := Plan(store, call, h);
      next, flushesNext := InvokePlanned(call, from, parse, job, store, backend, h, flushes, calls);
    }
  }

  // An invocation that ends before it has a window leaves everything as it was.
  lemma Unplanned<R(!new)>(call: Invocation<R>, parse: R -> Outcome, store: DynamoDbCheckpointStore,
                           metrics: seq<Point>, job: Job, h: History, flushes: seq<seq<Point>>,
                           calls: seq<Invocation<R>>)
    returns (next: History, flushesNext: seq<seq<Point>>)
    requires |h| < |calls| && call == calls[|h|] && Called(h, calls, parse)
    requires Represents(store.table.item, h, store.codec) && Tallied(metrics, flushes, h, job)
    ensures |next| == |h| + 1 && Called(next, calls, parse)
    ensures Represents(store.table.item, next, store.codec) && Tallied(metrics, flushesNext, next, job)
  {
    var from := PlannedFrom(Watermark(h), call);
    var run := Run(from, call.windowEnd, call.overlap, Named(Taken(call.source(from), call.maxRecords), parse), false,
                   false);
    next, flushesNext := h + [run], flushes + [[]];
    CalledMore(h, run, calls, parse);
    IdleKeeps(store.table.item, h, run, store.codec);
    Appended(h, run);
    TalliedMore(metrics, metrics, flushes, h, run, None, job);
  }

  /** Any number of invocations of the job, whatever the sources yield and whatever fails.  The stored
      item always stands for the history.  In every counter and distribution the points at the backend
      add up to one aggregation of what was delivered; the points of the committed runs add up to one
      batch aggregation of everything those runs read, each id counted once, when from one committed run
      to a later one window ends never go back and the overlap never grows; and so does the whole
      backend when every export was followed by a commit. */
  method RunAll<R(!new)>(calls: seq<Invocation<R>>, parse: R -> Outcome, job: Job, store: DynamoDbCheckpointStore,
                         backend: Backend, ghost starts: map<Id, int>)
    returns (ghost h: History, ghost flushes: seq<seq<Point>>)
    requires ReadsBack(store.codec) && Printing(parse) && Validates(parse) && Governed(job)
    requires forall i :: 0 <= i < |calls| ==> Answers(calls[i], parse, starts)
    requires store.table.item == None && backend.metrics == []
    modifies store, store.table, backend
    ensures |h| == |calls| == |flushes| && Called(h, calls, parse) && Represents(store.table.item, h, store.codec)
    ensures backend.metrics == PointsIn(h, flushes, Delivered)
    ensures Readings.Shows(backend.metrics, A.Fold(Sent(h, Delivered), job.plan), job.includeProvider)
    ensures Ordered(calls) ==> Monotone(h)
    ensures Monotone(h) ==>
              Readings.Shows(PointsIn(h, flushes, Saved), A.Fold(Dedup(Read(h, Saved)), job.plan), job.includeProvider)
    ensures Monotone(h) && Unacknowledged(h) == [] ==>
              Readings.Shows(backend.metrics, A.Fold(Dedup(Read(h, Saved)), job.plan), job.includeProvider)
    ensures Safe(h, Delivered) ==>
              Readings.Shows(backend.metrics, A.Fold(Dedup(Read(h, Delivered)), job.plan), job.includeProvider)
  {
    h, flushes := [], [];
    Readings.NothingShown(job.includeProvider);
    for i := 0 to |calls|
      invariant |h| == i && Called(h, calls, parse)
      invariant Represents(store.table.item, h, store.codec)
      invariant Tallied(backend.metrics, flushes, h, job)
    {
      assert Answers(calls[i], parse, starts);
      h, flushes := Invoke(calls[i], parse, job, store, backend, h, flushes, calls);
    }
    CalledIsLawful(h, calls, parse, starts);
    AllIsBatch(backend.metrics, flushes, h, starts, job);
  }

  lemma AllIsBatch(metrics: seq<Point>, flushes: seq<seq<Point>>, h: History, starts: map<Id, int>, job: Job)
    requires Resuming(h) && Respectful(h, starts) && Tallied(metrics, flushes, h, job)
    ensures Readings.Shows(metrics, A.Fold(Sent(h, Delivered), job.plan), job.includeProvider)
    ensures Monotone(h) ==>
              Readings.Shows(PointsIn(h, flushes, Saved), A.Fold(Dedup(Read(h, Saved)), job.plan), job.includeProvider)
    ensures Monotone(h) && Unacknowledged(h) == [] ==>
              Readings.Shows(metrics, A.Fold(Dedup(Read(h, Saved)), job.plan), job.includeProvider)
    ensures Safe(h, Delivered) ==>
              Readings.Shows(metrics, A.Fold(Dedup(Read(h, Delivered)), job.plan), job.includeProvider)
  {
    TotalIsFold(h, job.plan, Delivered);
    if Monotone(h) {
      ResumingIsSafe(h);
      SafeIsBatch(h, starts, job.plan, Saved);
      if Unacknowledged(h) == [] {
        AcknowledgedIsBatch(h, starts, job.plan);
      }
    }
    if Safe(h, Delivered) {
      SafeIsBatch(h, starts, job.plan, Delivered);
    }
  }

  /* ---------- truncation is a trap ---------- */

  lemma WatermarkStays(h: History, k: nat)
    requires k < |h| && !h[k].committed
    ensures Watermark(h[..k + 1]) == Watermark(h[..k]) && Seen(h[..k + 1]) == Seen(h[..k])
  {
    assert Before(h[..k + 1]) == h[..k] && Last(h[..k + 1]) == h[k];
  }

  // Invocation j asks as invocation k did, of a source that kept the records it had for that query.
  ghost predicate AsksAgain<R>(h: History, calls: seq<Invocation<R>>, k: nat, j: nat)
    requires k <= j < |h| <= |calls|
  {
    && calls[j].overlap == calls[k].overlap && calls[j].maxRecords == calls[k].maxRecords
    && calls[k].source(h[k].from).records <= calls[j].source(h[k].from).records
  }

  lemma TakenAgain<R>(a: Source<R>, b: Source<R>, maxRecords: Option<nat>)
    requires a.records <= b.records && Truncates(a, maxRecords)
    ensures Truncates(b, maxRecords) && Taken(a, maxRecords) == Taken(b, maxRecords)
  {
  }

  lemma TruncatedAgain<R>(h: History, calls: seq<Invocation<R>>, parse: R -> Outcome, k: nat, j: nat)
    requires Called(h, calls, parse) && k <= j < |h| && AsksAgain(h, calls, k, j)
    requires Watermark(h[..j]) == Watermark(h[..k]) && Watermark(h[..k]).Some?
    requires Truncates(calls[k].source(h[k].from), calls[k].maxRecords)
    ensures h[j].from == h[k].from && Truncates(calls[j].source(h[j].from), calls[j].maxRecords)
    ensures !h[j].committed && h[j].batch == h[k].batch
  {
    assert CalledAt(h, calls, parse, j) && CalledAt(h, calls, parse, k);
    TakenAgain(calls[k].source(h[k].from), calls[j].source(h[k].from), calls[k].maxRecords);
  }

  lemma NewInAt(h: History, k: nat)
    requires k < |h|
    ensures NewIn(h[..k + 1]) == Fresh(Dedup(h[k].batch), Seen(h[..k]).Keys)
  {
    assert Before(h[..k + 1]) == h[..k] && Last(h[..k + 1]) == h[k];
  }

  /** A window with more records than the limit is never left: the run that met it does not commit, so
      once there is a watermark the next window starts at the same instant and, as long as the source
      keeps its records, meets the limit again.  Every later run reads the same observations and takes
      the same of them for new. */
  lemma {:induction false} TruncationTrap<R>(h: History, calls: seq<Invocation<R>>, parse: R -> Outcome, k: nat, j: nat)
    requires Called(h, calls, parse) && k <= j < |h| && Watermark(h[..k]).Some?
    requires Truncates(calls[k].source(h[k].from), calls[k].maxRecords)
    requires forall i :: k <= i <= j ==> AsksAgain(h, calls, k, i)
    ensures h[j].from == h[k].from && Truncates(calls[j].source(h[j].from), calls[j].maxRecords) && !h[j].committed
    ensures h[j].batch == h[k].batch && NewIn(h[..j + 1]) == NewIn(h[..k + 1])
    ensures Watermark(h[..j + 1]) == Watermark(h[..k]) && Seen(h[..j + 1]) == Seen(h[..k])
  {
    if k < j {
      TruncationTrap(h, calls, parse, k, j - 1);
    }
    assert AsksAgain(h, calls, k, j);
    TruncatedAgain(h, calls, parse, k, j);
    WatermarkStays(h, j);
    NewInAt(h, j);
    NewInAt(h, k);
  }

  /** And what was new in it reaches the backend again with every such run that exports. */
  lemma TruncationDuplicates<R>(h: History, calls: seq<Invocation<R>>, parse: R -> Outcome, k: nat, j: nat)
    requires Called(h, calls, parse) && k < j < |h| && Watermark(h[..k]).Some?
    requires Truncates(calls[k].source(h[k].from), calls[k].maxRecords)
    requires forall i :: k <= i <= j ==> AsksAgain(h, calls, k, i)
    requires h[k].exported && h[j].exported && NewIn(h[..k + 1]) != []
    ensures !DistinctIds(Sent(h, Delivered))
  {
    TruncationTrap(h, calls, parse, k, j);
    SentTwice(h, k, j);
  }

  lemma {:induction false} SentPrefix(h: History, n: nat, scope: Scope)
    requires n <= |h|
    ensures Sent(h[..n], scope) <= Sent(h, scope)
  {
    if n < |h| {
      SentPrefix(Before(h), n, scope);
      assert Before(h)[..n] == h[..n];
    } else {
      assert h[..n] == h;
    }
  }

  lemma SentUpTo(h: History, k: nat, scope: Scope)
    requires k < |h| && In(h[k], scope)
    ensures Sent(h[..k + 1], scope) == Sent(h[..k], scope) + NewIn(h[..k + 1])
  {
    assert Before(h[..k + 1]) == h[..k] && Last(h[..k + 1]) == h[k];
  }

  lemma SentBefore(h: History, k: nat, j: nat, x: Observation)
    requires k < j <= |h| && h[k].exported && x in NewIn(h[..k + 1])
    ensures x in Sent(h[..j], Delivered)
  {
    SentUpTo(h, k, Delivered);
    SentPrefix(h[..j], k + 1, Delivered);
    assert h[..j][..k + 1] == h[..k + 1];
    InEither(Sent(h[..k], Delivered), NewIn(h[..k + 1]), Sent(h[..k + 1], Delivered), x);
    InLonger(Sent(h[..k + 1], Delivered), Sent(h[..j], Delivered), x);
  }

  lemma SentTwice(h: History, k: nat, j: nat)
    requires k < j < |h| && h[k].exported && h[j].exported
    requires NewIn(h[..j + 1]) == NewIn(h[..k + 1]) != []
    ensures !DistinctIds(Sent(h, Delivered))
  {
    var x := NewIn(h[..k + 1])[0];
    SentBefore(h, k, j, x);
    SentUpTo(h, j, Delivered);
    SentPrefix(h, j + 1, Delivered);
    TwiceIn(Sent(h[..j], Delivered), NewIn(h[..j + 1]), Sent(h, Delivered), x, x);
  }
}
