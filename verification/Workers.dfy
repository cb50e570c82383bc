/**
  Several workers on one checkpoint item, in any interleaving of their loads and saves.

  A worker loads the item twice: once to plan its window, and again when the run starts, which is
  when it remembers the version its save will be conditional on.  Neither load asks for a consistent
  read, so each may return any version the item ever had.  A run exports before it saves, so what a
  failed save exported stays exported.
 */
module Workers {
  import opened Wrappers
  import opened Models
  import opened Idempotency
  import opened Protocol
  import opened Deliveries

  // The shared item, with ends as instants; version 0 stands for an absent item.
  datatype Shared = Shared(version: nat, watermark: Option<int>, seen: map<Id, int>)

  datatype Window = Window(from: int, windowEnd: int, overlap: int)

  datatype Phase =
    | Idle
    | Planned(window: Window, plannedAt: nat)
    | Streaming(window: Window, plannedAt: nat, version: nat, prior: map<Id, int>)

  // `items` lists the item's versions, the current one last; `log` the runs whose save succeeded, and
  // `plans` the versions their windows came from; `exports` every export, and `backend` what they
  // delivered, in order.
  datatype State = State(items: seq<Shared>, phases: map<nat, Phase>, log: History, plans: seq<nat>,
                         exports: Trace, backend: seq<Observation>)

  // A load returns version `at`.  An abandoned run may have exported its batch before it failed.
  datatype Event =
    | Plan(worker: nat, at: nat, firstFrom: int, windowEnd: int, overlap: int)
    | Load(worker: nat, at: nat)
    | Save(worker: nat, batch: seq<Observation>)
    | Abandon(worker: nat, batch: seq<Observation>, exported: bool)

  const START: State := State([Shared(0, None, map[])], map[], [], [], [], [])

  function PhaseOf(s: State, worker: nat): Phase {
    if worker in s.phases then s.phases[worker] else Idle
  }

  // The run of a streaming worker.
  function RunOf(p: Phase, batch: seq<Observation>, saved: bool): Run
    requires p.Streaming?
  {
    Run(p.window.from, p.window.windowEnd, p.window.overlap, batch, true, saved)
  }

  // What it exports.
  function Exported(p: Phase, batch: seq<Observation>): seq<Observation>
    requires p.Streaming?
  {
    Fresh(Dedup(batch), p.prior.Keys)
  }

  // What it writes: the prune of the map it loaded, plus what it newly counted.
  function Written(p: Phase, batch: seq<Observation>): Shared
    requires p.Streaming?
  {
    var run := RunOf(p, batch, true);
    Shared(p.version + 1, Some(run.windowEnd), Kept(p.prior, run.Cutoff()) + Recent(Exported(p, batch), run.Cutoff()))
  }

  // An export, whatever comes of it.
  function Sending(s: State, p: Phase, batch: seq<Observation>, saved: bool): State
    requires p.Streaming?
  {
    s.(exports := s.exports + [Export(p.version, RunOf(p, batch, saved))], backend := s.backend + Exported(p, batch))
  }

  // The item and the log after a save that goes through.
  function Saving(s: State, p: Phase, batch: seq<Observation>): State
    requires p.Streaming?
  {
    s.(items := s.items + [Written(p, batch)], log := s.log + [RunOf(p, batch, true)], plans := s.plans + [p.plannedAt])
  }

  // The worker is done.
  function Stopped(s: State, w: nat): State {
    s.(phases := s.phases[w := Idle])
  }

  function Step(s: State, e: Event): State {
    var p := PhaseOf(s, e.worker);
    match e
    case Plan(w, at, firstFrom, windowEnd, overlap) =>
      if at >= |s.items| then s
      else
        var watermark := s.items[at].watermark;
        var from := if watermark.Some? then watermark.value - overlap else firstFrom;
        s.(phases := s.phases[w := Planned(Window(from, windowEnd, overlap), at)])
    case Load(w, at) =>
      if !p.Planned? || at >= |s.items| then s
      else s.(phases := s.phases[w := Streaming(p.window, p.plannedAt, at, s.items[at].seen)])
    case Save(w, batch) =>
      if !p.Streaming? then s
      else if p.version + 1 != |s.items| then Stopped(Sending(s, p, batch, false), w)
      else Stopped(Saving(Sending(s, p, batch, true), p, batch), w)
    case Abandon(w, batch, exported) =>
      if p.Streaming? && exported then Stopped(Sending(s, p, batch, false), w) else Stopped(s, w)
  }

  function After(events: seq<Event>): State {
    if events == [] then START else Step(After(events[..|events| - 1]), events[|events| - 1])
  }

  /* ---------- what every interleaving keeps ---------- */

  ghost predicate AllCommitted(h: History) {
    forall k :: 0 <= k < |h| ==> h[k].committed
  }

  // A worker remembers versions the item has had, and the map of the one it loaded.
  ghost predicate Remembers(p: Phase, log: History) {
    && (!p.Idle? ==> p.plannedAt <= |log| && PlannedFrom(p.window.from, p.window.overlap, p.plannedAt, log))
    && (p.Streaming? ==> p.version <= |log| && p.prior == Seen(log[..p.version]))
  }

  ghost predicate PlannedFrom(from: int, overlap: int, at: nat, log: History)
    requires at <= |log|
  {
    Watermark(log[..at]).Some? ==> from == Watermark(log[..at]).value - overlap
  }

  // The item after the first k saves.
  ghost predicate ItemAt(items: seq<Shared>, log: History, k: nat)
    requires k < |items| == |log| + 1
  {
    items[k] == Shared(k, Watermark(log[..k]), Seen(log[..k]))
  }

  ghost predicate ItemsInv(s: State) {
    && AllCommitted(s.log) && |s.items| == |s.log| + 1
    && forall k :: 0 <= k < |s.items| ==> ItemAt(s.items, s.log, k)
  }

  ghost predicate PhasesInv(s: State) {
    forall w :: w in s.phases ==> Remembers(s.phases[w], s.log)
  }

  ghost predicate PlanAt(s: State, k: nat)
    requires k < |s.log| && |s.plans| == |s.log|
  {
    s.plans[k] <= k && PlannedFrom(s.log[k].from, s.log[k].overlap, s.plans[k], s.log)
  }

  ghost predicate PlansInv(s: State) {
    |s.plans| == |s.log| && forall k :: 0 <= k < |s.log| ==> PlanAt(s, k)
  }

  // The exports are those of a lawful trace, and the backend holds what they deliver.
  ghost predicate BackendInv(s: State) {
    && Lawful(s.exports) && s.log == LogOf(s.exports) && s.backend == AllDelivered(s.exports, s.log)
  }

  ghost predicate Inv(s: State) {
    ItemsInv(s) && PhasesInv(s) && PlansInv(s) && BackendInv(s)
  }

  lemma WholeLog(log: History)
    ensures log[..|log|] == log
  {
  }

  lemma PlannedFromLonger(from: int, overlap: int, at: nat, log: History, run: Run)
    requires at <= |log| && PlannedFrom(from, overlap, at, log)
    ensures PlannedFrom(from, overlap, at, log + [run])
  {
    assert (log + [run])[..at] == log[..at];
  }

  lemma RemembersLonger(p: Phase, log: History, run: Run)
    requires Remembers(p, log)
    ensures Remembers(p, log + [run])
  {
    if p.Streaming? {
      assert (log + [run])[..p.version] == log[..p.version];
    }
    if !p.Idle? {
      PlannedFromLonger(p.window.from, p.window.overlap, p.plannedAt, log, run);
    }
  }

  // A save that goes through.
  ghost predicate Succeeds(s: State, e: Event) {
    e.Save? && PhaseOf(s, e.worker).Streaming? && PhaseOf(s, e.worker).version + 1 == |s.items|
  }

  // An export that is not saved.
  ghost predicate Loses(s: State, e: Event) {
    && (e.Save? || (e.Abandon? && e.exported)) && PhaseOf(s, e.worker).Streaming?
    && !Succeeds(s, e)
  }

  lemma CommitState(log: History, run: Run)
    requires run.committed
    ensures var xs := Fresh(Dedup(run.batch), Seen(log).Keys);
            && Seen(log + [run]) == Kept(Seen(log), run.Cutoff()) + Recent(xs, run.Cutoff())
            && Watermark(log + [run]) == Some(run.windowEnd) && Sent(log + [run], Saved) == Sent(log, Saved) + xs
  {
    assert Before(log + [run]) == log && Last(log + [run]) == run;
  }

  lemma ItemsMore(items: seq<Shared>, log: History, run: Run, next: Shared)
    requires |items| == |log| + 1 && forall k :: 0 <= k < |items| ==> ItemAt(items, log, k)
    requires next == Shared(|log| + 1, Watermark(log + [run]), Seen(log + [run]))
    ensures forall k :: 0 <= k < |items| + 1 ==> ItemAt(items + [next], log + [run], k)
  {
    forall k | 0 <= k < |items| + 1 ensures ItemAt(items + [next], log + [run], k) {
      if k < |items| {
        assert ItemAt(items, log, k);
        assert (log + [run])[..k] == log[..k];
      } else {
        WholeLog(log + [run]);
      }
    }
  }

  lemma WrittenItem(log: History, p: Phase, batch: seq<Observation>)
    requires p.Streaming? && p.version == |log| && p.prior == Seen(log)
    ensures Written(p, batch)
            == Shared(|log| + 1, Watermark(log + [RunOf(p, batch, true)]), Seen(log + [RunOf(p, batch, true)]))
  {
    var run := RunOf(p, batch, true);
    CommitState(log, run);
    assert Exported(p, batch) == Fresh(Dedup(run.batch), Seen(log).Keys);
  }

  lemma CurrentPrior(s: State, e: Event)
    requires ItemsInv(s) && PhasesInv(s) && Succeeds(s, e)
    ensures PhaseOf(s, e.worker).version == |s.log| && PhaseOf(s, e.worker).prior == Seen(s.log)
  {
    assert Remembers(PhaseOf(s, e.worker), s.log);
    WholeLog(s.log);
  }

  lemma ItemsStep(s: State, e: Event)
    requires ItemsInv(s) && PhasesInv(s)
    ensures ItemsInv(Step(s, e))
  {
    if Succeeds(s, e) {
      var p := PhaseOf(s, e.worker);
      CurrentPrior(s, e);
      WrittenItem(s.log, p, e.batch);
      ItemsMore(s.items, s.log, RunOf(p, e.batch, true), Written(p, e.batch));
    }
  }

  lemma PhasesStep(s: State, e: Event)
    requires ItemsInv(s) && PhasesInv(s)
    ensures PhasesInv(Step(s, e))
  {
    if Succeeds(s, e) {
      var run := RunOf(PhaseOf(s, e.worker), e.batch, true);
      forall v | v in s.phases ensures Remembers(s.phases[v], s.log + [run]) {
        RemembersLonger(s.phases[v], s.log, run);
      }
    } else if (e.Plan? || e.Load?) && e.at < |s.items| {
      assert ItemAt(s.items, s.log, e.at);
    }
  }

  lemma PlansStep(s: State, e: Event)
    requires ItemsInv(s) && PhasesInv(s) && PlansInv(s)
    ensures PlansInv(Step(s, e))
  {
    if Succeeds(s, e) {
      var p, s' := PhaseOf(s, e.worker), Step(s, e);
      var run := RunOf(p, e.batch, true);
      forall k | 0 <= k < |s'.log| ensures PlanAt(s', k) {
        if k < |s.log| {
          assert PlanAt(s, k);
          PlannedFromLonger(s.log[k].from, s.log[k].overlap, s.plans[k], s.log, run);
        } else {
          PlannedFromLonger(p.window.from, p.window.overlap, p.plannedAt, s.log, run);
        }
      }
    } else {
      forall k | 0 <= k < |s.log| ensures PlanAt(Step(s, e), k) {
        assert PlanAt(s, k);
      }
    }
  }

  lemma BackendMore(exports: Trace, log: History, e: Export)
    requires Lawful(exports) && log == LogOf(exports) && e.version <= |log| && (e.run.committed ==> e.version == |log|)
    ensures var longer := log + if e.run.committed then [e.run] else [];
            && Lawful(exports + [e]) && LogOf(exports + [e]) == longer
            && AllDelivered(exports + [e], longer)
               == AllDelivered(exports, log) + Fresh(Dedup(e.run.batch), Seen(log[..e.version]).Keys)
  {
    assert (exports + [e])[..|exports|] == exports;
    Behind(exports);
    AccountsMore(exports, e, log);
  }

  lemma BackendStep(s: State, e: Event)
    requires ItemsInv(s) && PhasesInv(s) && BackendInv(s)
    ensures BackendInv(Step(s, e))
  {
    if Succeeds(s, e) || Loses(s, e) {
      var p, saved := PhaseOf(s, e.worker), Succeeds(s, e);
      assert Remembers(p, s.log);
      BackendMore(s.exports, s.log, Export(p.version, RunOf(p, e.batch, saved)));
      assert s.log + [] == s.log;
    }
  }

  lemma StepKeepsInv(s: State, e: Event)
    requires Inv(s)
    ensures Inv(Step(s, e))
  {
    ItemsStep(s, e);
    PhasesStep(s, e);
    PlansStep(s, e);
    BackendStep(s, e);
  }

  /** In every interleaving of any number of workers, however stale their loads: the stored version is
      the number of successful saves, each version of the item holds the map and watermark of the
      protocol for the runs saved so far, no worker is ahead of it, and the backend holds exactly what
      the exports deliver, each against the version its worker had loaded.  No update is ever lost. */
  lemma {:induction false} AnyInterleaving(events: seq<Event>)
    ensures Inv(After(events))
  {
    if events != [] {
      AnyInterleaving(events[..|events| - 1]);
      StepKeepsInv(After(events[..|events| - 1]), events[|events| - 1]);
    }
  }

  /** The backend holds what the saved runs exported and what runs exported that then failed to save. */
  lemma BackendAccounts(events: seq<Event>)
    ensures var s := After(events);
            multiset(s.backend) == multiset(Sent(s.log, Saved)) + multiset(Lost(s.exports, s.log))
  {
    AnyInterleaving(events);
    DeliveriesSplit(After(events).exports);
  }

  /** A save succeeds if and only if the version its worker loaded is still the current one; otherwise
      it changes neither the item nor the log.  A successful save prunes the map of its immediate
      predecessor.  Either way the batch has been exported. */
  lemma SaveIffCurrent(events: seq<Event>, w: nat, batch: seq<Observation>)
    requires PhaseOf(After(events), w).Streaming?
    ensures var s, p := After(events), PhaseOf(After(events), w);
            var s' := Step(s, Save(w, batch));
            && p.version <= |s.log| && s'.backend == s.backend + Fresh(Dedup(batch), Seen(s.log[..p.version]).Keys)
            && (p.version == |s.log| <==> |s'.log| == |s.log| + 1)
            && (p.version < |s.log| ==> s'.log == s.log && s'.items == s.items)
            && (p.version == |s.log| ==>
                  && s'.log == s.log + [RunOf(p, batch, true)]
                  && s'.items == s.items + [Shared(|s'.log|, Some(p.window.windowEnd), Seen(s'.log))])
  {
    AnyInterleaving(events);
    var s := After(events);
    var s' := Step(s, Save(w, batch));
    assert Remembers(PhaseOf(s, w), s.log);
    ItemsStep(s, Save(w, batch));
    if PhaseOf(s, w).version == |s.log| {
      assert ItemAt(s'.items, s'.log, |s'.log|);
      WholeLog(s'.log);
      CommitState(s.log, RunOf(PhaseOf(s, w), batch, true));
    }
  }

  /** Two exports repeat what both could not know: every id that both read, and that neither of the
      versions they had loaded knows, is delivered by both.  So whoever loses a race has delivered what
      the winner delivered, for both had loaded the same version. */
  lemma LostRunsRepeat(events: seq<Event>, j: nat, k: nat, x: Observation, y: Observation)
    requires var s := After(events);
             && j < k < |s.exports| && x in s.exports[j].run.batch && y in s.exports[k].run.batch && x.id == y.id
             && x.id !in Known(s.log, s.exports[j].version) && x.id !in Known(s.log, s.exports[k].version)
    ensures var s := After(events);
            && x.id in Ids(Delivery(s.exports[j], s.log)) && x.id in Ids(Delivery(s.exports[k], s.log))
            && !DistinctIds(s.backend)
  {
    var s := After(events);
    AnyInterleaving(events);
    FreshIds(s.exports[j].run.batch, Known(s.log, s.exports[j].version), x);
    FreshIds(s.exports[k].run.batch, Known(s.log, s.exports[k].version), y);
    var a :| a in Delivery(s.exports[j], s.log) && a.id == x.id;
    var b :| b in Delivery(s.exports[k], s.log) && b.id == x.id;
    DeliveredTwice(s.exports, s.log, j, k, a, b);
  }

  lemma FreshIds(batch: seq<Observation>, known: set<Id>, x: Observation)
    requires x in batch && x.id !in known
    ensures x.id in Ids(Fresh(Dedup(batch), known))
  {
    DedupKeepsIds(batch);
    assert x.id in Ids(Dedup(batch));
    var y :| y in Dedup(batch) && y.id == x.id;
    FreshMembers(Dedup(batch), known);
    assert y in Fresh(Dedup(batch), known);
  }

  /* ---------- when nothing is delivered twice ---------- */

  // The same events with other batches.
  predicate SameEvent(e: Event, f: Event) {
    match e
    case Save(w, _) => f.Save? && f.worker == w
    case Abandon(w, _, exported) => f.Abandon? && f.worker == w && f.exported == exported
    case _ => f == e
  }

  ghost predicate SameSchedule(events: seq<Event>, others: seq<Event>) {
    |events| == |others| && forall i :: 0 <= i < |events| ==> SameEvent(events[i], others[i])
  }

  predicate SamePhase(p: Phase, q: Phase) {
    match p
    case Streaming(window, plannedAt, version, _) =>
      q.Streaming? && q.window == window && q.plannedAt == plannedAt && q.version == version
    case _ => q == p
  }

  // The states differ in observations only.
  ghost predicate Alike(s: State, r: State) {
    && |s.items| == |r.items|
    && (forall i :: 0 <= i < |s.items| ==> s.items[i].watermark == r.items[i].watermark)
    && (forall w :: SamePhase(PhaseOf(s, w), PhaseOf(r, w)))
    && SameShape(s.exports, r.exports)
  }

  lemma ShapeMore(t: Trace, u: Trace, e: Export, f: Export)
    requires SameShape(t, u) && SameExport(e, f)
    ensures SameShape(t + [e], u + [f])
  {
  }

  lemma OthersKeep(s: State, e: Event, w: nat)
    ensures w != e.worker ==> PhaseOf(Step(s, e), w) == PhaseOf(s, w)
  {
  }

  lemma StepAlike(s: State, r: State, e: Event, f: Event)
    requires Alike(s, r) && SameEvent(e, f)
    ensures Alike(Step(s, e), Step(r, f))
  {
    var p, q := PhaseOf(s, e.worker), PhaseOf(r, e.worker);
    assert SamePhase(p, q);
    forall w ensures SamePhase(PhaseOf(Step(s, e), w), PhaseOf(Step(r, f), w)) {
      assert SamePhase(PhaseOf(s, w), PhaseOf(r, w));
      OthersKeep(s, e, w);
      OthersKeep(r, f, w);
    }
    if Succeeds(s, e) || Loses(s, e) {
      var saved := Succeeds(s, e);
      ShapeMore(s.exports, r.exports, Export(p.version, RunOf(p, e.batch, saved)),
                Export(q.version, RunOf(q, f.batch, saved)));
    }
  }

  lemma {:induction false} ScheduleAlike(events: seq<Event>, others: seq<Event>)
    requires SameSchedule(events, others)
    ensures Alike(After(events), After(others))
  {
    if events != [] {
      var n := |events| - 1;
      ScheduleAlike(events[..n], others[..n]);
      assert SameEvent(events[n], others[n]);
      StepAlike(After(events[..n]), After(others[..n]), events[n], others[n]);
    }
  }

  // The event that exports another batch.
  function WithBatch(e: Event, batch: seq<Observation>): Event {
    match e
    case Save(w, _) => Save(w, batch)
    case Abandon(w, _, exported) => Abandon(w, batch, exported)
    case _ => e
  }

  lemma StepRealizes(s: State, r: State, e: Event, u: Trace)
    requires Alike(s, r) && SameShape(Step(s, e).exports, u)
    requires |s.exports| <= |u| && r.exports == u[..|s.exports|]
    ensures Step(r, WithBatch(e, if |u| > 0 then u[|u| - 1].run.batch else [])).exports == u
  {
    var p, q := PhaseOf(s, e.worker), PhaseOf(r, e.worker);
    assert SamePhase(p, q);
    if Succeeds(s, e) || Loses(s, e) {
      var n := |s.exports|;
      assert SameExport(Step(s, e).exports[n], u[n]);
      assert u == u[..n] + [u[n]];
    } else {
      assert u[..|u|] == u;
    }
  }

  /** Whatever observations the windows of an interleaving hold, the same interleaving of the same
      workers can read them. */
  lemma {:induction false} Realize(events: seq<Event>, u: Trace) returns (others: seq<Event>)
    requires SameShape(After(events).exports, u)
    ensures SameSchedule(events, others) && After(others).exports == u
  {
    if events == [] {
      others := [];
    } else {
      var front, last := events[..|events| - 1], events[|events| - 1];
      var n := |After(front).exports|;
      ExportsGrow(After(front), last);
      ShapeOfPrefix(After(events).exports, u, n);
      var before := Realize(front, u[..n]);
      ScheduleAlike(front, before);
      var f := WithBatch(last, if |u| > 0 then u[|u| - 1].run.batch else []);
      StepRealizes(After(front), After(before), last, u);
      others := before + [f];
      AfterSnoc(before, f);
      ScheduleMore(events, before, f);
    }
  }

  lemma ExportsGrow(s: State, e: Event)
    ensures s.exports <= Step(s, e).exports && |Step(s, e).exports| <= |s.exports| + 1
  {
  }

  lemma ShapeOfPrefix(t: Trace, u: Trace, n: nat)
    requires SameShape(t, u) && n <= |t|
    ensures SameShape(t[..n], u[..n])
  {
    forall k | 0 <= k < n ensures SameExport(t[..n][k], u[..n][k]) {
      assert SameExport(t[k], u[k]);
    }
  }

  lemma ScheduleMore(events: seq<Event>, before: seq<Event>, f: Event)
    requires events != [] && SameSchedule(events[..|events| - 1], before) && SameEvent(events[|events| - 1], f)
    ensures SameSchedule(events, before + [f])
  {
    forall i | 0 <= i < |events| ensures SameEvent(events[i], (before + [f])[i]) {
      if i < |events| - 1 {
        assert events[..|events| - 1][i] == events[i];
      }
    }
  }

  /** When workers deliver nothing twice: an interleaving keeps every stream of observations free of
      repeated ids at the backend if and only if, of two exports whose windows meet, the earlier was
      saved, the later had loaded a version after it, and no cutoff saved between those versions passes
      the start of both windows. */
  lemma NothingTwiceIff(events: seq<Event>)
    ensures Harmless(After(events).exports) <==>
            forall others, starts ::
              SameSchedule(events, others) && Truthful(After(others).exports, starts) ==>
                DistinctIds(After(others).backend)
  {
    var t := After(events).exports;
    AnyInterleaving(events);
    HarmlessIff(t);
    if Harmless(t) {
      forall others, starts | SameSchedule(events, others) && Truthful(After(others).exports, starts)
        ensures DistinctIds(After(others).backend)
      {
        ScheduleAlike(events, others);
        AnyInterleaving(others);
        assert SameShape(t, After(others).exports);
      }
    } else {
      var u, starts := HarmfulDeliversTwice(t);
      var others := Realize(events, u);
      AnyInterleaving(others);
    }
  }

  /* ---------- exactly once needs both loads to agree ---------- */

  // Every saved run planned its window from the version its save was conditional on.
  ghost predicate LoadsAgree(s: State) {
    forall k :: 0 <= k < |s.plans| ==> s.plans[k] == k
  }

  /** When no save comes between the two loads of a run that saves, its windows are those of a single
      resuming job; with window ends that never go back and overlaps that never grow, the schedule is
      safe for what is saved, and delivers nothing twice if every export was saved. */
  lemma AgreeingLoadsAreSafe(events: seq<Event>)
    requires LoadsAgree(After(events)) && Monotone(After(events).log)
    ensures var s := After(events);
            Safe(s.log, Saved) && (AllSaved(s.exports) ==> Harmless(s.exports))
  {
    var s := After(events);
    AnyInterleaving(events);
    forall k | 0 <= k < |s.log| && s.log[k].committed
      ensures Resumes(s.log[k], Watermark(s.log[..k]))
    {
      assert PlanAt(s, k) && s.plans[k] == k;
    }
    ResumingIsSafe(s.log);
    if AllSaved(s.exports) {
      SavedIsSafe(s.exports);
    }
  }

  lemma {:induction false} SavedLosesNothing(t: Trace, log: History)
    requires AllSaved(t)
    ensures Lost(t, log) == []
  {
    if t != [] {
      var n := |t| - 1;
      SavedLosesNothing(t[..n], log);
      assert t[n].run.committed;
    }
  }

  /** So everything such workers saved counts every id once, and so does the backend if every export
      was saved. */
  lemma AgreeingLoadsCountOnce(events: seq<Event>, starts: map<Id, int>)
    requires LoadsAgree(After(events)) && Monotone(After(events).log) && Respectful(After(events).log, starts)
    ensures var s := After(events);
            && Sent(s.log, Saved) == Dedup(Read(s.log, Saved))
            && (AllSaved(s.exports) ==> multiset(s.backend) == multiset(Dedup(Read(s.log, Saved))))
  {
    var s := After(events);
    AgreeingLoadsAreSafe(events);
    ExactlyOnce(s.log, starts, Saved);
    BackendAccounts(events);
    if AllSaved(s.exports) {
      SavedLosesNothing(s.exports, s.log);
    }
  }

  /* ---------- two interleavings ---------- */

  lemma AfterSnoc(events: seq<Event>, e: Event)
    ensures After(events + [e]) == Step(After(events), e)
  {
    assert (events + [e])[..|events|] == events;
  }

  lemma AfterThree(events: seq<Event>, one: Event, two: Event, three: Event)
    ensures After(events + [one, two, three]) == Step(Step(Step(After(events), one), two), three)
  {
    AfterSnoc(events, one);
    AfterSnoc(events + [one], two);
    AfterSnoc(events + [one] + [two], three);
    assert events + [one] + [two] + [three] == events + [one, two, three];
  }

  // A worker's plan, load and save in a row, with both loads at one version.
  function Session(w: nat, now: nat, firstFrom: int, windowEnd: int, overlap: int, batch: seq<Observation>): seq<Event>
  {
    [Plan(w, now, firstFrom, windowEnd, overlap), Load(w, now), Save(w, batch)]
  }

  // What a save on the current version adds to a state.
  ghost predicate Gains(s: State, s': State, plannedAt: nat, run: Run)
    requires s.items != []
  {
    var now := |s.items| - 1;
    && s'.log == s.log + [run] && s'.plans == s.plans + [plannedAt] && s'.exports == s.exports + [Export(now, run)]
    && |s'.items| == now + 2 && s'.items[now + 1].watermark == Some(run.windowEnd)
  }

  // What a session adds to a state with `now` saves.
  ghost predicate SessionGains(s: State, s': State, w: nat, now: nat, firstFrom: int, windowEnd: int, overlap: int,
                               batch: seq<Observation>)
    requires |s.items| == now + 1
  {
    var watermark := s.items[now].watermark;
    var from := if watermark.Some? then watermark.value - overlap else firstFrom;
    && Gains(s, s', now, Run(from, windowEnd, overlap, batch, true, true))
    && forall v :: v != w ==> PhaseOf(s', v) == PhaseOf(s, v)
  }

  lemma StepsSave(s: State, w: nat, now: nat, firstFrom: int, windowEnd: int, overlap: int, batch: seq<Observation>)
    requires |s.items| == now + 1
    ensures var s' := Step(Step(Step(s, Plan(w, now, firstFrom, windowEnd, overlap)), Load(w, now)), Save(w, batch));
            SessionGains(s, s', w, now, firstFrom, windowEnd, overlap, batch)
  {
  }

  lemma SessionSaves(events: seq<Event>, w: nat, now: nat, firstFrom: int, windowEnd: int, overlap: int,
                     batch: seq<Observation>)
    requires |After(events).items| == now + 1
    ensures var s' := After(events + Session(w, now, firstFrom, windowEnd, overlap, batch));
            SessionGains(After(events), s', w, now, firstFrom, windowEnd, overlap, batch)
  {
    AfterThree(events, Plan(w, now, firstFrom, windowEnd, overlap), Load(w, now), Save(w, batch));
    StepsSave(After(events), w, now, firstFrom, windowEnd, overlap, batch);
  }

  // A worker that planned before others saved.
  lemma LateSteps(s: State, w: nat, batch: seq<Observation>)
    requires PhaseOf(s, w).Planned? && s.items != []
    ensures var s', p := Step(Step(s, Load(w, |s.items| - 1)), Save(w, batch)), PhaseOf(s, w);
            Gains(s, s', p.plannedAt, Run(p.window.from, p.window.windowEnd, p.window.overlap, batch, true, true))
  {
  }

  lemma LateSave(events: seq<Event>, w: nat, now: nat, batch: seq<Observation>)
    requires PhaseOf(After(events), w).Planned? && |After(events).items| == now + 1
    ensures var s, s', p := After(events), After(events + [Load(w, now), Save(w, batch)]), PhaseOf(After(events), w);
            Gains(s, s', p.plannedAt, Run(p.window.from, p.window.windowEnd, p.window.overlap, batch, true, true))
  {
    AfterSnoc(events, Load(w, now));
    AfterSnoc(events + [Load(w, now)], Save(w, batch));
    assert events + [Load(w, now)] + [Save(w, batch)] == events + [Load(w, now), Save(w, batch)];
    LateSteps(After(events), w, batch);
  }

  // Worker 1 plans; worker 0 saves a later window, which prunes; then worker 1 loads and saves.
  function RaceEvents(t: int): seq<Event> {
    Session(0, 0, t, t + 10, 10, [Probe(t)]) + [Plan(1, 1, t, t + 100, 10)]
    + Session(0, 1, t, t + 100, 10, []) + [Load(1, 2), Save(1, [Probe(t)])]
  }

  function RaceLog(t: int, batch: seq<Observation>): History {
    [Run(t, t + 10, 10, batch, true, true), Run(t, t + 100, 10, [], true, true), Run(t, t + 100, 10, batch, true, true)]
  }

  lemma RaceOpens(t: int, opening: seq<Event>)
    requires opening == Session(0, 0, t, t + 10, 10, [Probe(t)]) + [Plan(1, 1, t, t + 100, 10)]
    ensures var s := After(opening);
            && s.log == [RaceLog(t, [Probe(t)])[0]] && s.plans == [0] && s.exports == [Export(0, s.log[0])]
            && |s.items| == 2 && s.items[1].watermark == Some(t + 10)
            && PhaseOf(s, 1) == Planned(Window(t, t + 100, 10), 1)
  {
    var first := Session(0, 0, t, t + 10, 10, [Probe(t)]);
    SessionSaves([], 0, 0, t, t + 10, 10, [Probe(t)]);
    assert [] + first == first;
    AfterSnoc(first, Plan(1, 1, t, t + 100, 10));
  }

  /** That interleaving is a run of the step relation, and these are its saves. */
  lemma RaceIsReachable(t: int)
    ensures var s := After(RaceEvents(t));
            && s.log == RaceLog(t, [Probe(t)]) && s.plans == [0, 1, 1]
            && s.exports == [Export(0, s.log[0]), Export(1, s.log[1]), Export(2, s.log[2])]
  {
    var opening := Session(0, 0, t, t + 10, 10, [Probe(t)]) + [Plan(1, 1, t, t + 100, 10)];
    var overtaken := opening + Session(0, 1, t, t + 100, 10, []);
    RaceOpens(t, opening);
    SessionSaves(opening, 0, 1, t, t + 100, 10, []);
    LateSave(overtaken, 1, 2, [Probe(t)]);
  }

  lemma RaceIsTwice(t: int)
    ensures Twice(RaceLog(t, []), 0, 2, t) == RaceLog(t, [Probe(t)])
    ensures Respectful(RaceLog(t, [Probe(t)]), map["probe" := t])
  {
    TwiceRespectful(RaceLog(t, []), 0, 2);
  }

  lemma RaceLogCountsTwice(t: int)
    ensures var log := RaceLog(t, [Probe(t)]); |Sent(log, Saved)| > |Dedup(Read(log, Saved))|
  {
    var h := RaceLog(t, []);
    RaceIsTwice(t);
    assert Forgets(h, 0, 1, 2, t);
    TwiceIsDouble(h, 0, 1, 2, t, Saved);
  }

  lemma RaceIsMonotone(t: int, batch: seq<Observation>)
    ensures Monotone(RaceLog(t, batch))
  {
  }

  lemma RaceIsHarmful(t: int)
    ensures !Harmless(After(RaceEvents(t)).exports)
  {
    var s := After(RaceEvents(t));
    RaceIsReachable(t);
    AnyInterleaving(RaceEvents(t));
    assert !Knows(s.log, s.exports[0], s.exports[2]) by {
      assert s.log[1].Cutoff() > Max(s.log[0].from, s.log[2].from);
    }
  }

  /** When the loads do not agree the count can break: a save between the two loads lets a run read an
      id again after it was pruned, with every save succeeding, every load current, window ends in
      order and equal overlaps. */
  lemma RaceCountsTwice(t: int, race: State)
    requires race == After(RaceEvents(t))
    ensures Monotone(race.log) && Respectful(race.log, map["probe" := t]) && !LoadsAgree(race)
    ensures !Harmless(race.exports) && |Sent(race.log, Saved)| > |Dedup(Read(race.log, Saved))|
  {
    RaceIsReachable(t);
    assert race.plans[2] == 1;
    RaceIsMonotone(t, [Probe(t)]);
    RaceIsTwice(t);
    RaceLogCountsTwice(t);
    RaceIsHarmful(t);
  }

  // Two workers plan the same first window, and save it one after the other.
  function OvertakingEvents(first: seq<Observation>, second: seq<Observation>): seq<Event> {
    [Plan(1, 0, 0, 10, 10)] + Session(0, 0, 0, 10, 10, first) + [Load(1, 1), Save(1, second)]
  }

  lemma OvertakingPlan(planned: seq<Event>)
    requires planned == [Plan(1, 0, 0, 10, 10)]
    ensures var s := After(planned);
            && s.log == [] && s.plans == [] && s.exports == [] && |s.items| == 1 && s.items[0].watermark == None
            && PhaseOf(s, 1) == Planned(Window(0, 10, 10), 0)
  {
    assert [] + planned == planned;
    AfterSnoc([], planned[0]);
  }

  lemma OvertakingOpens(planned: seq<Event>, opening: seq<Event>, first: seq<Observation>)
    requires planned == [Plan(1, 0, 0, 10, 10)] && opening == planned + Session(0, 0, 0, 10, 10, first)
    ensures var s := After(opening);
            && s.log == [Run(0, 10, 10, first, true, true)] && s.plans == [0] && s.exports == [Export(0, s.log[0])]
            && |s.items| == 2 && PhaseOf(s, 1) == Planned(Window(0, 10, 10), 0)
  {
    OvertakingPlan(planned);
    SessionSaves(planned, 0, 0, 0, 10, 10, first);
  }

  lemma OvertakingSaves(first: seq<Observation>, second: seq<Observation>)
    ensures var s := After(OvertakingEvents(first, second));
            && s.log == [Run(0, 10, 10, first, true, true), Run(0, 10, 10, second, true, true)] && s.plans == [0, 0]
            && s.exports == [Export(0, s.log[0]), Export(1, s.log[1])]
  {
    var planned := [Plan(1, 0, 0, 10, 10)];
    var opening := planned + Session(0, 0, 0, 10, 10, first);
    OvertakingOpens(planned, opening, first);
    LateSave(opening, 1, 1, second);
  }

  /** But the loads need not agree: this run is overtaken between its loads, and whatever the two
      windows hold nothing is delivered twice. */
  lemma OvertakenWithoutHarm(first: seq<Observation>, second: seq<Observation>)
    ensures var s := After(OvertakingEvents(first, second)); !LoadsAgree(s) && Harmless(s.exports)
  {
    var s := After(OvertakingEvents(first, second));
    AnyInterleaving(OvertakingEvents(first, second));
    OvertakingSaves(first, second);
    assert s.plans[1] == 0 && s.log[0].Cutoff() == 0;
  }
}
