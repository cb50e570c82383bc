/**
  What several workers deliver: exports in the order they reached the backend, each against the
  version of the checkpoint that its worker had loaded, and exactly when no id is delivered twice.
 */
module Deliveries {
  import opened Models
  import opened Idempotency
  import opened Protocol

  // An export: the version its worker had loaded, and its run, which is committed if the save that
  // followed went through.
  datatype Export = Export(version: nat, run: Run)

  type Trace = seq<Export>

  // The runs whose save went through; version v of the item comes after the first v of them.
  function LogOf(t: Trace): History {
    if t == [] then []
    else
      var last := t[|t| - 1];
      LogOf(t[..|t| - 1]) + if last.run.committed then [last.run] else []
  }

  // No worker is ahead of the item, and a save goes through on the current version only.
  ghost predicate Lawful(t: Trace) {
    t == [] ||
    (var front, last := t[..|t| - 1], t[|t| - 1];
     && Lawful(front) && last.version <= |LogOf(front)|
     && (last.run.committed ==> last.version == |LogOf(front)|))
  }

  // The ids that version v of the item knows.
  function Known(log: History, v: nat): set<Id> {
    Seen(if v <= |log| then log[..v] else log).Keys
  }

  // What an export delivers: its batch, deduplicated, minus the ids its version knows.
  function Delivery(e: Export, log: History): seq<Observation> {
    Fresh(Dedup(e.run.batch), Known(log, e.version))
  }

  // Everything delivered, in order.
  function AllDelivered(t: Trace, log: History): seq<Observation> {
    if t == [] then [] else AllDelivered(t[..|t| - 1], log) + Delivery(t[|t| - 1], log)
  }

  // The part of it that was not saved.
  function Lost(t: Trace, log: History): seq<Observation> {
    if t == [] then []
    else
      var last := t[|t| - 1];
      Lost(t[..|t| - 1], log) + if last.run.committed then [] else Delivery(last, log)
  }

  ghost predicate AllSaved(t: Trace) {
    forall k :: 0 <= k < |t| ==> t[k].run.committed
  }

  ghost predicate Truthful(t: Trace, starts: map<Id, int>) {
    forall k, x :: 0 <= k < |t| && x in t[k].run.batch ==> Admissible(t[k].run, x, starts)
  }

  // The same exports with other batches.
  ghost predicate SameShape(t: Trace, u: Trace) {
    |t| == |u| && forall k :: 0 <= k < |t| ==> SameExport(t[k], u[k])
  }

  predicate SameExport(e: Export, f: Export) {
    f == e.(run := e.run.(batch := f.run.batch))
  }

  // The export f, later than e, knows whatever e delivered and both could read.
  ghost predicate Knows(log: History, e: Export, f: Export) {
    && e.run.committed && e.version < f.version
    && forall i :: e.version <= i < f.version && i < |log| ==> log[i].Cutoff() <= Max(e.run.from, f.run.from)
  }

  // Of two exports whose windows meet, the later knows what the earlier delivered.
  ghost predicate Harmless(t: Trace) {
    forall j, k :: 0 <= j < k < |t| ==> Apart(t[j].run, t[k].run) || Knows(LogOf(t), t[j], t[k])
  }

  /* ---------- the log of a trace ---------- */

  lemma {:induction false} LogOfPrefix(t: Trace, n: nat)
    requires n <= |t|
    ensures LogOf(t[..n]) <= LogOf(t)
  {
    if n < |t| {
      var front := t[..|t| - 1];
      LogOfPrefix(front, n);
      assert front[..n] == t[..n];
    } else {
      assert t[..n] == t;
    }
  }

  lemma {:induction false} LawfulPrefix(t: Trace, n: nat)
    requires Lawful(t) && n <= |t|
    ensures Lawful(t[..n])
  {
    if n < |t| {
      var front := t[..|t| - 1];
      LawfulPrefix(front, n);
      assert front[..n] == t[..n];
    } else {
      assert t[..n] == t;
    }
  }

  // A saved export is the run at its version; any other version is at most the saves before it.
  lemma {:induction false} LawfulAt(t: Trace, k: nat)
    requires Lawful(t) && k < |t|
    ensures t[k].version <= |LogOf(t[..k])| <= |LogOf(t)|
    ensures t[k].run.committed ==> t[k].version == |LogOf(t[..k])| < |LogOf(t)| && LogOf(t)[t[k].version] == t[k].run
  {
    LawfulPrefix(t, k + 1);
    LogOfPrefix(t, k + 1);
    LogOfPrefix(t, k);
    assert t[..k + 1][..k] == t[..k] && t[..k + 1][k] == t[k];
  }

  lemma KnownEarlier(log: History, longer: History, v: nat)
    requires v <= |log| && log <= longer
    ensures Known(log, v) == Known(longer, v)
  {
    assert log[..v] == longer[..v];
  }

  // Later saves do not change what was delivered.
  lemma {:induction false} DeliveriesLonger(t: Trace, log: History, longer: History)
    requires log <= longer && forall e :: e in t ==> e.version <= |log|
    ensures AllDelivered(t, log) == AllDelivered(t, longer) && Lost(t, log) == Lost(t, longer)
  {
    if t != [] {
      var front, last := t[..|t| - 1], t[|t| - 1];
      assert last in t;
      KnownEarlier(log, longer, last.version);
      DeliveriesLonger(front, log, longer);
    }
  }

  lemma Behind(t: Trace)
    requires Lawful(t)
    ensures forall e :: e in t ==> e.version <= |LogOf(t)|
  {
    forall e | e in t ensures e.version <= |LogOf(t)| {
      var k :| 0 <= k < |t| && t[k] == e;
      LawfulAt(t, k);
    }
  }

  lemma {:induction false} LogCommitted(t: Trace)
    ensures forall i :: 0 <= i < |LogOf(t)| ==> LogOf(t)[i].committed
  {
    if t != [] {
      LogCommitted(t[..|t| - 1]);
    }
  }

  // Every saved run comes from an export.
  lemma {:induction false} FindExport(t: Trace, i: nat) returns (k: nat)
    requires Lawful(t) && i < |LogOf(t)|
    ensures k < |t| && t[k].run == LogOf(t)[i] && t[k].run.committed && t[k].version == i
  {
    var front := t[..|t| - 1];
    if i < |LogOf(front)| {
      k := FindExport(front, i);
    } else {
      k := |t| - 1;
    }
  }

  lemma LogTruthful(t: Trace, starts: map<Id, int>)
    requires Lawful(t) && Truthful(t, starts)
    ensures Respectful(LogOf(t), starts)
  {
    var log := LogOf(t);
    forall i, x | 0 <= i < |log| && x in log[i].batch ensures Admissible(log[i], x, starts) {
      var k := FindExport(t, i);
      assert x in t[k].run.batch;
    }
  }

  /* ---------- every delivery is accounted for ---------- */

  lemma LogGrows(log: History, run: Run)
    requires run.committed
    ensures Sent(log + [run], Saved) == Sent(log, Saved) + Fresh(Dedup(run.batch), Seen(log).Keys)
  {
    assert Before(log + [run]) == log && Last(log + [run]) == run;
  }

  lemma AccountsMore(front: Trace, e: Export, log: History)
    requires e.version <= |log| && (e.run.committed ==> e.version == |log|)
    requires forall f :: f in front ==> f.version <= |log|
    ensures var longer := log + if e.run.committed then [e.run] else [];
            && AllDelivered(front, log) == AllDelivered(front, longer) && Lost(front, log) == Lost(front, longer)
            && Delivery(e, log) == Delivery(e, longer)
            && Sent(longer, Saved) == Sent(log, Saved) + if e.run.committed then Delivery(e, log) else []
  {
    var longer := log + if e.run.committed then [e.run] else [];
    DeliveriesLonger(front, log, longer);
    KnownEarlier(log, longer, e.version);
    if e.run.committed {
      LogGrows(log, e.run);
      assert log[..|log|] == log;
    } else {
      assert longer == log;
    }
  }

  /** What was delivered is what the saved runs exported and what was lost. */
  lemma {:induction false} DeliveriesSplit(t: Trace)
    requires Lawful(t)
    ensures multiset(AllDelivered(t, LogOf(t))) == multiset(Sent(LogOf(t), Saved)) + multiset(Lost(t, LogOf(t)))
  {
    if t != [] {
      var front, last := t[..|t| - 1], t[|t| - 1];
      DeliveriesSplit(front);
      Behind(front);
      AccountsMore(front, last, LogOf(front));
    }
  }

  /* ---------- harmless traces deliver nothing twice ---------- */

  lemma DeliveryMembers(e: Export, log: History, x: Observation)
    requires x in Delivery(e, log)
    ensures x in e.run.batch && x.id !in Known(log, e.version)
  {
    FreshMembers(Dedup(e.run.batch), Known(log, e.version));
    DedupSubset(e.run.batch);
  }

  lemma {:induction false} FindDelivery(t: Trace, log: History, x: Observation) returns (k: nat)
    requires x in AllDelivered(t, log)
    ensures k < |t| && x in Delivery(t[k], log)
  {
    var n := |t| - 1;
    if x in AllDelivered(t[..n], log) {
      k := FindDelivery(t[..n], log, x);
    } else {
      k := n;
    }
  }

  lemma {:induction false} KnownSoFar(t: Trace, starts: map<Id, int>, j: nat, k: nat, x: Observation)
    requires Lawful(t) && Truthful(t, starts) && j < k < |t| && x in t[j].run.batch
    requires Knows(LogOf(t), t[j], t[k]) && Max(t[j].run.from, t[k].run.from) <= x.start
    ensures x.id in Known(LogOf(t), t[k].version)
  {
    var log := LogOf(t);
    LawfulAt(t, j);
    LawfulAt(t, k);
    LogTruthful(t, starts);
    var past := log[..t[k].version];
    forall i, y | 0 <= i < |past| && y in past[i].batch ensures Admissible(past[i], y, starts) {
      assert past[i] == log[i];
    }
    assert past[t[j].version] == t[j].run;
    forall i | t[j].version <= i < |past| && past[i].committed ensures past[i].Cutoff() <= x.start {
      assert past[i] == log[i];
    }
    Survives(past, starts, t[j].version, x);
  }

  // An id delivered before is not delivered again.
  lemma {:induction false} NotAgain(t: Trace, starts: map<Id, int>, j: nat, k: nat, x: Observation, y: Observation)
    requires Lawful(t) && Truthful(t, starts) && j < k < |t|
    requires Apart(t[j].run, t[k].run) || Knows(LogOf(t), t[j], t[k])
    requires x in t[j].run.batch && y in t[k].run.batch && x.id == y.id
    ensures y.id in Known(LogOf(t), t[k].version)
  {
    assert Admissible(t[j].run, x, starts) && Admissible(t[k].run, y, starts);
    KnownSoFar(t, starts, j, k, x);
  }

  lemma DeliveryDistinct(e: Export, log: History, starts: map<Id, int>)
    requires forall x :: x in e.run.batch ==> Admissible(e.run, x, starts)
    ensures DistinctIds(Delivery(e, log))
  {
    assert NoBlank(e.run.batch) by {
      forall x | x in e.run.batch ensures x.id != BLANK {
        assert Admissible(e.run, x, starts);
      }
    }
    DedupDistinct(e.run.batch);
    FreshDistinct(Dedup(e.run.batch), Known(log, e.version));
  }

  lemma DistinctConcat(xs: seq<Observation>, ys: seq<Observation>)
    requires DistinctIds(xs) && DistinctIds(ys) && forall x, y :: x in xs && y in ys ==> x.id != y.id
    ensures DistinctIds(xs + ys)
  {
    var all := xs + ys;
    forall i, j | 0 <= i < j < |all| ensures all[i].id != all[j].id {
      if i < |xs| <= j {
        assert xs[i] in xs && ys[j - |xs|] in ys;
      }
    }
  }

  // The first n exports of a harmless trace.
  lemma {:induction false} HarmlessIsDistinct(t: Trace, starts: map<Id, int>, n: nat)
    requires Lawful(t) && Harmless(t) && Truthful(t, starts) && n <= |t|
    ensures DistinctIds(AllDelivered(t[..n], LogOf(t)))
  {
    if n > 0 {
      var u, log := t[..n], LogOf(t);
      HarmlessIsDistinct(t, starts, n - 1);
      assert u[..n - 1] == t[..n - 1] && u[n - 1] == t[n - 1];
      DeliveryDistinct(t[n - 1], log, starts);
      forall x, y | x in AllDelivered(t[..n - 1], log) && y in Delivery(t[n - 1], log) ensures x.id != y.id {
        NewToFront(t, starts, n - 1, x, y);
      }
      DistinctConcat(AllDelivered(t[..n - 1], log), Delivery(t[n - 1], log));
    }
  }

  lemma {:induction false} NewToFront(t: Trace, starts: map<Id, int>, n: nat, x: Observation, y: Observation)
    requires Lawful(t) && Harmless(t) && Truthful(t, starts) && n < |t|
    requires x in AllDelivered(t[..n], LogOf(t)) && y in Delivery(t[n], LogOf(t))
    ensures x.id != y.id
  {
    var j := FindDelivery(t[..n], LogOf(t), x);
    DeliveryMembers(t[j], LogOf(t), x);
    DeliveryMembers(t[n], LogOf(t), y);
    if x.id == y.id {
      NotAgain(t, starts, j, n, x, y);
    }
  }

  /* ---------- other traces deliver something twice ---------- */

  // The exports of t, where j and k alone read the probe.
  function TwiceRead(t: Trace, j: nat, k: nat, at: int): Trace {
    seq(|t|, n requires 0 <= n < |t| =>
      t[n].(run := t[n].run.(batch := if n == j || n == k then [Probe(at)] else [])))
  }

  // Run j alone reads the probe, and a prune at or after it passes the probe, or it does not matter.
  lemma {:induction false} Forgotten(h: History, j: nat, i: nat, at: int)
    requires forall n :: 0 <= n < |h| ==> h[n].committed && h[n].batch == if n == j then [Probe(at)] else []
    requires j < |h| ==> j <= i < |h| && at < h[i].Cutoff()
    ensures Seen(h) == map[]
  {
    if h != [] {
      SeenSoFar(Before(h), j, at);
      ProbeStep(h, Probe(at), Saved);
      if j < |h| && i < |h| - 1 {
        assert Before(h)[i] == h[i];
        Forgotten(Before(h), j, i, at);
      } else if j >= |h| {
        Forgotten(Before(h), j, i, at);
      }
    }
  }

  lemma {:induction false} SeenSoFar(h: History, j: nat, at: int)
    requires forall n :: 0 <= n < |h| ==> h[n].committed && h[n].batch == if n == j then [Probe(at)] else []
    ensures Seen(h) == map[] || Seen(h) == map["probe" := at]
  {
    if h != [] {
      SeenSoFar(Before(h), j, at);
      ProbeStep(h, Probe(at), Saved);
    }
  }

  lemma {:induction false} ShapeLog(t: Trace, u: Trace)
    requires SameShape(t, u)
    ensures SameWindows(LogOf(t), LogOf(u))
  {
    if t != [] {
      var n := |t| - 1;
      ShapeLog(t[..n], u[..n]);
      assert SameExport(t[n], u[n]);
    }
  }

  lemma {:induction false} ShapeLawful(t: Trace, u: Trace)
    requires SameShape(t, u) && Lawful(t)
    ensures Lawful(u)
  {
    if t != [] {
      var n := |t| - 1;
      ShapeLawful(t[..n], u[..n]);
      ShapeLog(t[..n], u[..n]);
      assert SameExport(t[n], u[n]);
    }
  }

  lemma ShapeHarmless(t: Trace, u: Trace)
    requires SameShape(t, u) && Harmless(t)
    ensures Harmless(u)
  {
    ShapeLog(t, u);
    forall j, k | 0 <= j < k < |u| ensures Apart(u[j].run, u[k].run) || Knows(LogOf(u), u[j], u[k]) {
      assert SameExport(t[j], u[j]) && SameExport(t[k], u[k]);
    }
  }

  lemma {:induction false} TwiceReadShape(t: Trace, j: nat, k: nat)
    requires j < k < |t| && !Apart(t[j].run, t[k].run)
    ensures var at := Max(t[j].run.from, t[k].run.from);
            SameShape(t, TwiceRead(t, j, k, at)) && Truthful(TwiceRead(t, j, k, at), map["probe" := at])
  {
  }

  // In that trace the log before version v reads the probe in run j alone, if j was saved before v.
  lemma {:induction false} TwiceReadLog(t: Trace, j: nat, k: nat, at: int, v: nat)
    requires Lawful(t) && j < k < |t| && v <= |LogOf(t)|
    requires t[k].run.committed ==> v <= t[k].version
    ensures var u := TwiceRead(t, j, k, at);
            var place := if t[j].run.committed then t[j].version else v;
            && |LogOf(u)| == |LogOf(t)|
            && forall n :: 0 <= n < v ==>
                 LogOf(u)[n].committed && LogOf(u)[n].batch == if n == place then [Probe(at)] else []
  {
    var u := TwiceRead(t, j, k, at);
    assert SameShape(t, u);
    ShapeLog(t, u);
    ShapeLawful(t, u);
    LogCommitted(u);
    LawfulAt(u, j);
    LawfulAt(u, k);
    var place := if t[j].run.committed then t[j].version else v;
    forall n | 0 <= n < v ensures LogOf(u)[n].batch == if n == place then [Probe(at)] else [] {
      var m := FindExport(u, n);
      if n == place {
        assert LogOf(u)[n] == u[j].run;
      } else {
        assert m != j && m != k;
      }
    }
  }

  // What export m of that trace, one of the two, delivers.
  lemma {:induction false} DeliversProbe(t: Trace, j: nat, k: nat, m: nat, at: int)
    requires Lawful(t) && j < k < |t| && (m == j || m == k) && at == Max(t[j].run.from, t[k].run.from)
    requires m == k ==> !Knows(LogOf(t), t[j], t[k])
    ensures var u := TwiceRead(t, j, k, at);
            Delivery(u[m], LogOf(u)) == [Probe(at)]
  {
    var u, v := TwiceRead(t, j, k, at), t[m].version;
    LawfulAt(t, m);
    LawfulAt(t, j);
    LawfulAt(t, k);
    LaterSave(t, j, k);
    ForgottenBefore(t, j, k, m, at);
    DedupOne(Probe(at), Known(LogOf(u), v));
  }

  lemma {:induction false} LaterSave(t: Trace, j: nat, k: nat)
    requires Lawful(t) && j < k < |t|
    ensures t[k].run.committed ==> t[j].version <= t[k].version
  {
    LawfulAt(t, j);
    LawfulAt(t, k);
    LogOfPrefix(t[..k], j);
    assert t[..k][..j] == t[..j];
  }

  lemma {:induction false} ForgottenBefore(t: Trace, j: nat, k: nat, m: nat, at: int)
    requires Lawful(t) && j < k < |t| && (m == j || m == k) && at == Max(t[j].run.from, t[k].run.from)
    requires m == k ==> !Knows(LogOf(t), t[j], t[k])
    requires t[m].version <= |LogOf(t)| && (t[k].run.committed ==> t[m].version <= t[k].version)
    ensures var u := TwiceRead(t, j, k, at);
            t[m].version <= |LogOf(u)| && Seen(LogOf(u)[..t[m].version]) == map[]
  {
    var u, v := TwiceRead(t, j, k, at), t[m].version;
    var place := if t[j].run.committed then t[j].version else v;
    TwiceReadLog(t, j, k, at, v);
    var h := LogOf(u)[..v];
    var i := 0;
    if place < v {
      i :| t[j].version <= i < t[k].version && i < |LogOf(t)| && LogOf(t)[i].Cutoff() > at;
      assert SameShape(t, u);
      ShapeLog(t, u);
      assert h[i] == LogOf(u)[i];
    }
    Forgotten(h, place, i, at);
  }

  lemma {:induction false} DeliveriesPrefix(t: Trace, log: History, n: nat)
    requires n <= |t|
    ensures AllDelivered(t[..n], log) <= AllDelivered(t, log)
  {
    if n < |t| {
      var front := t[..|t| - 1];
      DeliveriesPrefix(front, log, n);
      assert front[..n] == t[..n];
    } else {
      assert t[..n] == t;
    }
  }

  lemma DeliveriesUpTo(t: Trace, log: History, k: nat)
    requires k < |t|
    ensures AllDelivered(t[..k + 1], log) == AllDelivered(t[..k], log) + Delivery(t[k], log)
  {
    assert t[..k + 1][..k] == t[..k];
  }

  lemma {:induction false} DeliveredBefore(t: Trace, log: History, j: nat, k: nat, x: Observation)
    requires j < k <= |t| && x in Delivery(t[j], log)
    ensures x in AllDelivered(t[..k], log)
  {
    var n := k - 1;
    if j < n {
      DeliveredBefore(t, log, j, n, x);
    }
    DeliveriesUpTo(t, log, n);
    InEither(AllDelivered(t[..n], log), Delivery(t[n], log), AllDelivered(t[..k], log), x);
  }

  lemma DeliveredTwice(t: Trace, log: History, j: nat, k: nat, x: Observation, y: Observation)
    requires j < k < |t| && x in Delivery(t[j], log) && y in Delivery(t[k], log) && x.id == y.id
    ensures !DistinctIds(AllDelivered(t, log))
  {
    DeliveredBefore(t, log, j, k, x);
    DeliveriesUpTo(t, log, k);
    DeliveriesPrefix(t, log, k + 1);
    TwiceIn(AllDelivered(t[..k], log), Delivery(t[k], log), AllDelivered(t, log), x, y);
  }

  /** A trace that is not harmless delivers an id twice, for some observations in its windows. */
  lemma HarmfulDeliversTwice(t: Trace) returns (u: Trace, starts: map<Id, int>)
    requires Lawful(t) && !Harmless(t)
    ensures SameShape(t, u) && Truthful(u, starts) && Lawful(u) && !DistinctIds(AllDelivered(u, LogOf(u)))
  {
    var j, k :| 0 <= j < k < |t| && !Apart(t[j].run, t[k].run) && !Knows(LogOf(t), t[j], t[k]);
    var at := Max(t[j].run.from, t[k].run.from);
    u, starts := TwiceRead(t, j, k, at), map["probe" := at];
    TwiceReadShape(t, j, k);
    ShapeLawful(t, u);
    DeliversProbe(t, j, k, j, at);
    DeliversProbe(t, j, k, k, at);
    DeliveredTwice(u, LogOf(u), j, k, Probe(at), Probe(at));
  }

  /** The condition is exact: exports deliver every stream of observations in their windows with no id
      twice if and only if, of two exports whose windows meet, the earlier was saved, the later had
      loaded a version after it, and no cutoff between those versions passes the start of both. */
  lemma HarmlessIff(t: Trace)
    requires Lawful(t)
    ensures Harmless(t) <==>
            forall u, starts :: SameShape(t, u) && Truthful(u, starts) ==> DistinctIds(AllDelivered(u, LogOf(u)))
  {
    if Harmless(t) {
      forall u, starts | SameShape(t, u) && Truthful(u, starts) ensures DistinctIds(AllDelivered(u, LogOf(u))) {
        ShapeLawful(t, u);
        ShapeHarmless(t, u);
        HarmlessIsDistinct(u, starts, |u|);
        assert u[..|u|] == u;
      }
    } else {
      var u, starts := HarmfulDeliversTwice(t);
    }
  }

  /* ---------- when everything was saved ---------- */

  lemma {:induction false} LogOfSaved(t: Trace)
    requires AllSaved(t)
    ensures |LogOf(t)| == |t| && forall k :: 0 <= k < |t| ==> LogOf(t)[k] == t[k].run
  {
    if t != [] {
      var n := |t| - 1;
      LogOfSaved(t[..n]);
      assert t[n].run.committed;
    }
  }

  /** When every export was saved, that is the condition on the windows of a single job. */
  lemma SavedIsSafe(t: Trace)
    requires Lawful(t) && AllSaved(t)
    ensures Harmless(t) <==> Safe(LogOf(t), Saved)
  {
    var log := LogOf(t);
    LogOfSaved(t);
    LogCommitted(t);
    forall k | 0 <= k < |t| ensures t[k] == Export(k, log[k]) {
      VersionWhenSaved(t, k);
    }
    PairsAgree(t, log);
  }

  ghost predicate Versioned(t: Trace, log: History) {
    |t| == |log| && forall k :: 0 <= k < |t| ==> t[k] == Export(k, log[k]) && log[k].committed
  }

  lemma {:induction false} PairsAgree(t: Trace, log: History)
    requires log == LogOf(t) && Versioned(t, log)
    ensures Harmless(t) <==> Safe(log, Saved)
  {
    if Harmless(t) {
      forall j, k | 0 <= j < k < |log| ensures Apart(log[j], log[k]) || Remembered(log, j, k) {
        assert Apart(t[j].run, t[k].run) || Knows(log, t[j], t[k]);
        PairAgrees(log, t[j], t[k], j, k);
      }
    } else {
      var j, k :| 0 <= j < k < |t| && !Apart(t[j].run, t[k].run) && !Knows(log, t[j], t[k]);
      PairAgrees(log, t[j], t[k], j, k);
      assert In(log[j], Saved) && In(log[k], Saved);
    }
  }

  lemma {:induction false} PairAgrees(log: History, e: Export, f: Export, j: nat, k: nat)
    requires j < k < |log| && e == Export(j, log[j]) && f == Export(k, log[k])
    requires forall i :: 0 <= i < |log| ==> log[i].committed
    ensures Knows(log, e, f) <==> Remembered(log, j, k)
  {
  }

  lemma VersionWhenSaved(t: Trace, k: nat)
    requires Lawful(t) && AllSaved(t) && k < |t|
    ensures t[k].version == k
  {
    LawfulAt(t, k);
    LogOfSaved(t[..k]);
  }
}
