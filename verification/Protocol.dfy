/**
  The cross-run protocol over whole histories of runs.

  A run reads observations that start in its window, drops the ids it already knows,
  exports the rest and, behind its gate, commits a watermark together with a pruned map of known
  ids.  Only committed runs change the stored map.
 */
module Protocol {
  import opened Wrappers
  import opened Models
  import opened Idempotency

  // One run: the window it queried, its overlap, the valid observations it read in order, and
  // how it ended.  A committed run has exported.
  datatype Run = Run(from: int, windowEnd: int, overlap: int, batch: seq<Observation>,
                     exported: bool, committed: bool)
  {
    function Cutoff(): int {
      windowEnd - overlap
    }
  }

  type History = seq<Run>

  function Last(h: History): Run
    requires h != []
  {
    h[|h| - 1]
  }

  function Before(h: History): History
    requires h != []
  {
    h[..|h| - 1]
  }

  // The ids with their ends, of those observations that end at or after the cutoff.
  function Recent(xs: seq<Observation>, cutoff: int): map<Id, int> {
    if xs == [] then map[]
    else
      var last := xs[|xs| - 1];
      var front := Recent(xs[..|xs| - 1], cutoff);
      if last.end >= cutoff then front[last.id := last.end] else front
  }

  function Kept(seen: map<Id, int>, cutoff: int): map<Id, int> {
    map id | id in seen && seen[id] >= cutoff :: seen[id]
  }

  // The stored map of known ids after a history.
  function Seen(h: History): map<Id, int> {
    if h == [] then map[]
    else if !Last(h).committed then Seen(Before(h))
    else Kept(Seen(Before(h)), Last(h).Cutoff()) + Recent(NewIn(h), Last(h).Cutoff())
  }

  // What the last run of a history exports: its batch, deduplicated, minus the known ids.
  function NewIn(h: History): seq<Observation>
    requires h != []
    decreases h, 0
  {
    Fresh(Dedup(Last(h).batch), Seen(Before(h)).Keys)
  }

  // Which runs are looked at: those that committed, or those whose export reached the backend.
  datatype Scope = Saved | Delivered

  predicate In(r: Run, scope: Scope) {
    r.committed || (scope == Delivered && r.exported)
  }

  // Everything the runs in scope exported, in order.
  function Sent(h: History, scope: Scope): seq<Observation> {
    if h == [] then [] else Sent(Before(h), scope) + (if In(Last(h), scope) then NewIn(h) else [])
  }

  // Everything they read, repeats included.
  function Read(h: History, scope: Scope): seq<Observation> {
    if h == [] then [] else Read(Before(h), scope) + (if In(Last(h), scope) then Last(h).batch else [])
  }

  // Everything exported by runs that then failed to commit.
  function Unacknowledged(h: History): seq<Observation> {
    if h == [] then []
    else Unacknowledged(Before(h)) + (if Last(h).exported && !Last(h).committed then NewIn(h) else [])
  }

  function Commits(h: History): nat {
    if h == [] then 0 else Commits(Before(h)) + if Last(h).committed then 1 else 0
  }

  // The stored watermark.
  function Watermark(h: History): Option<int> {
    if h == [] then None
    else if Last(h).committed then Some(Last(h).windowEnd) else Watermark(Before(h))
  }

  // The observations of a history have ids and one start per id (given by `starts`), end no sooner
  // than they start, and start inside the window of the run that read them.  Their ends, and
  // everything else about them, may be revised between two reads.
  ghost predicate Respectful(h: History, starts: map<Id, int>) {
    forall i, x :: 0 <= i < |h| && x in h[i].batch ==> Admissible(h[i], x, starts)
  }

  ghost predicate Admissible(r: Run, x: Observation, starts: map<Id, int>) {
    && x.id != BLANK && x.id in starts && starts[x.id] == x.start
    && r.from <= x.start < r.windowEnd && x.start <= x.end
  }

  function Max(a: int, b: int): int {
    if a < b then b else a
  }

  function Min(a: int, b: int): int {
    if a < b then a else b
  }

  // No observation can start in both windows.
  predicate Apart(a: Run, b: Run) {
    Min(a.windowEnd, b.windowEnd) <= Max(a.from, b.from)
  }

  // What run j exports is still known to run k, whatever starts in both windows.
  ghost predicate Remembered(h: History, j: nat, k: nat)
    requires j < k < |h|
  {
    && h[j].committed
    && forall i :: j <= i < k && h[i].committed ==> h[i].Cutoff() <= Max(h[j].from, h[k].from)
  }

  // Of two runs in scope whose windows meet, the later knows what the earlier exported.
  ghost predicate Safe(h: History, scope: Scope) {
    forall j, k :: 0 <= j < k < |h| && In(h[j], scope) && In(h[k], scope) ==> Apart(h[j], h[k]) || Remembered(h, j, k)
  }

  ghost predicate SameWindows(h: History, g: History) {
    && |h| == |g|
    && forall i :: 0 <= i < |h| ==> g[i] == h[i].(batch := g[i].batch)
  }

  /* ---------- the bounded map against the unbounded history ---------- */

  lemma {:induction false} RecentEntries(xs: seq<Observation>, cutoff: int)
    ensures forall id :: id in Recent(xs, cutoff) <==> exists x :: x in xs && x.id == id && x.end >= cutoff
    ensures forall id :: id in Recent(xs, cutoff) ==> Recent(xs, cutoff)[id] >= cutoff
    ensures forall id :: id in Recent(xs, cutoff) ==>
              exists x :: x in xs && x.id == id && x.end == Recent(xs, cutoff)[id]
  {
    if xs != [] {
      var front, last := xs[..|xs| - 1], xs[|xs| - 1];
      RecentEntries(front, cutoff);
      assert xs == front + [last];
    }
  }

  lemma NewInBatch(h: History, x: Observation)
    requires h != [] && x in NewIn(h)
    ensures x in Last(h).batch && x.id !in Seen(Before(h))
  {
    FreshMembers(Dedup(Last(h).batch), Seen(Before(h)).Keys);
    DedupSubset(Last(h).batch);
  }

  lemma RespectfulBefore(h: History, starts: map<Id, int>)
    requires h != [] && Respectful(h, starts)
    ensures Respectful(Before(h), starts)
    ensures forall x :: x in Last(h).batch ==> Admissible(Last(h), x, starts)
  {
    assert h[|h| - 1] == Last(h);
    forall i, x | 0 <= i < |Before(h)| && x in Before(h)[i].batch
      ensures Admissible(Before(h)[i], x, starts)
    {
      assert Before(h)[i] == h[i];
    }
  }

  // Known ids were read by a committed run, and end no sooner than they start.
  lemma {:induction false} SeenEntries(h: History, starts: map<Id, int>)
    requires Respectful(h, starts)
    ensures forall id :: id in Seen(h) ==> id in Ids(Read(h, Saved)) && id in starts && starts[id] <= Seen(h)[id]
  {
    if h != [] {
      RespectfulBefore(h, starts);
      SeenEntries(Before(h), starts);
      if Last(h).committed {
        IdsConcat(Read(Before(h), Saved), Last(h).batch);
        RecentEntries(NewIn(h), Last(h).Cutoff());
        forall id | id in Recent(NewIn(h), Last(h).Cutoff())
          ensures id in Ids(Last(h).batch) && id in starts && starts[id] <= Recent(NewIn(h), Last(h).Cutoff())[id]
        {
          var x :| x in NewIn(h) && x.id == id && x.end == Recent(NewIn(h), Last(h).Cutoff())[id];
          NewInBatch(h, x);
          assert Admissible(Last(h), x, starts);
        }
      } else {
        assert Read(h, Saved) == Read(Before(h), Saved);
      }
    }
  }

  // A run that reads x knows it or newly exports its id.
  lemma ReadIsKnownOrNew(h: History, x: Observation)
    requires h != [] && x in Last(h).batch
    ensures x.id in Seen(Before(h)) || x.id in Ids(NewIn(h))
  {
    var batch, known := Last(h).batch, Seen(Before(h)).Keys;
    DedupKeepsIds(batch);
    if x.id !in known {
      assert x.id in Ids(Dedup(batch));
      var y :| y in Dedup(batch) && y.id == x.id;
      FreshMembers(Dedup(batch), known);
      assert y in NewIn(h);
    }
  }

  // An id read by a committed run stays known while no later prune passes its start, whatever end
  // it was read with.
  lemma {:induction false} Survives(h: History, starts: map<Id, int>, j: nat, x: Observation)
    requires Respectful(h, starts)
    requires j < |h| && h[j].committed && x in h[j].batch
    requires forall i :: j <= i < |h| && h[i].committed ==> h[i].Cutoff() <= x.start
    ensures x.id in Seen(h)
    decreases |h|
  {
    RespectfulBefore(h, starts);
    SeenEntries(Before(h), starts);
    var n := |h| - 1;
    assert h[n] == Last(h);
    if n == j {
      ReadIsKnownOrNew(h, x);
      assert Admissible(h[j], x, starts);
      if x.id in Ids(NewIn(h)) {
        var y :| y in NewIn(h) && y.id == x.id;
        NewInBatch(h, y);
        assert Admissible(h[j], y, starts);
        RecentEntries(NewIn(h), Last(h).Cutoff());
      }
    } else {
      assert Before(h)[j] == h[j];
      Survives(Before(h), starts, j, x);
      assert Admissible(h[j], x, starts);
    }
  }

  /** The bounded map makes the same decision as the unbounded history, for every observation the
      next window can return. */
  lemma SameDecision(h: History, starts: map<Id, int>, y: Observation, scope: Scope)
    requires h != [] && Respectful(h, starts) && Safe(h, scope) && In(Last(h), scope) && y in Last(h).batch
    ensures y.id in Seen(Before(h)) <==> y.id in Ids(Read(Before(h), scope))
  {
    var p, k := Before(h), |h| - 1;
    RespectfulBefore(h, starts);
    SeenEntries(p, starts);
    SavedIsRead(p, scope);
    if y.id in Ids(Read(p, scope)) {
      var j, x := FindRead(p, y.id, scope);
      assert h[j] == p[j] && h[k] == Last(h);
      assert Admissible(h[j], x, starts) && Admissible(h[k], y, starts);
      assert Remembered(h, j, k);
      forall i | j <= i < |p| && p[i].committed
        ensures p[i].Cutoff() <= x.start
      {
        assert h[i] == p[i];
      }
      Survives(p, starts, j, x);
    }
  }

  lemma {:induction false} SavedIsRead(h: History, scope: Scope)
    ensures Ids(Read(h, Saved)) <= Ids(Read(h, scope))
  {
    if h != [] {
      SavedIsRead(Before(h), scope);
      IdsConcat(Read(Before(h), Saved), Last(h).batch);
      IdsConcat(Read(Before(h), scope), Last(h).batch);
      if !Last(h).committed {
        assert Read(h, Saved) == Read(Before(h), Saved);
      }
      if !In(Last(h), scope) {
        assert Read(h, scope) == Read(Before(h), scope);
      }
    }
  }

  lemma {:induction false} FindRead(h: History, id: Id, scope: Scope) returns (j: nat, x: Observation)
    requires id in Ids(Read(h, scope))
    ensures j < |h| && In(h[j], scope) && x in h[j].batch && x.id == id
  {
    assert h != [];
    if In(Last(h), scope) {
      IdsConcat(Read(Before(h), scope), Last(h).batch);
      if id in Ids(Last(h).batch) {
        j := |h| - 1;
        x :| x in Last(h).batch && x.id == id;
        return;
      }
    } else {
      assert Read(h, scope) == Read(Before(h), scope);
    }
    j, x := FindRead(Before(h), id, scope);
  }

  /* ---------- exactly once ---------- */

  lemma SafeBefore(h: History, scope: Scope)
    requires h != [] && Safe(h, scope)
    ensures Safe(Before(h), scope)
  {
    var p := Before(h);
    forall j, k | 0 <= j < k < |p| && In(p[j], scope) && In(p[k], scope)
      ensures Apart(p[j], p[k]) || Remembered(p, j, k)
    {
      assert h[j] == p[j] && h[k] == p[k];
      if Remembered(h, j, k) {
        forall i | j <= i < k && p[i].committed ensures p[i].Cutoff() <= Max(p[j].from, p[k].from) {
          assert h[i] == p[i];
        }
      }
    }
  }

  lemma {:induction false} ReadHasNoBlank(h: History, starts: map<Id, int>, scope: Scope)
    requires Respectful(h, starts)
    ensures NoBlank(Read(h, scope))
  {
    if h != [] {
      RespectfulBefore(h, starts);
      ReadHasNoBlank(Before(h), starts, scope);
    }
  }

  /** Every id is counted once over the whole history, by its first reading: the runs in scope
      together export what one in-memory deduplication of everything they read would keep. */
  lemma {:induction false} ExactlyOnce(h: History, starts: map<Id, int>, scope: Scope)
    requires Respectful(h, starts) && Safe(h, scope)
    ensures Sent(h, scope) == Dedup(Read(h, scope))
  {
    if h != [] {
      RespectfulBefore(h, starts);
      SafeBefore(h, scope);
      ExactlyOnce(Before(h), starts, scope);
      if In(Last(h), scope) {
        var batch, past := Last(h).batch, Read(Before(h), scope);
        assert NoBlank(batch);
        DedupConcat(past, batch);
        DedupSubset(batch);
        forall y | y in Dedup(batch)
          ensures y.id in Seen(Before(h)).Keys <==> y.id in Ids(past)
        {
          SameDecision(h, starts, y, scope);
        }
        FreshCongruent(Dedup(batch), Seen(Before(h)).Keys, Ids(past));
      } else {
        assert Read(h, scope) == Read(Before(h), scope);
      }
    }
  }

  /* ---------- the map is exactly the recent part of the history ---------- */

  // Here, and only here, an id also keeps its end.
  ghost predicate FixedEnds(h: History, ends: map<Id, int>) {
    forall i, x :: 0 <= i < |h| && x in h[i].batch ==> x.id in ends && ends[x.id] == x.end
  }

  ghost predicate CutoffsGrow(h: History) {
    forall i, j :: 0 <= i <= j < |h| && h[i].committed && h[j].committed ==> h[i].Cutoff() <= h[j].Cutoff()
  }

  lemma SeenAboveCutoff(h: History)
    requires h != [] && Last(h).committed
    ensures forall id :: id in Seen(h) ==> Seen(h)[id] >= Last(h).Cutoff()
  {
    RecentEntries(NewIn(h), Last(h).Cutoff());
  }

  lemma FixedEndsBefore(h: History, ends: map<Id, int>)
    requires h != [] && FixedEnds(h, ends)
    ensures FixedEnds(Before(h), ends)
    ensures forall x :: x in Last(h).batch ==> x.id in ends && ends[x.id] == x.end
  {
    assert h[|h| - 1] == Last(h);
    forall i, x | 0 <= i < |Before(h)| && x in Before(h)[i].batch
      ensures x.id in ends && ends[x.id] == x.end
    {
      assert Before(h)[i] == h[i];
    }
  }

  lemma {:induction false} SeenEnds(h: History, ends: map<Id, int>)
    requires FixedEnds(h, ends)
    ensures forall id :: id in Seen(h) ==> id in Ids(Read(h, Saved)) && id in ends && Seen(h)[id] == ends[id]
  {
    if h != [] {
      FixedEndsBefore(h, ends);
      SeenEnds(Before(h), ends);
      if Last(h).committed {
        IdsConcat(Read(Before(h), Saved), Last(h).batch);
        RecentEntries(NewIn(h), Last(h).Cutoff());
        forall id | id in Recent(NewIn(h), Last(h).Cutoff())
          ensures id in Ids(Last(h).batch) && id in ends && Recent(NewIn(h), Last(h).Cutoff())[id] == ends[id]
        {
          var x :| x in NewIn(h) && x.id == id && x.end == Recent(NewIn(h), Last(h).Cutoff())[id];
          NewInBatch(h, x);
        }
      } else {
        assert Read(h, Saved) == Read(Before(h), Saved);
      }
    }
  }

  lemma {:induction false} RecentlyReadIsSeen(h: History, ends: map<Id, int>, j: nat, x: Observation)
    requires FixedEnds(h, ends)
    requires j < |h| && h[j].committed && x in h[j].batch
    requires forall i :: j <= i < |h| && h[i].committed ==> h[i].Cutoff() <= x.end
    ensures x.id in Seen(h)
    decreases |h|
  {
    FixedEndsBefore(h, ends);
    SeenEnds(Before(h), ends);
    var n := |h| - 1;
    assert h[n] == Last(h);
    if n == j {
      ReadIsKnownOrNew(h, x);
      if x.id in Ids(NewIn(h)) {
        var y :| y in NewIn(h) && y.id == x.id;
        NewInBatch(h, y);
        RecentEntries(NewIn(h), Last(h).Cutoff());
      }
    } else {
      assert Before(h)[j] == h[j];
      RecentlyReadIsSeen(Before(h), ends, j, x);
    }
  }

  /** After a commit the map holds exactly the ids read so far that end at or after the cutoff:
      pruning after every run is pruning the whole history once, at the last cutoff. */
  lemma PruneComposes(h: History, ends: map<Id, int>)
    requires h != [] && Last(h).committed && FixedEnds(h, ends) && CutoffsGrow(h)
    ensures Seen(h) == map id | id in Ids(Read(h, Saved)) && id in ends && ends[id] >= Last(h).Cutoff() :: ends[id]
  {
    SeenEnds(h, ends);
    SeenAboveCutoff(h);
    var n := |h| - 1;
    forall id | id in Ids(Read(h, Saved)) && id in ends && ends[id] >= Last(h).Cutoff()
      ensures id in Seen(h)
    {
      var j, x := FindRead(h, id, Saved);
      forall i | j <= i < |h| && h[i].committed ensures h[i].Cutoff() <= x.end {
        assert h[i].Cutoff() <= h[n].Cutoff();
      }
      RecentlyReadIsSeen(h, ends, j, x);
    }
  }

  /* ---------- the condition is exact ---------- */

  // An observation of zero length at instant t.
  function Probe(t: int): Observation {
    Observation("probe", "DEFAULT", "", "", "", "", "", false, t, None, t, 0, 0, 0, 0, None, false, None)
  }

  // The windows of h, where runs j and k alone read the probe.
  function Twice(h: History, j: nat, k: nat, t: int): History {
    seq(|h|, n requires 0 <= n < |h| => h[n].(batch := if n == j || n == k then [Probe(t)] else []))
  }

  lemma TwiceRespectful(h: History, j: nat, k: nat)
    requires j < k < |h| && !Apart(h[j], h[k])
    ensures var t := Max(h[j].from, h[k].from);
            SameWindows(h, Twice(h, j, k, t)) && Respectful(Twice(h, j, k, t), map["probe" := t])
  {
  }

  lemma OneRead(h: History, x: Observation)
    requires h != [] && Last(h).batch == [x]
    ensures NewIn(h) == if x.id in Seen(Before(h)) then [] else [x]
    ensures Recent(NewIn(h), Last(h).Cutoff()) ==
            if x.id in Seen(Before(h)) || x.end < Last(h).Cutoff() then map[] else map[x.id := x.end]
  {
    DedupOne(x, Seen(Before(h)).Keys);
    assert [x][..0] == [];
  }

  lemma DedupOne(x: Observation, known: set<Id>)
    ensures Fresh(Dedup([x]), known) == if x.id in known then [] else [x]
  {
    assert [x][..0] == [];
    assert Dedup([x]) == [x];
  }

  // One more run that reads x or nothing, after runs that read x at most.
  lemma ProbeStep(h: History, x: Observation, scope: Scope)
    requires h != [] && (Last(h).batch == [] || Last(h).batch == [x])
    requires Seen(Before(h)) == map[] || Seen(Before(h)) == map[x.id := x.end]
    ensures Seen(h) == map[] || Seen(h) == map[x.id := x.end]
    ensures Last(h).committed && x.end < Last(h).Cutoff() ==> Seen(h) == map[]
    ensures (Last(h).batch == [] || !Last(h).committed) && Seen(Before(h)) == map[] ==> Seen(h) == map[]
    ensures |Sent(h, scope)| >= |Sent(Before(h), scope)|
    ensures In(Last(h), scope) && Last(h).batch == [x] && Seen(Before(h)) == map[]
            ==> |Sent(h, scope)| == |Sent(Before(h), scope)| + 1
  {
    if Last(h).batch == [] {
      assert NewIn(h) == [];
    } else {
      OneRead(h, x);
    }
    KeptOne(Seen(Before(h)), x.id, x.end, Last(h).Cutoff());
  }

  lemma TwicePrefix(h: History, j: nat, k: nat, t: int, n: nat)
    requires 0 < n <= |h|
    ensures var w := Twice(h, j, k, t)[..n];
            && Before(w) == Twice(h, j, k, t)[..n - 1]
            && Last(w) == h[n - 1].(batch := if n - 1 == j || n - 1 == k then [Probe(t)] else [])
  {
  }

  lemma {:induction false} TwiceReads(h: History, j: nat, k: nat, t: int, n: nat, scope: Scope)
    requires n <= |h|
    ensures forall x :: x in Read(Twice(h, j, k, t)[..n], scope) ==> x == Probe(t)
  {
    if n > 0 {
      TwicePrefix(h, j, k, t, n);
      TwiceReads(h, j, k, t, n - 1, scope);
    }
  }

  // Run i leaves the probe unknown: it did not commit it, or prunes it.
  ghost predicate Forgets(h: History, j: nat, i: nat, k: nat, t: int) {
    j <= i < k < |h| && ((i == j && !h[j].committed) || (h[i].committed && t < h[i].Cutoff()))
  }

  // The state after the first n runs of that history.
  ghost predicate TwiceState(w: History, j: nat, i: nat, k: nat, t: int, n: nat, scope: Scope) {
    && |Sent(w, scope)| >= (if n <= j then 0 else if n <= k then 1 else 2)
    && (Seen(w) == map[] || Seen(w) == map["probe" := t])
    && (n <= j || i < n <= k ==> Seen(w) == map[])
  }

  lemma TwiceStep(h: History, w: History, j: nat, i: nat, k: nat, t: int, n: nat, scope: Scope)
    requires Forgets(h, j, i, k, t) && In(h[j], scope) && In(h[k], scope) && n < |h| && w != []
    requires TwiceState(Before(w), j, i, k, t, n, scope)
    requires Last(w) == h[n].(batch := if n == j || n == k then [Probe(t)] else [])
    ensures TwiceState(w, j, i, k, t, n + 1, scope)
  {
    ProbeStep(w, Probe(t), scope);
  }

  lemma {:induction false} TwiceCounts(h: History, j: nat, i: nat, k: nat, t: int, n: nat, scope: Scope)
    requires Forgets(h, j, i, k, t) && In(h[j], scope) && In(h[k], scope) && n <= |h|
    ensures TwiceState(Twice(h, j, k, t)[..n], j, i, k, t, n, scope)
  {
    if n > 0 {
      TwiceCounts(h, j, i, k, t, n - 1, scope);
      TwicePrefix(h, j, k, t, n);
      TwiceStep(h, Twice(h, j, k, t)[..n], j, i, k, t, n - 1, scope);
    }
  }

  lemma KeptOne(seen: map<Id, int>, id: Id, t: int, cutoff: int)
    requires seen == map[] || seen == map[id := t]
    ensures Kept(seen, cutoff) == if t < cutoff then map[] else seen
  {
  }

  lemma {:induction false} DedupOfOneValue(xs: seq<Observation>, x: Observation)
    requires x.id != BLANK && forall y :: y in xs ==> y == x
    ensures |Dedup(xs)| <= 1
  {
    if xs != [] {
      var front := xs[..|xs| - 1];
      assert forall y :: y in front ==> y in xs;
      DedupOfOneValue(front, x);
      if front != [] {
        assert front[0] in front;
        assert x.id in Ids(front);
        assert xs[|xs| - 1] in xs;
      }
    }
  }

  /** A schedule of windows counts every stream of observations once if and only if it is safe. */
  lemma ExactlyOnceIffSafe(h: History, scope: Scope)
    ensures Safe(h, scope) <==>
            forall g, starts :: SameWindows(h, g) && Respectful(g, starts) ==> Sent(g, scope) == Dedup(Read(g, scope))
  {
    if Safe(h, scope) {
      forall g, starts | SameWindows(h, g) && Respectful(g, starts)
        ensures Sent(g, scope) == Dedup(Read(g, scope))
      {
        assert Safe(g, scope) by { SafeTransfers(h, g, scope); }
        ExactlyOnce(g, starts, scope);
      }
    } else {
      var g, starts := UnsafeCountsTwice(h, scope);
    }
  }

  /** Delivery: a schedule keeps every stream free of repeated ids at the backend if and only if any
      two runs that exported into windows that meet are such that the first committed and no cutoff
      in between passed the start of both. */
  lemma DeliveryIsExact(h: History)
    ensures Safe(h, Delivered) <==>
            forall g, starts :: SameWindows(h, g) && Respectful(g, starts) ==> DistinctIds(Sent(g, Delivered))
  {
    if Safe(h, Delivered) {
      forall g, starts | SameWindows(h, g) && Respectful(g, starts)
        ensures DistinctIds(Sent(g, Delivered))
      {
        assert Safe(g, Delivered) by { SafeTransfers(h, g, Delivered); }
        ExactlyOnce(g, starts, Delivered);
        ReadHasNoBlank(g, starts, Delivered);
        DedupDistinct(Read(g, Delivered));
      }
    } else {
      var g, starts := UnsafeCountsTwice(h, Delivered);
    }
  }

  lemma {:induction false} SentWasRead(h: History, scope: Scope)
    ensures forall x :: x in Sent(h, scope) ==> x in Read(h, scope)
  {
    if h != [] {
      SentWasRead(Before(h), scope);
      forall x | x in NewIn(h) ensures x in Last(h).batch {
        NewInBatch(h, x);
      }
    }
  }

  // Where an unsafe schedule loses a probe.
  lemma FindForgetting(h: History, j: nat, k: nat) returns (i: nat)
    requires j < k < |h| && !Remembered(h, j, k)
    ensures Forgets(h, j, i, k, Max(h[j].from, h[k].from))
  {
    if h[j].committed {
      i :| j <= i < k && h[i].committed && h[i].Cutoff() > Max(h[j].from, h[k].from);
    } else {
      i := j;
    }
  }

  /** An unsafe schedule counts some observation twice, under windows that really hold it. */
  lemma UnsafeCountsTwice(h: History, scope: Scope) returns (g: History, starts: map<Id, int>)
    requires !Safe(h, scope)
    ensures SameWindows(h, g) && Respectful(g, starts)
    ensures |Sent(g, scope)| > |Dedup(Read(g, scope))| && !DistinctIds(Sent(g, scope))
  {
    var j, k :| 0 <= j < k < |h| && In(h[j], scope) && In(h[k], scope) && !Apart(h[j], h[k]) && !Remembered(h, j, k);
    var t := Max(h[j].from, h[k].from);
    g, starts := Twice(h, j, k, t), map["probe" := t];
    TwiceRespectful(h, j, k);
    var i := FindForgetting(h, j, k);
    TwiceIsDouble(h, j, i, k, t, scope);
  }

  lemma TwiceIsDouble(h: History, j: nat, i: nat, k: nat, t: int, scope: Scope)
    requires Forgets(h, j, i, k, t) && In(h[j], scope) && In(h[k], scope)
    ensures var g := Twice(h, j, k, t);
            |Sent(g, scope)| > |Dedup(Read(g, scope))| && !DistinctIds(Sent(g, scope))
  {
    var g := Twice(h, j, k, t);
    assert g[..|h|] == g;
    TwiceCounts(h, j, i, k, t, |h|, scope);
    TwiceReads(h, j, k, t, |h|, scope);
    DedupOfOneValue(Read(g, scope), Probe(t));
    SentWasRead(g, scope);
    assert Sent(g, scope)[0] in Sent(g, scope) && Sent(g, scope)[1] in Sent(g, scope);
  }

  lemma SafeTransfers(h: History, g: History, scope: Scope)
    requires SameWindows(h, g) && Safe(h, scope)
    ensures Safe(g, scope)
  {
    forall j, k | 0 <= j < k < |g| && In(g[j], scope) && In(g[k], scope)
      ensures Apart(g[j], g[k]) || Remembered(g, j, k)
    {
      assert Apart(h[j], h[k]) || Remembered(h, j, k);
    }
  }

  /** The ends of the windows matter: this schedule forgets what runs 0 and 2 could both have read had
      their windows no end, and still counts every stream once. */
  lemma WindowEndsMatter()
    ensures var h := [Run(0, 10, 10, [], true, true), Run(95, 100, 10, [], true, true),
                      Run(60, 200, 10, [], true, true)];
            && Safe(h, Saved) && !Remembered(h, 0, 2)
            && forall g, starts ::
                 SameWindows(h, g) && Respectful(g, starts) ==> Sent(g, Saved) == Dedup(Read(g, Saved))
  {
    var h := [Run(0, 10, 10, [], true, true), Run(95, 100, 10, [], true, true), Run(60, 200, 10, [], true, true)];
    EndsKeepApart(h);
    ExactlyOnceIffSafe(h, Saved);
  }

  lemma EndsKeepApart(h: History)
    requires |h| == 3 && h[0] == Run(0, 10, 10, [], true, true) && h[1] == Run(95, 100, 10, [], true, true)
    requires h[2] == Run(60, 200, 10, [], true, true)
    ensures Safe(h, Saved) && !Remembered(h, 0, 2)
  {
    assert h[1].Cutoff() == 90 && Max(h[0].from, h[2].from) == 60;
  }

  /* ---------- the schedule the command line produces ---------- */

  // Each committed run resumed at the stored watermark minus its own overlap; the first may start
  // anywhere.
  ghost predicate Resuming(h: History) {
    forall k :: 0 <= k < |h| && h[k].committed ==> Resumes(h[k], Watermark(h[..k]))
  }

  predicate Resumes(r: Run, watermark: Option<int>) {
    watermark.Some? ==> r.from == watermark.value - r.overlap
  }

  ghost predicate Monotone(h: History) {
    forall i, k :: 0 <= i < k < |h| && h[i].committed && h[k].committed ==>
      h[i].windowEnd <= h[k].windowEnd && h[k].overlap <= h[i].overlap
  }

  lemma {:induction false} WatermarkOf(h: History, i: nat)
    requires i < |h| && h[i].committed
    ensures Watermark(h).Some?
    ensures exists m :: i <= m < |h| && h[m].committed && Watermark(h).value == h[m].windowEnd
    decreases |h|
  {
    if Last(h).committed {
      assert h[|h| - 1] == Last(h);
    } else {
      assert Before(h)[i] == h[i];
      WatermarkOf(Before(h), i);
      var m :| i <= m < |Before(h)| && Before(h)[m].committed && Watermark(Before(h)).value == Before(h)[m].windowEnd;
      assert h[m] == Before(h)[m];
    }
  }

  /** Resuming runs are safe when window ends never go back and the overlap never grows. */
  lemma ResumingIsSafe(h: History)
    requires Resuming(h) && Monotone(h)
    ensures Safe(h, Saved)
  {
    forall j, k | 0 <= j < k < |h| && h[j].committed && h[k].committed
      ensures Remembered(h, j, k)
    {
      forall i | j <= i < k && h[i].committed ensures h[i].Cutoff() <= h[k].from {
        assert h[..k][i] == h[i];
        WatermarkOf(h[..k], i);
        var m :| i <= m < |h[..k]| && h[..k][m].committed && Watermark(h[..k]).value == h[..k][m].windowEnd;
        assert h[m] == h[..k][m];
      }
    }
  }

  lemma ResumingBefore(h: History)
    requires h != [] && Resuming(h)
    ensures Resuming(Before(h)) && (Last(h).committed ==> Resumes(Last(h), Watermark(Before(h))))
  {
    var n, p := |h| - 1, Before(h);
    assert h[n] == Last(h) && h[..n] == p;
    forall k | 0 <= k < |p| && p[k].committed ensures Resumes(p[k], Watermark(p[..k])) {
      assert p[..k] == h[..k] && p[k] == h[k];
    }
  }

  /** No gap: every instant between the start of the first committed window and the stored
      watermark lies inside a committed window. */
  lemma {:induction false} NoGap(h: History, first: nat, t: int)
    requires Resuming(h) && forall k :: 0 <= k < |h| && h[k].committed ==> h[k].overlap >= 0
    requires first < |h| && h[first].committed && forall k :: 0 <= k < first ==> !h[k].committed
    requires Watermark(h).Some? && h[first].from <= t < Watermark(h).value
    ensures exists k :: 0 <= k < |h| && h[k].committed && h[k].from <= t < h[k].windowEnd
  {
    var n, p := |h| - 1, Before(h);
    assert h[n] == Last(h);
    if Last(h).committed && Last(h).from <= t {
    } else {
      assert first < n;
      assert p[first] == h[first];
      WatermarkOf(p, first);
      ResumingBefore(h);
      assert t < Watermark(p).value;
      forall k | 0 <= k < |p| && p[k].committed ensures p[k].overlap >= 0 {
        assert p[k] == h[k];
      }
      NoGap(p, first, t);
      var k :| 0 <= k < |p| && p[k].committed && p[k].from <= t < p[k].windowEnd;
      assert h[k] == p[k];
    }
  }

  /* ---------- at least once, and what breaks exactly once ---------- */

  /** Whatever the schedule: an observation read by a committed run has been exported, under its
      id, by that run or by an earlier committed one. */
  lemma {:induction false} NothingLost(h: History, k: nat, x: Observation)
    requires k < |h| && h[k].committed && x in h[k].batch
    ensures x.id in Ids(Sent(h[..k + 1], Saved))
  {
    var g := h[..k + 1];
    assert Last(g) == h[k];
    IdsConcat(Sent(Before(g), Saved), NewIn(g));
    SeenWasSent(Before(g));
    ReadIsKnownOrNew(g, x);
  }

  lemma {:induction false} SeenWasSent(h: History)
    ensures Seen(h).Keys <= Ids(Sent(h, Saved))
  {
    if h != [] {
      SeenWasSent(Before(h));
      if Last(h).committed {
        IdsConcat(Sent(Before(h), Saved), NewIn(h));
        RecentEntries(NewIn(h), Last(h).Cutoff());
      } else {
        assert Sent(h, Saved) == Sent(Before(h), Saved);
      }
    }
  }

  /** What reached the backend is what the committed runs exported, plus what other runs exported
      before they failed to commit. */
  lemma {:induction false} DeliveredSplits(h: History)
    ensures multiset(Sent(h, Delivered)) == multiset(Sent(h, Saved)) + multiset(Unacknowledged(h))
  {
    if h != [] {
      DeliveredSplits(Before(h));
    }
  }
}
