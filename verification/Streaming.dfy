/**
  The streaming pass of one run: parse with quarantine, in-batch then cross-run deduplication, and
  folding into the accumulators, with an account of every record read.
 */
module Streaming {
  import opened Wrappers
  import opened Models
  import opened Idempotency
  import opened Series
  import opened Aggregation
  import opened Reservoir
  import opened Checkpoints

  /* ---------- what becomes of the records ---------- */

  // The valid observations with an id, in order.  Records are of any type `R`; the source's parser
  // is `ParseObservation`.
  function Named<R>(raws: seq<R>, parse: R -> Outcome): seq<Observation> {
    if raws == [] then []
    else
      var front, outcome := Named(raws[..|raws| - 1], parse), parse(raws[|raws| - 1]);
      if outcome.Parsed? && outcome.obs.id != BLANK then front + [outcome.obs] else front
  }

  function ReasonOf(outcome: Outcome): Option<Reason> {
    match outcome
    case Malformed(reason) => Some(reason)
    case Parsed(obs) => if obs.id == BLANK then Some(MissingObservationId) else None
    case Unexpected => None
  }

  // How many records are rejected for a reason, and how many are poisonous.
  function Rejects<R>(raws: seq<R>, parse: R -> Outcome, reason: Reason): nat {
    if raws == [] then 0
    else
      Rejects(raws[..|raws| - 1], parse, reason)
      + if ReasonOf(parse(raws[|raws| - 1])) == Some(reason) then 1 else 0
  }

  function Poisonous<R>(raws: seq<R>, parse: R -> Outcome): nat {
    if raws == [] then 0
    else Poisonous(raws[..|raws| - 1], parse) + if parse(raws[|raws| - 1]).Unexpected? then 1 else 0
  }

  // What a run exports: its named observations, deduplicated, minus the ids it already knows.
  function Processed<R>(raws: seq<R>, parse: R -> Outcome, prior: set<Id>): seq<Observation> {
    Fresh(Dedup(Named(raws, parse)), prior)
  }

  function LatestEnd(xs: seq<Observation>): Option<int> {
    if xs == [] then None
    else
      var front, end := LatestEnd(xs[..|xs| - 1]), xs[|xs| - 1].end;
      if front.None? || end > front.value then Some(end) else front
  }

  function RecentIf(xs: seq<Observation>, cutoff: Option<int>): seq<(Id, int)> {
    if cutoff.Some? then RecentPairs(xs, cutoff.value) else []
  }

  /* ---------- the account ---------- */

  datatype Tally = Tally(read: nat, quarantined: nat, duplicates: nat, crossRun: nat, processed: nat,
                         malformed: map<Reason, nat>, maxEnd: Option<int>, current: seq<(Id, int)>)

  const NO_RECORDS: Tally := Tally(0, 0, 0, 0, 0, map[], None, [])

  ghost predicate Counts<R>(malformed: map<Reason, nat>, raws: seq<R>, parse: R -> Outcome) {
    forall r: Reason ::
      (r in malformed <==> Rejects(raws, parse, r) > 0) && (r in malformed ==> malformed[r] == Rejects(raws, parse, r))
  }

  ghost predicate Accounts<R>(t: Tally, raws: seq<R>, parse: R -> Outcome, prior: set<Id>, cutoff: Option<int>) {
    var named, kept := Named(raws, parse), Processed(raws, parse, prior);
    && t.read == |raws| && t.quarantined == Poisonous(raws, parse) && Counts(t.malformed, raws, parse)
    && t.duplicates == |named| - |Dedup(named)| && t.crossRun == |Dedup(named)| - |kept| && t.processed == |kept|
    && t.maxEnd == LatestEnd(kept) && t.current == RecentIf(kept, cutoff)
  }

  function Reject(t: Tally, reason: Reason): Tally {
    t.(read := t.read + 1, malformed := Bump(t.malformed, reason, 1, PlusNat))
  }

  function Quarantine(t: Tally): Tally {
    t.(read := t.read + 1, quarantined := t.quarantined + 1)
  }

  function Repeat(t: Tally): Tally {
    t.(read := t.read + 1, duplicates := t.duplicates + 1)
  }

  function Known(t: Tally): Tally {
    t.(read := t.read + 1, crossRun := t.crossRun + 1)
  }

  function Process(t: Tally, obs: Observation, cutoff: Option<int>): Tally {
    t.(read := t.read + 1, processed := t.processed + 1,
       maxEnd := if t.maxEnd.None? || obs.end > t.maxEnd.value then Some(obs.end) else t.maxEnd,
       current := if cutoff.Some? && obs.end >= cutoff.value then t.current + [(obs.id, obs.end)] else t.current)
  }

  lemma RecordsSnoc<R>(raws: seq<R>, raw: R, parse: R -> Outcome, reason: Reason)
    ensures Named(raws + [raw], parse) == Named(raws, parse) +
            (if parse(raw).Parsed? && parse(raw).obs.id != BLANK then [parse(raw).obs] else [])
    ensures Poisonous(raws + [raw], parse) == Poisonous(raws, parse) + (if parse(raw).Unexpected? then 1 else 0)
    ensures Rejects(raws + [raw], parse, reason) ==
            Rejects(raws, parse, reason) + (if ReasonOf(parse(raw)) == Some(reason) then 1 else 0)
  {
    assert (raws + [raw])[..|raws|] == raws;
  }

  lemma CountsSnoc<R>(malformed: map<Reason, nat>, raws: seq<R>, raw: R, parse: R -> Outcome)
    requires Counts(malformed, raws, parse)
    ensures var reason := ReasonOf(parse(raw));
            Counts(if reason.Some? then Bump(malformed, reason.value, 1, PlusNat) else malformed, raws + [raw], parse)
  {
    forall r: Reason
      ensures Rejects(raws + [raw], parse, r) ==
              Rejects(raws, parse, r) + (if ReasonOf(parse(raw)) == Some(r) then 1 else 0)
    {
      RecordsSnoc(raws, raw, parse, r);
    }
  }

  // A record that is not a named observation.
  lemma AccountsRejected<R>(t: Tally, raws: seq<R>, raw: R, parse: R -> Outcome, prior: set<Id>, cutoff: Option<int>)
    requires Accounts(t, raws, parse, prior, cutoff)
    requires ReasonOf(parse(raw)).Some? || parse(raw).Unexpected?
    ensures Named(raws + [raw], parse) == Named(raws, parse)
    ensures Accounts(if parse(raw).Unexpected? then Quarantine(t) else Reject(t, ReasonOf(parse(raw)).value),
                     raws + [raw], parse, prior, cutoff)
  {
    RecordsSnoc(raws, raw, parse, MissingObservationId);
    assert Named(raws + [raw], parse) == Named(raws, parse);
    CountsSnoc(t.malformed, raws, raw, parse);
  }

  lemma KeptSnocs(kept: seq<Observation>, obs: Observation, cutoff: Option<int>)
    ensures LatestEnd(kept + [obs]) ==
            (var m := LatestEnd(kept); if m.None? || obs.end > m.value then Some(obs.end) else m)
    ensures RecentIf(kept + [obs], cutoff) ==
            RecentIf(kept, cutoff) + (if cutoff.Some? && obs.end >= cutoff.value then [(obs.id, obs.end)] else [])
  {
    assert (kept + [obs])[..|kept|] == kept;
  }

  lemma IdsSnoc(xs: seq<Observation>, x: Observation)
    ensures Ids(xs + [x]) == Ids(xs) + {x.id}
  {
    IdsConcat(xs, [x]);
    assert Ids([x]) == {x.id};
  }

  lemma NamedSnoc(named: seq<Observation>, obs: Observation, prior: set<Id>)
    requires obs.id != BLANK
    ensures Ids(named + [obs]) == Ids(named) + {obs.id}
    ensures Dedup(named + [obs]) == Dedup(named) + (if obs.id in Ids(named) then [] else [obs])
    ensures Fresh(Dedup(named + [obs]), prior) ==
            Fresh(Dedup(named), prior) + (if obs.id in Ids(named) || obs.id in prior then [] else [obs])
  {
    IdsSnoc(named, obs);
    DedupSnoc(named, obs);
    FreshSnoc(Dedup(named), obs, prior);
  }

  lemma ProcessedSnoc<R>(raws: seq<R>, raw: R, parse: R -> Outcome, prior: set<Id>)
    requires parse(raw).Parsed? && parse(raw).obs.id != BLANK
    ensures var obs, named, next := parse(raw).obs, Named(raws, parse), Named(raws + [raw], parse);
            && next == named + [obs] && Ids(next) == Ids(named) + {obs.id}
            && Dedup(next) == Dedup(named) + (if obs.id in Ids(named) then [] else [obs])
            && Fresh(Dedup(next), prior) ==
               Fresh(Dedup(named), prior) + (if obs.id in Ids(named) || obs.id in prior then [] else [obs])
  {
    RecordsSnoc(raws, raw, parse, MissingObservationId);
    NamedSnoc(Named(raws, parse), parse(raw).obs, prior);
  }

  // A named observation.
  lemma AccountsNamed<R>(t: Tally, raws: seq<R>, raw: R, parse: R -> Outcome, prior: set<Id>, cutoff: Option<int>)
    requires Accounts(t, raws, parse, prior, cutoff) && parse(raw).Parsed? && parse(raw).obs.id != BLANK
    ensures var obs := parse(raw).obs;
            Accounts(if obs.id in Ids(Named(raws, parse)) then Repeat(t)
                     else if obs.id in prior then Known(t)
                     else Process(t, obs, cutoff),
                     raws + [raw], parse, prior, cutoff)
  {
    RecordsSnoc(raws, raw, parse, MissingObservationId);
    ProcessedSnoc(raws, raw, parse, prior);
    CountsSnoc(t.malformed, raws, raw, parse);
    KeptSnocs(Processed(raws, parse, prior), parse(raw).obs, cutoff);
  }

  /* ---------- conservation ---------- */

  function Of(malformed: map<Reason, nat>, reason: Reason): nat {
    if reason in malformed then malformed[reason] else 0
  }

  // The malformed records of all reasons.
  function MalformedTotal(malformed: map<Reason, nat>): nat {
    Of(malformed, UnparseableTimestamp) + Of(malformed, MissingTimestamp) + Of(malformed, EndBeforeStart)
    + Of(malformed, MissingObservationId)
  }

  lemma OneVerdict(outcome: Outcome)
    ensures 1 == (if outcome.Parsed? && outcome.obs.id != BLANK then 1 else 0) + (if outcome.Unexpected? then 1 else 0)
                 + (if ReasonOf(outcome) == Some(UnparseableTimestamp) then 1 else 0)
                 + (if ReasonOf(outcome) == Some(MissingTimestamp) then 1 else 0)
                 + (if ReasonOf(outcome) == Some(EndBeforeStart) then 1 else 0)
                 + (if ReasonOf(outcome) == Some(MissingObservationId) then 1 else 0)
  {
    if outcome.Malformed? {
      match outcome.reason
      case UnparseableTimestamp =>
      case MissingTimestamp =>
      case EndBeforeStart =>
      case MissingObservationId =>
    }
  }

  lemma {:induction false} RecordsSplit<R>(raws: seq<R>, parse: R -> Outcome)
    ensures |raws| == |Named(raws, parse)| + Poisonous(raws, parse)
                      + Rejects(raws, parse, UnparseableTimestamp) + Rejects(raws, parse, MissingTimestamp)
                      + Rejects(raws, parse, EndBeforeStart) + Rejects(raws, parse, MissingObservationId)
  {
    if raws != [] {
      var front, last := raws[..|raws| - 1], raws[|raws| - 1];
      RecordsSplit(front, parse);
      OneVerdict(parse(last));
    }
  }

  /** Every record read is accounted for exactly once: processed, malformed, quarantined, repeated
      in the batch, or known from an earlier run. */
  lemma Conservation<R>(t: Tally, raws: seq<R>, parse: R -> Outcome, prior: set<Id>, cutoff: Option<int>)
    requires Accounts(t, raws, parse, prior, cutoff)
    ensures t.read == t.processed + MalformedTotal(t.malformed) + t.quarantined + t.duplicates + t.crossRun
  {
    RecordsSplit(raws, parse);
  }

  /* ---------- the pass ---------- */

  // The two accumulators hold the given observations.
  ghost predicate Holds(agg: Aggregator, quality: QualityAccumulator, xs: seq<Observation>)
    reads agg, quality
  {
    agg.State() == Fold(xs, agg.plan) && Reflects(quality.groups, xs, quality.keyOf, quality.cap)
  }

  method AddToBoth(agg: Aggregator, quality: QualityAccumulator, ghost xs: seq<Observation>, obs: Observation)
    requires Holds(agg, quality, xs)
    modifies agg, quality
    ensures Holds(agg, quality, xs + [obs])
  {
    AddNext(agg, xs, obs);
    quality.Add(xs, obs);
  }

  // A source: the records it yields, and whether it then raises.
  datatype Source<R> = Source(records: seq<R>, fails: bool)

  // The records a run looks at, under its safety limit.
  function Taken<R>(source: Source<R>, maxRecords: Option<nat>): seq<R> {
    if Truncates(source, maxRecords) then source.records[..maxRecords.value] else source.records
  }

  predicate Truncates<R>(source: Source<R>, maxRecords: Option<nat>) {
    maxRecords.Some? && |source.records| > maxRecords.value
  }

  /** The streaming pass.  Records past the limit are not looked at, and a source that raises after
      the limit is never asked again. */
  method Stream<R>(source: Source<R>, parse: R -> Outcome, prior: set<Id>, cutoff: Option<int>,
                   maxRecords: Option<nat>, agg: Aggregator, quality: QualityAccumulator)
    returns (t: Tally, truncated: bool, failed: bool)
    requires Holds(agg, quality, [])
    modifies agg, quality
    ensures truncated == Truncates(source, maxRecords) && failed == (source.fails && !truncated)
    ensures Accounts(t, Taken(source, maxRecords), parse, prior, cutoff)
    ensures Holds(agg, quality, Processed(Taken(source, maxRecords), parse, prior))
  {
    t, truncated := NO_RECORDS, false;
    var seenBatch: set<Id> := {};
    ghost var done: seq<R> := [];
    var i := 0;
    while i < |source.records|
      invariant 0 <= i <= |source.records| && |done| == i && done == source.records[..i] && !truncated
      invariant maxRecords.Some? ==> i <= maxRecords.value
      invariant Accounts(t, done, parse, prior, cutoff) && seenBatch == Ids(Named(done, parse))
      invariant Holds(agg, quality, Processed(done, parse, prior))
    {
      if maxRecords.Some? && t.read >= maxRecords.value {
        truncated := true;
        break;
      }
      PrefixSnoc(source.records, i);
      t, seenBatch, done := Take(done, source.records[i], parse, prior, cutoff, t, seenBatch, agg, quality);
      i := i + 1;
    }
    assert done == Taken(source, maxRecords);
    failed := source.fails && !truncated;
  }

  lemma PrefixSnoc<R>(records: seq<R>, i: nat)
    requires i < |records|
    ensures records[..i + 1] == records[..i] + [records[i]]
  {
  }

  method Take<R>(ghost raws: seq<R>, raw: R, parse: R -> Outcome, prior: set<Id>, cutoff: Option<int>,
                 t: Tally, seenBatch: set<Id>, agg: Aggregator, quality: QualityAccumulator)
    returns (t': Tally, seenBatch': set<Id>, ghost raws': seq<R>)
    requires Accounts(t, raws, parse, prior, cutoff) && seenBatch == Ids(Named(raws, parse))
    requires Holds(agg, quality, Processed(raws, parse, prior))
    modifies agg, quality
    ensures raws' == raws + [raw]
    ensures Accounts(t', raws', parse, prior, cutoff) && seenBatch' == Ids(Named(raws', parse))
    ensures Holds(agg, quality, Processed(raws', parse, prior))
  {
    seenBatch', raws' := seenBatch, raws + [raw];
    var outcome := parse(raw);
    if outcome.Malformed? {
      AccountsRejected(t, raws, raw, parse, prior, cutoff);
      t' := Reject(t, outcome.reason);
    } else if outcome.Unexpected? {
      AccountsRejected(t, raws, raw, parse, prior, cutoff);
      t' := Quarantine(t);
    } else if outcome.obs.id == BLANK {
      AccountsRejected(t, raws, raw, parse, prior, cutoff);
      t' := Reject(t, MissingObservationId);
    } else {
      var obs := outcome.obs;
      AccountsNamed(t, raws, raw, parse, prior, cutoff);
      ProcessedSnoc(raws, raw, parse, prior);
      if obs.id in seenBatch {
        t' := Repeat(t);
        return;
      }
      seenBatch' := seenBatch + {obs.id};
      if obs.id in prior {
        t' := Known(t);
        return;
      }
      AddToBoth(agg, quality, Processed(raws, parse, prior), obs);
      t' := Process(t, obs, cutoff);
    }
  }
}
