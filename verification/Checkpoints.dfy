/**
  The persisted checkpoint: its JSON form, the pruning of the map of known ids, and the
  DynamoDB store with its optimistic version.

  Ends are stored as text, so pruning parses them again; the lemmas at the end show that text
  pruning is the pruning of instants that the protocol reasons about.
 */
module Checkpoints {
  import opened Wrappers
  import opened Models
  import opened Timestamps
  import Protocol

  datatype Checkpoint = Checkpoint(watermark: Option<int>, seen: map<Id, string>)

  // The members of the JSON object that are read back.
  datatype Payload = Payload(watermark: Field, seen: Option<map<Id, string>>)

  // How instants are written and read back.  Checkpoints are stated for any such pair, so that their
  // laws do not depend on the timestamp format.
  datatype Codec = Codec(read: Field -> Parsed, format: int -> string)
  {
    // The instant behind a stored end; `None` for a text that is skipped.
    function Ends(text: string): Option<int> {
      var end := read(Text(text));
      if end.At? then Some(end.micros) else None
    }
  }

  function Iso(micros: int): string {
    if InRange(micros) then Print(micros) else ""
  }

  // The timestamp format of models.py.
  const ISO: Codec := Codec(field => Parse(field), Iso)

  ghost predicate ReadsBack(codec: Codec) {
    && codec.read(Falsy) == Absent
    && forall t :: InRange(t) ==> codec.read(Text(codec.format(t))) == At(t)
  }

  lemma IsoReadsBack()
    ensures ReadsBack(ISO)
  {
    forall t | InRange(t) ensures ISO.read(Text(ISO.format(t))) == At(t) {
      RoundTrip(t);
    }
  }

  function ToJson(cp: Checkpoint, codec: Codec): Payload {
    Payload(if cp.watermark.Some? then Text(codec.format(cp.watermark.value)) else Falsy, Some(cp.seen))
  }

  // `None` when the watermark raises.
  function FromJson(payload: Payload, codec: Codec): Option<Checkpoint> {
    var seen := if payload.seen.Some? then payload.seen.value else map[];
    match codec.read(payload.watermark)
    case Absent => Some(Checkpoint(None, seen))
    case At(micros) => Some(Checkpoint(Some(micros), seen))
    case _ => None
  }

  /** A saved checkpoint loads back unchanged. */
  lemma JsonRoundTrip(cp: Checkpoint)
    requires cp.watermark.Some? ==> InRange(cp.watermark.value)
    ensures FromJson(ToJson(cp, ISO), ISO) == Some(cp)
  {
    if cp.watermark.Some? {
      RoundTrip(cp.watermark.value);
    }
  }

  /* ---------- pruning ---------- */

  // An end outside the years 1 to 9999 raises an error that pruning does not catch.
  predicate Readable(seen: map<Id, string>, codec: Codec) {
    forall id :: id in seen ==> !codec.read(Text(seen[id])).OutOfRange?
  }

  predicate Keeps(id: Id, end: Option<int>, cutoff: int) {
    id != BLANK && end.Some? && end.value >= cutoff
  }

  function KeptText(prior: map<Id, string>, cutoff: int, codec: Codec): map<Id, string> {
    map id | id in prior && Keeps(id, codec.Ends(prior[id]), cutoff) :: prior[id]
  }

  function AddRecent(out: map<Id, string>, current: seq<(Id, int)>, cutoff: int, codec: Codec): map<Id, string> {
    if current == [] then out
    else
      var (id, end) := current[|current| - 1];
      var front := AddRecent(out, current[..|current| - 1], cutoff, codec);
      if id != BLANK && end >= cutoff then front[id := codec.format(end)] else front
  }

  function Pruned(prior: map<Id, string>, current: seq<(Id, int)>, cutoff: int, codec: Codec): map<Id, string> {
    AddRecent(KeptText(prior, cutoff, codec), current, cutoff, codec)
  }

  method PruneSeen(prior: map<Id, string>, current: seq<(Id, int)>, cutoff: int, codec: Codec)
    returns (out: map<Id, string>)
    ensures out == Pruned(prior, current, cutoff, codec)
  {
    out := map[];
    var rest := prior.Keys;
    while rest != {}
      invariant rest <= prior.Keys
      invariant out == map id | id in prior && id !in rest && Keeps(id, codec.Ends(prior[id]), cutoff) :: prior[id]
      decreases rest
    {
      var id :| id in rest;
      var end := codec.Ends(prior[id]);
      if id != BLANK && end.Some? && end.value >= cutoff {
        out := out[id := prior[id]];
      }
      rest := rest - {id};
    }
    for i := 0 to |current|
      invariant out == AddRecent(KeptText(prior, cutoff, codec), current[..i], cutoff, codec)
    {
      var (id, end) := current[i];
      assert current[..i + 1][..i] == current[..i];
      if id != BLANK && end >= cutoff {
        out := out[id := codec.format(end)];
      }
    }
    assert current[..|current|] == current;
  }

  /* ---------- text pruning is instant pruning ---------- */

  // The instants behind a stored map.
  function Ends(seen: map<Id, string>, codec: Codec): map<Id, int> {
    map id | id in seen && codec.Ends(seen[id]).Some? :: codec.Ends(seen[id]).value
  }

  // What the pipeline ever stores: named ids with ends that read back.
  ghost predicate Written(seen: map<Id, string>, codec: Codec) {
    forall id :: id in seen ==> id != BLANK && codec.Ends(seen[id]).Some?
  }

  // The (id, end) pairs the pipeline collects while it streams.
  function RecentPairs(xs: seq<Observation>, cutoff: int): seq<(Id, int)> {
    if xs == [] then []
    else
      var front, last := RecentPairs(xs[..|xs| - 1], cutoff), xs[|xs| - 1];
      if last.end >= cutoff then front + [(last.id, last.end)] else front
  }

  ghost predicate Printable(xs: seq<Observation>) {
    forall x :: x in xs ==> x.id != BLANK && InRange(x.end)
  }

  // Stored text that stands for the given instants.
  ghost predicate Stands(seen: map<Id, string>, known: map<Id, int>, codec: Codec) {
    Written(seen, codec) && Ends(seen, codec) == known
  }

  lemma StandsUpdate(seen: map<Id, string>, known: map<Id, int>, id: Id, end: int, codec: Codec)
    requires id != BLANK && InRange(end) && ReadsBack(codec) && Stands(seen, known, codec)
    ensures Stands(seen[id := codec.format(end)], known[id := end], codec)
  {
    assert codec.Ends(codec.format(end)) == Some(end);
  }

  lemma PlusUpdate(a: map<Id, int>, b: map<Id, int>, id: Id, end: int)
    ensures a + b[id := end] == (a + b)[id := end]
  {
  }

  lemma AddRecentSnoc(out: map<Id, string>, xs: seq<Observation>, x: Observation, cutoff: int, codec: Codec)
    requires x.id != BLANK
    ensures AddRecent(out, RecentPairs(xs + [x], cutoff), cutoff, codec) ==
            (var front := AddRecent(out, RecentPairs(xs, cutoff), cutoff, codec);
             if x.end >= cutoff then front[x.id := codec.format(x.end)] else front)
    ensures Protocol.Recent(xs + [x], cutoff) ==
            (var front := Protocol.Recent(xs, cutoff); if x.end >= cutoff then front[x.id := x.end] else front)
  {
    assert (xs + [x])[..|xs|] == xs;
    if x.end >= cutoff {
      var pairs := RecentPairs(xs, cutoff) + [(x.id, x.end)];
      assert pairs[..|pairs| - 1] == RecentPairs(xs, cutoff);
    }
  }

  lemma AddRecentStep(out: map<Id, string>, known: map<Id, int>, xs: seq<Observation>, x: Observation,
                      cutoff: int, codec: Codec)
    requires x.id != BLANK && InRange(x.end) && ReadsBack(codec)
    requires Stands(AddRecent(out, RecentPairs(xs, cutoff), cutoff, codec), known + Protocol.Recent(xs, cutoff), codec)
    ensures Stands(AddRecent(out, RecentPairs(xs + [x], cutoff), cutoff, codec),
                   known + Protocol.Recent(xs + [x], cutoff), codec)
  {
    AddRecentSnoc(out, xs, x, cutoff, codec);
    if x.end >= cutoff {
      PlusUpdate(known, Protocol.Recent(xs, cutoff), x.id, x.end);
      StandsUpdate(AddRecent(out, RecentPairs(xs, cutoff), cutoff, codec), known + Protocol.Recent(xs, cutoff),
                   x.id, x.end, codec);
    }
  }

  lemma {:induction false} AddRecentStands(out: map<Id, string>, known: map<Id, int>, xs: seq<Observation>,
                                           cutoff: int, codec: Codec)
    requires Printable(xs) && Stands(out, known, codec) && ReadsBack(codec)
    ensures Stands(AddRecent(out, RecentPairs(xs, cutoff), cutoff, codec), known + Protocol.Recent(xs, cutoff), codec)
  {
    if xs == [] {
      assert known + map[] == known;
    } else {
      var front, last := xs[..|xs| - 1], xs[|xs| - 1];
      assert xs == front + [last] && last in xs && forall x :: x in front ==> x in xs;
      AddRecentStands(out, known, front, cutoff, codec);
      AddRecentStep(out, known, front, last, cutoff, codec);
    }
  }

  /** Pruning the stored text is pruning the instants: what one run stores, read back, is what the
      protocol prescribes. */
  lemma PruneRefines(prior: map<Id, string>, xs: seq<Observation>, cutoff: int, codec: Codec)
    requires Written(prior, codec) && Printable(xs) && ReadsBack(codec)
    ensures var out := Pruned(prior, RecentPairs(xs, cutoff), cutoff, codec);
            Stands(out, Protocol.Kept(Ends(prior, codec), cutoff) + Protocol.Recent(xs, cutoff), codec)
  {
    KeptTextStands(prior, cutoff, codec);
    AddRecentStands(KeptText(prior, cutoff, codec), Protocol.Kept(Ends(prior, codec), cutoff), xs, cutoff, codec);
  }

  lemma KeptTextStands(prior: map<Id, string>, cutoff: int, codec: Codec)
    requires Written(prior, codec)
    ensures Stands(KeptText(prior, cutoff, codec), Protocol.Kept(Ends(prior, codec), cutoff), codec)
  {
  }

  /** Whatever the pipeline has written can be read without raising. */
  lemma WrittenIsReadable(seen: map<Id, string>, codec: Codec)
    requires Written(seen, codec)
    ensures Readable(seen, codec)
  {
    forall id | id in seen
      ensures !codec.read(Text(seen[id])).OutOfRange?
    {
      assert codec.Ends(seen[id]).Some?;
    }
  }

  /* ---------- the DynamoDB store ---------- */

  // The one item of a job.
  datatype Item = Item(version: nat, watermark: Field, seen: map<Id, string>)

  // 0 stands for an absent item.
  function StoredVersion(item: Option<Item>): nat {
    if item.None? then 0 else item.value.version
  }

  // Versions of written items start at 1.
  predicate WellVersioned(item: Option<Item>) {
    item.Some? ==> item.value.version >= 1
  }

  function Decoded(item: Option<Item>, codec: Codec): Option<Checkpoint> {
    if item.None? then None else FromJson(Payload(item.value.watermark, Some(item.value.seen)), codec)
  }

  function Encoded(cp: Checkpoint, version: nat, codec: Codec): Item {
    Item(version, ToJson(cp, codec).watermark, cp.seen)
  }

  // The table, with the two conditional writes the store uses.
  class Table {
    var item: Option<Item>

    constructor ()
      ensures item == None
    {
      item := None;
    }

    method PutIfAbsent(content: Item) returns (ok: bool)
      modifies this
      ensures ok <==> old(item).None?
      ensures item == if ok then Some(content) else old(item)
    {
      ok := item.None?;
      if ok {
        item := Some(content);
      }
    }

    method PutIfVersion(content: Item, expected: nat) returns (ok: bool)
      modifies this
      ensures ok <==> old(item).Some? && old(item).value.version == expected
      ensures item == if ok then Some(content) else old(item)
    {
      ok := item.Some? && item.value.version == expected;
      if ok {
        item := Some(content);
      }
    }
  }

  datatype Saving = Stored | Conflict | Raised

  class DynamoDbCheckpointStore {
    const table: Table
    const codec: Codec
    var version: nat

    constructor (table: Table, codec: Codec)
      ensures this.table == table && this.codec == codec && version == 0
    {
      this.table, this.codec := table, codec;
      version := 0;
    }

    method Load() returns (cp: Option<Checkpoint>)
      requires table.item.Some? ==> Decoded(table.item, codec).Some?
      modifies this`version
      ensures version == StoredVersion(table.item)
      ensures cp == Decoded(table.item, codec)
    {
      if table.item.None? {
        version := 0;
        return None;
      }
      version := table.item.value.version;
      cp := FromJson(Payload(table.item.value.watermark, Some(table.item.value.seen)), codec);
    }

    /** The save succeeds if and only if the version this store last saw is the stored one; a
        conflict changes nothing.  A put that raises anything else is not understood as either, and may
        have replaced the item all the same. */
    method Save(cp: Checkpoint, fault: Fault) returns (saving: Saving)
      requires WellVersioned(table.item)
      modifies this`version, table
      ensures saving.Raised? <==> !fault.Works?
      ensures saving.Conflict? <==> fault.Works? && old(version) != StoredVersion(old(table.item))
      ensures version == old(version) + if saving.Stored? then 1 else 0
      ensures table.item ==
              if !fault.Fails? && old(version) == StoredVersion(old(table.item))
              then Some(Encoded(cp, old(version) + 1, codec)) else old(table.item)
      ensures WellVersioned(table.item)
    {
      var newVersion := version + 1;
      var item := Encoded(cp, newVersion, codec);
      if fault.Fails? {
        return Raised;
      }
      var ok: bool;
      if version == 0 {
        ok := table.PutIfAbsent(item);
      } else {
        ok := table.PutIfVersion(item, version);
      }
      if fault.Lands? {
        return Raised;
      }
      if !ok {
        return Conflict;
      }
      version := newVersion;
      saving := Saving.Stored;
    }
  }

  /** What a successful save leaves behind is what the next load returns. */
  lemma SaveThenLoad(cp: Checkpoint, version: nat)
    requires cp.watermark.Some? ==> InRange(cp.watermark.value)
    ensures Decoded(Some(Encoded(cp, version, ISO)), ISO) == Some(cp)
  {
    JsonRoundTrip(cp);
  }
}
