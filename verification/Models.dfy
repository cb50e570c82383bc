/**
  Observations and the parser that turns a raw record into one, with its rejections.
 */
module Models {
  import opened Wrappers
  import Timestamps

  type Id = string

  const BLANK: Id := ""

  // A cost as found in the record: absent, a finite number, or anything `float` refuses or
  // finds infinite.
  datatype RawCost = NoCost | Amount(usd: real) | BadCost

  // One candidate for a token count: absent, a finite number, or anything else.
  datatype RawCount = NoCount | Num(value: real) | BadCount

  // The members of a record that are read after the timestamps.
  datatype Body = Body(level: string, team: string, route: string, providedModel: string,
                       internalModel: string, env: string, stream: bool,
                       input: seq<RawCount>, output: seq<RawCount>, total: seq<RawCount>,
                       cacheRead: seq<RawCount>, cost: RawCost, errorType: Option<string>)

  // A raw record; `body` is `None` when reading it raises something unforeseen.
  datatype Raw = Raw(startTime: Timestamps.Field, endTime: Timestamps.Field,
                     completionStartTime: Timestamps.Field, id: Id, body: Option<Body>)

  datatype Observation = Observation(
    id: Id, level: string, team: string, route: string, providedModel: string, internalModel: string,
    env: string, stream: bool, start: int, completionStart: Option<int>, end: int,
    inputTokens: nat, outputTokens: nat, totalTokens: nat, cacheReadTokens: nat,
    costTotal: Option<real>, costInvalid: bool, error: Option<string>)
  {
    predicate IsError() {
      level == "ERROR" || error.Some?
    }

    function LatencyMs(): real {
      (end - start) as real / 1000.0
    }

    // Time to first token: only for successful streaming requests whose completion start lies
    // between start and end.
    function TtftMs(): Option<real> {
      if IsError() || completionStart.None? || !stream then None
      else if !(start <= completionStart.value <= end) then None
      else Some((completionStart.value - start) as real / 1000.0)
    }

    predicate IsCacheHit() {
      cacheReadTokens > 0
    }

    // What every parsed observation satisfies.
    predicate Valid() {
      && start <= end
      && (costInvalid ==> costTotal.None?)
      && (costTotal.Some? ==> costTotal.value >= 0.0)
    }
  }

  datatype Reason = UnparseableTimestamp | MissingTimestamp | EndBeforeStart | MissingObservationId

  datatype Outcome = Parsed(obs: Observation) | Malformed(reason: Reason) | Unexpected

  // A non-negative whole number.
  predicate Countable(c: RawCount) {
    c.Num? && c.value >= 0.0 && c.value.Floor as real == c.value
  }

  function TokenCount(candidates: seq<RawCount>): nat {
    if candidates == [] then 0
    else if Countable(candidates[0]) then candidates[0].value.Floor
    else TokenCount(candidates[1..])
  }

  // A candidate that is a natural number.
  ghost predicate IsNatural(c: RawCount, n: nat) {
    c == Num(n as real)
  }

  lemma CountableIff(c: RawCount)
    ensures Countable(c) <==> exists n :: IsNatural(c, n)
    ensures forall n :: IsNatural(c, n) ==> c.value.Floor == n
  {
    if Countable(c) {
      assert IsNatural(c, c.value.Floor);
    }
  }

  /** A token count is the first candidate that is a natural number, zero included, at any position, and 0
      when none is. */
  lemma {:induction false} TokenCountIsFirst(candidates: seq<RawCount>, i: nat, n: nat)
    requires i <= |candidates| && forall j, k :: 0 <= j < i ==> !IsNatural(candidates[j], k)
    ensures i == |candidates| ==> TokenCount(candidates) == 0
    ensures i < |candidates| && IsNatural(candidates[i], n) ==> TokenCount(candidates) == n
  {
    if candidates != [] {
      CountableIff(candidates[0]);
      if i > 0 {
        TokenCountIsFirst(candidates[1..], i - 1, n);
      }
    }
  }

  const SAFE_ERROR_TYPES: set<string> := {
    "throttlingexception", "ratelimiterror", "ratelimitexception", "timeouterror", "timeoutexception",
    "serviceunavailable", "serviceunavailableexception", "internalservererror", "modelerrorexception",
    "authenticationerror", "accessdeniedexception", "badrequesterror", "validationexception",
    "contentpolicyviolation"
  }

  function ErrorMarker(raw: Option<string>): Option<string> {
    if raw.None? then None
    else if raw.value in SAFE_ERROR_TYPES then raw else Some("__unknown__")
  }

  // The cost, and whether one was given that cannot be used.
  function Cost(raw: RawCost): (cost: (Option<real>, bool))
    ensures cost.1 <==> raw != NoCost && cost.0.None?
    ensures cost.0.Some? <==> raw.Amount? && raw.usd >= 0.0
    ensures cost.0.Some? ==> cost.0.value == raw.usd
  {
    match raw
    case NoCost => (None, false)
    case Amount(usd) => if usd >= 0.0 then (Some(usd), false) else (None, true)
    case BadCost => (None, true)
  }

  // The members of a record whose times are read.
  function ObservationOf(id: Id, body: Body, start: int, completionStart: Option<int>, end: int): (obs: Observation)
    requires start <= end
    ensures obs.Valid() && obs.id == id
  {
    var (cost, costInvalid) := Cost(body.cost);
    Observation(id, body.level, Timestamps.Strip(body.team), Timestamps.Strip(body.route),
                body.providedModel, body.internalModel, Timestamps.Strip(body.env), body.stream,
                start, completionStart, end,
                TokenCount(body.input), TokenCount(body.output), TokenCount(body.total),
                TokenCount(body.cacheRead), cost, costInvalid, ErrorMarker(body.errorType))
  }

  /** The parser.  Timestamps come first, so a record with an unreadable one is malformed however
      broken the rest is. */
  function ParseObservation(raw: Raw): (outcome: Outcome)
    ensures outcome.Parsed? ==> outcome.obs.Valid() && outcome.obs.id == raw.id
  {
    var start := Timestamps.Parse(raw.startTime);
    var end := Timestamps.Parse(raw.endTime);
    if start.Invalid? then Malformed(UnparseableTimestamp)
    else if start.OutOfRange? then Unexpected
    else if end.Invalid? then Malformed(UnparseableTimestamp)
    else if end.OutOfRange? then Unexpected
    else if start.Absent? || end.Absent? then Malformed(MissingTimestamp)
    else if end.micros < start.micros then Malformed(EndBeforeStart)
    else
      var completion := Timestamps.Parse(raw.completionStartTime);
      if raw.body.None? || completion.OutOfRange? then Unexpected
      else
        Parsed(ObservationOf(raw.id, raw.body.value, start.micros,
                             if completion.At? then Some(completion.micros) else None, end.micros))
  }

  /** Of a record whose times denote instants within the years 1 to 9999: it is rejected exactly when
      it ends, in whole microseconds, before it starts; otherwise it is parsed with those instants,
      unless reading the rest of it raises. */
  lemma ParseVerdict(raw: Raw, started: int, ended: int)
    requires raw.startTime.Text? && raw.startTime.text != "" && raw.endTime.Text? && raw.endTime.text != ""
    requires Timestamps.Denotes(raw.startTime.text, started) && Timestamps.Denotes(raw.endTime.text, ended)
    requires Timestamps.InRange(started / 1000) && Timestamps.InRange(ended / 1000)
    ensures var o := ParseObservation(raw);
            && (o.Malformed? <==> ended / 1000 < started / 1000) && (o.Malformed? ==> o.reason == EndBeforeStart)
            && (o.Parsed? ==>
                  && o.obs.start == started / 1000 && o.obs.end == ended / 1000
                  && o.obs.LatencyMs() * 1000.0 == (ended / 1000 - started / 1000) as real)
            && (o.Unexpected? ==> raw.body.None? || Timestamps.Parse(raw.completionStartTime).OutOfRange?)
  {
    Timestamps.ParseAccepts(raw.startTime.text, started);
    Timestamps.ParseAccepts(raw.endTime.text, ended);
  }
}
