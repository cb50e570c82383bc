/**
  The parser field by field: which records it rejects and why, and the record an observation is read
  back from.
 */
module Records {
  import opened Wrappers
  import opened Models
  import T = Timestamps

  /* ---------- the verdicts ---------- */

  /** Why a record is malformed, and when reading it raises something unforeseen. */
  lemma ParseReasons(raw: Raw)
    ensures var start, end, o := T.Parse(raw.startTime), T.Parse(raw.endTime), ParseObservation(raw);
            var timed := start.At? && end.At? && start.micros <= end.micros;
            && (o == Malformed(UnparseableTimestamp) <==> start.Invalid? || (!start.OutOfRange? && end.Invalid?))
            && (o == Malformed(MissingTimestamp) <==>
                  (start.Absent? && (end.Absent? || end.At?)) || (start.At? && end.Absent?))
            && (o == Malformed(EndBeforeStart) <==> start.At? && end.At? && end.micros < start.micros)
            && (o == Unexpected <==>
                  || start.OutOfRange? || (!start.Invalid? && end.OutOfRange?)
                  || (timed && (raw.body.None? || T.Parse(raw.completionStartTime).OutOfRange?)))
            && (o.Parsed? ==> timed && o.obs.start == start.micros && o.obs.end == end.micros)
  {
  }

  /* ---------- the round trip ---------- */

  function TimeOf(micros: Option<int>): T.Field {
    if micros.Some? && T.InRange(micros.value) then T.Text(T.Print(micros.value)) else T.Falsy
  }

  function CostIn(obs: Observation): RawCost {
    if obs.costInvalid then BadCost else if obs.costTotal.Some? then Amount(obs.costTotal.value) else NoCost
  }

  function CountIn(n: nat): seq<RawCount> {
    [Num(n as real)]
  }

  function BodyOf(obs: Observation): Body {
    Body(obs.level, obs.team, obs.route, obs.providedModel, obs.internalModel, obs.env, obs.stream,
         CountIn(obs.inputTokens), CountIn(obs.outputTokens), CountIn(obs.totalTokens), CountIn(obs.cacheReadTokens),
         CostIn(obs), obs.error)
  }

  // A record that carries the fields of an observation where the source keeps them.
  function RecordOf(obs: Observation): Raw {
    Raw(TimeOf(Some(obs.start)), TimeOf(Some(obs.end)), TimeOf(obs.completionStart), obs.id, Some(BodyOf(obs)))
  }

  // What holds of every parsed observation.
  ghost predicate Normal(obs: Observation) {
    && obs.Valid() && T.InRange(obs.start) && T.InRange(obs.end)
    && (obs.completionStart.Some? ==> T.InRange(obs.completionStart.value))
    && T.Strip(obs.team) == obs.team && T.Strip(obs.route) == obs.route && T.Strip(obs.env) == obs.env
    && (obs.error.Some? ==> obs.error.value in SAFE_ERROR_TYPES || obs.error.value == "__unknown__")
  }

  lemma TimeReadsBack(micros: Option<int>)
    requires micros.Some? ==> T.InRange(micros.value)
    ensures T.Parse(TimeOf(micros)) == if micros.Some? then T.At(micros.value) else T.Absent
  {
    if micros.Some? {
      T.RoundTrip(micros.value);
    }
  }

  lemma CountReadsBack(n: nat)
    ensures TokenCount(CountIn(n)) == n
  {
    assert (n as real).Floor == n;
  }

  lemma BodyReadsBack(obs: Observation)
    requires Normal(obs)
    ensures ObservationOf(obs.id, BodyOf(obs), obs.start, obs.completionStart, obs.end) == obs
  {
    CountReadsBack(obs.inputTokens);
    CountReadsBack(obs.outputTokens);
    CountReadsBack(obs.totalTokens);
    CountReadsBack(obs.cacheReadTokens);
  }

  // A record whose times are read.
  lemma ParseTimed(raw: Raw, start: int, completionStart: Option<int>, end: int, body: Body)
    requires T.Parse(raw.startTime) == T.At(start) && T.Parse(raw.endTime) == T.At(end) && start <= end
    requires T.Parse(raw.completionStartTime) ==
             if completionStart.Some? then T.At(completionStart.value) else T.Absent
    requires raw.body == Some(body)
    ensures ParseObservation(raw) == Parsed(ObservationOf(raw.id, body, start, completionStart, end))
  {
  }

  /** Every normal observation is read back from its record, field by field. */
  lemma RecordRoundTrip(obs: Observation)
    requires Normal(obs)
    ensures ParseObservation(RecordOf(obs)) == Parsed(obs)
  {
    TimeReadsBack(Some(obs.start));
    TimeReadsBack(Some(obs.end));
    TimeReadsBack(obs.completionStart);
    BodyReadsBack(obs);
    ParseTimed(RecordOf(obs), obs.start, obs.completionStart, obs.end, BodyOf(obs));
  }

  lemma StripTwice(s: string)
    ensures T.Strip(T.Strip(s)) == T.Strip(s)
  {
    var before, after := T.StripMeans(s);
    if T.Strip(s) != "" {
      T.StripKeeps(T.Strip(s));
    }
  }

  /** And every parsed observation is normal: parsing brings records to a form that it leaves alone. */
  lemma ParsedIsNormal(raw: Raw)
    requires ParseObservation(raw).Parsed?
    ensures var obs := ParseObservation(raw).obs;
            Normal(obs) && ParseObservation(RecordOf(obs)) == Parsed(obs)
  {
    var obs := ParseObservation(raw).obs;
    StripTwice(raw.body.value.team);
    StripTwice(raw.body.value.route);
    StripTwice(raw.body.value.env);
    RecordRoundTrip(obs);
  }
}
