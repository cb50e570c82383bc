/**
  The three-state circuit breaker in front of a provider, and the retrying request that reports to
  it.  The clock is an input.
 */
module CircuitBreakers {
  import opened Wrappers

  datatype Status = Closed | Open | HalfOpen

  datatype Config = Config(threshold: int, timeout: real)

  datatype View = View(failures: nat, lastFailure: real, status: Status)

  // What happens to a breaker, in the order it happens.
  datatype Event = Ask(now: real) | Fail(now: real) | Succeed

  const FRESH: View := View(0, 0.0, Closed)

  predicate Admits(v: View, now: real, c: Config) {
    v.status != Open || now - v.lastFailure > c.timeout
  }

  function Step(v: View, e: Event, c: Config): View {
    match e
    case Ask(now) => if v.status == Open && now - v.lastFailure > c.timeout then v.(status := HalfOpen) else v
    case Fail(now) => View(v.failures + 1, now, if v.failures + 1 >= c.threshold then Open else v.status)
    case Succeed => View(0, v.lastFailure, Closed)
  }

  function After(v: View, events: seq<Event>, c: Config): View {
    if events == [] then v else Step(After(v, events[..|events| - 1], c), events[|events| - 1], c)
  }

  lemma AfterSnoc(v: View, events: seq<Event>, e: Event, c: Config)
    ensures After(v, events + [e], c) == Step(After(v, events, c), e, c)
  {
    assert (events + [e])[..|events|] == events;
  }

  class Breaker {
    const config: Config
    var failureCount: nat
    var lastFailureTime: real
    var state: Status

    function Now(): View
      reads this
    {
      View(failureCount, lastFailureTime, state)
    }

    constructor (failureThreshold: int, recoveryTimeout: real)
      ensures config == Config(failureThreshold, recoveryTimeout) && Now() == FRESH
    {
      config := Config(failureThreshold, recoveryTimeout);
      failureCount, lastFailureTime, state := 0, 0.0, Closed;
    }

    method RecordFailure(now: real)
      modifies this
      ensures Now() == Step(old(Now()), Fail(now), config)
    {
      failureCount := failureCount + 1;
      lastFailureTime := now;
      if failureCount >= config.threshold {
        state := Open;
      }
    }

    method RecordSuccess()
      modifies this
      ensures Now() == Step(old(Now()), Succeed, config)
    {
      failureCount := 0;
      state := Closed;
    }

    method IsAllowed(now: real) returns (allowed: bool)
      modifies this
      ensures allowed == Admits(old(Now()), now, config)
      ensures Now() == Step(old(Now()), Ask(now), config)
    {
      if state == Closed {
        return true;
      }
      if state == Open {
        if now - lastFailureTime > config.timeout {
          state := HalfOpen;
          return true;
        }
        return false;
      }
      allowed := true;
    }

    // The events of other calls.
    method Apply(events: seq<Event>)
      modifies this
      ensures Now() == After(old(Now()), events, config)
    {
      ghost var start := Now();
      for i := 0 to |events|
        invariant Now() == After(start, events[..i], config)
      {
        assert events[..i + 1][..i] == events[..i];
        match events[i]
        case Ask(now) => var _ := IsAllowed(now);
        case Fail(now) => RecordFailure(now);
        case Succeed => RecordSuccess();
      }
      assert events[..|events|] == events;
    }
  }

  /* ---------- the stateless rule ---------- */

  // Failures since the last success.
  function FailuresSince(events: seq<Event>): nat {
    if events == [] then 0
    else
      match events[|events| - 1]
      case Succeed => 0
      case Fail(_) => FailuresSince(events[..|events| - 1]) + 1
      case Ask(_) => FailuresSince(events[..|events| - 1])
  }

  function LastFailure(events: seq<Event>): real {
    if events == [] then 0.0
    else if events[|events| - 1].Fail? then events[|events| - 1].now
    else LastFailure(events[..|events| - 1])
  }

  // The latest reading of the clock.
  function Clock(events: seq<Event>): Option<real> {
    if events == [] then None
    else if events[|events| - 1].Succeed? then Clock(events[..|events| - 1])
    else Some(events[|events| - 1].now)
  }

  ghost predicate Nondecreasing(events: seq<Event>) {
    events == [] ||
    (var front, last := events[..|events| - 1], events[|events| - 1];
     Nondecreasing(front) && (last.Succeed? || Clock(front).None? || last.now >= Clock(front).value))
  }

  predicate FewFailures(events: seq<Event>, c: Config) {
    FailuresSince(events) == 0 || FailuresSince(events) < c.threshold
  }

  predicate Waited(events: seq<Event>, now: real, c: Config) {
    now - LastFailure(events) > c.timeout
  }

  // Since the last failure or success, some query came after the timeout while failures were not few.
  predicate Probed(events: seq<Event>, c: Config) {
    events != [] && events[|events| - 1].Ask? &&
    (var front := events[..|events| - 1];
     Probed(front, c) || (!FewFailures(front, c) && Waited(front, events[|events| - 1].now, c)))
  }

  /** The three states, read off the trace, whatever the clock does. */
  lemma {:induction false} StatesMean(events: seq<Event>, c: Config)
    ensures var v := After(FRESH, events, c);
            && v.failures == FailuresSince(events) && v.lastFailure == LastFailure(events)
            && (v.status == Closed <==> FewFailures(events, c))
            && (v.status == HalfOpen <==> Probed(events, c))
  {
    if events != [] {
      StatesMean(events[..|events| - 1], c);
    }
  }

  /** When the rule holds: the breaker admits a request exactly when fewer than `threshold` failures
      were recorded since the last success or the last failure is more than the timeout ago, if and
      only if a breaker that was probed is not asked at a time before the timeout had passed. */
  lemma RuleHoldsIff(events: seq<Event>, now: real, c: Config)
    ensures (Admits(After(FRESH, events, c), now, c) <==> FewFailures(events, c) || Waited(events, now, c))
            <==> (Probed(events, c) ==> Waited(events, now, c))
  {
    StatesMean(events, c);
  }

  lemma {:induction false} ClockPassesProbe(events: seq<Event>, c: Config)
    requires Nondecreasing(events)
    ensures Probed(events, c) ==> Clock(events).Some? && Waited(events, Clock(events).value, c)
  {
    if events != [] {
      ClockPassesProbe(events[..|events| - 1], c);
    }
  }

  /** Under a clock that never goes back, and however queries, failures and successes of calls in
      flight interleave, a request is admitted if and only if fewer than `threshold` failures were
      recorded since the last success, or the last failure is more than the timeout ago. */
  lemma StatelessRule(events: seq<Event>, now: real, c: Config)
    requires Nondecreasing(events + [Ask(now)])
    ensures Admits(After(FRESH, events, c), now, c) <==> FewFailures(events, c) || Waited(events, now, c)
  {
    assert (events + [Ask(now)])[..|events|] == events;
    ClockPassesProbe(events, c);
    RuleHoldsIff(events, now, c);
  }

  /** One failure in the half-open state re-opens the breaker until the timeout has passed again. */
  lemma HalfOpenReopens(events: seq<Event>, failed: real, now: real, c: Config)
    requires After(FRESH, events, c).status == HalfOpen
    ensures var v := After(FRESH, events + [Fail(failed)], c);
            v.status == Open && (Admits(v, now, c) <==> now - failed > c.timeout)
  {
    StatesMean(events, c);
    AfterSnoc(FRESH, events, Fail(failed), c);
  }

  /** A clock that goes back is such a case: probed at 200, the breaker still admits at 110. */
  lemma ClockMustNotGoBack(c: Config)
    requires c == Config(1, 30.0)
    ensures var events := [Fail(100.0), Ask(200.0)];
            && Probed(events, c) && !Waited(events, 110.0, c)
            && Admits(After(FRESH, events, c), 110.0, c) && !FewFailures(events, c)
  {
    var events := [Fail(100.0), Ask(200.0)];
    assert events[..1] == [Fail(100.0)] && events[..1][..0] == [];
    assert FailuresSince(events[..1]) == 1 && LastFailure(events[..1]) == 100.0;
    assert !Probed(events[..1], c);
    StatesMean(events, c);
  }

  /* ---------- the retrying request ---------- */

  datatype Attempt = Answer(text: string) | RetryableError | OtherError
  datatype Reply = Text(text: string) | Rejected | Error(attempt: Attempt)

  // The attempts made: up to the first that is not retryable, or the last one allowed.
  function Made(attempts: nat -> Attempt, k: nat, most: nat): (m: nat)
    requires k < most
    ensures k < m <= most
    decreases most - k
  {
    if attempts(k).RetryableError? && k + 1 < most then Made(attempts, k + 1, most) else k + 1
  }

  lemma {:induction false} MadeMeans(attempts: nat -> Attempt, k: nat, most: nat)
    requires k < most
    ensures var m := Made(attempts, k, most);
            && (forall i :: k <= i < m - 1 ==> attempts(i).RetryableError?)
            && (attempts(m - 1).RetryableError? ==> m == most)
    decreases most - k
  {
    if attempts(k).RetryableError? && k + 1 < most {
      MadeMeans(attempts, k + 1, most);
    }
  }

  // The event a finished call records.
  function Outcome(last: Attempt, done: real): Event {
    if last.Answer? then Succeed else Fail(done)
  }

  /** One call.  A rejected call makes no attempt and records nothing.  An admitted one makes at most
      `maxRetries + 1` attempts, all but the last of them retryable failures, and records exactly one
      outcome, after whatever other calls did to the breaker meanwhile. */
  method RequestWithRetry(cb: Breaker, maxRetries: nat, attempts: nat -> Attempt, start: real,
                          meanwhile: seq<Event>, done: real)
    returns (reply: Reply, made: nat)
    modifies cb
    ensures reply.Rejected? <==> !Admits(old(cb.Now()), start, cb.config)
    ensures reply.Rejected? ==> made == 0 && cb.Now() == old(cb.Now())
    ensures !reply.Rejected? ==>
              1 <= made <= maxRetries + 1 && made == Made(attempts, 0, maxRetries + 1)
    ensures !reply.Rejected? ==>
              var last := attempts(made - 1);
              && reply == (if last.Answer? then Text(last.text) else Error(last))
              && cb.Now() == After(old(cb.Now()), [Ask(start)] + meanwhile + [Outcome(last, done)], cb.config)
  {
    ghost var before, c := cb.Now(), cb.config;
    var allowed := cb.IsAllowed(start);
    if !allowed {
      return Rejected, 0;
    }
    cb.Apply(meanwhile);
    made := 1;
    while attempts(made - 1).RetryableError? && made < maxRetries + 1
      invariant 1 <= made <= maxRetries + 1
      invariant Made(attempts, 0, maxRetries + 1) == Made(attempts, made - 1, maxRetries + 1)
    {
      made := made + 1;
    }
    var last := attempts(made - 1);
    CallEvents(before, start, meanwhile, Outcome(last, done), c);
    if last.Answer? {
      cb.RecordSuccess();
      reply := Text(last.text);
    } else {
      cb.RecordFailure(done);
      reply := Error(last);
    }
  }

  lemma {:induction false} AfterConcat(v: View, a: seq<Event>, b: seq<Event>, c: Config)
    ensures After(v, a + b, c) == After(After(v, a, c), b, c)
  {
    if b == [] {
      assert a + b == a;
    } else {
      AfterConcat(v, a, b[..|b| - 1], c);
      assert (a + b)[..|a + b| - 1] == a + b[..|b| - 1];
    }
  }

  lemma CallEvents(v: View, start: real, meanwhile: seq<Event>, outcome: Event, c: Config)
    ensures After(v, [Ask(start)] + meanwhile + [outcome], c)
            == Step(After(Step(v, Ask(start), c), meanwhile, c), outcome, c)
  {
    AfterSnoc(v, [Ask(start)] + meanwhile, outcome, c);
    AfterConcat(v, [Ask(start)], meanwhile, c);
    AfterSnoc(v, [], Ask(start), c);
    assert [] + [Ask(start)] == [Ask(start)];
  }
}
