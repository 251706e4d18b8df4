/** The circuit breaker of the connectors' HTTP client, and the retry loop over it. Other
    requests to the host use the same breaker whenever a request waits. */
module CircuitBreaker {
  import opened Json

  datatype State = Closed | Open | HalfOpen

  datatype Config = Config(threshold: int, resetTimeout: real)

  datatype Breaker = Breaker(state: State, failures: nat, lastFailure: real)

  const FRESH := Breaker(Closed, 0, 0.0)

  datatype Event = Check(now: real) | Succeeded | Failed(now: real)

  predicate Refuses(c: Config, b: Breaker, now: real) {
    b.state.Open? && now - b.lastFailure < c.resetTimeout
  }

  function Apply(c: Config, b: Breaker, e: Event): Breaker {
    match e
    case Check(now) => if b.state.Open? && !Refuses(c, b, now) then b.(state := HalfOpen) else b
    case Succeeded => b.(state := Closed, failures := 0)
    case Failed(now) =>
      Breaker(if b.state.HalfOpen? || b.failures + 1 >= c.threshold then Open else b.state, b.failures + 1, now)
  }

  function After(c: Config, b: Breaker, es: seq<Event>): Breaker {
    if es == [] then b else Apply(c, After(c, b, es[..|es| - 1]), es[|es| - 1])
  }

  lemma AfterOn(c: Config, b: Breaker, es: seq<Event>, e: Event)
    ensures After(c, b, es + [e]) == Apply(c, After(c, b, es), e)
  {
    assert (es + [e])[..|es|] == es;
  }

  lemma {:induction false} AfterBoth(c: Config, b: Breaker, es: seq<Event>, more: seq<Event>)
    ensures After(c, b, es + more) == After(c, After(c, b, es), more)
  {
    if more == [] {
      assert es + more == es;
    } else {
      AfterBoth(c, b, es, more[..|more| - 1]);
      assert es + more == es + more[..|more| - 1] + [more[|more| - 1]];
      AfterOn(c, b, es + more[..|more| - 1], more[|more| - 1]);
    }
  }

  // ---- what every interleaving keeps ----

  /** The failures since the last success, and when the last failure was. */
  function FailuresSince(es: seq<Event>): nat {
    if es == [] || es[|es| - 1].Succeeded? then 0
    else FailuresSince(es[..|es| - 1]) + (if es[|es| - 1].Failed? then 1 else 0)
  }

  function LastFailed(es: seq<Event>): real {
    if es == [] then 0.0
    else if es[|es| - 1].Failed? then es[|es| - 1].now
    else LastFailed(es[..|es| - 1])
  }

  /** The count is the failures since the last success, and the breaker is closed exactly
      while it is below the threshold. */
  lemma {:induction false} ClosedExactlyBelowTheThreshold(c: Config, es: seq<Event>)
    requires c.threshold >= 1
    ensures After(c, FRESH, es).failures == FailuresSince(es)
    ensures After(c, FRESH, es).lastFailure == LastFailed(es)
    ensures After(c, FRESH, es).state.Closed? <==> FailuresSince(es) < c.threshold
  {
    if es != [] {
      ClosedExactlyBelowTheThreshold(c, es[..|es| - 1]);
    }
  }

  predicate Timed(e: Event) {
    !e.Succeeded?
  }

  /** Time does not go back. */
  predicate Ordered(es: seq<Event>) {
    forall i, j :: 0 <= i <= j < |es| && Timed(es[i]) && Timed(es[j]) ==> es[i].now <= es[j].now
  }

  /** A half-open breaker was checked after the timeout of its last failure. */
  lemma {:induction false} HalfOpenWasChecked(c: Config, es: seq<Event>) returns (i: nat)
    requires c.threshold >= 1 && After(c, FRESH, es).state.HalfOpen?
    ensures i < |es| && es[i].Check? && es[i].now - After(c, FRESH, es).lastFailure >= c.resetTimeout
  {
    var front := es[..|es| - 1];
    if After(c, FRESH, front).state.HalfOpen? {
      i := HalfOpenWasChecked(c, front);
    } else {
      i := |es| - 1;
    }
  }

  /** Whatever requests did before, a check passes exactly when fewer failures than the
      threshold came since the last success, or the timeout has passed since the last
      one. Being half-open changes nothing that a request could observe. */
  lemma PassesExactly(c: Config, es: seq<Event>, now: real)
    requires c.threshold >= 1 && Ordered(es + [Check(now)])
    ensures !Refuses(c, After(c, FRESH, es), now) <==>
            FailuresSince(es) < c.threshold || now - LastFailed(es) >= c.resetTimeout
  {
    ClosedExactlyBelowTheThreshold(c, es);
    if After(c, FRESH, es).state.HalfOpen? {
      var i := HalfOpenWasChecked(c, es);
      var all := es + [Check(now)];
      assert all[i] == es[i] && Timed(all[i]) && Timed(all[|es|]);
    }
  }

  // ---- one request ----

  /** What comes back from one attempt: a status, an error that the loop retries, or an
      error of another kind. */
  datatype Reply = Status(code: int) | Transport | Other

  /** The surroundings of one attempt: its times, its reply, and what other requests do to
      the breaker while it is sent and while it backs off. */
  datatype Env = Env(checkedAt: real, reply: Reply, whileSent: seq<Event>, failedAt: real, whileBackedOff: seq<Event>)

  datatype Result = Response(code: int) | Refused(remaining: real) | RaisedTransport | RaisedOther | LoopExit

  datatype Run = Run(result: Result, sends: nat, slept: real, trace: seq<Event>)

  function Power(n: nat): nat {
    if n == 0 then 1 else 2 * Power(n - 1)
  }

  function Backoff(attempt: nat): real {
    0.5 * Power(attempt) as real
  }

  /** A retry follows a transport error, or a status of 500 and above, before the last
      attempt. */
  predicate Retries(reply: Reply, attempt: int, maxRetries: int) {
    attempt < maxRetries && (reply.Transport? || (reply.Status? && reply.code >= 500))
  }

  /** How one attempt goes: whether it sends, what it does to the breaker together with
      the other requests, and its result unless it is to be retried. */
  datatype Tried = Tried(sends: nat, ended: Option<Result>, trace: seq<Event>)

  function Try(c: Config, b: Breaker, e: Env, attempt: nat, maxRetries: int): Tried {
    var checked := [Check(e.checkedAt)];
    if Refuses(c, b, e.checkedAt) then
      Tried(0, Some(Refused(c.resetTimeout - (e.checkedAt - b.lastFailure))), checked)
    else
      var sent := checked + e.whileSent;
      if Retries(e.reply, attempt, maxRetries) then
        Tried(1, None, sent + [Failed(e.failedAt)] + e.whileBackedOff)
      else
        match e.reply
        case Status(code) => Tried(1, Some(Response(code)), sent + [Succeeded])
        case Transport => Tried(1, Some(RaisedTransport), sent + [Failed(e.failedAt)])
        case Other => Tried(1, Some(RaisedOther), sent)
  }

  /** The attempts from `attempt` on, with the breaker as `b`. */
  function Attempts(c: Config, b: Breaker, maxRetries: int, env: nat -> Env, attempt: nat): Run
    decreases maxRetries + 1 - attempt
  {
    if attempt > maxRetries then Run(LoopExit, 0, 0.0, [])
    else
      var one := Try(c, b, env(attempt), attempt, maxRetries);
      if one.ended.Some? then Run(one.ended.value, one.sends, 0.0, one.trace)
      else
        var rest := Attempts(c, After(c, b, one.trace), maxRetries, env, attempt + 1);
        Run(rest.result, one.sends + rest.sends, Backoff(attempt) + rest.slept, one.trace + rest.trace)
  }

  /** A run after what went before it. */
  function Before(run: Run, sends: nat, slept: real, trace: seq<Event>): Run {
    Run(run.result, sends + run.sends, slept + run.slept, trace + run.trace)
  }

  lemma BeforeBoth(run: Run, sends: nat, slept: real, trace: seq<Event>, more: nat, longer: real, events: seq<Event>)
    ensures Before(Before(run, more, longer, events), sends, slept, trace) ==
            Before(run, sends + more, slept + longer, trace + events)
  {
    assert trace + (events + run.trace) == trace + events + run.trace;
  }

  class CircuitBreaker {
    const threshold: int
    const resetTimeout: real
    var state: State
    var failureCount: nat
    var lastFailure: real

    constructor (threshold: int, resetTimeout: real)
      ensures this.threshold == threshold && this.resetTimeout == resetTimeout
      ensures Current() == FRESH
    {
      this.threshold, this.resetTimeout := threshold, resetTimeout;
      state, failureCount, lastFailure := Closed, 0, 0.0;
    }

    function Settings(): Config {
      Config(threshold, resetTimeout)
    }

    function Current(): Breaker
      reads this
    {
      Breaker(state, failureCount, lastFailure)
    }

    /** The remaining time if the check raises. */
    method PreCheck(now: real) returns (refused: Option<real>)
      modifies this`state
      ensures Current() == Apply(Settings(), old(Current()), Check(now))
      ensures refused.Some? <==> Refuses(Settings(), old(Current()), now)
      ensures refused.Some? ==> refused.value == resetTimeout - (now - lastFailure)
    {
      if state == Open {
        var elapsed := now - lastFailure;
        if elapsed >= resetTimeout {
          state := HalfOpen;
        } else {
          return Some(resetTimeout - elapsed);
        }
      }
      return None;
    }

    method OnSuccess()
      modifies this
      ensures Current() == Apply(Settings(), old(Current()), Succeeded)
    {
      state := Closed;
      failureCount := 0;
    }

    method OnFailure(now: real)
      modifies this
      ensures Current() == Apply(Settings(), old(Current()), Failed(now))
    {
      failureCount := failureCount + 1;
      lastFailure := now;
      if state == HalfOpen {
        state := Open;
      } else if failureCount >= threshold {
        state := Open;
      }
    }

    /** What other requests do. */
    method Meanwhile(es: seq<Event>)
      modifies this
      ensures Current() == After(Settings(), old(Current()), es)
    {
      for i := 0 to |es|
        invariant Current() == After(Settings(), old(Current()), es[..i])
      {
        assert es[..i + 1][..i] == es[..i];
        match es[i] {
          case Check(now) => var _ := PreCheck(now);
          case Succeeded => OnSuccess();
          case Failed(now) => OnFailure(now);
        }
      }
      assert es[..|es|] == es;
    }

    method TryOnce(e: Env, attempt: nat, maxRetries: int) returns (one: Tried)
      requires attempt <= maxRetries
      modifies this
      ensures one == Try(Settings(), old(Current()), e, attempt, maxRetries)
      ensures Current() == After(Settings(), old(Current()), one.trace)
    {
      ghost var c, b := Settings(), Current();
      var refused := PreCheck(e.checkedAt);
      var trace := [Check(e.checkedAt)];
      AfterOn(c, b, [], Check(e.checkedAt));
      if refused.Some? {
        return Tried(0, Some(Refused(refused.value)), trace);
      }
      Meanwhile(e.whileSent);
      AfterBoth(c, b, trace, e.whileSent);
      trace := trace + e.whileSent;
      if e.reply.Status? && !(e.reply.code >= 500 && attempt < maxRetries) {
        OnSuccess();
        AfterOn(c, b, trace, Succeeded);
        return Tried(1, Some(Response(e.reply.code)), trace + [Succeeded]);
      }
      if e.reply.Other? {
        return Tried(1, Some(RaisedOther), trace);
      }
      OnFailure(e.failedAt);
      AfterOn(c, b, trace, Failed(e.failedAt));
      trace := trace + [Failed(e.failedAt)];
      if attempt == maxRetries {
        return Tried(1, Some(RaisedTransport), trace);
      }
      Meanwhile(e.whileBackedOff);
      AfterBoth(c, b, trace, e.whileBackedOff);
      return Tried(1, None, trace + e.whileBackedOff);
    }

    method Request(maxRetries: int, env: nat -> Env) returns (run: Run)
      modifies this
      ensures run == Attempts(Settings(), old(Current()), maxRetries, env, 0)
      ensures Current() == After(Settings(), old(Current()), run.trace)
    {
      ghost var c, b := Settings(), Current();
      var sends: nat, slept, attempt: nat := 0, 0.0, 0;
      var trace: seq<Event> := [];
      while attempt <= maxRetries
        invariant Current() == After(c, b, trace)
        invariant Before(Attempts(c, Current(), maxRetries, env, attempt), sends, slept, trace) ==
                  Attempts(c, b, maxRetries, env, 0)
        decreases maxRetries + 1 - attempt
      {
        AttemptsUnfold(c, Current(), maxRetries, env, attempt);
        var one := TryOnce(env(attempt), attempt, maxRetries);
        AfterBoth(c, b, trace, one.trace);
        if one.ended.Some? {
          return Run(one.ended.value, sends + one.sends, slept, trace + one.trace);
        }
        BeforeBoth(Attempts(c, Current(), maxRetries, env, attempt + 1), sends, slept, trace, one.sends,
                   Backoff(attempt), one.trace);
        sends := sends + one.sends;
        slept := slept + Backoff(attempt);
        trace := trace + one.trace;
        attempt := attempt + 1;
      }
      assert trace + [] == trace;
      return Run(LoopExit, sends, slept, trace);
    }
  }

  lemma AttemptsUnfold(c: Config, b: Breaker, maxRetries: int, env: nat -> Env, attempt: nat)
    requires attempt <= maxRetries
    ensures var one := Try(c, b, env(attempt), attempt, maxRetries);
            Attempts(c, b, maxRetries, env, attempt) ==
            if one.ended.Some? then Run(one.ended.value, one.sends, 0.0, one.trace)
            else Before(Attempts(c, After(c, b, one.trace), maxRetries, env, attempt + 1), one.sends, Backoff(attempt),
                        one.trace)
  {
  }

  /** A request sends at most once more than it may retry, and sleeps half a second, then
      one, two and so on, once for each retry it started. */
  lemma {:induction false} SendsAndSleepsAreBounded(c: Config, b: Breaker, maxRetries: int, env: nat -> Env,
                                                    attempt: nat)
    requires attempt <= maxRetries
    ensures var run := Attempts(c, b, maxRetries, env, attempt);
            var retries := if run.result.Refused? then run.sends else run.sends - 1;
            0 <= retries <= maxRetries - attempt && run.sends <= maxRetries + 1 - attempt &&
            run.slept == 0.5 * (Power(attempt + retries) as real - Power(attempt) as real) &&
            run.slept <= 0.5 * (Power(maxRetries) as real - Power(attempt) as real)
    decreases maxRetries - attempt
  {
    var e := env(attempt);
    if Refuses(c, b, e.checkedAt) || !Retries(e.reply, attempt, maxRetries) {
      PowerGrows(attempt, maxRetries);
    } else {
      var one := Try(c, b, e, attempt, maxRetries);
      SendsAndSleepsAreBounded(c, After(c, b, one.trace), maxRetries, env, attempt + 1);
      assert Power(attempt + 1) == 2 * Power(attempt);
    }
  }

  lemma {:induction false} PowerGrows(a: nat, b: nat)
    requires a <= b
    ensures Power(a) <= Power(b)
    decreases b - a
  {
    if a < b { PowerGrows(a, b - 1); }
  }

  /** How a request can end: with a status below 500 from any attempt; with a status of
      500 or above or a transport error only after all attempts were sent; the first two
      leave the breaker closed with no failures, whatever the status. */
  lemma {:induction false} HowARequestEnds(c: Config, b: Breaker, maxRetries: int, env: nat -> Env, attempt: nat)
    requires attempt <= maxRetries
    ensures var run := Attempts(c, b, maxRetries, env, attempt);
            !run.result.LoopExit? &&
            (run.result.Response? ==>
               After(c, b, run.trace) == Breaker(Closed, 0, After(c, b, run.trace).lastFailure) &&
               (run.result.code >= 500 ==> run.sends == maxRetries + 1 - attempt)) &&
            (run.result.RaisedTransport? ==>
             run.sends == maxRetries + 1 - attempt && run.trace != [] && run.trace[|run.trace| - 1].Failed?)
    decreases maxRetries - attempt
  {
    var e := env(attempt);
    var one := Try(c, b, e, attempt, maxRetries);
    if one.ended.None? {
      HowARequestEnds(c, After(c, b, one.trace), maxRetries, env, attempt + 1);
      AfterBoth(c, b, one.trace, Attempts(c, After(c, b, one.trace), maxRetries, env, attempt + 1).trace);
    } else if one.ended.value.Response? {
      AfterOn(c, b, one.trace[..|one.trace| - 1], Succeeded);
    }
  }

  /** A reply that the retry loop goes on after: a transport error, or a status of at least
      500. */
  predicate IsServerFault(reply: Reply) {
    reply.Transport? || (reply.Status? && reply.code >= 500)
  }

  /** An attempt that is not refused sends once. A status below 500 is the result at once,
      and a success for the breaker; so is an error of another kind, which the breaker does
      not hear of. A server fault is a failure and is retried after the backoff; if no retry
      is left, it ends the request, with a status as a success. */
  lemma WhatFollowsAReply(c: Config, b: Breaker, maxRetries: int, env: nat -> Env, attempt: nat) returns (b': Breaker)
    requires attempt <= maxRetries && !Refuses(c, b, env(attempt).checkedAt)
    ensures var run, reply := Attempts(c, b, maxRetries, env, attempt), env(attempt).reply;
            var sent := [Check(env(attempt).checkedAt)] + env(attempt).whileSent;
            if !IsServerFault(reply) then
              run.sends == 1 && run.slept == 0.0 &&
              run.result == (if reply.Status? then Response(reply.code) else RaisedOther) &&
              run.trace == if reply.Status? then sent + [Succeeded] else sent
            else if attempt == maxRetries then
              run.sends == 1 && run.slept == 0.0 &&
              run.result == (if reply.Status? then Response(reply.code) else RaisedTransport) &&
              run.trace == sent + [if reply.Status? then Succeeded else Failed(env(attempt).failedAt)]
            else
              var rest := Attempts(c, b', maxRetries, env, attempt + 1);
              run.result == rest.result && run.sends == 1 + rest.sends &&
              run.slept == 0.5 * Power(attempt) as real + rest.slept &&
              run.trace == sent + [Failed(env(attempt).failedAt)] + env(attempt).whileBackedOff + rest.trace
  {
    var one := Try(c, b, env(attempt), attempt, maxRetries);
    b' := After(c, b, one.trace);
    if one.ended.None? { assert IsServerFault(env(attempt).reply) && attempt < maxRetries; }
  }

  /** The replies of these attempts were server faults. */
  predicate AllFaults(env: nat -> Env, from: nat, to: int) {
    forall k: nat :: from <= k < to ==> IsServerFault(env(k).reply)
  }

  /** The result is the reply to this attempt. */
  predicate Answers(result: Result, reply: Reply) {
    match result
    case Response(code) => reply == Status(code)
    case RaisedTransport => reply == Transport
    case RaisedOther => reply == Other
    case _ => true
  }

  /** So every reply but the last of a request is a server fault, and a request that ends
      with an answer ends with the last reply. */
  lemma {:induction false} OnlyFaultsAreRetried(c: Config, b: Breaker, maxRetries: int, env: nat -> Env, attempt: nat)
    requires attempt <= maxRetries
    ensures var run := Attempts(c, b, maxRetries, env, attempt);
            if run.result.Refused? then AllFaults(env, attempt, attempt + run.sends)
            else
              run.sends >= 1 && AllFaults(env, attempt, attempt + run.sends - 1) &&
              Answers(run.result, env(attempt + run.sends - 1).reply)
    decreases maxRetries - attempt
  {
    var one := Try(c, b, env(attempt), attempt, maxRetries);
    if one.ended.None? {
      OnlyFaultsAreRetried(c, After(c, b, one.trace), maxRetries, env, attempt + 1);
    }
  }

  /** A negative number of retries sends nothing and ends in an error. */
  lemma NoAttempts(c: Config, b: Breaker, maxRetries: int, env: nat -> Env)
    ensures Attempts(c, b, maxRetries, env, 0).result.LoopExit? <==> maxRetries < 0
  {
    if maxRetries >= 0 { HowARequestEnds(c, b, maxRetries, env, 0); }
  }

  /** Every reply from attempt `attempt` on is a server error. */
  predicate ServerErrors(env: nat -> Env, attempt: nat, maxRetries: int) {
    forall k: nat :: attempt <= k <= maxRetries ==> env(k).reply.Status? && env(k).reply.code >= 500
  }

  /** No other request uses the breaker meanwhile. */
  predicate Alone(env: nat -> Env, attempt: nat, maxRetries: int) {
    forall k: nat :: attempt <= k <= maxRetries ==> env(k).whileSent == [] && env(k).whileBackedOff == []
  }

  /** The failure of attempt `k`, which brings the count to `base + k + 1`, opens the
      breaker, and the next attempt checks it before the timeout. */
  predicate ChecksTooEarly(c: Config, base: int, env: nat -> Env, k: nat) {
    base + k + 1 >= c.threshold && env(k + 1).checkedAt - env(k).failedAt < c.resetTimeout
  }

  ghost predicate SomeChecksTooEarly(c: Config, base: int, env: nat -> Env, attempt: nat, maxRetries: int) {
    exists k: nat :: attempt <= k < maxRetries && ChecksTooEarly(c, base, env, k)
  }

  /** A request that gets nothing but server errors is refused at some attempt, or it
      returns the last of them and counts as a success: it leaves the breaker closed with
      no failures, those of its own attempts included. */
  lemma {:induction false} LastServerErrorIsASuccess(c: Config, b: Breaker, maxRetries: int, env: nat -> Env,
                                                     attempt: nat)
    requires attempt <= maxRetries && ServerErrors(env, attempt, maxRetries)
    ensures var run := Attempts(c, b, maxRetries, env, attempt);
            run.result.Refused? ||
            (run.result == Response(env(maxRetries).reply.code) && run.sends == maxRetries + 1 - attempt &&
             After(c, b, run.trace).state.Closed? && After(c, b, run.trace).failures == 0)
    decreases maxRetries - attempt
  {
    HowARequestEnds(c, b, maxRetries, env, attempt);
    var one := Try(c, b, env(attempt), attempt, maxRetries);
    if one.ended.None? {
      var b' := After(c, b, one.trace);
      LastServerErrorIsASuccess(c, b', maxRetries, env, attempt + 1);
      AfterBoth(c, b, one.trace, Attempts(c, b', maxRetries, env, attempt + 1).trace);
    }
  }

  lemma FailingOnce(c: Config, b: Breaker, e: Env, attempt: nat, maxRetries: int)
    requires !Refuses(c, b, e.checkedAt) && e.whileSent == [] && e.whileBackedOff == []
    requires Retries(e.reply, attempt, maxRetries) && c.threshold >= 1 &&
             (b.state.Closed? <==> b.failures < c.threshold)
    ensures var b' := After(c, b, Try(c, b, e, attempt, maxRetries).trace);
            b'.failures == b.failures + 1 && b'.lastFailure == e.failedAt &&
            b'.state == if b.failures + 1 >= c.threshold then Open else Closed
  {
    var checked := [Check(e.checkedAt)];
    assert Try(c, b, e, attempt, maxRetries).trace == checked + [Failed(e.failedAt)];
    AfterOn(c, b, [], Check(e.checkedAt));
    AfterOn(c, b, checked, Failed(e.failedAt));
  }

  lemma TooEarlyNext(c: Config, base: int, env: nat -> Env, attempt: nat, maxRetries: int)
    requires attempt < maxRetries
    ensures SomeChecksTooEarly(c, base, env, attempt, maxRetries) <==>
            ChecksTooEarly(c, base, env, attempt) || SomeChecksTooEarly(c, base, env, attempt + 1, maxRetries)
  {
  }

  /** When it is refused, if no other request uses the breaker: exactly when the failure
      of some attempt brings the count to the threshold and the wait before the next one
      is shorter than the timeout. With fewer retries than the threshold it never is. */
  lemma {:induction false} WhenServerErrorsAreRefused(c: Config, b: Breaker, maxRetries: int, env: nat -> Env,
                                                      attempt: nat)
    requires attempt <= maxRetries && ServerErrors(env, attempt, maxRetries) && Alone(env, attempt, maxRetries)
    requires c.threshold >= 1 && (b.state.Closed? <==> b.failures < c.threshold) &&
             !Refuses(c, b, env(attempt).checkedAt)
    ensures Attempts(c, b, maxRetries, env, attempt).result.Refused? <==>
            SomeChecksTooEarly(c, b.failures - attempt, env, attempt, maxRetries)
    decreases maxRetries - attempt
  {
    if attempt < maxRetries {
      var one := Try(c, b, env(attempt), attempt, maxRetries);
      var b' := After(c, b, one.trace);
      FailingOnce(c, b, env(attempt), attempt, maxRetries);
      TooEarlyNext(c, b.failures - attempt, env, attempt, maxRetries);
      if !Refuses(c, b', env(attempt + 1).checkedAt) {
        WhenServerErrorsAreRefused(c, b', maxRetries, env, attempt + 1);
      }
    }
  }
}
