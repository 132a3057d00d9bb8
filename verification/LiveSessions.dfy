/** The live session's state machine and its reconnection with exponential backoff. */
module LiveSessions {
  import opened Arithmetic

  // ---------------------------------------------------------------- backoff

  datatype ReconnectPolicy = ReconnectPolicy(maxRetries: int, baseDelay: real, maxDelay: real)
  {
    /** base * 2^attempt, capped. */
    function NextDelay(attempt: nat): real { MinReal(baseDelay * Pow2(attempt), maxDelay) }
  }

  function Pow2(n: nat): real { if n == 0 then 1.0 else 2.0 * Pow2(n - 1) }

  datatype ReconnectOutcome = ReconnectOutcome(succeeded: bool, attempts: int, totalDelay: real)

  /** The delay of the first attempts together. */
  function TotalDelay(policy: ReconnectPolicy, attempts: nat): real {
    if attempts == 0 then 0.0 else TotalDelay(policy, attempts - 1) + policy.NextDelay(attempts - 1)
  }

  /** The attempts a reconnect makes when the i-th attempt connects exactly if connects(i): up to and including the
      first success, or all of them. */
  ghost predicate AttemptsMade(policy: ReconnectPolicy, connects: nat -> bool, o: ReconnectOutcome) {
    && (forall i: nat :: i < o.attempts - 1 ==> !connects(i))
    && (if o.succeeded then 1 <= o.attempts <= policy.maxRetries && connects(o.attempts - 1)
        else o.attempts == policy.maxRetries && (o.attempts >= 1 ==> !connects(o.attempts - 1)))
  }

  method Reconnect(policy: ReconnectPolicy, connects: nat -> bool) returns (outcome: ReconnectOutcome)
    ensures AttemptsMade(policy, connects, outcome)
    ensures outcome.totalDelay == TotalDelay(policy, if outcome.attempts < 0 then 0 else outcome.attempts)
  {
    var totalDelay := 0.0;
    var attempt: nat := 0;
    while attempt < policy.maxRetries
      invariant attempt <= policy.maxRetries || attempt == 0
      invariant forall i: nat :: i < attempt ==> !connects(i)
      invariant totalDelay == TotalDelay(policy, attempt)
    {
      totalDelay := totalDelay + policy.NextDelay(attempt);
      if connects(attempt) { return ReconnectOutcome(true, attempt + 1, totalDelay); }
      attempt := attempt + 1;
    }
    outcome := ReconnectOutcome(false, policy.maxRetries, totalDelay);
  }

  /** A reconnect succeeds exactly when one of the allowed attempts would connect, and then stops at the first. */
  lemma ReconnectSucceedsIff(policy: ReconnectPolicy, connects: nat -> bool, o: ReconnectOutcome)
    requires AttemptsMade(policy, connects, o)
    ensures o.succeeded <==> exists i: nat :: i < policy.maxRetries && connects(i)
  {
  }

  /** base * 2^n by doubling. */
  function Doubled(base: real, n: nat): real { if n == 0 then base else 2.0 * Doubled(base, n - 1) }

  lemma {:induction false} DoubledIsPower(base: real, n: nat)
    ensures Doubled(base, n) == base * Pow2(n)
  {
    if n > 0 {
      DoubledIsPower(base, n - 1);
      TwiceProduct(base, Pow2(n - 1));
    }
  }

  lemma TwiceProduct(a: real, b: real)
    ensures a * (2.0 * b) == 2.0 * (a * b)
  {
  }

  /** The delay before an attempt, free of products. */
  lemma DelayIs(policy: ReconnectPolicy, attempt: nat)
    ensures policy.NextDelay(attempt) == MinReal(Doubled(policy.baseDelay, attempt), policy.maxDelay)
  {
    DoubledIsPower(policy.baseDelay, attempt);
  }

  lemma {:induction false} DelayBelowDoubling(policy: ReconnectPolicy, n: nat)
    ensures TotalDelay(policy, n) <= Doubled(policy.baseDelay, n) - policy.baseDelay
  {
    hide ReconnectPolicy.NextDelay;
    if n > 0 {
      DelayBelowDoubling(policy, n - 1);
      DelayIs(policy, n - 1);
    }
  }

  lemma {:induction false} DelayBelowCaps(policy: ReconnectPolicy, n: nat)
    ensures TotalDelay(policy, n) <= n as real * policy.maxDelay
  {
    hide ReconnectPolicy.NextDelay;
    if n > 0 {
      DelayBelowCaps(policy, n - 1);
      DelayIs(policy, n - 1);
      OneMore(n, policy.maxDelay);
    }
  }

  lemma OneMore(n: nat, cap: real)
    requires n > 0
    ensures (n - 1) as real * cap + cap == n as real * cap
  {
    assert n as real == (n - 1) as real + 1.0;
  }

  /** The total delay is bounded both by the uncapped geometric sum base * 2^n - base and by the cap on every
      attempt, and reaches the first as long as no delay was capped. */
  lemma TotalDelayBounded(policy: ReconnectPolicy, n: nat)
    ensures TotalDelay(policy, n) <= policy.baseDelay * Pow2(n) - policy.baseDelay
    ensures TotalDelay(policy, n) <= n as real * policy.maxDelay
    ensures policy.baseDelay >= 0.0 && (n == 0 || policy.baseDelay * Pow2(n - 1) <= policy.maxDelay) ==>
              TotalDelay(policy, n) == policy.baseDelay * Pow2(n) - policy.baseDelay
  {
    DelayBelowDoubling(policy, n);
    DelayBelowCaps(policy, n);
    DoubledIsPower(policy.baseDelay, n);
    if n > 0 { DoubledIsPower(policy.baseDelay, n - 1); }
    if policy.baseDelay >= 0.0 && (n == 0 || Doubled(policy.baseDelay, n - 1) <= policy.maxDelay) {
      UncappedDelay(policy, n);
    }
  }

  lemma {:induction false} UncappedDelay(policy: ReconnectPolicy, n: nat)
    requires policy.baseDelay >= 0.0 && (n == 0 || Doubled(policy.baseDelay, n - 1) <= policy.maxDelay)
    ensures TotalDelay(policy, n) == Doubled(policy.baseDelay, n) - policy.baseDelay
    ensures Doubled(policy.baseDelay, n) >= 0.0
  {
    hide ReconnectPolicy.NextDelay;
    if n > 0 {
      DoubledNonNegative(policy.baseDelay, n - 1);
      if n > 1 { DoubledNonNegative(policy.baseDelay, n - 2); }
      UncappedDelay(policy, n - 1);
      DelayIs(policy, n - 1);
    }
  }

  lemma {:induction false} DoubledNonNegative(base: real, n: nat)
    requires base >= 0.0
    ensures Doubled(base, n) >= 0.0
  {
    if n > 0 { DoubledNonNegative(base, n - 1); }
  }

  // ---------------------------------------------------------------- session states

  datatype LiveState =
    | Initializing | Connecting | Connected | Trading | Paused | Stopping | Stopped | Disconnected | Error

  function LiveTransitions(state: LiveState): set<LiveState> {
    match state
    case Initializing => {Connecting, Stopping, Error}
    case Connecting => {Connected, Stopping, Error, Disconnected}
    case Connected => {Trading, Disconnected, Stopping, Error}
    case Trading => {LiveState.Paused, Disconnected, Stopping, Error}
    case Paused => {Trading, Disconnected, Stopping, Error}
    case Stopping => {LiveState.Stopped}
    case Stopped => {}
    case Disconnected => {Connecting, Stopping, Error}
    case Error => {Stopping, Connecting}
  }

  /** The session state and the emergency flag of the safety manager. */
  datatype Live = Live(state: LiveState, emergency: bool)

  /** The public calls, each with what the market feed answers during it. */
  datatype Call =
    | Connect(connects: bool)
    | StartTrading
    | Pause
    | Resume
    | Stop(disconnects: bool)
    | EmergencyStop(disconnects: bool)
    | MarkDisconnected
    | MarkError
    | AttemptReconnect(attempts: nat -> bool)

  /** Returned a state, refused by the transition table, or the feed's own exception. */
  datatype Answer = Entered(state: LiveState) | Refused | FeedRaised

  function Move(s: Live, target: LiveState): (Live, Answer) {
    if target in LiveTransitions(s.state) then (s.(state := target), Entered(target)) else (s, Refused)
  }

  function ShutDown(s: Live, disconnects: bool): (Live, Answer) {
    if Stopping !in LiveTransitions(s.state) then (s, Refused)
    else if !disconnects then (s.(state := Stopping), FeedRaised)
    else (s.(state := LiveState.Stopped), Entered(LiveState.Stopped))
  }

  ghost function Answered(policy: ReconnectPolicy, s: Live, call: Call): (Live, Answer) {
    match call
    case Connect(connects) =>
      if Connecting !in LiveTransitions(s.state) then (s, Refused)
      else if connects then (s.(state := Connected), Entered(Connected))
      else (s.(state := Error), Entered(Error))
    case StartTrading => Move(s, Trading)
    case Pause => Move(s, LiveState.Paused)
    case Resume => Move(s, Trading)
    case Stop(disconnects) => ShutDown(s, disconnects)
    case EmergencyStop(disconnects) => ShutDown(s.(emergency := true), disconnects)
    case MarkDisconnected => Move(s, Disconnected)
    case MarkError => Move(s, Error)
    case AttemptReconnect(connects) =>
      if Connecting !in LiveTransitions(s.state) then (s, Refused)
      else if exists i: nat :: i < policy.maxRetries && connects(i) then (s.(state := Connected), Entered(Connected))
      else (s.(state := LiveState.Stopped), Entered(LiveState.Stopped))
  }

  class LiveSession {
    const policy: ReconnectPolicy
    var state: LiveState
    var emergency: bool

    constructor (policy: ReconnectPolicy)
      ensures this.policy == policy && View() == Live(Initializing, false)
    {
      this.policy := policy;
      state, emergency := Initializing, false;
    }

    function View(): Live
      reads this
    {
      Live(state, emergency)
    }

    method Transition(target: LiveState) returns (answer: Answer)
      modifies this`state
      ensures (View(), answer) == Move(old(View()), target)
    {
      if target !in LiveTransitions(state) { return Refused; }
      state := target;
      answer := Entered(target);
    }

    method DoConnect(connects: bool) returns (answer: Answer)
      modifies this
      ensures (View(), answer) == Answered(policy, old(View()), Connect(connects))
    {
      answer := Transition(Connecting);
      if answer.Refused? { return; }
      if !connects {
        answer := Transition(Error);
        return;
      }
      answer := Transition(Connected);
    }

    method DoStop(disconnects: bool) returns (answer: Answer)
      modifies this
      ensures (View(), answer) == Answered(policy, old(View()), Stop(disconnects))
    {
      answer := Transition(Stopping);
      if answer.Refused? { return; }
      if !disconnects { return FeedRaised; }
      answer := Transition(LiveState.Stopped);
    }

    /** The safety flag is raised before the transition is checked. */
    method DoEmergencyStop(disconnects: bool) returns (answer: Answer)
      modifies this
      ensures (View(), answer) == Answered(policy, old(View()), EmergencyStop(disconnects))
    {
      emergency := true;
      answer := DoStop(disconnects);
    }

    method DoAttemptReconnect(connects: nat -> bool) returns (answer: Answer)
      modifies this
      ensures (View(), answer) == Answered(policy, old(View()), AttemptReconnect(connects))
    {
      answer := Transition(Connecting);
      if answer.Refused? { return; }
      var outcome := Reconnect(policy, connects);
      ReconnectSucceedsIff(policy, connects, outcome);
      if outcome.succeeded {
        answer := Transition(Connected);
        return;
      }
      answer := Transition(Stopping);
      answer := Transition(LiveState.Stopped);
    }

    method Handle(call: Call) returns (answer: Answer)
      modifies this
      ensures (View(), answer) == Answered(policy, old(View()), call)
    {
      match call
      case Connect(connects) => answer := DoConnect(connects);
      case StartTrading => answer := Transition(Trading);
      case Pause => answer := Transition(LiveState.Paused);
      case Resume => answer := Transition(Trading);
      case Stop(disconnects) => answer := DoStop(disconnects);
      case EmergencyStop(disconnects) => answer := DoEmergencyStop(disconnects);
      case MarkDisconnected => answer := Transition(Disconnected);
      case MarkError => answer := Transition(Error);
      case AttemptReconnect(connects) => answer := DoAttemptReconnect(connects);
    }
  }

  // ---------------------------------------------------------------- what every sequence of calls keeps

  ghost function After(policy: ReconnectPolicy, calls: seq<Call>): Live {
    if calls == [] then Live(Initializing, false)
    else Answered(policy, After(policy, calls[..|calls| - 1]), calls[|calls| - 1]).0
  }

  /** The feed raised while the session was shutting down. */
  predicate FailsToDisconnect(call: Call) {
    match call
    case Stop(disconnects) => !disconnects
    case EmergencyStop(disconnects) => !disconnects
    case _ => false
  }

  /** The calls that lead somewhere, from where, and to what. */
  ghost predicate LeadsTo(policy: ReconnectPolicy, from: LiveState, call: Call, to: LiveState) {
    match call
    case Connect(connects) =>
      from in {Initializing, Disconnected, Error} && to == if connects then Connected else Error
    case AttemptReconnect(connects) =>
      && from in {Initializing, Disconnected, Error}
      && to == if exists i: nat :: i < policy.maxRetries && connects(i) then Connected else LiveState.Stopped
    case StartTrading => from in {Connected, LiveState.Paused} && to == Trading
    case Resume => from in {Connected, LiveState.Paused} && to == Trading
    case Pause => from == Trading && to == LiveState.Paused
    case MarkDisconnected => from in {Connecting, Connected, Trading, LiveState.Paused} && to == Disconnected
    case MarkError => from !in {Error, Stopping, LiveState.Stopped} && to == Error
    case Stop(disconnects) => from !in {Stopping, LiveState.Stopped} && disconnects && to == LiveState.Stopped
    case EmergencyStop(disconnects) =>
      from !in {Stopping, LiveState.Stopped} && disconnects && to == LiveState.Stopped
  }

  /** Every call enters exactly the state it leads to; otherwise it changes no state, unless the feed raised while the
      session was shutting down. */
  lemma CallsLead(policy: ReconnectPolicy, s: Live, call: Call, to: LiveState)
    ensures var (r, answer) := Answered(policy, s, call);
            && (answer == Entered(to) <==> LeadsTo(policy, s.state, call, to))
            && (answer == Entered(to) ==> r.state == to)
            && (answer.Refused? ==> r.state == s.state)
            && (answer.FeedRaised? <==>
                  FailsToDisconnect(call) && s.state !in {Stopping, LiveState.Stopped})
            && (answer.FeedRaised? ==> r.state == Stopping)
  {
  }

  /** A fresh session that connects can trade, pause and trade again. */
  lemma TradingIsReached(policy: ReconnectPolicy)
    ensures After(policy, [Connect(true), StartTrading]) == Live(Trading, false)
    ensures After(policy, [Connect(true), StartTrading, Pause]) == Live(LiveState.Paused, false)
    ensures After(policy, [Connect(true), StartTrading, Pause, Resume]) == Live(Trading, false)
  {
    AfterNext(policy, [], Connect(true));
    AfterNext(policy, [Connect(true)], StartTrading);
    AfterNext(policy, [Connect(true), StartTrading], Pause);
    AfterNext(policy, [Connect(true), StartTrading, Pause], Resume);
    hide After;
    assert [] + [Connect(true)] == [Connect(true)];
    assert [Connect(true)] + [StartTrading] == [Connect(true), StartTrading];
    assert [Connect(true), StartTrading] + [Pause] == [Connect(true), StartTrading, Pause];
    assert [Connect(true), StartTrading, Pause] + [Resume] == [Connect(true), StartTrading, Pause, Resume];
  }

  lemma AfterNext(policy: ReconnectPolicy, calls: seq<Call>, call: Call)
    ensures After(policy, calls + [call]) == Answered(policy, After(policy, calls), call).0
    ensures After(policy, []) == Live(Initializing, false)
  {
    assert (calls + [call])[..|calls|] == calls;
  }

  /** One call: connecting is never left behind, stopping only by a disconnect that raised, and from stopping
      nothing leads anywhere. */
  lemma CallEffect(policy: ReconnectPolicy, s: Live, call: Call)
    requires s.state != Connecting
    ensures var (r, answer) := Answered(policy, s, call);
            && r.state != Connecting
            && (r.state == Stopping <==>
                  s.state == Stopping || (FailsToDisconnect(call) && s.state != LiveState.Stopped))
            && (s.state in {Stopping, LiveState.Stopped} ==> r.state == s.state && answer == Refused)
            && (s.emergency ==> r.emergency)
  {
  }

  /** No sequence of calls leaves the session connecting; it is left stopping exactly when some shutdown of a
      session that was not yet stopped found a feed that raised. */
  lemma {:induction false} RestingStates(policy: ReconnectPolicy, calls: seq<Call>)
    ensures After(policy, calls).state != Connecting
    ensures After(policy, calls).state == Stopping <==>
              exists k :: 0 <= k < |calls| && FailsToDisconnect(calls[k])
                && After(policy, calls[..k]).state != LiveState.Stopped
  {
    if calls != [] {
      var n := |calls| - 1;
      var before := calls[..n];
      RestingStates(policy, before);
      CallEffect(policy, After(policy, before), calls[n]);
      if After(policy, before).state == Stopping {
        var k :| 0 <= k < n && FailsToDisconnect(before[k]) && After(policy, before[..k]).state != LiveState.Stopped;
        assert before[..k] == calls[..k] && FailsToDisconnect(calls[k]);
      } else {
        forall k | 0 <= k < n && FailsToDisconnect(calls[k])
          ensures After(policy, calls[..k]).state == LiveState.Stopped
        {
          assert before[..k] == calls[..k] && FailsToDisconnect(before[k]);
        }
      }
    }
  }

  /** Stopped and stopping are absorbing: whatever is called afterwards, the state stays. */
  lemma {:induction false} ShutDownIsFinal(policy: ReconnectPolicy, calls: seq<Call>, more: seq<Call>)
    requires After(policy, calls).state in {Stopping, LiveState.Stopped}
    ensures After(policy, calls + more).state == After(policy, calls).state
  {
    if more == [] {
      assert calls + more == calls;
    } else {
      var n := |more| - 1;
      ShutDownIsFinal(policy, calls, more[..n]);
      assert (calls + more)[..|calls| + n] == calls + more[..n];
      CallEffect(policy, After(policy, calls + more[..n]), more[n]);
    }
  }

  /** The safety flag is up exactly when some emergency stop was called, and from then on the session is stopping or
      stopped. */
  lemma {:induction false} EmergencyIsFinal(policy: ReconnectPolicy, calls: seq<Call>)
    ensures After(policy, calls).emergency <==> exists k :: 0 <= k < |calls| && calls[k].EmergencyStop?
    ensures After(policy, calls).emergency ==> After(policy, calls).state in {Stopping, LiveState.Stopped}
  {
    if calls != [] {
      var n := |calls| - 1;
      var before := calls[..n];
      EmergencyIsFinal(policy, before);
      RestingStates(policy, before);
      CallEffect(policy, After(policy, before), calls[n]);
      EmergencyEffect(policy, After(policy, before), calls[n]);
      hide Answered;
      if After(policy, before).emergency {
        var k :| 0 <= k < n && before[k].EmergencyStop?;
        assert calls[k].EmergencyStop?;
      } else {
        assert forall k :: 0 <= k < n ==> before[k] == calls[k];
      }
    }
  }

  /** Only an emergency stop raises the flag; it stops the session exactly when the session was not shutting down
      already and the feed disconnects, and shuts it down in any case. */
  lemma EmergencyEffect(policy: ReconnectPolicy, s: Live, call: Call)
    ensures var (r, answer) := Answered(policy, s, call);
            && (r.emergency <==> s.emergency || call.EmergencyStop?)
            && (call.EmergencyStop? ==>
                  && r.state in {Stopping, LiveState.Stopped}
                  && (answer == Entered(LiveState.Stopped)
                      <==> s.state !in {Stopping, LiveState.Stopped} && call.disconnects))
  {
  }
}
