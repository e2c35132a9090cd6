/** Which updates bring an answer that carries error strings: exactly those that put a protocol error on
    record, and with it end the main loop. */
module AgentErrors {
  import opened GameTypes
  import opened ClientProtocol
  import opened AgentSteps

  /** The response a wait takes carries error strings. */
  predicate WaitMeets(c: Client, wait: WaitEnv) {
    var responses := c.wire.queue + wait.first.arrivals;
    responses != [] && responses[0].errorCount > 0
  }

  predicate CallMeets(c: Client, call: Call) {
    var (d, sent) := Sent(c, call.kind, false, call.reconnect);
    sent && WaitMeets(d, call.wait)
  }

  predicate CallsMeet(c: Client, calls: seq<Call>) {
    && calls != []
    && (CallsMeet(c, calls[..|calls| - 1]) || CallMeets(CalledAll(c, calls[..|calls| - 1]), calls[|calls| - 1]))
  }

  predicate ObservationMeets(c: Client, reconnect: bool, wait: WaitEnv) {
    c.app == Normal && CallMeets(c, Call(Observation, reconnect, wait))
  }

  predicate StepAnswerMeets(c: Client, env: StepEnv) {
    var (w, r) := Waited(c, env.wait);
    WaitMeets(c, env.wait) || (IsGood(r, StepGame) && ObservationMeets(w, env.obsReconnect, env.obsWait))
  }

  predicate StepMeets(c: Client, env: StepEnv) {
    StepAnswerMeets(StepSent(c, env.reconnect).0, env)
  }

  predicate PollMeets(c: Client, wait: WaitEnv) {
    c.multiplayer && c.pending == LeaveGame && c.wire.hasResponse && WaitMeets(c, wait)
  }

  /** The calls of CallOnStep. */
  predicate OnStepMeets(c: Client, env: UpdateEnv) {
    CallsMeet(c, if IsInGame(c) then env.calls else env.endCalls)
  }

  predicate SteppedMeets(c: Client, multiThreaded: bool, env: UpdateEnv) {
    && c.app == Normal
    && var (polled, leaving) := PolledLeave(c, env.poll);
       || PollMeets(c, env.poll)
       || (!leaving && !IsFinishedGame(polled)
           && (StepMeets(polled, env.step) || (multiThreaded && OnStepMeets(Stepped(polled, env.step), env))))
  }

  predicate FollowUpMeets(c: Client, env: UpdateEnv) {
    && c.app == Normal
    && var (polled, leaving) := PolledLeave(c, env.pollAgain);
       PollMeets(c, env.pollAgain) || (!leaving && OnStepMeets(polled, env))
  }

  predicate RealtimeMeets(c: Client, env: UpdateEnv) {
    && c.app == Normal
    && var (polled, leaving) := PolledLeave(c, env.poll);
       || PollMeets(c, env.poll)
       || (!leaving && !IsFinishedGame(polled) && ObservationOnMeets(polled, env))
  }

  predicate ObservationOnMeets(c: Client, env: UpdateEnv) {
    var observed := GotObservation(c, env.step.obsReconnect, env.step.obsWait).0;
    var called := CalledAll(observed, env.calls);
    || ObservationMeets(c, env.step.obsReconnect, env.step.obsWait) || CallsMeet(observed, env.calls)
    || (!IsInGame(called) && CallsMeet(called, env.endCalls))
  }

  /** One of the waits of the update, for whatever request, is answered with error strings. */
  predicate UpdateMeets(a: Agent, s: Settings, env: UpdateEnv) {
    if s.realtime then RealtimeMeets(a.client, env)
    else
      || SteppedMeets(a.client, s.multiThreaded, env)
      || (!s.multiThreaded && FollowUpMeets(SteppedAgent(a, false, env).client, env))
  }

  /** Exactly the cases that meet raise a protocol error. */
  predicate RaisesIff(before: Client, after: Client, meets: bool) {
    Raised(after, SC2ProtocolError) <==> Raised(before, SC2ProtocolError) || meets
  }

  lemma WaitRaisesIff(c: Client, wait: WaitEnv)
    ensures RaisesIff(c, Waited(c, wait).0, WaitMeets(c, wait))
  {
    if c.wire.queue + wait.first.arrivals != [] {
      AnsweredWait(c, wait);
    } else if !wait.running {
      WaitOfCrashed(c, wait);
    } else if wait.reconnect && wait.ping.arrivals != [] {
      WaitOfLost(c, wait);
    } else {
      WaitOfHung(c, wait);
    }
  }

  lemma CallRaisesIff(c: Client, call: Call)
    ensures RaisesIff(c, Called(c, call).0, CallMeets(c, call))
  {
    WaitRaisesIff(Sent(c, call.kind, false, call.reconnect).0, call.wait);
  }

  lemma {:induction false} CallsRaiseIff(c: Client, calls: seq<Call>)
    ensures RaisesIff(c, CalledAll(c, calls), CallsMeet(c, calls))
  {
    if calls != [] {
      CallsRaiseIff(c, calls[..|calls| - 1]);
      CallRaisesIff(CalledAll(c, calls[..|calls| - 1]), calls[|calls| - 1]);
    }
  }

  lemma ObservationRaisesIff(c: Client, reconnect: bool, wait: WaitEnv)
    ensures RaisesIff(c, GotObservation(c, reconnect, wait).0, ObservationMeets(c, reconnect, wait))
  {
    CallRaisesIff(c, Call(Observation, reconnect, wait));
  }

  lemma StepAnswerRaisesIff(c: Client, env: StepEnv)
    ensures RaisesIff(c, StepAwaited(c, env).0, StepAnswerMeets(c, env))
  {
    WaitRaisesIff(c, env.wait);
    ObservationRaisesIff(Waited(c, env.wait).0, env.obsReconnect, env.obsWait);
  }

  lemma StepRaisesIff(c: Client, env: StepEnv)
    ensures RaisesIff(c, Stepped(c, env), StepMeets(c, env))
  {
    StepAnswerRaisesIff(StepSent(c, env.reconnect).0, env);
  }

  lemma PollRaisesIff(c: Client, wait: WaitEnv)
    ensures RaisesIff(c, PolledLeave(c, wait).0, PollMeets(c, wait))
  {
    WaitRaisesIff(c, wait);
  }

  lemma LeaveRaisesNone(c: Client, reconnect: bool)
    ensures RaisesIff(c, RequestedLeave(c, reconnect), false)
  {
  }

  lemma OnStepRaisesIff(a: Agent, env: UpdateEnv)
    ensures RaisesIff(a.client, CalledOnStep(a, env).client, OnStepMeets(a.client, env))
  {
    CallsRaiseIff(a.client, env.calls);
    CallsRaiseIff(a.client, env.endCalls);
    LeaveRaisesNone(CalledAll(a.client, env.endCalls), env.leaveReconnect);
  }

  lemma SteppedRaisesIff(a: Agent, multiThreaded: bool, env: UpdateEnv)
    ensures RaisesIff(a.client, SteppedAgent(a, multiThreaded, env).client,
                      SteppedMeets(a.client, multiThreaded, env))
  {
    var polled := PolledLeave(a.client, env.poll).0;
    PollRaisesIff(a.client, env.poll);
    StepRaisesIff(polled, env.step);
    OnStepRaisesIff(a.(client := Stepped(polled, env.step)), env);
  }

  lemma FollowUpRaisesIff(a: Agent, env: UpdateEnv)
    ensures RaisesIff(a.client, FollowedUp(a, env).client, FollowUpMeets(a.client, env))
  {
    PollRaisesIff(a.client, env.pollAgain);
    OnStepRaisesIff(a.(client := PolledLeave(a.client, env.pollAgain).0), env);
  }

  lemma RealtimeRaisesIff(a: Agent, env: UpdateEnv)
    ensures RaisesIff(a.client, RealtimeAgent(a, env).client, RealtimeMeets(a.client, env))
  {
    var polled := PolledLeave(a.client, env.poll).0;
    var observed := GotObservation(polled, env.step.obsReconnect, env.step.obsWait).0;
    var called := CalledAll(observed, env.calls);
    PollRaisesIff(a.client, env.poll);
    ObservationRaisesIff(polled, env.step.obsReconnect, env.step.obsWait);
    CallsRaiseIff(observed, env.calls);
    CallsRaiseIff(called, env.endCalls);
    LeaveRaisesNone(CalledAll(called, env.endCalls), env.leaveReconnect);
  }

  /** An update puts a protocol error on record if and only if one of its waits, of whatever kind, is
      answered with error strings. */
  lemma UpdateRaisesIff(a: Agent, s: Settings, env: UpdateEnv)
    ensures Raised(UpdatedAgent(a, s, env).client, SC2ProtocolError)
      <==> Raised(a.client, SC2ProtocolError) || UpdateMeets(a, s, env)
  {
    if s.realtime {
      RealtimeRaisesIff(a, env);
    } else {
      SteppedRaisesIff(a, s.multiThreaded, env);
      FollowUpRaisesIff(SteppedAgent(a, false, env), env);
    }
  }
}
