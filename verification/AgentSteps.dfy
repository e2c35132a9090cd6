/** What one coordinator update does to one agent, and what every run of updates keeps. */
module AgentSteps {
  import opened GameTypes
  import opened ClientProtocol

  /** An agent: its client, and how often OnGameEnd has been called on it. */
  datatype Agent = Agent(client: Client, gameEnds: nat)

  datatype Settings = Settings(realtime: bool, multiThreaded: bool)

  /** What the environment and the user's callbacks do during one update of an agent.  The calls are
      the paired requests made by callbacks and by the two SendActions, endCalls those of OnGameEnd. */
  datatype UpdateEnv = UpdateEnv(
    poll: WaitEnv,
    step: StepEnv,
    pollAgain: WaitEnv,
    calls: seq<Call>,
    endCalls: seq<Call>,
    leaveReconnect: bool)

  /** OnGameEnd, then the request to leave. */
  function EndedGame(a: Agent, env: UpdateEnv): Agent {
    Agent(RequestedLeave(CalledAll(a.client, env.endCalls), env.leaveReconnect), a.gameEnds + 1)
  }

  /** CallOnStep. */
  function CalledOnStep(a: Agent, env: UpdateEnv): Agent {
    if !IsInGame(a.client) then EndedGame(a, env)
    else a.(client := CalledAll(a.client, env.calls))
  }

  /** The step_agent of StepAgents. */
  function SteppedAgent(a: Agent, multiThreaded: bool, env: UpdateEnv): Agent {
    if a.client.app != Normal then a
    else
      var (polled, leaving) := PolledLeave(a.client, env.poll);
      if leaving || IsFinishedGame(polled) then a.(client := polled)
      else
        var b := a.(client := Stepped(polled, env.step));
        if multiThreaded then CalledOnStep(b, env) else b
  }

  /** The second loop of StepAgents, run only without threads. */
  function FollowedUp(a: Agent, env: UpdateEnv): Agent {
    if a.client.app != Normal then a
    else
      var (polled, leaving) := PolledLeave(a.client, env.pollAgain);
      if leaving then a.(client := polled) else CalledOnStep(a.(client := polled), env)
  }

  /** The step_agent of StepAgentsRealtime: observe, run the callbacks, then leave if the game is over. */
  function RealtimeAgent(a: Agent, env: UpdateEnv): Agent {
    if a.client.app != Normal then a
    else
      var (polled, leaving) := PolledLeave(a.client, env.poll);
      if leaving || IsFinishedGame(polled) then a.(client := polled)
      else
        var observed := GotObservation(polled, env.step.obsReconnect, env.step.obsWait).0;
        var called := CalledAll(observed, env.calls);
        var b := a.(client := called);
        if !IsInGame(called) then EndedGame(b, env) else b
  }

  /** The part of an update that runs in one thread per agent. */
  function ParallelPart(a: Agent, s: Settings, env: UpdateEnv): Agent {
    if s.realtime then RealtimeAgent(a, env) else SteppedAgent(a, s.multiThreaded, env)
  }

  function UpdatedAgent(a: Agent, s: Settings, env: UpdateEnv): Agent {
    if s.realtime then RealtimeAgent(a, env)
    else
      var b := SteppedAgent(a, s.multiThreaded, env);
      if s.multiThreaded then b else FollowedUp(b, env)
  }

  /** The update asks for an observation that is never answered: GetObservation then reads a response that
      is not there, which ends the bot. */
  predicate UpdateReadsMissing(a: Agent, s: Settings, env: UpdateEnv) {
    var (polled, leaving) := PolledLeave(a.client, env.poll);
    && a.client.app == Normal && !leaving && !IsFinishedGame(polled)
    && (if s.realtime then GotObservation(polled, env.step.obsReconnect, env.step.obsWait)
        else StepAwaited(StepSent(polled, env.step.reconnect).0, env.step)).1 == ReadMissing
  }

  /** Between updates a healthy client expects nothing, or the answer to a leave request. */
  predicate Settled(c: Client) {
    c.app == Normal ==> c.pending == NotSet || (c.multiplayer && c.pending == LeaveGame)
  }

  /** The set of errors has not gained an unconsumed response while the client stayed healthy. */
  predicate NoNewOverlap(before: Client, after: Client) {
    && (after.app == Normal ==> before.app == Normal)
    && (after.app == Normal ==> (Raised(after, ResponseNotConsumed) <==> Raised(before, ResponseNotConsumed)))
    && after.multiplayer == before.multiplayer
  }

  predicate Idle(c: Client) {
    c.app == Normal ==> c.pending == NotSet
  }

  lemma CallKeepsIdle(c: Client, call: Call)
    requires Idle(c)
    ensures Idle(Called(c, call).0) && NoNewOverlap(c, Called(c, call).0)
  {
    var (d, sent) := Sent(c, call.kind, false, call.reconnect);
    if sent {
      WaitKeepsHealth(d, call.wait);
    }
  }

  /** Waiting on a healthy client leaves it idle; on a failed one it stays failed. */
  lemma WaitKeepsHealth(c: Client, wait: WaitEnv)
    ensures Idle(Waited(c, wait).0) || c.app != Normal
    ensures NoNewOverlap(c, Waited(c, wait).0)
    ensures Waited(c, wait).0.app == Normal ==> c.app == Normal
  {
    FailureIsFinal(c, wait);
    WaitRaises(c, wait);
    if c.app == Normal {
      WaitNormalIffAnswered(c, wait);
    }
  }

  lemma {:induction false} CallsKeepIdle(c: Client, calls: seq<Call>)
    requires Idle(c)
    ensures Idle(CalledAll(c, calls)) && NoNewOverlap(c, CalledAll(c, calls))
  {
    if calls != [] {
      CallsKeepIdle(c, calls[..|calls| - 1]);
      CallKeepsIdle(CalledAll(c, calls[..|calls| - 1]), calls[|calls| - 1]);
    }
  }

  lemma ObservationKeepsIdle(c: Client, reconnect: bool, wait: WaitEnv)
    requires Idle(c)
    ensures var d := GotObservation(c, reconnect, wait).0; Idle(d) && NoNewOverlap(c, d)
  {
    WaitKeepsHealth(Sent(c, Observation, false, reconnect).0, wait);
  }

  lemma StepKeepsIdle(c: Client, env: StepEnv)
    requires Idle(c)
    ensures Idle(Stepped(c, env)) && NoNewOverlap(c, Stepped(c, env))
  {
    var d := StepSent(c, env.reconnect).0;
    WaitKeepsHealth(d, env.wait);
    var w := Waited(d, env.wait).0;
    ObservationKeepsIdle(w, env.obsReconnect, env.obsWait);
  }

  /** A poll that lets the agent go on leaves it idle and in the game, or in single player. */
  lemma PollKeepsSettled(c: Client, wait: WaitEnv)
    requires Settled(c) && c.app == Normal
    ensures var (d, leaving) := PolledLeave(c, wait);
      && Settled(d) && NoNewOverlap(c, d)
      && (!leaving ==> d == c && Idle(c) && (c.multiplayer ==> IsInGame(c)))
  {
    if c.multiplayer && c.pending == LeaveGame && c.wire.hasResponse {
      WaitKeepsHealth(c, wait);
    }
  }

  lemma EndKeepsSettled(a: Agent, env: UpdateEnv)
    requires Idle(a.client)
    ensures Settled(EndedGame(a, env).client) && NoNewOverlap(a.client, EndedGame(a, env).client)
  {
    CallsKeepIdle(a.client, env.endCalls);
  }

  lemma OnStepKeepsSettled(a: Agent, env: UpdateEnv)
    requires Idle(a.client)
    ensures Settled(CalledOnStep(a, env).client) && NoNewOverlap(a.client, CalledOnStep(a, env).client)
  {
    if IsInGame(a.client) {
      CallsKeepIdle(a.client, env.calls);
    } else {
      EndKeepsSettled(a, env);
    }
  }

  lemma SteppedKeepsSettled(a: Agent, multiThreaded: bool, env: UpdateEnv)
    requires Settled(a.client)
    ensures var b := SteppedAgent(a, multiThreaded, env);
      Settled(b.client) && NoNewOverlap(a.client, b.client)
  {
    if a.client.app == Normal {
      PollKeepsSettled(a.client, env.poll);
      var (polled, leaving) := PolledLeave(a.client, env.poll);
      if !leaving && !IsFinishedGame(polled) {
        StepKeepsIdle(polled, env.step);
        OnStepKeepsSettled(a.(client := Stepped(polled, env.step)), env);
      }
    }
  }

  lemma FollowUpKeepsSettled(a: Agent, env: UpdateEnv)
    requires Settled(a.client)
    ensures Settled(FollowedUp(a, env).client) && NoNewOverlap(a.client, FollowedUp(a, env).client)
  {
    if a.client.app == Normal {
      PollKeepsSettled(a.client, env.pollAgain);
      var (polled, leaving) := PolledLeave(a.client, env.pollAgain);
      if !leaving {
        OnStepKeepsSettled(a.(client := polled), env);
      }
    }
  }

  lemma RealtimeKeepsSettled(a: Agent, env: UpdateEnv)
    requires Settled(a.client)
    ensures Settled(RealtimeAgent(a, env).client) && NoNewOverlap(a.client, RealtimeAgent(a, env).client)
  {
    if a.client.app == Normal {
      PollKeepsSettled(a.client, env.poll);
      var (polled, leaving) := PolledLeave(a.client, env.poll);
      if !leaving && !IsFinishedGame(polled) {
        ObservationKeepsIdle(polled, env.step.obsReconnect, env.step.obsWait);
        var observed := GotObservation(polled, env.step.obsReconnect, env.step.obsWait).0;
        CallsKeepIdle(observed, env.calls);
        EndKeepsSettled(a.(client := CalledAll(observed, env.calls)), env);
      }
    }
  }

  /** No update, in any mode and under any behaviour of the game, makes a healthy client report an
      unconsumed response or leaves it expecting anything but the answer to a leave request. */
  lemma UpdateKeepsSettled(a: Agent, s: Settings, env: UpdateEnv)
    requires Settled(a.client)
    ensures Settled(UpdatedAgent(a, s, env).client) && NoNewOverlap(a.client, UpdatedAgent(a, s, env).client)
  {
    if s.realtime {
      RealtimeKeepsSettled(a, env);
    } else {
      SteppedKeepsSettled(a, s.multiThreaded, env);
      FollowUpKeepsSettled(SteppedAgent(a, s.multiThreaded, env), env);
    }
  }

  /** A healthy client that expects a response. */
  predicate Waiting(c: Client) {
    HasResponsePending(c) && c.app == Normal
  }

  /** What WaitForAllResponses does to the first agent that waits: ConsumeResponse, if the connection
      announces one. */
  function Served(a: Agent, wait: WaitEnv): Agent {
    if a.client.wire.hasResponse then a.(client := Waited(a.client, wait).0) else a
  }

  /** Serving takes the oldest response the connection announces, and nothing else happens to the agent
      without an announcement. */
  lemma ServingTakesResponse(a: Agent, wait: WaitEnv)
    ensures !a.client.wire.hasResponse ==> Served(a, wait) == a
    ensures a.client.wire.hasResponse && a.client.wire.queue != [] ==>
      && Served(a, wait).client.pending == NotSet && Served(a, wait).gameEnds == a.gameEnds
      && Served(a, wait).client.wire.queue == a.client.wire.queue[1..] + wait.first.arrivals
  {
    if a.client.wire.queue != [] {
      AnsweredWait(a.client, wait);
    }
  }

  function Delivered(a: Agent, arrivals: seq<Response>): Agent {
    a.(client := a.client.(wire := PushedAll(a.client.wire, arrivals)))
  }

  /** One call on the coordinator, as one agent sees it; Consume is a tick of WaitForAllResponses, and
      Deliver what the socket thread does between two calls. */
  datatype Act =
    | Update(env: UpdateEnv)
    | Leave(reconnect: bool)
    | Consume(wait: WaitEnv)
    | Deliver(arrivals: seq<Response>)

  function Left(a: Agent, reconnect: bool): Agent {
    a.(client := RequestedLeave(a.client, reconnect))
  }

  function Acted(a: Agent, s: Settings, act: Act): Agent {
    match act
    case Update(env) => UpdatedAgent(a, s, env)
    case Leave(reconnect) => Left(a, reconnect)
    case Consume(wait) => if Waiting(a.client) then Served(a, wait) else a
    case Deliver(arrivals) => Delivered(a, arrivals)
  }

  function RunTo(a: Agent, s: Settings, run: seq<Act>, k: nat): Agent
    requires k <= |run|
  {
    if k == 0 then a else Acted(RunTo(a, s, run, k - 1), s, run[k - 1])
  }

  /** A leave request that meets an open response: the guard the caller could have checked. */
  predicate LeaveOverlaps(c: Client, act: Act) {
    act.Leave? && c.multiplayer && HasResponsePending(c) && (c.wire.connected || act.reconnect)
  }

  predicate EverOverlaps(a: Agent, s: Settings, run: seq<Act>, k: nat)
    requires k <= |run|
  {
    k > 0 && (EverOverlaps(a, s, run, k - 1) || LeaveOverlaps(RunTo(a, s, run, k - 1).client, run[k - 1]))
  }

  /** Over a whole run a healthy client is settled between calls, and has reported an unconsumed
      response exactly if LeaveGame was requested while a response was still open. */
  lemma {:induction false} RunStaysSettled(a: Agent, s: Settings, run: seq<Act>, k: nat)
    requires k <= |run| && Settled(a.client) && !Raised(a.client, ResponseNotConsumed)
    ensures var c := RunTo(a, s, run, k).client;
      && Settled(c)
      && (c.app == Normal ==> (Raised(c, ResponseNotConsumed) <==> EverOverlaps(a, s, run, k)))
  {
    if k > 0 {
      RunStaysSettled(a, s, run, k - 1);
      var b, act := RunTo(a, s, run, k - 1), run[k - 1];
      match act
      case Update(env) => UpdateKeepsSettled(b, s, env);
      case Leave(reconnect) => LeaveKeepsSettled(b.client, reconnect);
      case Consume(wait) => ServeKeepsSettled(b, wait);
      case Deliver(arrivals) =>
    }
  }

  lemma ServeKeepsSettled(a: Agent, wait: WaitEnv)
    requires Settled(a.client)
    ensures Settled(Served(a, wait).client) && NoNewOverlap(a.client, Served(a, wait).client)
  {
    WaitKeepsHealth(a.client, wait);
  }

  lemma LeaveKeepsSettled(c: Client, reconnect: bool)
    requires Settled(c)
    ensures var d := RequestedLeave(c, reconnect);
      && Settled(d) && d.app == c.app
      && (Raised(d, ResponseNotConsumed) <==> Raised(c, ResponseNotConsumed) || LeaveOverlaps(c, Leave(reconnect)))
  {
  }

  /** Whether an update can call OnGameEnd on a healthy agent at all. */
  predicate CanEnd(c: Client, s: Settings) {
    && c.app == Normal
    && if c.multiplayer then (s.realtime || s.multiThreaded) && IsInGame(c) && c.pending != LeaveGame
       else IsInGame(c) || (!s.realtime && !s.multiThreaded)
  }

  lemma StepKeepsMultiplayer(c: Client, env: StepEnv)
    ensures Stepped(c, env).multiplayer == c.multiplayer
  {
    var d := StepSent(c, env.reconnect).0;
    WaitRaises(d, env.wait);
    WaitRaises(Sent(Waited(d, env.wait).0, Observation, false, env.obsReconnect).0, env.obsWait);
  }

  lemma SteppedWithoutThreads(a: Agent, env: UpdateEnv)
    ensures var b := SteppedAgent(a, false, env);
      b.client.multiplayer == a.client.multiplayer && b.gameEnds == a.gameEnds
  {
    WaitRaises(a.client, env.poll);
    StepKeepsMultiplayer(PolledLeave(a.client, env.poll).0, env.step);
  }

  lemma NoEndInFollowUp(a: Agent, env: UpdateEnv)
    requires a.client.multiplayer
    ensures FollowedUp(a, env).gameEnds == a.gameEnds
  {
  }

  /** Whatever the game does, an update calls OnGameEnd at most once, and only if it can. */
  lemma GameEndNeeds(a: Agent, s: Settings, env: UpdateEnv)
    requires Settled(a.client)
    ensures var after := UpdatedAgent(a, s, env);
      after.gameEnds == a.gameEnds || (after.gameEnds == a.gameEnds + 1 && CanEnd(a.client, s))
  {
    if !s.realtime && !s.multiThreaded {
      SteppedWithoutThreads(a, env);
      if a.client.multiplayer {
        NoEndInFollowUp(SteppedAgent(a, false, env), env);
      } else if a.client.app != Normal {
        FailedStays(a, env);
      }
    }
  }

  lemma FailedStays(a: Agent, env: UpdateEnv)
    requires a.client.app != Normal
    ensures FollowedUp(SteppedAgent(a, false, env), env) == a
  {
  }

  /** An agent whose game has crashed or hung is left alone by every update. */
  lemma FailedIsLeftAlone(a: Agent, s: Settings, env: UpdateEnv)
    requires a.client.app != Normal
    ensures UpdatedAgent(a, s, env) == a && !UpdateReadsMissing(a, s, env)
  {
  }

  /** An update in which the game answers every wait with an error and the status Ended, and no callback
      asks for anything. */
  function EndingEnv(): UpdateEnv {
    var over := Response(StepGame, 1, Some(Ended), false, 0);
    var wait := WaitEnv(Recv([over], []), true, true, Recv([], []), false);
    UpdateEnv(wait, StepEnv(true, wait, true, wait), wait, [], [], true)
  }

  lemma EndingWait(c: Client)
    requires c.wire.queue == []
    ensures var d := Waited(c, EndingEnv().poll).0;
      d.app == c.app && d.status == Ended && d.pending == NotSet && d.multiplayer == c.multiplayer
    ensures !IsGood(Waited(c, EndingEnv().poll).1, StepGame)
  {
  }

  lemma EndingEnds(a: Agent, s: Settings)
    requires Settled(a.client) && a.client.wire.queue == [] && CanEnd(a.client, s)
    ensures var after := UpdatedAgent(a, s, EndingEnv());
      after.gameEnds == a.gameEnds + 1 && after.client.app == Normal
  {
    EndingWait(Sent(a.client, if s.realtime then Observation else StepGame, false, true).0);
  }

  predicate EndsHealthy(a: Agent, s: Settings, env: UpdateEnv) {
    var after := UpdatedAgent(a, s, env);
    after.gameEnds > a.gameEnds && after.client.app == Normal
  }

  /** When an update can report an end at all: between updates, with an empty receive queue, there is a
      behaviour of the game for which the next update calls OnGameEnd and the agent stays healthy, if
      and only if the agent is healthy and
      - in multiplayer: is in a game it has not asked to leave, in realtime or with threads;
      - in single player: is in a game, or is stepped without threads. */
  lemma GameEndIff(a: Agent, s: Settings)
    requires Settled(a.client) && a.client.wire.queue == []
    ensures (exists env :: EndsHealthy(a, s, env)) <==> CanEnd(a.client, s)
  {
    if CanEnd(a.client, s) {
      EndingEnds(a, s);
      assert EndsHealthy(a, s, EndingEnv());
    }
    forall env | EndsHealthy(a, s, env) ensures CanEnd(a.client, s) {
      GameEndNeeds(a, s, env);
    }
  }

  /** A healthy agent in a game that expects no response. */
  predicate Playing(c: Client) {
    IsInGame(c) && c.pending == NotSet
  }

  /** A healthy agent out of the game that expects no response. */
  predicate Stranded(c: Client) {
    c.app == Normal && !IsInGame(c) && c.pending == NotSet
  }

  /** Stepped without threads in single player, where CallOnStep looks at the game on every update. */
  predicate LooksEveryTime(c: Client, s: Settings) {
    !s.realtime && !s.multiThreaded && !c.multiplayer
  }

  /** The end of the game is noticed in the update in which it happens: in realtime always, because the
      callbacks have run by then; stepped, only if the answers to the step and to its observation bring
      it, and in multiplayer only with threads. */
  predicate EndNoticed(a: Agent, s: Settings, env: UpdateEnv) {
    s.realtime || (!IsInGame(Stepped(a.client, env.step)) && (s.multiThreaded || !a.client.multiplayer))
  }

  /** If an update takes a healthy agent out of its game, OnGameEnd is called in it exactly if the end
      is noticed; otherwise the agent expects no response afterwards. */
  lemma EndReportedIff(a: Agent, s: Settings, env: UpdateEnv)
    requires Playing(a.client)
    requires var c := UpdatedAgent(a, s, env).client; c.app == Normal && !IsInGame(c)
    ensures var after := UpdatedAgent(a, s, env);
      && after.gameEnds == (if EndNoticed(a, s, env) then a.gameEnds + 1 else a.gameEnds)
      && (!EndNoticed(a, s, env) ==> Stranded(after.client) && after.client.multiplayer == a.client.multiplayer)
  {
    UpdateKeepsSettled(a, s, env);
    StepKeepsIdle(a.client, env.step);
    var stepped := Stepped(a.client, env.step);
    CallsKeepIdle(stepped, env.calls);
    if !s.realtime && !s.multiThreaded && a.client.multiplayer {
      NoGameEndWithoutThreads(a, s, env);
    }
  }

  /** A healthy agent that is out of the game and expects nothing is not touched by any update, unless it
      is one whose CallOnStep looks every time. */
  lemma StrandedStays(a: Agent, s: Settings, env: UpdateEnv)
    requires Stranded(a.client) && !LooksEveryTime(a.client, s)
    ensures UpdatedAgent(a, s, env) == a
  {
  }

  /** An agent that waits for the answer to its leave request is not told in that update. */
  lemma LeavingIsNotTold(a: Agent, s: Settings, env: UpdateEnv)
    requires a.client.multiplayer && a.client.pending == LeaveGame
    ensures UpdatedAgent(a, s, env).gameEnds == a.gameEnds
  {
    if !s.realtime && !s.multiThreaded {
      SteppedWithoutThreads(a, env);
      NoEndInFollowUp(SteppedAgent(a, false, env), env);
    }
  }

  /** A healthy multiplayer agent that has asked to leave and has not got the answer. */
  predicate AwaitsLeave(c: Client) {
    c.app == Normal && c.multiplayer && c.pending == LeaveGame
  }

  /** Until a connection announces something, updates leave an agent that awaits its leave answer as it
      is. */
  lemma LeaveAnswerAwaited(a: Agent, s: Settings, env: UpdateEnv)
    requires AwaitsLeave(a.client) && !a.client.wire.hasResponse
    ensures UpdatedAgent(a, s, env) == a
  {
  }

  /** The first update that finds the answer takes it, and unless it tells of another game the agent
      expects nothing more and is out of the game. */
  lemma LeaveAnswerTaken(a: Agent, s: Settings, env: UpdateEnv)
    requires AwaitsLeave(a.client) && a.client.wire.hasResponse && a.client.wire.queue != []
    requires a.client.wire.queue[0].status !in {Some(InGame), Some(InReplay)}
    ensures var after := UpdatedAgent(a, s, env);
      && Stranded(after.client) && after.gameEnds == a.gameEnds
      && after.client.wire.queue == a.client.wire.queue[1..] + env.poll.first.arrivals
  {
    AnsweredWait(a.client, env.poll);
  }

  /** A delivery, or an update that finds nothing announced. */
  predicate FindsNothingNow(a: Agent, act: Act) {
    act.Deliver? || (act.Update? && !a.client.wire.hasResponse)
  }

  predicate FindsNothing(a: Agent, s: Settings, run: seq<Act>, k: nat)
    requires k <= |run|
  {
    k > 0 ==> FindsNothing(a, s, run, k - 1) && FindsNothingNow(RunTo(a, s, run, k - 1), run[k - 1])
  }

  predicate SameButWire(a: Agent, b: Agent) {
    b == a.(client := a.client.(wire := b.client.wire))
  }

  lemma LeaveStaysNext(a: Agent, s: Settings, act: Act)
    requires AwaitsLeave(a.client) && FindsNothingNow(a, act)
    ensures SameButWire(a, Acted(a, s, act))
  {
    if act.Update? {
      LeaveAnswerAwaited(a, s, act.env);
    }
  }

  lemma {:induction false} LeaveStaysOpen(a: Agent, s: Settings, run: seq<Act>, k: nat)
    requires AwaitsLeave(a.client) && k <= |run| && FindsNothing(a, s, run, k)
    ensures SameButWire(a, RunTo(a, s, run, k))
  {
    if k > 0 {
      var j := k - 1;
      LeaveStaysOpen(a, s, run, j);
      LeaveStaysNext(RunTo(a, s, run, j), s, run[j]);
    }
  }

  /** After the update that calls OnGameEnd and leaves the request to leave open, that request stays open,
      whatever arrives, through every further update up to the one that finds something announced. */
  lemma {:induction false} ToldAgentAwaitsAnswer(a: Agent, s: Settings, env: UpdateEnv, run: seq<Act>, k: nat)
    requires Settled(a.client) && k <= |run|
    requires var b := UpdatedAgent(a, s, env);
      b.gameEnds > a.gameEnds && b.client.app == Normal && b.client.pending == LeaveGame
    requires FindsNothing(UpdatedAgent(a, s, env), s, run, k)
    ensures var b, c := UpdatedAgent(a, s, env), RunTo(UpdatedAgent(a, s, env), s, run, k);
      c.client.pending == LeaveGame && c.client.errors == b.client.errors && c.gameEnds == b.gameEnds
  {
    UpdateKeepsSettled(a, s, env);
    LeaveStaysOpen(UpdatedAgent(a, s, env), s, run, k);
  }

  lemma EndsNeverFall(a: Agent, s: Settings, act: Act)
    ensures Acted(a, s, act).gameEnds >= a.gameEnds
  {
  }

  lemma {:induction false} EndsGrow(a: Agent, s: Settings, run: seq<Act>, k: nat)
    requires k <= |run|
    ensures RunTo(a, s, run, k).gameEnds >= a.gameEnds
  {
    if k > 0 {
      EndsGrow(a, s, run, k - 1);
      EndsNeverFall(RunTo(a, s, run, k - 1), s, run[k - 1]);
    }
  }

  predicate Updates(run: seq<Act>, k: nat)
    requires k <= |run|
  {
    exists i :: 0 <= i < k && run[i].Update?
  }

  /** What a run without leave requests does to an agent that the end of its game has passed by. */
  lemma {:induction false} StrandedRun(a: Agent, s: Settings, run: seq<Act>, k: nat)
    requires k <= |run| && Stranded(a.client) && forall i :: 0 <= i < k ==> !run[i].Leave?
    ensures var b := RunTo(a, s, run, k);
      if LooksEveryTime(a.client, s) && Updates(run, k) then b.gameEnds > a.gameEnds
      else b == a.(client := a.client.(wire := b.client.wire))
  {
    if k > 0 {
      StrandedRun(a, s, run, k - 1);
      var b := RunTo(a, s, run, k - 1);
      EndsNeverFall(b, s, run[k - 1]);
      if run[k - 1].Update? && !(LooksEveryTime(a.client, s) && Updates(run, k - 1)) {
        if LooksEveryTime(a.client, s) {
          GameEndsRepeat(b, s, run[k - 1].env);
        } else {
          StrandedStays(b, s, run[k - 1].env);
        }
      }
    }
  }

  /** Whether an agent is ever told that its game ended.  An update takes a healthy agent out of its game
      and any run without leave requests follows: OnGameEnd has been called if and only if the end was
      noticed at once, or the agent is one that looks on every update and another update has run. */
  lemma {:induction false} EndEverReportedIff(a: Agent, s: Settings, env: UpdateEnv, run: seq<Act>, k: nat)
    requires Playing(a.client)
    requires var c := UpdatedAgent(a, s, env).client; c.app == Normal && !IsInGame(c)
    requires k <= |run| && forall i :: 0 <= i < k ==> !run[i].Leave?
    ensures RunTo(UpdatedAgent(a, s, env), s, run, k).gameEnds > a.gameEnds
      <==> EndNoticed(a, s, env) || (LooksEveryTime(a.client, s) && Updates(run, k))
  {
    EndReportedIff(a, s, env);
    var b := UpdatedAgent(a, s, env);
    if EndNoticed(a, s, env) {
      EndsGrow(b, s, run, k);
    } else {
      StrandedRun(b, s, run, k);
    }
  }

  /** One good answer. */
  function Answer(kind: Kind, status: Status): WaitEnv {
    WaitEnv(Recv([Response(kind, 0, Some(status), true, 0)], []), true, true, Recv([], []), false)
  }

  /** Step and observation are answered from within the game, and the end comes with the answer to a
      request that a callback makes. */
  function EndInCallback(): UpdateEnv {
    var step := StepEnv(true, Answer(StepGame, InGame), true, Answer(Observation, InGame));
    UpdateEnv(Answer(LeaveGame, InGame), step, Answer(LeaveGame, InGame),
      [Call(Action, true, Answer(Action, Ended))], [], true)
  }

  lemma AnsweredCall(c: Client, kind: Kind, status: Status)
    requires c.pending == NotSet && c.wire.queue == []
    ensures var (d, r) := Called(c, Call(kind, true, Answer(kind, status)));
      && d == c.(wire := d.wire, status := status) && d.wire.queue == []
      && IsGood(r, kind) && r.value.complete
  {
  }

  lemma AnsweredStep(c: Client)
    requires Playing(c) && c.wire.queue == []
    ensures var d := Stepped(c, EndInCallback().step);
      d == c.(wire := d.wire, status := InGame) && d.wire.queue == []
  {
    AnsweredCall(c, StepGame, InGame);
    AnsweredCall(Called(c, Call(StepGame, true, Answer(StepGame, InGame))).0, Observation, InGame);
  }

  lemma {:induction false} EndedByCall(c: Client)
    requires Playing(c) && c.wire.queue == []
    ensures var d := CalledAll(c, EndInCallback().calls);
      d == c.(wire := d.wire, status := Ended)
  {
    AnsweredCall(c, Action, Ended);
    assert EndInCallback().calls[..0] == [];
    assert CalledAll(c, EndInCallback().calls) == Called(c, EndInCallback().calls[0]).0;
  }

  /** Stepped, with or without threads, any agent in a game can miss its end without any error. */
  lemma EndMissed(a: Agent, s: Settings)
    requires !s.realtime && Playing(a.client) && a.client.wire.queue == []
    ensures var after := UpdatedAgent(a, s, EndInCallback());
      after.gameEnds == a.gameEnds && Stranded(after.client) && after.client.errors == a.client.errors
  {
    AnsweredStep(a.client);
    EndedByCall(Stepped(a.client, EndInCallback().step));
  }

  /** Stepped without threads, a single-player agent outside a game is told so on every update. */
  lemma GameEndsRepeat(a: Agent, s: Settings, env: UpdateEnv)
    requires !s.realtime && !s.multiThreaded && !a.client.multiplayer
    requires a.client.app == Normal && !IsInGame(a.client) && !HasResponsePending(a.client)
    ensures UpdatedAgent(a, s, env).gameEnds == a.gameEnds + 1
  {
  }

  /** Stepped without threads, a multiplayer agent is never told that its game ended, and a healthy one
      never comes to wait for the answer to a leave request: once it is out of the game PollLeaveGame
      turns the update away before OnGameEnd and the leave request. */
  lemma NoGameEndWithoutThreads(a: Agent, s: Settings, env: UpdateEnv)
    requires !s.realtime && !s.multiThreaded && a.client.multiplayer
    ensures UpdatedAgent(a, s, env).gameEnds == a.gameEnds
    ensures Settled(a.client) ==> NoNewLeave(a.client, UpdatedAgent(a, s, env).client)
  {
    SteppedWithoutThreads(a, env);
    NoEndInFollowUp(SteppedAgent(a, false, env), env);
    if Settled(a.client) {
      SteppedKeepsSettled(a, false, env);
      NoLeaveInStep(a, env);
      NoLeaveInFollowUp(SteppedAgent(a, false, env), env);
    }
  }

  predicate NoNewLeave(before: Client, after: Client) {
    after.app == Normal && after.pending == LeaveGame ==> before.app == Normal && before.pending == LeaveGame
  }

  lemma NoLeaveInStep(a: Agent, env: UpdateEnv)
    requires Settled(a.client)
    ensures NoNewLeave(a.client, SteppedAgent(a, false, env).client)
  {
    if a.client.app == Normal {
      PollKeepsSettled(a.client, env.poll);
      var (polled, leaving) := PolledLeave(a.client, env.poll);
      if !leaving && !IsFinishedGame(polled) {
        StepKeepsIdle(polled, env.step);
      }
    }
  }

  lemma NoLeaveInFollowUp(a: Agent, env: UpdateEnv)
    requires Settled(a.client) && a.client.multiplayer
    ensures NoNewLeave(a.client, FollowedUp(a, env).client)
  {
    if a.client.app == Normal {
      PollKeepsSettled(a.client, env.pollAgain);
      var (polled, leaving) := PolledLeave(a.client, env.pollAgain);
      if !leaving {
        CallsKeepIdle(polled, env.calls);
      }
    }
  }

  /** In realtime an agent in a game reads a missing response exactly when it could ask for an observation
      and nothing has come for it; stepped, exactly when the step is answered without errors and nothing more
      has come. */
  lemma ReadsMissingInUpdateIff(a: Agent, s: Settings, env: UpdateEnv)
    requires Playing(a.client)
    ensures var w, q := a.client.wire, a.client.wire.queue + env.step.wait.first.arrivals;
      UpdateReadsMissing(a, s, env) <==>
        && env.step.obsWait.first.arrivals == []
        && if s.realtime then w.queue == [] && (w.connected || env.step.obsReconnect)
           else && |q| == 1 && q[0].kind == StepGame && q[0].errorCount == 0
                && (w.connected || env.step.reconnect || env.step.obsReconnect)
  {
    var c, sent := a.client, StepSent(a.client, env.step.reconnect).0;
    ReadsMissingIff(c, env.step.obsReconnect, env.step.obsWait);
    StepObservesIff(sent, env.step);
    ReadsMissingIff(Waited(sent, env.step.wait).0, env.step.obsReconnect, env.step.obsWait);
    if sent.wire.queue + env.step.wait.first.arrivals != [] {
      AnsweredWait(sent, env.step.wait);
    }
  }

  /** An update whose observation request is answered in time never reads a missing response. */
  lemma AnsweredReadsNothingMissing(a: Agent, s: Settings, env: UpdateEnv)
    requires env.step.obsWait.first.arrivals != []
    ensures !UpdateReadsMissing(a, s, env)
  {
    var polled := PolledLeave(a.client, env.poll).0;
    ReadsMissingIff(polled, env.step.obsReconnect, env.step.obsWait);
    var stepped := Waited(StepSent(polled, env.step.reconnect).0, env.step.wait).0;
    ReadsMissingIff(stepped, env.step.obsReconnect, env.step.obsWait);
  }
}
