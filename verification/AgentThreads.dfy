/** The threads of a parallel pass, request by request: however they interleave, each agent ends as one
    whole step leaves it. */
module AgentThreads {
  import opened GameTypes
  import opened ClientProtocol
  import opened AgentSteps

  /** Where a thread stands in its step_agent.  A request and the wait for its answer are separate
      moves; the calls still to be made, by OnGameEnd or by the other callbacks, are kept with the phase. */
  datatype Phase =
    | Poll
    | SendStep
    | AwaitStep
    | SendObservation
    | AwaitObservation
    | LookAtGame
    | Calls(ending: bool, left: seq<Call>)
    | AwaitCall(ending: bool, call: Call, left: seq<Call>)
    | LookAfterCalls
    | RequestLeave
    | Done

  datatype Thread = Thread(agent: Agent, phase: Phase)

  function At(t: Thread, c: Client, phase: Phase): Thread {
    Thread(t.agent.(client := c), phase)
  }

  /** Where a thread goes on once the observation has been dealt with. */
  function Onward(s: Settings, env: UpdateEnv): Phase {
    if s.realtime then Calls(false, env.calls) else if s.multiThreaded then LookAtGame else Done
  }

  function EndStarted(t: Thread, env: UpdateEnv): Thread {
    Thread(t.agent.(gameEnds := t.agent.gameEnds + 1), Calls(true, env.endCalls))
  }

  function PollMoved(t: Thread, s: Settings, env: UpdateEnv): Thread {
    var (polled, leaving) := PolledLeave(t.agent.client, env.poll);
    if t.agent.client.app != Normal then t.(phase := Done)
    else if leaving || IsFinishedGame(polled) then At(t, polled, Done)
    else At(t, polled, if s.realtime then SendObservation else SendStep)
  }

  function SendObservationMoved(t: Thread, s: Settings, env: UpdateEnv): Thread {
    var c := t.agent.client;
    var (d, sent) := Sent(c, Observation, false, env.step.obsReconnect);
    if c.app != Normal then t.(phase := Onward(s, env))
    else At(t, d, if sent then AwaitObservation else Onward(s, env))
  }

  function CallSent(c: Client, call: Call): (Client, bool) {
    Sent(c, call.kind, false, call.reconnect)
  }

  /** The next move of a thread. */
  function Moved(t: Thread, s: Settings, env: UpdateEnv): Thread {
    var c := t.agent.client;
    match t.phase
    case Poll => PollMoved(t, s, env)
    case SendStep => At(t, StepSent(c, env.step.reconnect).0, AwaitStep)
    case AwaitStep =>
      var (w, r) := Waited(c, env.step.wait);
      At(t, w, if IsGood(r, StepGame) then SendObservation else Onward(s, env))
    case SendObservation => SendObservationMoved(t, s, env)
    case AwaitObservation => At(t, Waited(c, env.step.obsWait).0, Onward(s, env))
    case LookAtGame => if !IsInGame(c) then EndStarted(t, env) else t.(phase := Calls(false, env.calls))
    case Calls(ending, left) =>
      if left == [] then t.(phase := if ending then RequestLeave else if s.realtime then LookAfterCalls else Done)
      else
        var (d, sent) := CallSent(c, left[0]);
        At(t, d, if sent then AwaitCall(ending, left[0], left[1..]) else Calls(ending, left[1..]))
    case AwaitCall(ending, call, left) => At(t, Waited(c, call.wait).0, Calls(ending, left))
    case LookAfterCalls => if !IsInGame(c) then EndStarted(t, env) else t.(phase := Done)
    case RequestLeave => At(t, RequestedLeave(c, env.leaveReconnect), Done)
    case Done => t
  }

  function AfterCalls(a: Agent, s: Settings, env: UpdateEnv): Agent {
    if s.realtime && !IsInGame(a.client) then EndedGame(a, env) else a
  }

  function AfterObservation(a: Agent, s: Settings, env: UpdateEnv): Agent {
    if s.realtime then AfterCalls(a.(client := CalledAll(a.client, env.calls)), s, env)
    else if s.multiThreaded then CalledOnStep(a, env)
    else a
  }

  function AfterEndCalls(a: Agent, env: UpdateEnv): Agent {
    a.(client := RequestedLeave(a.client, env.leaveReconnect))
  }

  function Finished(ending: bool, a: Agent, c: Client, s: Settings, env: UpdateEnv): Agent {
    if ending then AfterEndCalls(a.(client := c), env) else AfterCalls(a.(client := c), s, env)
  }

  /** The agent a thread will leave behind when nothing else moves. */
  function Outcome(t: Thread, s: Settings, env: UpdateEnv): Agent {
    var a, c := t.agent, t.agent.client;
    match t.phase
    case Poll => ParallelPart(a, s, env)
    case SendStep => AfterObservation(a.(client := Stepped(c, env.step)), s, env)
    case AwaitStep => AfterObservation(a.(client := StepAwaited(c, env.step).0), s, env)
    case SendObservation =>
      AfterObservation(a.(client := GotObservation(c, env.step.obsReconnect, env.step.obsWait).0), s, env)
    case AwaitObservation => AfterObservation(a.(client := Waited(c, env.step.obsWait).0), s, env)
    case LookAtGame => CalledOnStep(a, env)
    case Calls(ending, left) => Finished(ending, a, CalledAll(c, left), s, env)
    case AwaitCall(ending, call, left) => Finished(ending, a, CalledAll(Waited(c, call.wait).0, left), s, env)
    case LookAfterCalls => AfterCalls(a, s, env)
    case RequestLeave => AfterEndCalls(a, env)
    case Done => a
  }

  /** Phases of the stepped mode are not met in realtime, nor the other way round. */
  predicate Proper(t: Thread, s: Settings) {
    && (t.phase.SendStep? || t.phase.AwaitStep? || t.phase.LookAtGame? ==> !s.realtime)
    && (t.phase.LookAfterCalls? ==> s.realtime)
  }

  /** The first of several calls comes first. */
  lemma {:induction false} CallsFromFront(c: Client, calls: seq<Call>)
    requires calls != []
    ensures CalledAll(c, calls) == CalledAll(Called(c, calls[0]).0, calls[1..])
  {
    var n := |calls| - 1;
    if n == 0 {
      assert calls[..0] == [] && calls[1..] == [];
    } else {
      CallsFromFront(c, calls[..n]);
      assert calls[..n][1..] == calls[1..][..n - 1];
    }
  }

  predicate KeepsOutcome(t: Thread, s: Settings, env: UpdateEnv) {
    Proper(Moved(t, s, env), s) && Outcome(Moved(t, s, env), s, env) == Outcome(t, s, env)
  }

  lemma PollKeepsOutcome(t: Thread, s: Settings, env: UpdateEnv)
    requires t.phase.Poll?
    ensures KeepsOutcome(t, s, env)
  {
  }

  lemma StepKeepsOutcome(t: Thread, s: Settings, env: UpdateEnv)
    requires Proper(t, s) && (t.phase.SendStep? || t.phase.AwaitStep?)
    ensures KeepsOutcome(t, s, env)
  {
  }

  lemma ObservationKeepsOutcome(t: Thread, s: Settings, env: UpdateEnv)
    requires t.phase.SendObservation? || t.phase.AwaitObservation?
    ensures KeepsOutcome(t, s, env)
  {
  }

  lemma LookKeepsOutcome(t: Thread, s: Settings, env: UpdateEnv)
    requires Proper(t, s) && (t.phase.LookAtGame? || t.phase.LookAfterCalls?)
    ensures KeepsOutcome(t, s, env)
  {
  }

  lemma NextCall(c: Client, left: seq<Call>)
    requires left != []
    ensures var (d, sent) := CallSent(c, left[0]);
      CalledAll(c, left) == CalledAll(if sent then Waited(d, left[0].wait).0 else d, left[1..])
  {
    CallsFromFront(c, left);
  }

  lemma CallKeepsOutcome(t: Thread, s: Settings, env: UpdateEnv)
    requires t.phase.Calls? || t.phase.AwaitCall?
    ensures KeepsOutcome(t, s, env)
  {
    if t.phase.Calls? && t.phase.left != [] {
      NextCall(t.agent.client, t.phase.left);
    }
  }

  /** A move changes what there is left to do, but not where it leads. */
  lemma MoveKeepsOutcome(t: Thread, s: Settings, env: UpdateEnv)
    requires Proper(t, s)
    ensures KeepsOutcome(t, s, env)
  {
    match t.phase
    case Poll => PollKeepsOutcome(t, s, env);
    case SendStep | AwaitStep => StepKeepsOutcome(t, s, env);
    case SendObservation | AwaitObservation => ObservationKeepsOutcome(t, s, env);
    case LookAtGame | LookAfterCalls => LookKeepsOutcome(t, s, env);
    case Calls(_, _) | AwaitCall(_, _, _) => CallKeepsOutcome(t, s, env);
    case RequestLeave | Done =>
  }

  /** How many moves a thread has left at most. */
  function Distance(t: Thread, env: UpdateEnv): nat {
    var ends, calls := 2 * |env.endCalls|, 2 * |env.calls|;
    match t.phase
    case Poll => 10 + calls + ends
    case SendStep => 9 + calls + ends
    case AwaitStep => 8 + calls + ends
    case SendObservation => 7 + calls + ends
    case AwaitObservation => 6 + calls + ends
    case LookAtGame => 5 + calls + ends
    case Calls(ending, left) => 2 * |left| + if ending then 2 else 4 + ends
    case AwaitCall(ending, _, left) => 2 * |left| + if ending then 3 else 5 + ends
    case LookAfterCalls => 3 + ends
    case RequestLeave => 1
    case Done => 0
  }

  lemma MoveComesNearer(t: Thread, s: Settings, env: UpdateEnv)
    ensures Distance(Moved(t, s, env), env) <= if t.phase.Done? then 0 else Distance(t, env) - 1
  {
  }

  /** All threads after the moves of an arbitrary interleaving: order names the thread of each move. */
  function Interleaved(agents: seq<Agent>, s: Settings, envs: seq<UpdateEnv>, order: seq<nat>): (threads: seq<Thread>)
    requires |envs| == |agents|
    ensures |threads| == |agents|
  {
    if order == [] then seq(|agents|, i requires 0 <= i < |agents| => Thread(agents[i], Poll))
    else
      var before, i := Interleaved(agents, s, envs, order[..|order| - 1]), order[|order| - 1];
      if i < |agents| then before[i := Moved(before[i], s, envs[i])] else before
  }

  /** The most moves any thread with these callbacks makes. */
  function Budget(env: UpdateEnv): nat {
    10 + 2 * |env.calls| + 2 * |env.endCalls|
  }

  /** On its way to what one whole step makes of the agent, with the moves already made used up. */
  predicate OnItsWay(t: Thread, a: Agent, s: Settings, env: UpdateEnv, moves: nat) {
    && Proper(t, s) && Outcome(t, s, env) == ParallelPart(a, s, env)
    && Distance(t, env) <= if moves < Budget(env) then Budget(env) - moves else 0
  }

  lemma OnItsWayNext(t: Thread, a: Agent, s: Settings, env: UpdateEnv, moves: nat)
    requires OnItsWay(t, a, s, env, moves)
    ensures OnItsWay(Moved(t, s, env), a, s, env, moves + 1)
  {
    MoveKeepsOutcome(t, s, env);
    MoveComesNearer(t, s, env);
  }

  lemma Arrival(t: Thread, a: Agent, s: Settings, env: UpdateEnv, moves: nat)
    requires OnItsWay(t, a, s, env, moves)
    ensures t.phase.Done? ==> t.agent == ParallelPart(a, s, env)
    ensures moves >= Budget(env) ==> t.phase.Done?
  {
  }

  lemma {:induction false} InterleavedOnTheirWay(agents: seq<Agent>, s: Settings, envs: seq<UpdateEnv>,
                                                order: seq<nat>, i: nat)
    requires |envs| == |agents| && i < |agents|
    ensures OnItsWay(Interleaved(agents, s, envs, order)[i], agents[i], s, envs[i], multiset(order)[i])
  {
    if order != [] {
      var n := |order| - 1;
      var before := Interleaved(agents, s, envs, order[..n]);
      InterleavedOnTheirWay(agents, s, envs, order[..n], i);
      assert order == order[..n] + [order[n]];
      if order[n] == i {
        OnItsWayNext(before[i], agents[i], s, envs[i], multiset(order[..n])[i]);
      }
    }
  }

  /** However the threads interleave, move by move, a thread that is done leaves its agent as one whole
      step would, and it is done once it has made as many moves as its calls can need. */
  lemma {:induction false} InterleavedIsParallelPart(agents: seq<Agent>, s: Settings, envs: seq<UpdateEnv>,
                                                    order: seq<nat>, i: nat)
    requires |envs| == |agents| && i < |agents|
    ensures var t := Interleaved(agents, s, envs, order)[i];
      && (t.phase.Done? ==> t.agent == ParallelPart(agents[i], s, envs[i]))
      && (multiset(order)[i] >= Budget(envs[i]) ==> t.phase.Done?)
  {
    InterleavedOnTheirWay(agents, s, envs, order, i);
    Arrival(Interleaved(agents, s, envs, order)[i], agents[i], s, envs[i], multiset(order)[i]);
  }
}
