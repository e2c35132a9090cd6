/** The coordinator that steps every agent, one update after another. */
module GameCoordinator {
  import opened GameTypes
  import opened ClientProtocol
  import opened AgentSteps
  import opened AgentErrors
  import opened ClientObjects

  class BotAgent {
    const control: ControlImp
    var gameEnds: nat

    constructor (control: ControlImp)
      ensures this.control == control && gameEnds == 0
    {
      this.control := control;
      gameEnds := 0;
    }

    ghost function Repr(): set<object> {
      control.Repr() + {this}
    }

    function State(): Agent
      reads Repr()
    {
      Agent(control.State(), gameEnds)
    }

    method RequestLeaveGame(reconnect: bool)
      modifies Repr()
      ensures State() == Left(old(State()), reconnect)
    {
      control.RequestLeaveGame(reconnect);
    }

    method EndGame(env: UpdateEnv)
      modifies Repr()
      ensures State() == EndedGame(old(State()), env)
    {
      gameEnds := gameEnds + 1;
      control.MakeCalls(env.endCalls);
      control.RequestLeaveGame(env.leaveReconnect);
    }

    method CallOnStep(env: UpdateEnv)
      modifies Repr()
      ensures State() == CalledOnStep(old(State()), env)
    {
      if !IsInGame(control.State()) {
        EndGame(env);
        return;
      }
      control.MakeCalls(env.calls);
    }

    /** step_agent of StepAgents. */
    method StepAgent(multiThreaded: bool, env: UpdateEnv)
      modifies Repr()
      ensures State() == SteppedAgent(old(State()), multiThreaded, env)
    {
      if control.appState != Normal {
        return;
      }
      var leaving := control.PollLeaveGame(env.poll);
      if leaving || IsFinishedGame(control.State()) {
        return;
      }
      var _ := control.Step(env.step.reconnect);
      var _ := control.WaitStep(env.step);
      if multiThreaded {
        CallOnStep(env);
      }
    }

    /** The body of the second loop of StepAgents. */
    method FollowUp(env: UpdateEnv)
      modifies Repr()
      ensures State() == FollowedUp(old(State()), env)
    {
      if control.appState != Normal {
        return;
      }
      var leaving := control.PollLeaveGame(env.pollAgain);
      if leaving {
        return;
      }
      CallOnStep(env);
    }

    /** step_agent of StepAgentsRealtime. */
    method StepRealtime(env: UpdateEnv)
      modifies Repr()
      ensures State() == RealtimeAgent(old(State()), env)
    {
      if control.appState != Normal {
        return;
      }
      var leaving := control.PollLeaveGame(env.poll);
      if leaving || IsFinishedGame(control.State()) {
        return;
      }
      var _ := control.GetObservation(env.step.obsReconnect, env.step.obsWait);
      control.MakeCalls(env.calls);
      if !IsInGame(control.State()) {
        EndGame(env);
      }
    }

    method Serve(wait: WaitEnv)
      modifies Repr()
      ensures State() == Served(old(State()), wait)
    {
      var announced := control.proto.connection.PollResponse();
      if announced {
        var _ := control.WaitForResponse(wait);
      }
    }

    /** The socket thread of this agent's connection at work. */
    method Deliver(arrivals: seq<Response>)
      modifies Repr()
      ensures State() == Delivered(old(State()), arrivals)
    {
      control.proto.connection.PushAll(arrivals);
    }

    /** The part of an update that agents may run in parallel. */
    method StepInParallel(s: Settings, env: UpdateEnv)
      modifies Repr()
      ensures State() == ParallelPart(old(State()), s, env)
    {
      if s.realtime {
        StepRealtime(env);
      } else {
        StepAgent(s.multiThreaded, env);
      }
    }
  }

  const SLEEP_MS := 50

  /** How long the sleeps of some ticks last. */
  function SleptMs(ticks: nat): nat {
    SLEEP_MS * ticks
  }

  lemma SleptNext(ticks: nat)
    ensures SleptMs(ticks + 1) == SleptMs(ticks) + SLEEP_MS
  {
  }

  /** What happens during one tick of WaitForAllResponses. */
  datatype Tick = Tick(wait: WaitEnv, arrivals: nat -> seq<Response>)

  /** The client counts as running: in a healthy game, or with a response still open. */
  predicate Busy(c: Client) {
    IsInGame(c) || HasResponsePending(c)
  }

  /** The order in which the agents of a parallel pass happen to run: each index once. */
  ghost predicate IsSchedule(order: seq<nat>, n: nat) {
    && (forall k :: 0 <= k < |order| ==> order[k] < n)
    && (forall i :: 0 <= i < n ==> i in order)
    && Distinct(order)
  }

  lemma ScheduleNext(order: seq<nat>, k: nat)
    requires k < |order| && Distinct(order)
    ensures order[k] !in ElementsOf(order[..k])
    ensures ElementsOf(order[..k + 1]) == ElementsOf(order[..k]) + {order[k]}
  {
  }

  /** One round of updates: the schedule, and what happens to each agent. */
  datatype Round = Round(order: seq<nat>, envs: seq<UpdateEnv>)

  ghost predicate Fits(round: Round, n: nat) {
    IsSchedule(round.order, n) && |round.envs| == n
  }

  /** Settled, and without an unconsumed response on record unless the application has failed. */
  predicate Sound(c: Client) {
    Settled(c) && (c.app == Normal ==> !Raised(c, ResponseNotConsumed))
  }

  /** One update of every agent. */
  function UpdatedAll(states: seq<Agent>, s: Settings, round: Round): (after: seq<Agent>)
    requires |round.envs| == |states|
    ensures |after| == |states|
  {
    seq(|states|, i requires 0 <= i < |states| => UpdatedAgent(states[i], s, round.envs[i]))
  }

  /** Every round says what happens to each of n agents. */
  predicate AllMatch(rounds: seq<Round>, n: nat) {
    forall j :: 0 <= j < |rounds| ==> |rounds[j].envs| == n
  }

  ghost predicate AllScheduled(rounds: seq<Round>, n: nat) {
    forall j :: 0 <= j < |rounds| ==> IsSchedule(rounds[j].order, n)
  }

  /** The agents after the first k rounds. */
  function RoundsTo(states: seq<Agent>, s: Settings, rounds: seq<Round>, k: nat): (after: seq<Agent>)
    requires k <= |rounds| && AllMatch(rounds, |states|)
    ensures |after| == |states|
  {
    if k == 0 then states else UpdatedAll(RoundsTo(states, s, rounds, k - 1), s, rounds[k - 1])
  }

  /** No error is on record, and some agent expects a response or is in a healthy game or replay. */
  predicate GoesOn(states: seq<Agent>) {
    && (forall i :: 0 <= i < |states| ==> states[i].client.errors == [])
    && exists i :: 0 <= i < |states|
         && var c := states[i].client;
            c.pending != NotSet || (c.app == Normal && (c.status == InGame || c.status == InReplay))
  }

  /** After each round before the last of count rounds some game still ran. */
  predicate WentOn(states: seq<Agent>, s: Settings, rounds: seq<Round>, count: nat)
    requires count <= |rounds| && AllMatch(rounds, |states|)
  {
    forall k :: 0 < k < count ==> GoesOn(RoundsTo(states, s, rounds, k))
  }

  lemma {:induction false} RoundNext(states: seq<Agent>, s: Settings, rounds: seq<Round>, count: nat)
    requires count < |rounds| && AllMatch(rounds, |states|) && WentOn(states, s, rounds, count)
    requires count == 0 || GoesOn(RoundsTo(states, s, rounds, count))
    ensures RoundsTo(states, s, rounds, count + 1) == UpdatedAll(RoundsTo(states, s, rounds, count), s, rounds[count])
    ensures WentOn(states, s, rounds, count + 1)
  {
  }

  /** Agent n is the first that waits for a response. */
  predicate FirstWaits(states: seq<Agent>, n: nat) {
    n < |states| && Waiting(states[n].client) && forall i :: 0 <= i < n ==> !Waiting(states[i].client)
  }

  /** The first agent that waits is served. */
  function ServedFirst(states: seq<Agent>, wait: WaitEnv): (after: seq<Agent>)
    ensures |after| == |states|
  {
    seq(|states|, i requires 0 <= i < |states| =>
      if FirstWaits(states, i) then Served(states[i], wait) else states[i])
  }

  function DeliveredAll(states: seq<Agent>, arrivals: nat -> seq<Response>): (after: seq<Agent>)
    ensures |after| == |states|
  {
    seq(|states|, i requires 0 <= i < |states| => Delivered(states[i], arrivals(i)))
  }

  /** The agents after n ticks of WaitForAllResponses, each of which serves one agent and sleeps. */
  function TicksTo(states: seq<Agent>, ticks: nat -> Tick, n: nat): (after: seq<Agent>)
    ensures |after| == |states|
  {
    if n == 0 then states
    else DeliveredAll(ServedFirst(TicksTo(states, ticks, n - 1), ticks(n - 1).wait), ticks(n - 1).arrivals)
  }

  /** At each of the first n ticks some healthy agent waited. */
  predicate WaitedUpTo(states: seq<Agent>, ticks: nat -> Tick, n: nat) {
    forall k :: 0 <= k < n ==> !NoneWaits(TicksTo(states, ticks, k))
  }

  lemma {:induction false} TickNext(states: seq<Agent>, ticks: nat -> Tick, n: nat)
    requires WaitedUpTo(states, ticks, n) && !NoneWaits(TicksTo(states, ticks, n))
    ensures WaitedUpTo(states, ticks, n + 1)
    ensures TicksTo(states, ticks, n + 1)
      == DeliveredAll(ServedFirst(TicksTo(states, ticks, n), ticks(n).wait), ticks(n).arrivals)
  {
  }

  lemma {:induction false} NobodyServed(states: seq<Agent>, wait: WaitEnv)
    requires NoneWaits(states)
    ensures ServedFirst(states, wait) == states
  {
  }

  /** No healthy agent expects a response. */
  predicate NoneWaits(states: seq<Agent>) {
    forall i :: 0 <= i < |states| ==> states[i].client.app != Normal || states[i].client.pending == NotSet
  }

  predicate AllSound(states: seq<Agent>) {
    forall i :: 0 <= i < |states| ==> Sound(states[i].client)
  }

  lemma {:induction false} SoundAfterRounds(states: seq<Agent>, s: Settings, rounds: seq<Round>, k: nat)
    requires k <= |rounds| && AllMatch(rounds, |states|)
    ensures AllSound(states) ==> AllSound(RoundsTo(states, s, rounds, k))
  {
    if k > 0 && AllSound(states) {
      SoundAfterRounds(states, s, rounds, k - 1);
      var before, after := RoundsTo(states, s, rounds, k - 1), RoundsTo(states, s, rounds, k);
      forall i | 0 <= i < |states| ensures Sound(after[i].client) {
        assert Sound(before[i].client);
        assert after[i] == UpdatedAgent(before[i], s, rounds[k - 1].envs[i]);
        UpdateKeepsSettled(before[i], s, rounds[k - 1].envs[i]);
      }
    }
  }

  lemma {:induction false} SoundAfterServing(states: seq<Agent>, wait: WaitEnv)
    requires AllSound(states)
    ensures AllSound(ServedFirst(states, wait))
  {
    forall i | 0 <= i < |states| ensures Sound(ServedFirst(states, wait)[i].client) {
      assert Sound(states[i].client);
      ServeKeepsSettled(states[i], wait);
    }
  }

  lemma {:induction false} SoundAfterDelivery(states: seq<Agent>, arrivals: nat -> seq<Response>)
    requires AllSound(states)
    ensures AllSound(DeliveredAll(states, arrivals))
  {
    var after := DeliveredAll(states, arrivals);
    forall i | 0 <= i < |states| ensures Sound(after[i].client) {
      assert Sound(states[i].client);
      assert after[i] == Delivered(states[i], arrivals(i));
    }
  }

  lemma {:induction false} TicksAreSound(states: seq<Agent>, ticks: nat -> Tick, n: nat)
    requires AllSound(states)
    ensures AllSound(TicksTo(states, ticks, n))
  {
    if n > 0 {
      TicksAreSound(states, ticks, n - 1);
      var before := TicksTo(states, ticks, n - 1);
      SoundAfterServing(before, ticks(n - 1).wait);
      SoundAfterDelivery(ServedFirst(before, ticks(n - 1).wait), ticks(n - 1).arrivals);
    }
  }

  /** The states a wait may end in are sound if those it began in were. */
  lemma {:induction false} SoundAfterTicks(states: seq<Agent>, ticks: nat -> Tick, n: nat)
    ensures AllSound(states) ==> AllSound(TicksTo(states, ticks, n))
    ensures AllSound(states) ==> AllSound(ServedFirst(TicksTo(states, ticks, n), ticks(n).wait))
  {
    if AllSound(states) {
      TicksAreSound(states, ticks, n);
      SoundAfterServing(TicksTo(states, ticks, n), ticks(n).wait);
    }
  }

  /** An update one of whose waits is answered with errors asks nobody to go on. */
  lemma {:induction false} ErrorsStopUpdates(states: seq<Agent>, s: Settings, round: Round, i: nat)
    requires |round.envs| == |states| && i < |states| && UpdateMeets(states[i], s, round.envs[i])
    ensures !GoesOn(UpdatedAll(states, s, round))
  {
    UpdateRaisesIff(states[i], s, round.envs[i]);
    assert UpdatedAll(states, s, round)[i].client.errors != [];
  }

  /** While no error is on record, an agent that awaits the answer to its leave request keeps updates going:
      the coordinator goes on for as long as no update finds anything announced for it. */
  lemma {:induction false} AwaitedLeaveGoesOn(states: seq<Agent>, s: Settings, round: Round, i: nat)
    requires |round.envs| == |states| && i < |states|
    requires AwaitsLeave(states[i].client) && !states[i].client.wire.hasResponse
    ensures var after := UpdatedAll(states, s, round);
      && after[i] == states[i]
      && (GoesOn(after) <==> forall j :: 0 <= j < |after| ==> after[j].client.errors == [])
  {
    LeaveAnswerAwaited(states[i], s, round.envs[i]);
    assert UpdatedAll(states, s, round)[i].client.pending != NotSet;
  }

  class Coordinator {
    var agents: seq<BotAgent>
    var settings: Settings

    constructor (settings: Settings)
      ensures agents == [] && this.settings == settings
    {
      agents, this.settings := [], settings;
    }

    /** No two agents share an object. */
    ghost predicate Separate()
      reads this
    {
      forall i, j :: 0 <= i < j < |agents| ==> agents[i].Repr() !! agents[j].Repr()
    }

    ghost function Footprint(): set<object>
      reads this
    {
      set i, o | 0 <= i < |agents| && o in agents[i].Repr() :: o
    }

    /** What all the agents are. */
    ghost function States(): (states: seq<Agent>)
      reads this, Footprint()
      ensures |states| == |agents| && forall i :: 0 <= i < |agents| ==> states[i] == agents[i].State()
    {
      seq(|agents|, i requires 0 <= i < |agents| reads this, Footprint() => agents[i].State())
    }

    /** A new agent must not share objects with the others. */
    method AddAgent(agent: BotAgent)
      requires Separate() && this !in Footprint()
      requires this !in agent.Repr() && agent.Repr() !! Footprint()
      modifies this`agents
      ensures agents == old(agents) + [agent]
      ensures Separate() && this !in Footprint()
    {
      forall i | 0 <= i < |agents| ensures agents[i].Repr() !! agent.Repr() {
        assert forall o :: o in agents[i].Repr() ==> o in Footprint();
      }
      agents := agents + [agent];
    }

    /** One agent's share of a parallel pass: the other agents do not notice it. */
    method StepOne(n: nat, env: UpdateEnv)
      requires Separate() && this !in Footprint() && n < |agents|
      modifies agents[n].Repr()
      ensures agents[n].State() == ParallelPart(old(agents[n].State()), settings, env)
      ensures forall i :: 0 <= i < |agents| && i != n ==> agents[i].State() == old(agents[i].State())
    {
      agents[n].StepInParallel(settings, env);
    }

    method FollowUpOne(n: nat, env: UpdateEnv)
      requires Separate() && this !in Footprint() && n < |agents|
      modifies agents[n].Repr()
      ensures agents[n].State() == FollowedUp(old(agents[n].State()), env)
      ensures forall i :: 0 <= i < |agents| && i != n ==> agents[i].State() == old(agents[i].State())
    {
      agents[n].FollowUp(env);
    }

    method LeaveOne(n: nat, reconnect: bool)
      requires Separate() && this !in Footprint() && n < |agents|
      modifies agents[n].Repr()
      ensures agents[n].State() == Left(old(agents[n].State()), reconnect)
      ensures forall i :: 0 <= i < |agents| && i != n ==> agents[i].State() == old(agents[i].State())
    {
      agents[n].RequestLeaveGame(reconnect);
    }

    method ServeOne(n: nat, wait: WaitEnv)
      requires Separate() && this !in Footprint() && n < |agents|
      modifies agents[n].Repr()
      ensures agents[n].State() == Served(old(agents[n].State()), wait)
      ensures forall i :: 0 <= i < |agents| && i != n ==> agents[i].State() == old(agents[i].State())
    {
      agents[n].Serve(wait);
    }

    method DeliverOne(n: nat, arrivals: seq<Response>)
      requires Separate() && this !in Footprint() && n < |agents|
      modifies agents[n].Repr()
      ensures agents[n].State() == Delivered(old(agents[n].State()), arrivals)
      ensures forall i :: 0 <= i < |agents| && i != n ==> agents[i].State() == old(agents[i].State())
    {
      agents[n].Deliver(arrivals);
    }

    method RunParallel(round: Round)
      requires Separate() && this !in Footprint()
      requires Fits(round, |agents|)
      modifies Footprint()
      ensures forall i :: 0 <= i < |agents| ==>
        agents[i].State() == ParallelPart(old(agents[i].State()), settings, round.envs[i])
    {
      var order := round.order;
      ghost var done: set<nat> := {};
      for k := 0 to |order|
        invariant done == ElementsOf(order[..k])
        invariant forall i :: 0 <= i < |agents| && i in done ==>
          agents[i].State() == ParallelPart(old(agents[i].State()), settings, round.envs[i])
        invariant forall i :: 0 <= i < |agents| && i !in done ==> agents[i].State() == old(agents[i].State())
      {
        var n := order[k];
        ScheduleNext(order, k);
        StepOne(n, round.envs[n]);
        done := done + {n};
      }
      assert order[..|order|] == order;
      assert forall i :: 0 <= i < |agents| ==> i in done;
    }

    /** The second loop of StepAgents. */
    method FollowUpAll(envs: seq<UpdateEnv>)
      requires Separate() && this !in Footprint() && |envs| == |agents|
      modifies Footprint()
      ensures forall i :: 0 <= i < |agents| ==> agents[i].State() == FollowedUp(old(agents[i].State()), envs[i])
    {
      for k := 0 to |agents|
        invariant forall i :: 0 <= i < k ==> agents[i].State() == FollowedUp(old(agents[i].State()), envs[i])
        invariant forall i :: k <= i < |agents| ==> agents[i].State() == old(agents[i].State())
      {
        FollowUpOne(k, envs[k]);
      }
    }

    /** StepAgents and StepAgentsRealtime: the outcome does not depend on the schedule. */
    method StepAgents(round: Round)
      requires Separate() && this !in Footprint()
      requires Fits(round, |agents|)
      modifies Footprint()
      ensures forall i :: 0 <= i < |agents| ==>
        agents[i].State() == UpdatedAgent(old(agents[i].State()), settings, round.envs[i])
    {
      RunParallel(round);
      if !settings.realtime && !settings.multiThreaded {
        FollowUpAll(round.envs);
      }
    }

    method AllGamesEnded() returns (ended: bool)
      ensures ended <==> forall i :: 0 <= i < |agents| ==>
        var c := agents[i].State().client;
        && c.pending == NotSet && !(c.app == Normal && (c.status == InGame || c.status == InReplay))
    {
      for k := 0 to |agents|
        invariant forall i :: 0 <= i < k ==> !Busy(agents[i].State().client)
      {
        if Busy(agents[k].State().client) {
          return false;
        }
      }
      ended := true;
    }

    method AnyErrors() returns (occurred: bool)
      ensures occurred <==> exists i :: 0 <= i < |agents| && agents[i].State().client.errors != []
    {
      occurred := false;
      for k := 0 to |agents|
        invariant occurred == exists i :: 0 <= i < k && agents[i].State().client.errors != []
      {
        if agents[k].control.proto.log.errors != [] {
          assert agents[k].State().client.errors != [];
          occurred := true;
        }
      }
    }

    /** One update: true asks the caller to go on. */
    method Update(round: Round) returns (running: bool)
      requires Separate() && this !in Footprint()
      requires Fits(round, |agents|)
      modifies Footprint()
      ensures States() == UpdatedAll(old(States()), settings, round)
      ensures running <==> GoesOn(States())
    {
      StepAgents(round);
      var occurred := AnyErrors();
      if occurred {
        return false;
      }
      var ended := AllGamesEnded();
      running := !ended;
    }

    method LeaveGame(reconnects: seq<bool>)
      requires Separate() && this !in Footprint() && |reconnects| == |agents|
      modifies Footprint()
      ensures forall i :: 0 <= i < |agents| ==> agents[i].State() == Left(old(agents[i].State()), reconnects[i])
    {
      for k := 0 to |agents|
        invariant forall i :: 0 <= i < k ==> agents[i].State() == Left(old(agents[i].State()), reconnects[i])
        invariant forall i :: k <= i < |agents| ==> agents[i].State() == old(agents[i].State())
      {
        LeaveOne(k, reconnects[k]);
      }
    }

    /** The main loop of a bot: update until an update asks to stop.  However many rounds it takes and
        whatever the games do, no healthy client ever reports an unconsumed response. */
    method UpdateUntilOver(rounds: seq<Round>) returns (count: nat)
      requires Separate() && this !in Footprint()
      requires AllMatch(rounds, |agents|) && AllScheduled(rounds, |agents|)
      modifies Footprint()
      ensures RanTo(old(States()), rounds, count)
      ensures count < |rounds| ==> count > 0 && !GoesOn(States())
      ensures AllSound(old(States())) ==> AllSound(States())
    {
      ghost var before := States();
      count := RunRounds(rounds);
      SoundAfterRounds(before, settings, rounds, count);
    }

    method RunRounds(rounds: seq<Round>) returns (count: nat)
      requires Separate() && this !in Footprint()
      requires AllMatch(rounds, |agents|) && AllScheduled(rounds, |agents|)
      modifies Footprint()
      ensures RanTo(old(States()), rounds, count)
      ensures count < |rounds| ==> count > 0 && !GoesOn(States())
    {
      ghost var before := States();
      count := 0;
      var running := true;
      while running && count < |rounds|
        invariant RanTo(before, rounds, count)
        invariant count == 0 ==> running
        invariant count > 0 ==> running == GoesOn(States())
      {
        running := NextRound(rounds, count, before);
        count := count + 1;
      }
    }

    /** The agents have been through the first count rounds, and some game still ran before each of them. */
    ghost predicate RanTo(before: seq<Agent>, rounds: seq<Round>, count: nat)
      reads this, Footprint()
    {
      && AllMatch(rounds, |before|) && count <= |rounds|
      && States() == RoundsTo(before, settings, rounds, count) && WentOn(before, settings, rounds, count)
    }

    method NextRound(rounds: seq<Round>, count: nat, ghost before: seq<Agent>) returns (running: bool)
      requires Separate() && this !in Footprint() && AllScheduled(rounds, |agents|) && count < |rounds|
      requires RanTo(before, rounds, count) && (count == 0 || GoesOn(States()))
      modifies Footprint()
      ensures RanTo(before, rounds, count + 1) && (running <==> GoesOn(States()))
    {
      RoundNext(before, settings, rounds, count);
      running := Update(rounds[count]);
    }

    /** One look at the agents in WaitForAllResponses: the first that still waits is served if its
        connection announces a response. */
    method ServeFirstWaiting(wait: WaitEnv) returns (found: bool)
      requires Separate() && this !in Footprint()
      modifies Footprint()
      ensures found <==> !NoneWaits(old(States()))
      ensures States() == ServedFirst(old(States()), wait)
    {
      for k := 0 to |agents|
        invariant forall i :: 0 <= i < k ==> !Waiting(agents[i].State().client)
        invariant forall i :: 0 <= i < |agents| ==> agents[i].State() == old(agents[i].State())
      {
        if Waiting(agents[k].State().client) {
          ServeOne(k, wait);
          return true;
        }
      }
      found := false;
    }

    /** Sleeping: the games answer meanwhile. */
    method Sleep(arrivals: nat -> seq<Response>)
      requires Separate() && this !in Footprint()
      modifies Footprint()
      ensures States() == DeliveredAll(old(States()), arrivals)
    {
      for k := 0 to |agents|
        invariant forall i :: 0 <= i < k ==> agents[i].State() == Delivered(old(agents[i].State()), arrivals(i))
        invariant forall i :: k <= i < |agents| ==> agents[i].State() == old(agents[i].State())
      {
        DeliverOne(k, arrivals(k));
      }
    }

    /** Serves the agents one per tick until none of the healthy ones waits, or gives up when the
        sleeps between the ticks add up to the timeout. */
    method WaitForAllResponses(timeoutMs: int, ticks: nat -> Tick) returns (ok: bool, count: nat)
      requires Separate() && this !in Footprint()
      modifies Footprint()
      ensures AllSound(old(States())) ==> AllSound(States())
      ensures ok ==> NoneWaits(States()) && TickedTo(old(States()), ticks, count)
      ensures !ok ==> ServedAt(old(States()), ticks, count)
      ensures !ok ==> SleptMs(count) >= timeoutMs
      ensures count > 0 ==> SleptMs(count - 1) < timeoutMs
    {
      ghost var before := States();
      ok, count := RunTicks(timeoutMs, ticks);
      SoundAfterTicks(before, ticks, count);
    }

    method RunTicks(timeoutMs: int, ticks: nat -> Tick) returns (ok: bool, count: nat)
      requires Separate() && this !in Footprint()
      modifies Footprint()
      ensures ok ==> NoneWaits(States()) && TickedTo(old(States()), ticks, count)
      ensures !ok ==> ServedAt(old(States()), ticks, count)
      ensures !ok ==> SleptMs(count) >= timeoutMs
      ensures count > 0 ==> SleptMs(count - 1) < timeoutMs
    {
      ghost var before := States();
      var totalSleepMs := 0;
      count := 0;
      while true
        invariant TickedTo(before, ticks, count)
        invariant totalSleepMs == SleptMs(count)
        invariant count > 0 ==> SleptMs(count - 1) < timeoutMs
        decreases timeoutMs - totalSleepMs
      {
        var found := ServeTick(ticks, count, before);
        if !found {
          return true, count;
        }
        if totalSleepMs >= timeoutMs {
          return false, count;
        }
        SleepTick(ticks, count, before);
        SleptNext(count);
        totalSleepMs := totalSleepMs + SLEEP_MS;
        count := count + 1;
      }
    }

    /** The agents have been through count ticks, at each of which some healthy one waited. */
    ghost predicate TickedTo(before: seq<Agent>, ticks: nat -> Tick, count: nat)
      reads this, Footprint()
    {
      States() == TicksTo(before, ticks, count) && WaitedUpTo(before, ticks, count)
    }

    /** They have been served once more since, and some healthy one waited before that too. */
    ghost predicate ServedAt(before: seq<Agent>, ticks: nat -> Tick, count: nat)
      reads this, Footprint()
    {
      && States() == ServedFirst(TicksTo(before, ticks, count), ticks(count).wait)
      && WaitedUpTo(before, ticks, count + 1)
    }

    method ServeTick(ticks: nat -> Tick, count: nat, ghost before: seq<Agent>) returns (found: bool)
      requires Separate() && this !in Footprint() && TickedTo(before, ticks, count)
      modifies Footprint()
      ensures !found ==> TickedTo(before, ticks, count) && NoneWaits(States())
      ensures found ==> ServedAt(before, ticks, count)
    {
      found := ServeFirstWaiting(ticks(count).wait);
      if found {
        TickNext(before, ticks, count);
      } else {
        NobodyServed(TicksTo(before, ticks, count), ticks(count).wait);
      }
    }

    method SleepTick(ticks: nat -> Tick, count: nat, ghost before: seq<Agent>)
      requires Separate() && this !in Footprint() && ServedAt(before, ticks, count)
      modifies Footprint()
      ensures TickedTo(before, ticks, count + 1)
    {
      Sleep(ticks(count).arrivals);
    }
  }
}
