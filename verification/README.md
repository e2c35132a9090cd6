# A verified model of the StarCraft II client library and its Terran bot

The repository is a client library for the StarCraft II API (`src/sc2api`) with a Terran bot on top
(`examples/common`, `examples/terran`). This project models the parts of both whose behaviour spans
many calls and proves properties of them for all inputs and all runs. `dafny verify dfyconfig.toml`
checks everything.

## How the model is built

Objects that the C++ code updates in place are classes here, and each method is proved against a
function on values; the theorems are lemmas about those functions, or invariants of the loops that
use them. What the game, the network, the clock and the user's callbacks do is an argument of the
call it happens in, quantified over like any other input. Floating-point quantities are reals (target
points of intents may also be infinite or not a number), and distances are compared by their squares.
The fixed-width counters of units and armies wrap explicitly; game loops and cell counts are unbounded.
Lemmas carry `{:induction false}` wherever Dafny would add an induction hypothesis of its own, so that
their bodies are the proofs.

* Client protocol. `ClientProtocol` gives the state of one client and every blocking call on it,
  including the timeout, ping and terminate recovery; `ClientObjects` are the mutable connection,
  protocol interface and control object. `WireRuns` is about every interleaving of the socket thread
  with the client thread, `ServerRuns` about a client and a game that answers each connection in order.
* Coordinator. `AgentSteps` says what an update does to one agent and what every run of updates keeps;
  `AgentErrors` says which updates bring an answer with errors and so end the main loop.
  `AgentThreads` splits that into single requests and waits, under any interleaving of the threads.
  `GameCoordinator` is the coordinator object over many agents, whose loops are shown to do exactly
  that to each of them, in any schedule.
* `ActionBuffer`: the actions issued between two steps, and their way to the game across failed sends.
* `UnitPools`, `FrameEvents`, `FrameHistory`: the arena of units with its two indexes, the comparison of
  each observation with it, and the event sets this yields over whole observation sequences.
* `UnitContainer`: the parallel arrays, tag index and filter chains over the controlled units.
  `TypeSums`, `AgentCounts`: the counters per type and the army totals computed from them.
* `IntentArbiter`: the two-pass arbitration of intents, against a simple specification.
* `WorkerSelection`, `HarvesterLedger`, `HarvestPlan`, `WorkerAllocator`, `TerranBot`: gas filling, gas
  relief, mineral rebalancing and recovery of workers, up to the resolved list of a step; `WorkerMeaning`
  says what the selections mean in terms of the observed units.
* `ChokeScan`: the search for the natural choke on the pathing grid. `SpatialMetrics`: occupancy of the
  observed feature layers.

## What the code does differently from its documentation, or surprisingly

The model follows the code.

* Before the first observation the current loop is 0xFFFFFFFF, so the first frame records every unit
  as entering vision (`FrameHistory.EnteredVisionIffAbsentBefore`, case `k == 0`).
* `OnUnitIdle` is documented for units without orders; a unit whose construction has just completed is
  reported idle even when it has orders (`FrameHistory.IdleIff`).
* A completed building is recorded only if its previous build progress was above zero and below one.
* An observation without score or unit data leaves the old event records in place. IssueEvents hands
  them out a second time unless the observation has a score and the loop it has stands still, or has no
  score and the loop stood still before (`FrameHistory.StaleRecordsAgainIff`).
* FilterByIsTrainingUnit drops the units that train something.
* The end of a game can pass an agent by. Stepped with threads, it does so if the answer to a request of
  a callback brings it, because CallOnStep looks before the callbacks (`AgentSteps.EndMissed`); stepped
  without threads in multiplayer always, because PollLeaveGame turns the second loop away
  (`AgentSteps.NoGameEndWithoutThreads`). Such an agent is never told and never asks to leave
  (`AgentSteps.StrandedStays`); realtime looks after the callbacks and tells in the update
  in which the game ends. The exact conditions are `AgentSteps.EndReportedIff` for one update and `AgentSteps.EndEverReportedIff` for runs.
* An unanswered observation request makes GetObservation read a response that is not there, for a
  diagnostic. The exact condition is `ClientProtocol.ReadsMissingIff`; the client may be healthy otherwise
  (`ClientProtocol.HealthyReadOfMissing`). The theorems about runs hold whether or not a run goes on
  after that, but in the code it ends there (`AgentSteps.UpdateReadsMissing`).
* Stepped without threads, a single-player agent outside a game gets OnGameEnd on every update
  (`AgentSteps.GameEndsRepeat`).
* WaitStep waits for a response even when Step could not send its request.
* After a timeout the queue is emptied but `has_response_` is not; the flag is exact precisely in runs
  whose clears drop nothing (`WireRuns.ExactIffNothingDropped`).
* LeaveGame on a client that still waits for a response reports ResponseNotConsumed, and by
  `AgentSteps.RunStaysSettled` this is the only way a healthy client comes to report it.
* PingGame over an open request takes the answer to that request for its own (`ServerRuns.OverlapMismatches`);
  the ping of the timeout recovery does not, because the timeout has closed the connection before it.
* Resolving intents twice equals resolving them once only if the playable box is not empty, which is
  what std::clamp demands (`IntentArbiter.IdempotentIffBox`, `IntentArbiter.ClampIdempotentIff`). An
  intent whose target point is not a number does not match itself and is dropped.

## Model

| member | source | states |
|---|---|---|
| WireRuns.FlagAlwaysSound | src/sc2api/sc2_connection.cc:140-182 | In every interleaving of pushes, pops and timeout clears a non-empty queue is announced by has_response_ |
| WireRuns.ExactIffNothingDropped | src/sc2api/sc2_connection.cc:140-182 | The flag equals "queue not empty" at every point of a run if and only if no timeout clear throws a response away; so always in runs without timeouts |
| WireRuns.ResponsesConserved | src/sc2api/sc2_connection.cc:140-182 | As multisets, the responses queued at the start or pushed are those popped, dropped by a clear or still queued: none is lost, invented or exchanged |
| WireRuns.PoppedInPushOrder | src/sc2api/sc2_connection.cc:140-182 | When nothing is dropped, the responses popped followed by those queued are those queued at the start followed by those pushed, in order |
| WireRuns.ReceiveIsARun | src/sc2api/sc2_connection.cc:140-164 | One Receive is such an interleaving, so all of the above holds of it |
| ClientProtocol.WaitNormalIffAnswered | src/sc2api/sc2_client.cc:1860-1937 | WaitForResponse leaves a normal client normal exactly when the request or the recovery ping is answered, and then no response is expected, also after a timeout |
| ClientProtocol.FailureIsFinal | src/sc2api/sc2_client.cc:1860-1937 | A crashed or timed-out client never becomes normal again by waiting |
| ClientProtocol.WaitRaises | src/sc2api/sc2_client.cc:1860-1937 | Waiting never reports ResponseNotConsumed and never changes the kind of game |
| ClientProtocol.AnsweredWait | src/sc2api/sc2_client.cc:1860-1880 | A wait with a response takes the oldest one, expects nothing any more and puts SC2ProtocolError on record if and only if it carries error strings, ResponseMismatch if it carries none and is of another kind |
| ClientProtocol.WaitOfCrashed | src/sc2api/sc2_client.cc:1881-1892 | A wait without a response from a process that is gone: crashed, with SC2AppFailure on record and nothing else |
| ClientProtocol.WaitOfLost | src/sc2api/sc2_client.cc:1893-1916 | Without a response but with an answered ping: the application state stays, nothing is expected, SC2UnknownStatus is on record, twice if the status is unknown |
| ClientProtocol.WaitOfHung | src/sc2api/sc2_client.cc:1893-1937 | Without either: timeout, or timeout zombie if the process cannot be terminated, with SC2ProtocolTimeout and SC2AppFailure on record |
| ClientProtocol.ObservedIff | src/sc2api/sc2_client.cc:1998-2041 | An observation is taken over if and only if the client could ask for one and the first response is an observation, whole and without errors |
| ClientProtocol.StepObservesIff | src/sc2api/sc2_client.cc:1819-1826 | WaitStep observes if and only if the first response answers the step without errors |
| ClientProtocol.ReadsMissingIff | src/sc2api/sc2_client.cc:1998-2023 | GetObservation reads a response that is not there if and only if it could send its request and the wait for the answer times out |
| ClientProtocol.HealthyReadOfMissing | src/sc2api/sc2_client.cc:1998-2023 | For every client that may ask for an observation there is such a wait after which the client is still healthy, because the recovery ping is answered |
| ClientObjects.Connection.PushResponse | src/sc2api/sc2_connection.cc:166-171 | Refines Pushed: the response goes to the end of the queue and the flag is set |
| ClientObjects.Connection.PopResponse | src/sc2api/sc2_connection.cc:173-182 | Refines Popped: the oldest response is handed out; the flag drops only with the last one |
| ClientObjects.Connection.Receive | src/sc2api/sc2_connection.cc:140-164 | Refines Received: the oldest response, or on a timeout a disconnected, emptied queue whose flag is left as it was |
| ClientObjects.ProtoInterface.SendRequest | src/sc2api/sc2_proto_interface.cc:116-151 | Refines Sent: rebuilds the connection, refuses with ResponseNotConsumed while a response is open unless told to ignore it, else records the expected response |
| ClientObjects.ProtoInterface.WaitForResponseInternal | src/sc2api/sc2_proto_interface.cc:153-187 | Refines WaitedInternal: the status is taken from the response, a wrong kind without errors is a mismatch, a timeout leaves the expected response in place |
| ClientObjects.ControlImp.WaitForResponse | src/sc2api/sc2_client.cc:1860-1937 | Refines Waited, whose outcome AnsweredWait, WaitOfCrashed, WaitOfLost and WaitOfHung give in full from the messages and the process |
| ClientObjects.ControlImp.PingAfterTimeout | src/sc2api/sc2_client.cc:1893-1920 | Refines Pinged: true if the game still answers a ping |
| ClientObjects.ControlImp.GetObservation | src/sc2api/sc2_client.cc:1998-2041 | Refines GotObservation: sends, waits, and tells a complete observation from a failure and from a missing response that the code goes on to read |
| ClientObjects.ControlImp.Step | src/sc2api/sc2_client.cc:1808-1817 | Refines StepSent: nothing is sent for a failed application |
| ClientObjects.ControlImp.WaitStep | src/sc2api/sc2_client.cc:1819-1826 | Refines StepAwaited: observes only after a good step answer |
| ClientObjects.ControlImp.RequestLeaveGame | src/sc2api/sc2_client.cc:1776-1784 | Refines RequestedLeave: only in multiplayer |
| ClientObjects.ControlImp.PollLeaveGame | src/sc2api/sc2_client.cc:1786-1806 | Refines PolledLeave in its four cases |
| ServerRuns.AwaitInStep | src/sc2api/sc2_proto_interface.cc:153-187 | A wait of a client in step returns the answer to the latest request, told from answers to earlier requests of the same kind by its number, or none |
| ServerRuns.RecoveryInStep | src/sc2api/sc2_client.cc:1893-1920 | The recovery ping of a timed-out wait goes over a new connection, so no earlier answer can be taken for its own |
| ServerRuns.RunInStep | src/sc2api/sc2_proto_interface.cc:116-208 | Against a game that answers each request of a connection once and in order, over every interleaving of requests, answers, waits, timeouts, crashes and recovery pings, nothing but the answer to the expected request is ever under way and ResponseMismatch is never reported, as long as no PingGame is sent over an outstanding answer |
| ServerRuns.WaitAnswersLatest | src/sc2api/sc2_client.cc:1860-1937 | In such a run every wait that returns a response returns the answer to the very latest request sent, identified by its number, and of the kind the client expects |
| ServerRuns.OverlapMismatches | src/sc2api/sc2_proto_interface.cc:189-208 | A ping sent over an outstanding answer takes that answer for its own and reports a mismatch |
| ServerRuns.MismatchIffOverlap | src/sc2api/sc2_proto_interface.cc:116-208 | Against a game that reports no errors, a run reports a mismatch if and only if some ping was sent over an outstanding answer and its wait was answered |
| AgentSteps.CallsKeepIdle | src/sc2api/sc2_client.cc:1860-1937 | Any sequence of paired send-then-wait calls leaves a healthy client expecting nothing and adds no unconsumed response |
| AgentSteps.UpdateKeepsSettled | src/sc2api/sc2_coordinator.cc:289-377 | One update, stepped or realtime, threaded or not, under any behaviour of the game, leaves a healthy client expecting nothing or the answer to LeaveGame, and never reports ResponseNotConsumed (in the code a run ends where UpdateReadsMissing holds) |
| AgentSteps.RunStaysSettled | src/sc2api/sc2_coordinator.cc:753-827 | Over every run of updates, LeaveGame requests, ticks of WaitForAllResponses and deliveries a healthy client is settled between calls, and has reported ResponseNotConsumed if and only if LeaveGame was requested while a response was open (in the code a run ends where UpdateReadsMissing holds) |
| AgentSteps.AnsweredReadsNothingMissing | src/sc2api/sc2_coordinator.cc:289-377 | An update whose observation request is answered in time reads no missing response |
| AgentSteps.ReadsMissingInUpdateIff | src/sc2api/sc2_coordinator.cc:289-377 | For an agent in a game: in realtime the missing response is read if and only if an observation could be asked for and nothing has come; stepped, if and only if the step is answered without errors and nothing more has come |
| AgentSteps.GameEndNeeds | src/sc2api/sc2_coordinator.cc:289-377 | In every mode and whatever the game does, an update calls OnGameEnd at most once, and only on a healthy agent that is in a game it has not asked to leave, in realtime or with threads (multiplayer), or is in a game or stepped without threads (single player) |
| AgentSteps.GameEndIff | src/sc2api/sc2_coordinator.cc:289-377 | When an end can be reported at all: for an agent between updates with an empty receive queue that condition holds if and only if some behaviour of the game makes the next update call OnGameEnd and leaves the agent healthy |
| AgentSteps.EndReportedIff | src/sc2api/sc2_coordinator.cc:122-140 | When an end that happens is reported: if an update takes a healthy playing agent out of its game, OnGameEnd is called in it exactly if it runs in realtime, or the answers to the step and its observation bring the end and the agent is stepped with threads or alone |
| AgentSteps.StrandedStays | src/sc2api/sc2_coordinator.cc:289-377 | A healthy agent out of the game that expects nothing is not changed by any update in realtime, with threads or in multiplayer: it is neither told nor asks to leave |
| AgentSteps.LeavingIsNotTold | src/sc2api/sc2_client.cc:1786-1806 | An agent that waits for the answer to its leave request is not told in that update |
| AgentSteps.LeaveAnswerAwaited | src/sc2api/sc2_client.cc:1786-1806 | While nothing is announced, no update changes an agent that awaits the answer to its leave request |
| AgentSteps.LeaveAnswerTaken | src/sc2api/sc2_client.cc:1786-1806 | The first update that finds the answer takes it; unless it tells of another game the agent is out of the game and expects nothing, and OnGameEnd is not called again |
| AgentSteps.ToldAgentAwaitsAnswer | src/sc2api/sc2_coordinator.cc:753-811 | After the update that calls OnGameEnd and leaves the leave request open, the request stays open, with no new error, through all updates and arrivals up to the update that finds an announced response; so Update goes on |
| AgentSteps.FailedIsLeftAlone | src/sc2api/sc2_coordinator.cc:289-368 | An update does nothing to an agent whose application has failed |
| AgentErrors.UpdateRaisesIff | src/sc2api/sc2_coordinator.cc:289-377 | An update in any mode puts SC2ProtocolError on record if and only if one of its waits, for a step, an observation, a leave request or a callback, is answered with error strings |
| AgentSteps.EndEverReportedIff | src/sc2api/sc2_coordinator.cc:289-377 | Over any run without leave requests after the update in which the game ended: OnGameEnd has been called if and only if that update noticed the end, or the agent is a single-player one stepped without threads and has been updated again |
| AgentSteps.EndMissed | src/sc2api/sc2_coordinator.cc:122-140 | Every stepped agent can miss its end without any error: the answer to a request of a callback carries it, after CallOnStep has looked |
| AgentSteps.GameEndsRepeat | src/sc2api/sc2_coordinator.cc:318-331 | Stepped without threads, a single-player agent outside a game gets OnGameEnd on every update |
| AgentSteps.NoGameEndWithoutThreads | src/sc2api/sc2_coordinator.cc:289-332 | Stepped without threads, a multiplayer agent is never told that its game ended, and a healthy one never comes to wait for the answer to a leave request |
| GameCoordinator.BotAgent.CallOnStep | src/sc2api/sc2_coordinator.cc:122-140 | Does to the agent object what CalledOnStep says: OnGameEnd and the leave request out of the game, the callbacks in it |
| GameCoordinator.BotAgent.StepAgent | src/sc2api/sc2_coordinator.cc:290-310 | Does to the agent object what SteppedAgent says, in each of its early exits too |
| GameCoordinator.BotAgent.FollowUp | src/sc2api/sc2_coordinator.cc:319-331 | Does to the agent object what FollowedUp says |
| GameCoordinator.BotAgent.StepRealtime | src/sc2api/sc2_coordinator.cc:335-368 | Does to the agent object what RealtimeAgent says |
| GameCoordinator.Coordinator.AddAgent | src/sc2api/sc2_coordinator.cc:829-832 | The agent is appended, and the agents still share no object |
| GameCoordinator.Coordinator.RunParallel | src/sc2api/sc2_coordinator.cc:312-316 | Each agent ends in its own updated state whatever order the agents run in; no agent disturbs another |
| AgentThreads.MoveKeepsOutcome | src/sc2api/sc2_coordinator.cc:290-310 | Each single move of step_agent, stepped or realtime, leaves what its thread will make of the agent unchanged |
| AgentThreads.InterleavedIsParallelPart | src/sc2api/sc2_coordinator.cc:290-316 | However the threads of a parallel pass interleave, request by request and wait by wait, a thread that is done leaves its agent as one whole step does, and it is done after a bounded number of its own moves |
| GameCoordinator.Coordinator.StepAgents | src/sc2api/sc2_coordinator.cc:289-377 | Every agent goes through exactly the update proved about in AgentSteps |
| GameCoordinator.Coordinator.AllGamesEnded | src/sc2api/sc2_coordinator.cc:813-827 | True if and only if no agent expects a response and none has a normal application with status in game or in replay |
| GameCoordinator.Coordinator.Update | src/sc2api/sc2_coordinator.cc:753-811 | Every agent goes through its update, and the answer is to go on if and only if all error lists are empty and some agent expects a response or has a normal application with status in game or in replay |
| GameCoordinator.ErrorsStopUpdates | src/sc2api/sc2_coordinator.cc:753-811 | After an update one of whose waits is answered with error strings, Update does not ask to go on |
| GameCoordinator.AwaitedLeaveGoesOn | src/sc2api/sc2_coordinator.cc:753-827 | While an agent awaits the answer to its leave request and nothing is announced for it, the update leaves it as it is, and Update asks to go on if and only if no agent has an error on record |
| GameCoordinator.Coordinator.LeaveGame | src/sc2api/sc2_coordinator.cc:743-747 | Every agent requests to leave; no other part of any agent changes |
| GameCoordinator.Coordinator.UpdateUntilOver | src/sc2api/sc2_coordinator.cc:753-811 | The agents end as after that many rounds of updates; the loop went on after each round but the last, and stops before the rounds are used up only if the last update asked to; no healthy client ever has an unconsumed response on record that did not have one before |
| GameCoordinator.Coordinator.ServeFirstWaiting | src/sc2api/sc2_coordinator.cc:505-517 | Only the first healthy agent that waits is served, only if its connection announces a response; found says whether any healthy agent waits |
| AgentSteps.ServingTakesResponse | src/sc2api/sc2_coordinator.cc:505-517 | Serving takes the oldest announced response, after which nothing is expected; without an announcement nothing changes |
| GameCoordinator.Coordinator.WaitForAllResponses | src/sc2api/sc2_coordinator.cc:498-551 | The agents end as after that many ticks; true exactly at the first tick at which no healthy agent expects a response, false only after sleeping for the whole timeout and serving once more |
| ActionBuffer.ActionsConserved | src/sc2api/sc2_agent.cc:51-85 | At every point of every run, batches sent so far followed by the buffered batch are exactly the actions issued so far, also across failed sends |
| ActionBuffer.CommandsReportedOnce | src/sc2api/sc2_agent.cc:58-85 | The tags Commands() shows after the successive SendActions, joined, are the tags of the unit commands sent: each once, in order |
| ActionBuffer.CommandTagsConserved | src/sc2api/sc2_agent.cc:58-85 | Reported tags followed by the tags still buffered are the tags of all unit commands issued |
| ActionBuffer.CommandsOfLastSend | src/sc2api/sc2_agent.cc:58-85 | Between two SendActions, Commands() is the tags of the batch the first one sent, or empty if it sent none |
| ActionBuffer.CommandTagsIff | src/sc2api/sc2_agent.cc:73-81 | The tags are those of unit commands, and of no autocast toggle or message |
| ActionBuffer.ActionImp.AddAction | src/sc2api/sc2_agent.cc:51-56 | Refines Issued: the action goes to the end of the request under construction, which is made if need be |
| ActionBuffer.ActionImp.CommandUnitOnUnit | src/sc2api/sc2_agent.cc:139-143 | A missing unit or target changes nothing; otherwise one action with the two tags is buffered |
| ActionBuffer.ActionImp.CommandUnits | src/sc2api/sc2_agent.cc:145-158 | One action for all the tags of the units |
| ActionBuffer.ActionImp.SendActions | src/sc2api/sc2_agent.cc:62-85 | Refines SentAway, and makes exactly one paired Action call on the client if there is something to send |
| ActionBuffer.CollectTags | src/sc2api/sc2_agent.cc:73-81 | The nested loops collect the tags of the unit commands of the batch, and of no other action |
| UnitPools.UnitPool.CreateUnit | src/sc2api/sc2_unit.cc:22-41 | A known tag keeps its slot, a new one gets the next; every other tag keeps its slot |
| UnitPools.UnitPool.AllocateUnit | src/sc2api/sc2_unit.cc:28-41 | The new unit goes to the next free slot and is recorded as created |
| UnitPools.UnitPool.IncrementIndex | src/sc2api/sc2_unit.cc:53-59 | The index pair counts one further in blocks of 1000 |
| UnitPools.UnitPool.GetUnit | src/sc2api/sc2_unit.cc:43-46 | Finds exactly the known tags |
| UnitPools.UnitPool.GetExistingUnit | src/sc2api/sc2_unit.cc:48-51 | Finds exactly the existing tags |
| UnitPools.UnitPool.MarkDead | src/sc2api/sc2_unit.cc:61-69 | The unit is not alive and no longer exists, but stays known; an unknown tag is ignored |
| UnitPools.UnitPool.ClearExisting | src/sc2api/sc2_unit.cc:78-85 | No unit exists any more and every record of the frame is gone; known tags, slots and units stay |
| UnitPools.UnitPool.AddUnitIdled | src/sc2api/sc2_unit.h:255-259 | Only own units become idle |
| UnitPools.PoolInvariant | src/sc2api/sc2_unit.h:267-277 | Tags and slots correspond one to one, existing entries agree with the full index, known tags number 1000 first + second, and there are as many blocks as that needs |
| UnitPools.SlotOfTag | src/sc2api/sc2_unit.h:267-277 | The slot of a tag holds the unit of that tag |
| FrameEvents.ObservationImp.ConvertUnit | src/sc2api/sc2_proto_to_pods.cc:190-324 | The body of the unit loop computes Seen: creation, the recorded differences, then the new data |
| FrameEvents.ObservationImp.ConvertAll | src/sc2api/sc2_proto_to_pods.cc:188-327 | The whole loop computes SeenAll |
| FrameEvents.ObservationImp.NoteIdling | src/sc2api/sc2_proto_to_pods.cc:216-276 | Completed construction and lost orders are recorded for this unit and no other, as IdleIff and CompletedIff say of whole runs |
| FrameEvents.ObservationImp.UpdateObservation | src/sc2api/sc2_client.cc:562-676 | Game loops and pool are updated as Updated says; a report without score or unit data leaves the pool alone, and the result is true only with score, unit data and camera |
| FrameEvents.ObservationImp.IssueUnitDestroyedEvents | src/sc2api/sc2_client.cc:2076-2095 | Exactly the dead tags the pool knows are reported and marked |
| FrameEvents.ObservationImp.IssueIdleEvents | src/sc2api/sc2_client.cc:2119-2141 | The idle set is completed from commanded and new units and each member gets exactly one event |
| FrameEvents.ObservationImp.IssueUnitAddedEvents | src/sc2api/sc2_client.cc:2097-2111 | The created records become OnUnitCreated for own units and OnNeutralUnitCreated for visible neutral ones, then the entering records OnUnitEnterVision for visible enemies, in order |
| FrameEvents.ObservationImp.IssueBuildingCompletedEvents | src/sc2api/sc2_client.cc:2143-2149 | The completed records of own units become OnBuildingConstructionComplete, in order |
| FrameEvents.ObservationImp.IssueUnitDamagedEvents | src/sc2api/sc2_client.cc:2113-2117 | Every damage record becomes one call with the unit and the losses, in order |
| FrameEvents.ObservationImp.IssueEvents | src/sc2api/sc2_client.cc:2183-2200 | Nothing happens unless the game loop moved; otherwise destroyed, added, completed, idle and damaged events are issued as above |
| FrameHistory.LastSeenIsLatest | src/sc2api/sc2_proto_to_pods.cc:313-317 | After any run the pool knows exactly the units ever shown, and the last-seen loop of each is that of the latest observation containing it |
| FrameHistory.MemoryIsLastShown | src/sc2api/sc2_proto_to_pods.cc:190-324 | After any run the unit the pool remembers for a tag is, apart from the alive mark and the last-seen loop, the unit as the latest observation showing it does, or blank if none does |
| FrameHistory.AliveAndExistingIff | src/sc2api/sc2_unit.cc:61-85 | After any run a unit is marked alive if and only if it has been shown and not been reported dead in the same observation or since, and exists if and only if moreover the latest complete observation shows it |
| FrameHistory.DamageIff | src/sc2api/sc2_proto_to_pods.cc:236-247 | A frame records damage if and only if it shows a unit with less health or shield than it was last shown with: one record with both differences |
| FrameHistory.EnteredIff | src/sc2api/sc2_proto_to_pods.cc:313-317 | A frame records a unit as entering vision if and only if it shows it and the latest observation of it is older than the previous loop, both read off the reports |
| FrameHistory.EnteredVisionIffAbsentBefore | src/sc2api/sc2_client.cc:568-571 | With growing loops from 1 on, a unit enters vision if and only if the previous observation did not show it; the first observation records every unit |
| FrameHistory.IdleIff | src/sc2api/sc2_client.cc:2119-2141 | A tag is idle after a frame if and only if the frame shows it as an own unit that: was last shown with progress above 0 and below 1 and now has 1; or was last shown with orders and has none; or, the loop having moved, was commanded, is not reported dead and has no orders; or was never shown, is complete and has none |
| FrameHistory.IdleWithOrders | src/sc2api/sc2_proto_to_pods.cc:216-221 | A unit shown with orders is idle only through the completion of its construction |
| FrameHistory.CompletedIff | src/sc2api/sc2_proto_to_pods.cc:216-221 | A frame records a completion if and only if it shows the unit with progress 1 or more and the latest report before showed it above 0 and below 1 |
| FrameHistory.CompletedAtMostOnce | src/sc2api/sc2_proto_to_pods.cc:216-221 | If the reported build progress of a unit never falls, it has at most one completion record in any run |
| FrameHistory.CreatedOncePerRun | src/sc2api/sc2_unit.cc:22-41 | The creation records of a run are the known tags in order: no tag is created twice |
| FrameHistory.FrameCallsIff | src/sc2api/sc2_client.cc:2097-2149 | A frame reports a unit as created, entering vision or completed if and only if the game loop moved and the frame shows it for the first time, after absence, or complete after partial progress; once, and as the alliance and display type of this observation demand |
| FrameHistory.CallbacksIff | src/sc2api/sc2_client.cc:2097-2149 | Per callback, with alliance, display type, first appearance, absence and build progress spelled out: when a frame calls OnUnitCreated, OnNeutralUnitCreated, OnUnitEnterVision and OnBuildingConstructionComplete for a unit |
| FrameHistory.DestroyedIff | src/sc2api/sc2_client.cc:2076-2095 | OnUnitDestroyed is called for each dead tag ever shown, as often as it is listed, and for no other |
| FrameHistory.StaleRecordsAgainIff | src/sc2api/sc2_client.cc:562-676 | After an observation without score or unit data the records of the last full one stand; all of them are handed out again if and only if the loop then differs from the one before: with a score, unless it is the current loop; without, whenever the observation before had moved the loop. Old idle units stay idle |
| FrameHistory.CreationToldOnce | src/sc2api/sc2_client.cc:2097-2103 | In a run in which no records are handed out again the creation of a unit is reported at most once, and only of units that have been shown |
| UnitContainer.TerranUnitContainer.AddUnit | examples/common/terran_unit_container.h:96-168 | Appends one row to every parallel array and indexes its tag; a null unit is ignored |
| UnitContainer.TerranUnitContainer.SetUnits | examples/common/terran_unit_container.h:212-247 | The content is exactly the given list, with nothing filtered in or selected |
| UnitContainer.TerranUnitContainer.SynchronizedIffDistinct | examples/common/terran_unit_container.h:249-263 | HasSynchronizedSizes holds if and only if no tag repeats |
| UnitContainer.TerranUnitContainer.GetUnitByTag | examples/common/terran_unit_container.h:786-794 | Lookup by tag agrees with a linear search |
| UnitContainer.LookupOfDistinct | examples/common/terran_unit_container.h:786-794 | With distinct tags the lookup finds the one unit with the tag |
| UnitContainer.FlagsReadBack | examples/common/terran_unit_container.h:15-51 | Each of the eight state flags reads back independently of the others |
| UnitContainer.TerranUnitContainer.KeepsAtIsKeeps | examples/common/terran_unit_container.h:276-735 | The test on the arrays is the test on the unit, for every filter |
| UnitContainer.TerranUnitContainer.FilterBy | examples/common/terran_unit_container.h:276-735 | A filter loop narrows the mask by exactly its predicate |
| UnitContainer.TerranUnitContainer.Select | examples/common/terran_unit_container.h:265-747 | Any chain after a reset selects, in order, the units all its filters keep |
| UnitContainer.KeptByMeaning | examples/common/terran_unit_container.h:737-747 | A unit is selected as often as it is held if all filters keep it, else never |
| UnitContainer.KeptInOrder | examples/common/terran_unit_container.h:737-747 | A selection keeps the order of the container |
| UnitContainer.UnitsMeaning | examples/common/terran_unit_container.h:755-761 | The selection of units holds each unit of a Terran unit type with build progress 1 or more, and nothing else |
| UnitContainer.BuildingsMeaning | examples/common/terran_unit_container.h:763-769 | The selection of buildings holds each building type with build progress 1 or more, and nothing else |
| UnitContainer.ConstructionMeaning | examples/common/terran_unit_container.h:771-777 | The selection of buildings in construction holds each building type with build progress below 1, and nothing else |
| UnitContainer.WorkersMeaning | examples/common/terran_unit_container.h:779-784 | The selection of workers holds each SCV, finished or not, and nothing else |
| UnitContainer.OrderFiltersMeaning | examples/common/terran_unit_container.h:276-735 | The filters on orders look at every order: one keeps units with any order on the target, the other those none of whose orders trains a unit |
| UnitContainer.FilterOrderIrrelevant | examples/common/terran_unit_container.h:265-747 | Order and repetition of filters do not matter |
| UnitContainer.BuildingsPartition | examples/common/terran_unit_container.h:763-777 | Finished and unfinished buildings split all buildings between them |
| UnitContainer.TerranUnitContainer.GetUnits | examples/common/terran_unit_container.h:755-761 | Selects the finished units |
| UnitContainer.TerranUnitContainer.GetBuildings | examples/common/terran_unit_container.h:763-769 | Selects the finished buildings |
| UnitContainer.TerranUnitContainer.GetBuildingsInConstruction | examples/common/terran_unit_container.h:771-777 | Selects the unfinished buildings |
| UnitContainer.TerranUnitContainer.GetWorkers | examples/common/terran_unit_container.h:779-784 | Selects the workers |
| IntentArbiter.PickWinners | examples/common/agent_framework.h:604-619 | The first pass keeps per actor the earliest intent maximal under priority, then lower domain order (spelled out by ResolvedIsBest) |
| IntentArbiter.ValidateAndNormalize | examples/common/agent_framework.h:540-597 | On a first attempt for an actor the answer is validity alone (the build reservation does not reject), and the result is the clamped intent |
| IntentArbiter.Resolve | examples/common/agent_framework.h:599-649 | The two passes with hash map and sets compute the simple specification Resolved, of which ResolvedIsBest, ValidIff and NormalizedPoint give the meaning field by field |
| IntentArbiter.OneIntentPerActor | examples/common/agent_framework.h:599-649 | No actor is resolved twice |
| IntentArbiter.WinnerDecides | examples/common/agent_framework.h:599-649 | An actor gets its winner, validated and clamped, or nothing: never the intent of a loser |
| IntentArbiter.ResolvedIsBest | examples/common/agent_framework.h:515-523 | No intent of the same actor has a higher priority than a resolved one, none of the same priority a lower domain order, and of those equal in both the resolved one is the earliest |
| IntentArbiter.DomainsInOrder | examples/common/planning/EIntentDomain.cc:27-45 | Recovery goes before structure build, structure control, unit production and army combat, in this order |
| IntentArbiter.ValidIff | examples/common/agent_framework.h:540-597 | An intent passes validation if and only if its actor is controlled and: a unit target is visible; a point target is finite, the map is known, and at the clamped point placement holds if required and a ground path exists if required and the actor does not fly |
| IntentArbiter.NormalizedPoint | examples/common/agent_framework.h:53-57 | A valid ground target is moved to the nearest point of the playable box, coordinate by coordinate; any other intent is left as it is |
| IntentArbiter.ResolvedIff | examples/common/agent_framework.h:599-649 | An actor is resolved if and only if it has a winner that passes validation and compares equal to itself |
| IntentArbiter.ResolvedPositions | examples/common/agent_framework.h:621-649 | The resolved intents stand in the buffer order of their winners and none is left out |
| IntentArbiter.MatchOfWinner | examples/common/agent_framework.h:470-478 | An intent that matches the winner is the same value and does not stand before it |
| IntentArbiter.ClampIdempotentIff | examples/common/agent_framework.h:53-57 | Clamping twice is clamping once if and only if the interval is not empty |
| IntentArbiter.ResolveIdempotent | examples/common/agent_framework.h:559-649 | With a non-empty playable box, resolving the resolved list changes nothing |
| IntentArbiter.EmptyBoxNotIdempotent | examples/common/agent_framework.h:53-57 | With a playable box empty in either direction, resolving the resolved list moves a ground move beyond that side once more |
| IntentArbiter.IdempotentIffBox | examples/common/agent_framework.h:559-649 | With a playable box and a unit to command, resolving is idempotent on all buffers if and only if the box is not empty |
| IntentArbiter.SoleIntentSurvives | examples/common/agent_framework.h:599-649 | The only intent of an actor that targets a visible unit is resolved unchanged |
| WorkerSelection.SelectWorkerForRefinery | examples/common/services/FTerranWorkerSelectionService.cc:200-253 | The first nearest idle free worker, or without one the first nearest free mineral worker |
| WorkerSelection.SelectWorkerForGasRelief | examples/common/services/FTerranWorkerSelectionService.cc:255-290 | The first nearest free worker committed to the refinery |
| WorkerSelection.SelectWorkerForMineralRebalance | examples/common/services/FTerranWorkerSelectionService.cc:292-363 | The first worker preferred over all movable ones, with planned transfers counted |
| WorkerSelection.CountCommittedHarvesters | examples/common/services/FTerranWorkerSelectionService.cc:365-389 | Counts exactly the workers committed to the refinery |
| WorkerSelection.FindNearest | examples/common/services/FTerranWorkerSelectionService.cc:161-185 | The first of the nearest accepted units |
| WorkerSelection.NearestIsNearest | examples/common/services/FTerranWorkerSelectionService.cc:161-185 | No accepted unit is nearer |
| WorkerMeaning.PickedIff | examples/terran/terran.cc:2168-2175 | The units the bot looks at are the observed ones of its alliance, the neutral ones, its refineries and its finished town halls with an ideal above zero |
| WorkerMeaning.PickedInOrder | examples/terran/terran.cc:1169-1179 | They stand in the order of the observation |
| WorkerMeaning.CommittedRefineryIff | examples/common/services/FTerranWorkerSelectionService.cc:73-98 | A worker is committed to a refinery if and only if its first order gathers from or returns to an observed refinery with that tag |
| WorkerMeaning.CommittedToRefineryIff | examples/common/services/FTerranWorkerSelectionService.cc:100-108 | A worker counts as a gas worker if and only if it carries vespene or is committed to some refinery |
| WorkerMeaning.CommittedToMineralsIff | examples/common/services/FTerranWorkerSelectionService.cc:110-141 | A worker counts as a mineral worker if and only if it carries minerals or its first order harvests an observed mineral patch |
| WorkerMeaning.CommittedToConstructionIff | examples/common/services/FTerranWorkerSelectionService.cc:52-71 | A worker is committed to construction if and only if its first order is one of the six build orders |
| WorkerMeaning.NearestIsFirst | examples/common/services/FTerranWorkerSelectionService.cc:161-185 | Every accepted unit before the one found stands strictly further away |
| WorkerMeaning.HallPatchMeaning | examples/terran/terran.cc:2874-2883 | The patch of a hall is the nearest observed neutral mineral patch within 15 of it, if there is one |
| WorkerMeaning.RecoveryPatchMeaning | examples/terran/terran.cc:2874-2883 | The recovery patch of a worker is the patch of the own finished town hall nearest to it |
| WorkerMeaning.MineralHallMeaning | examples/common/services/FTerranWorkerSelectionService.cc:161-185 | A mineral worker counts for the finished hall nearest to it |
| WorkerMeaning.GasChoiceIsNearest | examples/common/services/FTerranWorkerSelectionService.cc:200-253 | No available idle worker stands nearer to the refinery than the chosen one; a mineral worker is chosen only without an idle one, and then none stands nearer |
| WorkerMeaning.ReliefChoiceIsNearest | examples/common/services/FTerranWorkerSelectionService.cc:255-290 | No available worker of the refinery stands nearer than the one chosen for relief |
| WorkerMeaning.GasBaseMeaning | examples/terran/terran.cc:2179-2195 | The harvesters a refinery is taken to have are the greater of the reported number and the number of finished own workers committed to it |
| HarvesterLedger.NoOvershoot | examples/terran/terran.cc:2295-2344 | Under any log of legal transfers a hall above its ideal is never drained below it and one below it never filled above it |
| HarvesterLedger.NeverBoth | examples/terran/terran.cc:2295-2344 | No hall is both a donor and a receiver |
| HarvesterLedger.Conservation | examples/terran/terran.cc:2295-2344 | The total of effective harvesters is unchanged by rebalancing |
| HarvesterLedger.TransferLowersImbalance | examples/terran/terran.cc:2295-2344 | Each transfer lowers the sum of distances from the ideals by exactly 2 |
| HarvesterLedger.ImbalanceOfLog | examples/terran/terran.cc:2295-2344 | A log of n transfers lowers it by exactly 2n |
| WorkerAllocator.FillPass | examples/terran/terran.cc:2179-2214 | Every refinery is filled up to its ideal at most, and short of it only if no worker is left; every fill sends an available idle or mineral worker, the selector's choice, to a ready own refinery itself |
| WorkerAllocator.ReliefPass | examples/terran/terran.cc:2216-2257 | Every refinery is relieved down to its ideal at most, counting the fills of the same pass, and stays above it only if, with the workers taken at the end, no free worker is committed to it or the one the selector picks has no mineral patch to go to; every relief sends a worker committed to the refinery to its recovery patch |
| WorkerAllocator.SelectRecoveryMineralPatch | examples/terran/terran.cc:2874-2883 | Returns the recovery patch: the nearest patch in range of the town hall structure nearest to the worker |
| WorkerAllocator.RebalanceOne | examples/terran/terran.cc:2309-2343 | One round finds a legal transfer by a worker without an intent, or the hall is settled |
| WorkerAllocator.RebalancePass | examples/terran/terran.cc:2262-2345 | At most 8 legal transfers are planned, each worker once, and fewer only when every hall is settled; each moves an available mineral worker such that no movable one came from a hall with more to spare, or, with as much, carried less or stood nearer |
| TerranBot.GasNeverOvershoots | examples/terran/terran.cc:2179-2257 | No refinery is both filled and relieved; each ends between its count before and its ideal |
| TerranBot.RebalanceKeepsBalance | examples/terran/terran.cc:2262-2345 | After a pass no hall is past its ideal from where it started, none both gave and got, the total of harvesters is unchanged and the imbalance has fallen by 2 per transfer |
| TerranBot.HarvestPass | examples/terran/terran.cc:2166-2260 | The three passes add only deliverable intents of distinct actors that had none, from moves each sound for the actors taken before it, with the gas and rebalance outcomes below |
| TerranBot.FillOrdered | examples/terran/terran.cc:2200-2210 | The intent of a fill orders its worker to gather from its refinery |
| TerranBot.ReliefOrdered | examples/terran/terran.cc:2240-2255 | The intent of a relief orders its worker to its recovery patch |
| TerranBot.TransferOrdered | examples/terran/terran.cc:2330-2343 | The intent of a transfer orders its worker to the patch of the receiving hall |
| TerranBot.RecoverableIff | examples/terran/terran.cc:1964-2001 | A candidate can be recovered if and only if it is an own observed unit without orders that has a recovery patch |
| TerranBot.TerranAgent.OnUnitIdle | examples/terran/terran.cc:1140-1151 | Idle workers, and only they, are remembered |
| TerranBot.TerranAgent.ProduceWorkerHarvestIntents | examples/terran/terran.cc:2166-2260 | The buffer grows by the plan of HarvestPass |
| TerranBot.TerranAgent.ProduceRecoveryIntents | examples/terran/terran.cc:1964-2001 | Exactly the remembered or idle workers without an intent that can be recovered get one, to their recovery patch; the memory is emptied |
| TerranBot.TerranAgent.ResolveStep | examples/terran/terran.cc:1102-1112 | Whatever else the buffer holds, every harvest, rebalance and recovery intent of the step is resolved unchanged, each from a sound move or recovery, and no actor is resolved twice |
| TerranBot.PlanSurvives | examples/terran/terran.cc:1102-1112 | A deliverable intent that is the only one of its actor is executed as planned |
| TerranBot.TerranAgent.UpdateAgentState | examples/terran/terran.cc:1169-1179 | The container and the neutral units are those of the frame |
| TypeSums.IndexIsPosition | examples/common/terran_models.h:17-137 | The index switches agree with the type tables: the index of a type is its position, other types have none |
| TypeSums.TableDistinct | examples/common/terran_models.h:17-43 | No type stands twice in a table |
| TypeSums.ExchangeSums | examples/common/bot_status_models.h:303-343 | A sum taken type by type equals the sum taken unit by unit, for any table and weights |
| TypeSums.SumOverKept | examples/common/bot_status_models.h:826-842 | A sum over the selected units is the sum over all controlled units that the filters keep |
| AgentCounts.HistogramNext | examples/common/bot_status_models.h:365-372 | Counting one more unit moves one 16-bit counter by one, with wrap-around, or none |
| AgentCounts.TypeCounter.CountUnits | examples/common/bot_status_models.h:826-842 | The counters show exactly how often each table type occurs in the list, modulo 2^16, whatever they showed before |
| AgentCounts.TypeCounter.CountTraining | examples/common/bot_status_models.h:844-865 | The counters show what the first orders of the buildings train |
| AgentCounts.AgentUnits.UpdateArmyUnitCounts | examples/common/bot_status_models.h:303-318 | The army count is the 32-bit sum of the counters other than workers and MULEs |
| AgentCounts.AgentUnits.UpdateArmyUnitValues | examples/common/bot_status_models.h:320-343 | Minerals, vespene and supply are the 32-bit weighted sums of those counters |
| AgentCounts.AgentState.UpdateCounts | examples/common/bot_status_models.h:800-807 | After the four passes all counters are those of the units the container controls, and if no counter wraps the army count is the number of finished units other than workers and MULEs and each total the 32-bit sum of their costs |
| AgentCounts.CounterIsNumberOfUnits | examples/common/bot_status_models.h:826-901 | Each counter shows, modulo 2^16, the number of units of its type that pass the filters |
| AgentCounts.UnitCountersMeaning | examples/common/bot_status_models.h:826-842 | A unit counter shows the number of units of its type with build progress 1 or more, modulo 65536 |
| AgentCounts.BuildingCountersMeaning | examples/common/bot_status_models.h:867-883 | A building counter shows the number of finished buildings of its type, modulo 65536 |
| AgentCounts.ConstructionCountersMeaning | examples/common/bot_status_models.h:885-901 | A construction counter shows the number of unfinished buildings of its type, modulo 65536 |
| AgentCounts.TypeCounter.UnlistedCountsNothing | examples/common/bot_status_models.h:350-354 | A type the table does not have counts zero |
| AgentCounts.TrainedIff | examples/common/bot_status_models.h:844-865 | A type is in production if and only if the first order of some building trains it |
| AgentCounts.ArmyTotalIsSumOverUnits | examples/common/bot_status_models.h:320-343 | Totals computed type by type are the sums over the individual finished units other than workers and MULEs, if no counter wraps |
| AgentCounts.ArmyCountIsNumberOfUnits | examples/common/bot_status_models.h:303-318 | The sum of ones over the army units is the number of finished units other than workers and MULEs |
| AgentCounts.ArmyMeaning | examples/common/bot_status_models.h:303-318 | The army holds each Terran unit with build progress 1 or more that is neither an SCV nor a MULE, and nothing else |
| AgentCounts.ArmySumIsWeight | examples/common/bot_status_models.h:320-343 | The sums over the army are what its units weigh one by one |
| ChokeScan.PackedReadsBack | src/sc2api/sc2_map_info.cpp:21-30 | Reading a grid packed eight tiles a byte, highest bit first, gives back every tile of the map and false outside it |
| ChokeScan.PackedRowsReadBack | src/sc2api/sc2_map_info.cpp:21-62 | A grid packed row by row is pathable exactly where row and column say |
| ChokeScan.ByteRowsReadBack | src/sc2api/sc2_map_info.cpp:32-69 | A grid of bytes given row by row is pathable exactly where the byte of row and column is not 255 |
| ChokeScan.TruncTowardsZero | examples/terran/terran.cc:949-955 | The conversion to int stays within one of the value, on the side of zero |
| ChokeScan.WindowIsBetween | examples/terran/terran.cc:943-962 | The rows scanned keep more than one tile from ramp and natural and lie between them, and every row two tiles from both is scanned; the columns reach 20 beyond both, and the column aimed at is halfway, each within one tile |
| ChokeScan.RunsAreOnTheMap | src/sc2api/sc2_map_info.cpp:21-30 | Pathable runs have non-negative columns within the map, so -1 is a sound "no run" |
| ChokeScan.BestIsUnique | examples/terran/terran.cc:961-1004 | A row has one best run at most |
| ChokeScan.BestExists | examples/terran/terran.cc:961-1004 | A row has a best run unless no run of it qualifies |
| ChokeScan.ScanRow | examples/terran/terran.cc:961-1004 | The scan of a row returns the qualifying maximal run nearest to the middle, the leftmost on ties, or -1 |
| ChokeScan.FindNaturalChoke | examples/terran/terran.cc:949-1017 | Over all rows it returns the first narrowest chosen run, or the initial values |
| ChokeScan.FoundOnNarrowMaps | examples/terran/terran.cc:949-1017 | On maps narrower than 999 columns a choke is found if and only if some scanned row has a run of width 3 |
| ChokeScan.NearestOnNarrowMaps | examples/terran/terran.cc:961-1004 | On maps narrower than 999 columns the chosen run of a row is nearest among all its runs of width 3, without a distance limit |
| ChokeScan.ChosenIsNearest | examples/terran/terran.cc:961-1004 | In terms of columns: the middle of the chosen run is no further from the column aimed at than that of any run of three columns, and it starts no later than one as far |
| ChokeScan.ChokeMeaning | examples/terran/terran.cc:949-1017 | A choke found is a maximal stretch of at least three pathable columns in a scanned row; no row has a narrower chosen run, no earlier row one as narrow |
| SpatialMetrics.CountsTotalArea | examples/common/agent_framework.h:384-401 | The three counts and the ignored cells total width times height |
| SpatialMetrics.VisitedCell | examples/common/agent_framework.h:392-398 | The loops visit exactly the cells of the layer, each with its value |
| SpatialMetrics.ReadOfRows | examples/common/agent_framework.h:384-401 | A layer given row by row reads back by row and column, and as 0 outside |
| SpatialMetrics.CellOfRows | examples/common/agent_framework.h:392-398 | A cell counts as own for the values 1 and 2, neutral for 3, enemy for 4, and is ignored otherwise |
| SpatialMetrics.BoundsAreTightest | examples/common/agent_framework.h:195-208 | The bounds of a side enclose its cells, and every box that does so encloses the bounds |
| SpatialMetrics.CentroidWithinBounds | examples/common/agent_framework.h:238-258 | A side is present exactly if it has cells, and then its centroid lies in its bounds |
| SpatialMetrics.CentroidIsMean | examples/common/agent_framework.h:238-258 | The centroid times the number of cells is the sum of their coordinates |
| SpatialMetrics.OccupancySummary.AccumulateChannel | examples/common/agent_framework.h:384-401 | An invalid layer gives an empty summary; a valid one the finalized sums over all its cells |

## Left out

- AgentCounts.ArmyTotalIsSumOverUnits: assumes that no type occurs 65536 times or more, because the 16-bit counters wrap there; the wrap itself is part of CountUnits.
- AgentCounts.AgentUnits.UpdateArmyUnitValues: takes the cost tables as arbitrary functions, because their numbers do not matter to the sums; a product is reduced modulo 2^32 only when it is added, where C++ first forms it as a signed int.
- AgentSteps.UpdateKeepsSettled: covers callbacks that make paired send-then-wait calls only, as every call the library offers to them does; the actions on feature layers are such calls too.
- ClientObjects.ControlImp.WaitForResponse: the attempts to terminate the process are folded into one answer to whether it still runs afterwards.
- AgentSteps.RunStaysSettled: a run goes on after a missing response has been read, where the code has undefined behaviour.
- ClientObjects.ControlImp.GetObservation: the contents of the observation are the subject of FrameEvents.
- ClientObjects.Connection.Receive: the unlocked steps of the timeout branch are taken as one, with everything the socket thread pushes in between as a parameter.
- ServerRuns.RunInStep: takes it that an answer which has not arrived when its connection is closed never arrives; a game that answers more than once or out of order is not considered.
- GameCoordinator.Coordinator.RunParallel: the method runs whole steps one after another in an arbitrary order, and that agents share no object is a precondition; finer interleavings, down to single requests and waits, are the subject of AgentThreads, on values.
- GameCoordinator.Coordinator.Update: replay observers and their relaunch are not modelled.
- FrameEvents.ObservationImp.ConvertUnit: only the unit fields that events and queries here depend on are copied; enum values the library cannot convert are not representable.
- FrameEvents.ObservationImp.ConvertAll: never stops early, because an enum value the library does not know is not representable.
- FrameEvents.ObservationImp.IssueEvents: the plain loops that call back for alerts and upgrades, and the user's own OnStep, are not modelled.
- AgentThreads.InterleavedIsParallelPart: a wait, with its recovery ping, and the poll at the start are one move each; that the threads share no memory is taken from RunParallel's precondition.
- FrameHistory.CreationToldOnce: how often the other events come over a run with repeated records follows frame by frame from StaleRecordsAgainIff and is not counted.
- UnitContainer.TerranUnitContainer.AddUnit: fills the seven parallel arrays the modelled filters and queries need.
- UnitContainer.TerranUnitContainer.KeepsAtIsKeeps: covers twenty-seven filters; those on weapons, buffs, target positions, cargo, passengers, add-ons and harvesters are not modelled.
- UnitContainer.TerranUnitContainer.Select: covers twenty-seven of the filters and the arrays they read; the others have the same form.
- UnitContainer.TerranUnitContainer.SetUnits: units are snapshots rather than pointers into the arena, so later changes through a pointer are not seen by the container.
- IntentArbiter.Resolve: placement and pathing queries are arbitrary deterministic functions of their arguments within one call.
- TerranBot.TerranAgent.ResolveStep: the other intent producers and the command scheduler are not modelled; whatever they put into the buffer, and which actors they keep busy, is arbitrary.
- ChokeScan.ScanRow: integers are unbounded; the grid is complete for its announced size, as the code asserts.
- SpatialMetrics.OccupancySummary.AccumulateChannel: sums are reals, without rounding.
- Websocket and protobuf handling, process launch, console and file output: only their outcomes appear, as arguments.
- Connection-closed callbacks, request statistics, settings parsing, map upload and game creation: easy members, or input and output only.
- Debug drawing, the renderer, score conversion, the other example bots and the Python scripts.
