/** TerranAgent's greedy worker allocation: gas filling, gas relief, mineral rebalancing and idle
    recovery, appended to the step's intent buffer and resolved by the arbiter. */
module WorkerAllocator {
  import opened GameTypes
  import opened WorkerSelection
  import opened HarvesterLedger
  import opened IntentArbiter
  import opened HarvestPlan

  function At(m: map<Tag, int>, t: Tag): int {
    if t in m then m[t] else 0
  }

  /** The variables of a gas loop follow its log: buffer, reserved workers and planned counts. */
  ghost predicate GasBook(w: World, base: seq<Intent>, log: seq<GasMove>, ability: Ability, priority: int,
                          buffer: seq<Intent>, reserved: set<Tag>, planned: map<Tag, int>)
  {
    && buffer == base + GasIntents(log, ability, priority)
    && GoodPlan(w, base, GasIntents(log, ability, priority))
    && reserved <= ActorSet(buffer)
    && forall t :: At(planned, t) == MovesAt(log, t)
  }

  /** They do, and every move was sound when it was made. */
  ghost predicate GasState(w: World, base: seq<Intent>, log: seq<GasMove>, ability: Ability, priority: int,
                           buffer: seq<Intent>, reserved: set<Tag>, planned: map<Tag, int>)
  {
    GasBook(w, base, log, ability, priority, buffer, reserved, planned) && SoundMoves(w, base, log, ability, priority)
  }

  lemma {:induction false} GasBookNext(w: World, base: seq<Intent>, log: seq<GasMove>, ability: Ability, priority: int,
                    buffer: seq<Intent>, reserved: set<Tag>, planned: map<Tag, int>, m: GasMove,
                    i: Intent, buffer': seq<Intent>, reserved': set<Tag>, planned': map<Tag, int>)
    requires WellFormed(w) && GasBook(w, base, log, ability, priority, buffer, reserved, planned)
    requires m.worker in Controlled(w) && m.worker.tag !in ActorSet(buffer) && m.target in w.observed
    requires i == UnitTargetIntent(m.worker.tag, ability, m.target.tag, priority, IntentDomain.Recovery)
    requires buffer' == buffer + [i] && reserved' == reserved + {m.worker.tag}
    requires planned' == planned[m.refinery.tag := At(planned, m.refinery.tag) + 1]
    ensures GasBook(w, base, log + [m], ability, priority, buffer', reserved', planned')
    ensures ActorSet(buffer') == ActorSet(buffer) + {m.worker.tag}
    ensures forall t :: MovesAt(log + [m], t) == MovesAt(log, t) + if t == m.refinery.tag then 1 else 0
  {
    GasLogNext(log, m, ability, priority);
    GoodPlanNext(w, base, GasIntents(log, ability, priority), i);
  }

  lemma {:induction false} GasStateNext(w: World, base: seq<Intent>, log: seq<GasMove>, ability: Ability, priority: int,
                     buffer: seq<Intent>, reserved: set<Tag>, planned: map<Tag, int>, m: GasMove,
                     i: Intent, buffer': seq<Intent>, reserved': set<Tag>, planned': map<Tag, int>)
    requires WellFormed(w) && GasState(w, base, log, ability, priority, buffer, reserved, planned)
    requires SoundMove(w, ability, ActorSet(buffer), m)
    requires i == UnitTargetIntent(m.worker.tag, ability, m.target.tag, priority, IntentDomain.Recovery)
    requires buffer' == buffer + [i] && reserved' == reserved + {m.worker.tag}
    requires planned' == planned[m.refinery.tag := At(planned, m.refinery.tag) + 1]
    ensures GasState(w, base, log + [m], ability, priority, buffer', reserved', planned')
    ensures ActorSet(buffer') == ActorSet(buffer) + {m.worker.tag}
    ensures forall t :: MovesAt(log + [m], t) == MovesAt(log, t) + if t == m.refinery.tag then 1 else 0
  {
    SoundMoveIsDeliverable(w, ability, ActorSet(buffer), m);
    SoundMovesNext(w, base, log, ability, priority, m);
    GasBookNext(w, base, log, ability, priority, buffer, reserved, planned, m, i, buffer', reserved', planned');
  }

  lemma GasChoiceMeaning(w: World, reserved: set<Tag>, taken: set<Tag>, refinery: Unit, choice: Option<Unit>)
    requires IsGasChoice(w, reserved + taken, refinery, choice) && reserved <= taken
    ensures choice.None? ==> NoGasWorker(w, taken)
    ensures choice.Some? && refinery in Picked(w.observed, OwnRefineries) && ReadyRefinery(refinery) ==>
      SoundFill(w, taken, GasMove(choice.value, refinery, refinery))
  {
    assert reserved + taken == taken;
  }

  /** One round of the fill loop: the chosen worker, if any, is sent to the refinery. */
  method FillOne(w: World, r: Unit, buffer0: seq<Intent>, reserved0: set<Tag>, planned0: map<Tag, int>,
                 ghost base: seq<Intent>, ghost log0: seq<GasMove>)
    returns (found: bool, buffer: seq<Intent>, reserved: set<Tag>, planned: map<Tag, int>, ghost log: seq<GasMove>)
    requires WellFormed(w) && r in Picked(w.observed, OwnRefineries) && ReadyRefinery(r)
    requires GasState(w, base, log0, HarvestGather, GAS_HARVEST_PRIORITY, buffer0, reserved0, planned0)
    ensures GasState(w, base, log, HarvestGather, GAS_HARVEST_PRIORITY, buffer, reserved, planned)
    ensures ActorSet(buffer0) <= ActorSet(buffer)
    ensures forall t :: MovesAt(log, t) == MovesAt(log0, t) + if found && t == r.tag then 1 else 0
    ensures !found ==> NoGasWorker(w, ActorSet(buffer))
  {
    buffer, reserved, planned, log := buffer0, reserved0, planned0, log0;
    var taken := ActorSet(buffer);
    var worker := SelectWorkerForRefinery(w, Controlled(w), reserved, taken, r);
    GasChoiceMeaning(w, reserved, taken, r, worker);
    found := worker.Some?;
    if found {
      var intent := UnitTargetIntent(worker.value.tag, HarvestGather, r.tag, GAS_HARVEST_PRIORITY,
                                     IntentDomain.Recovery);
      buffer := buffer + [intent];
      reserved := reserved + {worker.value.tag};
      planned := planned[r.tag := At(planned, r.tag) + 1];
      log := log + [GasMove(worker.value, r, r)];
      GasStateNext(w, base, log0, HarvestGather, GAS_HARVEST_PRIORITY, buffer0, reserved0, planned0,
                   GasMove(worker.value, r, r), intent, buffer, reserved, planned);
    }
  }

  /** The inner loop of the fill pass for one refinery. */
  method FillRefinery(w: World, r: Unit, missing: nat, buffer0: seq<Intent>, reserved0: set<Tag>,
                      planned0: map<Tag, int>, ghost base: seq<Intent>, ghost log0: seq<GasMove>)
    returns (buffer: seq<Intent>, reserved: set<Tag>, planned: map<Tag, int>, ghost log: seq<GasMove>)
    requires WellFormed(w) && r in Picked(w.observed, OwnRefineries) && ReadyRefinery(r)
    requires GasState(w, base, log0, HarvestGather, GAS_HARVEST_PRIORITY, buffer0, reserved0, planned0)
    ensures GasState(w, base, log, HarvestGather, GAS_HARVEST_PRIORITY, buffer, reserved, planned)
    ensures ActorSet(buffer0) <= ActorSet(buffer)
    ensures forall t :: t != r.tag ==> MovesAt(log, t) == MovesAt(log0, t)
    ensures MovesAt(log, r.tag) <= MovesAt(log0, r.tag) + missing
    ensures MovesAt(log, r.tag) < MovesAt(log0, r.tag) + missing ==> NoGasWorker(w, ActorSet(buffer))
  {
    buffer, reserved, planned, log := buffer0, reserved0, planned0, log0;
    var k := 0;
    while k < missing
      invariant 0 <= k <= missing
      invariant GasState(w, base, log, HarvestGather, GAS_HARVEST_PRIORITY, buffer, reserved, planned)
      invariant ActorSet(buffer0) <= ActorSet(buffer)
      invariant forall t :: MovesAt(log, t) == MovesAt(log0, t) + if t == r.tag then k else 0
    {
      var found;
      found, buffer, reserved, planned, log := FillOne(w, r, buffer, reserved, planned, base, log);
      if !found {
        break;
      }
      k := k + 1;
    }
  }

  /** The first loop of the harvest pass: every ready refinery below its ideal is filled. */
  method FillPass(w: World, refineries: seq<Unit>, base: seq<Intent>)
    returns (buffer: seq<Intent>, reserved: set<Tag>, planned: map<Tag, int>, ghost log: seq<GasMove>)
    requires WellFormed(w) && refineries == Picked(w.observed, OwnRefineries)
    ensures base <= buffer
    ensures GasState(w, base, log, HarvestGather, GAS_HARVEST_PRIORITY, buffer, reserved, planned)
    ensures forall r :: r in refineries ==>
      FillWithin(w, log, r) && FillSettled(w, ActorSet(buffer), log, r)
  {
    buffer, reserved, planned, log := base, {}, map[], [];
    var i := 0;
    PickedDistinct(w.observed, OwnRefineries);
    while i < |refineries|
      invariant 0 <= i <= |refineries|
      invariant GasState(w, base, log, HarvestGather, GAS_HARVEST_PRIORITY, buffer, reserved, planned)
      invariant FillProgress(w, ActorSet(buffer), log, refineries, i)
    {
      var r := refineries[i];
      ghost var before, taken := log, ActorSet(buffer);
      if ReadyRefinery(r) {
        var committed := CountCommittedHarvesters(w, Controlled(w), r.tag);
        var effective := (if r.assignedHarvesters > committed then r.assignedHarvesters else committed)
                         + PlannedDelta(planned, map[], r.tag);
        var missing := if r.idealHarvesters - effective > 0 then r.idealHarvesters - effective else 0;
        buffer, reserved, planned, log := FillRefinery(w, r, missing, buffer, reserved, planned, base, log);
      }
      FillProgressNext(w, taken, ActorSet(buffer), before, log, refineries, i);
      i := i + 1;
    }
  }

  /** One round of the relief loop: the chosen worker, if any, goes to a patch, if there is one. */
  method ReliefOne(w: World, r: Unit, buffer0: seq<Intent>, reserved0: set<Tag>, planned0: map<Tag, int>,
                   ghost base: seq<Intent>, ghost log0: seq<GasMove>)
    returns (found: bool, buffer: seq<Intent>, reserved: set<Tag>, planned: map<Tag, int>, ghost log: seq<GasMove>)
    requires WellFormed(w) && r in Picked(w.observed, OwnRefineries) && ReadyRefinery(r)
    requires GasState(w, base, log0, Smart, GAS_RELIEF_PRIORITY, buffer0, {}, planned0)
    requires reserved0 <= ActorSet(buffer0)
    ensures GasState(w, base, log, Smart, GAS_RELIEF_PRIORITY, buffer, {}, planned)
    ensures reserved <= ActorSet(buffer)
    ensures ActorSet(buffer0) <= ActorSet(buffer)
    ensures forall t :: t != r.tag ==> Spares(w, ActorSet(buffer0), ActorSet(buffer), t)
    ensures forall t :: MovesAt(log, t) == MovesAt(log0, t) + if found && t == r.tag then 1 else 0
    ensures !found ==> ReliefBlocked(w, ActorSet(buffer), r)
  {
    found, buffer, reserved, planned, log := false, buffer0, reserved0, planned0, log0;
    var taken := ActorSet(buffer);
    var worker := SelectWorkerForGasRelief(w, Controlled(w), reserved, taken, r);
    ReliefChoiceMeaning(w, reserved, taken, r, worker);
    if worker.None? {
      return;
    }
    var patch := SelectRecoveryMineralPatch(w, worker.value);
    if patch.None? {
      return;
    }
    found := true;
    buffer, planned, log := PlanRelief(w, GasMove(worker.value, r, patch.value), buffer, planned, base, log);
    reserved := reserved + {worker.value.tag};
    forall t | t != r.tag ensures Spares(w, taken, ActorSet(buffer), t) {
      OneSpares(w, taken, worker.value, t);
    }
  }

  /** Adds the intent that sends a worker of a refinery to a patch. */
  method PlanRelief(w: World, m: GasMove, buffer0: seq<Intent>, planned0: map<Tag, int>, ghost base: seq<Intent>,
                    ghost log0: seq<GasMove>)
    returns (buffer: seq<Intent>, planned: map<Tag, int>, ghost log: seq<GasMove>)
    requires WellFormed(w) && GasState(w, base, log0, Smart, GAS_RELIEF_PRIORITY, buffer0, {}, planned0)
    requires SoundMove(w, Smart, ActorSet(buffer0), m)
    ensures GasState(w, base, log, Smart, GAS_RELIEF_PRIORITY, buffer, {}, planned)
    ensures ActorSet(buffer) == ActorSet(buffer0) + {m.worker.tag}
    ensures forall t :: MovesAt(log, t) == MovesAt(log0, t) + if t == m.refinery.tag then 1 else 0
  {
    var intent := UnitTargetIntent(m.worker.tag, Smart, m.target.tag, GAS_RELIEF_PRIORITY, IntentDomain.Recovery);
    buffer := buffer0 + [intent];
    planned := planned0[m.refinery.tag := At(planned0, m.refinery.tag) + 1];
    log := log0 + [m];
    GasStateNext(w, base, log0, Smart, GAS_RELIEF_PRIORITY, buffer0, {}, planned0, m, intent, buffer, {m.worker.tag},
                 planned);
  }

  /** SelectRecoveryMineralPatchForWorker. */
  method SelectRecoveryMineralPatch(w: World, u: Unit) returns (patch: Option<Unit>)
    requires WellFormed(w)
    ensures patch == RecoveryPatch(w, u)
  {
    var hall := FindNearest(Controlled(w), HallStructure, u.pos);
    if hall.None? {
      return None;
    }
    patch := FindNearest(Neutrals(w), PatchNear(hall.value.pos), hall.value.pos);
  }

  /** The inner loop of the relief pass for one refinery. */
  method RelieveRefinery(w: World, r: Unit, excess: nat, buffer0: seq<Intent>, reserved0: set<Tag>,
                         planned0: map<Tag, int>, ghost base: seq<Intent>, ghost log0: seq<GasMove>)
    returns (buffer: seq<Intent>, reserved: set<Tag>, planned: map<Tag, int>, ghost log: seq<GasMove>)
    requires WellFormed(w) && r in Picked(w.observed, OwnRefineries) && ReadyRefinery(r)
    requires GasState(w, base, log0, Smart, GAS_RELIEF_PRIORITY, buffer0, {}, planned0)
    requires reserved0 <= ActorSet(buffer0)
    ensures GasState(w, base, log, Smart, GAS_RELIEF_PRIORITY, buffer, {}, planned)
    ensures reserved <= ActorSet(buffer)
    ensures ActorSet(buffer0) <= ActorSet(buffer)
    ensures forall t :: t != r.tag ==> Spares(w, ActorSet(buffer0), ActorSet(buffer), t)
    ensures forall t :: t != r.tag ==> MovesAt(log, t) == MovesAt(log0, t)
    ensures MovesAt(log, r.tag) <= MovesAt(log0, r.tag) + excess
    ensures MovesAt(log, r.tag) < MovesAt(log0, r.tag) + excess ==> ReliefBlocked(w, ActorSet(buffer), r)
  {
    buffer, reserved, planned, log := buffer0, reserved0, planned0, log0;
    var k := 0;
    while k < excess
      invariant 0 <= k <= excess
      invariant GasState(w, base, log, Smart, GAS_RELIEF_PRIORITY, buffer, {}, planned)
      invariant reserved <= ActorSet(buffer)
      invariant ActorSet(buffer0) <= ActorSet(buffer)
      invariant forall t :: t != r.tag ==> Spares(w, ActorSet(buffer0), ActorSet(buffer), t)
      invariant forall t :: MovesAt(log, t) == MovesAt(log0, t) + if t == r.tag then k else 0
    {
      var found;
      ghost var taken := ActorSet(buffer);
      found, buffer, reserved, planned, log := ReliefOne(w, r, buffer, reserved, planned, base, log);
      SparesMore(w, ActorSet(buffer0), taken, ActorSet(buffer));
      if !found {
        break;
      }
      k := k + 1;
    }
  }

  /** The second loop of the harvest pass: every ready refinery above its ideal is relieved. */
  method ReliefPass(w: World, refineries: seq<Unit>, reserved0: set<Tag>, fillsPlanned: map<Tag, int>,
                    ghost fills: seq<GasMove>, base: seq<Intent>)
    returns (buffer: seq<Intent>, reserved: set<Tag>, ghost log: seq<GasMove>)
    requires WellFormed(w) && refineries == Picked(w.observed, OwnRefineries)
    requires reserved0 <= ActorSet(base)
    requires forall t :: At(fillsPlanned, t) == MovesAt(fills, t)
    requires forall r :: r in refineries ==> FillWithin(w, fills, r)
    ensures buffer == base + GasIntents(log, Smart, GAS_RELIEF_PRIORITY)
    ensures GoodPlan(w, base, GasIntents(log, Smart, GAS_RELIEF_PRIORITY))
    ensures SoundMoves(w, base, log, Smart, GAS_RELIEF_PRIORITY)
    ensures reserved <= ActorSet(buffer) && ActorSet(base) <= ActorSet(buffer)
    ensures forall r :: r in refineries ==>
      ReliefWithin(w, fills, log, r) && ReliefSettled(w, ActorSet(buffer), fills, log, r)
  {
    var planned: map<Tag, int> := map[];
    buffer, reserved, log := base, reserved0, [];
    var i := 0;
    PickedDistinct(w.observed, OwnRefineries);
    while i < |refineries|
      invariant 0 <= i <= |refineries|
      invariant GasState(w, base, log, Smart, GAS_RELIEF_PRIORITY, buffer, {}, planned)
      invariant reserved <= ActorSet(buffer) && ActorSet(base) <= ActorSet(buffer)
      invariant ReliefProgress(w, ActorSet(buffer), fills, log, refineries, i)
    {
      var r := refineries[i];
      ghost var before, taken := log, ActorSet(buffer);
      if ReadyRefinery(r) {
        var committed := CountCommittedHarvesters(w, Controlled(w), r.tag);
        var effective := (if r.assignedHarvesters > committed then r.assignedHarvesters else committed)
                         + PlannedDelta(fillsPlanned, planned, r.tag);
        var excess := if effective - r.idealHarvesters > 0 then effective - r.idealHarvesters else 0;
        buffer, reserved, planned, log := RelieveRefinery(w, r, excess, buffer, reserved, planned, base, log);
      }
      ReliefProgressNext(w, taken, ActorSet(buffer), fills, before, log, refineries, i);
      i := i + 1;
    }
  }

  /** Before refinery i: those done are settled, those to come are untouched, all are within bounds. */
  ghost predicate FillProgress(w: World, taken: set<Tag>, log: seq<GasMove>, refineries: seq<Unit>, i: nat) {
    forall j :: 0 <= j < |refineries| ==>
      && FillWithin(w, log, refineries[j])
      && if j < i then FillSettled(w, taken, log, refineries[j]) else MovesAt(log, refineries[j].tag) == 0
  }

  lemma {:induction false} FillProgressNext(w: World, taken: set<Tag>, more: set<Tag>, before: seq<GasMove>,
                                            log: seq<GasMove>, refineries: seq<Unit>, i: nat)
    requires Distinct(TagsOf(refineries)) && i < |refineries| && taken <= more
    requires FillProgress(w, taken, before, refineries, i)
    requires forall t :: t != refineries[i].tag ==> MovesAt(log, t) == MovesAt(before, t)
    requires FillWithin(w, log, refineries[i]) && FillSettled(w, more, log, refineries[i])
    ensures FillProgress(w, more, log, refineries, i + 1)
  {
  }

  lemma ReliefChoiceMeaning(w: World, reserved: set<Tag>, taken: set<Tag>, refinery: Unit, choice: Option<Unit>)
    requires FirstNearest(w, reserved + taken, OnRefinery(refinery.tag), refinery.pos, Controlled(w), choice)
    requires reserved <= taken
    ensures choice.None? ==> ReliefBlocked(w, taken, refinery)
    ensures choice.Some? ==> choice.value in Controlled(w) && CommittedRefinery(w, choice.value) == refinery.tag
    ensures choice.Some? && refinery in Picked(w.observed, OwnRefineries) && ReadyRefinery(refinery) ==>
      forall patch :: RecoveryPatch(w, choice.value) == Some(patch) ==>
        SoundRelief(w, taken, GasMove(choice.value, refinery, patch))
    ensures choice.Some? && RecoveryPatch(w, choice.value).None? ==> ReliefBlocked(w, taken, refinery)
  {
    assert reserved + taken == taken;
  }

  ghost predicate ReliefProgress(w: World, taken: set<Tag>, fills: seq<GasMove>, log: seq<GasMove>,
                                 refineries: seq<Unit>, i: nat)
  {
    forall j :: 0 <= j < |refineries| ==>
      && ReliefWithin(w, fills, log, refineries[j])
      && if j < i then ReliefSettled(w, taken, fills, log, refineries[j]) else MovesAt(log, refineries[j].tag) == 0
  }

  lemma {:induction false} ReliefProgressNext(w: World, taken: set<Tag>, more: set<Tag>, fills: seq<GasMove>,
                                              before: seq<GasMove>, log: seq<GasMove>, refineries: seq<Unit>, i: nat)
    requires Distinct(TagsOf(refineries)) && i < |refineries|
    requires forall t :: t != refineries[i].tag ==> Spares(w, taken, more, t)
    requires ReliefProgress(w, taken, fills, before, refineries, i)
    requires forall t :: t != refineries[i].tag ==> MovesAt(log, t) == MovesAt(before, t)
    requires ReliefWithin(w, fills, log, refineries[i]) && ReliefSettled(w, more, fills, log, refineries[i])
    ensures ReliefProgress(w, more, fills, log, refineries, i + 1)
  {
    var tags := TagsOf(refineries);
    forall j | 0 <= j < |refineries| && j != i
      ensures ReliefWithin(w, fills, log, refineries[j])
      ensures if j < i then ReliefSettled(w, more, fills, log, refineries[j]) else MovesAt(log, refineries[j].tag) == 0
    {
      assert tags[j] != tags[i];
      assert ReliefWithin(w, fills, before, refineries[j]);
      if j < i {
        assert ReliefSettled(w, taken, fills, before, refineries[j]);
        if ReliefBlocked(w, taken, refineries[j]) {
          ReliefStaysBlocked(w, taken, more, refineries[j]);
        }
      }
    }
  }

  /** The worker belongs to the source and the patch to the receiver of the transfer. */
  ghost predicate SoundTransfer(w: World, halls: seq<Unit>, t: Transfer) {
    && t.worker in Controlled(w) && !IsCommittedToRefinery(w, t.worker)
    && MineralHall(w, t.worker, halls) == Some(t.source)
    && HallPatch(w, t.receiver) == Some(t.patch)
  }

  /** Mineral transfers take no worker of any refinery. */
  lemma {:induction false} TransfersSpare(w: World, halls: seq<Unit>, base: seq<Intent>, log: seq<Transfer>,
                                          refinery: Tag)
    requires WellFormed(w) && refinery != NULL_TAG && forall t :: t in log ==> SoundTransfer(w, halls, t)
    ensures Spares(w, ActorSet(base), ActorSet(base + TransferIntents(log)), refinery)
  {
    if log == [] {
      assert base + TransferIntents(log) == base;
    } else {
      var n := |log| - 1;
      var before, t := base + TransferIntents(log[..n]), log[n];
      assert t in log;
      TransfersSpare(w, halls, base, log[..n], refinery);
      OneSpares(w, ActorSet(before), t.worker, refinery);
      assert base + TransferIntents(log) == before + [TransferIntents(log)[n]];
      ActorSetOfSum(before, [TransferIntents(log)[n]]);
      assert ActorSet(base + TransferIntents(log)) == ActorSet(before) + {t.worker.tag};
      SparesMore(w, ActorSet(base), ActorSet(before), ActorSet(base + TransferIntents(log)));
    }
  }

  /** The variables of the rebalance loop. */
  datatype Draft = Draft(buffer: seq<Intent>, reserved: set<Tag>, inbound: map<Tag, int>, outbound: map<Tag, int>,
                         count: nat)

  /** The bookkeeping the loop does for one transfer. */
  function Record(d: Draft, t: Transfer): Draft {
    Draft(d.buffer + [UnitTargetIntent(t.worker.tag, Smart, t.patch.tag, MINERAL_REBALANCE_PRIORITY,
                                       IntentDomain.Recovery)],
          d.reserved + {t.worker.tag},
          d.inbound[t.receiver.tag := At(d.inbound, t.receiver.tag) + 1],
          d.outbound[t.source.tag := At(d.outbound, t.source.tag) + 1],
          d.count + 1)
  }

  ghost predicate PlannedByLog(inbound: map<Tag, int>, outbound: map<Tag, int>, log: seq<Transfer>) {
    forall t :: PlannedDelta(inbound, outbound, t) == Moved(log, t)
  }

  /** Every variable of the rebalance loop follows the log of transfers. */
  ghost predicate RebalanceBook(w: World, halls: seq<Unit>, base: seq<Intent>, log: seq<Transfer>, d: Draft) {
    && LegalLog(halls, log)
    && (forall t :: t in log ==> SoundTransfer(w, halls, t))
    && d.buffer == base + TransferIntents(log) && GoodPlan(w, base, TransferIntents(log))
    && d.reserved <= ActorSet(d.buffer)
    && PlannedByLog(d.inbound, d.outbound, log)
    && d.count == |log|
  }

  /** They do, and every transfer was the best when it was made. */
  ghost predicate RebalanceState(w: World, halls: seq<Unit>, base: seq<Intent>, log: seq<Transfer>, d: Draft) {
    RebalanceBook(w, halls, base, log, d) && BestTransfers(w, halls, base, log)
  }

  lemma PlannedByLogNext(d: Draft, log: seq<Transfer>, t: Transfer)
    requires PlannedByLog(d.inbound, d.outbound, log)
    ensures PlannedByLog(Record(d, t).inbound, Record(d, t).outbound, log + [t])
  {
  }

  lemma RebalanceBookNext(w: World, halls: seq<Unit>, base: seq<Intent>, log: seq<Transfer>, d: Draft, t: Transfer)
    requires WellFormed(w) && RebalanceBook(w, halls, base, log, d)
    requires Legal(halls, log, t) && SoundTransfer(w, halls, t) && t.worker.tag !in ActorSet(d.buffer)
    ensures RebalanceBook(w, halls, base, log + [t], Record(d, t))
    ensures ActorSet(Record(d, t).buffer) == ActorSet(d.buffer) + {t.worker.tag}
  {
    var i := UnitTargetIntent(t.worker.tag, Smart, t.patch.tag, MINERAL_REBALANCE_PRIORITY, IntentDomain.Recovery);
    TransferLogNext(log, t);
    LegalLogExtends(halls, log, t);
    GoodPlanNext(w, base, TransferIntents(log), i);
    PlannedByLogNext(d, log, t);
  }

  lemma RebalanceStateNext(w: World, halls: seq<Unit>, base: seq<Intent>, log: seq<Transfer>, d: Draft, t: Transfer)
    requires WellFormed(w) && RebalanceState(w, halls, base, log, d)
    requires Legal(halls, log, t) && SoundTransfer(w, halls, t) && BestTransfer(w, ActorSet(d.buffer), halls, log, t)
    ensures RebalanceState(w, halls, base, log + [t], Record(d, t))
    ensures ActorSet(Record(d, t).buffer) == ActorSet(d.buffer) + {t.worker.tag}
  {
    RebalanceBookNext(w, halls, base, log, d, t);
    BestTransfersNext(w, halls, base, log, t);
  }

  /** The worker the selector returns makes a legal transfer; without one the hall is settled. */
  lemma RebalanceChoiceMeaning(plan: Plan, reserved: set<Tag>, withIntent: set<Tag>, log: seq<Transfer>,
                               receiver: Unit, choice: Option<Unit>)
    requires plan.taken == reserved + withIntent && reserved <= withIntent
    requires receiver in plan.halls && Effective(receiver, log) < receiver.idealHarvesters
    requires FirstPreferred(plan, receiver, Controlled(plan.w), choice)
    requires PlannedByLog(plan.inbound, plan.outbound, log)
    ensures choice.None? ==> HallSettled(plan.w, withIntent, plan.halls, log, receiver)
    ensures choice.Some? ==>
      && choice.value in Controlled(plan.w) && choice.value.tag !in withIntent
      && !IsCommittedToRefinery(plan.w, choice.value)
      && var source := MineralHall(plan.w, choice.value, plan.halls);
         source.Some?
         && forall patch ::
              && Legal(plan.halls, log, Transfer(choice.value, source.value, receiver, patch))
              && BestTransfer(plan.w, withIntent, plan.halls, log,
                              Transfer(choice.value, source.value, receiver, patch))
  {
  }

  /** One round of the rebalance loop for one receiver. */
  method RebalanceOne(w: World, halls: seq<Unit>, receiver: Unit, d: Draft, ghost base: seq<Intent>,
                      ghost log: seq<Transfer>)
    returns (found: Option<Transfer>)
    requires WellFormed(w) && receiver in halls && Effective(receiver, log) < receiver.idealHarvesters
    requires RebalanceState(w, halls, base, log, d)
    ensures found.None? ==> HallSettled(w, ActorSet(d.buffer), halls, log, receiver)
    ensures found.Some? ==>
      && Legal(halls, log, found.value) && found.value.receiver == receiver
      && SoundTransfer(w, halls, found.value) && BestTransfer(w, ActorSet(d.buffer), halls, log, found.value)
  {
    var withIntent := ActorSet(d.buffer);
    var plan := Plan(w, d.reserved + withIntent, halls, d.inbound, d.outbound);
    var worker := SelectWorkerForMineralRebalance(plan, Controlled(w), d.reserved, withIntent, receiver);
    RebalanceChoiceMeaning(plan, d.reserved, withIntent, log, receiver, worker);
    if worker.None? {
      return None;
    }
    var source := MineralHall(w, worker.value, halls);
    var patch := FindNearest(Neutrals(w), PatchNear(receiver.pos), receiver.pos);
    if source.None? || patch.None? {
      return None;
    }
    found := Some(Transfer(worker.value, source.value, receiver, patch.value));
  }

  ghost predicate HallsSettledTo(w: World, taken: set<Tag>, halls: seq<Unit>, log: seq<Transfer>, i: nat)
    requires i <= |halls|
  {
    forall j :: 0 <= j < i ==> HallSettled(w, taken, halls, log, halls[j])
  }

  lemma HallsStaySettled(w: World, taken: set<Tag>, more: set<Tag>, halls: seq<Unit>, log: seq<Transfer>, t: Transfer,
                         i: nat)
    requires Distinct(TagsOf(halls)) && Legal(halls, log, t) && i <= |halls|
    requires HallsSettledTo(w, taken, halls, log, i) && taken <= more
    ensures HallsSettledTo(w, more, halls, log + [t], i)
  {
    forall j | 0 <= j < i
      ensures HallSettled(w, more, halls, log + [t], halls[j])
    {
      HallStaysSettled(w, taken, more, halls, log, t, halls[j]);
    }
  }

  /** The rebalance loop has reached hall i: the budget holds and the halls before i are settled. */
  ghost predicate InRound(w: World, halls: seq<Unit>, i: nat, base: seq<Intent>, log: seq<Transfer>, d: Draft)
    requires i <= |halls|
  {
    && RebalanceState(w, halls, base, log, d) && d.count <= MAX_REBALANCE_INTENTS
    && HallsSettledTo(w, ActorSet(d.buffer), halls, log, i)
  }

  lemma InRoundNext(w: World, halls: seq<Unit>, i: nat, base: seq<Intent>, log: seq<Transfer>, d: Draft, t: Transfer)
    requires WellFormed(w) && Distinct(TagsOf(halls)) && i <= |halls| && InRound(w, halls, i, base, log, d)
    requires Legal(halls, log, t) && SoundTransfer(w, halls, t) && BestTransfer(w, ActorSet(d.buffer), halls, log, t)
    requires d.count < MAX_REBALANCE_INTENTS
    ensures InRound(w, halls, i, base, log + [t], Record(d, t))
    ensures Effective(t.receiver, log + [t]) == Effective(t.receiver, log) + 1
  {
    RebalanceStateNext(w, halls, base, log, d, t);
    HallsStaySettled(w, ActorSet(d.buffer), ActorSet(Record(d, t).buffer), halls, log, t, i);
    MovedByOne(log, t, t.receiver.tag);
  }

  /** The inner loop of the rebalance pass: calls workers to hall i until it has its ideal, nobody is
      left to call, or the step's budget of intents is used up. */
  method RebalanceInto(w: World, halls: seq<Unit>, i: nat, d0: Draft, ghost base: seq<Intent>,
                       ghost log0: seq<Transfer>)
    returns (full: bool, d: Draft, ghost log: seq<Transfer>)
    requires WellFormed(w) && i < |halls| && Distinct(TagsOf(halls))
    requires InRound(w, halls, i, base, log0, d0)
    ensures InRound(w, halls, i, base, log, d)
    ensures if full then d.count == MAX_REBALANCE_INTENTS else InRound(w, halls, i + 1, base, log, d)
  {
    var missing := MissingWorkers(halls[i], d0, log0);
    if missing == 0 {
      return false, d0, log0;
    }
    full, d, log := CallWorkers(w, halls, i, missing, d0, base, log0);
  }

  method CallWorkers(w: World, halls: seq<Unit>, i: nat, missing: nat, d0: Draft, ghost base: seq<Intent>,
                     ghost log0: seq<Transfer>)
    returns (full: bool, d: Draft, ghost log: seq<Transfer>)
    requires WellFormed(w) && i < |halls| && Distinct(TagsOf(halls))
    requires InRound(w, halls, i, base, log0, d0)
    requires Effective(halls[i], log0) + missing == halls[i].idealHarvesters
    ensures InRound(w, halls, i, base, log, d)
    ensures if full then d.count == MAX_REBALANCE_INTENTS else InRound(w, halls, i + 1, base, log, d)
  {
    full, d, log := false, d0, log0;
    var k := 0;
    while k < missing
      invariant 0 <= k <= missing
      invariant InRound(w, halls, i, base, log, d)
      invariant Effective(halls[i], log) + missing == halls[i].idealHarvesters + k
    {
      if d.count >= MAX_REBALANCE_INTENTS {
        full := true;
        return;
      }
      var found;
      found, d, log := RebalanceRound(w, halls, i, d, base, log);
      if !found {
        return;
      }
      k := k + 1;
    }
  }

  /** One round of that loop: the chosen transfer, if any, is recorded. */
  method RebalanceRound(w: World, halls: seq<Unit>, i: nat, d0: Draft, ghost base: seq<Intent>,
                        ghost log0: seq<Transfer>)
    returns (found: bool, d: Draft, ghost log: seq<Transfer>)
    requires WellFormed(w) && i < |halls| && Distinct(TagsOf(halls))
    requires InRound(w, halls, i, base, log0, d0) && d0.count < MAX_REBALANCE_INTENTS
    requires Effective(halls[i], log0) < halls[i].idealHarvesters
    ensures InRound(w, halls, i, base, log, d)
    ensures found ==> Effective(halls[i], log) == Effective(halls[i], log0) + 1
    ensures !found ==> InRound(w, halls, i + 1, base, log, d)
  {
    d, log := d0, log0;
    var transfer := RebalanceOne(w, halls, halls[i], d, base, log);
    found := transfer.Some?;
    if found {
      InRoundNext(w, halls, i, base, log, d, transfer.value);
      d, log := Record(d, transfer.value), log + [transfer.value];
    }
  }

  /** How many workers a hall is short of. */
  method MissingWorkers(receiver: Unit, d: Draft, ghost log: seq<Transfer>) returns (missing: nat)
    requires PlannedByLog(d.inbound, d.outbound, log)
    ensures missing == if Effective(receiver, log) < receiver.idealHarvesters
                       then receiver.idealHarvesters - Effective(receiver, log) else 0
  {
    var effective := (if receiver.assignedHarvesters > 0 then receiver.assignedHarvesters else 0)
                     + PlannedDelta(d.inbound, d.outbound, receiver.tag);
    missing := if receiver.idealHarvesters - effective > 0 then receiver.idealHarvesters - effective else 0;
  }

  /** ProduceWorkerMineralRebalanceIntents: at most eight transfers, and fewer only when every ready
      hall is settled. */
  method RebalancePass(w: World, base: seq<Intent>, reserved: set<Tag>)
    returns (buffer: seq<Intent>, ghost log: seq<Transfer>)
    requires WellFormed(w) && reserved <= ActorSet(base)
    ensures base <= buffer && |buffer| <= |base| + MAX_REBALANCE_INTENTS
    ensures var halls := Picked(w.observed, OwnReadyHalls);
      && LegalLog(halls, log) && (forall t :: t in log ==> SoundTransfer(w, halls, t))
      && |log| <= MAX_REBALANCE_INTENTS
      && (|log| < MAX_REBALANCE_INTENTS ==>
            forall r :: r in halls ==> HallSettled(w, ActorSet(buffer), halls, log, r))
    ensures buffer == base + TransferIntents(log)
    ensures GoodPlan(w, base, TransferIntents(log))
    ensures BestTransfers(w, Picked(w.observed, OwnReadyHalls), base, log)
  {
    var halls := Picked(w.observed, OwnReadyHalls);
    PickedDistinct(w.observed, OwnReadyHalls);
    buffer, log := base, [];
    if |halls| < 2 {
      forall r | r in halls
        ensures HallSettled(w, ActorSet(buffer), halls, log, r)
      {
        FewHallsSettled(w, ActorSet(buffer), halls, r);
      }
      return;
    }
    var d := Draft(base, reserved, map[], map[], 0);
    var i := 0;
    while i < |halls|
      invariant 0 <= i <= |halls| && InRound(w, halls, i, base, log, d)
    {
      var full;
      full, d, log := RebalanceInto(w, halls, i, d, base, log);
      buffer := d.buffer;
      if full {
        return;
      }
      i := i + 1;
    }
    buffer := d.buffer;
  }
}
