/** The part of TerranAgent::OnStep from the harvest pass to the resolved intents. */
module TerranBot {
  import opened GameTypes
  import opened UnitContainer
  import opened WorkerSelection
  import opened HarvesterLedger
  import opened IntentArbiter
  import opened HarvestPlan
  import opened WorkerAllocator

  /** The intents of one harvest pass: fills, then reliefs, then mineral transfers. */
  function PlannedIntents(fills: seq<GasMove>, reliefs: seq<GasMove>, log: seq<Transfer>): seq<Intent> {
    GasIntents(fills, HarvestGather, GAS_HARVEST_PRIORITY) + GasIntents(reliefs, Smart, GAS_RELIEF_PRIORITY)
    + TransferIntents(log)
  }

  /** Every move of the pass was sound when it was made. */
  ghost predicate MovesSound(w: World, base: seq<Intent>, fills: seq<GasMove>, reliefs: seq<GasMove>,
                             log: seq<Transfer>)
  {
    var filled := base + GasIntents(fills, HarvestGather, GAS_HARVEST_PRIORITY);
    var relieved := filled + GasIntents(reliefs, Smart, GAS_RELIEF_PRIORITY);
    && SoundMoves(w, base, fills, HarvestGather, GAS_HARVEST_PRIORITY)
    && SoundMoves(w, filled, reliefs, Smart, GAS_RELIEF_PRIORITY)
    && BestTransfers(w, Picked(w.observed, OwnReadyHalls), relieved, log)
  }

  /** The intent orders a worker to a target. */
  predicate Orders(i: Intent, worker: Unit, ability: Ability, target: Unit) {
    i.actor == worker.tag && i.ability == ability && i.kind == UnitTarget && i.targetTag == target.tag && !i.queued
  }

  /** The planned intents, position by position: a fill gathers from its refinery, ... */
  lemma FillOrdered(fills: seq<GasMove>, reliefs: seq<GasMove>, log: seq<Transfer>, k: nat)
    requires k < |fills|
    ensures var plan := PlannedIntents(fills, reliefs, log);
      k < |plan| && Orders(plan[k], fills[k].worker, HarvestGather, fills[k].target)
  {
    GasIntentAt(fills, HarvestGather, GAS_HARVEST_PRIORITY, k);
  }

  /** ... a relief goes to its patch, ... */
  lemma ReliefOrdered(fills: seq<GasMove>, reliefs: seq<GasMove>, log: seq<Transfer>, k: nat)
    requires k < |reliefs|
    ensures var plan, n := PlannedIntents(fills, reliefs, log), |fills| + k;
      n < |plan| && Orders(plan[n], reliefs[k].worker, Smart, reliefs[k].target)
  {
    GasIntentCount(fills, HarvestGather, GAS_HARVEST_PRIORITY);
    GasIntentAt(reliefs, Smart, GAS_RELIEF_PRIORITY, k);
  }

  /** ... and a transfer to its own. */
  lemma TransferOrdered(fills: seq<GasMove>, reliefs: seq<GasMove>, log: seq<Transfer>, k: nat)
    requires k < |log|
    ensures var plan, n := PlannedIntents(fills, reliefs, log), |fills| + |reliefs| + k;
      |plan| == |fills| + |reliefs| + |log| && Orders(plan[n], log[k].worker, Smart, log[k].patch)
  {
    GasIntentCount(fills, HarvestGather, GAS_HARVEST_PRIORITY);
    GasIntentCount(reliefs, Smart, GAS_RELIEF_PRIORITY);
    TransferIntentAt(log, k);
  }

  /** Within its bounds, and stopped only where the pass may stop. */
  ghost predicate RefineryOutcome(w: World, taken: set<Tag>, fills: seq<GasMove>, reliefs: seq<GasMove>, r: Unit) {
    && FillWithin(w, fills, r) && FillSettled(w, taken, fills, r)
    && ReliefWithin(w, fills, reliefs, r) && ReliefSettled(w, taken, fills, reliefs, r)
  }

  ghost predicate GasOutcome(w: World, taken: set<Tag>, fills: seq<GasMove>, reliefs: seq<GasMove>) {
    forall r :: r in Picked(w.observed, OwnRefineries) ==> RefineryOutcome(w, taken, fills, reliefs, r)
  }

  ghost predicate RebalanceOutcome(w: World, taken: set<Tag>, log: seq<Transfer>) {
    var halls := Picked(w.observed, OwnReadyHalls);
    && LegalLog(halls, log) && (forall t :: t in log ==> SoundTransfer(w, halls, t))
    && |log| <= MAX_REBALANCE_INTENTS
    && (|log| < MAX_REBALANCE_INTENTS ==> forall r :: r in halls ==> HallSettled(w, taken, halls, log, r))
  }

  lemma FillStaysSettled(w: World, taken: set<Tag>, more: set<Tag>, fills: seq<GasMove>, r: Unit)
    requires FillSettled(w, taken, fills, r) && taken <= more
    ensures FillSettled(w, more, fills, r)
  {
  }

  lemma ReliefStaysSettled(w: World, taken: set<Tag>, more: set<Tag>, fills: seq<GasMove>, reliefs: seq<GasMove>,
                           r: Unit)
    requires ReliefSettled(w, taken, fills, reliefs, r) && Spares(w, taken, more, r.tag)
    ensures ReliefSettled(w, more, fills, reliefs, r)
  {
    if ReliefBlocked(w, taken, r) {
      ReliefStaysBlocked(w, taken, more, r);
    }
  }

  /** After a pass every refinery lies between its count before and its ideal, and none was both
      filled and relieved. */
  lemma {:induction false} GasNeverOvershoots(w: World, taken: set<Tag>, fills: seq<GasMove>, reliefs: seq<GasMove>,
                                              r: Unit)
    requires GasOutcome(w, taken, fills, reliefs) && r in Picked(w.observed, OwnRefineries)
    ensures MovesAt(fills, r.tag) == 0 || MovesAt(reliefs, r.tag) == 0
    ensures var before, after := GasBase(w, r), GasBase(w, r) + MovesAt(fills, r.tag) - MovesAt(reliefs, r.tag);
      && (before < r.idealHarvesters ==> before <= after <= r.idealHarvesters)
      && (before >= r.idealHarvesters ==> r.idealHarvesters <= after <= before)
  {
  }

  /** After a pass no hall has been taken past its ideal, none both gave and got, no harvester has come or
      gone, and every transfer has brought the halls closer to their ideals by two. */
  lemma {:induction false} RebalanceKeepsBalance(w: World, taken: set<Tag>, log: seq<Transfer>)
    requires WellFormed(w) && RebalanceOutcome(w, taken, log)
    ensures var halls := Picked(w.observed, OwnReadyHalls);
      && (forall h :: h in halls ==>
            && (Assigned(h) >= h.idealHarvesters ==> h.idealHarvesters <= Effective(h, log) <= Assigned(h))
            && (Assigned(h) <= h.idealHarvesters ==> Assigned(h) <= Effective(h, log) <= h.idealHarvesters))
      && (forall k, l :: 0 <= k < |log| && 0 <= l < |log| ==> log[k].source.tag != log[l].receiver.tag)
      && TotalEffective(halls, log) == TotalEffective(halls, [])
      && Imbalance(halls, log) == Imbalance(halls, []) - 2 * |log|
  {
    var halls := Picked(w.observed, OwnReadyHalls);
    PickedDistinct(w.observed, OwnReadyHalls);
    forall h | h in halls
      ensures Assigned(h) >= h.idealHarvesters ==> h.idealHarvesters <= Effective(h, log) <= Assigned(h)
      ensures Assigned(h) <= h.idealHarvesters ==> Assigned(h) <= Effective(h, log) <= h.idealHarvesters
    {
      NoOvershoot(halls, log, h);
    }
    forall k, l | 0 <= k < |log| && 0 <= l < |log| ensures log[k].source.tag != log[l].receiver.tag {
      NeverBoth(halls, log, k, l);
    }
    Conservation(halls, log);
    ImbalanceOfLog(halls, log);
  }

  /** What a harvest pass adds to a buffer: sound moves that leave refineries and halls settled. */
  ghost predicate HarvestSound(w: World, base: seq<Intent>, fills: seq<GasMove>, reliefs: seq<GasMove>,
                                 log: seq<Transfer>)
  {
    var taken := ActorSet(base + PlannedIntents(fills, reliefs, log));
    && MovesSound(w, base, fills, reliefs, log)
    && GasOutcome(w, taken, fills, reliefs) && RebalanceOutcome(w, taken, log)
  }

  /** ProduceWorkerHarvestIntents on the buffer as it stands. */
  method HarvestPass(w: World, base: seq<Intent>)
    returns (buffer: seq<Intent>, ghost fills: seq<GasMove>, ghost reliefs: seq<GasMove>, ghost log: seq<Transfer>)
    requires WellFormed(w)
    ensures base <= buffer && GoodPlan(w, base, buffer[|base|..])
    ensures buffer == base + PlannedIntents(fills, reliefs, log)
    ensures GoodPlan(w, base, PlannedIntents(fills, reliefs, log))
    ensures HarvestSound(w, base, fills, reliefs, log)
  {
    var refineries := Picked(w.observed, OwnRefineries);
    var reserved, planned;
    var filled, relieved;
    filled, reserved, planned, fills := FillPass(w, refineries, base);
    relieved, reserved, reliefs := ReliefPass(w, refineries, reserved, planned, fills, filled);
    buffer, log := RebalancePass(w, relieved, reserved);
    ghost var f := GasIntents(fills, HarvestGather, GAS_HARVEST_PRIORITY);
    ghost var r := GasIntents(reliefs, Smart, GAS_RELIEF_PRIORITY);
    ComposePlans(w, base, f, r, TransferIntents(log));
    forall refinery | refinery in refineries
      ensures FillSettled(w, ActorSet(buffer), fills, refinery)
      ensures ReliefSettled(w, ActorSet(buffer), fills, reliefs, refinery)
    {
      FillStaysSettled(w, ActorSet(filled), ActorSet(buffer), fills, refinery);
      TransfersSpare(w, Picked(w.observed, OwnReadyHalls), relieved, log, refinery.tag);
      ReliefStaysSettled(w, ActorSet(relieved), ActorSet(buffer), fills, reliefs, refinery);
    }
  }

  lemma ComposePlans(w: World, base: seq<Intent>, a: seq<Intent>, b: seq<Intent>, c: seq<Intent>)
    requires GoodPlan(w, base, a) && GoodPlan(w, base + a, b) && GoodPlan(w, base + a + b, c)
    ensures GoodPlan(w, base, a + b + c)
    ensures base + a + b + c == base + (a + b + c)
    ensures ActorSet(base + a) <= ActorSet(base + a + b) <= ActorSet(base + a + b + c)
  {
  }

  /** An own worker without orders that has a patch to return to. */
  predicate Recoverable(w: World, t: Tag) {
    var u := LastWithTag(Controlled(w), t);
    u.Some? && u.value.orders == [] && RecoveryPatch(w, u.value).Some?
  }

  lemma RecoverableIff(w: World, t: Tag)
    requires WellFormed(w)
    ensures Recoverable(w, t) <==>
      exists u :: u in w.observed && u.alliance == Self && u.tag == t && u.orders == [] && RecoveryPatch(w, u).Some?
  {
    if u :| u in w.observed && u.alliance == Self && u.tag == t && u.orders == [] && RecoveryPatch(w, u).Some? {
      OwnUnitFound(w, u);
    }
  }

  lemma OwnUnitFound(w: World, u: Unit)
    requires WellFormed(w) && u in w.observed && u.alliance == Self
    ensures LastWithTag(Controlled(w), u.tag) == Some(u)
  {
    var units := Controlled(w);
    PickedDistinct(w.observed, OfAlliance(Self));
    var tags := TagsOf(units);
    var i :| 0 <= i < |units| && units[i] == u;
    forall j | i < j < |units| ensures units[j].tag != u.tag {
      assert tags[i] != tags[j];
    }
    LastWithTagAt(units, u.tag, i);
  }

  /** The candidates that get a recovery intent: recoverable and without an intent so far. */
  ghost function RecoveryActors(w: World, candidates: set<Tag>, withIntent: set<Tag>): set<Tag> {
    set t | t in candidates && t !in withIntent && Recoverable(w, t)
  }

  /** The intent sends an own unit without orders to a patch near the town hall nearest to it. */
  ghost predicate Recovers(w: World, i: Intent) {
    exists u, patch ::
      && u in Controlled(w) && u.orders == [] && RecoveryPatch(w, u) == Some(patch)
      && Orders(i, u, Smart, patch)
  }

  ghost predicate AllRecover(w: World, intents: seq<Intent>) {
    forall i :: i in intents ==> Recovers(w, i)
  }

  ghost function IdleWorkerTags(w: World): set<Tag> {
    set u | u in Controlled(w) && u.unitType.Scv? && u.orders == [] :: u.tag
  }

  function RecoveryIntent(t: Tag, patch: Unit): Intent {
    UnitTargetIntent(t, Smart, patch.tag, RECOVERY_PRIORITY, IntentDomain.Recovery)
  }

  class TerranAgent {
    const container: TerranUnitContainer
    var neutralUnits: seq<Unit>
    var intentBuffer: seq<Intent>
    var pendingRecoveryWorkers: set<Tag>

    constructor ()
      ensures intentBuffer == [] && pendingRecoveryWorkers == {} && neutralUnits == []
      ensures fresh(container) && container.Valid()
    {
      container := new TerranUnitContainer();
      neutralUnits, intentBuffer, pendingRecoveryWorkers := [], [], {};
    }

    /** The agent has loaded the observation: own units in the container, neutral units aside. */
    ghost predicate Sees(w: World)
      reads this, container
    {
      && WellFormed(w)
      && container.Valid() && container.controlledUnits == Controlled(w)
      && neutralUnits == Neutrals(w)
    }

    /** UpdateAgentState. */
    method UpdateAgentState(w: World)
      requires WellFormed(w)
      modifies this`neutralUnits, container
      ensures Sees(w)
    {
      neutralUnits := Neutrals(w);
      container.SetUnits(Controlled(w));
    }

    /** OnUnitIdle: an idle worker is remembered for the next recovery pass. */
    method OnUnitIdle(u: Option<Unit>)
      modifies this`pendingRecoveryWorkers
      ensures pendingRecoveryWorkers
        == old(pendingRecoveryWorkers) + if u.Some? && u.value.unitType.Scv? then {u.value.tag} else {}
    {
      if u.Some? && u.value.unitType.Scv? {
        pendingRecoveryWorkers := pendingRecoveryWorkers + {u.value.tag};
      }
    }

    method ProduceWorkerHarvestIntents(w: World)
      returns (ghost fills: seq<GasMove>, ghost reliefs: seq<GasMove>, ghost log: seq<Transfer>)
      requires Sees(w)
      modifies this`intentBuffer
      ensures intentBuffer == old(intentBuffer) + PlannedIntents(fills, reliefs, log)
      ensures GoodPlan(w, old(intentBuffer), PlannedIntents(fills, reliefs, log))
      ensures HarvestSound(w, old(intentBuffer), fills, reliefs, log)
    {
      var buffer;
      buffer, fills, reliefs, log := HarvestPass(w, intentBuffer);
      intentBuffer := buffer;
    }

    /** Every pending or idle worker that still has no intent and can be recovered gets one. */
    method ProduceRecoveryIntents(w: World) returns (ghost added: seq<Intent>)
      requires Sees(w)
      modifies this`intentBuffer, this`pendingRecoveryWorkers, container`filteredUnits, container`selectedUnits
      ensures Sees(w) && pendingRecoveryWorkers == {}
      ensures intentBuffer == old(intentBuffer) + added && GoodPlan(w, old(intentBuffer), added)
      ensures AllRecover(w, added)
      ensures ActorSet(added)
        == RecoveryActors(w, old(pendingRecoveryWorkers) + IdleWorkerTags(w), ActorSet(old(intentBuffer)))
    {
      var candidates := pendingRecoveryWorkers;
      pendingRecoveryWorkers := {};
      container.GetWorkers();
      var idle := IdleTags(container.selectedUnits);
      IdleTagsOfWorkers(w, container.selectedUnits);
      candidates := candidates + idle;
      intentBuffer, added := RecoverAll(w, intentBuffer, candidates);
    }

    /** The two passes that plan for the workers. */
    method PlanStep(w: World)
      returns (ghost fills: seq<GasMove>, ghost reliefs: seq<GasMove>, ghost log: seq<Transfer>,
               ghost recovery: seq<Intent>)
      requires Sees(w)
      modifies this`intentBuffer, this`pendingRecoveryWorkers, container`filteredUnits, container`selectedUnits
      ensures Sees(w)
      ensures intentBuffer == old(intentBuffer) + PlannedIntents(fills, reliefs, log) + recovery
      ensures GoodPlan(w, old(intentBuffer), PlannedIntents(fills, reliefs, log) + recovery)
      ensures HarvestSound(w, old(intentBuffer), fills, reliefs, log) && AllRecover(w, recovery)
    {
      ghost var base := intentBuffer;
      fills, reliefs, log := ProduceWorkerHarvestIntents(w);
      recovery := ProduceRecoveryIntents(w);
      GoodPlanCompose(w, base, PlannedIntents(fills, reliefs, log), recovery);
    }

    /** The tail of OnStep: harvest, recover, resolve.  Whatever the earlier producers left in the
        buffer, every intent planned here is executed exactly as planned. */
    method ResolveStep(w: World, frame: Frame)
      returns (resolved: seq<Intent>, ghost fills: seq<GasMove>, ghost reliefs: seq<GasMove>,
               ghost log: seq<Transfer>, ghost recovery: seq<Intent>)
      requires Sees(w) && FrameOf(w, frame)
      modifies this`intentBuffer, this`pendingRecoveryWorkers, container`filteredUnits, container`selectedUnits
      ensures intentBuffer == old(intentBuffer) + PlannedIntents(fills, reliefs, log) + recovery
      ensures HarvestSound(w, old(intentBuffer), fills, reliefs, log) && AllRecover(w, recovery)
      ensures resolved == Resolved(frame, Controlled(w), intentBuffer)
      ensures Executed(resolved, PlannedIntents(fills, reliefs, log) + recovery)
    {
      ghost var base := intentBuffer;
      fills, reliefs, log, recovery := PlanStep(w);
      resolved := Resolve(frame, container, intentBuffer);
      StepExecuted(w, frame, base, PlannedIntents(fills, reliefs, log), recovery);
    }
  }

  /** The resolved list holds every planned intent unchanged, and one intent per actor at most. */
  ghost predicate Executed(resolved: seq<Intent>, planned: seq<Intent>) {
    Distinct(ActorsOf(resolved)) && forall i :: i in planned ==> i in resolved
  }

  lemma StepExecuted(w: World, frame: Frame, base: seq<Intent>, planned: seq<Intent>, recovery: seq<Intent>)
    requires WellFormed(w) && FrameOf(w, frame)
    requires GoodPlan(w, base, planned + recovery)
    ensures Executed(Resolved(frame, Controlled(w), base + planned + recovery), planned + recovery)
  {
    assert base + planned + recovery == base + (planned + recovery);
    PlanExecuted(w, frame, base, planned + recovery);
  }

  lemma PlanExecuted(w: World, frame: Frame, base: seq<Intent>, added: seq<Intent>)
    requires WellFormed(w) && FrameOf(w, frame) && GoodPlan(w, base, added)
    ensures Executed(Resolved(frame, Controlled(w), base + added), added)
  {
    OneIntentPerActor(frame, Controlled(w), base + added);
    forall i | i in added ensures i in Resolved(frame, Controlled(w), base + added) {
      var k :| 0 <= k < |added| && added[k] == i;
      PlanSurvives(w, frame, base, added, k);
    }
  }

  /** The tags of the listed units that have no orders. */
  method IdleTags(units: seq<Unit>) returns (tags: set<Tag>)
    ensures tags == set u | u in units && u.orders == [] :: u.tag
  {
    tags := {};
    var i := 0;
    while i < |units|
      invariant 0 <= i <= |units|
      invariant tags == set u | u in units[..i] && u.orders == [] :: u.tag
    {
      assert units[..i + 1] == units[..i] + [units[i]];
      if units[i].orders == [] {
        tags := tags + {units[i].tag};
      }
      i := i + 1;
    }
    assert units[..i] == units;
  }

  lemma IdleTagsOfWorkers(w: World, workers: seq<Unit>)
    requires workers == KeptBy(Controlled(w), [WorkerOnly])
    ensures (set u | u in workers && u.orders == [] :: u.tag) == IdleWorkerTags(w)
  {
    forall u: Unit
      ensures u in workers <==> u in Controlled(w) && u.unitType.Scv?
    {
      KeptByMeaning(Controlled(w), [WorkerOnly], u);
      assert KeptByAll([WorkerOnly], u) == Keeps(WorkerOnly, u) by {
        assert [WorkerOnly][0] == WorkerOnly;
      }
      assert u in workers <==> multiset(workers)[u] > 0;
      assert u in Controlled(w) <==> multiset(Controlled(w))[u] > 0;
    }
  }

  /** One more candidate: it is added if it has no intent and can be recovered. */
  lemma RecoveryNext(w: World, base: seq<Intent>, added: seq<Intent>, done: set<Tag>, t: Tag, intent: Option<Intent>)
    requires GoodPlan(w, base, added) && ActorSet(added) == RecoveryActors(w, done, ActorSet(base))
    requires intent.Some? <==> t !in ActorSet(base + added) && Recoverable(w, t)
    requires intent.Some? ==> intent.value.actor == t && Deliverable(w, intent.value)
    ensures intent.None? ==> RecoveryActors(w, done + {t}, ActorSet(base)) == ActorSet(added)
    ensures intent.Some? ==>
      && GoodPlan(w, base, added + [intent.value]) && base + (added + [intent.value]) == base + added + [intent.value]
      && RecoveryActors(w, done + {t}, ActorSet(base)) == ActorSet(added + [intent.value])
  {
    ActorSetOfSum(base, added);
    if intent.Some? {
      GoodPlanNext(w, base, added, intent.value);
      ActorSetOfSum(added, [intent.value]);
      assert ActorSet([intent.value]) == {t};
    }
  }

  /** The buffer and the intents added to it once some of the candidates have been dealt with. */
  ghost predicate RecoveryState(w: World, base: seq<Intent>, buffer: seq<Intent>, added: seq<Intent>, done: set<Tag>) {
    && buffer == base + added && GoodPlan(w, base, added) && AllRecover(w, added)
    && ActorSet(added) == RecoveryActors(w, done, ActorSet(base))
  }

  function WithIntent(intents: seq<Intent>, intent: Option<Intent>): seq<Intent> {
    if intent.Some? then intents + [intent.value] else intents
  }

  lemma RecoveryStateNext(w: World, base: seq<Intent>, buffer: seq<Intent>, added: seq<Intent>, done: set<Tag>, t: Tag,
                          intent: Option<Intent>)
    requires RecoveryState(w, base, buffer, added, done)
    requires intent.Some? <==> t !in ActorSet(buffer) && Recoverable(w, t)
    requires intent.Some? ==> intent.value.actor == t && Deliverable(w, intent.value) && Recovers(w, intent.value)
    ensures RecoveryState(w, base, WithIntent(buffer, intent), WithIntent(added, intent), done + {t})
  {
    RecoveryNext(w, base, added, done, t, intent);
  }

  /** The candidate loop of the recovery pass, in whatever order the hash set yields them. */
  method RecoverAll(w: World, base: seq<Intent>, candidates: set<Tag>)
    returns (buffer: seq<Intent>, ghost added: seq<Intent>)
    requires WellFormed(w)
    ensures RecoveryState(w, base, buffer, added, candidates)
  {
    buffer, added := base, [];
    var todo := candidates;
    while todo != {}
      invariant todo <= candidates
      invariant RecoveryState(w, base, buffer, added, candidates - todo)
      decreases todo
    {
      var t :| t in todo;
      var intent := RecoverOne(w, t, ActorSet(buffer));
      RecoveryStateNext(w, base, buffer, added, candidates - todo, t, intent);
      todo := todo - {t};
      assert candidates - todo == candidates - (todo + {t}) + {t};
      added := WithIntent(added, intent);
      buffer := WithIntent(buffer, intent);
    }
    assert candidates - todo == candidates;
  }

  method RecoverOne(w: World, t: Tag, withIntent: set<Tag>) returns (intent: Option<Intent>)
    requires WellFormed(w)
    ensures intent.Some? <==> t !in withIntent && Recoverable(w, t)
    ensures intent.Some? ==> intent.value.actor == t && Deliverable(w, intent.value) && Recovers(w, intent.value)
  {
    if t in withIntent {
      return None;
    }
    var worker := LastWithTag(Controlled(w), t);
    if worker.None? || worker.value.orders != [] {
      return None;
    }
    var patch := SelectRecoveryMineralPatch(w, worker.value);
    if patch.None? {
      return None;
    }
    intent := Some(RecoveryIntent(t, patch.value));
    assert Orders(intent.value, worker.value, Smart, patch.value);
  }

  /** The frame the arbiter sees: the observation's units are the visible ones. */
  ghost predicate FrameOf(w: World, frame: Frame) {
    frame.visible == Some(set u | u in w.observed :: u.tag)
  }

  /** Deliverable intents that are the only ones of their actors are all executed unchanged. */
  lemma PlanSurvives(w: World, frame: Frame, base: seq<Intent>, added: seq<Intent>, k: nat)
    requires WellFormed(w) && FrameOf(w, frame) && GoodPlan(w, base, added) && k < |added|
    ensures added[k] in Resolved(frame, Controlled(w), base + added)
  {
    var buffer := base + added;
    var i := |base| + k;
    assert buffer[i] == added[k];
    forall j | 0 <= j < |buffer| && j != i
      ensures buffer[j].actor != added[k].actor
    {
      if j < |base| {
        assert base[j].actor in ActorSet(base);
      } else {
        assert buffer[j] == added[j - |base|];
      }
    }
    var u :| u in Controlled(w) && u.tag == added[k].actor;
    SoleIntentSurvives(frame, Controlled(w), buffer, i);
  }
}
