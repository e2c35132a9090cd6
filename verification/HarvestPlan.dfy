/** What a harvest pass may put into the intent buffer, and when it may stop. */
module HarvestPlan {
  import opened GameTypes
  import opened WorkerSelection
  import opened HarvesterLedger
  import opened IntentArbiter

  const GAS_HARVEST_PRIORITY := 320
  const GAS_RELIEF_PRIORITY := 321
  const MINERAL_REBALANCE_PRIORITY := 322
  const RECOVERY_PRIORITY := 300
  const MAX_REBALANCE_INTENTS: nat := 8

  function ActorSet(buffer: seq<Intent>): set<Tag> {
    set i | i in buffer :: i.actor
  }

  /** An intent the arbiter can execute as it stands: own worker, visible target. */
  ghost predicate Deliverable(w: World, i: Intent) {
    && i.kind == UnitTarget && i.point == ORIGIN
    && (exists u :: u in Controlled(w) && u.tag == i.actor)
    && (exists u :: u in w.observed && u.tag == i.targetTag)
  }

  /** The added intents are deliverable and the only ones of their actors. */
  ghost predicate GoodPlan(w: World, before: seq<Intent>, added: seq<Intent>) {
    forall k :: 0 <= k < |added| ==>
      && Deliverable(w, added[k])
      && added[k].actor !in ActorSet(before)
      && forall j :: 0 <= j < k ==> added[j].actor != added[k].actor
  }

  lemma ActorSetOfSum(a: seq<Intent>, b: seq<Intent>)
    ensures ActorSet(a + b) == ActorSet(a) + ActorSet(b)
  {
  }

  lemma GoodPlanNext(w: World, before: seq<Intent>, added: seq<Intent>, i: Intent)
    requires GoodPlan(w, before, added) && Deliverable(w, i) && i.actor !in ActorSet(before + added)
    ensures GoodPlan(w, before, added + [i])
    ensures ActorSet(before + (added + [i])) == ActorSet(before + added) + {i.actor}
    ensures before + (added + [i]) == before + added + [i]
  {
  }

  lemma GoodPlanCompose(w: World, before: seq<Intent>, a: seq<Intent>, b: seq<Intent>)
    requires GoodPlan(w, before, a) && GoodPlan(w, before + a, b)
    ensures GoodPlan(w, before, a + b)
  {
  }

  /** A worker assigned to a refinery (target is the refinery) or taken off it (target is a patch). */
  datatype GasMove = GasMove(worker: Unit, refinery: Unit, target: Unit)

  function GasIntents(log: seq<GasMove>, ability: Ability, priority: int): seq<Intent> {
    if log == [] then []
    else
      var m := log[|log| - 1];
      GasIntents(log[..|log| - 1], ability, priority)
      + [UnitTargetIntent(m.worker.tag, ability, m.target.tag, priority, IntentDomain.Recovery)]
  }

  function TransferIntents(log: seq<Transfer>): (intents: seq<Intent>)
    ensures |intents| == |log|
  {
    if log == [] then []
    else
      var t := log[|log| - 1];
      TransferIntents(log[..|log| - 1])
      + [UnitTargetIntent(t.worker.tag, Smart, t.patch.tag, MINERAL_REBALANCE_PRIORITY, IntentDomain.Recovery)]
  }

  /** How many moves of a log concern the refinery with a tag. */
  function MovesAt(log: seq<GasMove>, t: Tag): nat {
    if log == [] then 0
    else MovesAt(log[..|log| - 1], t) + if log[|log| - 1].refinery.tag == t then 1 else 0
  }

  lemma {:induction false} GasLogNext(log: seq<GasMove>, m: GasMove, ability: Ability, priority: int)
    ensures GasIntents(log + [m], ability, priority) == GasIntents(log, ability, priority)
      + [UnitTargetIntent(m.worker.tag, ability, m.target.tag, priority, IntentDomain.Recovery)]
    ensures forall t :: MovesAt(log + [m], t) == MovesAt(log, t) + if m.refinery.tag == t then 1 else 0
  {
  }

  lemma {:induction false} TransferLogNext(log: seq<Transfer>, t: Transfer)
    ensures TransferIntents(log + [t]) == TransferIntents(log)
      + [UnitTargetIntent(t.worker.tag, Smart, t.patch.tag, MINERAL_REBALANCE_PRIORITY, IntentDomain.Recovery)]
  {
  }

  predicate ReadyRefinery(r: Unit) {
    r.buildProgress >= 1.0 && r.idealHarvesters > 0 && r.vespeneContents > 0
  }

  /** Harvesters a refinery has before the pass: what the game reports or what orders show. */
  function GasBase(w: World, r: Unit): int {
    var committed := CommittedCount(w, r.tag, Controlled(w));
    if r.assignedHarvesters > committed then r.assignedHarvesters else committed
  }

  /** A finished worker without an intent, a live order or a building to build. */
  ghost predicate Available(w: World, taken: set<Tag>, u: Unit) {
    && u in Controlled(w) && u.unitType == Scv && u.buildProgress >= 1.0
    && u.tag !in taken && u.tag !in w.busy && !IsCommittedToConstruction(u)
  }

  /** A fill sends an idle or a mineral worker, the one the selector picks, to a ready refinery itself. */
  ghost predicate SoundFill(w: World, taken: set<Tag>, m: GasMove) {
    && m.target == m.refinery
    && m.refinery in Picked(w.observed, OwnRefineries)
    && m.refinery.buildProgress >= 1.0 && m.refinery.idealHarvesters > 0 && m.refinery.vespeneContents > 0
    && Available(w, taken, m.worker) && !IsCommittedToRefinery(w, m.worker)
    && (m.worker.orders == [] || IsCommittedToMinerals(w, m.worker))
    && IsGasChoice(w, taken, m.refinery, Some(m.worker))
  }

  /** A relief sends a worker of a ready refinery, the one the selector picks, to the patch of its nearest
      town hall. */
  ghost predicate SoundRelief(w: World, taken: set<Tag>, m: GasMove) {
    && m.refinery in Picked(w.observed, OwnRefineries)
    && m.refinery.buildProgress >= 1.0 && m.refinery.idealHarvesters > 0 && m.refinery.vespeneContents > 0
    && Available(w, taken, m.worker) && CommittedRefinery(w, m.worker) == m.refinery.tag
    && FirstNearest(w, taken, OnRefinery(m.refinery.tag), m.refinery.pos, Controlled(w), Some(m.worker))
    && RecoveryPatch(w, m.worker) == Some(m.target)
  }

  ghost predicate SoundMove(w: World, ability: Ability, taken: set<Tag>, m: GasMove) {
    if ability.HarvestGather? then SoundFill(w, taken, m) else SoundRelief(w, taken, m)
  }

  /** Move k of a log was sound for the actors that had an intent before it. */
  ghost predicate WasSound(w: World, base: seq<Intent>, log: seq<GasMove>, ability: Ability, priority: int, k: nat)
    requires k < |log|
  {
    SoundMove(w, ability, ActorSet(base + GasIntents(log[..k], ability, priority)), log[k])
  }

  ghost predicate SoundMoves(w: World, base: seq<Intent>, log: seq<GasMove>, ability: Ability, priority: int) {
    forall k :: 0 <= k < |log| ==> WasSound(w, base, log, ability, priority, k)
  }

  lemma {:induction false} SoundMovesNext(w: World, base: seq<Intent>, log: seq<GasMove>, ability: Ability,
                                          priority: int, m: GasMove)
    requires SoundMoves(w, base, log, ability, priority)
    requires SoundMove(w, ability, ActorSet(base + GasIntents(log, ability, priority)), m)
    ensures SoundMoves(w, base, log + [m], ability, priority)
  {
    var longer := log + [m];
    forall k | 0 <= k < |longer| ensures WasSound(w, base, longer, ability, priority, k) {
      assert longer[..k] == log[..k];
      assert log[..|log|] == log;
      assert k < |log| ==> WasSound(w, base, log, ability, priority, k);
    }
  }

  lemma SoundMoveIsDeliverable(w: World, ability: Ability, taken: set<Tag>, m: GasMove)
    requires SoundMove(w, ability, taken, m)
    ensures m.worker in Controlled(w) && m.worker.tag !in taken && m.target in w.observed
  {
  }

  lemma {:induction false} GasIntentCount(log: seq<GasMove>, ability: Ability, priority: int)
    ensures |GasIntents(log, ability, priority)| == |log|
  {
    if log != [] {
      GasIntentCount(log[..|log| - 1], ability, priority);
    }
  }

  /** The intents of a log, one for each move: its worker is ordered to its target. */
  lemma {:induction false} GasIntentAt(log: seq<GasMove>, ability: Ability, priority: int, k: nat)
    requires k < |log|
    ensures |GasIntents(log, ability, priority)| == |log|
    ensures var i := GasIntents(log, ability, priority)[k];
      && i.actor == log[k].worker.tag && i.ability == ability && i.targetTag == log[k].target.tag
      && i.kind == UnitTarget && i.priority == priority && i.domain == Recovery
      && !i.queued && !i.needsPlacement && !i.needsPathing
  {
    var n := |log| - 1;
    GasIntentCount(log, ability, priority);
    GasIntentCount(log[..n], ability, priority);
    if k < n {
      GasIntentAt(log[..n], ability, priority, k);
    }
  }

  /** The same for transfers: the worker is ordered to the patch. */
  lemma {:induction false} TransferIntentAt(log: seq<Transfer>, k: nat)
    requires k < |log|
    ensures var i := TransferIntents(log)[k];
      && i.actor == log[k].worker.tag && i.ability == Smart && i.targetTag == log[k].patch.tag
      && i.kind == UnitTarget && i.priority == MINERAL_REBALANCE_PRIORITY && i.domain == Recovery
      && !i.queued && !i.needsPlacement && !i.needsPathing
  {
    var n := |log| - 1;
    if k < n {
      TransferIntentAt(log[..n], k);
    }
  }

  ghost predicate NoGasWorker(w: World, taken: set<Tag>) {
    forall u :: u in Controlled(w) ==> !Fits(w, taken, IdleForGas, u) && !Fits(w, taken, MineralForGas, u)
  }

  /** Filling may stop at a refinery that has its ideal, or when no worker is left for any. */
  ghost predicate FillSettled(w: World, taken: set<Tag>, log: seq<GasMove>, r: Unit) {
    r.buildProgress >= 1.0 && r.idealHarvesters > 0 && r.vespeneContents > 0 ==>
      GasBase(w, r) + MovesAt(log, r.tag) >= r.idealHarvesters || NoGasWorker(w, taken)
  }

  /** A refinery is filled up to its ideal at most, and only when it is ready. */
  ghost predicate FillWithin(w: World, log: seq<GasMove>, r: Unit) {
    MovesAt(log, r.tag) > 0 ==>
      && r.buildProgress >= 1.0 && r.idealHarvesters > 0 && r.vespeneContents > 0
      && GasBase(w, r) + MovesAt(log, r.tag) <= r.idealHarvesters
  }

  /** Nobody free works on the refinery, or the one the selector picks has no patch to go to. */
  ghost predicate ReliefBlocked(w: World, taken: set<Tag>, r: Unit) {
    || (forall u :: u in Controlled(w) ==> !Fits(w, taken, OnRefinery(r.tag), u))
    || (exists u :: FirstNearest(w, taken, OnRefinery(r.tag), r.pos, Controlled(w), Some(u))
          && RecoveryPatch(w, u).None?)
  }

  /** The workers taken in addition do not work on the refinery with a tag. */
  ghost predicate Spares(w: World, taken: set<Tag>, more: set<Tag>, refinery: Tag) {
    && taken <= more
    && forall u :: u in Controlled(w) && u.tag in more && u.tag !in taken ==> CommittedRefinery(w, u) != refinery
  }

  /** Relief that is blocked at a refinery stays so while only other workers are taken. */
  lemma ReliefStaysBlocked(w: World, taken: set<Tag>, more: set<Tag>, r: Unit)
    requires ReliefBlocked(w, taken, r) && Spares(w, taken, more, r.tag)
    ensures ReliefBlocked(w, more, r)
  {
    var units, role := Controlled(w), OnRefinery(r.tag);
    forall u | u in units ensures Fits(w, more, role, u) == Fits(w, taken, role, u) {
    }
    if u :| FirstNearest(w, taken, role, r.pos, units, Some(u)) && RecoveryPatch(w, u).None? {
      var i: nat :| FirstNearestAt(w, taken, role, r.pos, units, i) && units[i] == u;
      assert FirstNearestAt(w, more, role, r.pos, units, i);
      assert FirstNearest(w, more, role, r.pos, units, Some(u));
    }
  }

  lemma SparesMore(w: World, a: set<Tag>, b: set<Tag>, c: set<Tag>)
    ensures forall t :: Spares(w, a, b, t) && Spares(w, b, c, t) ==> Spares(w, a, c, t)
  {
  }

  /** Taking one worker spares every refinery but that worker's own. */
  lemma OneSpares(w: World, taken: set<Tag>, worker: Unit, refinery: Tag)
    requires WellFormed(w) && worker in Controlled(w) && CommittedRefinery(w, worker) != refinery
    ensures Spares(w, taken, taken + {worker.tag}, refinery)
  {
    var tags := TagsOf(w.observed);
    forall u | u in Controlled(w) && u.tag == worker.tag ensures u == worker {
      var i, j :| 0 <= i < |w.observed| && 0 <= j < |w.observed| && w.observed[i] == u && w.observed[j] == worker;
      assert tags[i] == tags[j];
    }
  }

  /** Relief may stop at a refinery not above its ideal, or when it is blocked there. */
  ghost predicate ReliefSettled(w: World, taken: set<Tag>, fills: seq<GasMove>, log: seq<GasMove>, r: Unit) {
    r.buildProgress >= 1.0 && r.idealHarvesters > 0 && r.vespeneContents > 0 ==>
      || GasBase(w, r) + MovesAt(fills, r.tag) - MovesAt(log, r.tag) <= r.idealHarvesters
      || ReliefBlocked(w, taken, r)
  }

  /** A refinery is relieved down to its ideal at most, only when it is ready and was not filled. */
  ghost predicate ReliefWithin(w: World, fills: seq<GasMove>, log: seq<GasMove>, r: Unit) {
    MovesAt(log, r.tag) > 0 ==>
      && r.buildProgress >= 1.0 && r.idealHarvesters > 0 && r.vespeneContents > 0
      && MovesAt(fills, r.tag) == 0
      && GasBase(w, r) - MovesAt(log, r.tag) >= r.idealHarvesters
  }

  /** Workers that may still be moved to a receiver after a log of transfers. */
  ghost predicate MovableAfter(w: World, taken: set<Tag>, halls: seq<Unit>, log: seq<Transfer>, receiver: Unit, u: Unit)
  {
    && IsFree(w, taken, u) && !IsCommittedToRefinery(w, u) && IsCommittedToMinerals(w, u)
    && var source := MineralHall(w, u, halls);
       && source.Some? && source.value.tag != receiver.tag
       && Effective(source.value, log) > source.value.idealHarvesters
  }

  /** No worker that could be moved instead comes from a hall with more to spare, nor, from one with as much,
      carries less or stands nearer. */
  ghost predicate NoBetterMove(w: World, halls: seq<Unit>, log: seq<Transfer>, t: Transfer, u: Unit)
    requires MineralHall(w, u, halls).Some?
  {
    var hall := MineralHall(w, u, halls).value;
    var spare, mine := Effective(hall, log) - hall.idealHarvesters, Effective(t.source, log) - t.source.idealHarvesters;
    && spare <= mine
    && (spare == mine && IsCarryingMinerals(t.worker) ==> IsCarryingMinerals(u))
    && (spare == mine && IsCarryingMinerals(t.worker) == IsCarryingMinerals(u) ==>
          DistanceSquared(t.worker.pos, t.receiver.pos) <= DistanceSquared(u.pos, t.receiver.pos))
  }

  /** A transfer moves an available mineral worker, and none would have been better. */
  ghost predicate BestTransfer(w: World, taken: set<Tag>, halls: seq<Unit>, log: seq<Transfer>, t: Transfer) {
    && Available(w, taken, t.worker) && !IsCommittedToRefinery(w, t.worker) && IsCommittedToMinerals(w, t.worker)
    && forall u :: u in Controlled(w) && MovableAfter(w, taken, halls, log, t.receiver, u) ==>
         NoBetterMove(w, halls, log, t, u)
  }

  /** Transfer k of a log was the best when it was made. */
  ghost predicate WasBest(w: World, halls: seq<Unit>, base: seq<Intent>, log: seq<Transfer>, k: nat)
    requires k < |log|
  {
    BestTransfer(w, ActorSet(base + TransferIntents(log[..k])), halls, log[..k], log[k])
  }

  ghost predicate BestTransfers(w: World, halls: seq<Unit>, base: seq<Intent>, log: seq<Transfer>) {
    forall k :: 0 <= k < |log| ==> WasBest(w, halls, base, log, k)
  }

  lemma {:induction false} BestTransfersNext(w: World, halls: seq<Unit>, base: seq<Intent>, log: seq<Transfer>,
                                             t: Transfer)
    requires BestTransfers(w, halls, base, log)
    requires BestTransfer(w, ActorSet(base + TransferIntents(log)), halls, log, t)
    ensures BestTransfers(w, halls, base, log + [t])
  {
    var longer := log + [t];
    forall k | 0 <= k < |longer| ensures WasBest(w, halls, base, longer, k) {
      assert longer[..k] == log[..k];
      assert log[..|log|] == log;
      assert k < |log| ==> WasBest(w, halls, base, log, k);
    }
  }

  /** Rebalancing may stop at a hall that has its ideal, has no patch, or has nobody to call. */
  ghost predicate HallSettled(w: World, taken: set<Tag>, halls: seq<Unit>, log: seq<Transfer>, r: Unit) {
    || Effective(r, log) >= r.idealHarvesters
    || HallPatch(w, r).None?
    || (forall u :: u in Controlled(w) ==> !MovableAfter(w, taken, halls, log, r, u))
  }

  /** A hall that is settled stays settled through every later transfer. */
  lemma HallStaysSettled(w: World, taken: set<Tag>, more: set<Tag>, halls: seq<Unit>, log: seq<Transfer>, t: Transfer,
                         r: Unit)
    requires Distinct(TagsOf(halls)) && Legal(halls, log, t) && r in halls
    requires HallSettled(w, taken, halls, log, r) && taken <= more
    ensures HallSettled(w, more, halls, log + [t], r)
  {
  }

  /** With fewer than two halls there is nobody to move. */
  lemma FewHallsSettled(w: World, taken: set<Tag>, halls: seq<Unit>, r: Unit)
    requires |halls| < 2 && r in halls
    ensures HallSettled(w, taken, halls, [], r)
  {
  }
}
