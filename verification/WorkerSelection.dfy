/** Which worker the bot picks: the commitment tests and selector loops of FTerranWorkerSelectionService
    and the nearest-structure searches of the agent. */
module WorkerSelection {
  import opened GameTypes

  /** One observation, and the actors the scheduler already has a live order for. */
  datatype World = World(observed: seq<Unit>, busy: set<Tag>)

  ghost predicate WellFormed(w: World) {
    && Distinct(TagsOf(w.observed))
    && forall u :: u in w.observed ==> u.tag != NULL_TAG
  }

  /** The filters the bot passes to ObservationInterface::GetUnits. */
  datatype Pick = OfAlliance(alliance: Alliance) | OwnRefineries | OwnReadyHalls

  predicate Picks(pick: Pick, u: Unit) {
    match pick
    case OfAlliance(a) => u.alliance == a
    case OwnRefineries => u.alliance == Self && u.unitType.Refinery?
    case OwnReadyHalls =>
      u.alliance == Self && IsTownHall(u.unitType) && u.buildProgress >= 1.0 && u.idealHarvesters > 0
  }

  /** The observed units a filter lets through, in iteration order. */
  function Picked(units: seq<Unit>, pick: Pick): (r: seq<Unit>)
    ensures forall u :: u in r <==> u in units && Picks(pick, u)
  {
    if units == [] then []
    else
      var n := |units| - 1;
      assert units == units[..n] + [units[n]];
      Picked(units[..n], pick) + if Picks(pick, units[n]) then [units[n]] else []
  }

  lemma {:induction false} PickedDistinct(units: seq<Unit>, pick: Pick)
    requires Distinct(TagsOf(units))
    ensures Distinct(TagsOf(Picked(units, pick)))
  {
    if units != [] {
      var n := |units| - 1;
      var tags := TagsOf(units);
      assert TagsOf(units[..n]) == tags[..n];
      PickedDistinct(units[..n], pick);
      var rest := Picked(units[..n], pick);
      forall i | 0 <= i < |rest|
        ensures rest[i].tag != units[n].tag
      {
        assert rest[i] in units[..n];
        var j :| 0 <= j < n && units[j] == rest[i];
        assert tags[j] != tags[n];
      }
      var restTags, all := TagsOf(rest), TagsOf(Picked(units, pick));
      forall i, j | 0 <= i < j < |all|
        ensures all[i] != all[j]
      {
        if j < |rest| {
          assert restTags[i] != restTags[j];
        }
      }
    }
  }

  function Controlled(w: World): seq<Unit> {
    Picked(w.observed, OfAlliance(Self))
  }

  function Neutrals(w: World): seq<Unit> {
    Picked(w.observed, OfAlliance(Neutral))
  }

  predicate IsHarvestOrder(a: Ability) {
    a.HarvestGather? || a.HarvestGatherScv? || a.HarvestReturn? || a.HarvestReturnScv?
  }

  predicate IsCommittedToConstruction(u: Unit) {
    && u.orders != []
    && var a := u.orders[0].ability;
       || a.BuildSupplyDepot? || a.BuildBarracks? || a.BuildFactory?
       || a.BuildStarport? || a.BuildRefinery? || a.BuildCommandCenter?
  }

  /** The refinery the first order gathers from or returns to; the null tag when there is none. */
  function CommittedRefinery(w: World, u: Unit): Tag {
    if u.orders == [] || !IsHarvestOrder(u.orders[0].ability) || u.orders[0].targetTag == NULL_TAG then NULL_TAG
    else
      var target := LastWithTag(w.observed, u.orders[0].targetTag);
      if target.Some? && (target.value.unitType.Refinery? || target.value.unitType.RefineryRich?)
      then target.value.tag else NULL_TAG
  }

  predicate IsCommittedToRefinery(w: World, u: Unit) {
    IsCarryingVespene(u) || CommittedRefinery(w, u) != NULL_TAG
  }

  predicate IsCommittedToMinerals(w: World, u: Unit) {
    || IsCarryingMinerals(u)
    || (&& u.orders != [] && IsHarvestOrder(u.orders[0].ability) && u.orders[0].targetTag != NULL_TAG
        && var target := LastWithTag(w.observed, u.orders[0].targetTag);
           target.Some? && target.value.unitType.MineralField?)
  }

  /** What the nearest-structure searches accept. */
  datatype Wanted = ReadyHall | HallStructure | PatchNear(centre: Position)

  const MINERAL_LINE_RADIUS_SQUARED: real := 225.0

  predicate Accepts(wanted: Wanted, u: Unit) {
    match wanted
    case ReadyHall => u.buildProgress >= 1.0
    case HallStructure =>
      && u.buildProgress >= 1.0
      && (u.unitType.CommandCenter? || u.unitType.OrbitalCommand? || u.unitType.PlanetaryFortress?)
    case PatchNear(c) => u.unitType.MineralField? && DistanceSquared(u.pos, c) <= MINERAL_LINE_RADIUS_SQUARED
  }

  /** The first of the nearest accepted units. */
  function Nearest(units: seq<Unit>, wanted: Wanted, p: Position): (r: Option<Unit>)
    ensures r.Some? ==> r.value in units && Accepts(wanted, r.value)
    ensures r.None? ==> forall u :: u in units ==> !Accepts(wanted, u)
  {
    if units == [] then None
    else
      var last := units[|units| - 1];
      var best := Nearest(units[..|units| - 1], wanted, p);
      if Accepts(wanted, last) && (best.None? || DistanceSquared(last.pos, p) < DistanceSquared(best.value.pos, p))
      then Some(last) else best
  }

  lemma {:induction false} NearestIsNearest(units: seq<Unit>, wanted: Wanted, p: Position, u: Unit)
    requires u in units && Accepts(wanted, u)
    ensures Nearest(units, wanted, p).Some?
    ensures DistanceSquared(Nearest(units, wanted, p).value.pos, p) <= DistanceSquared(u.pos, p)
  {
    if u != units[|units| - 1] {
      assert u in units[..|units| - 1];
      NearestIsNearest(units[..|units| - 1], wanted, p, u);
    }
  }

  method FindNearest(units: seq<Unit>, wanted: Wanted, p: Position) returns (best: Option<Unit>)
    ensures best == Nearest(units, wanted, p)
  {
    best := None;
    var i := 0;
    while i < |units|
      invariant 0 <= i <= |units|
      invariant best == Nearest(units[..i], wanted, p)
    {
      assert units[..i + 1][..i] == units[..i];
      var u := units[i];
      if Accepts(wanted, u) && (best.None? || DistanceSquared(u.pos, p) < DistanceSquared(best.value.pos, p)) {
        best := Some(u);
      }
      i := i + 1;
    }
    assert units[..i] == units;
  }

  /** The patch a worker is sent back to: near the town hall structure nearest to it. */
  function RecoveryPatch(w: World, u: Unit): Option<Unit> {
    var hall := Nearest(Controlled(w), HallStructure, u.pos);
    if hall.None? then None
    else Nearest(Neutrals(w), PatchNear(hall.value.pos), hall.value.pos)
  }

  function HallPatch(w: World, hall: Unit): Option<Unit> {
    Nearest(Neutrals(w), PatchNear(hall.pos), hall.pos)
  }

  /** The town hall a mineral worker counts for. */
  function MineralHall(w: World, u: Unit, halls: seq<Unit>): Option<Unit> {
    if IsCommittedToMinerals(w, u) then Nearest(halls, ReadyHall, u.pos) else None
  }

  /** A finished worker nobody has claimed; taken holds the reserved actors and those with an intent. */
  predicate IsFree(w: World, taken: set<Tag>, u: Unit) {
    && u.unitType.Scv? && u.buildProgress >= 1.0
    && u.tag !in taken && u.tag !in w.busy && !IsCommittedToConstruction(u)
  }

  datatype Role = IdleForGas | MineralForGas | OnRefinery(refinery: Tag)

  predicate Fits(w: World, taken: set<Tag>, role: Role, u: Unit) {
    && IsFree(w, taken, u)
    && match role
       case IdleForGas => !IsCommittedToRefinery(w, u) && u.orders == []
       case MineralForGas => !IsCommittedToRefinery(w, u) && u.orders != [] && IsCommittedToMinerals(w, u)
       case OnRefinery(r) => CommittedRefinery(w, u) == r
  }

  /** Position i holds the first of the fitting units nearest to p. */
  ghost predicate FirstNearestAt(w: World, taken: set<Tag>, role: Role, p: Position, units: seq<Unit>, i: nat) {
    && i < |units| && Fits(w, taken, role, units[i])
    && forall j :: 0 <= j < |units| && Fits(w, taken, role, units[j]) ==>
         && DistanceSquared(units[i].pos, p) <= DistanceSquared(units[j].pos, p)
         && (j < i ==> DistanceSquared(units[i].pos, p) < DistanceSquared(units[j].pos, p))
  }

  ghost predicate FirstNearest(w: World, taken: set<Tag>, role: Role, p: Position, units: seq<Unit>, r: Option<Unit>) {
    && (r.None? ==> forall u :: u in units ==> !Fits(w, taken, role, u))
    && (r.Some? ==> exists i: nat :: FirstNearestAt(w, taken, role, p, units, i) && units[i] == r.value)
  }

  /** One more unit: it wins only when it fits and is strictly nearer. */
  lemma FirstNearestNext(w: World, taken: set<Tag>, role: Role, p: Position, units: seq<Unit>, n: nat, r: Option<Unit>)
    requires n < |units| && FirstNearest(w, taken, role, p, units[..n], r)
    ensures var u := units[n];
      var wins := Fits(w, taken, role, u)
                  && (r.None? || DistanceSquared(u.pos, p) < DistanceSquared(r.value.pos, p));
      FirstNearest(w, taken, role, p, units[..n + 1], if wins then Some(u) else r)
  {
    var u := units[n];
    var longer := units[..n + 1];
    assert longer == units[..n] + [u];
    if Fits(w, taken, role, u) && (r.None? || DistanceSquared(u.pos, p) < DistanceSquared(r.value.pos, p)) {
      assert FirstNearestAt(w, taken, role, p, longer, n) by {
        forall j | 0 <= j < n && Fits(w, taken, role, longer[j])
          ensures DistanceSquared(u.pos, p) < DistanceSquared(longer[j].pos, p)
        {
          assert longer[j] == units[..n][j];
          assert longer[j] in units[..n];
        }
      }
    } else if r.Some? {
      var i: nat :| FirstNearestAt(w, taken, role, p, units[..n], i) && units[..n][i] == r.value;
      assert FirstNearestAt(w, taken, role, p, longer, i) by {
        forall j | 0 <= j < |longer| && Fits(w, taken, role, longer[j])
          ensures DistanceSquared(longer[i].pos, p) <= DistanceSquared(longer[j].pos, p)
          ensures j < i ==> DistanceSquared(longer[i].pos, p) < DistanceSquared(longer[j].pos, p)
        {
          if j < n {
            assert longer[j] == units[..n][j];
          }
        }
      }
    }
  }

  /** An idle worker nearest to the refinery, or else a mineral worker nearest to it. */
  ghost predicate IsGasChoice(w: World, taken: set<Tag>, refinery: Unit, r: Option<Unit>) {
    || (r.Some? && FirstNearest(w, taken, IdleForGas, refinery.pos, Controlled(w), r))
    || (&& FirstNearest(w, taken, IdleForGas, refinery.pos, Controlled(w), None)
        && FirstNearest(w, taken, MineralForGas, refinery.pos, Controlled(w), r))
  }

  method SelectWorkerForRefinery(w: World, units: seq<Unit>, reserved: set<Tag>, withIntent: set<Tag>, refinery: Unit)
    returns (r: Option<Unit>)
    requires units == Controlled(w)
    ensures IsGasChoice(w, reserved + withIntent, refinery, r)
  {
    ghost var taken := reserved + withIntent;
    var idle: Option<Unit>, mineral: Option<Unit> := None, None;
    var i := 0;
    while i < |units|
      invariant 0 <= i <= |units|
      invariant FirstNearest(w, taken, IdleForGas, refinery.pos, units[..i], idle)
      invariant FirstNearest(w, taken, MineralForGas, refinery.pos, units[..i], mineral)
    {
      var u := units[i];
      FirstNearestNext(w, taken, IdleForGas, refinery.pos, units, i, idle);
      FirstNearestNext(w, taken, MineralForGas, refinery.pos, units, i, mineral);
      var d := DistanceSquared(u.pos, refinery.pos);
      if !u.unitType.Scv? || u.buildProgress < 1.0 || u.tag in reserved || u.tag in withIntent
         || u.tag in w.busy || IsCommittedToConstruction(u) || IsCommittedToRefinery(w, u) {
      } else if u.orders == [] {
        if idle.None? || d < DistanceSquared(idle.value.pos, refinery.pos) {
          idle := Some(u);
        }
      } else if IsCommittedToMinerals(w, u) {
        if mineral.None? || d < DistanceSquared(mineral.value.pos, refinery.pos) {
          mineral := Some(u);
        }
      }
      i := i + 1;
    }
    assert units[..i] == units;
    r := if idle.Some? then idle else mineral;
  }

  method SelectWorkerForGasRelief(w: World, units: seq<Unit>, reserved: set<Tag>, withIntent: set<Tag>, refinery: Unit)
    returns (r: Option<Unit>)
    requires units == Controlled(w)
    ensures FirstNearest(w, reserved + withIntent, OnRefinery(refinery.tag), refinery.pos, units, r)
  {
    ghost var taken := reserved + withIntent;
    r := None;
    var i := 0;
    while i < |units|
      invariant 0 <= i <= |units|
      invariant FirstNearest(w, taken, OnRefinery(refinery.tag), refinery.pos, units[..i], r)
    {
      var u := units[i];
      FirstNearestNext(w, taken, OnRefinery(refinery.tag), refinery.pos, units, i, r);
      if u.unitType.Scv? && !(u.buildProgress < 1.0) && u.tag !in reserved && u.tag !in withIntent
         && u.tag !in w.busy && !IsCommittedToConstruction(u) && CommittedRefinery(w, u) == refinery.tag {
        if r.None? || DistanceSquared(u.pos, refinery.pos) < DistanceSquared(r.value.pos, refinery.pos) {
          r := Some(u);
        }
      }
      i := i + 1;
    }
    assert units[..i] == units;
  }

  predicate IsCommittedHarvester(w: World, refinery: Tag, u: Unit) {
    u.unitType.Scv? && u.buildProgress >= 1.0 && CommittedRefinery(w, u) == refinery
  }

  /** How many finished workers are committed to a refinery. */
  function CommittedCount(w: World, refinery: Tag, units: seq<Unit>): nat {
    if units == [] then 0
    else
      var n := |units| - 1;
      CommittedCount(w, refinery, units[..n]) + if IsCommittedHarvester(w, refinery, units[n]) then 1 else 0
  }

  method CountCommittedHarvesters(w: World, units: seq<Unit>, refinery: Tag) returns (count: nat)
    ensures count == CommittedCount(w, refinery, units)
  {
    count := 0;
    var i := 0;
    while i < |units|
      invariant 0 <= i <= |units|
      invariant count == CommittedCount(w, refinery, units[..i])
    {
      assert units[..i + 1][..i] == units[..i];
      if IsCommittedHarvester(w, refinery, units[i]) {
        count := count + 1;
      }
      i := i + 1;
    }
    assert units[..i] == units;
  }

  /** Planned additions minus planned removals, zero where a map has no entry. */
  function PlannedDelta(added: map<Tag, int>, removed: map<Tag, int>, t: Tag): int {
    (if t in added then added[t] else 0) - (if t in removed then removed[t] else 0)
  }

  function Surplus(hall: Unit, inbound: map<Tag, int>, outbound: map<Tag, int>): int {
    (if hall.assignedHarvesters > 0 then hall.assignedHarvesters else 0)
    + PlannedDelta(inbound, outbound, hall.tag) - hall.idealHarvesters
  }

  /** What the rebalance selector looks at besides the worker itself. */
  datatype Plan = Plan(w: World, taken: set<Tag>, halls: seq<Unit>, inbound: map<Tag, int>, outbound: map<Tag, int>)

  predicate Movable(plan: Plan, receiver: Unit, u: Unit) {
    && IsFree(plan.w, plan.taken, u)
    && !IsCommittedToRefinery(plan.w, u) && IsCommittedToMinerals(plan.w, u)
    && var source := MineralHall(plan.w, u, plan.halls);
       && source.Some? && source.value.tag != receiver.tag
       && Surplus(source.value, plan.inbound, plan.outbound) > 0
  }

  /** Larger surplus at the source first, then workers carrying nothing, then the nearer one. */
  predicate Preferred(plan: Plan, receiver: Unit, a: Unit, b: Unit)
    requires MineralHall(plan.w, a, plan.halls).Some? && MineralHall(plan.w, b, plan.halls).Some?
  {
    var sa := Surplus(MineralHall(plan.w, a, plan.halls).value, plan.inbound, plan.outbound);
    var sb := Surplus(MineralHall(plan.w, b, plan.halls).value, plan.inbound, plan.outbound);
    || sa > sb
    || (&& sa == sb
        && (|| (IsCarryingMinerals(b) && !IsCarryingMinerals(a))
            || (&& IsCarryingMinerals(a) == IsCarryingMinerals(b)
                && DistanceSquared(a.pos, receiver.pos) < DistanceSquared(b.pos, receiver.pos))))
  }

  ghost predicate FirstPreferredAt(plan: Plan, receiver: Unit, units: seq<Unit>, i: nat) {
    && i < |units| && Movable(plan, receiver, units[i])
    && forall j :: 0 <= j < |units| && Movable(plan, receiver, units[j]) ==>
         !Preferred(plan, receiver, units[j], units[i]) && (j < i ==> Preferred(plan, receiver, units[i], units[j]))
  }

  ghost predicate FirstPreferred(plan: Plan, receiver: Unit, units: seq<Unit>, r: Option<Unit>) {
    && (r.None? ==> forall u :: u in units ==> !Movable(plan, receiver, u))
    && (r.Some? ==> exists i: nat :: FirstPreferredAt(plan, receiver, units, i) && units[i] == r.value)
  }

  lemma FirstPreferredNext(plan: Plan, receiver: Unit, units: seq<Unit>, n: nat, r: Option<Unit>)
    requires n < |units| && FirstPreferred(plan, receiver, units[..n], r)
    ensures r.Some? ==> Movable(plan, receiver, r.value)
    ensures var u := units[n];
      FirstPreferred(plan, receiver, units[..n + 1], if Overtakes(plan, receiver, u, r) then Some(u) else r)
  {
    var u := units[n];
    var longer := units[..n + 1];
    assert longer == units[..n] + [u];
    if r.Some? {
      var i: nat :| FirstPreferredAt(plan, receiver, units[..n], i) && units[..n][i] == r.value;
      assert longer[i] == r.value;
      if Movable(plan, receiver, u) && Preferred(plan, receiver, u, r.value) {
        PreferredOverAll(plan, receiver, units, n, i);
        assert longer[n] == u;
      } else {
        StillPreferred(plan, receiver, units, n, i);
      }
    } else if Movable(plan, receiver, u) {
      assert FirstPreferredAt(plan, receiver, longer, n) by {
        forall j | 0 <= j < n
          ensures !Movable(plan, receiver, longer[j])
        {
          assert longer[j] in units[..n];
        }
      }
    }
  }

  /** Whether a unit replaces the best one before it. */
  predicate Overtakes(plan: Plan, receiver: Unit, u: Unit, r: Option<Unit>)
    requires r.Some? ==> Movable(plan, receiver, r.value)
  {
    Movable(plan, receiver, u) && (r.None? || Preferred(plan, receiver, u, r.value))
  }

  lemma PreferredOverAll(plan: Plan, receiver: Unit, units: seq<Unit>, n: nat, i: nat)
    requires n < |units| && FirstPreferredAt(plan, receiver, units[..n], i)
    requires Movable(plan, receiver, units[n]) && Preferred(plan, receiver, units[n], units[i])
    ensures FirstPreferredAt(plan, receiver, units[..n + 1], n)
  {
    forall j | 0 <= j < n && Movable(plan, receiver, units[j])
      ensures Preferred(plan, receiver, units[n], units[j]) && !Preferred(plan, receiver, units[j], units[n])
    {
      assert units[..n][j] == units[j] && units[..n][i] == units[i];
      assert !Preferred(plan, receiver, units[j], units[i]);
    }
  }

  lemma StillPreferred(plan: Plan, receiver: Unit, units: seq<Unit>, n: nat, i: nat)
    requires n < |units| && FirstPreferredAt(plan, receiver, units[..n], i)
    requires Movable(plan, receiver, units[n]) ==> !Preferred(plan, receiver, units[n], units[i])
    ensures FirstPreferredAt(plan, receiver, units[..n + 1], i)
  {
  }

  /** The variables of the loop describe its best worker so far. */
  predicate Tracked(plan: Plan, receiver: Unit, best: Unit, surplus: int, carrying: bool, distance: real) {
    && Movable(plan, receiver, best)
    && surplus == Surplus(MineralHall(plan.w, best, plan.halls).value, plan.inbound, plan.outbound)
    && carrying == IsCarryingMinerals(best) && distance == DistanceSquared(best.pos, receiver.pos)
  }

  /** The tests a worker must pass, and the hall it would leave. */
  method MovableSource(plan: Plan, u: Unit, reserved: set<Tag>, withIntent: set<Tag>, receiver: Unit)
    returns (source: Option<Unit>)
    requires plan.taken == reserved + withIntent
    ensures source.Some? <==> Movable(plan, receiver, u)
    ensures source.Some? ==> source == MineralHall(plan.w, u, plan.halls)
  {
    if !u.unitType.Scv? || u.buildProgress < 1.0 || u.tag in reserved || u.tag in withIntent
       || u.tag in plan.w.busy || IsCommittedToConstruction(u)
       || IsCommittedToRefinery(plan.w, u) || !IsCommittedToMinerals(plan.w, u) {
      return None;
    }
    source := MineralHall(plan.w, u, plan.halls);
    if source.None? || source.value.tag == receiver.tag {
      return None;
    }
    if Surplus(source.value, plan.inbound, plan.outbound) <= 0 {
      return None;
    }
  }

  method SelectWorkerForMineralRebalance(plan: Plan, units: seq<Unit>, reserved: set<Tag>, withIntent: set<Tag>,
                                         receiver: Unit)
    returns (r: Option<Unit>)
    requires plan.taken == reserved + withIntent
    ensures FirstPreferred(plan, receiver, units, r)
  {
    r := None;
    var bestDistance, bestCarrying, bestSurplus := 0.0, true, 0;
    var i := 0;
    while i < |units|
      invariant 0 <= i <= |units|
      invariant FirstPreferred(plan, receiver, units[..i], r)
      invariant r.Some? ==> Tracked(plan, receiver, r.value, bestSurplus, bestCarrying, bestDistance)
    {
      var u := units[i];
      i := i + 1;
      FirstPreferredNext(plan, receiver, units, i - 1, r);
      var source := MovableSource(plan, u, reserved, withIntent, receiver);
      if source.None? {
        continue;
      }
      var surplus := Surplus(source.value, plan.inbound, plan.outbound);
      var carrying, distance := IsCarryingMinerals(u), DistanceSquared(u.pos, receiver.pos);
      if r.None? || surplus > bestSurplus
         || (surplus == bestSurplus
             && ((bestCarrying && !carrying) || (bestCarrying == carrying && distance < bestDistance))) {
        r, bestDistance, bestCarrying, bestSurplus := Some(u), distance, carrying, surplus;
      }
    }
    assert units[..i] == units;
  }
}
