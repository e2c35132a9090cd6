/** What the worker tests and selectors say about the observed units themselves: orders, buffs, types,
    alliances and distances. */
module WorkerMeaning {
  import opened GameTypes
  import opened WorkerSelection
  import opened HarvestPlan

  /** The four filters on the observation. */
  lemma PickedIff(w: World, u: Unit)
    ensures u in Controlled(w) <==> u in w.observed && u.alliance == Self
    ensures u in Neutrals(w) <==> u in w.observed && u.alliance == Neutral
    ensures u in Picked(w.observed, OwnRefineries) <==>
      u in w.observed && u.alliance == Self && u.unitType == Refinery
    ensures u in Picked(w.observed, OwnReadyHalls) <==>
      && u in w.observed && u.alliance == Self && u.buildProgress >= 1.0 && u.idealHarvesters > 0
      && (|| u.unitType in {CommandCenter, CommandCenterFlying, OrbitalCommand, OrbitalCommandFlying}
          || u.unitType == PlanetaryFortress || u.unitType.ForeignTownHall?)
  {
  }

  /** A filter keeps the order of the observation. */
  lemma {:induction false} PickedInOrder(units: seq<Unit>, pick: Pick) returns (at: seq<nat>)
    ensures InOrder(Picked(units, pick), units, at)
  {
    at := [];
    if units != [] {
      var n := |units| - 1;
      at := PickedInOrder(units[..n], pick);
      InOrderNext(Picked(units[..n], pick), units[..n], at, units[n]);
      assert units == units[..n] + [units[n]];
      if Picks(pick, units[n]) {
        at := at + [n];
      }
    }
  }

  /** The first order of a unit gathers from, or returns to, the target with a tag. */
  predicate Harvests(u: Unit, t: Tag) {
    && u.orders != [] && u.orders[0].targetTag == t
    && u.orders[0].ability in {HarvestGather, HarvestGatherScv, HarvestReturn, HarvestReturnScv}
  }

  lemma {:induction false} KnownTag(w: World, t: Tag, u: Unit)
    requires WellFormed(w) && u in w.observed && u.tag == t
    ensures LastWithTag(w.observed, t) == Some(u)
  {
    var i :| 0 <= i < |w.observed| && w.observed[i] == u;
    var tags := TagsOf(w.observed);
    forall j | i < j < |w.observed| ensures w.observed[j].tag != t {
      assert tags[i] != tags[j];
    }
    LastWithTagAt(w.observed, t, i);
  }

  /** A worker is committed to a refinery exactly if its first order harvests an observed one. */
  lemma CommittedRefineryIff(w: World, u: Unit, t: Tag)
    requires WellFormed(w) && t != NULL_TAG
    ensures CommittedRefinery(w, u) == t <==>
      Harvests(u, t) && exists v :: v in w.observed && v.tag == t && v.unitType in {Refinery, RefineryRich}
  {
    if v :| v in w.observed && v.tag == t && v.unitType in {Refinery, RefineryRich} {
      KnownTag(w, t, v);
    }
    if CommittedRefinery(w, u) == t {
      var v := LastWithTag(w.observed, t).value;
      assert v in w.observed && v.tag == t && v.unitType in {Refinery, RefineryRich};
    }
  }

  /** A worker that carries vespene is committed to gas as well. */
  lemma CommittedToRefineryIff(w: World, u: Unit)
    requires WellFormed(w)
    ensures IsCommittedToRefinery(w, u) <==>
      || CarryGas in u.buffs || CarryGasProtoss in u.buffs || CarryGasZerg in u.buffs
      || exists v :: v in w.observed && Harvests(u, v.tag) && v.unitType in {Refinery, RefineryRich}
  {
    if v :| v in w.observed && Harvests(u, v.tag) && v.unitType in {Refinery, RefineryRich} {
      CommittedRefineryIff(w, u, v.tag);
    }
    if CommittedRefinery(w, u) != NULL_TAG {
      CommittedRefineryIff(w, u, CommittedRefinery(w, u));
    }
  }

  /** The same for minerals: the load or the target decides. */
  lemma CommittedToMineralsIff(w: World, u: Unit)
    requires WellFormed(w)
    ensures IsCommittedToMinerals(w, u) <==>
      || CarryMinerals in u.buffs || CarryHighYieldMinerals in u.buffs
      || exists v :: v in w.observed && Harvests(u, v.tag) && v.unitType.MineralField?
  {
    if v :| v in w.observed && Harvests(u, v.tag) && v.unitType.MineralField? {
      KnownTag(w, v.tag, v);
    }
  }

  lemma CommittedToConstructionIff(u: Unit)
    ensures IsCommittedToConstruction(u) <==>
      && u.orders != []
      && u.orders[0].ability in {BuildSupplyDepot, BuildBarracks, BuildFactory, BuildStarport, BuildRefinery,
                                 BuildCommandCenter}
  {
  }

  /** Of the accepted units, all those before the nearest one stand further away. */
  lemma {:induction false} NearestIsFirst(units: seq<Unit>, wanted: Wanted, p: Position) returns (i: nat)
    requires Nearest(units, wanted, p).Some?
    ensures i < |units| && Nearest(units, wanted, p) == Some(units[i])
    ensures forall j :: 0 <= j < i && Accepts(wanted, units[j]) ==>
      DistanceSquared(units[i].pos, p) < DistanceSquared(units[j].pos, p)
  {
    var n := |units| - 1;
    var before, u := units[..n], units[n];
    var best := Nearest(before, wanted, p);
    if Accepts(wanted, u) && (best.None? || DistanceSquared(u.pos, p) < DistanceSquared(best.value.pos, p)) {
      i := n;
      forall j | 0 <= j < n && Accepts(wanted, units[j])
        ensures DistanceSquared(u.pos, p) < DistanceSquared(units[j].pos, p)
      {
        assert units[j] == before[j];
        NearestIsNearest(before, wanted, p, units[j]);
      }
    } else {
      i := NearestIsFirst(before, wanted, p);
    }
  }

  /** Not further from u than the other. */
  predicate IsNearer(a: Unit, other: Unit, u: Unit) {
    DistanceSquared(a.pos, u.pos) <= DistanceSquared(other.pos, u.pos)
  }

  /** A finished own town hall structure on the ground. */
  predicate IsHall(w: World, h: Unit) {
    && h in w.observed && h.alliance == Self && h.buildProgress >= 1.0
    && h.unitType in {CommandCenter, OrbitalCommand, PlanetaryFortress}
  }

  /** An observed neutral patch within fifteen of a hall. */
  predicate IsPatchOf(w: World, hall: Unit, p: Unit) {
    && p in w.observed && p.alliance == Neutral && p.unitType.MineralField?
    && (p.pos.x - hall.pos.x) * (p.pos.x - hall.pos.x) + (p.pos.y - hall.pos.y) * (p.pos.y - hall.pos.y) <= 15.0 * 15.0
  }

  lemma PatchIff(w: World, hall: Unit, p: Unit)
    ensures p in Neutrals(w) && Accepts(PatchNear(hall.pos), p) <==> IsPatchOf(w, hall, p)
  {
  }

  /** The patch of a hall is the nearest in its mineral line, if there is one. */
  lemma HallPatchMeaning(w: World, hall: Unit)
    ensures HallPatch(w, hall).None? <==> forall p :: p in w.observed ==> !IsPatchOf(w, hall, p)
    ensures HallPatch(w, hall).Some? ==>
      var patch := HallPatch(w, hall).value;
      IsPatchOf(w, hall, patch) && forall p :: p in w.observed && IsPatchOf(w, hall, p) ==> IsNearer(patch, p, hall)
  {
    var patch := HallPatch(w, hall);
    if patch.Some? {
      PatchIff(w, hall, patch.value);
    }
    forall p | p in w.observed && IsPatchOf(w, hall, p)
      ensures patch.Some? && IsNearer(patch.value, p, hall)
    {
      PatchIff(w, hall, p);
      NearestIsNearest(Neutrals(w), PatchNear(hall.pos), hall.pos, p);
    }
  }

  /** A worker is sent back to the patch of the own finished town hall nearest to it. */
  lemma RecoveryPatchMeaning(w: World, u: Unit) returns (hall: Option<Unit>)
    ensures hall.None? ==> RecoveryPatch(w, u).None? && forall h :: h in w.observed ==> !IsHall(w, h)
    ensures hall.Some? ==>
      && IsHall(w, hall.value) && RecoveryPatch(w, u) == HallPatch(w, hall.value)
      && forall h :: h in w.observed && IsHall(w, h) ==> IsNearer(hall.value, h, u)
  {
    hall := Nearest(Controlled(w), HallStructure, u.pos);
    forall h | h in w.observed && IsHall(w, h) ensures hall.Some? && IsNearer(hall.value, h, u) {
      PickedIff(w, h);
      NearestIsNearest(Controlled(w), HallStructure, u.pos, h);
    }
  }

  /** A mineral worker counts for the finished hall nearest to it. */
  lemma MineralHallMeaning(w: World, u: Unit, halls: seq<Unit>)
    requires IsCommittedToMinerals(w, u)
    ensures MineralHall(w, u, halls).None? <==> forall h :: h in halls ==> h.buildProgress < 1.0
    ensures MineralHall(w, u, halls).Some? ==>
      var hall := MineralHall(w, u, halls).value;
      && hall in halls && hall.buildProgress >= 1.0
      && forall h :: h in halls && h.buildProgress >= 1.0 ==> IsNearer(hall, h, u)
  {
    forall h | h in halls && h.buildProgress >= 1.0
      ensures MineralHall(w, u, halls).Some? && IsNearer(MineralHall(w, u, halls).value, h, u)
    {
      NearestIsNearest(halls, ReadyHall, u.pos, h);
    }
  }

  /** The worker chosen for a refinery: no idle worker stands nearer, and a mineral worker is taken only if
      no idle one is available, and then none stands nearer. */
  lemma GasChoiceIsNearest(w: World, taken: set<Tag>, refinery: Unit, u: Unit, v: Unit)
    requires IsGasChoice(w, taken, refinery, Some(u))
    requires Available(w, taken, v) && !IsCommittedToRefinery(w, v)
    ensures v.orders == [] ==> u.orders == [] && IsNearer(u, v, refinery)
    ensures v.orders != [] && IsCommittedToMinerals(w, v) && u.orders != [] ==> IsNearer(u, v, refinery)
  {
    if v.orders == [] {
      assert Fits(w, taken, IdleForGas, v);
    } else if IsCommittedToMinerals(w, v) {
      assert Fits(w, taken, MineralForGas, v);
    }
  }

  lemma ReliefChoiceIsNearest(w: World, taken: set<Tag>, refinery: Unit, u: Unit, v: Unit)
    requires FirstNearest(w, taken, OnRefinery(refinery.tag), refinery.pos, Controlled(w), Some(u))
    requires Available(w, taken, v) && CommittedRefinery(w, v) == refinery.tag
    ensures IsNearer(u, v, refinery)
  {
    assert Fits(w, taken, OnRefinery(refinery.tag), v);
  }

  /** The finished own workers whose first order harvests a refinery. */
  ghost function CommittedWorkers(w: World, units: seq<Unit>, refinery: Tag): set<Unit> {
    set u | u in units && u.unitType == Scv && u.buildProgress >= 1.0 && CommittedRefinery(w, u) == refinery
  }

  lemma LastIsNew(units: seq<Unit>)
    requires units != [] && Distinct(TagsOf(units))
    ensures Distinct(TagsOf(units[..|units| - 1])) && units[|units| - 1] !in units[..|units| - 1]
  {
    var n, tags := |units| - 1, TagsOf(units);
    assert TagsOf(units[..n]) == tags[..n];
    forall i | 0 <= i < n ensures units[..n][i] != units[n] {
      assert tags[i] != tags[n];
    }
  }

  lemma CommittedWorkersNext(w: World, units: seq<Unit>, refinery: Tag)
    requires units != []
    ensures var last := units[|units| - 1];
      CommittedWorkers(w, units, refinery)
      == CommittedWorkers(w, units[..|units| - 1], refinery)
         + if IsCommittedHarvester(w, refinery, last) then {last} else {}
  {
    assert units == units[..|units| - 1] + [units[|units| - 1]];
  }

  lemma {:induction false} CommittedCountIsCardinality(w: World, refinery: Tag, units: seq<Unit>)
    requires Distinct(TagsOf(units))
    ensures CommittedCount(w, refinery, units) == |CommittedWorkers(w, units, refinery)|
  {
    if units == [] {
      assert CommittedWorkers(w, units, refinery) == {};
    } else {
      var n := |units| - 1;
      LastIsNew(units);
      CommittedCountIsCardinality(w, refinery, units[..n]);
      CommittedWorkersNext(w, units, refinery);
    }
  }

  /** What the bot takes for the harvesters of a refinery: the greater of what the game reports and what
      the orders show. */
  lemma GasBaseMeaning(w: World, r: Unit)
    requires WellFormed(w)
    ensures var shown := |CommittedWorkers(w, Controlled(w), r.tag)|;
      GasBase(w, r) == if shown <= r.assignedHarvesters then r.assignedHarvesters else shown
  {
    PickedDistinct(w.observed, OfAlliance(Self));
    CommittedCountIsCardinality(w, r.tag, Controlled(w));
  }
}
