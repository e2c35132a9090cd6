/** The type tables, the index into them, and sums taken type by type or unit by unit. */
module TypeSums {
  import opened GameTypes
  import opened UnitContainer

  /** GetTerranUnitTypeIndex; 25 means that there is none. */
  function UnitTypeIndex(t: UnitType): nat {
    match t
    case Marine => 0 case Marauder => 1 case Medivac => 2 case WidowMine => 3 case WidowMineBurrowed => 4
    case AutoTurret => 5 case Banshee => 6 case Battlecruiser => 7 case Cyclone => 8 case Ghost => 9
    case Hellion => 10 case HellionTank => 11 case Liberator => 12 case LiberatorAG => 13 case Mule => 14
    case Nuke => 15 case Raven => 16 case Reaper => 17 case Scv => 18 case SiegeTank => 19
    case SiegeTankSieged => 20 case Thor => 21 case ThorAP => 22 case VikingAssault => 23
    case VikingFighter => 24
    case _ => 25
  }

  /** GetTerranBuildingTypeIndex; 30 means that there is none. */
  function BuildingTypeIndex(t: UnitType): nat {
    match t
    case Armory => 0 case Barracks => 1 case BarracksFlying => 2 case BarracksReactor => 3
    case BarracksTechLab => 4 case Bunker => 5 case CommandCenter => 6 case CommandCenterFlying => 7
    case OrbitalCommand => 8 case OrbitalCommandFlying => 9 case PlanetaryFortress => 10
    case EngineeringBay => 11 case Factory => 12 case FactoryFlying => 13 case FactoryReactor => 14
    case FactoryTechLab => 15 case FusionCore => 16 case GhostAcademy => 17 case MissileTurret => 18
    case Reactor => 19 case Refinery => 20 case RefineryRich => 21 case SensorTower => 22 case Starport => 23
    case StarportFlying => 24 case StarportReactor => 25 case StarportTechLab => 26 case SupplyDepot => 27
    case SupplyDepotLowered => 28 case TechLab => 29
    case _ => 30
  }

  datatype Family = UnitFamily | BuildingFamily

  function Table(f: Family): seq<UnitType> {
    if f.UnitFamily? then TERRAN_UNIT_TYPES else TERRAN_BUILDING_TYPES
  }

  function TypeIndex(f: Family, t: UnitType): nat {
    if f.UnitFamily? then UnitTypeIndex(t) else BuildingTypeIndex(t)
  }

  lemma UnitEntry(i: nat)
    requires i < 25
    ensures UnitTypeIndex(TERRAN_UNIT_TYPES[i]) == i
  {
  }

  lemma LowUnitAtIndex(t: UnitType)
    requires UnitTypeIndex(t) < 13
    ensures TERRAN_UNIT_TYPES[UnitTypeIndex(t)] == t
  {
  }

  lemma HighUnitAtIndex(t: UnitType)
    requires 13 <= UnitTypeIndex(t) < 25
    ensures TERRAN_UNIT_TYPES[UnitTypeIndex(t)] == t
  {
  }

  lemma UnitAtIndex(t: UnitType)
    requires UnitTypeIndex(t) < 25
    ensures TERRAN_UNIT_TYPES[UnitTypeIndex(t)] == t
  {
    if UnitTypeIndex(t) < 13 {
      LowUnitAtIndex(t);
    } else {
      HighUnitAtIndex(t);
    }
  }

  lemma LowBuildingEntry(i: nat)
    requires i < 10
    ensures BuildingTypeIndex(TERRAN_BUILDING_TYPES[i]) == i
  {
  }

  lemma MiddleBuildingEntry(i: nat)
    requires 10 <= i < 20
    ensures BuildingTypeIndex(TERRAN_BUILDING_TYPES[i]) == i
  {
  }

  lemma HighBuildingEntry(i: nat)
    requires 20 <= i < 30
    ensures BuildingTypeIndex(TERRAN_BUILDING_TYPES[i]) == i
  {
  }

  lemma LowBuildingAtIndex(t: UnitType)
    requires BuildingTypeIndex(t) < 10
    ensures TERRAN_BUILDING_TYPES[BuildingTypeIndex(t)] == t
  {
  }

  lemma MiddleBuildingAtIndex(t: UnitType)
    requires 10 <= BuildingTypeIndex(t) < 20
    ensures TERRAN_BUILDING_TYPES[BuildingTypeIndex(t)] == t
  {
  }

  lemma HighBuildingAtIndex(t: UnitType)
    requires 20 <= BuildingTypeIndex(t) < 30
    ensures TERRAN_BUILDING_TYPES[BuildingTypeIndex(t)] == t
  {
  }

  predicate EntryAt(f: Family, i: nat) {
    i < |Table(f)| && TypeIndex(f, Table(f)[i]) == i
  }

  predicate TypeAt(f: Family, t: UnitType) {
    TypeIndex(f, t) < |Table(f)| && Table(f)[TypeIndex(f, t)] == t
  }

  lemma IndexOfEntry(f: Family, i: nat)
    requires i < |Table(f)|
    ensures EntryAt(f, i)
  {
    if f.UnitFamily? {
      UnitEntry(i);
    } else if i < 10 {
      LowBuildingEntry(i);
    } else if i < 20 {
      MiddleBuildingEntry(i);
    } else {
      HighBuildingEntry(i);
    }
  }

  lemma TypeAtIndex(f: Family, t: UnitType)
    requires TypeIndex(f, t) < |Table(f)|
    ensures TypeAt(f, t)
  {
    if f.UnitFamily? {
      UnitAtIndex(t);
    } else if BuildingTypeIndex(t) < 10 {
      LowBuildingAtIndex(t);
    } else if BuildingTypeIndex(t) < 20 {
      MiddleBuildingAtIndex(t);
    } else {
      HighBuildingAtIndex(t);
    }
  }

  lemma InUnitTable(t: UnitType)
    ensures t in TERRAN_UNIT_TYPES <==> UnitTypeIndex(t) < 25
  {
    if UnitTypeIndex(t) < 25 {
      UnitAtIndex(t);
    } else if i :| 0 <= i < 25 && TERRAN_UNIT_TYPES[i] == t {
      UnitEntry(i);
    }
  }

  lemma InBuildingTable(t: UnitType)
    ensures t in TERRAN_BUILDING_TYPES <==> BuildingTypeIndex(t) < 30
  {
    if BuildingTypeIndex(t) < 30 {
      TypeAtIndex(BuildingFamily, t);
    } else if i :| 0 <= i < 30 && TERRAN_BUILDING_TYPES[i] == t {
      IndexOfEntry(BuildingFamily, i);
    }
  }

  /** The switch and the table agree: the index of a type is its position, and types that are not in
      the table have no valid index. */
  lemma IndexIsPosition(f: Family, t: UnitType)
    ensures t in Table(f) <==> TypeIndex(f, t) < |Table(f)|
    ensures t in Table(f) ==> TypeAt(f, t)
  {
    if f.UnitFamily? {
      InUnitTable(t);
    } else {
      InBuildingTable(t);
    }
    if TypeIndex(f, t) < |Table(f)| {
      TypeAtIndex(f, t);
    }
  }

  lemma TableDistinct(f: Family)
    ensures Distinct(Table(f))
  {
    forall i, j | 0 <= i < j < |Table(f)| ensures Table(f)[i] != Table(f)[j] {
      IndexOfEntry(f, i);
      IndexOfEntry(f, j);
    }
  }

  type Weight = UnitType -> nat

  /** Type by type: how many there are, times the weight of one. */
  function TypeSum(table: seq<UnitType>, count: multiset<UnitType>, w: Weight): nat {
    if table == [] then 0
    else
      var last := table[|table| - 1];
      TypeSum(table[..|table| - 1], count, w) + count[last] * w(last)
  }

  /** Unit by unit: the weight of each unit whose type is in the table. */
  function UnitSum(table: seq<UnitType>, types: seq<UnitType>, w: Weight): nat {
    if types == [] then 0
    else
      var last := types[|types| - 1];
      UnitSum(table, types[..|types| - 1], w) + Share(table, last, w)
  }

  lemma {:induction false} EmptyTypeSum(table: seq<UnitType>, w: Weight)
    ensures TypeSum(table, multiset{}, w) == 0
  {
    if table != [] {
      EmptyTypeSum(table[..|table| - 1], w);
    }
  }

  /** How much one more unit of type t adds to the sum. */
  function Share(table: seq<UnitType>, t: UnitType, w: Weight): nat {
    if t in table then w(t) else 0
  }

  lemma {:induction false} OneMore(table: seq<UnitType>, count: multiset<UnitType>, t: UnitType, w: Weight)
    requires Distinct(table)
    ensures TypeSum(table, count + multiset{t}, w) == TypeSum(table, count, w) + Share(table, t, w)
  {
    if table != [] {
      var n := |table| - 1;
      OneMore(table[..n], count, t, w);
      OneMoreEntry(table[n], count, t, w);
      ShareOfLast(table, t, w);
    }
  }

  lemma OneMoreEntry(entry: UnitType, count: multiset<UnitType>, t: UnitType, w: Weight)
    ensures (count + multiset{t})[entry] * w(entry) == count[entry] * w(entry) + if entry == t then w(t) else 0
  {
  }

  lemma ShareOfLast(table: seq<UnitType>, t: UnitType, w: Weight)
    requires Distinct(table) && table != []
    ensures var n := |table| - 1;
      Share(table, t, w) == Share(table[..n], t, w) + if table[n] == t then w(t) else 0
  {
  }

  /** The two ways to sum agree, for any weights. */
  lemma {:induction false} ExchangeSums(table: seq<UnitType>, types: seq<UnitType>, w: Weight)
    requires Distinct(table)
    ensures TypeSum(table, multiset(types), w) == UnitSum(table, types, w)
  {
    if types == [] {
      EmptyTypeSum(table, w);
    } else {
      var n := |types| - 1;
      ExchangeSums(table, types[..n], w);
      assert types == types[..n] + [types[n]];
      assert multiset(types) == multiset(types[..n]) + multiset{types[n]};
      OneMore(table, multiset(types[..n]), types[n], w);
    }
  }

  function TypesOf(units: seq<Unit>): (types: seq<UnitType>)
    ensures |types| == |units| && forall i :: 0 <= i < |units| ==> types[i] == units[i].unitType
  {
    seq(|units|, i requires 0 <= i < |units| => units[i].unitType)
  }

  /** Over a list of units: the weight of every unit that passes all filters. */
  function KeptSum(units: seq<Unit>, fs: seq<Filter>, w: Weight): nat {
    if units == [] then 0
    else
      var last := units[|units| - 1];
      KeptSum(units[..|units| - 1], fs, w) + if KeptByAll(fs, last) then w(last.unitType) else 0
  }

  lemma {:induction false} SumOverKept(table: seq<UnitType>, units: seq<Unit>, fs: seq<Filter>, w: Weight)
    requires forall u :: KeptByAll(fs, u) ==> u.unitType in table
    ensures UnitSum(table, TypesOf(KeptBy(units, fs)), w) == KeptSum(units, fs, w)
  {
    if units != [] {
      var n := |units| - 1;
      SumOverKept(table, units[..n], fs, w);
      var before := KeptBy(units[..n], fs);
      if KeptByAll(fs, units[n]) {
        assert TypesOf(before + [units[n]])[..|before|] == TypesOf(before);
      } else {
        assert KeptBy(units, fs) == before;
      }
    }
  }
}
