/** The values the client library and the Terran bot exchange: tags, unit types, orders and
    the snapshot of one unit.  Floating-point quantities are reals. */
module GameTypes {

  datatype Option<+T> = None | Some(value: T)

  type Tag = nat

  const NULL_TAG: Tag := 0

  datatype Alliance = Self | Ally | Neutral | Enemy

  datatype DisplayType = Visible | Snapshot | Hidden | Placeholder

  datatype CloakState = CloakedUnknown | Cloaked | CloakedDetected | NotCloaked | CloakedAllied

  datatype UnitType =
    | Marine | Marauder | Medivac | WidowMine | WidowMineBurrowed | AutoTurret | Banshee | Battlecruiser
    | Cyclone | Ghost | Hellion | HellionTank | Liberator | LiberatorAG | Mule | Nuke | Raven | Reaper
    | Scv | SiegeTank | SiegeTankSieged | Thor | ThorAP | VikingAssault | VikingFighter
    | Armory | Barracks | BarracksFlying | BarracksReactor | BarracksTechLab | Bunker | CommandCenter
    | CommandCenterFlying | OrbitalCommand | OrbitalCommandFlying | PlanetaryFortress | EngineeringBay
    | Factory | FactoryFlying | FactoryReactor | FactoryTechLab | FusionCore | GhostAcademy
    | MissileTurret | Reactor | Refinery | RefineryRich | SensorTower | Starport | StarportFlying
    | StarportReactor | StarportTechLab | SupplyDepot | SupplyDepotLowered | TechLab
    | MineralField(variant: nat)
    | ForeignTownHall(race: nat)
    | InvalidType
    | OtherType(id: nat)

  datatype Ability =
    | HarvestGather | HarvestGatherScv | HarvestReturn | HarvestReturnScv | Smart
    | BuildSupplyDepot | BuildBarracks | BuildFactory | BuildStarport | BuildRefinery | BuildCommandCenter
    | TrainMarine | TrainMarauder | TrainMedivac | TrainWidowMine | TrainBanshee | TrainBattlecruiser
    | TrainCyclone | TrainGhost | TrainHellion | TrainLiberator | TrainRaven | TrainReaper | TrainScv
    | TrainSiegeTank | TrainThor | TrainVikingFighter
    | OtherAbility(id: nat)

  datatype Buff =
    | CarryMinerals | CarryHighYieldMinerals
    | CarryGas | CarryGasProtoss | CarryGasZerg
    | OtherBuff(id: nat)

  datatype Position = Position(x: real, y: real)

  function DistanceSquared(a: Position, b: Position): real {
    (a.x - b.x) * (a.x - b.x) + (a.y - b.y) * (a.y - b.y)
  }

  datatype Order = Order(ability: Ability, targetTag: Tag, targetPos: Position)

  datatype Unit = Unit(
    tag: Tag,
    alliance: Alliance,
    displayType: DisplayType,
    unitType: UnitType,
    pos: Position,
    buildProgress: real,
    cloak: CloakState,
    health: real,
    shield: real,
    weaponCooldown: real,
    vespeneContents: int,
    isFlying: bool,
    isBurrowed: bool,
    isHallucination: bool,
    isSelected: bool,
    isOnScreen: bool,
    isBlip: bool,
    isBuilding: bool,
    orders: seq<Order>,
    buffs: seq<Buff>,
    assignedHarvesters: int,
    idealHarvesters: int,
    isAlive: bool,
    lastSeenGameLoop: nat)

  /** The twenty-five unit types, in the order of TERRAN_UNIT_TYPES. */
  const TERRAN_UNIT_TYPES: seq<UnitType> := [
    Marine, Marauder, Medivac, WidowMine, WidowMineBurrowed, AutoTurret, Banshee, Battlecruiser,
    Cyclone, Ghost, Hellion, HellionTank, Liberator, LiberatorAG, Mule, Nuke, Raven, Reaper,
    Scv, SiegeTank, SiegeTankSieged, Thor, ThorAP, VikingAssault, VikingFighter]

  /** The thirty building types, in the order of TERRAN_BUILDING_TYPES. */
  const TERRAN_BUILDING_TYPES: seq<UnitType> := [
    Armory, Barracks, BarracksFlying, BarracksReactor, BarracksTechLab, Bunker, CommandCenter,
    CommandCenterFlying, OrbitalCommand, OrbitalCommandFlying, PlanetaryFortress, EngineeringBay,
    Factory, FactoryFlying, FactoryReactor, FactoryTechLab, FusionCore, GhostAcademy,
    MissileTurret, Reactor, Refinery, RefineryRich, SensorTower, Starport, StarportFlying,
    StarportReactor, StarportTechLab, SupplyDepot, SupplyDepotLowered, TechLab]

  predicate IsTerranUnit(t: UnitType) {
    t in TERRAN_UNIT_TYPES
  }

  predicate IsTerranBuilding(t: UnitType) {
    t in TERRAN_BUILDING_TYPES
  }

  predicate IsTownHall(t: UnitType) {
    || t.CommandCenter? || t.CommandCenterFlying? || t.OrbitalCommand? || t.OrbitalCommandFlying?
    || t.PlanetaryFortress? || t.ForeignTownHall?
  }

  predicate IsTrainTerranUnit(a: Ability) {
    TrainedUnitType(a).Some?
  }

  /** The unit type a training order produces. */
  function TrainedUnitType(a: Ability): Option<UnitType> {
    match a
    case TrainMarine => Some(Marine)
    case TrainMarauder => Some(Marauder)
    case TrainMedivac => Some(Medivac)
    case TrainWidowMine => Some(WidowMine)
    case TrainBanshee => Some(Banshee)
    case TrainBattlecruiser => Some(Battlecruiser)
    case TrainCyclone => Some(Cyclone)
    case TrainGhost => Some(Ghost)
    case TrainHellion => Some(Hellion)
    case TrainLiberator => Some(Liberator)
    case TrainRaven => Some(Raven)
    case TrainReaper => Some(Reaper)
    case TrainScv => Some(Scv)
    case TrainSiegeTank => Some(SiegeTank)
    case TrainThor => Some(Thor)
    case TrainVikingFighter => Some(VikingFighter)
    case _ => None
  }

  predicate IsCarryingMinerals(u: Unit) {
    CarryMinerals in u.buffs || CarryHighYieldMinerals in u.buffs
  }

  predicate IsCarryingVespene(u: Unit) {
    CarryGas in u.buffs || CarryGasProtoss in u.buffs || CarryGasZerg in u.buffs
  }

  function TagsOf(units: seq<Unit>): (tags: seq<Tag>)
    ensures |tags| == |units|
    ensures forall i :: 0 <= i < |units| ==> tags[i] == units[i].tag
  {
    seq(|units|, i requires 0 <= i < |units| => units[i].tag)
  }

  /** The last unit of the list with a tag: what a linear search that keeps overwriting finds. */
  function LastWithTag(units: seq<Unit>, tag: Tag): (r: Option<Unit>)
    ensures r.Some? <==> exists i :: 0 <= i < |units| && units[i].tag == tag
    ensures r.Some? ==> r.value in units && r.value.tag == tag
  {
    if units == [] then None
    else if units[|units| - 1].tag == tag then Some(units[|units| - 1])
    else LastWithTag(units[..|units| - 1], tag)
  }

  lemma {:induction false} LastWithTagAt(units: seq<Unit>, tag: Tag, i: nat)
    requires i < |units| && units[i].tag == tag
    requires forall j :: i < j < |units| ==> units[j].tag != tag
    ensures LastWithTag(units, tag) == Some(units[i])
  {
    if i < |units| - 1 {
      LastWithTagAt(units[..|units| - 1], tag, i);
    }
  }

  /** A part of a list, in its order: at gives the position of each element of the part. */
  ghost predicate InOrder<T>(part: seq<T>, whole: seq<T>, at: seq<nat>) {
    && |at| == |part|
    && (forall k :: 0 <= k < |at| ==> at[k] < |whole| && part[k] == whole[at[k]])
    && (forall k, l :: 0 <= k < l < |at| ==> at[k] < at[l])
  }

  lemma InOrderNext<T>(part: seq<T>, whole: seq<T>, at: seq<nat>, x: T)
    requires InOrder(part, whole, at)
    ensures InOrder(part, whole + [x], at) && InOrder(part + [x], whole + [x], at + [|whole|])
  {
  }

  /** Rows joined one after another. */
  function Flatten<T>(rows: seq<seq<T>>): seq<T> {
    if rows == [] then [] else Flatten(rows[..|rows| - 1]) + rows[|rows| - 1]
  }

  ghost predicate HasWidth<T>(rows: seq<seq<T>>, width: nat) {
    forall y :: 0 <= y < |rows| ==> |rows[y]| == width
  }

  lemma {:induction false} FlattenLength<T>(rows: seq<seq<T>>, width: nat)
    requires HasWidth(rows, width)
    ensures |Flatten(rows)| == width * |rows|
  {
    if rows != [] {
      var n := |rows| - 1;
      FlattenLength(rows[..n], width);
      assert width * n + width == width * (n + 1);
    }
  }

  /** Row-major order: entry x of row y stands at x plus y times the width. */
  lemma {:induction false} FlattenAt<T>(rows: seq<seq<T>>, width: nat, x: nat, y: nat)
    requires HasWidth(rows, width) && y < |rows| && x < width
    ensures x + y * width < |Flatten(rows)| && Flatten(rows)[x + y * width] == rows[y][x]
  {
    var n := |rows| - 1;
    FlattenLength(rows[..n], width);
    assert Flatten(rows) == Flatten(rows[..n]) + rows[n];
    if y < n {
      FlattenAt(rows[..n], width, x, y);
    } else {
      assert n * width == |Flatten(rows[..n])|;
    }
  }

  ghost predicate Distinct<T>(s: seq<T>) {
    forall i, j :: 0 <= i < j < |s| ==> s[i] != s[j]
  }

  ghost function ElementsOf<T>(s: seq<T>): set<T> {
    set x | x in s
  }

  /** A list has as many different elements as positions exactly when nothing repeats. */
  lemma {:induction false} ElementCount<T>(s: seq<T>)
    ensures |ElementsOf(s)| <= |s|
    ensures |ElementsOf(s)| == |s| <==> Distinct(s)
  {
    if s == [] {
      assert ElementsOf(s) == {};
    } else {
      var n := |s| - 1;
      ElementCount(s[..n]);
      assert s == s[..n] + [s[n]];
      assert ElementsOf(s) == ElementsOf(s[..n]) + {s[n]};
      assert Distinct(s) <==> Distinct(s[..n]) && s[n] !in s[..n];
    }
  }
}
