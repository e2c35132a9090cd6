/** FTerranUnitContainer: parallel arrays over the controlled units, a tag index into them and a
    mask that a chain of filters narrows. */
module UnitContainer {
  import opened GameTypes

  /** One value for each modelled FilterBy method of the container. */
  datatype Filter =
    | ByType(unitType: UnitType) | ByAlliance(alliance: Alliance)
    | AliveOnly | UnitOnly | BuildingOnly | WorkerOnly
    | ConstructionFinished | ConstructionNotFinished
    | Ground | Flying | NotBurrowed | Burrowed | NotHallucination | Hallucination
    | Selected | NotSelected | OnScreen | NotOnScreen | SensorBlip | NotSensorBlip
    | CloakedOnly | NotCloakedOnly | DetectedOnly | NotDetected | NotUnknownCloak
    | OrderTargetTag(target: Tag) | TrainingUnit

  /** Whether a unit survives a filter.  TrainingUnit follows the code: it drops the units that
      are training something, although its name says otherwise. */
  predicate Keeps(f: Filter, u: Unit) {
    match f
    case ByType(t) => u.unitType == t
    case ByAlliance(a) => u.alliance == a
    case AliveOnly => u.isAlive
    case UnitOnly => IsTerranUnit(u.unitType)
    case BuildingOnly => IsTerranBuilding(u.unitType)
    case WorkerOnly => u.unitType == Scv
    case ConstructionFinished => u.buildProgress >= 1.0
    case ConstructionNotFinished => u.buildProgress < 1.0
    case Ground => !u.isFlying
    case Flying => u.isFlying
    case NotBurrowed => !u.isBurrowed
    case Burrowed => u.isBurrowed
    case NotHallucination => !u.isHallucination
    case Hallucination => u.isHallucination
    case Selected => u.isSelected
    case NotSelected => !u.isSelected
    case OnScreen => u.isOnScreen
    case NotOnScreen => !u.isOnScreen
    case SensorBlip => u.isBlip
    case NotSensorBlip => !u.isBlip
    case CloakedOnly => u.cloak == Cloaked
    case NotCloakedOnly => u.cloak != Cloaked
    case DetectedOnly => u.cloak == CloakedDetected
    case NotDetected => u.cloak != CloakedDetected
    case NotUnknownCloak => u.cloak != CloakedUnknown
    case OrderTargetTag(t) => HasTarget(u.orders, t)
    case TrainingUnit => !IsTraining(u.orders)
  }

  predicate HasTarget(orders: seq<Order>, t: Tag) {
    exists o :: o in orders && o.targetTag == t
  }

  predicate IsTraining(orders: seq<Order>) {
    exists o :: o in orders && IsTrainTerranUnit(o.ability)
  }

  predicate KeptByAll(fs: seq<Filter>, u: Unit) {
    forall f :: f in fs ==> Keeps(f, u)
  }

  /** The units every filter of the chain keeps, in container order. */
  function KeptBy(units: seq<Unit>, fs: seq<Filter>): seq<Unit> {
    if units == [] then []
    else
      var last := units[|units| - 1];
      KeptBy(units[..|units| - 1], fs) + if KeptByAll(fs, last) then [last] else []
  }

  /** The state byte of a unit, bit by bit. */
  function FlagsOf(u: Unit): bv8 {
    (if u.isAlive then 1 as bv8 else 0) | (if u.isBuilding then 2 as bv8 else 0)
    | (if u.isFlying then 4 as bv8 else 0) | (if u.isBurrowed then 8 as bv8 else 0)
    | (if u.isHallucination then 16 as bv8 else 0) | (if u.isSelected then 32 as bv8 else 0)
    | (if u.isOnScreen then 64 as bv8 else 0) | (if u.isBlip then 128 as bv8 else 0)
  }

  /** Each flag can be read back from the state byte, whatever the other seven are. */
  lemma FlagsReadBack(u: Unit)
    ensures (FlagsOf(u) & 1 != 0) == u.isAlive
    ensures (FlagsOf(u) & 2 != 0) == u.isBuilding
    ensures (FlagsOf(u) & 4 != 0) == u.isFlying
    ensures (FlagsOf(u) & 8 != 0) == u.isBurrowed
    ensures (FlagsOf(u) & 16 != 0) == u.isHallucination
    ensures (FlagsOf(u) & 32 != 0) == u.isSelected
    ensures (FlagsOf(u) & 64 != 0) == u.isOnScreen
    ensures (FlagsOf(u) & 128 != 0) == u.isBlip
  {
  }

  predicate IsFlagFilter(f: Filter) {
    || f.AliveOnly? || f.Ground? || f.Flying? || f.NotBurrowed? || f.Burrowed? || f.NotHallucination?
    || f.Hallucination? || f.Selected? || f.NotSelected? || f.OnScreen? || f.NotOnScreen? || f.SensorBlip?
    || f.NotSensorBlip?
  }

  /** The test of a filter that looks at the state byte only. */
  predicate FlagTest(f: Filter, flags: bv8)
    requires IsFlagFilter(f)
  {
    match f
    case AliveOnly => flags & 1 != 0
    case Ground => flags & 4 == 0
    case Flying => flags & 4 != 0
    case NotBurrowed => flags & 8 == 0
    case Burrowed => flags & 8 != 0
    case NotHallucination => flags & 16 == 0
    case Hallucination => flags & 16 != 0
    case Selected => flags & 32 != 0
    case NotSelected => flags & 32 == 0
    case OnScreen => flags & 64 != 0
    case NotOnScreen => flags & 64 == 0
    case SensorBlip => flags & 128 != 0
    case NotSensorBlip => flags & 128 == 0
  }

  lemma {:induction false} FlagTestIsKeeps(f: Filter, u: Unit)
    requires IsFlagFilter(f)
    ensures FlagTest(f, FlagsOf(u)) == Keeps(f, u)
  {
    FlagsReadBack(u);
  }

  /** Row i of every parallel array is copied from unit i. */
  ghost predicate RowsMatch(units: seq<Unit>, alliances: seq<Alliance>, tags: seq<Tag>, unitTypes: seq<UnitType>,
                            buildProgress: seq<real>, cloakStates: seq<CloakState>, stateFlags: seq<bv8>,
                            orders: seq<seq<Order>>)
  {
    && |alliances| == |tags| == |unitTypes| == |buildProgress| == |units|
    && |cloakStates| == |stateFlags| == |orders| == |units|
    && forall i :: 0 <= i < |units| ==>
         RowMatches(units[i], alliances[i], tags[i], unitTypes[i], buildProgress[i], cloakStates[i],
                    stateFlags[i], orders[i])
  }

  ghost predicate RowMatches(u: Unit, alliance: Alliance, tag: Tag, unitType: UnitType, progress: real,
                             cloak: CloakState, flags: bv8, orders: seq<Order>)
  {
    && alliance == u.alliance && tag == u.tag && unitType == u.unitType && progress == u.buildProgress
    && cloak == u.cloak && flags == FlagsOf(u) && orders == u.orders
  }

  /** The index knows exactly the tags of the list and maps each to its last position. */
  ghost predicate IndexOf(units: seq<Unit>, index: map<Tag, nat>) {
    && (forall i :: 0 <= i < |units| ==> units[i].tag in index)
    && (forall t :: t in index ==> LastPosition(units, t, index[t]))
  }

  ghost predicate LastPosition(units: seq<Unit>, t: Tag, p: nat) {
    && p < |units| && units[p].tag == t
    && forall j :: p < j < |units| ==> units[j].tag != t
  }

  lemma IndexAfterAppend(units: seq<Unit>, index: map<Tag, nat>, u: Unit)
    requires IndexOf(units, index)
    ensures IndexOf(units + [u], index[u.tag := |units|])
  {
  }

  lemma RowsAfterAppend(units: seq<Unit>, alliances: seq<Alliance>, tags: seq<Tag>, unitTypes: seq<UnitType>,
                        buildProgress: seq<real>, cloakStates: seq<CloakState>, stateFlags: seq<bv8>,
                        orders: seq<seq<Order>>, u: Unit)
    requires RowsMatch(units, alliances, tags, unitTypes, buildProgress, cloakStates, stateFlags, orders)
    ensures RowsMatch(units + [u], alliances + [u.alliance], tags + [u.tag], unitTypes + [u.unitType],
                      buildProgress + [u.buildProgress], cloakStates + [u.cloak], stateFlags + [FlagsOf(u)],
                      orders + [u.orders])
  {
  }

  /** The mask holds exactly the units that every filter of the chain keeps. */
  ghost predicate MaskIs(units: seq<Unit>, mask: seq<bool>, fs: seq<Filter>) {
    |mask| == |units| && forall i :: 0 <= i < |units| ==> mask[i] == KeptByAll(fs, units[i])
  }

  /** The loop of SelectFilteredUnits over the unit list and the mask. */
  method CollectFiltered(units: seq<Unit>, mask: seq<bool>, ghost fs: seq<Filter>) returns (selected: seq<Unit>)
    requires MaskIs(units, mask, fs)
    ensures selected == KeptBy(units, fs)
  {
    selected := [];
    var i := 0;
    while i < |units|
      invariant 0 <= i <= |units|
      invariant selected == KeptBy(units[..i], fs)
    {
      KeptByStep(units, fs, i);
      if mask[i] {
        selected := selected + [units[i]];
      }
      i := i + 1;
    }
    assert units[..i] == units;
  }

  class TerranUnitContainer {
    var controlledUnits: seq<Unit>
    var filteredUnits: seq<bool>
    var selectedUnits: seq<Unit>
    var alliances: seq<Alliance>
    var tags: seq<Tag>
    var unitTypes: seq<UnitType>
    var buildProgress: seq<real>
    var cloakStates: seq<CloakState>
    var stateFlags: seq<bv8>
    var orders: seq<seq<Order>>
    var tagToIndex: map<Tag, nat>

    ghost predicate Valid()
      reads `controlledUnits, `filteredUnits, `alliances, `tags, `unitTypes, `buildProgress, `cloakStates
      reads `stateFlags, `orders, `tagToIndex
    {
      && RowsMatch(controlledUnits, alliances, tags, unitTypes, buildProgress, cloakStates, stateFlags, orders)
      && |filteredUnits| == |controlledUnits|
      && IndexOf(controlledUnits, tagToIndex)
    }

    /** The arrays, the mask and the tag index all have the size of the unit list. */
    predicate HasSynchronizedSizes()
      reads this
    {
      var n := |controlledUnits|;
      && |filteredUnits| == n && |alliances| == n && |tags| == n && |unitTypes| == n
      && |buildProgress| == n && |cloakStates| == n && |stateFlags| == n && |orders| == n
      && |tagToIndex| == n
    }

    constructor ()
      ensures Valid() && controlledUnits == []
    {
      controlledUnits, filteredUnits, selectedUnits, alliances, tags, unitTypes := [], [], [], [], [], [];
      buildProgress, cloakStates, stateFlags, orders, tagToIndex := [], [], [], [], map[];
    }

    /** A null pointer is ignored; any other unit becomes the last row, not yet filtered in. */
    method AddUnit(newUnit: Option<Unit>)
      requires Valid()
      modifies this
      ensures Valid()
      ensures newUnit.None? ==> controlledUnits == old(controlledUnits) && filteredUnits == old(filteredUnits)
      ensures newUnit.Some? ==>
        && controlledUnits == old(controlledUnits) + [newUnit.value]
        && filteredUnits == old(filteredUnits) + [false]
      ensures selectedUnits == old(selectedUnits)
    {
      if newUnit.None? {
        return;
      }
      var u := newUnit.value;
      IndexAfterAppend(controlledUnits, tagToIndex, u);
      AppendColumns(u);
      controlledUnits := controlledUnits + [u];
      filteredUnits := filteredUnits + [false];
      tagToIndex := tagToIndex[u.tag := |controlledUnits| - 1];
    }

    /** The push_back calls of AddUnit: one copied entry per parallel array. */
    method AppendColumns(u: Unit)
      requires RowsMatch(controlledUnits, alliances, tags, unitTypes, buildProgress, cloakStates, stateFlags, orders)
      modifies this`alliances, this`tags, this`unitTypes, this`buildProgress, this`cloakStates,
        this`stateFlags, this`orders
      ensures RowsMatch(controlledUnits + [u], alliances, tags, unitTypes, buildProgress, cloakStates, stateFlags,
                        orders)
    {
      RowsAfterAppend(controlledUnits, alliances, tags, unitTypes, buildProgress, cloakStates, stateFlags, orders, u);
      var flags := StateByte(u);
      alliances := alliances + [u.alliance];
      tags := tags + [u.tag];
      unitTypes := unitTypes + [u.unitType];
      buildProgress := buildProgress + [u.buildProgress];
      cloakStates := cloakStates + [u.cloak];
      stateFlags := stateFlags + [flags];
      orders := orders + [u.orders];
    }

    /** The SetFlag calls of AddUnit, one bit after another. */
    method StateByte(u: Unit) returns (flags: bv8)
      ensures flags == FlagsOf(u)
    {
      flags := 0;
      if u.isAlive { flags := flags | 1; }
      if u.isBuilding { flags := flags | 2; }
      if u.isFlying { flags := flags | 4; }
      if u.isBurrowed { flags := flags | 8; }
      if u.isHallucination { flags := flags | 16; }
      if u.isSelected { flags := flags | 32; }
      if u.isOnScreen { flags := flags | 64; }
      if u.isBlip { flags := flags | 128; }
    }

    method ResetAll()
      modifies this
      ensures Valid() && controlledUnits == [] && selectedUnits == []
    {
      controlledUnits, filteredUnits, selectedUnits, alliances, tags, unitTypes := [], [], [], [], [], [];
      buildProgress, cloakStates, stateFlags, orders, tagToIndex := [], [], [], [], map[];
    }

    /** Replaces the whole content by the given units. */
    method SetUnits(newUnits: seq<Unit>)
      modifies this
      ensures Valid() && controlledUnits == newUnits && selectedUnits == []
      ensures forall i :: 0 <= i < |newUnits| ==> !filteredUnits[i]
    {
      ResetAll();
      var i := 0;
      while i < |newUnits|
        invariant 0 <= i <= |newUnits|
        invariant Valid() && controlledUnits == newUnits[..i] && selectedUnits == []
        invariant forall j :: 0 <= j < i ==> !filteredUnits[j]
      {
        AddUnit(Some(newUnits[i]));
        i := i + 1;
      }
    }

    /** Lookup through the tag index agrees with a linear search of the unit list. */
    method GetUnitByTag(tag: Tag) returns (r: Option<Unit>)
      requires Valid()
      ensures r == LastWithTag(controlledUnits, tag)
    {
      if tag !in tagToIndex || tagToIndex[tag] >= |controlledUnits| {
        return None;
      }
      assert LastPosition(controlledUnits, tag, tagToIndex[tag]);
      LastWithTagAt(controlledUnits, tag, tagToIndex[tag]);
      return Some(controlledUnits[tagToIndex[tag]]);
    }

    /** The test each filter loop makes, on the parallel arrays. */
    predicate KeepsAt(f: Filter, i: nat)
      requires i < |controlledUnits| && Valid()
      reads this
    {
      match f
      case ByType(t) => unitTypes[i] == t
      case ByAlliance(a) => alliances[i] == a
      case UnitOnly => IsTerranUnit(controlledUnits[i].unitType)
      case BuildingOnly => IsTerranBuilding(controlledUnits[i].unitType)
      case WorkerOnly => unitTypes[i] == Scv
      case ConstructionFinished => !(buildProgress[i] < 1.0)
      case ConstructionNotFinished => !(buildProgress[i] >= 1.0)
      case CloakedOnly => cloakStates[i] == Cloaked
      case NotCloakedOnly => cloakStates[i] != Cloaked
      case DetectedOnly => cloakStates[i] == CloakedDetected
      case NotDetected => cloakStates[i] != CloakedDetected
      case NotUnknownCloak => cloakStates[i] != CloakedUnknown
      case OrderTargetTag(t) => HasTarget(orders[i], t)
      case TrainingUnit => !IsTraining(orders[i])
      case _ => FlagTest(f, stateFlags[i])
    }

    /** The arrays answer every filter as the unit itself would. */
    lemma KeepsAtIsKeeps(f: Filter, i: nat)
      requires Valid() && i < |controlledUnits|
      ensures KeepsAt(f, i) == Keeps(f, controlledUnits[i])
    {
      assert RowMatches(controlledUnits[i], alliances[i], tags[i], unitTypes[i], buildProgress[i], cloakStates[i],
                        stateFlags[i], orders[i]);
      if IsFlagFilter(f) {
        FlagTestIsKeeps(f, controlledUnits[i]);
      }
    }

    method ResetFilteredUnits()
      requires Valid()
      modifies this`filteredUnits
      ensures Valid() && MaskIs(controlledUnits, filteredUnits, [])
    {
      filteredUnits := seq(|controlledUnits|, _ => true);
    }

    /** The loop of one FilterBy method. */
    method FilterBy(f: Filter, ghost earlier: seq<Filter>)
      requires Valid() && MaskIs(controlledUnits, filteredUnits, earlier)
      modifies this`filteredUnits
      ensures Valid() && MaskIs(controlledUnits, filteredUnits, earlier + [f])
    {
      var i := 0;
      while i < |controlledUnits|
        invariant 0 <= i <= |controlledUnits|
        invariant Valid()
        invariant MaskIs(controlledUnits[..i], filteredUnits[..i], earlier + [f])
        invariant MaskIs(controlledUnits[i..], filteredUnits[i..], earlier)
      {
        KeepsAtIsKeeps(f, i);
        MaskStep(controlledUnits, filteredUnits, i, earlier, f);
        if filteredUnits[i] && !KeepsAt(f, i) {
          filteredUnits := filteredUnits[i := false];
        }
        i := i + 1;
      }
      assert controlledUnits[..i] == controlledUnits && filteredUnits[..i] == filteredUnits;
    }

    method SelectFilteredUnits(ghost fs: seq<Filter>)
      requires Valid() && MaskIs(controlledUnits, filteredUnits, fs)
      modifies this`selectedUnits
      ensures Valid() && selectedUnits == KeptBy(controlledUnits, fs)
    {
      selectedUnits := CollectFiltered(controlledUnits, filteredUnits, fs);
    }

    /** A chain of filters after a reset selects the units all of them keep, in order. */
    method Select(fs: seq<Filter>)
      requires Valid()
      modifies this`filteredUnits, this`selectedUnits
      ensures Valid() && selectedUnits == KeptBy(controlledUnits, fs)
    {
      ResetFilteredUnits();
      var k := 0;
      while k < |fs|
        invariant 0 <= k <= |fs|
        invariant Valid() && MaskIs(controlledUnits, filteredUnits, fs[..k])
      {
        FilterBy(fs[k], fs[..k]);
        assert fs[..k] + [fs[k]] == fs[..k + 1];
        k := k + 1;
      }
      assert fs[..k] == fs;
      SelectFilteredUnits(fs);
    }

    method GetUnits()
      requires Valid()
      modifies this`filteredUnits, this`selectedUnits
      ensures Valid() && selectedUnits == KeptBy(controlledUnits, [UnitOnly, ConstructionFinished])
    {
      Select([UnitOnly, ConstructionFinished]);
    }

    method GetBuildings()
      requires Valid()
      modifies this`filteredUnits, this`selectedUnits
      ensures Valid() && selectedUnits == KeptBy(controlledUnits, [BuildingOnly, ConstructionFinished])
    {
      Select([BuildingOnly, ConstructionFinished]);
    }

    method GetBuildingsInConstruction()
      requires Valid()
      modifies this`filteredUnits, this`selectedUnits
      ensures Valid() && selectedUnits == KeptBy(controlledUnits, [BuildingOnly, ConstructionNotFinished])
    {
      Select([BuildingOnly, ConstructionNotFinished]);
    }

    method GetWorkers()
      requires Valid()
      modifies this`filteredUnits, this`selectedUnits
      ensures Valid() && selectedUnits == KeptBy(controlledUnits, [WorkerOnly])
    {
      Select([WorkerOnly]);
    }

    /** The sizes agree exactly when no tag repeats. */
    lemma SynchronizedIffDistinct()
      requires Valid()
      ensures HasSynchronizedSizes() <==> Distinct(TagsOf(controlledUnits))
    {
      IndexSize(controlledUnits, tagToIndex);
    }
  }

  /** The tag index is as large as the list exactly when no tag repeats. */
  lemma IndexSize(units: seq<Unit>, index: map<Tag, nat>)
    requires IndexOf(units, index)
    ensures |index| == |units| <==> Distinct(TagsOf(units))
  {
    var tags := TagsOf(units);
    assert index.Keys == ElementsOf(tags) by {
      forall t | t in index.Keys
        ensures t in ElementsOf(tags)
      {
        assert LastPosition(units, t, index[t]);
        assert tags[index[t]] == t;
      }
      forall t | t in ElementsOf(tags)
        ensures t in index.Keys
      {
        var i :| 0 <= i < |tags| && tags[i] == t;
        assert units[i].tag == t;
      }
    }
    assert |index| == |index.Keys|;
    ElementCount(tags);
  }

  /** With distinct tags the lookup finds the one unit with the tag. */
  lemma {:induction false} LookupOfDistinct(units: seq<Unit>, i: nat)
    requires i < |units| && Distinct(TagsOf(units))
    ensures LastWithTag(units, units[i].tag) == Some(units[i])
  {
    var tags := TagsOf(units);
    assert forall j :: i < j < |units| ==> tags[i] != tags[j];
    LastWithTagAt(units, units[i].tag, i);
  }

  /** How often a chain selects a unit. */
  function KeptCount(units: seq<Unit>, fs: seq<Filter>, u: Unit): nat {
    multiset(KeptBy(units, fs))[u]
  }

  /** A chain selects each unit as often as it is held if all filters keep it, and never otherwise. */
  lemma {:induction false} KeptByMeaning(units: seq<Unit>, fs: seq<Filter>, u: Unit)
    ensures KeptCount(units, fs, u) == if KeptByAll(fs, u) then multiset(units)[u] else 0
  {
    if units != [] {
      var n := |units| - 1;
      KeptByMeaning(units[..n], fs, u);
      KeptCountNext(units[..n], fs, units[n], u);
      assert units == units[..n] + [units[n]];
    }
  }

  lemma {:induction false} KeptCountNext(units: seq<Unit>, fs: seq<Filter>, last: Unit, u: Unit)
    ensures KeptCount(units + [last], fs, u)
      == KeptCount(units, fs, u) + if KeptByAll(fs, last) && last == u then 1 else 0
    ensures multiset(units + [last])[u] == multiset(units)[u] + if last == u then 1 else 0
  {
    assert (units + [last])[..|units|] == units;
  }

  /** A selection keeps the order of the container. */
  lemma {:induction false} KeptInOrder(units: seq<Unit>, fs: seq<Filter>) returns (at: seq<nat>)
    ensures InOrder(KeptBy(units, fs), units, at)
  {
    at := [];
    if units != [] {
      var n := |units| - 1;
      at := KeptInOrder(units[..n], fs);
      InOrderNext(KeptBy(units[..n], fs), units[..n], at, units[n]);
      assert units == units[..n] + [units[n]];
      if KeptByAll(fs, units[n]) {
        at := at + [n];
      }
    }
  }

  /** The order and repetition of filters in a chain do not matter. */
  lemma {:induction false} FilterOrderIrrelevant(units: seq<Unit>, fs: seq<Filter>, gs: seq<Filter>)
    requires forall f :: f in fs <==> f in gs
    ensures KeptBy(units, fs) == KeptBy(units, gs)
  {
    if units != [] {
      FilterOrderIrrelevant(units[..|units| - 1], fs, gs);
    }
  }

  /** Finished and unfinished buildings split the buildings between them. */
  lemma BuildingsPartition(units: seq<Unit>, u: Unit)
    ensures var finished := KeptCount(units, [BuildingOnly, ConstructionFinished], u);
      var unfinished := KeptCount(units, [BuildingOnly, ConstructionNotFinished], u);
      && finished + unfinished == KeptCount(units, [BuildingOnly], u)
      && (finished == 0 || unfinished == 0)
  {
    KeptByTwo(units, BuildingOnly, ConstructionFinished, u);
    KeptByTwo(units, BuildingOnly, ConstructionNotFinished, u);
    KeptByOne(units, BuildingOnly, u);
  }

  /** The two filters on orders: every order counts, not only the first. */
  lemma {:induction false} OrderFiltersMeaning(u: Unit, t: Tag)
    ensures Keeps(OrderTargetTag(t), u) <==> exists k :: 0 <= k < |u.orders| && u.orders[k].targetTag == t
    ensures Keeps(TrainingUnit, u) <==>
      forall k :: 0 <= k < |u.orders| ==> TrainedUnitType(u.orders[k].ability).None?
  {
    if k :| 0 <= k < |u.orders| && u.orders[k].targetTag == t {
      assert u.orders[k] in u.orders;
    }
    forall k | 0 <= k < |u.orders| && Keeps(TrainingUnit, u) ensures TrainedUnitType(u.orders[k].ability).None? {
      assert u.orders[k] in u.orders;
    }
  }

  /** What the selections of the bot hold, in terms of the units themselves: finished units, ... */
  lemma UnitsMeaning(units: seq<Unit>, u: Unit)
    ensures KeptCount(units, [UnitOnly, ConstructionFinished], u)
      == if IsTerranUnit(u.unitType) && u.buildProgress >= 1.0 then multiset(units)[u] else 0
  {
    KeptByTwo(units, UnitOnly, ConstructionFinished, u);
  }

  /** ... finished buildings, ... */
  lemma BuildingsMeaning(units: seq<Unit>, u: Unit)
    ensures KeptCount(units, [BuildingOnly, ConstructionFinished], u)
      == if IsTerranBuilding(u.unitType) && u.buildProgress >= 1.0 then multiset(units)[u] else 0
  {
    KeptByTwo(units, BuildingOnly, ConstructionFinished, u);
  }

  /** ... buildings under construction, ... */
  lemma ConstructionMeaning(units: seq<Unit>, u: Unit)
    ensures KeptCount(units, [BuildingOnly, ConstructionNotFinished], u)
      == if IsTerranBuilding(u.unitType) && u.buildProgress < 1.0 then multiset(units)[u] else 0
  {
    KeptByTwo(units, BuildingOnly, ConstructionNotFinished, u);
  }

  /** ... and workers, finished or not. */
  lemma WorkersMeaning(units: seq<Unit>, u: Unit)
    ensures KeptCount(units, [WorkerOnly], u) == if u.unitType == Scv then multiset(units)[u] else 0
  {
    KeptByOne(units, WorkerOnly, u);
  }

  lemma KeptByOne(units: seq<Unit>, f: Filter, u: Unit)
    ensures KeptCount(units, [f], u) == if Keeps(f, u) then multiset(units)[u] else 0
  {
    KeptByMeaning(units, [f], u);
    assert KeptByAll([f], u) == Keeps(f, u) by {
      assert [f][0] == f;
    }
  }

  lemma KeptByTwo(units: seq<Unit>, f: Filter, g: Filter, u: Unit)
    ensures KeptCount(units, [f, g], u) == if Keeps(f, u) && Keeps(g, u) then multiset(units)[u] else 0
  {
    KeptByMeaning(units, [f, g], u);
    KeptByAllAppend([f], g, u);
    assert [f] + [g] == [f, g];
    assert KeptByAll([f], u) == Keeps(f, u) by {
      assert [f][0] == f;
    }
  }

  lemma {:induction false} KeptByStep(units: seq<Unit>, fs: seq<Filter>, i: nat)
    requires i < |units|
    ensures KeptBy(units[..i + 1], fs) == KeptBy(units[..i], fs) + if KeptByAll(fs, units[i]) then [units[i]] else []
  {
    assert units[..i + 1][..i] == units[..i];
  }

  lemma KeptByAllAppend(fs: seq<Filter>, f: Filter, u: Unit)
    ensures KeptByAll(fs + [f], u) == (KeptByAll(fs, u) && Keeps(f, u))
  {
  }

  /** One round of a filter loop moves unit i from the unfiltered to the filtered part. */
  lemma MaskStep(units: seq<Unit>, mask: seq<bool>, i: nat, fs: seq<Filter>, f: Filter)
    requires i < |units| == |mask|
    requires MaskIs(units[..i], mask[..i], fs + [f]) && MaskIs(units[i..], mask[i..], fs)
    ensures var b := mask[i] && Keeps(f, units[i]);
      var after := mask[i := b];
      && MaskIs(units[..i + 1], after[..i + 1], fs + [f])
      && MaskIs(units[i + 1..], after[i + 1..], fs)
  {
  }
}
