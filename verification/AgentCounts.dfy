/** The counters an agent keeps of its units and buildings, and the totals computed from them. */
module AgentCounts {
  import opened GameTypes
  import opened UnitContainer
  import opened TypeSums

  const UINT16_LIMIT := 0x1_0000
  const UINT32_LIMIT := 0x1_0000_0000

  /** What a 16-bit counter per table entry shows after counting a list of types. */
  function Histogram(f: Family, types: seq<UnitType>): (h: seq<nat>)
    ensures |h| == |Table(f)|
    ensures forall i :: 0 <= i < |h| ==> h[i] == multiset(types)[Table(f)[i]] % UINT16_LIMIT
  {
    seq(|Table(f)|, i requires 0 <= i < |Table(f)| => multiset(types)[Table(f)[i]] % UINT16_LIMIT)
  }

  /** A 16-bit counter counts one further. */
  function Bumped(n: nat): nat {
    (n + 1) % UINT16_LIMIT
  }

  function Incremented(f: Family, counts: seq<nat>, t: UnitType): (h: seq<nat>)
    requires |counts| == |Table(f)|
    ensures |h| == |counts|
  {
    var i := TypeIndex(f, t);
    if i < |counts| then counts[i := Bumped(counts[i])] else counts
  }

  lemma TypesNext(types: seq<UnitType>, k: nat)
    requires k < |types|
    ensures types[..k + 1] == types[..k] + [types[k]]
  {
  }

  lemma WrapNext(m: nat)
    ensures Bumped(m % UINT16_LIMIT) == (m + 1) % UINT16_LIMIT
  {
  }

  /** One more unit of type t changes the count at one position of the table at most. */
  lemma CountNext(table: seq<UnitType>, types: seq<UnitType>, t: UnitType, index: nat, i: nat)
    requires i < |table| && Distinct(table)
    requires if index < |table| then table[index] == t else t !in table
    ensures multiset(types + [t])[table[i]] == multiset(types)[table[i]] + if i == index then 1 else 0
  {
  }

  lemma HistogramEntryNext(f: Family, types: seq<UnitType>, t: UnitType, i: nat)
    requires i < |Table(f)|
    ensures Histogram(f, types + [t])[i] == Incremented(f, Histogram(f, types), t)[i]
  {
    IndexIsPosition(f, t);
    TableDistinct(f);
    CountNext(Table(f), types, t, TypeIndex(f, t), i);
    WrapNext(multiset(types)[Table(f)[i]]);
  }

  lemma HistogramNext(f: Family, types: seq<UnitType>, t: UnitType)
    ensures Histogram(f, types + [t]) == Incremented(f, Histogram(f, types), t)
  {
    forall i | 0 <= i < |Table(f)|
      ensures Histogram(f, types + [t])[i] == Incremented(f, Histogram(f, types), t)[i]
    {
      HistogramEntryNext(f, types, t, i);
    }
  }

  /** A type the table does not have leaves the counters alone. */
  lemma UnlistedNotCounted(f: Family, counts: seq<nat>, t: UnitType)
    requires |counts| == |Table(f)|
    ensures !Listed(f, t) ==> Incremented(f, counts, t) == counts
  {
    IndexIsPosition(f, t);
  }

  /** IsTerranUnit and IsTerranBuilding. */
  predicate Listed(f: Family, t: UnitType) {
    if f.UnitFamily? then IsTerranUnit(t) else IsTerranBuilding(t)
  }

  class TypeCounter {
    const family: Family
    const counts: array<nat>

    constructor (family: Family)
      ensures this.family == family && Valid() && fresh(counts)
    {
      this.family := family;
      counts := new nat[|Table(family)|](_ => 0);
    }

    ghost predicate Valid() {
      counts.Length == |Table(family)|
    }

    function Count(t: UnitType): nat
      requires Valid()
      reads counts
    {
      var i := TypeIndex(family, t);
      if i < counts.Length then counts[i] else 0
    }

    lemma {:induction false} UnlistedCountsNothing(t: UnitType)
      requires Valid() && t !in Table(family)
      ensures Count(t) == 0
    {
      IndexIsPosition(family, t);
    }

    method SetCount(t: UnitType, n: nat)
      requires Valid() && n < UINT16_LIMIT
      modifies counts
      ensures forall i :: 0 <= i < counts.Length ==>
        counts[i] == if i == TypeIndex(family, t) then n else old(counts[i])
    {
      var i := TypeIndex(family, t);
      if i < counts.Length {
        counts[i] := n;
      }
    }

    method Increment(t: UnitType)
      requires Valid()
      modifies counts
      ensures counts[..] == Incremented(family, old(counts[..]), t)
    {
      var i := TypeIndex(family, t);
      if i < counts.Length {
        counts[i] := Bumped(counts[i]);
      }
    }

    method Clear()
      requires Valid()
      modifies counts
      ensures counts[..] == Histogram(family, [])
    {
      var table := Table(family);
      for k := 0 to |table|
        invariant forall i :: 0 <= i < k ==> counts[i] == 0
      {
        IndexOfEntry(family, k);
        SetCount(table[k], 0);
      }
    }

    method CountIfListed(t: UnitType, ghost before: seq<UnitType>)
      requires Valid() && counts[..] == Histogram(family, before)
      modifies counts
      ensures counts[..] == Histogram(family, before + [t])
    {
      HistogramNext(family, before, t);
      UnlistedNotCounted(family, counts[..], t);
      if Listed(family, t) {
        Increment(t);
      }
    }

    /** Clears the counters, then counts the units whose type the table has. */
    method CountUnits(units: seq<Unit>)
      requires Valid()
      modifies counts
      ensures counts[..] == Histogram(family, TypesOf(units))
    {
      Clear();
      ghost var types := TypesOf(units);
      for k := 0 to |units|
        invariant counts[..] == Histogram(family, types[..k])
      {
        TypesNext(types, k);
        CountIfListed(units[k].unitType, types[..k]);
      }
      assert types[..|units|] == types;
    }

    method CountOne(t: UnitType, ghost before: seq<UnitType>)
      requires Valid() && counts[..] == Histogram(family, before)
      modifies counts
      ensures counts[..] == Histogram(family, before + [t])
    {
      HistogramNext(family, before, t);
      Increment(t);
    }

    /** Clears the counters, then counts the types in production: what the first order trains. */
    method CountTraining(buildings: seq<Unit>)
      requires Valid()
      modifies counts
      ensures counts[..] == Histogram(family, TrainedBy(buildings))
    {
      Clear();
      for k := 0 to |buildings|
        invariant counts[..] == Histogram(family, TrainedBy(buildings[..k]))
      {
        TrainedNext(buildings, k);
        var orders := buildings[k].orders;
        if orders == [] || !IsTrainTerranUnit(orders[0].ability) {
          continue;
        }
        CountOne(TrainedUnitType(orders[0].ability).value, TrainedBy(buildings[..k]));
      }
      assert buildings[..|buildings|] == buildings;
    }
  }

  /** The unit types that buildings are training right now. */
  function TrainedBy(buildings: seq<Unit>): seq<UnitType> {
    if buildings == [] then []
    else TrainedBy(buildings[..|buildings| - 1]) + TrainedFirst(buildings[|buildings| - 1].orders)
  }

  function TrainedFirst(orders: seq<Order>): seq<UnitType> {
    if orders != [] && TrainedUnitType(orders[0].ability).Some? then [TrainedUnitType(orders[0].ability).value] else []
  }

  lemma TrainedNext(buildings: seq<Unit>, k: nat)
    requires k < |buildings|
    ensures var before, first := TrainedBy(buildings[..k]), TrainedFirst(buildings[k].orders);
      TrainedBy(buildings[..k + 1]) == if first == [] then before else before + [first[0]]
  {
    assert buildings[..k + 1][..k] == buildings[..k];
  }

  /** Army totals leave out workers and MULEs. */
  function ArmyWeight(w: Weight): Weight {
    (t: UnitType) => if IsArmy(t) then w(t) else 0
  }

  const ONE: Weight := (t: UnitType) => 1

  /** The weighted sum of the first k counters. */
  function CounterSum(table: seq<UnitType>, counts: seq<nat>, w: Weight, k: nat): nat
    requires k <= |table| == |counts|
  {
    if k == 0 then 0 else CounterSum(table, counts, w, k - 1) + counts[k - 1] * w(table[k - 1])
  }

  /** What a unit type costs; the numbers themselves come from the cost tables. */
  datatype Costs = Costs(minerals: Weight, vespene: Weight, supply: Weight)

  class AgentUnits {
    const unitCounts: TypeCounter
    const inConstruction: TypeCounter
    const costs: Costs
    var armyCount: nat
    var armyValueMinerals: nat
    var armyValueVespene: nat
    var armySupply: nat

    constructor (costs: Costs)
      ensures Valid() && this.costs == costs
      ensures fresh(unitCounts) && fresh(unitCounts.counts) && fresh(inConstruction) && fresh(inConstruction.counts)
    {
      unitCounts := new TypeCounter(UnitFamily);
      inConstruction := new TypeCounter(UnitFamily);
      this.costs := costs;
      armyCount, armyValueMinerals, armyValueVespene, armySupply := 0, 0, 0, 0;
    }

    ghost predicate Valid() {
      && unitCounts.family == UnitFamily && inConstruction.family == UnitFamily
      && unitCounts.Valid() && inConstruction.Valid() && unitCounts.counts != inConstruction.counts
    }

    ghost function Total(w: Weight): nat
      requires Valid()
      reads unitCounts.counts
    {
      WrappedSum(unitCounts, TERRAN_UNIT_TYPES, w, 25)
    }

    method UpdateArmyUnitCounts()
      requires Valid()
      modifies `armyCount
      ensures armyCount == Total(ONE)
    {
      TableIsIndexed();
      armyCount := CountArmy(unitCounts, TERRAN_UNIT_TYPES);
    }

    method UpdateArmyUnitValues()
      requires Valid()
      modifies `armyValueMinerals, `armyValueVespene, `armySupply
      ensures armyValueMinerals == Total(costs.minerals)
      ensures armyValueVespene == Total(costs.vespene)
      ensures armySupply == Total(costs.supply)
    {
      TableIsIndexed();
      armyValueMinerals, armyValueVespene, armySupply := ValueArmy(unitCounts, costs, TERRAN_UNIT_TYPES);
    }

    ghost predicate TotalsCurrent()
      requires Valid()
      reads this, unitCounts.counts
    {
      && armyCount == Total(ONE) && armyValueMinerals == Total(costs.minerals)
      && armyValueVespene == Total(costs.vespene) && armySupply == Total(costs.supply)
    }

    method Update()
      requires Valid()
      modifies this
      ensures TotalsCurrent()
    {
      UpdateArmyUnitCounts();
      UpdateArmyUnitValues();
    }
  }

  /** The counter of each table entry is found at the position of the entry. */
  predicate Indexed(table: seq<UnitType>) {
    forall k :: 0 <= k < |table| ==> UnitTypeIndex(table[k]) == k
  }

  lemma TableIsIndexed()
    ensures Indexed(TERRAN_UNIT_TYPES)
  {
    forall k | 0 <= k < 25 ensures UnitTypeIndex(TERRAN_UNIT_TYPES[k]) == k {
      UnitEntry(k);
    }
  }

  predicate IsArmy(t: UnitType) {
    t != Scv && t != Mule
  }

  /** A 32-bit total after count units of a given weight. */
  function Accrued(total: nat, count: nat, weight: nat): nat {
    (total + count * weight) % UINT32_LIMIT
  }

  ghost function WrappedSum(counter: TypeCounter, table: seq<UnitType>, w: Weight, k: nat): nat
    requires k <= |table| == counter.counts.Length
    reads counter.counts
  {
    CounterSum(table, counter.counts[..], ArmyWeight(w), k) % UINT32_LIMIT
  }

  lemma ArmyNext(counter: TypeCounter, table: seq<UnitType>, w: Weight, k: nat)
    requires counter.Valid() && counter.family == UnitFamily && Indexed(table)
    requires k < |table| == counter.counts.Length
    ensures WrappedSum(counter, table, w, k + 1) ==
      if IsArmy(table[k]) then Accrued(WrappedSum(counter, table, w, k), counter.Count(table[k]), w(table[k]))
      else WrappedSum(counter, table, w, k)
  {
    assert counter.counts[..][k] == counter.counts[k] == counter.Count(table[k]);
    TotalNext(CounterSum(table, counter.counts[..], ArmyWeight(w), k), counter.Count(table[k]) * w(table[k]));
  }

  method CountArmy(counter: TypeCounter, table: seq<UnitType>) returns (count: nat)
    requires counter.Valid() && counter.family == UnitFamily && Indexed(table) && |table| == counter.counts.Length
    ensures count == WrappedSum(counter, table, ONE, |table|)
  {
    count := 0;
    for k := 0 to |table|
      invariant count == WrappedSum(counter, table, ONE, k)
    {
      ArmyNext(counter, table, ONE, k);
      if !IsArmy(table[k]) {
        continue;
      }
      count := Accrued(count, counter.Count(table[k]), 1);
    }
  }

  method ValueArmy(counter: TypeCounter, costs: Costs, table: seq<UnitType>)
    returns (minerals: nat, vespene: nat, supply: nat)
    requires counter.Valid() && counter.family == UnitFamily && Indexed(table) && |table| == counter.counts.Length
    ensures minerals == WrappedSum(counter, table, costs.minerals, |table|)
    ensures vespene == WrappedSum(counter, table, costs.vespene, |table|)
    ensures supply == WrappedSum(counter, table, costs.supply, |table|)
  {
    minerals, vespene, supply := 0, 0, 0;
    for k := 0 to |table|
      invariant minerals == WrappedSum(counter, table, costs.minerals, k)
      invariant vespene == WrappedSum(counter, table, costs.vespene, k)
      invariant supply == WrappedSum(counter, table, costs.supply, k)
    {
      var t := table[k];
      ArmyNext(counter, table, costs.minerals, k);
      ArmyNext(counter, table, costs.vespene, k);
      ArmyNext(counter, table, costs.supply, k);
      if !IsArmy(t) {
        continue;
      }
      var count := counter.Count(t);
      minerals := Accrued(minerals, count, costs.minerals(t));
      vespene := Accrued(vespene, count, costs.vespene(t));
      supply := Accrued(supply, count, costs.supply(t));
    }
  }

  lemma TotalNext(sum: nat, more: nat)
    ensures (sum % UINT32_LIMIT + more) % UINT32_LIMIT == (sum + more) % UINT32_LIMIT
  {
  }

  const FINISHED_UNITS := [UnitOnly, ConstructionFinished]
  const FINISHED_BUILDINGS := [BuildingOnly, ConstructionFinished]
  const UNFINISHED_BUILDINGS := [BuildingOnly, ConstructionNotFinished]

  class AgentState {
    const container: TerranUnitContainer
    const units: AgentUnits
    const buildingCounts: TypeCounter
    const buildingsInConstruction: TypeCounter

    constructor (costs: Costs)
      ensures Valid() && units.costs == costs
    {
      container := new TerranUnitContainer();
      units := new AgentUnits(costs);
      buildingCounts := new TypeCounter(BuildingFamily);
      buildingsInConstruction := new TypeCounter(BuildingFamily);
    }

    ghost predicate Valid()
      reads container
    {
      && container.Valid() && units.Valid() && buildingCounts.Valid() && buildingsInConstruction.Valid()
      && buildingCounts.family == BuildingFamily && buildingsInConstruction.family == BuildingFamily
      && Apart()
    }

    /** The four counter arrays are four arrays. */
    ghost predicate Apart() {
      && buildingCounts.counts != buildingsInConstruction.counts
      && units.unitCounts.counts != buildingCounts.counts && units.unitCounts.counts != buildingsInConstruction.counts
      && units.inConstruction.counts != buildingCounts.counts
      && units.inConstruction.counts != buildingsInConstruction.counts
    }

    /** What each group of counters should show for the units the container controls. */
    ghost predicate UnitCountsCurrent()
      reads container`controlledUnits, units.unitCounts.counts
    {
      units.unitCounts.counts[..] == Histogram(UnitFamily, TypesOf(KeptBy(container.controlledUnits, FINISHED_UNITS)))
    }

    ghost predicate TrainingCurrent()
      reads container`controlledUnits, units.inConstruction.counts
    {
      units.inConstruction.counts[..]
      == Histogram(UnitFamily, TrainedBy(KeptBy(container.controlledUnits, FINISHED_BUILDINGS)))
    }

    ghost predicate BuildingCountsCurrent()
      reads container`controlledUnits, buildingCounts.counts
    {
      buildingCounts.counts[..]
      == Histogram(BuildingFamily, TypesOf(KeptBy(container.controlledUnits, FINISHED_BUILDINGS)))
    }

    ghost predicate ConstructionCurrent()
      reads container`controlledUnits, buildingsInConstruction.counts
    {
      buildingsInConstruction.counts[..]
      == Histogram(BuildingFamily, TypesOf(KeptBy(container.controlledUnits, UNFINISHED_BUILDINGS)))
    }

    method UpdateUnitCounts()
      requires Valid()
      modifies container`filteredUnits, container`selectedUnits, units.unitCounts.counts
      ensures Valid()
      ensures UnitCountsCurrent()
    {
      container.GetUnits();
      units.unitCounts.CountUnits(container.selectedUnits);
    }

    method UpdateUnitsInConstructionCounts()
      requires Valid()
      modifies container`filteredUnits, container`selectedUnits, units.inConstruction.counts
      ensures Valid()
      ensures TrainingCurrent()
    {
      container.GetBuildings();
      units.inConstruction.CountTraining(container.selectedUnits);
    }

    method UpdateBuildingCounts()
      requires Valid()
      modifies container`filteredUnits, container`selectedUnits, buildingCounts.counts
      ensures Valid()
      ensures BuildingCountsCurrent()
    {
      container.GetBuildings();
      buildingCounts.CountUnits(container.selectedUnits);
    }

    method UpdateBuildingsInConstructionCounts()
      requires Valid()
      modifies container`filteredUnits, container`selectedUnits, buildingsInConstruction.counts
      ensures Valid()
      ensures ConstructionCurrent()
    {
      container.GetBuildingsInConstruction();
      buildingsInConstruction.CountUnits(container.selectedUnits);
    }

    /** The first two passes. */
    method UpdateUnitCounters()
      requires Valid()
      modifies container`filteredUnits, container`selectedUnits
      modifies units.unitCounts.counts, units.inConstruction.counts
      ensures Valid() && UnitCountsCurrent() && TrainingCurrent()
    {
      UpdateUnitCounts();
      UpdateUnitsInConstructionCounts();
    }

    /** The last two passes. */
    method UpdateBuildingCounters()
      requires Valid()
      modifies container`filteredUnits, container`selectedUnits
      modifies buildingCounts.counts, buildingsInConstruction.counts
      ensures Valid() && BuildingCountsCurrent() && ConstructionCurrent()
    {
      UpdateBuildingCounts();
      UpdateBuildingsInConstructionCounts();
    }

    /** The four passes and the army totals, whatever the counters held before. */
    method UpdateCounts()
      requires Valid()
      modifies container`filteredUnits, container`selectedUnits
      modifies units.unitCounts.counts, units.inConstruction.counts
      modifies buildingCounts.counts, buildingsInConstruction.counts
      modifies units
      ensures Valid()
      ensures UnitCountsCurrent()
      ensures TrainingCurrent()
      ensures BuildingCountsCurrent()
      ensures ConstructionCurrent()
      ensures units.TotalsCurrent()
      ensures NoCounterWraps(UnitFamily, TypesOf(KeptBy(container.controlledUnits, FINISHED_UNITS))) ==>
        ArmyTotalsOf(container.controlledUnits)
    {
      UpdateUnitCounters();
      UpdateBuildingCounters();
      units.Update();
      if NoCounterWraps(UnitFamily, TypesOf(KeptBy(container.controlledUnits, FINISHED_UNITS))) {
        TotalsOfUnits();
      }
    }

    /** The army totals are the 32-bit sums over the individual finished units that are neither workers
        nor MULEs. */
    ghost predicate ArmyTotalsOf(controlled: seq<Unit>)
      reads units
    {
      && units.armyCount == |ArmyOf(controlled)| % UINT32_LIMIT
      && units.armyValueMinerals == ArmySumOf(controlled, units.costs.minerals)
      && units.armyValueVespene == ArmySumOf(controlled, units.costs.vespene)
      && units.armySupply == ArmySumOf(controlled, units.costs.supply)
    }

    lemma TotalsOfUnits()
      requires Valid() && UnitCountsCurrent() && units.TotalsCurrent()
      requires NoCounterWraps(UnitFamily, TypesOf(KeptBy(container.controlledUnits, FINISHED_UNITS)))
      ensures ArmyTotalsOf(container.controlledUnits)
    {
      var controlled := container.controlledUnits;
      ArmyTotalIsSumOverUnits(controlled, ONE);
      ArmyCountIsNumberOfUnits(controlled);
      ArmyTotalIsSumOverUnits(controlled, units.costs.minerals);
      ArmyTotalIsSumOverUnits(controlled, units.costs.vespene);
      ArmyTotalIsSumOverUnits(controlled, units.costs.supply);
    }
  }

  /** The 32-bit sum of what the units of the army weigh. */
  function ArmySumOf(controlled: seq<Unit>, w: Weight): nat {
    KeptSum(controlled, FINISHED_UNITS, ArmyWeight(w)) % UINT32_LIMIT
  }

  /** No type occurs so often that its 16-bit counter wraps. */
  predicate NoCounterWraps(f: Family, types: seq<UnitType>) {
    forall i :: 0 <= i < |Table(f)| ==> multiset(types)[Table(f)[i]] < UINT16_LIMIT
  }

  lemma {:induction false} CounterSumIsTypeSum(
    table: seq<UnitType>, counts: seq<nat>, count: multiset<UnitType>, w: Weight, k: nat)
    requires k <= |table| == |counts|
    requires forall i :: 0 <= i < k ==> counts[i] == count[table[i]]
    ensures CounterSum(table, counts, w, k) == TypeSum(table[..k], count, w)
  {
    if k > 0 {
      CounterSumIsTypeSum(table, counts, count, w, k - 1);
      assert table[..k][..k - 1] == table[..k - 1];
    }
  }

  /** The totals computed from the counters are the sums over the individual finished units other than
      workers and MULEs, if no counter wraps. */
  lemma {:induction false} ArmyTotalIsSumOverUnits(units: seq<Unit>, w: Weight)
    requires NoCounterWraps(UnitFamily, TypesOf(KeptBy(units, FINISHED_UNITS)))
    ensures var h := Histogram(UnitFamily, TypesOf(KeptBy(units, FINISHED_UNITS)));
      CounterSum(TERRAN_UNIT_TYPES, h, ArmyWeight(w), 25) == KeptSum(units, FINISHED_UNITS, ArmyWeight(w))
  {
    var types := TypesOf(KeptBy(units, FINISHED_UNITS));
    var table := Table(UnitFamily);
    TableDistinct(UnitFamily);
    HistogramIsCount(types);
    CounterSumIsTypeSum(table, Histogram(UnitFamily, types), multiset(types), ArmyWeight(w), 25);
    assert table[..25] == table;
    ExchangeSums(table, types, ArmyWeight(w));
    FinishedUnitsListed();
    SumOverKept(table, units, FINISHED_UNITS, ArmyWeight(w));
  }

  lemma HistogramIsCount(types: seq<UnitType>)
    requires NoCounterWraps(UnitFamily, types)
    ensures forall i :: 0 <= i < |Table(UnitFamily)| ==>
      Histogram(UnitFamily, types)[i] == multiset(types)[Table(UnitFamily)[i]]
  {
  }

  lemma FinishedUnitsListed()
    ensures forall u :: KeptByAll(FINISHED_UNITS, u) ==> u.unitType in Table(UnitFamily)
  {
    forall u | KeptByAll(FINISHED_UNITS, u) ensures u.unitType in Table(UnitFamily) {
      assert UnitOnly in FINISHED_UNITS;
      assert Keeps(UnitOnly, u);
    }
  }

  lemma TypesOfAppend(units: seq<Unit>, u: Unit)
    ensures TypesOf(units + [u]) == TypesOf(units) + [u.unitType]
  {
  }

  lemma TypeCountAppend(types: seq<UnitType>, last: UnitType, t: UnitType)
    ensures multiset(types + [last])[t] == multiset(types)[t] + OnlyType(t)(last)
  {
    assert multiset(types + [last]) == multiset(types) + multiset{last};
  }

  lemma CountAppend(units: seq<Unit>, u: Unit, kept: bool, t: UnitType)
    ensures multiset(TypesOf(units + if kept then [u] else []))[t]
         == multiset(TypesOf(units))[t] + if kept then OnlyType(t)(u.unitType) else 0
  {
    if kept {
      TypesOfAppend(units, u);
      TypeCountAppend(TypesOf(units), u.unitType, t);
    } else {
      assert units + [] == units;
    }
  }

  function OnlyType(t: UnitType): Weight {
    (s: UnitType) => if s == t then 1 else 0
  }

  lemma {:induction false} TypeCountIsKeptSum(units: seq<Unit>, fs: seq<Filter>, t: UnitType)
    ensures multiset(TypesOf(KeptBy(units, fs)))[t] == KeptSum(units, fs, OnlyType(t))
  {
    if units != [] {
      var n := |units| - 1;
      TypeCountIsKeptSum(units[..n], fs, t);
      CountAppend(KeptBy(units[..n], fs), units[n], KeptByAll(fs, units[n]), t);
    }
  }

  /** Counter i shows, modulo 2^16, how many of the units that pass the filters have type i. */
  lemma {:induction false} CounterIsNumberOfUnits(f: Family, units: seq<Unit>, fs: seq<Filter>, i: nat)
    requires i < |Table(f)|
    ensures Histogram(f, TypesOf(KeptBy(units, fs)))[i] == KeptSum(units, fs, OnlyType(Table(f)[i])) % UINT16_LIMIT
  {
    TypeCountIsKeptSum(units, fs, Table(f)[i]);
  }

  /** In particular the army count is the number of those units. */
  lemma {:induction false} ArmyCountIsNumberOfUnits(units: seq<Unit>)
    ensures KeptSum(units, FINISHED_UNITS, ArmyWeight(ONE)) == |ArmyOf(units)|
  {
    if units != [] {
      ArmyCountIsNumberOfUnits(units[..|units| - 1]);
    }
  }

  /** The army, unit by unit: finished, of a unit type, and neither a worker nor a MULE. */
  lemma {:induction false} ArmyMeaning(units: seq<Unit>, u: Unit)
    ensures multiset(ArmyOf(units))[u]
      == if IsTerranUnit(u.unitType) && u.buildProgress >= 1.0 && u.unitType != Scv && u.unitType != Mule
         then multiset(units)[u] else 0
  {
    if units != [] {
      var n := |units| - 1;
      ArmyMeaning(units[..n], u);
      assert units == units[..n] + [units[n]];
      FinishedUnit(units[n]);
    }
  }

  lemma KeptByPair(f: Filter, g: Filter, u: Unit)
    ensures KeptByAll([f, g], u) <==> Keeps(f, u) && Keeps(g, u)
  {
    assert [f, g][0] == f && [f, g][1] == g;
  }

  lemma FinishedUnit(u: Unit)
    ensures KeptByAll(FINISHED_UNITS, u) <==> IsTerranUnit(u.unitType) && u.buildProgress >= 1.0
  {
    KeptByPair(UnitOnly, ConstructionFinished, u);
  }

  lemma FinishedBuilding(u: Unit)
    ensures KeptByAll(FINISHED_BUILDINGS, u) <==> IsTerranBuilding(u.unitType) && u.buildProgress >= 1.0
  {
    KeptByPair(BuildingOnly, ConstructionFinished, u);
  }

  lemma UnfinishedBuilding(u: Unit)
    ensures KeptByAll(UNFINISHED_BUILDINGS, u) <==> IsTerranBuilding(u.unitType) && u.buildProgress < 1.0
  {
    KeptByPair(BuildingOnly, ConstructionNotFinished, u);
  }

  /** What a list of units weighs. */
  function Weigh(units: seq<Unit>, w: Weight): nat {
    if units == [] then 0 else Weigh(units[..|units| - 1], w) + w(units[|units| - 1].unitType)
  }

  lemma {:induction false} WeighNext(units: seq<Unit>, u: Unit, w: Weight)
    ensures Weigh(units + [u], w) == Weigh(units, w) + w(u.unitType)
  {
    assert (units + [u])[..|units|] == units;
  }

  /** The army sums are what the units of the army weigh. */
  lemma {:induction false} ArmySumIsWeight(units: seq<Unit>, w: Weight)
    ensures KeptSum(units, FINISHED_UNITS, ArmyWeight(w)) == Weigh(ArmyOf(units), w)
  {
    if units != [] {
      var n := |units| - 1;
      ArmySumIsWeight(units[..n], w);
      var army := ArmyOf(units[..n]);
      WeighNext(army, units[n], w);
      assert army + [] == army;
    }
  }

  /** How many units of a type are finished, or not. */
  function Number(units: seq<Unit>, t: UnitType, finished: bool): nat {
    if units == [] then 0
    else
      var last := units[|units| - 1];
      Number(units[..|units| - 1], t, finished)
      + if last.unitType == t && (last.buildProgress >= 1.0) == finished then 1 else 0
  }

  lemma {:induction false} KeptSumIsNumber(units: seq<Unit>, fs: seq<Filter>, t: UnitType, finished: bool)
    requires forall u: Unit :: u.unitType == t ==> (KeptByAll(fs, u) <==> (u.buildProgress >= 1.0) == finished)
    ensures KeptSum(units, fs, OnlyType(t)) == Number(units, t, finished)
  {
    if units != [] {
      KeptSumIsNumber(units[..|units| - 1], fs, t, finished);
    }
  }

  /** The unit counters show, as 16-bit numbers, how many finished units there are of each type, ... */
  lemma {:induction false} UnitCountersMeaning(units: seq<Unit>, i: nat)
    requires i < 25
    ensures var h := Histogram(UnitFamily, TypesOf(KeptBy(units, FINISHED_UNITS)));
      h[i] == Number(units, TERRAN_UNIT_TYPES[i], true) % 65536
  {
    forall u: Unit | u.unitType == TERRAN_UNIT_TYPES[i]
      ensures KeptByAll(FINISHED_UNITS, u) <==> (u.buildProgress >= 1.0) == true
    {
      FinishedUnit(u);
    }
    CounterIsNumberOfUnits(UnitFamily, units, FINISHED_UNITS, i);
    KeptSumIsNumber(units, FINISHED_UNITS, TERRAN_UNIT_TYPES[i], true);
  }

  /** ... the building counters how many finished buildings, ... */
  lemma {:induction false} BuildingCountersMeaning(units: seq<Unit>, i: nat)
    requires i < 30
    ensures var h := Histogram(BuildingFamily, TypesOf(KeptBy(units, FINISHED_BUILDINGS)));
      h[i] == Number(units, TERRAN_BUILDING_TYPES[i], true) % 65536
  {
    forall u: Unit | u.unitType == TERRAN_BUILDING_TYPES[i]
      ensures KeptByAll(FINISHED_BUILDINGS, u) <==> (u.buildProgress >= 1.0) == true
    {
      FinishedBuilding(u);
    }
    CounterIsNumberOfUnits(BuildingFamily, units, FINISHED_BUILDINGS, i);
    KeptSumIsNumber(units, FINISHED_BUILDINGS, TERRAN_BUILDING_TYPES[i], true);
  }

  /** ... and the construction counters how many buildings that are not finished. */
  lemma {:induction false} ConstructionCountersMeaning(units: seq<Unit>, i: nat)
    requires i < 30
    ensures var h := Histogram(BuildingFamily, TypesOf(KeptBy(units, UNFINISHED_BUILDINGS)));
      h[i] == Number(units, TERRAN_BUILDING_TYPES[i], false) % 65536
  {
    forall u: Unit | u.unitType == TERRAN_BUILDING_TYPES[i]
      ensures KeptByAll(UNFINISHED_BUILDINGS, u) <==> (u.buildProgress >= 1.0) == false
    {
      UnfinishedBuilding(u);
    }
    CounterIsNumberOfUnits(BuildingFamily, units, UNFINISHED_BUILDINGS, i);
    KeptSumIsNumber(units, UNFINISHED_BUILDINGS, TERRAN_BUILDING_TYPES[i], false);
  }

  /** What is in production: what the first order of some building trains. */
  lemma {:induction false} TrainedIff(buildings: seq<Unit>, t: UnitType)
    ensures t in TrainedBy(buildings) <==>
      exists k :: 0 <= k < |buildings| && buildings[k].orders != []
        && TrainedUnitType(buildings[k].orders[0].ability) == Some(t)
  {
    if buildings != [] {
      var n := |buildings| - 1;
      TrainedIff(buildings[..n], t);
      if k :| 0 <= k < n && buildings[k].orders != [] && TrainedUnitType(buildings[k].orders[0].ability) == Some(t) {
        assert buildings[..n][k] == buildings[k];
      }
    }
  }

  /** The finished units that are neither workers nor MULEs. */
  function ArmyOf(units: seq<Unit>): seq<Unit> {
    if units == [] then []
    else
      var last := units[|units| - 1];
      ArmyOf(units[..|units| - 1]) + if KeptByAll(FINISHED_UNITS, last) && IsArmy(last.unitType) then [last] else []
  }
}
