/** UnitPool: an arena of units in blocks of one thousand, two tag indexes over its slots and the
    event lists of the current frame. */
module UnitPools {
  import opened GameTypes

  const ENTRY_SIZE: nat := 1000

  /** The address of a unit: a block and a place in it.  It never changes once handed out. */
  datatype Slot = Slot(block: nat, offset: nat)

  function SlotAt(i: nat): Slot {
    Slot(i / ENTRY_SIZE, i % ENTRY_SIZE)
  }

  datatype Damage = Damage(tag: Tag, health: real, shield: real)

  /** What the pool means: units by tag, known in order of creation, and the frame's events. */
  datatype View = View(
    known: seq<Tag>,
    units: map<Tag, Unit>,
    existing: set<Tag>,
    created: seq<Tag>,
    entered: seq<Tag>,
    completed: seq<Tag>,
    damaged: seq<Damage>,
    idled: set<Tag>)

  const EMPTY_VIEW := View([], map[], {}, [], [], [], [], {})

  /** A slot nobody has written yet. */
  const BLANK_UNIT: Unit := Unit(0, Neutral, Visible, InvalidType, Position(0.0, 0.0), 0.0, CloakedUnknown, 0.0, 0.0,
    0.0, 0, false, false, false, false, false, false, false, [], [], 0, 0, false, 0)

  function Created(v: View, t: Tag): View {
    if t in v.known then v.(existing := v.existing + {t})
    else v.(known := v.known + [t], units := v.units[t := BLANK_UNIT], existing := v.existing + {t},
            created := v.created + [t])
  }

  function ClearedView(v: View): View {
    v.(existing := {}, created := [], entered := [], completed := [], damaged := [], idled := {})
  }

  /** The unit the pool remembers for a tag; an unwritten slot for a tag it does not know. */
  function UnitOf(v: View, t: Tag): Unit {
    if t in v.units then v.units[t] else BLANK_UNIT
  }

  function Dead(v: View, t: Tag): View {
    if t in v.known then v.(units := v.units[t := UnitOf(v, t).(isAlive := false)], existing := v.existing - {t}) else v
  }

  /** AddUnitIdled ignores units of other players. */
  function Idled(v: View, t: Tag): View
    requires t in v.units
  {
    if v.units[t].alliance == Self then v.(idled := v.idled + {t}) else v
  }

  /** The full index maps the i-th known tag to the i-th slot. */
  ghost predicate IndexRep(known: seq<Tag>, index: map<Tag, Slot>) {
    && Distinct(known)
    && (forall t :: t in index <==> t in known)
    && forall i :: 0 <= i < |known| ==> index[known[i]] == SlotAt(i)
  }

  /** Enough full-sized blocks and no more: one for every started thousand. */
  ghost predicate BlockShape(n: nat, blocks: seq<seq<Unit>>) {
    && |blocks| == (n + ENTRY_SIZE - 1) / ENTRY_SIZE
    && forall b :: 0 <= b < |blocks| ==> |blocks[b]| == ENTRY_SIZE
  }

  lemma SlotsDiffer(i: nat, j: nat)
    ensures SlotAt(i) == SlotAt(j) <==> i == j
  {
  }

  ghost predicate BlocksRep(known: seq<Tag>, units: map<Tag, Unit>, blocks: seq<seq<Unit>>) {
    && BlockShape(|known|, blocks)
    && (forall t :: t in units <==> t in known)
    && forall i :: 0 <= i < |known| ==> UnitAt(blocks, SlotAt(i)) == Some(units[known[i]])
  }

  function UnitAt(blocks: seq<seq<Unit>>, s: Slot): Option<Unit> {
    if s.block < |blocks| && s.offset < |blocks[s.block]| then Some(blocks[s.block][s.offset]) else None
  }

  /** Existing entries are a part of the full index. */
  ghost predicate ExistingRep(index: map<Tag, Slot>, existing: map<Tag, Slot>, tags: set<Tag>) {
    && (forall t :: t in existing <==> t in tags)
    && forall t :: t in existing ==> t in index && existing[t] == index[t]
  }

  /** A list of unit pointers and the tags it stands for. */
  ghost predicate ListRep(index: map<Tag, Slot>, slots: seq<Slot>, tags: seq<Tag>) {
    && |slots| == |tags|
    && forall k :: 0 <= k < |tags| ==> tags[k] in index && slots[k] == index[tags[k]]
  }

  datatype SlotDamage = SlotDamage(slot: Slot, health: real, shield: real)

  ghost predicate DamageRep(index: map<Tag, Slot>, slots: seq<SlotDamage>, damaged: seq<Damage>) {
    && |slots| == |damaged|
    && forall k :: 0 <= k < |damaged| ==>
         && damaged[k].tag in index && slots[k].slot == index[damaged[k].tag]
         && slots[k].health == damaged[k].health && slots[k].shield == damaged[k].shield
  }

  ghost predicate SetRep(index: map<Tag, Slot>, slots: set<Slot>, tags: set<Tag>) {
    && (forall t :: t in tags ==> t in index && index[t] in slots)
    && (forall s :: s in slots ==> exists t :: t in tags && t in index && index[t] == s)
  }

  lemma BlocksAfterCreate(known: seq<Tag>, units: map<Tag, Unit>, blocks: seq<seq<Unit>>, t: Tag)
    requires BlocksRep(known, units, blocks) && t !in known
    ensures var grown := if |known| % ENTRY_SIZE == 0 then blocks + [seq(ENTRY_SIZE, _ => BLANK_UNIT)] else blocks;
      var s := SlotAt(|known|);
      && s.block < |grown| && |grown[s.block]| == ENTRY_SIZE
      && BlocksRep(known + [t], units[t := BLANK_UNIT],
                   grown[s.block := grown[s.block][s.offset := BLANK_UNIT]])
  {
  }

  lemma BlocksAfterWrite(known: seq<Tag>, units: map<Tag, Unit>, blocks: seq<seq<Unit>>, i: nat, u: Unit)
    requires BlocksRep(known, units, blocks) && Distinct(known) && i < |known|
    ensures var s := SlotAt(i);
      && s.block < |blocks| && s.offset < |blocks[s.block]|
      && BlocksRep(known, units[known[i] := u], blocks[s.block := blocks[s.block][s.offset := u]])
  {
  }

  lemma IndexAfterCreate(known: seq<Tag>, index: map<Tag, Slot>, t: Tag)
    requires IndexRep(known, index) && t !in known
    ensures IndexRep(known + [t], index[t := SlotAt(|known|)])
  {
  }

  /** The arena: blocks of units, the next free place and the two tag indexes. */
  datatype Store = Store(blocks: seq<seq<Unit>>, first: nat, second: nat, index: map<Tag, Slot>,
                         existing: map<Tag, Slot>)

  /** The event lists of the frame, as pointers to units. */
  datatype Events = Events(created: seq<Slot>, entered: seq<Slot>, completed: seq<Slot>, damaged: seq<SlotDamage>,
                           idled: set<Slot>)

  ghost predicate StoreRep(v: View, st: Store) {
    && IndexRep(v.known, st.index)
    && BlocksRep(v.known, v.units, st.blocks)
    && |v.known| == ENTRY_SIZE * st.first + st.second && st.second < ENTRY_SIZE
    && ExistingRep(st.index, st.existing, v.existing)
  }

  ghost predicate EventsRep(v: View, index: map<Tag, Slot>, e: Events) {
    && ListRep(index, e.created, v.created)
    && ListRep(index, e.entered, v.entered)
    && ListRep(index, e.completed, v.completed)
    && DamageRep(index, e.damaged, v.damaged)
    && SetRep(index, e.idled, v.idled)
  }

  /** A block is pushed only when there is none or the last one is full. */
  function Grown(st: Store): seq<seq<Unit>> {
    if |st.blocks| == 0 || |st.blocks| == st.first then st.blocks + [seq(ENTRY_SIZE, _ => BLANK_UNIT)] else st.blocks
  }

  lemma NextSlot(v: View, st: Store)
    requires StoreRep(v, st)
    ensures Slot(st.first, st.second) == SlotAt(|v.known|)
    ensures |st.blocks| == st.first + (if st.second > 0 then 1 else 0)
    ensures st.first < |Grown(st)|
    ensures Grown(st)
      == if |v.known| % ENTRY_SIZE == 0 then st.blocks + [seq(ENTRY_SIZE, _ => BLANK_UNIT)] else st.blocks
  {
  }

  lemma StoreAfterCreate(v: View, st: Store, t: Tag, st': Store)
    requires StoreRep(v, st) && t !in st.index
    requires st.first < |Grown(st)| && |Grown(st)[st.first]| == ENTRY_SIZE
    requires st'.blocks == Grown(st)[st.first := Grown(st)[st.first][st.second := BLANK_UNIT]]
    requires ENTRY_SIZE * st'.first + st'.second == ENTRY_SIZE * st.first + st.second + 1 && st'.second < ENTRY_SIZE
    requires st'.index == st.index[t := Slot(st.first, st.second)]
    requires st'.existing == st.existing[t := Slot(st.first, st.second)]
    ensures StoreRep(Created(v, t), st')
  {
    NextSlot(v, st);
    BlocksAfterCreate(v.known, v.units, st.blocks, t);
    IndexAfterCreate(v.known, st.index, t);
  }

  lemma StoreAfterRevisit(v: View, st: Store, t: Tag)
    requires StoreRep(v, st) && t in st.index
    ensures StoreRep(Created(v, t), st.(existing := st.existing[t := st.index[t]]))
  {
  }

  lemma StoreAfterDeath(v: View, st: Store, t: Tag)
    requires StoreRep(v, st)
    ensures StoreRep(v.(existing := v.existing - {t}),
                     st.(existing := map k | k in st.existing && k != t :: st.existing[k]))
  {
  }

  lemma EventsAfterCreate(v: View, index: map<Tag, Slot>, e: Events, t: Tag, s: Slot)
    requires EventsRep(v, index, e) && t !in index && t !in v.known
    ensures EventsRep(Created(v, t), index[t := s], e.(created := e.created + [s]))
  {
  }

  class UnitPool {
    var store: Store
    var events: Events
    ghost var view: View

    ghost predicate Valid()
      reads this
    {
      StoreRep(view, store) && EventsRep(view, store.index, events)
    }

    constructor ()
      ensures Valid() && view == EMPTY_VIEW
    {
      store, events := Store([], 0, 0, map[], map[]), Events([], [], [], [], {});
      view := EMPTY_VIEW;
    }

    method GetUnit(t: Tag) returns (s: Option<Slot>)
      requires Valid()
      ensures s.Some? <==> t in view.known
      ensures s.Some? ==> t in store.index && s.value == store.index[t]
    {
      s := if t in store.index then Some(store.index[t]) else None;
    }

    method GetExistingUnit(t: Tag) returns (s: Option<Slot>)
      requires Valid()
      ensures s.Some? <==> t in view.existing
      ensures s.Some? ==> t in store.index && s.value == store.index[t]
    {
      s := if t in store.existing then Some(store.existing[t]) else None;
    }

    /** A known tag keeps its slot; a new one gets the next free slot and is recorded as created. */
    method CreateUnit(t: Tag) returns (s: Slot)
      requires Valid()
      modifies this
      ensures Valid()
      ensures view == Created(old(view), t)
      ensures t in store.index && s == store.index[t]
      ensures forall u :: u in old(store).index ==> u in store.index && store.index[u] == old(store).index[u]
    {
      var known := GetUnit(t);
      if known.Some? {
        StoreAfterRevisit(view, store, t);
        s := known.value;
        store := store.(existing := store.existing[t := s]);
        view := Created(view, t);
        return;
      }
      s := AllocateUnit(t);
    }

    method AllocateUnit(t: Tag) returns (s: Slot)
      requires Valid() && t !in store.index
      modifies this
      ensures Valid()
      ensures view == Created(old(view), t)
      ensures s == Slot(old(store).first, old(store).second)
      ensures store.index == old(store).index[t := s]
    {
      NextSlot(view, store);
      s := Slot(store.first, store.second);
      BlocksAfterCreate(view.known, view.units, store.blocks, t);
      var blocks := Grown(store);
      blocks := blocks[store.first := blocks[store.first][store.second := BLANK_UNIT]];
      var first, second := IncrementIndex(store.first, store.second);
      ghost var before := store;
      store := Store(blocks, first, second, store.index[t := s], store.existing[t := s]);
      StoreAfterCreate(view, before, t, store);
      EventsAfterCreate(view, before.index, events, t, s);
      events := events.(created := events.created + [s]);
      view := Created(view, t);
    }

    method IncrementIndex(first: nat, second: nat) returns (first': nat, second': nat)
      requires second < ENTRY_SIZE
      ensures ENTRY_SIZE * first' + second' == ENTRY_SIZE * first + second + 1 && second' < ENTRY_SIZE
    {
      first', second' := first, second + 1;
      if second' == ENTRY_SIZE {
        first', second' := first' + 1, 0;
      }
    }

    /** Dereferences a unit pointer. */
    method Read(ghost t: Tag, s: Slot) returns (u: Unit)
      requires Valid() && t in store.index && s == store.index[t]
      ensures t in view.units && u == view.units[t]
    {
      ghost var i := SlotOfTag(view, store, t);
      u := store.blocks[s.block][s.offset];
    }

    /** Writes through a unit pointer: only the unit with that tag changes. */
    method Write(ghost t: Tag, s: Slot, u: Unit)
      requires Valid() && t in store.index && s == store.index[t]
      modifies this`store, this`view
      ensures Valid() && view == old(view).(units := old(view).units[t := u])
      ensures store.index == old(store).index
    {
      ghost var i := SlotOfTag(view, store, t);
      BlocksAfterWrite(view.known, view.units, store.blocks, i, u);
      store := store.(blocks := store.blocks[s.block := store.blocks[s.block][s.offset := u]]);
      view := view.(units := view.units[t := u]);
    }

    /** A dead unit stays in the arena but no longer exists; an unknown tag is ignored. */
    method MarkDead(t: Tag)
      requires Valid()
      modifies this`store, this`view
      ensures Valid() && view == Dead(old(view), t)
      ensures store.index == old(store).index
    {
      var s := GetUnit(t);
      if s.None? {
        return;
      }
      var u := Read(t, s.value);
      Write(t, s.value, u.(isAlive := false));
      EraseExisting(t);
    }

    method EraseExisting(t: Tag)
      requires Valid()
      modifies this`store, this`view
      ensures Valid() && view == old(view).(existing := old(view).existing - {t})
      ensures store.index == old(store).index
    {
      StoreAfterDeath(view, store, t);
      store := store.(existing := map k | k in store.existing && k != t :: store.existing[k]);
      view := view.(existing := view.existing - {t});
    }

    method ClearExisting()
      requires Valid()
      modifies this
      ensures Valid() && view == ClearedView(old(view))
      ensures store.index == old(store).index
    {
      store := store.(existing := map[]);
      events := Events([], [], [], [], {});
      view := ClearedView(view);
    }

    method AddUnitEnteredVision(ghost t: Tag, s: Slot)
      requires Valid() && t in store.index && s == store.index[t]
      modifies this`events, this`view
      ensures Valid() && view == old(view).(entered := old(view).entered + [t])
    {
      events := events.(entered := events.entered + [s]);
      view := view.(entered := view.entered + [t]);
    }

    method AddCompletedBuilding(ghost t: Tag, s: Slot)
      requires Valid() && t in store.index && s == store.index[t]
      modifies this`events, this`view
      ensures Valid() && view == old(view).(completed := old(view).completed + [t])
    {
      events := events.(completed := events.completed + [s]);
      view := view.(completed := view.completed + [t]);
    }

    method AddUnitDamaged(ghost t: Tag, s: Slot, health: real, shield: real)
      requires Valid() && t in store.index && s == store.index[t]
      modifies this`events, this`view
      ensures Valid() && view == old(view).(damaged := old(view).damaged + [Damage(t, health, shield)])
    {
      events := events.(damaged := events.damaged + [SlotDamage(s, health, shield)]);
      view := view.(damaged := view.damaged + [Damage(t, health, shield)]);
    }

    /** Only own units become idle. */
    method AddUnitIdled(ghost t: Tag, s: Slot)
      requires Valid() && t in store.index && s == store.index[t]
      modifies this`events, this`view
      ensures Valid() && t in old(view).units && view == Idled(old(view), t)
    {
      var u := Read(t, s);
      if u.alliance == Self {
        IdledRep(store.index, events.idled, view.idled, t);
        events := events.(idled := events.idled + {s});
        view := view.(idled := view.idled + {t});
      }
    }
  }

  lemma IdledRep(index: map<Tag, Slot>, slots: set<Slot>, tags: set<Tag>, t: Tag)
    requires SetRep(index, slots, tags) && t in index
    ensures SetRep(index, slots + {index[t]}, tags + {t})
  {
  }

  lemma SlotOfTag(v: View, st: Store, t: Tag) returns (i: nat)
    requires StoreRep(v, st) && t in st.index
    ensures i < |v.known| && v.known[i] == t && st.index[t] == SlotAt(i)
    ensures var s := st.index[t];
      && s.block < |st.blocks| && s.offset < |st.blocks[s.block]|
      && t in v.units && st.blocks[s.block][s.offset] == v.units[t]
  {
    assert t in v.known;
    i :| 0 <= i < |v.known| && v.known[i] == t;
    assert UnitAt(st.blocks, SlotAt(i)) == Some(v.units[t]);
  }

  /** No two tags share a slot; the arena is exactly as large as the known tags need. */
  lemma PoolInvariant(v: View, st: Store)
    requires StoreRep(v, st)
    ensures forall t, u :: t in st.index && u in st.index && st.index[t] == st.index[u] ==> t == u
    ensures forall t :: t in st.existing ==> t in st.index && st.existing[t] == st.index[t]
    ensures |st.index| == ENTRY_SIZE * st.first + st.second
    ensures |st.blocks| == if st.second == 0 then st.first else st.first + 1
  {
    forall t, u | t in st.index && u in st.index && st.index[t] == st.index[u]
      ensures t == u
    {
      var i := SlotOfTag(v, st, t);
      var j := SlotOfTag(v, st, u);
      SlotsDiffer(i, j);
    }
    NextSlot(v, st);
    ElementCount(v.known);
    assert st.index.Keys == ElementsOf(v.known);
    assert |st.index| == |st.index.Keys|;
  }
}
