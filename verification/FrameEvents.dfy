/** ObservationImp and the event part of ControlImp: each observation is compared with the pool's
    memory of the units, and the differences become the frame's callbacks. */
module FrameEvents {
  import opened GameTypes
  import opened UnitPools

  /** The game loop fields start at the largest 32-bit number. */
  const NO_LOOP: nat := 0xFFFF_FFFF

  /** hasCamera: the player and its camera position are present. */
  datatype RawData = RawData(units: seq<Unit>, dead: seq<Tag>, hasCamera: bool)

  /** One answered observation request. */
  datatype Report = Report(hasScore: bool, gameLoop: nat, raw: Option<RawData>)

  datatype Engine = Engine(view: View, current: nat, previous: nat)

  const START := Engine(EMPTY_VIEW, NO_LOOP, NO_LOOP)

  predicate JustCompleted(u: Unit, o: Unit) {
    o.buildProgress >= 1.0 && u.buildProgress > 0.0 && u.buildProgress < 1.0
  }

  predicate JustStopped(u: Unit, o: Unit) {
    u.orders != [] && o.orders == []
  }

  predicate JustHurt(u: Unit, o: Unit) {
    u.health - o.health > 0.0 || u.shield - o.shield > 0.0
  }

  /** Only own units become idle. */
  function NotedCompletion(v: View, u: Unit, o: Unit): View {
    if !JustCompleted(u, o) then v
    else v.(completed := v.completed + [o.tag], idled := if o.alliance == Self then v.idled + {o.tag} else v.idled)
  }

  function NotedStop(v: View, u: Unit, o: Unit): View {
    if JustStopped(u, o) && o.alliance == Self then v.(idled := v.idled + {o.tag}) else v
  }

  /** Completed construction and lost orders. */
  function NotedIdling(v: View, u: Unit, o: Unit): View {
    NotedStop(NotedCompletion(v, u, o), u, o)
  }

  function NotedDamage(v: View, u: Unit, o: Unit): View {
    if JustHurt(u, o) then v.(damaged := v.damaged + [Damage(o.tag, u.health - o.health, u.shield - o.shield)]) else v
  }

  /** A unit last seen before the previous frame enters vision. */
  function NotedVision(v: View, u: Unit, o: Unit, prev: nat): View {
    if u.lastSeenGameLoop < prev then v.(entered := v.entered + [o.tag]) else v
  }

  /** The events recorded when unit u of the pool is observed as o. */
  function Noted(v: View, u: Unit, o: Unit, prev: nat): View {
    NotedVision(NotedDamage(NotedIdling(v, u, o), u, o), u, o, prev)
  }

  /** What observing a known unit does to the pool. */
  function Recorded(w: View, o: Unit, loop: nat, prev: nat): View {
    var n := Noted(w, UnitOf(w, o.tag), o, prev);
    n.(units := n.units[o.tag := o.(isAlive := true, lastSeenGameLoop := loop)])
  }

  /** What observing one unit does to the pool. */
  function Seen(v: View, o: Unit, loop: nat, prev: nat): View {
    Recorded(Created(v, o.tag), o, loop, prev)
  }

  /** The two writes and the notes between them, taken together. */
  lemma NotedInSteps(w: View, u: Unit, o: Unit, loop: nat, prev: nat, copied: Unit)
    ensures var last := o.(isAlive := true, lastSeenGameLoop := loop);
      var n := Noted(w.(units := w.units[o.tag := copied]), u, o, prev);
      n.(units := n.units[o.tag := last]) == Noted(w, u, o, prev).(units := w.units[o.tag := last])
  {
  }

  function SeenAll(v: View, units: seq<Unit>, loop: nat, prev: nat): View {
    if units == [] then v
    else Seen(SeenAll(v, units[..|units| - 1], loop, prev), units[|units| - 1], loop, prev)
  }

  lemma {:induction false} SeenAllNext(v: View, units: seq<Unit>, i: nat, loop: nat, prev: nat)
    requires i < |units|
    ensures SeenAll(v, units[..i + 1], loop, prev) == Seen(SeenAll(v, units[..i], loop, prev), units[i], loop, prev)
  {
    assert units[..i + 1][..i] == units[..i];
  }

  /** UpdateObservation. */
  function Updated(e: Engine, r: Report): Engine {
    if !r.hasScore then e
    else if r.raw.None? then Engine(e.view, r.gameLoop, e.current)
    else Engine(SeenAll(ClearedView(e.view), r.raw.value.units, r.gameLoop, e.current), r.gameLoop, e.current)
  }

  /** The dead units of an observation, marked one after another. */
  function Buried(v: View, dead: seq<Tag>): View {
    if dead == [] then v else Dead(Buried(v, dead[..|dead| - 1]), dead[|dead| - 1])
  }

  function BuriedBy(v: View, r: Report): View {
    if r.raw.Some? then Buried(v, r.raw.value.dead) else v
  }

  function DestroyedCalls(v: View, dead: seq<Tag>): seq<Tag> {
    if dead == [] then []
    else
      var t := dead[|dead| - 1];
      DestroyedCalls(v, dead[..|dead| - 1]) + if t in v.known then [t] else []
  }

  predicate IsQuiet(v: View, t: Tag) {
    UnitOf(v, t).orders == [] && UnitOf(v, t).alliance == Self
  }

  function IdleAfterCommands(v: View, commands: seq<Tag>): View {
    v.(idled := v.idled + set t | t in commands && t in v.existing && IsQuiet(v, t))
  }

  function IdleAfterCreation(v: View): View {
    v.(idled := v.idled + set t | t in v.created && UnitOf(v, t).buildProgress >= 1.0 && IsQuiet(v, t))
  }

  /** IssueEvents: nothing at all while the game loop stands still. */
  function Issued(e: Engine, r: Report, commands: seq<Tag>): Engine {
    if e.current == e.previous then e
    else
      e.(view := IdleAfterCreation(IdleAfterCommands(BuriedBy(e.view, r), commands)))
  }

  /** The pool's lists of new units, of units entering vision and of completed buildings. */
  datatype Record = Creation | Entrance | Completion

  function RecordsOf(v: View, record: Record): seq<Tag> {
    match record
    case Creation => v.created
    case Entrance => v.entered
    case Completion => v.completed
  }

  /** A call of the user's event functions, with the tag of the unit it is handed. */
  datatype Callback =
    | UnitCreated(tag: Tag)
    | NeutralUnitCreated(tag: Tag)
    | UnitEnterVision(tag: Tag)
    | BuildingConstructionComplete(tag: Tag)

  /** What a recorded unit is reported as, if at all. */
  function CallsOn(record: Record, u: Unit): seq<Callback> {
    match record
    case Creation =>
      if u.alliance == Self then [UnitCreated(u.tag)]
      else if u.alliance == Neutral && u.displayType == Visible then [NeutralUnitCreated(u.tag)]
      else []
    case Entrance => if u.alliance == Enemy && u.displayType == Visible then [UnitEnterVision(u.tag)] else []
    case Completion => if u.alliance == Self then [BuildingConstructionComplete(u.tag)] else []
  }

  function CallsOf(record: Record, v: View, tags: seq<Tag>): seq<Callback> {
    if tags == [] then []
    else CallsOf(record, v, tags[..|tags| - 1]) + CallsOn(record, UnitOf(v, tags[|tags| - 1]))
  }

  lemma {:induction false} CallsOfNext(record: Record, v: View, tags: seq<Tag>, i: nat)
    requires i < |tags|
    ensures CallsOf(record, v, tags[..i + 1]) == CallsOf(record, v, tags[..i]) + CallsOn(record, UnitOf(v, tags[i]))
  {
    assert tags[..i + 1][..i] == tags[..i];
  }

  /** The calls that hand out the three lists of records, in their order. */
  function RecordedCalls(v: View): seq<Callback> {
    CallsOf(Creation, v, v.created) + CallsOf(Entrance, v, v.entered) + CallsOf(Completion, v, v.completed)
  }

  function DamageCalls(v: View, damaged: seq<Damage>): (calls: seq<Damage>)
    ensures |calls| == |damaged|
  {
    seq(|damaged|, i requires 0 <= i < |damaged| => damaged[i].(tag := UnitOf(v, damaged[i].tag).tag))
  }

  class ObservationImp {
    const pool: UnitPool
    var currentGameLoop: nat
    var previousGameLoop: nat

    constructor ()
      ensures fresh(pool) && pool.Valid()
      ensures State() == START
    {
      pool := new UnitPool();
      currentGameLoop, previousGameLoop := NO_LOOP, NO_LOOP;
    }

    ghost function State(): Engine
      reads this, pool
    {
      Engine(pool.view, currentGameLoop, previousGameLoop)
    }

    /** The body of the Convert loop for one observed unit. */
    method ConvertUnit(o: Unit, loop: nat, prev: nat)
      requires pool.Valid()
      modifies pool
      ensures pool.Valid() && pool.view == Seen(old(pool.view), o, loop, prev)
    {
      var s := pool.CreateUnit(o.tag);
      ConvertKnown(o, s, loop, prev);
    }

    method ConvertKnown(o: Unit, s: Slot, loop: nat, prev: nat)
      requires pool.Valid() && o.tag in pool.store.index && s == pool.store.index[o.tag]
      modifies pool`store, pool`events, pool`view
      ensures pool.Valid() && pool.view == Recorded(old(pool.view), o, loop, prev)
    {
      ghost var known := pool.view;
      var u := pool.Read(o.tag, s);
      var copied := u.(tag := o.tag, alliance := o.alliance, displayType := o.displayType);
      pool.Write(o.tag, s, copied);
      NoteDifferences(u, o, s, prev);
      pool.Write(o.tag, s, o.(isAlive := true, lastSeenGameLoop := loop));
      NotedInSteps(known, u, o, loop, prev, copied);
    }

    method NoteDifferences(u: Unit, o: Unit, s: Slot, prev: nat)
      requires pool.Valid() && o.tag in pool.store.index && s == pool.store.index[o.tag]
      requires o.tag in pool.view.units && pool.view.units[o.tag].alliance == o.alliance
      modifies pool`events, pool`view
      ensures pool.Valid() && pool.view == Noted(old(pool.view), u, o, prev)
    {
      NoteIdling(u, o, s);
      NoteDamage(u, o, s);
      NoteVision(u, o, s, prev);
    }

    /** Completed construction and lost orders; the alliance has already been copied. */
    method NoteIdling(u: Unit, o: Unit, s: Slot)
      requires pool.Valid() && o.tag in pool.store.index && s == pool.store.index[o.tag]
      requires o.tag in pool.view.units && pool.view.units[o.tag].alliance == o.alliance
      modifies pool`events, pool`view
      ensures pool.Valid()
      ensures pool.view == NotedIdling(old(pool.view), u, o)
    {
      NoteCompletion(u, o, s);
      if JustStopped(u, o) {
        pool.AddUnitIdled(o.tag, s);
      }
    }

    method NoteCompletion(u: Unit, o: Unit, s: Slot)
      requires pool.Valid() && o.tag in pool.store.index && s == pool.store.index[o.tag]
      requires o.tag in pool.view.units && pool.view.units[o.tag].alliance == o.alliance
      modifies pool`events, pool`view
      ensures pool.Valid() && pool.view == NotedCompletion(old(pool.view), u, o)
    {
      if JustCompleted(u, o) {
        pool.AddCompletedBuilding(o.tag, s);
        pool.AddUnitIdled(o.tag, s);
      }
    }

    method NoteDamage(u: Unit, o: Unit, s: Slot)
      requires pool.Valid() && o.tag in pool.store.index && s == pool.store.index[o.tag]
      modifies pool`events, pool`view
      ensures pool.Valid() && pool.view == NotedDamage(old(pool.view), u, o)
    {
      if JustHurt(u, o) {
        pool.AddUnitDamaged(o.tag, s, u.health - o.health, u.shield - o.shield);
      }
    }

    method NoteVision(u: Unit, o: Unit, s: Slot, prev: nat)
      requires pool.Valid() && o.tag in pool.store.index && s == pool.store.index[o.tag]
      modifies pool`events, pool`view
      ensures pool.Valid() && pool.view == NotedVision(old(pool.view), u, o, prev)
    {
      if u.lastSeenGameLoop < prev {
        pool.AddUnitEnteredVision(o.tag, s);
      }
    }

    method ConvertAll(units: seq<Unit>, loop: nat, prev: nat)
      requires pool.Valid()
      modifies pool
      ensures pool.Valid() && pool.view == SeenAll(old(pool.view), units, loop, prev)
    {
      var i := 0;
      while i < |units|
        invariant 0 <= i <= |units|
        invariant pool.Valid() && pool.view == SeenAll(old(pool.view), units[..i], loop, prev)
      {
        SeenAllNext(old(pool.view), units, i, loop, prev);
        ConvertUnit(units[i], loop, prev);
        i := i + 1;
      }
      assert units[..i] == units;
    }

    method UpdateObservation(r: Report) returns (ok: bool)
      requires pool.Valid()
      modifies this, pool
      ensures pool.Valid()
      ensures State() == Updated(old(State()), r)
      ensures ok == (r.hasScore && r.raw.Some? && r.raw.value.hasCamera)
    {
      if !r.hasScore {
        return false;
      }
      previousGameLoop, currentGameLoop := currentGameLoop, r.gameLoop;
      if r.raw.None? {
        return false;
      }
      pool.ClearExisting();
      ConvertAll(r.raw.value.units, currentGameLoop, previousGameLoop);
      ok := r.raw.value.hasCamera;
    }

    /** Each dead unit the pool has ever known is marked dead and reported. */
    method IssueUnitDestroyedEvents(raw: Option<RawData>) returns (calls: seq<Tag>)
      requires pool.Valid()
      modifies pool
      ensures pool.Valid()
      ensures pool.view == if raw.Some? then Buried(old(pool.view), raw.value.dead) else old(pool.view)
      ensures calls == if raw.Some? then DestroyedCalls(old(pool.view), raw.value.dead) else []
    {
      calls := [];
      if raw.None? {
        return;
      }
      var dead := raw.value.dead;
      var i := 0;
      while i < |dead|
        invariant 0 <= i <= |dead|
        invariant pool.Valid() && pool.view == Buried(old(pool.view), dead[..i])
        invariant pool.view.known == old(pool.view).known
        invariant calls == DestroyedCalls(old(pool.view), dead[..i])
      {
        assert dead[..i + 1][..i] == dead[..i];
        var s := pool.GetUnit(dead[i]);
        if s.Some? {
          calls := calls + [dead[i]];
        }
        pool.MarkDead(dead[i]);
        i := i + 1;
      }
      assert dead[..i] == dead;
    }

    /** Units commanded in the last step that exist and have no orders now. */
    method IdleCommanded(commands: seq<Tag>)
      requires pool.Valid()
      modifies pool`events, pool`view
      ensures pool.Valid() && pool.view == IdleAfterCommands(old(pool.view), commands)
    {
      var i := 0;
      while i < |commands|
        invariant 0 <= i <= |commands|
        invariant pool.Valid() && pool.view == IdleAfterCommands(old(pool.view), commands[..i])
      {
        IdleCommandedOne(commands[i]);
        IdleAfterOneMore(old(pool.view), commands, i);
        i := i + 1;
      }
      assert commands[..i] == commands;
    }

    method IdleCommandedOne(t: Tag)
      requires pool.Valid()
      modifies pool`events, pool`view
      ensures pool.Valid() && pool.view == IdleAfterCommands(old(pool.view), [t])
    {
      var s := pool.GetExistingUnit(t);
      if s.Some? {
        var u := pool.Read(t, s.value);
        if u.orders == [] {
          pool.AddUnitIdled(t, s.value);
        }
      }
      IdleOne(old(pool.view), t);
    }

    /** New units that are complete and have no orders. */
    method IdleCreated()
      requires pool.Valid()
      modifies pool`events, pool`view
      ensures pool.Valid() && pool.view == IdleAfterCreation(old(pool.view))
    {
      var created := pool.events.created;
      ghost var tags := pool.view.created;
      var i := 0;
      while i < |created|
        invariant 0 <= i <= |created|
        invariant pool.Valid() && pool.events.created == created
        invariant pool.view == IdleFirst(old(pool.view), tags[..i])
      {
        IdleCreatedOne(tags[i], created[i]);
        IdleFirstOneMore(old(pool.view), tags, i);
        i := i + 1;
      }
      assert tags[..i] == tags;
    }

    method IdleCreatedOne(ghost t: Tag, s: Slot)
      requires pool.Valid() && t in pool.store.index && s == pool.store.index[t]
      modifies pool`events, pool`view
      ensures pool.Valid() && pool.view == IdleFirst(old(pool.view), [t])
      ensures pool.events.created == old(pool.events).created
    {
      var u := pool.Read(t, s);
      if u.buildProgress >= 1.0 && u.orders == [] {
        pool.AddUnitIdled(t, s);
      }
      IdleFirstOne(old(pool.view), t);
    }

    /** IssueIdleEvents: the idle set is completed, then every member gets exactly one callback. */
    method IssueIdleEvents(commands: seq<Tag>) returns (calls: seq<Slot>)
      requires pool.Valid()
      modifies pool`events, pool`view
      ensures pool.Valid() && pool.view == IdleAfterCreation(IdleAfterCommands(old(pool.view), commands))
      ensures forall s :: multiset(calls)[s] == if s in pool.events.idled then 1 else 0
    {
      IdleCommanded(commands);
      IdleCreated();
      calls := OncePerMember(pool.events.idled);
    }

    /** New units of the player or of nobody, then enemies that enter vision. */
    method IssueUnitAddedEvents() returns (calls: seq<Callback>)
      requires pool.Valid()
      ensures calls == CallsOf(Creation, pool.view, pool.view.created) + CallsOf(Entrance, pool.view, pool.view.entered)
    {
      var created := IssueNewUnits();
      var entered := IssueUnitsEnteringVision();
      calls := created + entered;
    }

    method IssueNewUnits() returns (calls: seq<Callback>)
      requires pool.Valid()
      ensures calls == CallsOf(Creation, pool.view, pool.view.created)
    {
      calls := [];
      var created := pool.events.created;
      ghost var tags := pool.view.created;
      var i := 0;
      while i < |created|
        invariant 0 <= i <= |created|
        invariant calls == CallsOf(Creation, pool.view, tags[..i])
      {
        var u := pool.Read(tags[i], created[i]);
        CallsOfNext(Creation, pool.view, tags, i);
        if u.alliance == Self {
          calls := calls + [UnitCreated(u.tag)];
        } else if u.alliance == Neutral && u.displayType == Visible {
          calls := calls + [NeutralUnitCreated(u.tag)];
        }
        i := i + 1;
      }
      assert tags[..i] == tags;
    }

    method IssueUnitsEnteringVision() returns (calls: seq<Callback>)
      requires pool.Valid()
      ensures calls == CallsOf(Entrance, pool.view, pool.view.entered)
    {
      calls := [];
      var entered := pool.events.entered;
      ghost var tags := pool.view.entered;
      var i := 0;
      while i < |entered|
        invariant 0 <= i <= |entered|
        invariant calls == CallsOf(Entrance, pool.view, tags[..i])
      {
        var u := pool.Read(tags[i], entered[i]);
        CallsOfNext(Entrance, pool.view, tags, i);
        if u.alliance == Enemy && u.displayType == Visible {
          calls := calls + [UnitEnterVision(u.tag)];
        }
        i := i + 1;
      }
      assert tags[..i] == tags;
    }

    method IssueBuildingCompletedEvents() returns (calls: seq<Callback>)
      requires pool.Valid()
      ensures calls == CallsOf(Completion, pool.view, pool.view.completed)
    {
      calls := [];
      var completed := pool.events.completed;
      ghost var tags := pool.view.completed;
      var i := 0;
      while i < |completed|
        invariant 0 <= i <= |completed|
        invariant calls == CallsOf(Completion, pool.view, tags[..i])
      {
        var u := pool.Read(tags[i], completed[i]);
        CallsOfNext(Completion, pool.view, tags, i);
        if u.alliance == Self {
          calls := calls + [BuildingConstructionComplete(u.tag)];
        }
        i := i + 1;
      }
      assert tags[..i] == tags;
    }

    method IssueUnitDamagedEvents() returns (calls: seq<Damage>)
      requires pool.Valid()
      ensures calls == DamageCalls(pool.view, pool.view.damaged)
    {
      calls := [];
      var damaged := pool.events.damaged;
      ghost var records := pool.view.damaged;
      var i := 0;
      while i < |damaged|
        invariant 0 <= i <= |damaged|
        invariant calls == DamageCalls(pool.view, records)[..i]
      {
        var u := pool.Read(records[i].tag, damaged[i].slot);
        calls := calls + [Damage(u.tag, damaged[i].health, damaged[i].shield)];
        i := i + 1;
      }
    }

    /** IssueEvents without the upgrades and alerts and the user's OnStep, in the order of the calls. */
    method IssueEvents(r: Report, commands: seq<Tag>)
      returns (issued: bool, destroyed: seq<Tag>, recorded: seq<Callback>, idle: seq<Slot>, damaged: seq<Damage>)
      requires pool.Valid()
      modifies pool
      ensures pool.Valid()
      ensures State() == Issued(old(State()), r, commands)
      ensures issued == (currentGameLoop != previousGameLoop)
      ensures !issued ==> destroyed == [] && recorded == [] && idle == [] && damaged == []
      ensures issued ==>
        && destroyed == (if r.raw.Some? then DestroyedCalls(old(pool.view), r.raw.value.dead) else [])
        && recorded == RecordedCalls(pool.view)
        && (forall s :: multiset(idle)[s] == if s in pool.events.idled then 1 else 0)
        && damaged == DamageCalls(pool.view, pool.view.damaged)
    {
      issued, destroyed, recorded, idle, damaged := false, [], [], [], [];
      if currentGameLoop == previousGameLoop {
        return;
      }
      issued := true;
      destroyed := IssueUnitDestroyedEvents(r.raw);
      var added := IssueUnitAddedEvents();
      var completed := IssueBuildingCompletedEvents();
      recorded := added + completed;
      ghost var buried := pool.view;
      idle := IssueIdleEvents(commands);
      CallsIgnoreIdled(buried, pool.view.idled);
      damaged := IssueUnitDamagedEvents();
    }
  }

  /** The calls depend on the units and the list of tags alone. */
  lemma {:induction false} CallsAgree(record: Record, v: View, w: View, tags: seq<Tag>)
    requires forall t :: t in tags ==> CallsOn(record, UnitOf(v, t)) == CallsOn(record, UnitOf(w, t))
    ensures CallsOf(record, v, tags) == CallsOf(record, w, tags)
  {
    if tags != [] {
      assert tags == tags[..|tags| - 1] + [tags[|tags| - 1]];
      CallsAgree(record, v, w, tags[..|tags| - 1]);
    }
  }

  lemma CallsIgnoreIdled(v: View, idled: set<Tag>)
    ensures RecordedCalls(v.(idled := idled)) == RecordedCalls(v)
  {
    CallsAgree(Creation, v.(idled := idled), v, v.created);
    CallsAgree(Entrance, v.(idled := idled), v, v.entered);
    CallsAgree(Completion, v.(idled := idled), v, v.completed);
  }

  /** Visits the members of the idle set in some order. */
  method OncePerMember(members: set<Slot>) returns (calls: seq<Slot>)
    ensures forall s :: multiset(calls)[s] == if s in members then 1 else 0
  {
    calls := [];
    var left := members;
    while left != {}
      invariant left <= members
      invariant forall s :: multiset(calls)[s] == if s in members - left then 1 else 0
      decreases left
    {
      var s :| s in left;
      left := left - {s};
      calls := calls + [s];
    }
  }

  /** IdleAfterCreation restricted to some of the new units. */
  ghost function IdleFirst(v: View, tags: seq<Tag>): View {
    v.(idled := v.idled + set t | t in tags && UnitOf(v, t).buildProgress >= 1.0 && IsQuiet(v, t))
  }

  lemma IdleFirstOne(v: View, t: Tag)
    ensures IdleFirst(v, [t])
      == if UnitOf(v, t).buildProgress >= 1.0 && IsQuiet(v, t) then v.(idled := v.idled + {t}) else v
  {
  }

  lemma IdleFirstOneMore(v: View, tags: seq<Tag>, i: nat)
    requires i < |tags|
    ensures IdleFirst(IdleFirst(v, tags[..i]), [tags[i]]) == IdleFirst(v, tags[..i + 1])
  {
  }

  lemma IdleOne(v: View, t: Tag)
    ensures IdleAfterCommands(v, [t]) == if t in v.existing && IsQuiet(v, t) then v.(idled := v.idled + {t}) else v
  {
  }

  lemma IdleAfterOneMore(v: View, commands: seq<Tag>, i: nat)
    requires i < |commands|
    ensures IdleAfterCommands(IdleAfterCommands(v, commands[..i]), [commands[i]])
      == IdleAfterCommands(v, commands[..i + 1])
  {
  }
}
