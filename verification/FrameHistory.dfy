/** Whole runs of observations: what the pool remembers and which events each frame records. */
module FrameHistory {
  import opened GameTypes
  import opened UnitPools
  import opened FrameEvents

  /** One observation, and the tags commanded in the step before it. */
  datatype Step = Step(report: Report, commands: seq<Tag>)

  function After(e: Engine, s: Step): Engine {
    Issued(Updated(e, s.report), s.report, s.commands)
  }

  /** The engine after the first k steps of a run. */
  function RunTo(run: seq<Step>, k: nat): Engine
    requires k <= |run|
  {
    if k == 0 then START else After(RunTo(run, k - 1), run[k - 1])
  }

  /** The observation carries a score and unit data, so it is compared with the pool. */
  predicate Full(r: Report) {
    r.hasScore && r.raw.Some?
  }

  ghost predicate GoodReport(r: Report) {
    Full(r) ==> Distinct(TagsOf(r.raw.value.units))
  }

  ghost predicate GoodRun(run: seq<Step>) {
    forall k :: 0 <= k < |run| ==> GoodReport(run[k].report)
  }

  /** How a report shows a unit. */
  function Shown(r: Report, t: Tag): Option<Unit> {
    if Full(r) then LastWithTag(r.raw.value.units, t) else None
  }

  /** How often a tag stands in a list. */
  function Count(s: seq<Tag>, t: Tag): nat {
    multiset(s)[t]
  }

  /** The pool's memory of a tag, and its place in the frame's events. */
  datatype Trace = Trace(known: bool, existing: bool, unit: Unit, created: nat, entered: nat, completed: nat,
                         idled: bool)

  function TraceOf(v: View, t: Tag): Trace {
    Trace(t in v.known, t in v.existing, UnitOf(v, t), Count(v.created, t), Count(v.entered, t),
          Count(v.completed, t), t in v.idled)
  }

  /** Units and known tags agree. */
  ghost predicate Consistent(v: View) {
    forall t :: t in v.units <==> t in v.known
  }

  /** The effect of showing unit o on the trace of its tag. */
  function TraceSeen(x: Trace, o: Unit, loop: nat, prev: nat): Trace {
    Trace(true, true, o.(isAlive := true, lastSeenGameLoop := loop),
          x.created + (if x.known then 0 else 1),
          x.entered + (if x.unit.lastSeenGameLoop < prev then 1 else 0),
          x.completed + (if JustCompleted(x.unit, o) then 1 else 0),
          x.idled || (o.alliance == Self && (JustCompleted(x.unit, o) || JustStopped(x.unit, o))))
  }

  lemma CountAppend(s: seq<Tag>, u: Tag, t: Tag)
    ensures Count(s + [u], t) == Count(s, t) + if t == u then 1 else 0
  {
  }

  lemma CreatedTrace(v: View, u: Tag, t: Tag)
    requires Consistent(v)
    ensures Consistent(Created(v, u))
    ensures var x := TraceOf(v, t);
      TraceOf(Created(v, u), t)
      == if t == u then x.(known := true, existing := true, created := x.created + if x.known then 0 else 1) else x
  {
  }

  lemma NotedIdlingTrace(v: View, u: Unit, o: Unit, t: Tag)
    ensures var x := TraceOf(v, t);
      TraceOf(NotedIdling(v, u, o), t)
      == if t == o.tag then x.(completed := x.completed + (if JustCompleted(u, o) then 1 else 0),
                               idled := x.idled || (o.alliance == Self && (JustCompleted(u, o) || JustStopped(u, o))))
         else x
  {
    CountAppend(v.completed, o.tag, t);
  }

  lemma NotedTrace(v: View, u: Unit, o: Unit, prev: nat, t: Tag)
    ensures var x := TraceOf(NotedIdling(v, u, o), t);
      TraceOf(Noted(v, u, o, prev), t)
      == if t == o.tag then x.(entered := x.entered + (if u.lastSeenGameLoop < prev then 1 else 0)) else x
  {
    CountAppend(v.entered, o.tag, t);
  }

  lemma RecordedTrace(w: View, o: Unit, loop: nat, prev: nat, t: Tag)
    requires Consistent(w) && o.tag in w.known
    ensures Consistent(Recorded(w, o, loop, prev))
    ensures var x := TraceOf(w, t);
      TraceOf(Recorded(w, o, loop, prev), t)
      == if t == o.tag then TraceSeen(x, o, loop, prev).(existing := x.existing) else x
  {
    NotedIdlingTrace(w, UnitOf(w, o.tag), o, t);
    NotedTrace(w, UnitOf(w, o.tag), o, prev, t);
  }

  lemma SeenTrace(v: View, o: Unit, loop: nat, prev: nat, t: Tag)
    requires Consistent(v)
    ensures Consistent(Seen(v, o, loop, prev))
    ensures TraceOf(Seen(v, o, loop, prev), t)
      == if t == o.tag then TraceSeen(TraceOf(v, t), o, loop, prev) else TraceOf(v, t)
  {
    CreatedTrace(v, o.tag, t);
    RecordedTrace(Created(v, o.tag), o, loop, prev, t);
  }

  /** A whole observation changes the trace of a tag once, or not at all if the tag is not shown. */
  lemma {:induction false} SeenAllTrace(v: View, units: seq<Unit>, loop: nat, prev: nat, t: Tag)
    requires Consistent(v) && Distinct(TagsOf(units))
    ensures Consistent(SeenAll(v, units, loop, prev))
    ensures var o := LastWithTag(units, t);
      TraceOf(SeenAll(v, units, loop, prev), t)
      == if o.Some? then TraceSeen(TraceOf(v, t), o.value, loop, prev) else TraceOf(v, t)
  {
    if units != [] {
      var n := |units| - 1;
      DistinctTail(units);
      SeenAllTrace(v, units[..n], loop, prev, t);
      SeenTrace(SeenAll(v, units[..n], loop, prev), units[n], loop, prev, t);
    }
  }

  lemma DistinctTail(units: seq<Unit>)
    requires units != [] && Distinct(TagsOf(units))
    ensures Distinct(TagsOf(units[..|units| - 1]))
    ensures LastWithTag(units[..|units| - 1], units[|units| - 1].tag).None?
  {
  }

  lemma DeadTrace(v: View, d: Tag, t: Tag)
    requires Consistent(v)
    ensures Consistent(Dead(v, d))
    ensures var x, y := TraceOf(v, t), TraceOf(Dead(v, d), t);
      var dies := x.known && t == d;
      y == x.(existing := x.existing && !dies, unit := x.unit.(isAlive := x.unit.isAlive && !dies))
  {
    var w := Dead(v, d);
    assert w.created == v.created && w.entered == v.entered && w.completed == v.completed && w.idled == v.idled;
    if t == d && t in v.known {
      assert UnitOf(w, t) == UnitOf(v, t).(isAlive := false);
    } else {
      assert UnitOf(w, t) == UnitOf(v, t);
    }
  }

  lemma {:induction false} BuriedTrace(v: View, dead: seq<Tag>, t: Tag)
    requires Consistent(v)
    ensures Consistent(Buried(v, dead))
    ensures var x, y := TraceOf(v, t), TraceOf(Buried(v, dead), t);
      var dies := x.known && t in dead;
      y == x.(existing := x.existing && !dies, unit := x.unit.(isAlive := x.unit.isAlive && !dies))
    ensures Buried(v, dead).created == v.created && Buried(v, dead).known == v.known
  {
    if dead != [] {
      BuriedTrace(v, dead[..|dead| - 1], t);
      DeadTrace(Buried(v, dead[..|dead| - 1]), dead[|dead| - 1], t);
      assert dead == dead[..|dead| - 1] + [dead[|dead| - 1]];
    }
  }

  predicate ReportedDead(r: Report, t: Tag) {
    r.raw.Some? && t in r.raw.value.dead
  }

  lemma BuriedByTrace(v: View, r: Report, t: Tag)
    requires Consistent(v)
    ensures var b := BuriedBy(v, r);
      var x, y := TraceOf(v, t), TraceOf(b, t);
      var dies := x.known && ReportedDead(r, t);
      && Consistent(b) && b.created == v.created && b.known == v.known
      && y == x.(existing := x.existing && !dies, unit := x.unit.(isAlive := x.unit.isAlive && !dies))
  {
    if r.raw.Some? {
      BuriedTrace(v, r.raw.value.dead, t);
    }
  }

  lemma IdlingTrace(v: View, idled: set<Tag>, t: Tag)
    ensures TraceOf(v.(idled := idled), t) == TraceOf(v, t).(idled := t in idled)
  {
  }

  /** What the events of a frame do to a trace: a death, and the idle mark. */
  function TraceIssued(x: Trace, dies: bool, idled: bool): Trace {
    x.(existing := x.existing && !dies, unit := x.unit.(isAlive := x.unit.isAlive && !dies), idled := idled)
  }

  lemma EventsTrace(v: View, r: Report, commands: seq<Tag>, t: Tag)
    requires Consistent(v)
    ensures var w := IdleAfterCreation(IdleAfterCommands(BuriedBy(v, r), commands));
      && Consistent(w) && w.created == v.created && w.known == v.known
      && TraceOf(w, t) == TraceIssued(TraceOf(v, t), t in v.known && ReportedDead(r, t), t in w.idled)
  {
    BuriedByTrace(v, r, t);
    var b := BuriedBy(v, r);
    IdlingTrace(IdleAfterCommands(b, commands), IdleAfterCreation(IdleAfterCommands(b, commands)).idled, t);
    IdlingTrace(b, IdleAfterCommands(b, commands).idled, t);
  }

  /** Issuing the events never touches what the pool knows or has recorded, except for the living,
      existing and idle marks. */
  lemma IssuedTrace(e: Engine, r: Report, commands: seq<Tag>, t: Tag)
    requires Consistent(e.view)
    ensures var w := Issued(e, r, commands).view;
      && Consistent(w) && w.created == e.view.created && w.known == e.view.known
      && TraceOf(w, t) == TraceIssued(TraceOf(e.view, t),
                                      t in e.view.known && ReportedDead(r, t) && e.current != e.previous, t in w.idled)
    ensures Issued(e, r, commands).current == e.current
  {
    EventsTrace(e.view, r, commands, t);
  }

  lemma UpdatedTrace(e: Engine, r: Report, t: Tag)
    requires Consistent(e.view) && GoodReport(r)
    ensures Consistent(Updated(e, r).view)
    ensures !Full(r) ==> Updated(e, r).view == e.view
    ensures Full(r) ==>
      var x := TraceOf(ClearedView(e.view), t);
      TraceOf(Updated(e, r).view, t)
      == if Shown(r, t).Some? then TraceSeen(x, Shown(r, t).value, r.gameLoop, e.current) else x
  {
    if Full(r) {
      SeenAllTrace(ClearedView(e.view), r.raw.value.units, r.gameLoop, e.current, t);
    }
  }

  /** The game loop of the latest observation among the first k that shows a unit; zero if none. */
  function LatestLoop(run: seq<Step>, k: nat, t: Tag): nat
    requires k <= |run|
  {
    if k == 0 then 0
    else if Shown(run[k - 1].report, t).Some? then run[k - 1].report.gameLoop
    else LatestLoop(run, k - 1, t)
  }

  /** The unit as the latest observation among the first k that shows it does. */
  function LastShown(run: seq<Step>, k: nat, t: Tag): Option<Unit>
    requires k <= |run|
  {
    if k == 0 then None
    else if Shown(run[k - 1].report, t).Some? then Shown(run[k - 1].report, t)
    else LastShown(run, k - 1, t)
  }

  predicate EverShown(run: seq<Step>, k: nat, t: Tag)
    requires k <= |run|
  {
    LastShown(run, k, t).Some?
  }

  /** What the reports say about a unit; a blank unit before it is shown for the first time. */
  function Remembered(run: seq<Step>, k: nat, t: Tag): Unit
    requires k <= |run|
  {
    if EverShown(run, k, t) then LastShown(run, k, t).value else BLANK_UNIT
  }

  /** A unit without the marks of the pool. */
  function Data(u: Unit): Unit {
    u.(isAlive := false, lastSeenGameLoop := 0)
  }

  /** The game loop of the latest observation with a score among the first k. */
  function PreviousLoop(run: seq<Step>, k: nat): nat
    requires k <= |run|
  {
    if k == 0 then NO_LOOP
    else if run[k - 1].report.hasScore then run[k - 1].report.gameLoop
    else PreviousLoop(run, k - 1)
  }

  lemma {:induction false} CurrentIsPreviousLoop(run: seq<Step>, k: nat)
    requires k <= |run|
    ensures RunTo(run, k).current == PreviousLoop(run, k)
  {
    if k > 0 {
      CurrentIsPreviousLoop(run, k - 1);
    }
  }

  /** After any run the pool knows exactly the units ever shown, each with the loop of the latest
      observation that shows it. */
  lemma {:induction false} LastSeenIsLatest(run: seq<Step>, k: nat, t: Tag)
    requires k <= |run| && GoodRun(run)
    ensures Consistent(RunTo(run, k).view)
    ensures UnitOf(RunTo(run, k).view, t).lastSeenGameLoop == LatestLoop(run, k, t)
    ensures t in RunTo(run, k).view.known <==> EverShown(run, k, t)
  {
    if k > 0 {
      LastSeenIsLatest(run, k - 1, t);
      var e, s := RunTo(run, k - 1), run[k - 1];
      UpdatedTrace(e, s.report, t);
      IssuedTrace(Updated(e, s.report), s.report, s.commands, t);
    }
  }

  /** The latest observation with a score among the first k moved the game loop. */
  predicate LoopMoved(run: seq<Step>, k: nat)
    requires k <= |run|
  {
    && k > 0
    && if run[k - 1].report.hasScore then PreviousLoop(run, k - 1) != run[k - 1].report.gameLoop
       else LoopMoved(run, k - 1)
  }

  lemma {:induction false} LoopMovedIff(run: seq<Step>, k: nat)
    requires k <= |run|
    ensures LoopMoved(run, k) <==> RunTo(run, k).current != RunTo(run, k).previous
  {
    if k > 0 {
      LoopMovedIff(run, k - 1);
      CurrentIsPreviousLoop(run, k - 1);
    }
  }

  /** Observation k - 1 reports the death of a unit that has been shown, and events are issued for it. */
  predicate DiesAt(run: seq<Step>, k: nat, t: Tag)
    requires 0 < k <= |run|
  {
    EverShown(run, k, t) && ReportedDead(run[k - 1].report, t) && LoopMoved(run, k)
  }

  /** Shown, and not reported dead in the same observation or since. */
  predicate AliveAfter(run: seq<Step>, k: nat, t: Tag)
    requires k <= |run|
  {
    k > 0 && !DiesAt(run, k, t) && (Shown(run[k - 1].report, t).Some? || AliveAfter(run, k - 1, t))
  }

  /** Shown by the latest complete observation, and not reported dead in it or since. */
  predicate ExistsAfter(run: seq<Step>, k: nat, t: Tag)
    requires k <= |run|
  {
    && k > 0 && !DiesAt(run, k, t)
    && if Full(run[k - 1].report) then Shown(run[k - 1].report, t).Some? else ExistsAfter(run, k - 1, t)
  }

  /** The living mark and the existing index, from the reports alone. */
  lemma {:induction false} AliveAndExistingIff(run: seq<Step>, k: nat, t: Tag)
    requires k <= |run| && GoodRun(run)
    ensures UnitOf(RunTo(run, k).view, t).isAlive <==> AliveAfter(run, k, t)
    ensures t in RunTo(run, k).view.existing <==> ExistsAfter(run, k, t)
  {
    if k > 0 {
      var j := k - 1;
      AliveAndExistingIff(run, j, t);
      LastSeenIsLatest(run, j, t);
      AliveNext(run, j, t);
    }
  }

  lemma AliveNext(run: seq<Step>, j: nat, t: Tag)
    requires j < |run| && GoodRun(run) && Consistent(RunTo(run, j).view)
    requires t in RunTo(run, j).view.known <==> EverShown(run, j, t)
    requires UnitOf(RunTo(run, j).view, t).isAlive <==> AliveAfter(run, j, t)
    requires t in RunTo(run, j).view.existing <==> ExistsAfter(run, j, t)
    ensures UnitOf(RunTo(run, j + 1).view, t).isAlive <==> AliveAfter(run, j + 1, t)
    ensures t in RunTo(run, j + 1).view.existing <==> ExistsAfter(run, j + 1, t)
  {
    var e, s := RunTo(run, j), run[j];
    var u := Updated(e, s.report);
    UpdatedTrace(e, s.report, t);
    IssuedTrace(u, s.report, s.commands, t);
    LoopMovedIff(run, j + 1);
    assert RunTo(run, j + 1) == Issued(u, s.report, s.commands);
  }

  lemma MarksAreNotData(u: Unit, alive: bool, loop: nat)
    ensures Data(u.(isAlive := alive)) == Data(u)
    ensures Data(u.(isAlive := alive, lastSeenGameLoop := loop)) == Data(u)
  {
  }

  lemma UpdatedMemory(e: Engine, r: Report, t: Tag)
    requires Consistent(e.view) && GoodReport(r)
    ensures Data(UnitOf(Updated(e, r).view, t))
      == Data(if Shown(r, t).Some? then Shown(r, t).value else UnitOf(e.view, t))
  {
    UpdatedTrace(e, r, t);
    assert Full(r) ==> TraceOf(ClearedView(e.view), t).unit == UnitOf(e.view, t);
    if Shown(r, t).Some? {
      MarksAreNotData(Shown(r, t).value, true, r.gameLoop);
    }
  }

  /** One step of a run changes what the pool remembers of a unit only by showing it. */
  lemma MemoryNext(e: Engine, s: Step, t: Tag)
    requires Consistent(e.view) && GoodReport(s.report)
    ensures Data(UnitOf(After(e, s).view, t))
      == Data(if Shown(s.report, t).Some? then Shown(s.report, t).value else UnitOf(e.view, t))
  {
    var u := Updated(e, s.report);
    UpdatedTrace(e, s.report, t);
    UpdatedMemory(e, s.report, t);
    IssuedMemory(u, s.report, s.commands, t);
  }

  lemma IssuedMemory(e: Engine, r: Report, commands: seq<Tag>, t: Tag)
    requires Consistent(e.view)
    ensures Data(UnitOf(Issued(e, r, commands).view, t)) == Data(UnitOf(e.view, t))
  {
    IssuedTrace(e, r, commands, t);
    MarksAreNotData(UnitOf(e.view, t), UnitOf(Issued(e, r, commands).view, t).isAlive, 0);
  }

  /** The pool's memory of a unit is the unit as it was last shown, apart from the pool's own marks. */
  lemma {:induction false} MemoryIsLastShown(run: seq<Step>, k: nat, t: Tag)
    requires k <= |run| && GoodRun(run)
    ensures Data(UnitOf(RunTo(run, k).view, t)) == Data(Remembered(run, k, t))
  {
    if k > 0 {
      MemoryIsLastShown(run, k - 1, t);
      LastSeenIsLatest(run, k - 1, t);
      MemoryNext(RunTo(run, k - 1), run[k - 1], t);
    }
  }

  /** What a frame that is compared with the pool records about a tag. */
  lemma {:induction false} FrameRecords(run: seq<Step>, k: nat, t: Tag)
    requires k < |run| && GoodRun(run) && Full(run[k].report)
    ensures var v, o := RunTo(run, k + 1).view, Shown(run[k].report, t);
      && Count(v.created, t) == (if o.Some? && !EverShown(run, k, t) then 1 else 0)
      && Count(v.entered, t) == (if o.Some? && LatestLoop(run, k, t) < PreviousLoop(run, k) then 1 else 0)
      && Count(v.completed, t) == (if o.Some? && JustCompleted(Remembered(run, k, t), o.value) then 1 else 0)
  {
    LastSeenIsLatest(run, k, t);
    MemoryIsLastShown(run, k, t);
    CurrentIsPreviousLoop(run, k);
    var e, s := RunTo(run, k), run[k];
    UpdatedTrace(e, s.report, t);
    IssuedTrace(Updated(e, s.report), s.report, s.commands, t);
    assert Count([], t) == 0;
  }

  /** A frame records a unit as entering vision exactly when it shows the unit and no observation as
      late as the previous frame's loop did. */
  lemma {:induction false} EnteredIff(run: seq<Step>, k: nat, t: Tag)
    requires k < |run| && GoodRun(run) && Full(run[k].report)
    ensures Count(RunTo(run, k + 1).view.entered, t)
      == if Shown(run[k].report, t).Some? && LatestLoop(run, k, t) < PreviousLoop(run, k) then 1 else 0
  {
    FrameRecords(run, k, t);
  }

  /** A frame records the completion of a unit exactly when it shows the unit complete and the unit was
      last shown with some progress, but not all. */
  lemma {:induction false} CompletedIff(run: seq<Step>, k: nat, t: Tag)
    requires k < |run| && GoodRun(run) && Full(run[k].report)
    ensures Count(RunTo(run, k + 1).view.completed, t)
      == var o, before := Shown(run[k].report, t), Remembered(run, k, t).buildProgress;
         if o.Some? && 0.0 < before < 1.0 <= o.value.buildProgress then 1 else 0
  {
    FrameRecords(run, k, t);
  }

  /** The damage records about one unit. */
  function DamageOn(damaged: seq<Damage>, t: Tag): seq<Damage> {
    if damaged == [] then []
    else
      var d := damaged[|damaged| - 1];
      DamageOn(damaged[..|damaged| - 1], t) + if d.tag == t then [d] else []
  }

  lemma {:induction false} DamageOnNext(damaged: seq<Damage>, d: Damage, t: Tag)
    ensures DamageOn(damaged + [d], t) == DamageOn(damaged, t) + if d.tag == t then [d] else []
  {
    assert (damaged + [d])[..|damaged|] == damaged;
  }

  /** The losses of a unit remembered as u and shown as o, if there are any. */
  function Losses(u: Unit, o: Unit, t: Tag): seq<Damage> {
    if o.health < u.health || o.shield < u.shield then [Damage(t, u.health - o.health, u.shield - o.shield)] else []
  }

  lemma {:induction false} NotedDamageOn(w: View, u: Unit, o: Unit, prev: nat, t: Tag)
    ensures DamageOn(Noted(w, u, o, prev).damaged, t)
      == DamageOn(w.damaged, t) + if o.tag == t then Losses(u, o, t) else []
  {
    DamageOnNext(w.damaged, Damage(o.tag, u.health - o.health, u.shield - o.shield), t);
    assert NotedIdling(w, u, o).damaged == w.damaged;
  }

  lemma {:induction false} SeenDamage(v: View, o: Unit, loop: nat, prev: nat, t: Tag)
    ensures DamageOn(Seen(v, o, loop, prev).damaged, t)
      == DamageOn(v.damaged, t) + if o.tag == t then Losses(UnitOf(Created(v, t), t), o, t) else []
  {
    var w := Created(v, o.tag);
    NotedDamageOn(w, UnitOf(w, o.tag), o, prev, t);
    assert Seen(v, o, loop, prev).damaged == Noted(w, UnitOf(w, o.tag), o, prev).damaged;
  }

  lemma {:induction false} SeenAllDamage(v: View, units: seq<Unit>, loop: nat, prev: nat, t: Tag)
    requires Consistent(v) && Distinct(TagsOf(units))
    ensures var o := LastWithTag(units, t);
      DamageOn(SeenAll(v, units, loop, prev).damaged, t)
      == DamageOn(v.damaged, t) + if o.Some? then Losses(UnitOf(v, t), o.value, t) else []
  {
    if units != [] {
      var n := |units| - 1;
      DistinctTail(units);
      SeenAllDamage(v, units[..n], loop, prev, t);
      SeenAllTrace(v, units[..n], loop, prev, t);
      SeenDamage(SeenAll(v, units[..n], loop, prev), units[n], loop, prev, t);
    }
  }

  /** A frame records the damage of a unit exactly when it shows it with less health or less shield than it
      was last shown with; once, and with both differences. */
  lemma {:induction false} DamageIff(run: seq<Step>, k: nat, t: Tag)
    requires k < |run| && GoodRun(run) && Full(run[k].report)
    ensures DamageOn(RunTo(run, k + 1).view.damaged, t)
      == var o, u := Shown(run[k].report, t), Remembered(run, k, t);
         if o.Some? && (o.value.health < u.health || o.value.shield < u.shield)
         then [Damage(t, u.health - o.value.health, u.shield - o.value.shield)] else []
  {
    LastSeenIsLatest(run, k, t);
    MemoryIsLastShown(run, k, t);
    DamageInFrame(RunTo(run, k), run[k], t);
    LossesOfData(UnitOf(RunTo(run, k).view, t), Remembered(run, k, t));
  }

  lemma {:induction false} DamageInFrame(e: Engine, s: Step, t: Tag)
    requires Consistent(e.view) && GoodReport(s.report) && Full(s.report)
    ensures var o := Shown(s.report, t);
      DamageOn(After(e, s).view.damaged, t) == if o.Some? then Losses(UnitOf(e.view, t), o.value, t) else []
  {
    var r := s.report;
    SeenAllDamage(ClearedView(e.view), r.raw.value.units, r.gameLoop, e.current, t);
    IssuedDamage(Updated(e, r), r, s.commands);
  }

  lemma LossesOfData(u: Unit, w: Unit)
    requires Data(u) == Data(w)
    ensures u.health == w.health && u.shield == w.shield
  {
    assert Data(u).health == u.health && Data(w).health == w.health;
    assert Data(u).shield == u.shield && Data(w).shield == w.shield;
  }

  lemma IssuedDamage(e: Engine, r: Report, commands: seq<Tag>)
    ensures Issued(e, r, commands).view.damaged == e.view.damaged
  {
    if r.raw.Some? {
      BuriedRecords(e.view, r.raw.value.dead);
    }
  }

  /** Every observation is complete and the game loops grow from one upwards. */
  ghost predicate SteadyRun(run: seq<Step>) {
    && GoodRun(run)
    && (forall k :: 0 <= k < |run| ==> Full(run[k].report) && run[k].report.gameLoop >= 1)
    && (forall j, k :: 0 <= j < k < |run| ==> run[j].report.gameLoop < run[k].report.gameLoop)
  }

  lemma {:induction false} LatestLoopBound(run: seq<Step>, k: nat, t: Tag, bound: nat)
    requires k <= |run|
    requires bound >= 1 && forall j :: 0 <= j < k ==> run[j].report.gameLoop < bound
    ensures LatestLoop(run, k, t) < bound
  {
    if k > 0 {
      LatestLoopBound(run, k - 1, t, bound);
    }
  }

  /** Under growing game loops a unit enters vision exactly when the previous observation did not
      show it; the first observation records every unit. */
  lemma EnteredVisionIffAbsentBefore(run: seq<Step>, k: nat, t: Tag)
    requires SteadyRun(run) && k < |run|
    ensures Count(RunTo(run, k + 1).view.entered, t)
      == if Shown(run[k].report, t).Some? && (k == 0 || Shown(run[k - 1].report, t).None?) then 1 else 0
  {
    EnteredIff(run, k, t);
    LatestBeforePrevious(run, k, t);
  }

  lemma {:induction false} LatestBeforePrevious(run: seq<Step>, k: nat, t: Tag)
    requires SteadyRun(run) && k < |run|
    ensures LatestLoop(run, k, t) < PreviousLoop(run, k) <==> k == 0 || Shown(run[k - 1].report, t).None?
  {
    if k > 1 {
      LatestLoopBound(run, k - 1, t, run[k - 1].report.gameLoop);
    }
  }

  /** Whether a frame makes a unit idle, from what the reports have shown of it.  moved: the game loop
      has moved, so the events are issued. */
  predicate IdleInFrame(before: Unit, known: bool, shown: Option<Unit>, commanded: bool, dead: bool, moved: bool) {
    && shown.Some? && shown.value.alliance == Self
    && (|| 0.0 < before.buildProgress < 1.0 <= shown.value.buildProgress
        || (before.orders != [] && shown.value.orders == [])
        || (moved && commanded && !dead && shown.value.orders == [])
        || (moved && !known && shown.value.buildProgress >= 1.0 && shown.value.orders == []))
  }

  /** The idle set is exactly the own units that were last shown under construction or with orders and
      now are complete or without orders, and, if the game loop has moved, those commanded and still
      existing without orders and those never shown before that are complete and without orders. */
  lemma {:induction false} IdleIff(run: seq<Step>, k: nat, t: Tag)
    requires k < |run| && GoodRun(run) && Full(run[k].report)
    ensures var r := run[k].report;
      t in RunTo(run, k + 1).view.idled
      <==> IdleInFrame(Remembered(run, k, t), EverShown(run, k, t), Shown(r, t), t in run[k].commands,
                       t in r.raw.value.dead, PreviousLoop(run, k) != r.gameLoop)
  {
    var e, s := RunTo(run, k), run[k];
    LastSeenIsLatest(run, k, t);
    MemoryIsLastShown(run, k, t);
    CurrentIsPreviousLoop(run, k);
    UpdatedTrace(e, s.report, t);
    var u := Updated(e, s.report);
    BuriedTrace(u.view, s.report.raw.value.dead, t);
    IdleTrace(Buried(u.view, s.report.raw.value.dead), s.commands, t);
    assert t in u.view.created <==> Count(u.view.created, t) > 0;
  }

  /** A unit shown with orders is idle only because its construction has just been completed. */
  lemma {:induction false} IdleWithOrders(run: seq<Step>, k: nat, t: Tag)
    requires k < |run| && GoodRun(run) && Full(run[k].report)
    requires Shown(run[k].report, t).Some? && Shown(run[k].report, t).value.orders != []
    ensures var before, o := Remembered(run, k, t), Shown(run[k].report, t).value;
      t in RunTo(run, k + 1).view.idled
      <==> o.alliance == Self && 0.0 < before.buildProgress < 1.0 <= o.buildProgress
  {
    IdleIff(run, k, t);
  }

  lemma IdleTrace(v: View, commands: seq<Tag>, t: Tag)
    ensures t in IdleAfterCreation(IdleAfterCommands(v, commands)).idled
      <==> || t in v.idled
           || (t in commands && t in v.existing && IsQuiet(v, t))
           || (t in v.created && UnitOf(v, t).buildProgress >= 1.0 && IsQuiet(v, t))
  {
  }

  /** Completion records of a unit over the first k frames. */
  function CompletedTotal(run: seq<Step>, k: nat, t: Tag): nat
    requires k <= |run|
  {
    if k == 0 then 0
    else
      CompletedTotal(run, k - 1, t)
      + if Full(run[k - 1].report) then Count(RunTo(run, k).view.completed, t) else 0
  }

  /** The build progress shown for a unit never falls below what was last shown. */
  ghost predicate ProgressGrows(run: seq<Step>, t: Tag) {
    forall k :: 0 <= k < |run| && Shown(run[k].report, t).Some? && EverShown(run, k, t) ==>
      Shown(run[k].report, t).value.buildProgress >= LastShown(run, k, t).value.buildProgress
  }

  /** Construction completes at most once in any run, and stays complete. */
  lemma {:induction false} CompletedAtMostOnce(run: seq<Step>, k: nat, t: Tag)
    requires k <= |run| && GoodRun(run) && ProgressGrows(run, t)
    ensures CompletedTotal(run, k, t) <= 1
    ensures CompletedTotal(run, k, t) == 1 ==> Remembered(run, k, t).buildProgress >= 1.0
  {
    if k > 0 {
      CompletedAtMostOnce(run, k - 1, t);
      if Full(run[k - 1].report) {
        CompletedIff(run, k - 1, t);
      }
    }
  }

  /** All creation records of the first k frames, in order. */
  function AllCreated(run: seq<Step>, k: nat): seq<Tag>
    requires k <= |run|
  {
    if k == 0 then []
    else AllCreated(run, k - 1) + if Full(run[k - 1].report) then RunTo(run, k).view.created else []
  }

  lemma SeenCreates(v: View, o: Unit, loop: nat, prev: nat)
    ensures var w := Seen(v, o, loop, prev);
      if o.tag in v.known then w.known == v.known && w.created == v.created
      else w.known == v.known + [o.tag] && w.created == v.created + [o.tag]
  {
  }

  lemma {:induction false} SeenAllCreated(v: View, units: seq<Unit>, loop: nat, prev: nat)
    requires v.created == []
    ensures SeenAll(v, units, loop, prev).known == v.known + SeenAll(v, units, loop, prev).created
    ensures Distinct(v.known) ==> Distinct(SeenAll(v, units, loop, prev).known)
  {
    if units != [] {
      var n := |units| - 1;
      SeenAllCreated(v, units[..n], loop, prev);
      SeenCreates(SeenAll(v, units[..n], loop, prev), units[n], loop, prev);
    }
  }

  /** The creation records of a run are the known tags in order, so no tag is created twice. */
  lemma {:induction false} CreatedOncePerRun(run: seq<Step>, k: nat)
    requires k <= |run| && GoodRun(run)
    ensures AllCreated(run, k) == RunTo(run, k).view.known
    ensures Distinct(AllCreated(run, k))
  {
    if k > 0 {
      CreatedOncePerRun(run, k - 1);
      LastSeenIsLatest(run, k - 1, 0);
      var e, s := RunTo(run, k - 1), run[k - 1];
      UpdatedTrace(e, s.report, 0);
      IssuedTrace(Updated(e, s.report), s.report, s.commands, 0);
      if Full(s.report) {
        SeenAllCreated(ClearedView(e.view), s.report.raw.value.units, s.report.gameLoop, e.current);
      }
    }
  }

  /** The calls about one unit. */
  function CallsFor(calls: seq<Callback>, t: Tag): seq<Callback> {
    if calls == [] then []
    else
      var c := calls[|calls| - 1];
      CallsFor(calls[..|calls| - 1], t) + if c.tag == t then [c] else []
  }

  lemma {:induction false} CallsForConcat(a: seq<Callback>, b: seq<Callback>, t: Tag)
    ensures CallsFor(a + b, t) == CallsFor(a, t) + CallsFor(b, t)
  {
    if b == [] {
      assert a + b == a;
    } else {
      var n := |b| - 1;
      CallsForConcat(a, b[..n], t);
      assert (a + b)[..|a + b| - 1] == a + b[..n];
    }
  }

  lemma {:induction false} CallsForOne(record: Record, u: Unit, t: Tag)
    ensures CallsFor(CallsOn(record, u), t) == if u.tag == t then CallsOn(record, u) else []
  {
    var calls := CallsOn(record, u);
    if calls != [] {
      assert CallsFor(calls[..0], t) == [];
    }
  }

  /** Every listed tag stands for a unit with that tag. */
  predicate Labelled(v: View, tags: seq<Tag>) {
    forall t :: t in tags ==> UnitOf(v, t).tag == t
  }

  /** A tag recorded once is handed out once, as what its unit is. */
  lemma {:induction false} CallsForTag(record: Record, v: View, tags: seq<Tag>, t: Tag)
    requires Labelled(v, tags) && Count(tags, t) <= 1
    ensures CallsFor(CallsOf(record, v, tags), t) == if t in tags then CallsOn(record, UnitOf(v, t)) else []
  {
    if tags != [] {
      var n := |tags| - 1;
      assert tags == tags[..n] + [tags[n]];
      CountAppend(tags[..n], tags[n], t);
      CallsForTag(record, v, tags[..n], t);
      CallsForConcat(CallsOf(record, v, tags[..n]), CallsOn(record, UnitOf(v, tags[n])), t);
      CallsForOne(record, UnitOf(v, tags[n]), t);
    }
  }

  /** The calls of a frame that hand out one list of records: none while the game loop stands still. */
  function RecordCalls(e: Engine, record: Record): seq<Callback> {
    if e.current == e.previous then [] else CallsOf(record, e.view, RecordsOf(e.view, record))
  }

  /** Whether frame k records a unit, from what the reports have shown of it. */
  predicate RecordedIn(run: seq<Step>, k: nat, record: Record, t: Tag)
    requires k < |run|
  {
    var o := Shown(run[k].report, t);
    && o.Some?
    && match record
       case Creation => !EverShown(run, k, t)
       case Entrance => LatestLoop(run, k, t) < PreviousLoop(run, k)
       case Completion => 0.0 < Remembered(run, k, t).buildProgress < 1.0 <= o.value.buildProgress
  }

  lemma ShownTag(r: Report, t: Tag)
    ensures Shown(r, t).Some? ==> Shown(r, t).value.tag == t
  {
  }

  lemma {:induction false} LastShownTag(run: seq<Step>, k: nat, t: Tag)
    requires k <= |run|
    ensures EverShown(run, k, t) ==> LastShown(run, k, t).value.tag == t
  {
    if k > 0 {
      ShownTag(run[k - 1].report, t);
      LastShownTag(run, k - 1, t);
    }
  }

  lemma {:induction false} RecordCount(run: seq<Step>, k: nat, record: Record, t: Tag)
    requires k < |run| && GoodRun(run) && Full(run[k].report)
    ensures Count(RecordsOf(RunTo(run, k + 1).view, record), t) == if RecordedIn(run, k, record, t) then 1 else 0
  {
    FrameRecords(run, k, t);
  }

  lemma {:induction false} FrameLabels(run: seq<Step>, k: nat, record: Record)
    requires k < |run| && GoodRun(run) && Full(run[k].report)
    ensures Labelled(RunTo(run, k + 1).view, RecordsOf(RunTo(run, k + 1).view, record))
  {
    var v := RunTo(run, k + 1).view;
    forall t | t in RecordsOf(v, record) ensures UnitOf(v, t).tag == t {
      RecordCount(run, k, record, t);
      ShownTag(run[k].report, t);
      MemoryIsLastShown(run, k + 1, t);
    }
  }

  lemma CallsIgnoreMarks(record: Record, u: Unit, o: Unit)
    requires Data(u) == Data(o)
    ensures CallsOn(record, u) == CallsOn(record, o)
  {
    assert u.alliance == Data(u).alliance && u.displayType == Data(u).displayType && u.tag == Data(u).tag;
  }

  lemma {:induction false} LoopsOfFrame(run: seq<Step>, k: nat)
    requires k < |run| && Full(run[k].report)
    ensures var e := RunTo(run, k + 1); e.current == run[k].report.gameLoop && e.previous == PreviousLoop(run, k)
  {
    CurrentIsPreviousLoop(run, k);
  }

  lemma {:induction false} CallsOfFrame(run: seq<Step>, k: nat, record: Record, t: Tag)
    requires k < |run| && GoodRun(run) && Full(run[k].report)
    ensures var v := RunTo(run, k + 1).view;
      CallsFor(CallsOf(record, v, RecordsOf(v, record)), t)
      == if RecordedIn(run, k, record, t) then CallsOn(record, Shown(run[k].report, t).value) else []
  {
    var v := RunTo(run, k + 1).view;
    RecordCount(run, k, record, t);
    FrameLabels(run, k, record);
    CallsForTag(record, v, RecordsOf(v, record), t);
    if RecordedIn(run, k, record, t) {
      MemoryIsLastShown(run, k + 1, t);
      CallsIgnoreMarks(record, UnitOf(v, t), Shown(run[k].report, t).value);
    }
  }

  /** What a frame tells the user about a unit, from the reports alone.  A unit is reported as created,
      entering vision or completed exactly if the game loop has moved and the frame shows it as that: for
      the first time; after having been out of sight; complete after partial progress.  It is reported
      once, and as its alliance and display type in this very observation demand. */
  lemma {:induction false} FrameCallsIff(run: seq<Step>, k: nat, record: Record, t: Tag)
    requires k < |run| && GoodRun(run) && Full(run[k].report)
    ensures CallsFor(RecordCalls(RunTo(run, k + 1), record), t)
      == if PreviousLoop(run, k) != run[k].report.gameLoop && RecordedIn(run, k, record, t)
         then CallsOn(record, Shown(run[k].report, t).value) else []
  {
    LoopsOfFrame(run, k);
    CallsOfFrame(run, k, record, t);
  }

  lemma {:induction false} CallsForHolds(calls: seq<Callback>, c: Callback)
    ensures c in CallsFor(calls, c.tag) <==> c in calls
  {
    if calls != [] {
      CallsForHolds(calls[..|calls| - 1], c);
      assert calls == calls[..|calls| - 1] + [calls[|calls| - 1]];
    }
  }

  /** The four callbacks, from the reports alone.  The game loop must have moved and the frame must show
      the unit.  An own unit is reported as created, and a visible neutral one as its kind of created, when
      it is shown for the first time; a visible enemy as entering vision when it was last shown before the
      previous frame; an own unit as completed when it was last shown with some progress, but not all. */
  lemma {:induction false} CallbacksIff(run: seq<Step>, k: nat, t: Tag)
    requires k < |run| && GoodRun(run) && Full(run[k].report)
    ensures var e, r, o := RunTo(run, k + 1), run[k].report, Shown(run[k].report, t);
      var moved, before := PreviousLoop(run, k) != r.gameLoop, Remembered(run, k, t);
      && (UnitCreated(t) in RecordCalls(e, Creation) <==>
            moved && o.Some? && o.value.alliance == Self && !EverShown(run, k, t))
      && (NeutralUnitCreated(t) in RecordCalls(e, Creation) <==>
            && moved && o.Some? && o.value.alliance == Neutral && o.value.displayType == Visible
            && !EverShown(run, k, t))
      && (UnitEnterVision(t) in RecordCalls(e, Entrance) <==>
            && moved && o.Some? && o.value.alliance == Enemy && o.value.displayType == Visible
            && LatestLoop(run, k, t) < PreviousLoop(run, k))
      && (BuildingConstructionComplete(t) in RecordCalls(e, Completion) <==>
            && moved && o.Some? && o.value.alliance == Self
            && 0.0 < before.buildProgress < 1.0 <= o.value.buildProgress)
  {
    CallbackIff(run, k, Creation, UnitCreated(t));
    CallbackIff(run, k, Creation, NeutralUnitCreated(t));
    CallbackIff(run, k, Entrance, UnitEnterVision(t));
    CallbackIff(run, k, Completion, BuildingConstructionComplete(t));
    ShownTag(run[k].report, t);
  }

  lemma {:induction false} CallbackIff(run: seq<Step>, k: nat, record: Record, c: Callback)
    requires k < |run| && GoodRun(run) && Full(run[k].report)
    ensures c in RecordCalls(RunTo(run, k + 1), record) <==>
      && PreviousLoop(run, k) != run[k].report.gameLoop && RecordedIn(run, k, record, c.tag)
      && c in CallsOn(record, Shown(run[k].report, c.tag).value)
  {
    FrameCallsIff(run, k, record, c.tag);
    CallsForHolds(RecordCalls(RunTo(run, k + 1), record), c);
  }

  /** A death is reported for each dead tag that has ever been shown, as often as it is listed. */
  lemma {:induction false} DestroyedIff(v: View, dead: seq<Tag>, t: Tag)
    ensures Count(DestroyedCalls(v, dead), t) == if t in v.known then Count(dead, t) else 0
  {
    if dead != [] {
      var n := |dead| - 1;
      DestroyedIff(v, dead[..n], t);
      assert dead == dead[..n] + [dead[n]];
      CountAppend(dead[..n], dead[n], t);
      CountAppend(DestroyedCalls(v, dead[..n]), dead[n], t);
    }
  }

  /** The game loop has moved once an observation without score or unit data has been taken in. */
  predicate MovesAnyway(e: Engine, r: Report) {
    if r.hasScore then r.gameLoop != e.current else e.current != e.previous
  }

  /** An observation without score or unit data is not compared with the pool, and the records of the
      last full one stand.  They are handed out again, all of them, if and only if the game loop then
      differs from the one before: with a score, unless the loop is the current one; without, whenever
      the observation before did so.  Every unit that was idle is then idle once more. */
  lemma {:induction false} StaleRecordsAgainIff(e: Engine, s: Step, record: Record)
    requires Consistent(e.view) && !Full(s.report)
    ensures var after := After(e, s);
      && after.view.damaged == e.view.damaged && e.view.idled <= after.view.idled
      && (after.current != after.previous <==> MovesAnyway(e, s.report))
      && if MovesAnyway(e, s.report)
         then RecordCalls(after, record) == CallsOf(record, e.view, RecordsOf(e.view, record))
         else after.view == e.view && RecordCalls(after, record) == []
  {
    var b, after := BuriedBy(e.view, s.report), After(e, s);
    if s.report.raw.Some? {
      BuriedRecords(e.view, s.report.raw.value.dead);
    }
    forall t ensures CallsOn(record, UnitOf(after.view, t)) == CallsOn(record, UnitOf(e.view, t)) {
      BuriedByTrace(e.view, s.report, t);
    }
    CallsAgree(record, after.view, e.view, RecordsOf(e.view, record));
  }

  function CreationCallsIn(run: seq<Step>, k: nat, t: Tag): nat
    requires k < |run|
  {
    |CallsFor(RecordCalls(RunTo(run, k + 1), Creation), t)|
  }

  /** How often OnUnitCreated or OnNeutralUnitCreated is called for a unit in the first k frames. */
  function CreationCalls(run: seq<Step>, k: nat, t: Tag): nat
    requires k <= |run|
  {
    if k == 0 then 0
    else CreationCalls(run, k - 1, t) + CreationCallsIn(run, k - 1, t)
  }

  predicate HandsOutAgain(run: seq<Step>, k: nat)
    requires k < |run|
  {
    !Full(run[k].report) && MovesAnyway(RunTo(run, k), run[k].report)
  }

  /** No observation of the run hands out the records of an earlier one. */
  ghost predicate NoneAgain(run: seq<Step>) {
    forall k :: 0 <= k < |run| ==> !HandsOutAgain(run, k)
  }

  lemma CreationInFrame(run: seq<Step>, k: nat, t: Tag)
    requires k < |run| && GoodRun(run) && !HandsOutAgain(run, k)
    ensures CreationCallsIn(run, k, t) <= if Shown(run[k].report, t).Some? && !EverShown(run, k, t) then 1 else 0
  {
    if Full(run[k].report) {
      FrameCallsIff(run, k, Creation, t);
    } else {
      LastSeenIsLatest(run, k, t);
      StaleRecordsAgainIff(RunTo(run, k), run[k], Creation);
    }
  }

  lemma CreationNext(run: seq<Step>, k: nat, t: Tag)
    requires k < |run|
    requires CreationCallsIn(run, k, t) <= if Shown(run[k].report, t).Some? && !EverShown(run, k, t) then 1 else 0
    requires CreationCalls(run, k, t) <= if EverShown(run, k, t) then 1 else 0
    ensures CreationCalls(run, k + 1, t) <= if EverShown(run, k + 1, t) then 1 else 0
  {
  }

  /** Unless records are handed out again, the creation of a unit is reported at most once in any run,
      and only of units that have been shown. */
  lemma {:induction false} CreationToldOnce(run: seq<Step>, k: nat, t: Tag)
    requires k <= |run| && GoodRun(run) && NoneAgain(run)
    ensures CreationCalls(run, k, t) <= if EverShown(run, k, t) then 1 else 0
  {
    if k > 0 {
      var j := k - 1;
      CreationToldOnce(run, j, t);
      assert !HandsOutAgain(run, j);
      CreationInFrame(run, j, t);
      CreationNext(run, j, t);
    }
  }

  lemma {:induction false} BuriedRecords(v: View, dead: seq<Tag>)
    ensures var b := Buried(v, dead);
      b.created == v.created && b.entered == v.entered && b.completed == v.completed && b.damaged == v.damaged
      && b.idled == v.idled
  {
    if dead != [] {
      BuriedRecords(v, dead[..|dead| - 1]);
    }
  }
}
