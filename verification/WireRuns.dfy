/** Every interleaving of the socket thread's pushes with the pops and clears of the client thread. */
module WireRuns {
  import opened ClientProtocol

  /** Clear is the end of a Receive that timed out. */
  datatype Event = Push(response: Response) | Pop | Clear

  function After(w: Wire, e: Event): Wire {
    match e
    case Push(r) => Pushed(w, r)
    case Pop => Popped(w)
    case Clear => TimedOut(w)
  }

  /** What one event adds to the queue, hands to the client or throws away. */
  function PushedBy(e: Event): seq<Response> {
    if e.Push? then [e.response] else []
  }

  function PoppedBy(w: Wire, e: Event): seq<Response> {
    if e.Pop? && w.queue != [] then [w.queue[0]] else []
  }

  function DroppedBy(w: Wire, e: Event): seq<Response> {
    if e.Clear? then w.queue else []
  }

  /** The wire, and the responses pushed, handed to the client and thrown away so far, in order. */
  datatype Log = Log(wire: Wire, pushed: seq<Response>, popped: seq<Response>, dropped: seq<Response>)

  function Logged(l: Log, e: Event): Log {
    Log(After(l.wire, e), l.pushed + PushedBy(e), l.popped + PoppedBy(l.wire, e), l.dropped + DroppedBy(l.wire, e))
  }

  /** The first k events of a run. */
  function RunTo(w: Wire, run: seq<Event>, k: nat): Log
    requires k <= |run|
  {
    if k == 0 then Log(w, [], [], []) else Logged(RunTo(w, run, k - 1), run[k - 1])
  }

  /** At every point of every interleaving a non-empty queue is announced by the flag. */
  lemma {:induction false} FlagAlwaysSound(w: Wire, run: seq<Event>, k: nat)
    requires k <= |run| && FlagSound(w)
    ensures FlagSound(RunTo(w, run, k).wire)
  {
    if k > 0 {
      FlagAlwaysSound(w, run, k - 1);
    }
  }

  predicate FlagExact(w: Wire) {
    w.hasResponse <==> w.queue != []
  }

  /** Up to step k, the flag has told the exact truth at every point. */
  predicate AlwaysExact(w: Wire, run: seq<Event>, k: nat)
    requires k <= |run|
  {
    FlagExact(RunTo(w, run, k).wire) && (k > 0 ==> AlwaysExact(w, run, k - 1))
  }

  /** An exact flag stays exact through an event precisely when the event throws nothing away. */
  lemma ExactNext(l: Log, e: Event)
    requires l.dropped == [] ==> FlagExact(l.wire)
    ensures Logged(l, e).dropped == [] <==> l.dropped == [] && FlagExact(Logged(l, e).wire)
  {
    assert |Logged(l, e).dropped| == |l.dropped| + |DroppedBy(l.wire, e)|;
  }

  lemma {:induction false} ExactIsExactNow(w: Wire, run: seq<Event>, k: nat)
    requires k <= |run|
    ensures AlwaysExact(w, run, k) ==> FlagExact(RunTo(w, run, k).wire)
  {
  }

  lemma {:induction false} ExactAtNext(w: Wire, run: seq<Event>, j: nat)
    requires j < |run|
    ensures RunTo(w, run, j + 1) == Logged(RunTo(w, run, j), run[j])
    ensures AlwaysExact(w, run, j + 1) <==>
      AlwaysExact(w, run, j) && FlagExact(Logged(RunTo(w, run, j), run[j]).wire)
  {
  }

  /** The flag stays exact through a run exactly when no clear throws a response away; a run without
      timeouts has no clear at all. */
  lemma {:induction false} ExactIffNothingDropped(w: Wire, run: seq<Event>, k: nat)
    requires k <= |run| && FlagExact(w)
    ensures AlwaysExact(w, run, k) <==> RunTo(w, run, k).dropped == []
  {
    if k > 0 {
      var j := k - 1;
      ExactIffNothingDropped(w, run, j);
      ExactIsExactNow(w, run, j);
      ExactNext(RunTo(w, run, j), run[j]);
      ExactAtNext(w, run, j);
    }
  }

  type Measure = seq<Response> -> int

  /** A measure of lists that adds up, like the number of times one response stands in them. */
  ghost predicate Additive(f: Measure) {
    forall a, b {:trigger f(a + b)} :: f(a + b) == f(a) + f(b)
  }

  lemma EmptyMeasure(f: Measure)
    requires Additive(f)
    ensures f([]) == 0
  {
    var none: seq<Response> := [];
    assert none + none == none;
    assert f(none + none) == f(none) + f(none);
  }

  lemma EventConserves(f: Measure, w: Wire, e: Event)
    requires Additive(f)
    ensures f(w.queue) + f(PushedBy(e)) == f(PoppedBy(w, e)) + f(DroppedBy(w, e)) + f(After(w, e).queue)
  {
    EmptyMeasure(f);
    if e.Pop? && w.queue != [] {
      assert w.queue == [w.queue[0]] + w.queue[1..];
    }
  }

  /** What was queued at the start or pushed has been popped, dropped or queued. */
  predicate Balanced(f: Measure, start: seq<Response>, l: Log) {
    f(start) + f(l.pushed) == f(l.popped) + f(l.dropped) + f(l.wire.queue)
  }

  lemma BalanceNext(f: Measure, start: seq<Response>, l: Log, e: Event)
    requires Additive(f) && Balanced(f, start, l)
    ensures Balanced(f, start, Logged(l, e))
  {
    EventConserves(f, l.wire, e);
    assert f(l.pushed + PushedBy(e)) == f(l.pushed) + f(PushedBy(e));
    assert f(l.popped + PoppedBy(l.wire, e)) == f(l.popped) + f(PoppedBy(l.wire, e));
    assert f(l.dropped + DroppedBy(l.wire, e)) == f(l.dropped) + f(DroppedBy(l.wire, e));
  }

  lemma {:induction false} AlwaysBalanced(f: Measure, w: Wire, run: seq<Event>, k: nat)
    requires k <= |run| && Additive(f)
    ensures Balanced(f, w.queue, RunTo(w, run, k))
  {
    if k == 0 {
      EmptyMeasure(f);
    } else {
      AlwaysBalanced(f, w, run, k - 1);
      BalanceNext(f, w.queue, RunTo(w, run, k - 1), run[k - 1]);
    }
  }

  /** How often a response stands in a list. */
  function Times(r: Response): Measure {
    (rs: seq<Response>) => multiset(rs)[r]
  }

  /** Responses are conserved one by one: those queued at the start or pushed are those popped, dropped
      or still queued. */
  lemma {:induction false} ResponsesConserved(w: Wire, run: seq<Event>, k: nat)
    requires k <= |run|
    ensures var l := RunTo(w, run, k);
      multiset(w.queue + l.pushed) == multiset(l.popped + l.dropped + l.wire.queue)
  {
    var l := RunTo(w, run, k);
    forall r ensures Times(r)(w.queue + l.pushed) == Times(r)(l.popped + l.dropped + l.wire.queue) {
      TimesAddUp(r);
      AlwaysBalanced(Times(r), w, run, k);
      BalancedSums(Times(r), w.queue, l);
    }
    SameTimes(w.queue + l.pushed, l.popped + l.dropped + l.wire.queue);
  }

  lemma TimesAddUp(r: Response)
    ensures Additive(Times(r))
  {
  }

  lemma BalancedSums(f: Measure, start: seq<Response>, l: Log)
    requires Additive(f) && Balanced(f, start, l)
    ensures f(start + l.pushed) == f(l.popped + l.dropped + l.wire.queue)
  {
  }

  lemma SameTimes(a: seq<Response>, b: seq<Response>)
    requires forall r :: Times(r)(a) == Times(r)(b)
    ensures multiset(a) == multiset(b)
  {
    forall r ensures multiset(a)[r] == multiset(b)[r] {
      assert Times(r)(a) == Times(r)(b);
    }
  }

  lemma Regroup(a: seq<Response>, b: seq<Response>, c: seq<Response>)
    ensures a + b + c == a + (b + c)
  {
  }

  /** If nothing has been dropped, the responses popped followed by those queued are those queued at the
      start followed by those pushed. */
  predicate InOrder(start: seq<Response>, l: Log) {
    l.dropped == [] ==> l.popped + l.wire.queue == start + l.pushed
  }

  lemma OrderNext(start: seq<Response>, l: Log, e: Event)
    requires InOrder(start, l)
    ensures InOrder(start, Logged(l, e))
  {
    if Logged(l, e).dropped == [] {
      assert l.dropped == [] && DroppedBy(l.wire, e) == [];
      assert PoppedBy(l.wire, e) + After(l.wire, e).queue == l.wire.queue + PushedBy(e);
      Regroup(l.popped, PoppedBy(l.wire, e), After(l.wire, e).queue);
      Regroup(l.popped, l.wire.queue, PushedBy(e));
      Regroup(start, l.pushed, PushedBy(e));
    }
  }

  lemma {:induction false} RunNext(w: Wire, run: seq<Event>, j: nat)
    requires j < |run|
    ensures RunTo(w, run, j + 1) == Logged(RunTo(w, run, j), run[j])
  {
  }

  /** Without drops, responses come out in the order of the pushes. */
  lemma {:induction false} PoppedInPushOrder(w: Wire, run: seq<Event>, k: nat)
    requires k <= |run|
    ensures InOrder(w.queue, RunTo(w, run, k))
  {
    if k > 0 {
      var j := k - 1;
      PoppedInPushOrder(w, run, j);
      OrderNext(w.queue, RunTo(w, run, j), run[j]);
      RunNext(w, run, j);
    }
  }

  /** The events of one Receive: what arrives in time, then the pop or the clear. */
  function ReceiveRun(w: Wire, env: Recv): seq<Event> {
    PushEvents(env.arrivals) +
    if w.queue + env.arrivals != [] then [Pop] else PushEvents(env.late) + [Clear]
  }

  function PushEvents(rs: seq<Response>): (run: seq<Event>)
    ensures |run| == |rs| && forall i :: 0 <= i < |rs| ==> run[i] == Push(rs[i])
  {
    seq(|rs|, i requires 0 <= i < |rs| => Push(rs[i]))
  }

  lemma PushedOneMore(w: Wire, rs: seq<Response>, r: Response)
    ensures Pushed(PushedAll(w, rs), r) == PushedAll(w, rs + [r])
  {
    Regroup(w.queue, rs, [r]);
  }

  lemma {:induction false} PushEventsPushAll(w: Wire, rs: seq<Response>, after: seq<Event>, k: nat)
    requires k <= |rs|
    ensures RunTo(w, PushEvents(rs) + after, k).wire == PushedAll(w, rs[..k])
  {
    if k > 0 {
      PushEventsPushAll(w, rs, after, k - 1);
      PushedOneMore(w, rs[..k - 1], rs[k - 1]);
      assert rs[..k] == rs[..k - 1] + [rs[k - 1]];
    }
  }

  /** Receive is one of these interleavings, so everything proved of them holds of it. */
  lemma {:induction false} ReceiveIsARun(w: Wire, env: Recv)
    ensures var run := ReceiveRun(w, env); RunTo(w, run, |run|).wire == Received(w, env).0
  {
    if w.queue + env.arrivals != [] {
      PushesThenLast(w, env.arrivals, Pop);
    } else {
      assert ReceiveRun(w, env) == PushEvents(env.late) + [Clear];
      PushesThenLast(w, env.late, Clear);
    }
  }

  lemma {:induction false} PushesThenLast(w: Wire, rs: seq<Response>, last: Event)
    ensures RunTo(w, PushEvents(rs) + [last], |rs| + 1).wire == After(PushedAll(w, rs), last)
  {
    PushEventsPushAll(w, rs, [last], |rs|);
    assert rs[..|rs|] == rs;
  }
}
