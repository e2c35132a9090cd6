/** FIntentArbiter: picks one intent per actor out of the step's buffer, validates it and moves its
    target into the playable box. */
module IntentArbiter {
  import opened GameTypes
  import opened UnitContainer

  /** A single-precision coordinate or distance; only the finite ones are compared as reals. */
  datatype Coord = Finite(v: real) | Infinite(positive: bool) | NotANumber

  /** Floating-point equality: a NaN differs even from itself. */
  predicate SameCoord(a: Coord, b: Coord) {
    a == b && !a.NotANumber?
  }

  datatype Point = Point(x: Coord, y: Coord)

  predicate IsPointFinite(p: Point) {
    p.x.Finite? && p.y.Finite?
  }

  datatype TargetKind = NoTarget | PointTarget | UnitTarget

  datatype IntentDomain = Recovery | StructureBuild | StructureControl | UnitProduction | ArmyCombat

  function DomainOrder(d: IntentDomain): int {
    match d
    case Recovery => 0
    case StructureBuild => 1
    case StructureControl => 2
    case UnitProduction => 3
    case ArmyCombat => 4
  }

  datatype Intent = Intent(
    actor: Tag,
    ability: Ability,
    kind: TargetKind,
    point: Point,
    targetTag: Tag,
    priority: int,
    domain: IntentDomain,
    queued: bool,
    needsPlacement: bool,
    needsPathing: bool)

  const ORIGIN := Point(Finite(0.0), Finite(0.0))

  /** CreateUnitTarget with its default arguments. */
  function UnitTargetIntent(actor: Tag, ability: Ability, target: Tag, priority: int, domain: IntentDomain): Intent {
    Intent(actor, ability, UnitTarget, ORIGIN, target, priority, domain, false, false, false)
  }

  /** Field-by-field comparison with floating-point equality on the target point. */
  predicate Matches(a: Intent, b: Intent) {
    && a.actor == b.actor && a.ability == b.ability && a.kind == b.kind && a.targetTag == b.targetTag
    && SameCoord(a.point.x, b.point.x) && SameCoord(a.point.y, b.point.y)
    && a.priority == b.priority && a.domain == b.domain && a.queued == b.queued
    && a.needsPlacement == b.needsPlacement && a.needsPathing == b.needsPathing
  }

  datatype Box = Box(minX: real, minY: real, maxX: real, maxY: real)

  predicate NonEmpty(b: Box) {
    b.minX <= b.maxX && b.minY <= b.maxY
  }

  /** The answers of the game's query interface, as fixed functions within one step. */
  datatype Query = Query(placement: (Ability, Point, Unit) -> bool, pathing: (Unit, Point) -> Coord)

  datatype Frame = Frame(visible: Option<set<Tag>>, playable: Option<Box>, query: Option<Query>)

  function ClampReal(v: real, lo: real, hi: real): real {
    if v < lo then lo else if hi < v then hi else v
  }

  function ClampToPlayable(b: Box, p: Point): Point
    requires IsPointFinite(p)
  {
    Point(Finite(ClampReal(p.x.v, b.minX, b.maxX)), Finite(ClampReal(p.y.v, b.minY, b.maxY)))
  }

  /** A ground path exists when its length is positive, or zero because the actor is already there. */
  predicate IsGroundPathingResultValid(actor: Unit, target: Point, distance: Coord)
    requires IsPointFinite(target)
  {
    && distance.Finite? && distance.v >= 0.0
    && !(distance.v <= 0.0 && DistanceSquared(actor.pos, Position(target.x.v, target.y.v)) > 0.25)
  }

  predicate Better(challenger: Intent, incumbent: Intent) {
    if challenger.priority != incumbent.priority then challenger.priority > incumbent.priority
    else DomainOrder(challenger.domain) < DomainOrder(incumbent.domain)
  }

  /** What one intent is worth on its own: the intent to execute, or nothing. */
  function Normalized(frame: Frame, units: seq<Unit>, i: Intent): Option<Intent> {
    var actor := LastWithTag(units, i.actor);
    if actor.None? then None
    else match i.kind
      case NoTarget => Some(i)
      case UnitTarget => if frame.visible.Some? && i.targetTag in frame.visible.value then Some(i) else None
      case PointTarget =>
        if frame.playable.None? || !IsPointFinite(i.point) then None
        else
          var n := i.(point := ClampToPlayable(frame.playable.value, i.point));
          if PlacementHolds(frame, n, actor.value) && PathingHolds(frame, n, actor.value) then Some(n) else None
  }

  predicate PlacementHolds(frame: Frame, n: Intent, actor: Unit) {
    n.needsPlacement ==> frame.query.Some? && frame.query.value.placement(n.ability, n.point, actor)
  }

  predicate PathingHolds(frame: Frame, n: Intent, actor: Unit)
    requires IsPointFinite(n.point)
  {
    n.needsPathing && !actor.isFlying ==>
      frame.query.Some? && IsGroundPathingResultValid(actor, n.point, frame.query.value.pathing(actor, n.point))
  }

  /** Intent i is the earliest of the best intents its actor has among the first n. */
  ghost predicate WinsAmong(buffer: seq<Intent>, n: nat, i: nat)
    requires n <= |buffer|
  {
    && i < n && buffer[i].actor != NULL_TAG
    && forall j :: 0 <= j < n && buffer[j].actor == buffer[i].actor ==>
         !Better(buffer[j], buffer[i]) && (j < i ==> Better(buffer[i], buffer[j]))
  }

  ghost predicate Wins(buffer: seq<Intent>, i: nat) {
    WinsAmong(buffer, |buffer|, i)
  }

  /** The value intent i contributes to the resolved list. */
  ghost function Contribution(frame: Frame, units: seq<Unit>, buffer: seq<Intent>, i: nat): Option<Intent>
    requires i < |buffer|
  {
    if Wins(buffer, i) && Matches(buffer[i], buffer[i]) then Normalized(frame, units, buffer[i]) else None
  }

  /** The simple specification: the contributions of the first n intents, in buffer order. */
  ghost function ResolvedTo(frame: Frame, units: seq<Unit>, buffer: seq<Intent>, n: nat): seq<Intent>
    requires n <= |buffer|
  {
    if n == 0 then []
    else
      var c := Contribution(frame, units, buffer, n - 1);
      ResolvedTo(frame, units, buffer, n - 1) + if c.Some? then [c.value] else []
  }

  ghost function Resolved(frame: Frame, units: seq<Unit>, buffer: seq<Intent>): seq<Intent> {
    ResolvedTo(frame, units, buffer, |buffer|)
  }

  /** One validation attempt.  A structure build reserves its actor the first time it is tried. */
  method ValidateAndNormalize(intent: Intent, frame: Frame, container: TerranUnitContainer, reserved: set<Tag>)
    returns (ok: bool, normalized: Intent, reserved': set<Tag>)
    requires container.Valid()
    ensures reserved <= reserved' <= reserved + {intent.actor}
    ensures intent.actor !in reserved ==>
      ok == Normalized(frame, container.controlledUnits, intent).Some?
    ensures ok ==> Normalized(frame, container.controlledUnits, intent) == Some(normalized)
  {
    normalized, reserved' := intent, reserved;
    var actor := container.GetUnitByTag(intent.actor);
    if actor.None? {
      return false, normalized, reserved';
    }
    if intent.domain == StructureBuild {
      if intent.actor in reserved {
        return false, normalized, reserved';
      }
      reserved' := reserved + {intent.actor};
    }
    if intent.kind == UnitTarget {
      ok := frame.visible.Some? && intent.targetTag in frame.visible.value;
      return;
    }
    if intent.kind == PointTarget {
      if frame.playable.None? || !IsPointFinite(intent.point) {
        return false, normalized, reserved';
      }
      normalized := intent.(point := ClampToPlayable(frame.playable.value, intent.point));
      if normalized.needsPlacement {
        if frame.query.None? || !frame.query.value.placement(normalized.ability, normalized.point, actor.value) {
          return false, normalized, reserved';
        }
      }
      if normalized.needsPathing && !actor.value.isFlying {
        if frame.query.None? {
          return false, normalized, reserved';
        }
        var distance := frame.query.value.pathing(actor.value, normalized.point);
        if !IsGroundPathingResultValid(actor.value, normalized.point, distance) {
          return false, normalized, reserved';
        }
      }
    }
    ok := true;
  }

  /** The winners map holds, for every actor met so far, its winning intent and where it stands. */
  ghost predicate WinnersAmong(buffer: seq<Intent>, n: nat, winners: map<Tag, Intent>, at: map<Tag, nat>)
    requires n <= |buffer|
  {
    && winners.Keys == at.Keys
    && (forall t :: t in at ==>
          WinsAmong(buffer, n, at[t]) && buffer[at[t]].actor == t && winners[t] == buffer[at[t]])
    && (forall j :: 0 <= j < n && buffer[j].actor != NULL_TAG ==> buffer[j].actor in at)
  }

  lemma WinnerStays(buffer: seq<Intent>, n: nat, w: nat)
    requires n < |buffer| && WinsAmong(buffer, n, w)
    requires buffer[n].actor != buffer[w].actor || !Better(buffer[n], buffer[w])
    ensures WinsAmong(buffer, n + 1, w)
  {
  }

  lemma ChallengerWins(buffer: seq<Intent>, n: nat, w: nat)
    requires n < |buffer| && WinsAmong(buffer, n, w)
    requires buffer[n].actor == buffer[w].actor && Better(buffer[n], buffer[w])
    ensures WinsAmong(buffer, n + 1, n)
  {
  }

  lemma WinnerUnique(buffer: seq<Intent>, i: nat, j: nat)
    requires Wins(buffer, i) && Wins(buffer, j) && buffer[i].actor == buffer[j].actor
    ensures i == j
  {
  }

  /** The first pass: a challenger replaces the incumbent only when it is strictly better. */
  method PickWinners(buffer: seq<Intent>) returns (winners: map<Tag, Intent>, ghost at: map<Tag, nat>)
    ensures WinnersAmong(buffer, |buffer|, winners, at)
    ensures forall w: nat :: Wins(buffer, w) ==> buffer[w].actor in winners && winners[buffer[w].actor] == buffer[w]
    ensures forall t :: t in winners ==> exists w: nat :: Wins(buffer, w) && buffer[w].actor == t
  {
    winners, at := map[], map[];
    var n := 0;
    while n < |buffer|
      invariant 0 <= n <= |buffer|
      invariant WinnersAmong(buffer, n, winners, at)
    {
      var intent := buffer[n];
      ghost var before := at;
      if intent.actor != NULL_TAG && (intent.actor !in winners || Better(intent, winners[intent.actor])) {
        if intent.actor in at {
          ChallengerWins(buffer, n, at[intent.actor]);
        }
        winners := winners[intent.actor := intent];
        at := at[intent.actor := n];
      }
      forall t | t in before && (t == intent.actor ==> at == before)
        ensures WinsAmong(buffer, n + 1, before[t])
      {
        WinnerStays(buffer, n, before[t]);
      }
      n := n + 1;
    }
    forall w: nat | Wins(buffer, w)
      ensures buffer[w].actor in winners && winners[buffer[w].actor] == buffer[w]
    {
      WinnerUnique(buffer, w, at[buffer[w].actor]);
    }
  }

  /** Two intents that match are the same value, so a match never stands before the winner. */
  lemma MatchOfWinner(buffer: seq<Intent>, w: nat, n: nat)
    requires n < |buffer| && Wins(buffer, w) && Matches(buffer[n], buffer[w])
    ensures buffer[n] == buffer[w] && w <= n
  {
  }

  lemma WinnersDiffer(buffer: seq<Intent>, i: nat, j: nat)
    requires Wins(buffer, i) && Wins(buffer, j) && i < j
    ensures buffer[i].actor != buffer[j].actor
  {
  }

  ghost function PassedWinners(buffer: seq<Intent>, at: map<Tag, nat>, n: nat): set<Tag> {
    set t | t in at && at[t] < n
  }

  ghost function AddedBefore(frame: Frame, units: seq<Unit>, buffer: seq<Intent>, at: map<Tag, nat>, n: nat): set<Tag>
    requires forall t :: t in at ==> at[t] < |buffer|
  {
    set t | t in at && at[t] < n && Contribution(frame, units, buffer, at[t]).Some?
  }

  /** What round n of the second pass adds, according to where the winner of its actor stands. */
  lemma SecondPassStep(frame: Frame, units: seq<Unit>, buffer: seq<Intent>, winners: map<Tag, Intent>,
                       at: map<Tag, nat>, n: nat)
    requires n < |buffer| && WinnersAmong(buffer, |buffer|, winners, at)
    ensures var t := buffer[n].actor;
      var c := Contribution(frame, units, buffer, n);
      var added := AddedBefore(frame, units, buffer, at, n);
      && AddedBefore(frame, units, buffer, at, n + 1) == (if c.Some? then added + {t} else added)
      && (t in at && at[t] == n ==> t !in PassedWinners(buffer, at, n) && t !in added)
      && (t !in at || at[t] != n ==> c.None?)
      && (t in at && at[t] != n && t !in added && Matches(buffer[n], winners[t]) ==>
            Normalized(frame, units, winners[t]).None?)
      && (c.Some? ==> c.value.actor == t && Matches(buffer[n], winners[t]))
  {
    var t := buffer[n].actor;
    if t in at && Matches(buffer[n], winners[t]) {
      MatchOfWinner(buffer, at[t], n);
    }
  }

  /** The loop state of the second pass before round n. */
  ghost predicate InSecondPass(frame: Frame, units: seq<Unit>, buffer: seq<Intent>, at: map<Tag, nat>, n: nat,
                               resolved: seq<Intent>, added: set<Tag>, reserved: set<Tag>)
    requires n <= |buffer| && forall t :: t in at ==> at[t] < |buffer|
  {
    && resolved == ResolvedTo(frame, units, buffer, n)
    && added == AddedBefore(frame, units, buffer, at, n)
    && reserved <= PassedWinners(buffer, at, n)
  }

  /** The test that lets a round of the second pass try the winner of its actor. */
  predicate IsTried(winners: map<Tag, Intent>, added: set<Tag>, original: Intent) {
    original.actor in winners && original.actor !in added && Matches(original, winners[original.actor])
  }

  lemma RoundSkipped(frame: Frame, units: seq<Unit>, buffer: seq<Intent>, winners: map<Tag, Intent>,
                     at: map<Tag, nat>, n: nat, resolved: seq<Intent>, added: set<Tag>, reserved: set<Tag>)
    requires n < |buffer| && WinnersAmong(buffer, |buffer|, winners, at)
    requires InSecondPass(frame, units, buffer, at, n, resolved, added, reserved)
    requires !IsTried(winners, added, buffer[n])
    ensures InSecondPass(frame, units, buffer, at, n + 1, resolved, added, reserved)
  {
    SecondPassStep(frame, units, buffer, winners, at, n);
  }

  /** A winner is tried in its own round first, and again only if it failed there. */
  lemma RoundTried(frame: Frame, units: seq<Unit>, buffer: seq<Intent>, winners: map<Tag, Intent>,
                   at: map<Tag, nat>, n: nat, resolved: seq<Intent>, added: set<Tag>, reserved: set<Tag>,
                   ok: bool, normalized: Intent, reserved': set<Tag>)
    requires n < |buffer| && WinnersAmong(buffer, |buffer|, winners, at)
    requires InSecondPass(frame, units, buffer, at, n, resolved, added, reserved)
    requires IsTried(winners, added, buffer[n]) && reserved' <= reserved + {buffer[n].actor}
    requires buffer[n].actor !in reserved ==> ok == Normalized(frame, units, winners[buffer[n].actor]).Some?
    requires ok ==> Normalized(frame, units, winners[buffer[n].actor]) == Some(normalized)
    ensures InSecondPass(frame, units, buffer, at, n + 1, if ok then resolved + [normalized] else resolved,
                         if ok then added + {normalized.actor} else added, reserved')
  {
    SecondPassStep(frame, units, buffer, winners, at, n);
  }

  /** Validates the winner of round n and adds it if it passes. */
  method TryWinner(frame: Frame, container: TerranUnitContainer, buffer: seq<Intent>, winners: map<Tag, Intent>,
                   ghost at: map<Tag, nat>, n: nat, resolved0: seq<Intent>, added0: set<Tag>, reserved0: set<Tag>)
    returns (resolved: seq<Intent>, added: set<Tag>, reserved: set<Tag>)
    requires container.Valid() && n < |buffer| && WinnersAmong(buffer, |buffer|, winners, at)
    requires InSecondPass(frame, container.controlledUnits, buffer, at, n, resolved0, added0, reserved0)
    requires IsTried(winners, added0, buffer[n])
    ensures InSecondPass(frame, container.controlledUnits, buffer, at, n + 1, resolved, added, reserved)
  {
    var ok, normalized;
    ok, normalized, reserved := ValidateAndNormalize(winners[buffer[n].actor], frame, container, reserved0);
    RoundTried(frame, container.controlledUnits, buffer, winners, at, n, resolved0, added0, reserved0, ok, normalized,
               reserved);
    resolved := if ok then resolved0 + [normalized] else resolved0;
    added := if ok then added0 + {normalized.actor} else added0;
  }

  /** The code of FIntentArbiter::Resolve computes the simple specification. */
  method Resolve(frame: Frame, container: TerranUnitContainer, buffer: seq<Intent>) returns (resolved: seq<Intent>)
    requires container.Valid()
    ensures resolved == Resolved(frame, container.controlledUnits, buffer)
  {
    var winners, at := PickWinners(buffer);
    resolved := TryWinners(frame, container, buffer, winners, at);
  }

  /** The second pass. */
  method TryWinners(frame: Frame, container: TerranUnitContainer, buffer: seq<Intent>, winners: map<Tag, Intent>,
                    ghost at: map<Tag, nat>)
    returns (resolved: seq<Intent>)
    requires container.Valid() && WinnersAmong(buffer, |buffer|, winners, at)
    ensures resolved == Resolved(frame, container.controlledUnits, buffer)
  {
    ghost var units := container.controlledUnits;
    resolved := [];
    var added: set<Tag>, reserved: set<Tag> := {}, {};
    var n := 0;
    while n < |buffer|
      invariant 0 <= n <= |buffer|
      invariant InSecondPass(frame, units, buffer, at, n, resolved, added, reserved)
    {
      var original := buffer[n];
      if IsTried(winners, added, original) {
        resolved, added, reserved := TryWinner(frame, container, buffer, winners, at, n, resolved, added, reserved);
      } else {
        RoundSkipped(frame, units, buffer, winners, at, n, resolved, added, reserved);
      }
      n := n + 1;
    }
  }

  /** Every actor with an intent has a winner among its intents. */
  lemma {:induction false} WinnerExists(buffer: seq<Intent>, n: nat, j: nat) returns (w: nat)
    requires j < n <= |buffer| && buffer[j].actor != NULL_TAG
    ensures WinsAmong(buffer, n, w) && buffer[w].actor == buffer[j].actor
    decreases n
  {
    if exists k :: 0 <= k < n - 1 && buffer[k].actor == buffer[j].actor {
      var k :| 0 <= k < n - 1 && buffer[k].actor == buffer[j].actor;
      w := WinnerExists(buffer, n - 1, k);
      if buffer[n - 1].actor == buffer[w].actor && Better(buffer[n - 1], buffer[w]) {
        ChallengerWins(buffer, n - 1, w);
        w := n - 1;
      } else {
        WinnerStays(buffer, n - 1, w);
      }
    } else {
      w := j;
    }
  }

  /** Normalization keeps everything but the target point. */
  lemma NormalizedKeeps(frame: Frame, units: seq<Unit>, i: Intent)
    requires Normalized(frame, units, i).Some?
    ensures Normalized(frame, units, i).value == i.(point := Normalized(frame, units, i).value.point)
  {
  }

  /** The buffer positions the resolved intents come from, in increasing order. */
  lemma {:induction false} ResolvedPositions(frame: Frame, units: seq<Unit>, buffer: seq<Intent>, n: nat)
    returns (at: seq<nat>)
    requires n <= |buffer|
    ensures var resolved := ResolvedTo(frame, units, buffer, n);
      && |at| == |resolved|
      && (forall k :: 0 <= k < |at| ==>
            at[k] < n && Contribution(frame, units, buffer, at[k]) == Some(resolved[k]))
      && (forall k, l :: 0 <= k < l < |at| ==> at[k] < at[l])
      && (forall i :: 0 <= i < n && Contribution(frame, units, buffer, i).Some? ==> i in at)
  {
    at := [];
    if n > 0 {
      at := ResolvedPositions(frame, units, buffer, n - 1);
      if Contribution(frame, units, buffer, n - 1).Some? {
        at := at + [n - 1];
      }
    }
  }

  function ActorsOf(intents: seq<Intent>): (actors: seq<Tag>)
    ensures |actors| == |intents|
    ensures forall i :: 0 <= i < |intents| ==> actors[i] == intents[i].actor
  {
    seq(|intents|, i requires 0 <= i < |intents| => intents[i].actor)
  }

  /** At most one intent per actor is resolved. */
  lemma OneIntentPerActor(frame: Frame, units: seq<Unit>, buffer: seq<Intent>)
    ensures Distinct(ActorsOf(Resolved(frame, units, buffer)))
  {
    var resolved := Resolved(frame, units, buffer);
    var at := ResolvedPositions(frame, units, buffer, |buffer|);
    forall k, l | 0 <= k < l < |resolved|
      ensures resolved[k].actor != resolved[l].actor
    {
      NormalizedKeeps(frame, units, buffer[at[k]]);
      NormalizedKeeps(frame, units, buffer[at[l]]);
      WinnersDiffer(buffer, at[k], at[l]);
    }
  }

  /** The winner decides alone: its actor's resolved intent is the winner's, or there is none. */
  lemma WinnerDecides(frame: Frame, units: seq<Unit>, buffer: seq<Intent>, w: nat)
    requires Wins(buffer, w)
    ensures forall r :: r in Resolved(frame, units, buffer) && r.actor == buffer[w].actor ==>
      Contribution(frame, units, buffer, w) == Some(r)
    ensures Contribution(frame, units, buffer, w).Some? ==>
      Contribution(frame, units, buffer, w).value in Resolved(frame, units, buffer)
  {
    var resolved := Resolved(frame, units, buffer);
    var at := ResolvedPositions(frame, units, buffer, |buffer|);
    forall r | r in resolved && r.actor == buffer[w].actor
      ensures Contribution(frame, units, buffer, w) == Some(r)
    {
      var k :| 0 <= k < |resolved| && resolved[k] == r;
      NormalizedKeeps(frame, units, buffer[at[k]]);
      WinnerUnique(buffer, at[k], w);
    }
    if Contribution(frame, units, buffer, w).Some? {
      var k :| 0 <= k < |at| && at[k] == w;
      assert resolved[k] in resolved;
    }
  }

  /** Where a resolved intent comes from: no intent of its actor has a higher priority; none of the same
      priority has a lower domain; and of those equal in both it is the earliest. */
  lemma ResolvedIsBest(frame: Frame, units: seq<Unit>, buffer: seq<Intent>, r: Intent) returns (w: nat)
    requires r in Resolved(frame, units, buffer)
    ensures w < |buffer| && r == buffer[w].(point := r.point) && r.actor != NULL_TAG
    ensures forall j :: 0 <= j < |buffer| && buffer[j].actor == r.actor ==>
      || buffer[j].priority < r.priority
      || (buffer[j].priority == r.priority && DomainOrder(buffer[j].domain) > DomainOrder(r.domain))
      || (buffer[j].priority == r.priority && DomainOrder(buffer[j].domain) == DomainOrder(r.domain) && w <= j)
  {
    var resolved := Resolved(frame, units, buffer);
    var at := ResolvedPositions(frame, units, buffer, |buffer|);
    var k :| 0 <= k < |resolved| && resolved[k] == r;
    w := at[k];
    NormalizedKeeps(frame, units, buffer[w]);
  }

  /** Recovery goes before building, building before control, control before production, and all of them
      before combat. */
  lemma DomainsInOrder()
    ensures DomainOrder(Recovery) < DomainOrder(StructureBuild) < DomainOrder(StructureControl)
      < DomainOrder(UnitProduction) < DomainOrder(ArmyCombat)
  {
  }

  /** Two points of the plane within reach of a zero path. */
  predicate HalfApart(u: Unit, x: real, y: real) {
    (u.pos.x - x) * (u.pos.x - x) + (u.pos.y - y) * (u.pos.y - y) <= 0.5 * 0.5
  }

  /** What validation asks of an intent, field by field. */
  lemma ValidIff(frame: Frame, units: seq<Unit>, i: Intent)
    ensures Normalized(frame, units, i).Some? <==>
      && (exists k :: 0 <= k < |units| && units[k].tag == i.actor)
      && (i.kind == UnitTarget ==> frame.visible.Some? && i.targetTag in frame.visible.value)
      && (i.kind == PointTarget ==>
            && frame.playable.Some? && i.point.x.Finite? && i.point.y.Finite?
            && GroundTargetHolds(frame, units, i))
  {
    var actor := LastWithTag(units, i.actor);
    if i.kind == PointTarget && actor.Some? && frame.playable.Some? && IsPointFinite(i.point) {
      GroundTargetIff(frame, units, i, actor.value);
    }
  }

  lemma {:induction false} GroundTargetIff(frame: Frame, units: seq<Unit>, i: Intent, actor: Unit)
    requires frame.playable.Some? && IsPointFinite(i.point) && LastWithTag(units, i.actor) == Some(actor)
    ensures var n := i.(point := ClampToPlayable(frame.playable.value, i.point));
      GroundTargetHolds(frame, units, i) <==> PlacementHolds(frame, n, actor) && PathingHolds(frame, n, actor)
  {
    var p := ClampToPlayable(frame.playable.value, i.point);
    if frame.query.Some? {
      PathIff(actor, p, frame.query.value.pathing(actor, p));
    }
  }

  lemma PathIff(u: Unit, p: Point, d: Coord)
    requires IsPointFinite(p)
    ensures IsGroundPathingResultValid(u, p, d)
      <==> d.Finite? && (d.v > 0.0 || (d.v == 0.0 && HalfApart(u, p.x.v, p.y.v)))
  {
  }

  /** Placement and pathing, as far as the intent needs them, at the point moved into the box. */
  predicate GroundTargetHolds(frame: Frame, units: seq<Unit>, i: Intent)
    requires frame.playable.Some? && i.point.x.Finite? && i.point.y.Finite?
  {
    var actor, box := LastWithTag(units, i.actor), frame.playable.value;
    var x, y := ClampReal(i.point.x.v, box.minX, box.maxX), ClampReal(i.point.y.v, box.minY, box.maxY);
    var p := Point(Finite(x), Finite(y));
    && actor.Some?
    && (i.needsPlacement ==> frame.query.Some? && frame.query.value.placement(i.ability, p, actor.value))
    && (i.needsPathing && !actor.value.isFlying ==>
          && frame.query.Some?
          && var d := frame.query.value.pathing(actor.value, p);
             d.Finite? && (d.v > 0.0 || (d.v == 0.0 && HalfApart(actor.value, x, y))))
  }

  function Apart(a: real, b: real): real {
    if a <= b then b - a else a - b
  }

  predicate Within(b: Box, x: real, y: real) {
    b.minX <= x <= b.maxX && b.minY <= y <= b.maxY
  }

  /** The target of a resolved ground intent lies in the playable box, as near to the intended one as the
      box allows; other targets are left alone. */
  lemma NormalizedPoint(frame: Frame, units: seq<Unit>, i: Intent)
    requires Normalized(frame, units, i).Some?
    ensures var r := Normalized(frame, units, i).value;
      && (i.kind != PointTarget ==> r == i)
      && (i.kind == PointTarget ==>
            && r == i.(point := r.point) && r.point.x.Finite? && r.point.y.Finite?
            && (NonEmpty(frame.playable.value) ==>
                  Within(frame.playable.value, r.point.x.v, r.point.y.v)
                  && forall x, y :: Within(frame.playable.value, x, y) ==>
                       && Apart(r.point.x.v, i.point.x.v) <= Apart(x, i.point.x.v)
                       && Apart(r.point.y.v, i.point.y.v) <= Apart(y, i.point.y.v)))
  {
  }

  ghost predicate HasValidWinner(frame: Frame, units: seq<Unit>, buffer: seq<Intent>, t: Tag) {
    exists w: nat :: Wins(buffer, w) && buffer[w].actor == t && Contribution(frame, units, buffer, w).Some?
  }

  /** An actor is resolved exactly when its winner compares equal to itself and passes validation. */
  lemma ResolvedIff(frame: Frame, units: seq<Unit>, buffer: seq<Intent>, t: Tag)
    ensures t in ActorsOf(Resolved(frame, units, buffer)) <==> HasValidWinner(frame, units, buffer, t)
  {
    var resolved := Resolved(frame, units, buffer);
    var actors := ActorsOf(resolved);
    if t in actors {
      var at := ResolvedPositions(frame, units, buffer, |buffer|);
      var k :| 0 <= k < |actors| && actors[k] == t;
      NormalizedKeeps(frame, units, buffer[at[k]]);
      assert Wins(buffer, at[k]);
    }
    if HasValidWinner(frame, units, buffer, t) {
      var w: nat :| Wins(buffer, w) && buffer[w].actor == t && Contribution(frame, units, buffer, w).Some?;
      WinnerDecides(frame, units, buffer, w);
      NormalizedKeeps(frame, units, buffer[w]);
      var k :| 0 <= k < |resolved| && resolved[k] == Contribution(frame, units, buffer, w).value;
      assert actors[k] == t;
    }
  }

  /** Clamping twice is clamping once, for every value, exactly when the interval is not empty. */
  lemma ClampIdempotentIff(lo: real, hi: real)
    ensures (forall v :: ClampReal(ClampReal(v, lo, hi), lo, hi) == ClampReal(v, lo, hi)) <==> lo <= hi
  {
    if lo > hi {
      assert ClampReal(ClampReal(lo - 1.0, lo, hi), lo, hi) != ClampReal(lo - 1.0, lo, hi);
    }
  }

  /** A resolved intent is its own normal form when the playable box is not empty. */
  lemma NormalizedAgain(frame: Frame, units: seq<Unit>, i: Intent)
    requires frame.playable.Some? ==> NonEmpty(frame.playable.value)
    requires Matches(i, i) && Normalized(frame, units, i).Some?
    ensures var r := Normalized(frame, units, i).value;
      Matches(r, r) && Normalized(frame, units, r) == Some(r)
  {
  }

  ghost predicate IsResolvedAsIs(frame: Frame, units: seq<Unit>, buffer: seq<Intent>, i: nat)
    requires i < |buffer|
  {
    Contribution(frame, units, buffer, i) == Some(buffer[i])
  }

  lemma ContributesNext(frame: Frame, units: seq<Unit>, buffer: seq<Intent>, n: nat)
    requires n < |buffer| && IsResolvedAsIs(frame, units, buffer, n)
    ensures ResolvedTo(frame, units, buffer, n + 1) == ResolvedTo(frame, units, buffer, n) + [buffer[n]]
  {
  }

  lemma {:induction false} AllContribute(frame: Frame, units: seq<Unit>, buffer: seq<Intent>, n: nat)
    requires n <= |buffer|
    requires forall i :: 0 <= i < |buffer| ==> IsResolvedAsIs(frame, units, buffer, i)
    ensures ResolvedTo(frame, units, buffer, n) == buffer[..n]
  {
    if n > 0 {
      var m := n - 1;
      AllContribute(frame, units, buffer, m);
      ContributesNext(frame, units, buffer, m);
      assert buffer[..n] == buffer[..m] + [buffer[m]];
    }
  }

  /** Resolving the resolved list changes nothing. */
  lemma ResolveIdempotent(frame: Frame, units: seq<Unit>, buffer: seq<Intent>)
    requires frame.playable.Some? ==> NonEmpty(frame.playable.value)
    ensures IdempotentOn(frame, units, buffer)
  {
    var resolved := Resolved(frame, units, buffer);
    var at := ResolvedPositions(frame, units, buffer, |buffer|);
    OneIntentPerActor(frame, units, buffer);
    var actors := ActorsOf(resolved);
    forall i | 0 <= i < |resolved|
      ensures IsResolvedAsIs(frame, units, resolved, i)
    {
      NormalizedKeeps(frame, units, buffer[at[i]]);
      NormalizedAgain(frame, units, buffer[at[i]]);
      assert forall j :: 0 <= j < |resolved| && j != i ==> actors[j] != actors[i];
      assert Wins(resolved, i);
    }
    AllContribute(frame, units, resolved, |resolved|);
    assert resolved[..|resolved|] == resolved;
  }

  /** The box must not be empty for that: with an empty one a ground move is moved twice. */
  lemma {:induction false} EmptyBoxNotIdempotent(frame: Frame, units: seq<Unit>, i: Intent)
    requires i.actor != NULL_TAG && LastWithTag(units, i.actor).Some?
    requires i.kind == PointTarget && !i.needsPlacement && !i.needsPathing
    requires frame.playable.Some? && IsPointFinite(i.point)
    requires var box := frame.playable.value;
      || (box.minX > box.maxX && i.point.x.v < box.minX)
      || (box.minY > box.maxY && i.point.y.v < box.minY)
    ensures !IdempotentOn(frame, units, [i])
  {
    ResolveSingle(frame, units, i);
    ResolveSingle(frame, units, Normalized(frame, units, i).value);
  }

  ghost predicate IdempotentOn(frame: Frame, units: seq<Unit>, buffer: seq<Intent>) {
    Resolved(frame, units, Resolved(frame, units, buffer)) == Resolved(frame, units, buffer)
  }

  /** With a playable box and at least one unit to command, resolving is idempotent on all buffers if and
      only if the box is not empty. */
  lemma {:induction false} IdempotentIffBox(frame: Frame, units: seq<Unit>, t: Tag)
    requires frame.playable.Some? && t != NULL_TAG && LastWithTag(units, t).Some?
    ensures (forall buffer :: IdempotentOn(frame, units, buffer)) <==> NonEmpty(frame.playable.value)
  {
    var box := frame.playable.value;
    if NonEmpty(box) {
      forall buffer ensures IdempotentOn(frame, units, buffer) {
        ResolveIdempotent(frame, units, buffer);
      }
    } else {
      var corner := Point(Finite(box.minX - 1.0), Finite(box.minY - 1.0));
      var move := Intent(t, Smart, PointTarget, corner, NULL_TAG, 0, Recovery, false, false, false);
      EmptyBoxNotIdempotent(frame, units, move);
    }
  }

  lemma ResolveSingle(frame: Frame, units: seq<Unit>, i: Intent)
    requires i.actor != NULL_TAG && Matches(i, i) && Normalized(frame, units, i).Some?
    ensures Resolved(frame, units, [i]) == [Normalized(frame, units, i).value]
  {
    assert Wins([i], 0);
    assert ResolvedTo(frame, units, [i], 0) == [];
  }

  /** The only intent of an actor that names a visible unit is executed exactly as it was produced. */
  lemma {:induction false} SoleIntentSurvives(frame: Frame, units: seq<Unit>, buffer: seq<Intent>, i: nat)
    requires i < |buffer| && buffer[i].actor != NULL_TAG
    requires forall j :: 0 <= j < |buffer| && j != i ==> buffer[j].actor != buffer[i].actor
    requires buffer[i].kind == UnitTarget && Matches(buffer[i], buffer[i])
    requires LastWithTag(units, buffer[i].actor).Some?
    requires frame.visible.Some? && buffer[i].targetTag in frame.visible.value
    ensures buffer[i] in Resolved(frame, units, buffer)
  {
    assert Wins(buffer, i);
    WinnerDecides(frame, units, buffer, i);
  }
}
