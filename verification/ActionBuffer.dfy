/** The actions a bot issues between two steps, and their way to the game. */
module ActionBuffer {
  import opened GameTypes
  import CP = ClientProtocol
  import CO = ClientObjects

  datatype Target = NoTarget | AtPoint(pos: Position) | AtUnit(tag: Tag)

  datatype Action =
    | UnitCommand(tags: seq<Tag>, ability: int, target: Target, queued: bool)
    | ToggleAutocast(tags: seq<Tag>, ability: int)
    | SendChat(message: string, teamOnly: bool)

  /** The request under construction, if any, and the tags of the last batch. */
  datatype Buffer = Buffer(request: Option<seq<Action>>, commands: seq<Tag>)

  const EMPTY := Buffer(None, [])

  function Buffered(b: Buffer): seq<Action> {
    if b.request.Some? then b.request.value else []
  }

  function CommandTags(actions: seq<Action>): seq<Tag> {
    if actions == [] then []
    else
      var last := actions[|actions| - 1];
      CommandTags(actions[..|actions| - 1]) + if last.UnitCommand? then last.tags else []
  }

  lemma {:induction false} CommandTagsAppend(a: seq<Action>, b: seq<Action>)
    ensures CommandTags(a + b) == CommandTags(a) + CommandTags(b)
  {
    if b == [] {
      assert a + b == a;
    } else {
      var n := |b| - 1;
      assert (a + b)[..|a + b| - 1] == a + b[..n];
      CommandTagsAppend(a, b[..n]);
    }
  }

  /** The tags of unit commands, and of nothing else: neither autocast toggles nor messages count. */
  lemma {:induction false} CommandTagsIff(actions: seq<Action>, t: Tag)
    ensures t in CommandTags(actions) <==>
      exists k :: 0 <= k < |actions| && actions[k].UnitCommand? && t in actions[k].tags
  {
    if actions != [] {
      var n := |actions| - 1;
      CommandTagsIff(actions[..n], t);
      if k :| 0 <= k < |actions| && actions[k].UnitCommand? && t in actions[k].tags && k < n {
        assert actions[..n][k] == actions[k];
      }
    }
  }

  function Issued(b: Buffer, a: Action): Buffer {
    b.(request := Some(Buffered(b) + [a]))
  }

  /** SendActions, given whether the connection takes the request. */
  function SentAway(b: Buffer, accepted: bool): Buffer {
    if b.request.Some? && accepted then Buffer(None, CommandTags(b.request.value)) else b.(commands := [])
  }

  datatype Act = Issue(action: Action) | Send(accepted: bool)

  function Acted(b: Buffer, act: Act): Buffer {
    match act
    case Issue(a) => Issued(b, a)
    case Send(accepted) => SentAway(b, accepted)
  }

  function RunTo(run: seq<Act>, k: nat): Buffer
    requires k <= |run|
  {
    if k == 0 then EMPTY else Acted(RunTo(run, k - 1), run[k - 1])
  }

  function NewlyIssued(act: Act): seq<Action> {
    if act.Issue? then [act.action] else []
  }

  function IssuedIn(run: seq<Act>, k: nat): seq<Action>
    requires k <= |run|
  {
    if k == 0 then [] else IssuedIn(run, k - 1) + NewlyIssued(run[k - 1])
  }

  /** The batch a SendActions hands to the connection. */
  function Batch(b: Buffer, act: Act): seq<Action> {
    if act.Send? && act.accepted then Buffered(b) else []
  }

  /** The batches handed to the connection, joined. */
  function SentIn(run: seq<Act>, k: nat): seq<Action>
    requires k <= |run|
  {
    if k == 0 then [] else SentIn(run, k - 1) + Batch(RunTo(run, k - 1), run[k - 1])
  }

  lemma ActConserves(sent: seq<Action>, b: Buffer, act: Act)
    ensures sent + Batch(b, act) + Buffered(Acted(b, act)) == sent + Buffered(b) + NewlyIssued(act)
  {
  }

  /** No command is lost, repeated or reordered, however often sending fails: the batches sent so far
      followed by the batch still buffered are the actions issued so far. */
  lemma {:induction false} ActionsConserved(run: seq<Act>, k: nat)
    requires k <= |run|
    ensures SentIn(run, k) + Buffered(RunTo(run, k)) == IssuedIn(run, k)
  {
    if k > 0 {
      ActionsConserved(run, k - 1);
      ActConserves(SentIn(run, k - 1), RunTo(run, k - 1), run[k - 1]);
    }
  }

  function Reported(b: Buffer, act: Act): seq<Tag> {
    if act.Send? then Acted(b, act).commands else []
  }

  lemma {:induction false} ReportNext(reported: seq<Tag>, sent: seq<Action>, b: Buffer, act: Act)
    requires reported == CommandTags(sent)
    ensures reported + Reported(b, act) == CommandTags(sent + Batch(b, act))
  {
    CommandTagsAppend(sent, Batch(b, act));
    assert Reported(b, act) == CommandTags(Batch(b, act));
  }

  /** What Commands() shows right after each SendActions, one after another. */
  function ReportedIn(run: seq<Act>, k: nat): seq<Tag>
    requires k <= |run|
  {
    if k == 0 then []
    else ReportedIn(run, k - 1) + Reported(RunTo(run, k - 1), run[k - 1])
  }

  /** Every tag of a unit command that was sent is reported by Commands() after exactly one SendActions,
      in the order of the commands, and no other tag ever is. */
  lemma {:induction false} CommandsReportedOnce(run: seq<Act>, k: nat)
    requires k <= |run|
    ensures ReportedIn(run, k) == CommandTags(SentIn(run, k))
  {
    if k > 0 {
      CommandsReportedOnce(run, k - 1);
      ReportNext(ReportedIn(run, k - 1), SentIn(run, k - 1), RunTo(run, k - 1), run[k - 1]);
    }
  }

  /** So the tags reported so far and those of the buffered commands are the tags commanded so far. */
  lemma {:induction false} CommandTagsConserved(run: seq<Act>, k: nat)
    requires k <= |run|
    ensures ReportedIn(run, k) + CommandTags(Buffered(RunTo(run, k))) == CommandTags(IssuedIn(run, k))
  {
    ActionsConserved(run, k);
    CommandsReportedOnce(run, k);
    CommandTagsAppend(SentIn(run, k), Buffered(RunTo(run, k)));
  }

  /** Issuing actions leaves Commands() alone, so between two SendActions it is the batch of the first. */
  lemma {:induction false} CommandsOfLastSend(run: seq<Act>, j: nat, k: nat)
    requires j < k <= |run| && run[j].Send?
    requires forall i :: j < i < k ==> run[i].Issue?
    ensures RunTo(run, k).commands ==
      if run[j].accepted && RunTo(run, j).request.Some? then CommandTags(RunTo(run, j).request.value) else []
  {
    if k > j + 1 {
      CommandsOfLastSend(run, j, k - 1);
    }
  }

  class ActionImp {
    const control: CO.ControlImp
    var request: Option<seq<Action>>
    var commands: seq<Tag>

    constructor (control: CO.ControlImp)
      ensures this.control == control && State() == EMPTY
    {
      this.control := control;
      request, commands := None, [];
    }

    function State(): Buffer
      reads this
    {
      Buffer(request, commands)
    }

    method AddAction(a: Action)
      modifies this`request
      ensures State() == Issued(old(State()), a)
    {
      if request.None? {
        request := Some([]);
      }
      request := Some(request.value + [a]);
    }

    method CommandTagged(tags: seq<Tag>, ability: int, target: Target, queued: bool)
      modifies this`request
      ensures State() == Issued(old(State()), UnitCommand(tags, ability, target, queued))
    {
      AddAction(UnitCommand(tags, ability, target, queued));
    }

    /** A missing unit, or a missing target unit, makes the call do nothing. */
    method CommandUnitOnUnit(unit: Option<Unit>, ability: int, target: Option<Unit>, queued: bool)
      modifies this`request
      ensures State() ==
        if unit.None? || target.None? then old(State())
        else Issued(old(State()), UnitCommand([unit.value.tag], ability, AtUnit(target.value.tag), queued))
    {
      if unit.None? || target.None? {
        return;
      }
      CommandTagged([unit.value.tag], ability, AtUnit(target.value.tag), queued);
    }

    method CommandUnits(units: seq<Unit>, ability: int, target: Target, queued: bool)
      modifies this`request
      ensures State() == Issued(old(State()), UnitCommand(TagsOf(units), ability, target, queued))
    {
      CommandTagged(TagsOf(units), ability, target, queued);
    }

    method SendActions(reconnect: bool, wait: CP.WaitEnv)
      modifies this, control.Repr()
      ensures var accepted := CP.Sent(old(control.State()), CP.Action, false, reconnect).1;
        State() == SentAway(old(State()), accepted)
      ensures control.State() ==
        if old(request).None? then old(control.State())
        else CP.Called(old(control.State()), CP.Call(CP.Action, reconnect, wait)).0
    {
      commands := [];
      if request.None? {
        return;
      }
      var accepted := control.SendRequest(CP.Action, reconnect);
      if !accepted {
        return;
      }
      commands := CollectTags(request.value);
      request := None;
      var _ := control.WaitForResponse(wait);
    }
  }

  method CollectTags(actions: seq<Action>) returns (tags: seq<Tag>)
    ensures tags == CommandTags(actions)
  {
    tags := [];
    for i := 0 to |actions|
      invariant tags == CommandTags(actions[..i])
    {
      assert actions[..i + 1][..i] == actions[..i];
      if actions[i].UnitCommand? {
        ghost var before := tags;
        var own := actions[i].tags;
        for j := 0 to |own|
          invariant tags == before + own[..j]
        {
          tags := tags + [own[j]];
        }
      }
    }
    assert actions[..|actions|] == actions;
  }
}
