/** One client against a game that answers the requests of a connection once each and in order.
    Waits may time out and the game may crash or hang; what it has not answered when the connection
    is closed is never answered. */
module ServerRuns {
  import opened GameTypes
  import opened ClientProtocol

  /** What the game puts in an answer besides its kind, which is that of the request. */
  datatype Reply = Reply(errorCount: nat, status: Option<Status>, complete: bool)

  /** The answers that arrive during a wait, and those that arrive while its timeout is handled. */
  datatype Delivery = Delivery(replies: seq<Reply>, late: seq<Reply>)

  /** A request sent; every request gets the next number. */
  datatype Question = Question(kind: Kind, number: nat)

  /** unanswered holds the requests the game has received and not yet answered, oldest first; latest is
      the number of the latest request sent, of whatever kind. */
  datatype System = System(client: Client, unanswered: seq<Question>, latest: nat)

  /** Request: SendRequest.  Answer: the game answers while nobody waits.  Await: WaitForResponse, with
      what happens during its own wait and that of its recovery ping.  PingGame: a ping that does not
      care whether a response is open, and its wait. */
  datatype Act =
    | Request(kind: Kind, reconnect: bool)
    | Answer(replies: seq<Reply>)
    | Await(first: Delivery, running: bool, reconnect: bool, ping: Delivery, stillRunning: bool)
    | PingGame(reconnect: bool, wait: Delivery)

  /** The answers to the oldest of the requests; the game has no others to give. */
  function Answers(questions: seq<Question>, replies: seq<Reply>): (rs: seq<Response>)
    ensures |rs| == if |replies| <= |questions| then |replies| else 0
    ensures forall i :: 0 <= i < |rs| ==> rs[i] == AnswerTo(questions[i], replies[i])
  {
    if |replies| > |questions| then []
    else seq(|replies|, i requires 0 <= i < |replies| => AnswerTo(questions[i], replies[i]))
  }

  function AnswerTo(q: Question, r: Reply): Response {
    Response(q.kind, r.errorCount, r.status, r.complete, q.number)
  }

  function Rest(questions: seq<Question>, replies: seq<Reply>): seq<Question> {
    questions[|Answers(questions, replies)|..]
  }

  function RecvOf(questions: seq<Question>, d: Delivery): Recv {
    Recv(Answers(questions, d.replies), Answers(questions, d.late))
  }

  function Asked(s: System, kind: Kind, ignorePending: bool, reconnect: bool): (System, bool) {
    var (c, sent) := Sent(s.client, kind, ignorePending, reconnect);
    (if sent then System(c, s.unanswered + [Question(kind, s.latest + 1)], s.latest + 1) else s.(client := c), sent)
  }

  /** The question of a recovery ping. */
  function PingQuestion(s: System): Question {
    Question(Ping, s.latest + 1)
  }

  function EnvOf(s: System, act: Act): WaitEnv
    requires act.Await?
  {
    WaitEnv(
      RecvOf(s.unanswered, act.first), act.running, act.reconnect, RecvOf([PingQuestion(s)], act.ping),
      act.stillRunning)
  }

  /** A wait sends a recovery ping if it gets no response, the game runs and a new connection can be made. */
  predicate SendsPing(s: System, act: Act)
    requires act.Await?
  {
    Waited(s.client, EnvOf(s, act)).1.None? && act.running && act.reconnect
  }

  function Acted(s: System, act: Act): (System, Option<Response>) {
    match act
    case Request(kind, reconnect) => (Asked(s, kind, false, reconnect).0, None)
    case Answer(replies) =>
      var w := PushedAll(s.client.wire, Answers(s.unanswered, replies));
      (System(s.client.(wire := w), Rest(s.unanswered, replies), s.latest), None)
    case Await(first, _, _, _, _) =>
      var (c, r) := Waited(s.client, EnvOf(s, act));
      var latest := if SendsPing(s, act) then s.latest + 1 else s.latest;
      (System(c, if r.Some? then Rest(s.unanswered, first.replies) else [], latest), r)
    case PingGame(reconnect, wait) =>
      var (t, sent) := Asked(s, Ping, true, reconnect);
      if !sent then (t, None)
      else
        var (c, r) := WaitedInternal(t.client, RecvOf(t.unanswered, wait));
        (System(c, if r.Some? then Rest(t.unanswered, wait.replies) else [], t.latest), r)
  }

  function RunTo(s: System, run: seq<Act>, k: nat): System
    requires k <= |run|
  {
    if k == 0 then s else Acted(RunTo(s, run, k - 1), run[k - 1]).0
  }

  /** Requests name what they ask for, and only PingGame and the recovery send pings. */
  predicate Legal(act: Act) {
    act.Request? ==> act.kind != NotSet && act.kind != Ping
  }

  predicate LegalRun(run: seq<Act>, k: nat)
    requires k <= |run|
  {
    forall j :: 0 <= j < k ==> Legal(run[j])
  }

  /** An answer is queued or still to come. */
  predicate Outstanding(s: System) {
    s.client.wire.queue != [] || s.unanswered != []
  }

  /** A ping sent while an answer is outstanding, whose wait gets some answer in time. */
  predicate Overlaps(s: System, act: Act) {
    && act.PingGame? && Outstanding(s) && (s.client.wire.connected || act.reconnect)
    && (s.client.wire.queue != [] || Answers(s.unanswered + [PingQuestion(s)], act.wait.replies) != [])
  }

  predicate EverOverlaps(s: System, run: seq<Act>, k: nat)
    requires k <= |run|
  {
    k > 0 && (EverOverlaps(s, run, k - 1) || Overlaps(RunTo(s, run, k - 1), run[k - 1]))
  }

  /** Nothing is under way but the answer to the expected request, which is the latest request sent; the
      answer may have been lost. */
  predicate InStep(s: System) {
    var queue, pending := s.client.wire.queue, s.client.pending;
    if pending == NotSet then !Outstanding(s)
    else
      || (queue == [] && (s.unanswered == [] || s.unanswered == [Question(pending, s.latest)]))
      || (|queue| == 1 && queue[0].kind == pending && queue[0].number == s.latest && s.unanswered == [])
  }

  predicate Mismatched(c: Client) {
    Raised(c, ResponseMismatch)
  }

  /** A wait in step gets the answer to the latest request or none, and after it nothing is under way. */
  lemma AwaitInStep(s: System, d: Delivery)
    requires InStep(s)
    ensures var (c, r) := WaitedInternal(s.client, RecvOf(s.unanswered, d));
      && c.wire.queue == [] && (r.Some? ==> Rest(s.unanswered, d.replies) == [])
      && c.pending == (if r.Some? then NotSet else s.client.pending) && c.errors == s.client.errors
      && (r.Some? ==> s.client.pending == r.value.kind != NotSet && r.value.number == s.latest)
      && (r.None? ==> !c.wire.connected)
  {
  }

  /** The recovery ping is sent on a new connection, so nothing can be taken for its answer. */
  lemma RecoveryInStep(s: System, c: Client, act: Act)
    requires act.Await? && c.wire.queue == [] && !c.wire.connected
    ensures var d := Pinged(c, EnvOf(s, act)).0; d.wire.queue == [] && (Mismatched(d) <==> Mismatched(c))
  {
    var (p, sent) := Sent(c, Ping, true, act.reconnect);
    if sent {
      AwaitInStep(System(p, [PingQuestion(s)], s.latest + 1), act.ping);
    }
  }

  lemma WaitedInStep(s: System, act: Act)
    requires InStep(s) && act.Await?
    ensures var (c, r) := Waited(s.client, EnvOf(s, act));
      && c.wire.queue == [] && (Mismatched(c) <==> Mismatched(s.client))
      && (r.Some? ==> && Rest(s.unanswered, act.first.replies) == []
                      && s.client.pending == r.value.kind != NotSet && r.value.number == s.latest)
  {
    AwaitInStep(s, act.first);
    var (d, r) := WaitedInternal(s.client, RecvOf(s.unanswered, act.first));
    if r.None? {
      RecoveryInStep(s, d, act);
    }
  }

  lemma WaitInStep(s: System, act: Act)
    requires InStep(s) && act.Await?
    ensures var (t, r) := Acted(s, act);
      && !Outstanding(t) && (Mismatched(t.client) <==> Mismatched(s.client))
      && (r.Some? ==> s.client.pending == r.value.kind != NotSet && r.value.number == s.latest)
  {
    WaitedInStep(s, act);
  }

  lemma PingInStep(s: System, act: Act)
    requires InStep(s) && act.PingGame? && !Overlaps(s, act)
    ensures var t := Acted(s, act).0;
      (t == s || !Outstanding(t)) && (Mismatched(t.client) <==> Mismatched(s.client))
  {
    var (t, sent) := Asked(s, Ping, true, act.reconnect);
    if sent && !Outstanding(s) {
      AwaitInStep(t, act.wait);
    }
  }

  /** In step, the open request is a ping only if its answer has been lost. */
  predicate PingsAreLost(s: System) {
    s.client.pending == Ping ==> !Outstanding(s)
  }

  lemma ActInStep(s: System, act: Act)
    requires InStep(s) && Legal(act) && !Overlaps(s, act)
    ensures var t := Acted(s, act).0;
      && InStep(t) && (Mismatched(t.client) <==> Mismatched(s.client))
      && (PingsAreLost(s) ==> PingsAreLost(t))
  {
    if act.Await? {
      WaitInStep(s, act);
    } else if act.PingGame? {
      PingInStep(s, act);
    }
  }

  /** Over any interleaving of requests, answers, waits, timeouts, crashes and recovery pings, without
      overlapping pings, the client stays in step with the game and never reports a mismatch. */
  lemma {:induction false} RunInStep(s: System, run: seq<Act>, k: nat)
    requires k <= |run| && InStep(s) && LegalRun(run, k) && !EverOverlaps(s, run, k)
    ensures var t := RunTo(s, run, k); InStep(t) && (Mismatched(t.client) <==> Mismatched(s.client))
  {
    if k > 0 {
      RunInStep(s, run, k - 1);
      ActInStep(RunTo(s, run, k - 1), run[k - 1]);
    }
  }

  /** Every wait of such a run that returns a response returns the answer to the latest request sent, not
      one to an earlier request of the same kind. */
  lemma {:induction false} WaitAnswersLatest(s: System, run: seq<Act>, k: nat)
    requires k < |run| && run[k].Await? && InStep(s) && LegalRun(run, k) && !EverOverlaps(s, run, k)
    ensures var t := RunTo(s, run, k);
      var r := Acted(t, run[k]).1;
      r.Some? ==> r.value.number == t.latest && r.value.kind == t.client.pending
  {
    RunInStep(s, run, k);
    WaitInStep(RunTo(s, run, k), run[k]);
  }

  predicate AllGood(d: Delivery) {
    forall i :: 0 <= i < |d.replies| ==> d.replies[i].errorCount == 0
  }

  /** The game reports no errors in the answers of this act. */
  predicate Clean(act: Act) {
    match act
    case Request(_, _) => true
    case Answer(replies) => AllGood(Delivery(replies, []))
    case Await(first, _, _, ping, _) => AllGood(first) && AllGood(ping)
    case PingGame(_, wait) => AllGood(wait)
  }

  predicate CleanRun(run: seq<Act>, k: nat)
    requires k <= |run|
  {
    forall j :: 0 <= j < k ==> Clean(run[j])
  }

  predicate CleanResponses(rs: seq<Response>) {
    forall i :: 0 <= i < |rs| ==> rs[i].errorCount == 0
  }

  lemma WaitKeepsClean(c: Client, questions: seq<Question>, d: Delivery)
    requires CleanResponses(c.wire.queue) && AllGood(d)
    ensures CleanResponses(WaitedInternal(c, RecvOf(questions, d)).0.wire.queue)
  {
    var filled := PushedAll(c.wire, Answers(questions, d.replies));
    assert CleanResponses(filled.queue);
  }

  lemma ActKeepsClean(s: System, act: Act)
    requires CleanResponses(s.client.wire.queue) && Clean(act)
    ensures CleanResponses(Acted(s, act).0.client.wire.queue)
  {
    match act
    case Request(kind, reconnect) =>
    case Answer(replies) =>
    case Await(first, _, reconnect, ping, _) =>
      WaitKeepsClean(s.client, s.unanswered, first);
      var d := WaitedInternal(s.client, RecvOf(s.unanswered, first)).0;
      WaitKeepsClean(Sent(d, Ping, true, reconnect).0, [PingQuestion(s)], ping);
    case PingGame(reconnect, wait) =>
      var t := Asked(s, Ping, true, reconnect).0;
      WaitKeepsClean(t.client, t.unanswered, wait);
  }

  /** A ping sent over an outstanding answer takes that answer for its own. */
  lemma OverlapMismatches(s: System, act: Act)
    requires InStep(s) && Overlaps(s, act) && CleanResponses(s.client.wire.queue) && Clean(act)
    requires s.client.pending != Ping
    ensures Mismatched(Acted(s, act).0.client)
  {
    var t := Asked(s, Ping, true, act.reconnect).0;
    var filled := PushedAll(t.client.wire, Answers(t.unanswered, act.wait.replies));
    assert filled.queue[0].kind == s.client.pending;
  }

  lemma MismatchStays(s: System, act: Act)
    requires Mismatched(s.client)
    ensures Mismatched(Acted(s, act).0.client)
  {
  }

  /** Against a game that reports no errors, a run reports a mismatch exactly when some ping was sent
      over an outstanding answer and got it. */
  lemma {:induction false} MismatchIffOverlap(s: System, run: seq<Act>, k: nat)
    requires k <= |run| && InStep(s) && !HasResponsePending(s.client) && !Mismatched(s.client)
    requires LegalRun(run, k) && CleanRun(run, k)
    ensures Mismatched(RunTo(s, run, k).client) <==> EverOverlaps(s, run, k)
    ensures CleanResponses(RunTo(s, run, k).client.wire.queue)
    ensures !EverOverlaps(s, run, k) ==> InStep(RunTo(s, run, k)) && PingsAreLost(RunTo(s, run, k))
  {
    if k > 0 {
      MismatchIffOverlap(s, run, k - 1);
      var t, act := RunTo(s, run, k - 1), run[k - 1];
      ActKeepsClean(t, act);
      if EverOverlaps(s, run, k - 1) {
        MismatchStays(t, act);
      } else if Overlaps(t, act) {
        OverlapMismatches(t, act);
      } else {
        ActInStep(t, act);
      }
    }
  }
}
