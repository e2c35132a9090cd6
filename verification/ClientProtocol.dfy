/** The request/response protocol of one client as functions on its state.  Every blocking call
    takes what the game process and the clock do to it as an argument. */
module ClientProtocol {
  import opened GameTypes

  datatype Kind =
    | NotSet | CreateGame | JoinGame | RestartGame | StartReplay | LeaveGame | QuickSave | QuickLoad | Quit
    | GameInfo | Observation | Action | StepGame | Data | Query | SaveReplay | ReplayInfo | AvailableMaps
    | SaveMap | Ping | Debug

  datatype Status = Unknown | Launched | InitGame | InGame | InReplay | Ended | QuitGame

  datatype AppState = Normal | Crashed | Timeout | TimeoutZombie

  datatype ClientError =
    | ResponseNotConsumed | ResponseMismatch | SC2UnknownStatus | SC2AppFailure | SC2ProtocolError
    | SC2ProtocolTimeout

  /** errorCount is the number of error strings in the message; complete says that an answer to an
      observation request holds the observation itself.  number is that of the request answered: no
      message carries it and no function of the client looks at it. */
  datatype Response = Response(kind: Kind, errorCount: nat, status: Option<Status>, complete: bool, number: nat)

  /** The receive queue, the polling flag and the socket. */
  datatype Wire = Wire(queue: seq<Response>, hasResponse: bool, connected: bool)

  datatype Client = Client(
    wire: Wire,
    pending: Kind,
    status: Status,
    app: AppState,
    multiplayer: bool,
    errors: seq<ClientError>)

  /** What happens during one Receive: messages that arrive before the timeout, and messages the
      socket thread still pushes between the timeout and the clearing of the queue. */
  datatype Recv = Recv(arrivals: seq<Response>, late: seq<Response>)

  function Pushed(w: Wire, r: Response): Wire {
    w.(queue := w.queue + [r], hasResponse := true)
  }

  function PushedAll(w: Wire, rs: seq<Response>): Wire {
    if rs == [] then w else w.(queue := w.queue + rs, hasResponse := true)
  }

  function Popped(w: Wire): Wire {
    if w.queue == [] then w
    else w.(queue := w.queue[1..], hasResponse := w.hasResponse && |w.queue| > 1)
  }

  /** The timeout branch of Receive: the queue is emptied, the flag is not. */
  function TimedOut(w: Wire): Wire {
    w.(queue := [], connected := false)
  }

  function Received(w: Wire, env: Recv): (Wire, Option<Response>) {
    var filled := PushedAll(w, env.arrivals);
    if filled.queue != [] then (Popped(filled), Some(filled.queue[0]))
    else (TimedOut(PushedAll(filled, env.late)), None)
  }

  function Raise(c: Client, e: ClientError): Client {
    c.(errors := c.errors + [e])
  }

  /** ProtoInterface::SendRequest; reconnect says whether a missing connection can be rebuilt. */
  function Sent(c: Client, kind: Kind, ignorePending: bool, reconnect: bool): (Client, bool) {
    if !c.wire.connected && !reconnect then (c, false)
    else
      var d := c.(wire := c.wire.(connected := true));
      if !ignorePending && d.pending != NotSet then (Raise(d, ResponseNotConsumed), false)
      else (d.(pending := kind), true)
  }

  /** ProtoInterface::WaitForResponseInternal.  A timeout leaves the expected response in place. */
  function WaitedInternal(c: Client, env: Recv): (Client, Option<Response>) {
    var (wire, response) := Received(c.wire, env);
    var d := c.(wire := wire, status := Unknown);
    if response.None? then (d, None)
    else
      var r := response.value;
      var s := if r.status.Some? then d.(status := r.status.value) else d;
      var m := if r.errorCount == 0 && s.pending != r.kind then Raise(s, ResponseMismatch) else s;
      (m.(pending := NotSet), response)
  }

  /** Everything that may happen during one WaitForResponse. */
  datatype WaitEnv = WaitEnv(first: Recv, running: bool, reconnect: bool, ping: Recv, stillRunning: bool)

  /** The end of WaitForResponse for a process that hangs: it is terminated if possible. */
  function Hung(c: Client, stillRunning: bool): Client {
    Raise(Raise(c, SC2ProtocolTimeout).(app := if stillRunning then TimeoutZombie else Timeout), SC2AppFailure)
  }

  function PingAwaited(c: Client, env: Recv): (Client, bool) {
    var (d, reply) := WaitedInternal(c, env);
    if reply.None? then (d, false)
    else
      var u := if d.status == Unknown then Raise(d, SC2UnknownStatus) else d;
      (Raise(u, SC2UnknownStatus), true)
  }

  /** The ping that tells a game that hangs from a request that got lost. */
  function Pinged(c: Client, env: WaitEnv): (Client, bool) {
    var (p, sent) := Sent(c, Ping, true, env.reconnect);
    if sent then PingAwaited(p, env.ping) else (p, false)
  }

  /** ControlImp::WaitForResponse, with its timeout, ping and terminate recovery. */
  function Waited(c: Client, env: WaitEnv): (Client, Option<Response>) {
    var (d, response) := WaitedInternal(c, env.first);
    if response.Some? then
      (if response.value.errorCount > 0 then Raise(d, SC2ProtocolError) else d, response)
    else if !env.running then (Raise(d.(app := Crashed), SC2AppFailure), None)
    else
      var (p, answered) := Pinged(d, env);
      (if answered then p else Hung(p, env.stillRunning), None)
  }

  predicate IsInGame(c: Client) {
    c.app == Normal && (c.status == InGame || c.status == InReplay)
  }

  predicate HasResponsePending(c: Client) {
    c.pending != NotSet
  }

  predicate IsFinishedGame(c: Client) {
    c.app != Normal || (!IsInGame(c) && !HasResponsePending(c))
  }

  /** A request and the wait for its response, as every paired call of the library makes them. */
  datatype Call = Call(kind: Kind, reconnect: bool, wait: WaitEnv)

  function Called(c: Client, call: Call): (Client, Option<Response>) {
    var (d, sent) := Sent(c, call.kind, false, call.reconnect);
    if sent then Waited(d, call.wait) else (d, None)
  }

  function CalledAll(c: Client, calls: seq<Call>): Client {
    if calls == [] then c else Called(CalledAll(c, calls[..|calls| - 1]), calls[|calls| - 1]).0
  }

  /** An answer of a given kind without errors. */
  predicate IsGood(r: Option<Response>, kind: Kind) {
    r.Some? && r.value.kind == kind && r.value.errorCount == 0
  }

  /** How an observation request ends.  ReadMissing: the diagnostic of GetObservation looks into a
      response that is not there. */
  datatype Fetch = Observed | Failed | ReadMissing

  function GotObservation(c: Client, reconnect: bool, wait: WaitEnv): (Client, Fetch) {
    if c.app != Normal then (c, Failed)
    else
      var (d, sent) := Sent(c, Observation, false, reconnect);
      if !sent then (d, Failed)
      else
        var (w, r) := Waited(d, wait);
        (w, if r.None? then ReadMissing else if IsGood(r, Observation) && r.value.complete then Observed else Failed)
  }

  datatype StepEnv = StepEnv(reconnect: bool, wait: WaitEnv, obsReconnect: bool, obsWait: WaitEnv)

  function StepSent(c: Client, reconnect: bool): (Client, bool) {
    if c.app != Normal then (c, false) else Sent(c, StepGame, false, reconnect)
  }

  function StepAwaited(c: Client, env: StepEnv): (Client, Fetch) {
    var (w, r) := Waited(c, env.wait);
    if IsGood(r, StepGame) then GotObservation(w, env.obsReconnect, env.obsWait) else (w, Failed)
  }

  /** Step followed by WaitStep: WaitStep waits even when the step request was not sent. */
  function Stepped(c: Client, env: StepEnv): Client {
    StepAwaited(StepSent(c, env.reconnect).0, env).0
  }

  function RequestedLeave(c: Client, reconnect: bool): Client {
    if !c.multiplayer then c else Sent(c, LeaveGame, false, reconnect).0
  }

  /** PollLeaveGame: true means there is nothing to step. */
  function PolledLeave(c: Client, wait: WaitEnv): (Client, bool) {
    if !c.multiplayer then (c, false)
    else if c.pending != LeaveGame then
      (if HasResponsePending(c) then Raise(c, ResponseNotConsumed) else c, !IsInGame(c))
    else if !c.wire.hasResponse then (c, true)
    else (Waited(c, wait).0, true)
  }

  /** A non-empty queue is always announced by the flag. */
  predicate FlagSound(w: Wire) {
    w.queue != [] ==> w.hasResponse
  }

  /** WaitForResponse returns with the application normal exactly when the game answered the request
      or the ping; then no response is expected any more. */
  lemma WaitNormalIffAnswered(c: Client, env: WaitEnv)
    requires c.app == Normal
    ensures var after := Waited(c, env).0;
      && (after.app == Normal ==> after.pending == NotSet)
      && (after.app == Normal <==>
            || Received(c.wire, env.first).1.Some?
            || (&& env.running && env.reconnect
                && Received(Received(c.wire, env.first).0.(connected := true), env.ping).1.Some?))
  {
  }

  /** A wait that gets a response, from the messages alone: the oldest one is taken, no response is expected
      any more, and only an answer with error strings is reported as a protocol error. */
  lemma AnsweredWait(c: Client, env: WaitEnv)
    requires c.wire.queue + env.first.arrivals != []
    ensures var q := c.wire.queue + env.first.arrivals;
      var (d, r) := Waited(c, env);
      && r == Some(q[0]) && d.wire.queue == q[1..] && d.wire.connected == c.wire.connected
      && d.pending == NotSet && d.app == c.app && d.multiplayer == c.multiplayer
      && d.status == (if q[0].status.Some? then q[0].status.value else Unknown)
      && d.errors == c.errors + (if q[0].errorCount > 0 then [SC2ProtocolError]
                                 else if c.pending != q[0].kind then [ResponseMismatch]
                                 else [])
  {
  }

  /** A wait that gets none while the process is gone: the game has crashed. */
  lemma WaitOfCrashed(c: Client, env: WaitEnv)
    requires c.wire.queue == [] && env.first.arrivals == [] && !env.running
    ensures var (d, r) := Waited(c, env);
      && r.None? && d.app == Crashed && d.errors == c.errors + [SC2AppFailure]
      && d.pending == c.pending && d.multiplayer == c.multiplayer && !d.wire.connected && d.wire.queue == []
  {
  }

  /** A wait that gets none from a process that answers the ping: the game lives, the request is lost. */
  lemma WaitOfLost(c: Client, env: WaitEnv)
    requires c.wire.queue == [] && env.first.arrivals == []
    requires env.running && env.reconnect && env.ping.arrivals != []
    ensures var (d, r) := Waited(c, env);
      var pongs := env.ping.arrivals;
      && r.None? && d.app == c.app && d.pending == NotSet && d.multiplayer == c.multiplayer
      && d.wire.connected && d.wire.queue == pongs[1..]
      && d.status == (if pongs[0].status.Some? then pongs[0].status.value else Unknown)
      && d.errors == c.errors
           + (if pongs[0].errorCount == 0 && pongs[0].kind != Ping then [ResponseMismatch] else [])
           + (if d.status == Unknown then [SC2UnknownStatus] else []) + [SC2UnknownStatus]
  {
  }

  /** A wait that gets none, nor an answer to the ping: the game has hung, and is terminated or, if that
      fails, left behind. */
  lemma WaitOfHung(c: Client, env: WaitEnv)
    requires c.wire.queue == [] && env.first.arrivals == []
    requires env.running && (!env.reconnect || env.ping.arrivals == [])
    ensures var (d, r) := Waited(c, env);
      && r.None? && d.app == (if env.stillRunning then TimeoutZombie else Timeout)
      && d.errors == c.errors + [SC2ProtocolTimeout, SC2AppFailure]
      && d.pending == (if env.reconnect then Ping else c.pending) && d.multiplayer == c.multiplayer
      && !d.wire.connected && d.wire.queue == []
  {
  }

  /** A client that has failed never becomes normal again. */
  lemma FailureIsFinal(c: Client, env: WaitEnv)
    ensures Waited(c, env).0.app == Normal ==> c.app == Normal
  {
  }

  predicate Raised(c: Client, e: ClientError) {
    e in c.errors
  }

  /** No unconsumed response is added, and the kind of game stays. */
  predicate RaisesNoOverlap(before: Client, after: Client) {
    && (Raised(after, ResponseNotConsumed) <==> Raised(before, ResponseNotConsumed))
    && after.multiplayer == before.multiplayer
  }

  lemma InternalWaitRaises(c: Client, env: Recv)
    ensures RaisesNoOverlap(c, WaitedInternal(c, env).0)
  {
  }

  lemma PingRaises(c: Client, env: WaitEnv)
    ensures RaisesNoOverlap(c, Pinged(c, env).0)
  {
    InternalWaitRaises(Sent(c, Ping, true, env.reconnect).0, env.ping);
  }

  /** Waiting reports a mismatch or a failure at most, never an unconsumed response. */
  lemma WaitRaises(c: Client, env: WaitEnv)
    ensures Raised(Waited(c, env).0, ResponseNotConsumed) <==> Raised(c, ResponseNotConsumed)
    ensures Waited(c, env).0.multiplayer == c.multiplayer
  {
    InternalWaitRaises(c, env.first);
    PingRaises(WaitedInternal(c, env.first).0, env);
  }

  /** An observation is taken over exactly when it could be asked for and the first response is an
      observation, whole and without errors. */
  lemma ObservedIff(c: Client, reconnect: bool, wait: WaitEnv)
    ensures var q := c.wire.queue + wait.first.arrivals;
      GotObservation(c, reconnect, wait).1 == Observed
      <==> && c.app == Normal && c.pending == NotSet && (c.wire.connected || reconnect)
           && q != [] && q[0].kind == Observation && q[0].errorCount == 0 && q[0].complete
  {
  }

  /** WaitStep asks for an observation exactly when the first response answers the step without errors. */
  lemma StepObservesIff(c: Client, env: StepEnv)
    ensures var q := c.wire.queue + env.wait.first.arrivals;
      var w := Waited(c, env.wait).0;
      StepAwaited(c, env) == if q != [] && q[0].kind == StepGame && q[0].errorCount == 0
                             then GotObservation(w, env.obsReconnect, env.obsWait) else (w, Failed)
  {
    if c.wire.queue + env.wait.first.arrivals != [] {
      AnsweredWait(c, env.wait);
    } else if !env.wait.running {
      WaitOfCrashed(c, env.wait);
    } else if env.wait.reconnect && env.wait.ping.arrivals != [] {
      WaitOfLost(c, env.wait);
    } else {
      WaitOfHung(c, env.wait);
    }
  }

  /** GetObservation reads a missing response exactly when it could send its request and the wait for
      the answer runs into its timeout. */
  lemma ReadsMissingIff(c: Client, reconnect: bool, wait: WaitEnv)
    ensures GotObservation(c, reconnect, wait).1 == ReadMissing
      <==> && c.app == Normal && c.pending == NotSet && (c.wire.connected || reconnect)
           && c.wire.queue == [] && wait.first.arrivals == []
  {
  }

  /** This can happen to any client that may ask for an observation, and the client can stay healthy. */
  lemma HealthyReadOfMissing(c: Client) returns (wait: WaitEnv)
    requires c.app == Normal && c.pending == NotSet && c.wire.queue == []
    ensures var (d, fetch) := GotObservation(c, true, wait);
      fetch == ReadMissing && d.app == Normal && d.pending == NotSet
  {
    var pong := Response(Ping, 0, Some(c.status), true, 0);
    wait := WaitEnv(Recv([], []), true, true, Recv([pong], []), true);
  }
}
