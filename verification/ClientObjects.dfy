/** The connection, the protocol interface and the control object as the library's mutable objects.
    State() is their value in the terms of ClientProtocol, where the properties are proved. */
module ClientObjects {
  import opened GameTypes
  import opened ClientProtocol

  class Connection {
    var queue: seq<Response>
    var hasResponse: bool
    var connected: bool

    function State(): Wire
      reads this
    {
      Wire(queue, hasResponse, connected)
    }

    constructor ()
      ensures State() == Wire([], false, false)
    {
      queue, hasResponse, connected := [], false, false;
    }

    /** Whether the websocket can be opened is up to the operating system. */
    method Connect(reachable: bool) returns (ok: bool)
      modifies this`connected
      ensures ok == reachable && connected == (old(connected) || reachable)
    {
      ok := reachable;
      if reachable {
        connected := true;
      }
    }

    method PushResponse(response: Response)
      modifies this`queue, this`hasResponse
      ensures State() == Pushed(old(State()), response)
    {
      queue := queue + [response];
      hasResponse := true;
    }

    method PopResponse() returns (response: Option<Response>)
      modifies this`queue, this`hasResponse
      ensures State() == Popped(old(State()))
      ensures response == if old(queue) == [] then None else Some(old(queue)[0])
    {
      if queue == [] {
        return None;
      }
      response := Some(queue[0]);
      queue := queue[1..];
      if queue == [] {
        hasResponse := false;
      }
    }

    method Disconnect()
      modifies this`connected
      ensures !connected
    {
      connected := false;
    }

    method PollResponse() returns (announced: bool)
      ensures announced == hasResponse
    {
      announced := hasResponse;
    }

    /** The socket thread at work. */
    method PushAll(responses: seq<Response>)
      modifies this`queue, this`hasResponse
      ensures State() == PushedAll(old(State()), responses)
    {
      ghost var before := State();
      for i := 0 to |responses|
        invariant State() == PushedAll(before, responses[..i])
      {
        assert responses[..i + 1] == responses[..i] + [responses[i]];
        assert before.queue + responses[..i] + [responses[i]] == before.queue + responses[..i + 1];
        PushResponse(responses[i]);
      }
      assert responses[..|responses|] == responses;
    }

    /** Blocks until a message is queued or the timeout runs out. */
    method Receive(env: Recv) returns (response: Option<Response>)
      modifies this
      ensures State() == Received(old(State()), env).0
      ensures response == Received(old(State()), env).1
    {
      PushAll(env.arrivals);
      if queue != [] {
        response := PopResponse();
      } else {
        PushAll(env.late);
        Disconnect();
        queue := [];
        response := None;
      }
    }
  }

  class ErrorLog {
    var errors: seq<ClientError>

    constructor ()
      ensures errors == []
    {
      errors := [];
    }

    method Error(e: ClientError)
      modifies this
      ensures errors == old(errors) + [e]
    {
      errors := errors + [e];
    }
  }

  class ProtoInterface {
    const connection: Connection
    const log: ErrorLog
    var latestStatus: Status
    var responsePending: Kind

    constructor (connection: Connection, log: ErrorLog)
      ensures this.connection == connection && this.log == log
      ensures latestStatus == Unknown && responsePending == NotSet
    {
      this.connection, this.log := connection, log;
      latestStatus, responsePending := Unknown, NotSet;
    }

    /** c agrees with this object about everything but the application and the kind of game. */
    ghost predicate Shows(c: Client)
      reads this, connection, log
    {
      c.wire == connection.State() && c.pending == responsePending && c.status == latestStatus && c.errors == log.errors
    }

    method SendRequest(kind: Kind, ignorePending: bool, reconnect: bool, ghost c: Client) returns (ok: bool)
      requires Shows(c)
      modifies this, connection, log
      ensures Shows(Sent(c, kind, ignorePending, reconnect).0)
      ensures ok == Sent(c, kind, ignorePending, reconnect).1
    {
      if !connection.connected {
        var rebuilt := connection.Connect(reconnect);
        if !rebuilt {
          return false;
        }
      }
      if !ignorePending && responsePending != NotSet {
        log.Error(ResponseNotConsumed);
        return false;
      }
      responsePending := kind;
      ok := true;
    }

    method WaitForResponseInternal(env: Recv, ghost c: Client) returns (response: Option<Response>)
      requires Shows(c)
      modifies this, connection, log
      ensures Shows(WaitedInternal(c, env).0)
      ensures response == WaitedInternal(c, env).1
    {
      latestStatus := Unknown;
      response := connection.Receive(env);
      if response.None? {
        return;
      }
      var r := response.value;
      if r.status.Some? {
        latestStatus := r.status.value;
      }
      if r.errorCount == 0 && responsePending != r.kind {
        log.Error(ResponseMismatch);
      }
      responsePending := NotSet;
    }
  }

  class ControlImp {
    const proto: ProtoInterface
    var appState: AppState
    var isMultiplayer: bool

    constructor (isMultiplayer: bool)
      ensures State() == Client(Wire([], false, false), NotSet, Unknown, Normal, isMultiplayer, [])
      ensures fresh(proto) && fresh(proto.connection) && fresh(proto.log)
    {
      var connection := new Connection();
      var log := new ErrorLog();
      proto := new ProtoInterface(connection, log);
      appState := Normal;
      this.isMultiplayer := isMultiplayer;
    }

    ghost function Repr(): set<object> {
      {this, proto, proto.connection, proto.log}
    }

    function State(): Client
      reads this, proto, proto.connection, proto.log
    {
      Client(
        proto.connection.State(), proto.responsePending, proto.latestStatus, appState, isMultiplayer, proto.log.errors)
    }

    method Error(e: ClientError)
      modifies proto.log
      ensures State() == Raise(old(State()), e)
    {
      proto.log.Error(e);
    }

    method SendRequest(kind: Kind, reconnect: bool) returns (ok: bool)
      modifies Repr()
      ensures (State(), ok) == Sent(old(State()), kind, false, reconnect)
    {
      ok := proto.SendRequest(kind, false, reconnect, State());
    }

    /** The last part of WaitForResponse: the process hangs and is terminated if that is possible. */
    method GiveUp(stillRunning: bool)
      modifies Repr()
      ensures State() == Hung(old(State()), stillRunning)
    {
      Error(SC2ProtocolTimeout);
      appState := Timeout;
      if stillRunning {
        appState := TimeoutZombie;
      }
      Error(SC2AppFailure);
    }

    method WaitForResponse(env: WaitEnv) returns (response: Option<Response>)
      modifies Repr()
      ensures (State(), response) == Waited(old(State()), env)
    {
      ghost var c := State();
      response := proto.WaitForResponseInternal(env.first, c);
      if response.Some? {
        if response.value.errorCount > 0 {
          Error(SC2ProtocolError);
        }
        return;
      }
      if !env.running {
        appState := Crashed;
        Error(SC2AppFailure);
        return;
      }
      var answered := PingAfterTimeout(env);
      if !answered {
        GiveUp(env.stillRunning);
      }
    }

    /** Step 2 of the recovery: true if the game still answers a ping. */
    method PingAfterTimeout(env: WaitEnv) returns (answered: bool)
      modifies Repr()
      ensures (State(), answered) == Pinged(old(State()), env)
    {
      var sent := proto.SendRequest(Ping, true, env.reconnect, State());
      if !sent {
        return false;
      }
      answered := AwaitPing(env.ping);
    }

    method AwaitPing(env: Recv) returns (answered: bool)
      modifies Repr()
      ensures (State(), answered) == PingAwaited(old(State()), env)
    {
      var reply := proto.WaitForResponseInternal(env, State());
      if reply.None? {
        return false;
      }
      if proto.latestStatus == Unknown {
        Error(SC2UnknownStatus);
      }
      Error(SC2UnknownStatus);
      answered := true;
    }

    /** A request and the wait for its answer. */
    method MakeCall(call: Call) returns (response: Option<Response>)
      modifies Repr()
      ensures (State(), response) == Called(old(State()), call)
    {
      var sent := SendRequest(call.kind, call.reconnect);
      if !sent {
        return None;
      }
      response := WaitForResponse(call.wait);
    }

    /** The paired calls of a callback. */
    method MakeCalls(calls: seq<Call>)
      modifies Repr()
      ensures State() == CalledAll(old(State()), calls)
    {
      ghost var c := State();
      for i := 0 to |calls|
        invariant State() == CalledAll(c, calls[..i])
      {
        assert calls[..i + 1][..i] == calls[..i];
        var _ := MakeCall(calls[i]);
      }
      assert calls[..|calls|] == calls;
    }

    method GetObservation(reconnect: bool, wait: WaitEnv) returns (fetch: Fetch)
      modifies Repr()
      ensures (State(), fetch) == GotObservation(old(State()), reconnect, wait)
    {
      if appState != Normal {
        return Failed;
      }
      var sent := SendRequest(Observation, reconnect);
      if !sent {
        return Failed;
      }
      var response := WaitForResponse(wait);
      if response.None? {
        return ReadMissing;
      }
      var r := response.value;
      if r.kind != Observation || r.errorCount > 0 || !r.complete {
        return Failed;
      }
      fetch := Observed;
    }

    method Step(reconnect: bool) returns (ok: bool)
      modifies Repr()
      ensures (State(), ok) == StepSent(old(State()), reconnect)
    {
      if appState != Normal {
        return false;
      }
      ok := SendRequest(StepGame, reconnect);
    }

    method WaitStep(env: StepEnv) returns (fetch: Fetch)
      modifies Repr()
      ensures (State(), fetch) == StepAwaited(old(State()), env)
    {
      var response := WaitForResponse(env.wait);
      if response.None? || response.value.kind != StepGame || response.value.errorCount > 0 {
        return Failed;
      }
      fetch := GetObservation(env.obsReconnect, env.obsWait);
    }

    method RequestLeaveGame(reconnect: bool)
      modifies Repr()
      ensures State() == RequestedLeave(old(State()), reconnect)
    {
      if isMultiplayer {
        var _ := SendRequest(LeaveGame, reconnect);
      }
    }

    method PollLeaveGame(wait: WaitEnv) returns (leaving: bool)
      modifies Repr()
      ensures (State(), leaving) == PolledLeave(old(State()), wait)
    {
      if !isMultiplayer {
        return false;
      }
      if proto.responsePending != LeaveGame {
        if proto.responsePending != NotSet {
          Error(ResponseNotConsumed);
        }
        return !IsInGame(State());
      }
      var announced := proto.connection.PollResponse();
      if !announced {
        return true;
      }
      var _ := WaitForResponse(wait);
      leaving := true;
    }
  }
}
