/** The `SSHReverse` object: its bind range, its bound port, its stop flag
    and its stack of SSH clients, with the operations that change them. The
    transport, the SSH connection and the destination probe are oracles. */
module Tunnel {
  import opened PyBuiltins
  import opened HostPort
  import opened BindPort
  import opened PortBinder

  /** A paramiko `SSHClient`, known here only by identity. */
  datatype SshClient = SshClient(id: nat)

  /** One `_client_extra` record:
      `((server_ip, server_port), status_file, (remote_ip, remote_port))`. */
  datatype ExtraInfo = ExtraInfo(server: Endpoint, statusFile: string, remote: Endpoint)

  /** How `create` ends: forwarding from the bound port, or the exception it
      raises (from `_parse_options`, `_connect_to_server`,
      `_test_remote_connectable` or `_try_bind_server_port`). */
  datatype CreateOutcome =
    | Created(port: int)
    | OptionsFailed(error: PyError)
    | ConnectFailed
    | DestinationUnreachable
    | BindFailed(outcome: BindOutcome)

  class SshReverse {
    var server: string
    var remote: string
    var bindMin: PyVal
    var bindMax: PyVal
    var bindTry: PyVal
    var bindNow: Option<int>
    var username: Option<string>
    var password: Option<string>
    var keyFile: Option<string>
    var stop: bool
    var clientList: seq<SshClient>
    var clientCurr: int
    var clientExtraList: seq<ExtraInfo>
    /** The clients whose `close()` this object has called, in order. */
    ghost var closed: seq<SshClient>

    /** `_client_curr` always indexes the top of `_client_list`. */
    ghost predicate Valid()
      reads this
    {
      clientCurr == |clientList| - 1
    }

    /** `__init__`: both endpoints must be non-empty (its `assert`s), and
        `bind_port` is normalised into the three range fields. */
    constructor (server: string, bindPort: PyVal, remote: string,
                 username: Option<string>, password: Option<string>, keyFile: Option<string>)
      requires server != [] && remote != []
      requires InitBindPort(bindPort).Ok?
      ensures Valid()
      ensures this.server == server && this.remote == remote
      ensures BindFields(bindMin, bindMax, bindTry) == InitBindPort(bindPort).value
      ensures bindNow == None && !stop
      ensures clientList == [] && clientExtraList == [] && closed == []
      ensures this.username == username && this.password == password && this.keyFile == keyFile
    {
      var fields := InitBindPort(bindPort).value;
      this.server := server;
      this.remote := remote;
      bindMin := fields.min;
      bindMax := fields.max;
      bindTry := fields.tryPort;
      bindNow := None;
      this.username := username;
      this.password := password;
      this.keyFile := keyFile;
      stop := false;
      clientList := [];
      clientCurr := -1;
      clientExtraList := [];
      closed := [];
    }

    /** `set_bind_port`: on success all three range fields hold the same
        integer port; on the exception nothing changes. */
    method SetBindPort(port: PyVal) returns (raised: Option<PyError>)
      modifies this`bindMin, this`bindMax, this`bindTry
      ensures match SetBindPortValue(port)
              case Ok(p) => raised == None && bindMin == bindMax == bindTry == PyInt(p)
              case Err(e) => raised == Some(e) && unchanged(this)
    {
      var value := SetBindPortValue(port);
      match value
      case Ok(p) =>
        bindMin, bindMax, bindTry := PyInt(p), PyInt(p), PyInt(p);
        raised := None;
      case Err(e) =>
        raised := Some(e);
    }

    /** The `client` property: the top of the stack, `None` when it is
        empty. */
    function Client(): (c: Option<SshClient>)
      reads this
      requires Valid()
      ensures c.None? <==> clientList == []
      ensures c.Some? ==> c.value == clientList[|clientList| - 1]
    {
      if clientCurr == -1 then None else Some(clientList[clientCurr])
    }

    /** `client_count`: the number of clients on the stack. */
    function ClientCount(): (n: nat)
      reads this
      requires Valid()
      ensures n == clientCurr + 1
      ensures n == 0 <==> Client().None?
    {
      |clientList|
    }

    /** The `client_extra` property: the record at the current client's
        position, or `IndexError` when fewer records than clients were
        added (the two lists are not kept in step). */
    function ClientExtra(): (r: Result<Option<ExtraInfo>>)
      reads this
      requires Valid()
      ensures clientList == [] ==> r == Ok(None)
      ensures clientList != [] ==> (r.Ok? <==> |clientList| <= |clientExtraList|)
      ensures r.Err? ==> r.error == IndexError
      ensures r.Ok? && r.value.Some? ==> r.value.value == clientExtraList[|clientList| - 1]
    {
      if clientCurr == -1 then Ok(None)
      else if clientCurr < |clientExtraList| then Ok(Some(clientExtraList[clientCurr]))
      else Err(IndexError)
    }

    /** The `status_file` property: the status file of the current client's
        record, failing as `client_extra` does. */
    function StatusFile(): (r: Result<Option<string>>)
      reads this
      requires Valid()
      ensures r.Err? <==> ClientExtra().Err?
      ensures r.Ok? ==> (r.value.Some? <==> ClientExtra().value.Some?)
      ensures r.Ok? && r.value.Some? ==> r.value.value == ClientExtra().value.value.statusFile
    {
      if clientCurr == -1 then Ok(None)
      else if clientCurr < |clientExtraList| then Ok(Some(clientExtraList[clientCurr].statusFile))
      else Err(IndexError)
    }

    /** The `client` setter: push a client, which becomes the current one. */
    method SetClient(value: SshClient)
      requires Valid()
      modifies this`clientList, this`clientCurr
      ensures Valid()
      ensures clientList == old(clientList) + [value]
      ensures Client() == Some(value) && ClientCount() == old(ClientCount()) + 1
    {
      clientList := clientList + [value];
      clientCurr := clientCurr + 1;
    }

    /** The `client_extra` setter: append a record; nothing ever removes one. */
    method SetClientExtra(value: ExtraInfo)
      modifies this`clientExtraList
      ensures clientExtraList == old(clientExtraList) + [value]
    {
      clientExtraList := clientExtraList + [value];
    }

    /** `client_remove`: pop the current client and return it, making the one
        below current; on an empty stack return `None` and change nothing. */
    method ClientRemove() returns (c: Option<SshClient>)
      requires Valid()
      modifies this`clientList, this`clientCurr
      ensures Valid()
      ensures c == old(Client())
      ensures old(clientList) == [] ==> clientList == []
      ensures old(clientList) != [] ==> clientList == old(clientList)[..|old(clientList)| - 1]
    {
      if clientCurr == -1 {
        return None;
      }
      clientCurr := clientCurr - 1;
      c := Some(clientList[|clientList| - 1]);
      clientList := clientList[..|clientList| - 1];
    }

    /** `remove`: always set the stop flag; then, if there is a client, pop
        it and close it. */
    method Remove()
      requires Valid()
      modifies this`stop, this`clientList, this`clientCurr, this`closed
      ensures Valid() && stop
      ensures old(clientList) == [] ==> clientList == [] && closed == old(closed)
      ensures old(clientList) != [] ==>
                clientList == old(clientList)[..|old(clientList)| - 1] &&
                closed == old(closed) + [old(clientList)[|old(clientList)| - 1]]
    {
      stop := true;
      if ClientCount() == 0 {
        return;
      }
      var c := ClientRemove();
      closed := closed + [c.value];
    }

    /** The range fields hold integers, as `set_bind_port` or a triple of
        integers leaves them. */
    predicate HasIntRange()
      reads this
    {
      bindMin.PyInt? && bindMax.PyInt? && bindTry.PyInt?
    }

    function Range(): PortRange
      reads this
      requires HasIntRange()
    {
      PortRange(bindMin.i, bindMax.i, bindTry.i)
    }

    /** `_try_bind_server_port`: request ports in probe order until the
        transport accepts one, which becomes `bind_port_now`; a refusal moves
        to the next candidate, any other error ends the loop at once, and
        coming back to the preferred port raises "already used". */
    method TryBindServerPort(transport: int -> BindReply) returns (outcome: BindOutcome, ghost requested: seq<int>)
      requires HasIntRange() && Halts(Range(), transport)
      modifies this`bindNow
      ensures IsRun(Range(), transport, BindRun(outcome, requested))
      ensures bindNow == if outcome.Bound? then Some(outcome.port) else old(bindNow)
    {
      ghost var r := Range();
      var portTry := bindTry.i;
      requested := [];
      ghost var last: nat :| StopsAt(r, transport, last);
      while true
        invariant |requested| <= last
        invariant portTry == Candidate(r, |requested|)
        invariant RefusedPrefix(r, transport, requested)
        invariant bindNow == old(bindNow)
        decreases last - |requested|
      {
        var reply := transport(portTry);
        ghost var stops := StopsAt(r, transport, |requested|);
        match reply
        case Accept =>
          FinishRun(r, transport, requested);
          bindNow := Some(portTry);
          return Bound(portTry), requested + [portTry];
        case OtherError =>
          FinishRun(r, transport, requested);
          return Failed(portTry), requested + [portTry];
        case Reject =>
          if portTry < bindMax.i {
            portTry := portTry + 1;
          }
          if portTry == bindMax.i {
            portTry := bindMin.i;
          }
          assert portTry == Candidate(r, |requested| + 1);
          if portTry == bindTry.i {
            FinishRun(r, transport, requested);
            return Exhausted, requested + [Candidate(r, |requested|)];
          }
          ExtendPrefix(r, transport, requested);
          requested := requested + [Candidate(r, |requested|)];
      }
    }

    /** The deterministic steps of `create`, in order: parse both endpoints,
        push a new client, connect it to the server, check that the
        destination accepts a connection, bind a remote port, and clear the
        stop flag before the forwarding thread starts. The client is pushed
        before connecting, so a failed connection or destination check
        leaves it on the stack; neither failure requests any port. The range
        fields are first read by the bind, so only a call that gets that far
        needs them to be integers and the loop to return. */
    method Create(newClient: SshClient, connect: Endpoint -> bool, reachable: Endpoint -> bool,
                  transport: int -> BindReply)
      returns (res: CreateOutcome, ghost run: Option<BindRun>)
      requires Valid()
      requires var opts := ParseOptions(server, remote);
               opts.Ok? && connect(opts.value.0) && reachable(opts.value.1) ==>
                 HasIntRange() && Halts(Range(), transport)
      modifies this`clientList, this`clientCurr, this`bindNow, this`stop
      ensures Valid()
      ensures ParseOptions(server, remote).Err? ==>
                && res == OptionsFailed(ParseOptions(server, remote).error)
                && clientList == old(clientList)
      ensures ParseOptions(server, remote).Ok? ==> clientList == old(clientList) + [newClient]
      ensures run.None? ==> bindNow == old(bindNow) && stop == old(stop)
      ensures ParseOptions(server, remote).Ok? ==>
                var (src, dst) := ParseOptions(server, remote).value;
                && (!connect(src) ==> res == ConnectFailed && run.None?)
                && (connect(src) && !reachable(dst) ==> res == DestinationUnreachable && run.None?)
                && (connect(src) && reachable(dst) ==> run.Some? && IsRun(Range(), transport, run.value))
      ensures run.Some? ==>
                match run.value.outcome
                case Bound(p) => res == Created(p) && bindNow == Some(p) && !stop
                case _ => res == BindFailed(run.value.outcome) && bindNow == old(bindNow) && stop == old(stop)
    {
      run := None;
      var opts := ParseOptions(server, remote);
      if opts.Err? {
        return OptionsFailed(opts.error), run;
      }
      var (src, dst) := opts.value;
      SetClient(newClient);
      if !connect(src) {
        return ConnectFailed, run;
      }
      if !reachable(dst) {
        return DestinationUnreachable, run;
      }
      var outcome;
      ghost var requested;
      outcome, requested := TryBindServerPort(transport);
      run := Some(BindRun(outcome, requested));
      if !outcome.Bound? {
        return BindFailed(outcome), run;
      }
      stop := false;
      res := Created(outcome.port);
    }
  }

  /** A connection that fails leaves the new client on the stack and
      requests no port, even when the range fields still hold `None`. */
  method CreateFailsBeforeBind(t: SshReverse, c: SshClient) returns (res: CreateOutcome, ghost run: Option<BindRun>)
    requires t.Valid() && t.bindMin == t.bindMax == t.bindTry == PyNone
    requires ':' !in t.server && ':' !in t.remote
    modifies t
    ensures res == ConnectFailed && run.None?
    ensures t.clientList == old(t.clientList) + [c] && t.bindNow == old(t.bindNow)
  {
    ParseOptionsDefaults(t.server, t.remote);
    res, run := t.Create(c, e => false, e => true, p => Reject);
  }

  /** The client stack is last in, first out: pushing a client and removing
      one gives back that client and leaves the stack as it was. */
  method PushThenRemove(t: SshReverse, c: SshClient) returns (popped: Option<SshClient>)
    requires t.Valid()
    modifies t
    ensures t.Valid() && popped == Some(c)
    ensures t.clientList == old(t.clientList) && t.Client() == old(t.Client())
  {
    t.SetClient(c);
    popped := t.ClientRemove();
  }
}
