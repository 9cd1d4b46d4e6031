/**
 * The client connection context of polyp/polyplib-context.c: its state
 * machine, reference count, request tags, collaborators (connector,
 * packet transport, reply dispatcher), linked streams and operations,
 * the authentication handshake and the drain protocol.
 *
 * Foreign collaborators are reduced to what the context sees of them:
 * presence, pending flags and drain-callback slots. Everything the context
 * makes visible to the outside (callbacks into user code, teardown of
 * collaborators, streams and operations leaving their lists) is appended
 * to the event log `trace`, in the order the code performs it.
 */
module Context {
  import opened Protocol

  /** The packet transport (pstream): whether it has unsent data, and whose drain callback it holds. */
  datatype Transport = Transport(pending: bool, drainOp: Option<nat>)

  /** The reply dispatcher (pdispatch): whether replies are outstanding, and whose drain callback it holds. */
  datatype Dispatcher = Dispatcher(pending: bool, drainOp: Option<nat>)

  /** A stream linked into the context. */
  datatype Stream = Stream(id: nat, state: StreamState)

  /** An occupied slot of the record-stream table: the stream and whether it set a read callback. */
  datatype RecordSlot = RecordSlot(stream: nat, hasReadCallback: bool)

  /** What an operation waits for; it decides the shape of its completion callback. */
  datatype OperationKind = AckKind | DrainKind

  /** An operation linked into the context: one outstanding request or drain. */
  datatype Operation = Operation(id: nat, kind: OperationKind, hasCallback: bool)

  /** How an operation leaves the context's list. */
  datatype OperationEnd = Done | Cancelled

  datatype MessageBody = NoBody | Cookie(bytes: seq<bv8>) | Name(name: string)

  /** A request as sent on the transport: command, tag and payload shape. */
  datatype Message = Message(command: Command, tag: U32, body: MessageBody)

  /** What the state observer can see of the context when it is called. */
  datatype View = View(
    state: ContextState,
    error: ErrorCode,
    hasClient: bool,
    hasPstream: bool,
    hasPdispatch: bool,
    linkedStreams: nat)

  datatype Event =
    | StreamEnded(stream: nat, final: StreamState)
    | OperationEnded(op: nat, end: OperationEnd)
    | DispatcherReleased
    | TransportClosed
    | ConnectorReleased
    | StateObserved(view: View)
    | AckCalled(op: nat, success: bool)
    | DrainCalled(op: nat)
    | ChunkRead(stream: nat, length: nat)

  /** The events of driving each stream of `ss`, head first, into `final`. */
  function EndStreams(ss: seq<Stream>, final: StreamState): seq<Event> {
    if ss == [] then [] else EndStreams(ss[..|ss| - 1], final) + [StreamEnded(ss[|ss| - 1].id, final)]
  }

  /** Every stream ends exactly once, in list order, in the given final state. */
  lemma {:induction false} EndStreamsCovers(ss: seq<Stream>, final: StreamState)
    ensures |EndStreams(ss, final)| == |ss|
    ensures forall k :: 0 <= k < |ss| ==> EndStreams(ss, final)[k] == StreamEnded(ss[k].id, final)
  {
    if ss != [] {
      EndStreamsCovers(ss[..|ss| - 1], final);
    }
  }

  /** The events of cancelling each operation of `os`, head first. */
  function CancelOperations(os: seq<Operation>): seq<Event> {
    if os == [] then [] else CancelOperations(os[..|os| - 1]) + [OperationEnded(os[|os| - 1].id, Cancelled)]
  }

  /** Every operation is cancelled exactly once, in list order, and none completes. */
  lemma {:induction false} CancelOperationsCovers(os: seq<Operation>)
    ensures |CancelOperations(os)| == |os|
    ensures forall k :: 0 <= k < |os| ==> CancelOperations(os)[k] == OperationEnded(os[k].id, Cancelled)
  {
    if os != [] {
      CancelOperationsCovers(os[..|os| - 1]);
    }
  }

  lemma EndStreamsSnoc(ss: seq<Stream>, s: Stream, final: StreamState)
    ensures EndStreams(ss + [s], final) == EndStreams(ss, final) + [StreamEnded(s.id, final)]
  {
    assert (ss + [s])[..|ss|] == ss;
  }

  lemma CancelOperationsSnoc(os: seq<Operation>, o: Operation)
    ensures CancelOperations(os + [o]) == CancelOperations(os) + [OperationEnded(o.id, Cancelled)]
  {
    assert (os + [o])[..|os|] == os;
  }

  lemma AppendAssoc<T>(a: seq<T>, b: seq<T>, c: seq<T>, d: seq<T>)
    ensures a + b + c + d == a + (b + c + d)
  {
  }

  /** Collaborator release events of a terminal state change: dispatcher, transport, connector. */
  function Releases(dispatcher: bool, transport: bool, connector: bool): seq<Event> {
    (if dispatcher then [DispatcherReleased] else []) +
    (if transport then [TransportClosed] else []) +
    (if connector then [ConnectorReleased] else [])
  }

  /** Collaborator release events of the final release: connector, dispatcher, transport. */
  function FreeReleases(connector: bool, dispatcher: bool, transport: bool): seq<Event> {
    (if connector then [ConnectorReleased] else []) +
    (if dispatcher then [DispatcherReleased] else []) +
    (if transport then [TransportClosed] else [])
  }

  class Context {
    var ref: nat
    const name: string
    var state: ContextState
    var error: ErrorCode
    var ctag: U32
    var cookie: seq<bv8>
    var client: Option<Target>
    var pstream: Option<Transport>
    var pdispatch: Option<Dispatcher>
    var hasStateCallback: bool
    var streams: seq<Stream>
    var recordStreams: map<U32, RecordSlot>
    var operations: seq<Operation>
    var nextOperation: nat
    /** Every request sent on the transport, oldest first. */
    var sent: seq<Message>
    /** Every tag registered with the reply dispatcher, oldest first. */
    var registered: seq<U32>
    /** For each registered tag, the index in `sent` of the request whose reply it awaits. */
    var awaited: seq<nat>
    var trace: seq<Event>

    /** Request n carries tag n modulo 2^32, and ctag is the tag of the next request. */
    ghost predicate TagsConsistent()
      reads this`ctag, this`sent
    {
      && ctag == TagAt(|sent|)
      && forall i :: 0 <= i < |sent| ==> sent[i].tag == TagAt(i)
    }

    /**
     * Every registered tag belongs to a request that was sent, registrations
     * follow the order of the requests, and no request is registered twice.
     */
    ghost predicate RepliesConsistent()
      reads this`sent, this`registered, this`awaited
    {
      && |awaited| == |registered|
      && (forall k :: 0 <= k < |awaited| ==>
            && awaited[k] < |sent|
            && registered[k] == sent[awaited[k]].tag
            && (k > 0 ==> awaited[k - 1] < awaited[k]))
    }

    /**
     * The request log: tags follow the request count and registrations
     * follow the requests. It reads only the log fields, so every method
     * whose frame leaves them alone preserves it without saying so.
     */
    ghost predicate LogsConsistent()
      reads this`ctag, this`sent, this`registered, this`awaited
    {
      TagsConsistent() && RepliesConsistent()
    }

    /** Invariants that hold between any two steps, even inside a transition. */
    ghost predicate Wellformed()
      reads this
    {
      && ref >= 1
      && (pstream.Some? <==> pdispatch.Some?)
      && (IsTerminal(state) ==> client.None? && pstream.None?)
      && (forall i :: 0 <= i < |streams| ==> !IsStreamTerminal(streams[i].state))
    }

    /** The collaborators present are exactly those state `s` has. */
    ghost predicate PhaseOk(s: ContextState)
      reads this
    {
      && (client.Some? <==> s == Connecting)
      && (pstream.Some? <==> IsWired(s))
    }

    ghost predicate Valid()
      reads this
    {
      Wellformed() && PhaseOk(state)
    }

    function Snapshot(): View
      reads this
    {
      View(state, error, client.Some?, pstream.Some?, pdispatch.Some?, |streams|)
    }

    /** The observer call a state change makes, if an observer is set. */
    function Observation(): seq<Event>
      reads this
    {
      if hasStateCallback then [StateObserved(Snapshot())] else []
    }

    /** State, streams and collaborators are as they were. */
    twostate predicate Still()
      reads this
    {
      && state == old(state)
      && streams == old(streams)
      && client == old(client)
      && pstream == old(pstream)
      && pdispatch == old(pdispatch)
    }

    /** Requests, tags and registrations are as they were. */
    twostate predicate Quiet()
      reads this
    {
      sent == old(sent) && ctag == old(ctag) && registered == old(registered) && awaited == old(awaited)
    }

    /** State, streams and collaborators after `pa_context_set_state(st)`. */
    twostate predicate Moved(st: ContextState)
      reads this
    {
      if old(state) == st then Still()
      else if IsTerminal(st) then
        && state == st
        && streams == []
        && client.None? && pstream.None? && pdispatch.None?
      else
        && state == st
        && streams == old(streams)
        && client == old(client) && pstream == old(pstream) && pdispatch == old(pdispatch)
    }

    /** The events of `pa_context_set_state(st)`: none when st is the current state. */
    twostate function TransitionEvents(st: ContextState): seq<Event>
      reads this
    {
      if old(state) == st then []
      else if IsTerminal(st) then
        EndStreams(old(streams), StreamFinal(st)) +
        Releases(old(pdispatch).Some?, old(pstream).Some?, old(client).Some?) +
        Observation()
      else Observation()
    }

    twostate predicate Entered(st: ContextState)
      reads this
    {
      Moved(st) && trace == old(trace) + TransitionEvents(st)
    }

    /** pa_context_new: one reference, unconnected, no error, tag 0, nothing attached. */
    constructor (name: string)
      ensures Valid() && LogsConsistent()
      ensures this.name == name && ref == 1
      ensures state == Unconnected && error == ErrOk && ctag == 0
      ensures client.None? && pstream.None? && pdispatch.None? && !hasStateCallback
      ensures streams == [] && recordStreams == map[] && operations == [] && nextOperation == 0
      ensures sent == [] && registered == [] && awaited == [] && trace == []
    {
      ref := 1;
      this.name := name;
      state := Unconnected;
      error := ErrOk;
      ctag := 0;
      cookie := [];
      client := None;
      pstream := None;
      pdispatch := None;
      hasStateCallback := false;
      streams := [];
      recordStreams := map[];
      operations := [];
      nextOperation := 0;
      sent := [];
      registered := [];
      awaited := [];
      trace := [];
    }

    method Ref()
      requires Valid()
      modifies this`ref
      ensures Valid() && ref == old(ref) + 1
    {
      ref := ref + 1;
    }

    /** Drops a reference; the last one releases the context. */
    method Unref()
      requires Valid()
      modifies this`ref, this`operations, this`streams, this`client, this`pstream, this`pdispatch, this`trace
      ensures ref == old(ref) - 1
      ensures ref > 0 ==>
        && Valid()
        && operations == old(operations) && streams == old(streams)
        && client == old(client) && pstream == old(pstream) && pdispatch == old(pdispatch)
        && trace == old(trace)
      ensures ref == 0 ==>
        && operations == [] && streams == []
        && client.None? && pstream.None? && pdispatch.None?
        && trace == old(trace) + CancelOperations(old(operations)) +
             EndStreams(old(streams), StreamTerminated) +
             FreeReleases(old(client).Some?, old(pdispatch).Some?, old(pstream).Some?)
    {
      ref := ref - 1;
      if ref == 0 {
        ContextFree();
      }
    }

    /**
     * Final release: cancel every operation, then terminate every stream,
     * then release connector, dispatcher and transport. Each loop ends
     * because cancelling or terminating the head unlinks it.
     */
    method ContextFree()
      modifies this`operations, this`streams, this`client, this`pstream, this`pdispatch, this`trace
      ensures operations == [] && streams == []
      ensures client.None? && pstream.None? && pdispatch.None?
      ensures trace == old(trace) + CancelOperations(old(operations)) +
        EndStreams(old(streams), StreamTerminated) +
        FreeReleases(old(client).Some?, old(pdispatch).Some?, old(pstream).Some?)
    {
      CancelAll();
      EndAllStreams(StreamTerminated);
      trace := trace + FreeReleases(client.Some?, pdispatch.Some?, pstream.Some?);
      client, pdispatch, pstream := None, None, None;
    }

    /** The loop at the head of the final release: cancel operations until none is linked. */
    method CancelAll()
      modifies this`operations, this`trace
      ensures operations == []
      ensures trace == old(trace) + CancelOperations(old(operations))
    {
      ghost var os := operations;
      ghost var k := 0;
      while operations != []
        invariant k <= |os| && operations == os[k..]
        invariant trace == old(trace) + CancelOperations(os[..k])
        decreases |operations|
      {
        ghost var done := os[..k];
        OperationFinish(0, Cancelled);
        assert operations == os[k + 1..];
        CancelOperationsSnoc(done, os[k]);
        assert done + [os[k]] == os[..k + 1];
        k := k + 1;
      }
      assert os[..k] == os;
    }

    /** Drive the head stream terminal until none is linked. */
    method EndAllStreams(final: StreamState)
      requires IsStreamTerminal(final)
      modifies this`streams, this`trace
      ensures streams == []
      ensures trace == old(trace) + EndStreams(old(streams), final)
    {
      ghost var ss := streams;
      ghost var k := 0;
      while streams != []
        invariant k <= |ss| && streams == ss[k..]
        invariant trace == old(trace) + EndStreams(ss[..k], final)
        decreases |streams|
      {
        ghost var done := ss[..k];
        StreamSetTerminal(0, final);
        assert streams == ss[k + 1..];
        EndStreamsSnoc(done, ss[k], final);
        assert done + [ss[k]] == ss[..k + 1];
        k := k + 1;
      }
      assert ss[..k] == ss;
    }

    /** pa_operation_cancel / pa_operation_done: the operation leaves the list. */
    method OperationFinish(i: nat, end: OperationEnd)
      requires i < |operations|
      modifies this`operations, this`trace
      ensures operations == old(operations[..i] + operations[i + 1..])
      ensures trace == old(trace) + [OperationEnded(old(operations[i].id), end)]
    {
      trace := trace + [OperationEnded(operations[i].id, end)];
      operations := operations[..i] + operations[i + 1..];
    }

    /** pa_stream_set_state to a terminal state: the stream leaves the list. */
    method StreamSetTerminal(i: nat, final: StreamState)
      requires i < |streams| && IsStreamTerminal(final)
      modifies this`streams, this`trace
      ensures streams == old(streams[..i] + streams[i + 1..])
      ensures trace == old(trace) + [StreamEnded(old(streams[i].id), final)]
    {
      trace := trace + [StreamEnded(streams[i].id, final)];
      streams := streams[..i] + streams[i + 1..];
    }

    /**
     * pa_context_set_state. Setting the current state does nothing. A
     * terminal state first drives every stream terminal, then releases
     * dispatcher, transport and connector, commits the state, and only then
     * calls the observer; any other state changes only the state.
     */
    method SetState(st: ContextState)
      requires Wellformed()
      requires IsTerminal(st) || PhaseOk(st)
      modifies this`state, this`streams, this`client, this`pstream, this`pdispatch, this`trace
      ensures Valid()
      ensures Entered(st)
    {
      if state == st {
        return;
      }
      if IsTerminal(st) {
        ghost var before := trace;
        TearDown(StreamFinal(st));
        Commit(st);
        AppendAssoc(before, EndStreams(old(streams), StreamFinal(st)),
          Releases(old(pdispatch).Some?, old(pstream).Some?, old(client).Some?), Observation());
      } else {
        Commit(st);
      }
    }

    /** The common tail of pa_context_set_state: store the new state, then call the observer. */
    method Commit(st: ContextState)
      requires Wellformed() && PhaseOk(st)
      requires IsTerminal(st) ==> streams == []
      modifies this`state, this`trace
      ensures Valid() && state == st
      ensures trace == old(trace) + Observation()
    {
      state := st;
      trace := trace + Observation();
    }

    /**
     * The terminal half of pa_context_set_state: every stream is driven into
     * `final`, then the dispatcher, the transport and the connector are
     * released, each only if present.
     */
    method TearDown(final: StreamState)
      requires IsStreamTerminal(final)
      modifies this`streams, this`client, this`pstream, this`pdispatch, this`trace
      ensures streams == [] && client.None? && pstream.None? && pdispatch.None?
      ensures trace == old(trace) + EndStreams(old(streams), final) +
        Releases(old(pdispatch).Some?, old(pstream).Some?, old(client).Some?)
    {
      EndAllStreams(final);
      trace := trace + Releases(pdispatch.Some?, pstream.Some?, client.Some?);
      pdispatch, pstream, client := None, None, None;
    }

    /** pa_context_fail: record the error, then enter FAILED. */
    method Fail(e: ErrorCode)
      requires Wellformed()
      modifies this`error, this`state, this`streams, this`client, this`pstream, this`pdispatch, this`trace
      ensures Valid()
      ensures error == e && Entered(Failed)
    {
      error := e;
      SetState(Failed);
    }

    /** pa_context_disconnect: enter TERMINATED; a second call does nothing. */
    method Disconnect()
      requires Valid()
      modifies this`state, this`streams, this`client, this`pstream, this`pdispatch, this`trace
      ensures Valid()
      ensures Entered(Terminated)
    {
      SetState(Terminated);
    }

    function GetState(): (s: ContextState)
      reads this
      requires ref >= 1
      ensures s == state
    {
      state
    }

    function Errno(): (e: ErrorCode)
      reads this
      requires ref >= 1
      ensures e == error
    {
      error
    }

    method SetStateCallback(present: bool)
      requires Valid()
      modifies this`hasStateCallback
      ensures Valid() && hasStateCallback == present
    {
      hasStateCallback := present;
    }

    /** Puts a request on the transport with the next tag (`tag = ctag++`). */
    method SendRequest(command: Command, body: MessageBody) returns (tag: U32)
      requires pstream.Some? && LogsConsistent()
      modifies this`sent, this`ctag, this`pstream
      ensures LogsConsistent()
      ensures tag == old(ctag) && ctag == NextTag(old(ctag))
      ensures sent == old(sent) + [Message(command, tag, body)]
      ensures pstream == Some(old(pstream).value.(pending := true))
    {
      tag := ctag;
      TagAtSucc(|sent|);
      ctag := NextTag(ctag);
      sent := sent + [Message(command, tag, body)];
      pstream := Some(pstream.value.(pending := true));
    }

    /** Registers a reply handler with the dispatcher for `tag`, the tag of the request just sent. */
    method RegisterReply(tag: U32)
      requires pdispatch.Some? && LogsConsistent() && |sent| > 0 && tag == sent[|sent| - 1].tag
      requires forall k :: 0 <= k < |awaited| ==> awaited[k] < |sent| - 1
      modifies this`registered, this`awaited, this`pdispatch
      ensures LogsConsistent()
      ensures registered == old(registered) + [tag]
      ensures awaited == old(awaited) + [|sent| - 1]
      ensures pdispatch == Some(old(pdispatch).value.(pending := true))
    {
      registered := registered + [tag];
      awaited := awaited + [|sent| - 1];
      pdispatch := Some(pdispatch.value.(pending := true));
    }

    /** Sends a request with the next tag and registers a reply handler for that tag. */
    method SendWithReply(command: Command, body: MessageBody) returns (tag: U32)
      requires pstream.Some? && pdispatch.Some? && LogsConsistent()
      modifies this`sent, this`ctag, this`registered, this`awaited, this`pstream, this`pdispatch
      ensures LogsConsistent()
      ensures tag == old(ctag) && ctag == NextTag(old(ctag))
      ensures sent == old(sent) + [Message(command, tag, body)]
      ensures registered == old(registered) + [tag] && awaited == old(awaited) + [|old(sent)|]
      ensures pstream == Some(old(pstream).value.(pending := true))
      ensures pdispatch == Some(old(pdispatch).value.(pending := true))
    {
      tag := SendRequest(command, body);
      RegisterReply(tag);
    }

    /** The transport died: fail with CONNECTIONTERMINATED. */
    method TransportDied()
      requires Valid() && pstream.Some?
      modifies this`error, this`state, this`streams, this`client, this`pstream, this`pdispatch, this`trace
      ensures Valid()
      ensures error == ErrConnectionTerminated && Entered(Failed)
    {
      Fail(ErrConnectionTerminated);
    }

    /**
     * A packet arrived; `dispatched` is the dispatcher's verdict. The handler
     * the dispatcher runs for an accepted packet is a separate step
     * (SetupComplete, SimpleAck). A rejected packet fails with PROTOCOL.
     */
    method PacketReceived(dispatched: bool)
      requires Valid() && pstream.Some?
      modifies this`error, this`state, this`streams, this`client, this`pstream, this`pdispatch, this`trace
      ensures Valid()
      ensures dispatched ==> error == old(error) && Still() && trace == old(trace)
      ensures !dispatched ==> error == ErrProtocol && Entered(Failed)
    {
      if !dispatched {
        Fail(ErrProtocol);
      }
    }

    /**
     * A memory chunk arrived on `channel`: only a record stream registered
     * at that channel, with a read callback, receives it.
     */
    method MemblockReceived(channel: U32, length: nat)
      requires Valid() && pstream.Some?
      modifies this`trace
      ensures channel in recordStreams && recordStreams[channel].hasReadCallback ==>
        trace == old(trace) + [ChunkRead(recordStreams[channel].stream, length)]
      ensures !(channel in recordStreams && recordStreams[channel].hasReadCallback) ==>
        trace == old(trace)
    {
      if channel in recordStreams {
        var slot := recordStreams[channel];
        if slot.hasReadCallback {
          trace := trace + [ChunkRead(slot.stream, length)];
        }
      }
    }

    /** pa_context_handle_error: translate a non-success reply (0 recorded, -1 context failed). */
    method HandleError(command: Command, p: Payload) returns (r: int)
      requires Valid()
      modifies this`error, this`state, this`streams, this`client, this`pstream, this`pdispatch, this`trace
      ensures Valid()
      ensures TranslateError(command, p).Recorded? ==>
        r == 0 && error == TranslateError(command, p).error && Still() && trace == old(trace)
      ensures TranslateError(command, p).Fatal? ==>
        r == -1 && error == ErrProtocol && Entered(Failed)
    {
      if command == CmdError {
        var code := GetU32(p);
        if code.None? {
          Fail(ErrProtocol);
          return -1;
        }
        error := ErrRemote(code.value);
      } else if command == CmdTimeout {
        error := ErrTimeout;
      } else {
        Fail(ErrProtocol);
        return -1;
      }
      return 0;
    }

    /**
     * pa_context_connect. Loads the auth cookie (failing with AUTHKEY),
     * picks the server (argument, environment, default), aims a connector
     * at a socket path or at the resolved host and port (failing with
     * INVALIDSERVER or CONNECTIONREFUSED), and enters CONNECTING.
     */
    method Connect(server: Option<string>, env: ConnectEnv) returns (r: int)
      requires Valid() && state == Unconnected
      modifies this`cookie, this`error, this`state, this`streams, this`client, this`pstream, this`pdispatch, this`trace
      ensures Valid()
      ensures r == 0 <==> PlanConnect(server, env).Ok?
      ensures r != 0 ==> r == -1
      ensures env.cookie.Some? ==> cookie == env.cookie.value
      ensures env.cookie.None? ==> cookie == old(cookie)
      ensures PlanConnect(server, env).Ok? ==>
        && state == Connecting && client == Some(PlanConnect(server, env).value)
        && error == old(error) && streams == old(streams)
        && trace == old(trace) + Observation()
      ensures PlanConnect(server, env).Err? ==>
        && error == PlanConnect(server, env).error && Entered(Failed)
    {
      if env.cookie.None? {
        assert PlanConnect(server, env) == Err(ErrAuthKey);
        Fail(ErrAuthKey);
        return -1;
      }
      cookie := env.cookie.value;
      var s := ChooseServer(server, env.envServer);
      if IsUnixPath(s) {
        if !env.connectorCreated {
          assert PlanConnect(server, env) == Err(ErrConnectionRefused);
          Fail(ErrConnectionRefused);
          return -1;
        }
        assert PlanConnect(server, env) == Ok(UnixSocket(s));
        client := Some(UnixSocket(s));
      } else {
        // resolve_server: the whole server string is the host
        if !env.resolves {
          assert PlanConnect(server, env) == Err(ErrInvalidServer);
          Fail(ErrInvalidServer);
          return -1;
        }
        var port := SelectPort(s);
        if !env.connectorCreated {
          assert PlanConnect(server, env) == Err(ErrConnectionRefused);
          Fail(ErrConnectionRefused);
          return -1;
        }
        assert PlanConnect(server, env) == Ok(TcpSocket(s, port));
        client := Some(TcpSocket(s, port));
      }
      SetState(Connecting);
      return 0;
    }

    /**
     * on_connection: the connector reports. It is released either way;
     * without a channel the context fails with CONNECTIONREFUSED, otherwise
     * a transport and a dispatcher are created, AUTH is sent with the next
     * tag, a reply is registered for it, and the context is AUTHORIZING.
     */
    method OnConnection(io: bool)
      requires Valid() && LogsConsistent() && state == Connecting
      modifies this`error, this`state, this`streams, this`client, this`pstream, this`pdispatch, this`trace
      modifies this`sent, this`ctag, this`registered, this`awaited
      ensures Valid() && LogsConsistent() && client.None?
      ensures !io ==>
        && error == ErrConnectionRefused && state == Failed && streams == []
        && pstream.None? && pdispatch.None? && Quiet()
        && trace == old(trace) + [ConnectorReleased] + EndStreams(old(streams), StreamFailed) + Observation()
      ensures io ==>
        && error == old(error) && state == Authorizing && streams == old(streams)
        && sent == old(sent) + [Message(CmdAuth, old(ctag), Cookie(cookie))]
        && ctag == NextTag(old(ctag))
        && registered == old(registered) + [old(ctag)] && awaited == old(awaited) + [|old(sent)|]
        && pstream == Some(Transport(true, None)) && pdispatch == Some(Dispatcher(true, None))
        && trace == old(trace) + [ConnectorReleased] + Observation()
    {
      ReleaseConnector();
      if !io {
        assert Releases(false, false, false) == [];
        Fail(ErrConnectionRefused);
        return;
      }
      StartHandshake();
    }

    /** pa_socket_client_unref on the connector that reported, and clearing `client`. */
    method ReleaseConnector()
      requires client.Some?
      modifies this`client, this`trace
      ensures client.None? && trace == old(trace) + [ConnectorReleased]
    {
      trace := trace + [ConnectorReleased];
      client := None;
    }

    /** The channel half of on_connection: wire transport and dispatcher, send AUTH, await its reply. */
    method StartHandshake()
      requires Wellformed() && LogsConsistent() && state == Connecting && client.None? && pstream.None?
      modifies this`state, this`streams, this`client, this`pstream, this`pdispatch, this`trace
      modifies this`sent, this`ctag, this`registered, this`awaited
      ensures Valid() && LogsConsistent() && state == Authorizing && streams == old(streams) && client.None?
      ensures sent == old(sent) + [Message(CmdAuth, old(ctag), Cookie(cookie))]
      ensures ctag == NextTag(old(ctag))
      ensures registered == old(registered) + [old(ctag)] && awaited == old(awaited) + [|old(sent)|]
      ensures pstream == Some(Transport(true, None)) && pdispatch == Some(Dispatcher(true, None))
      ensures trace == old(trace) + Observation()
    {
      pstream := Some(Transport(false, None));
      pdispatch := Some(Dispatcher(false, None));
      var _ := SendWithReply(CmdAuth, Cookie(cookie));
      SetState(Authorizing);
    }

    /**
     * setup_complete_callback: the reply to AUTH or SET_NAME. A non-REPLY
     * only goes through error translation (a translated error leaves the
     * state as it is). A REPLY while AUTHORIZING sends SET_NAME with the
     * next tag and enters SETTING_NAME; a REPLY while SETTING_NAME enters
     * READY.
     */
    method SetupComplete(command: Command, p: Payload)
      requires Valid() && LogsConsistent() && (state == Authorizing || state == SettingName)
      modifies this`error, this`state, this`streams, this`client, this`pstream, this`pdispatch, this`trace
      modifies this`sent, this`ctag, this`registered, this`awaited
      ensures Valid() && LogsConsistent()
      ensures command != CmdReply && TranslateError(command, p).Recorded? ==>
        error == TranslateError(command, p).error && Still() && trace == old(trace) && Quiet()
      ensures command != CmdReply && TranslateError(command, p).Fatal? ==>
        error == ErrProtocol && Entered(Failed) && Quiet()
      ensures command == CmdReply && old(state) == Authorizing ==>
        && error == old(error) && state == SettingName && streams == old(streams) && client.None?
        && sent == old(sent) + [Message(CmdSetName, old(ctag), Name(name))]
        && ctag == NextTag(old(ctag))
        && registered == old(registered) + [old(ctag)] && awaited == old(awaited) + [|old(sent)|]
        && pstream == Some(old(pstream).value.(pending := true))
        && pdispatch == Some(old(pdispatch).value.(pending := true))
        && trace == old(trace) + Observation()
      ensures command == CmdReply && old(state) == SettingName ==>
        error == old(error) && Entered(Ready) && Quiet()
    {
      if command != CmdReply {
        var r := HandleError(command, p);
        if r < 0 {
          Fail(ErrProtocol);
        }
        return;
      }
      if state == Authorizing {
        var _ := SendWithReply(CmdSetName, Name(name));
        SetState(SettingName);
      } else {
        SetState(Ready);
      }
    }

    /** pa_context_exit_daemon: send EXIT with the next tag; no reply is registered. */
    method ExitDaemon()
      requires Valid() && LogsConsistent() && pstream.Some?
      modifies this`sent, this`ctag, this`pstream
      ensures Valid() && LogsConsistent()
      ensures sent == old(sent) + [Message(CmdExit, old(ctag), NoBody)]
      ensures ctag == NextTag(old(ctag))
      ensures pstream == Some(old(pstream).value.(pending := true))
    {
      var _ := SendRequest(CmdExit, NoBody);
    }

    /**
     * pa_context_send_simple_command: link a new simple-ack operation, send
     * the command with the next tag and register a reply for that tag.
     */
    method SendSimpleCommand(command: Command) returns (op: nat)
      requires Valid() && LogsConsistent() && pstream.Some?
      modifies this`operations, this`nextOperation, this`sent, this`ctag, this`registered, this`awaited, this`pstream, this`pdispatch
      ensures Valid() && LogsConsistent()
      ensures op == old(nextOperation) && nextOperation == op + 1
      ensures operations == old(operations) + [Operation(op, AckKind, true)]
      ensures sent == old(sent) + [Message(command, old(ctag), NoBody)]
      ensures ctag == NextTag(old(ctag))
      ensures registered == old(registered) + [old(ctag)] && awaited == old(awaited) + [|old(sent)|]
      ensures pstream == Some(old(pstream).value.(pending := true))
      ensures pdispatch == Some(old(pdispatch).value.(pending := true))
    {
      op := nextOperation;
      nextOperation := nextOperation + 1;
      operations := operations + [Operation(op, AckKind, true)];
      var _ := SendWithReply(command, NoBody);
    }

    /**
     * pa_context_simple_ack_callback for the operation at index i. A REPLY
     * with nothing after the tag calls back with success; an error that
     * translates calls back with failure; a translation failure or a REPLY
     * with trailing data fails the context and calls nothing. The
     * operation is done in every case.
     */
    method SimpleAck(i: nat, command: Command, p: Payload)
      requires Valid() && i < |operations|
      modifies this`error, this`state, this`streams, this`client, this`pstream, this`pdispatch, this`trace
      modifies this`operations
      ensures Valid()
      ensures operations == old(operations[..i] + operations[i + 1..])
      ensures AckDecision(command, p).AckCallback? ==>
        && error == (if command == CmdReply then old(error) else TranslateError(command, p).error)
        && Still()
        && trace == old(trace) +
             (if old(operations[i].hasCallback)
              then [AckCalled(old(operations[i].id), AckDecision(command, p).success)] else []) +
             [OperationEnded(old(operations[i].id), Done)]
      ensures AckDecision(command, p).AckContextFailed? ==>
        && error == ErrProtocol && Moved(Failed)
        && trace == old(trace) + TransitionEvents(Failed) + [OperationEnded(old(operations[i].id), Done)]
    {
      var o := operations[i];
      var success := true;
      if command != CmdReply {
        var r := HandleError(command, p);
        if r < 0 {
          OperationFinish(i, Done);
          return;
        }
        success := false;
      } else if p != [] {
        Fail(ErrProtocol);
        OperationFinish(i, Done);
        return;
      }
      if o.hasCallback {
        trace := trace + [AckCalled(o.id, success)];
      }
      OperationFinish(i, Done);
    }

    /** pa_context_is_pending: only a READY context with a busy transport or dispatcher. */
    method IsPending() returns (r: bool)
      requires Valid()
      ensures r ==> state == Ready
      ensures state == Ready ==> (r <==> pstream.value.pending || pdispatch.value.pending)
    {
      if state != Ready {
        return false;
      }
      return pstream.value.pending || pdispatch.value.pending;
    }

    /**
     * set_dispatch_callbacks for the drain operation at index i: clear both
     * drain callbacks, re-arm each component that is still pending, and
     * only when neither is, call the user callback and finish the operation.
     */
    method SetDispatchCallbacks(i: nat)
      requires Valid() && state == Ready && i < |operations|
      modifies this`pstream, this`pdispatch, this`operations, this`trace
      ensures Valid()
      ensures pstream == Some(old(pstream).value.(drainOp :=
        if old(pstream).value.pending then Some(old(operations[i].id)) else None))
      ensures pdispatch == Some(old(pdispatch).value.(drainOp :=
        if old(pdispatch).value.pending then Some(old(operations[i].id)) else None))
      ensures old(pstream).value.pending || old(pdispatch).value.pending ==>
        operations == old(operations) && trace == old(trace)
      ensures !old(pstream).value.pending && !old(pdispatch).value.pending ==>
        && operations == old(operations[..i] + operations[i + 1..])
        && trace == old(trace) +
             (if old(operations[i].hasCallback) then [DrainCalled(old(operations[i].id))] else []) +
             [OperationEnded(old(operations[i].id), Done)]
    {
      var o := operations[i];
      var t := pstream.value.(drainOp := None);
      var d := pdispatch.value.(drainOp := None);
      var done := true;
      if d.pending {
        d := d.(drainOp := Some(o.id));
        done := false;
      }
      if t.pending {
        t := t.(drainOp := Some(o.id));
        done := false;
      }
      pstream, pdispatch := Some(t), Some(d);
      if done {
        if o.hasCallback {
          trace := trace + [DrainCalled(o.id)];
        }
        OperationFinish(i, Done);
      }
    }

    /**
     * pa_context_drain: with nothing pending there is nothing to wait for;
     * otherwise a drain operation is linked and armed on every busy component.
     */
    method Drain(hasCallback: bool) returns (op: Option<nat>)
      requires Valid() && state == Ready
      modifies this`pstream, this`pdispatch, this`operations, this`nextOperation, this`trace
      ensures Valid() && trace == old(trace)
      ensures op.None? <==> !old(pstream).value.pending && !old(pdispatch).value.pending
      ensures op.None? ==>
        && pstream == old(pstream) && pdispatch == old(pdispatch)
        && operations == old(operations) && nextOperation == old(nextOperation)
      ensures op.Some? ==>
        && op.value == old(nextOperation) && nextOperation == op.value + 1
        && operations == old(operations) + [Operation(op.value, DrainKind, hasCallback)]
        && pstream == Some(old(pstream).value.(drainOp :=
             if old(pstream).value.pending then op else None))
        && pdispatch == Some(old(pdispatch).value.(drainOp :=
             if old(pdispatch).value.pending then op else None))
    {
      var pending := IsPending();
      if !pending {
        return None;
      }
      var id := nextOperation;
      nextOperation := nextOperation + 1;
      operations := operations + [Operation(id, DrainKind, hasCallback)];
      SetDispatchCallbacks(|operations| - 1);
      return Some(id);
    }

    /**
     * pstream_drain_callback: the transport has flushed and calls the drain
     * callback it holds for the operation at index i.
     */
    method TransportDrained(i: nat)
      requires Valid() && state == Ready && i < |operations|
      requires pstream.value.drainOp == Some(operations[i].id)
      modifies this`pstream, this`pdispatch, this`operations, this`trace
      ensures Valid() && !pstream.value.pending && pstream.value.drainOp.None?
      ensures pdispatch == Some(old(pdispatch).value.(drainOp :=
        if old(pdispatch).value.pending then Some(old(operations[i].id)) else None))
      ensures old(pdispatch).value.pending ==> operations == old(operations) && trace == old(trace)
      ensures !old(pdispatch).value.pending ==>
        && operations == old(operations[..i] + operations[i + 1..])
        && trace == old(trace) +
             (if old(operations[i].hasCallback) then [DrainCalled(old(operations[i].id))] else []) +
             [OperationEnded(old(operations[i].id), Done)]
    {
      pstream := Some(pstream.value.(pending := false));
      SetDispatchCallbacks(i);
    }

    /**
     * pdispatch_drain_callback: the dispatcher has no outstanding replies
     * and calls the drain callback it holds for the operation at index i.
     * No reply being outstanding means every simple-ack operation has had
     * its reply handled, and so has left the list.
     */
    method DispatcherDrained(i: nat)
      requires Valid() && state == Ready && i < |operations|
      requires forall k :: 0 <= k < |operations| ==> operations[k].kind != AckKind
      requires pdispatch.value.drainOp == Some(operations[i].id)
      modifies this`pstream, this`pdispatch, this`operations, this`trace
      ensures Valid() && !pdispatch.value.pending && pdispatch.value.drainOp.None?
      ensures pstream == Some(old(pstream).value.(drainOp :=
        if old(pstream).value.pending then Some(old(operations[i].id)) else None))
      ensures old(pstream).value.pending ==> operations == old(operations) && trace == old(trace)
      ensures !old(pstream).value.pending ==>
        && operations == old(operations[..i] + operations[i + 1..])
        && trace == old(trace) +
             (if old(operations[i].hasCallback) then [DrainCalled(old(operations[i].id))] else []) +
             [OperationEnded(old(operations[i].id), Done)]
    {
      pdispatch := Some(pdispatch.value.(pending := false));
      SetDispatchCallbacks(i);
    }
  }

  /** Requests fewer than 2^32 apart never share a tag. */
  lemma SentTagsDistinct(c: Context, i: nat, j: nat)
    requires c.LogsConsistent() && i < j < |c.sent| && j - i < TAG_MODULUS
    ensures c.sent[i].tag != c.sent[j].tag
  {
    TagsDistinctInWindow(i, j);
  }

  /** Each registered tag is the tag of a sent request, and later registrations answer later requests. */
  lemma {:induction false} RegisteredInRequestOrder(c: Context, i: nat, j: nat)
    requires c.LogsConsistent() && i < j < |c.registered|
    ensures c.awaited[i] < c.awaited[j] < |c.sent|
    ensures c.registered[i] == c.sent[c.awaited[i]].tag && c.registered[j] == c.sent[c.awaited[j]].tag
    decreases j - i
  {
    if i + 1 < j {
      RegisteredInRequestOrder(c, i, j - 1);
    }
  }

  /** Replies registered for requests fewer than 2^32 apart never share a tag. */
  lemma RegisteredTagsDistinct(c: Context, i: nat, j: nat)
    requires c.LogsConsistent() && i < j < |c.registered| && c.awaited[j] - c.awaited[i] < TAG_MODULUS
    ensures c.registered[i] != c.registered[j]
  {
    RegisteredInRequestOrder(c, i, j);
    TagsDistinctInWindow(c.awaited[i], c.awaited[j]);
  }

  /** Each request's tag is its predecessor's plus one, modulo 2^32. */
  lemma SentTagsConsecutive(c: Context, i: nat)
    requires c.LogsConsistent() && i + 1 < |c.sent|
    ensures c.sent[i + 1].tag == NextTag(c.sent[i].tag)
  {
    TagAtSucc(i);
  }
}
