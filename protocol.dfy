/**
 * Values exchanged by the client connection context of the polyp native
 * protocol: connection states, command codes, error codes, the shape of a
 * reply payload, and the pure decisions the context makes from them (error
 * translation, simple-ack outcome, server and port choice, tag arithmetic).
 */
module Protocol {

  datatype Option<T> = None | Some(value: T)

  datatype Result<T, E> = Ok(value: T) | Err(error: E)

  /** Unsigned 32-bit protocol integer (tags, server error codes). */
  newtype U32 = x: int | 0 <= x < 0x1_0000_0000

  const TAG_MODULUS: int := 0x1_0000_0000

  /** The context's connection state. */
  datatype ContextState =
    | Unconnected
    | Connecting
    | Authorizing
    | SettingName
    | Ready
    | Failed
    | Terminated

  predicate IsTerminal(s: ContextState) {
    s == Failed || s == Terminated
  }

  /** The states in which a transport and a reply dispatcher are wired up. */
  predicate IsWired(s: ContextState) {
    s == Authorizing || s == SettingName || s == Ready
  }

  /** A stream's state, as far as the context drives it. */
  datatype StreamState = StreamCreating | StreamReady | StreamFailed | StreamTerminated

  predicate IsStreamTerminal(s: StreamState) {
    s == StreamFailed || s == StreamTerminated
  }

  /** The stream state a context entering terminal state `st` forces on its streams. */
  function StreamFinal(st: ContextState): (r: StreamState)
    requires IsTerminal(st)
    ensures IsStreamTerminal(r)
    ensures r == StreamFailed <==> st == Failed
  {
    if st == Failed then StreamFailed else StreamTerminated
  }

  /** Command codes the context sends or inspects; any other code is `CmdOther`. */
  datatype Command =
    | CmdError
    | CmdTimeout
    | CmdReply
    | CmdAuth
    | CmdSetName
    | CmdExit
    | CmdOther(code: U32)

  /** The context's last-error code; `ErrRemote` carries a code sent by the server. */
  datatype ErrorCode =
    | ErrOk
    | ErrConnectionRefused
    | ErrProtocol
    | ErrTimeout
    | ErrAuthKey
    | ErrConnectionTerminated
    | ErrInvalidServer
    | ErrRemote(code: U32)

  /** One field of a tagged payload; only unsigned 32-bit fields are told apart. */
  datatype Field = FieldU32(value: U32) | FieldOther

  /** The part of a reply that follows its command and tag. */
  type Payload = seq<Field>

  /** Reads a leading unsigned 32-bit field, or fails on a truncated or mistyped payload. */
  function GetU32(p: Payload): (r: Option<U32>)
    ensures r.Some? <==> p != [] && p[0].FieldU32?
    ensures r.Some? ==> r.value == p[0].value
  {
    if p != [] && p[0].FieldU32? then Some(p[0].value) else None
  }

  /** The payload of an ERROR reply carrying server error `code`. */
  function ErrorPayload(code: U32): Payload {
    [FieldU32(code)]
  }

  /** What the generic error handler makes of a non-success reply. */
  datatype Translation = Recorded(error: ErrorCode) | Fatal

  /**
   * Error translation: ERROR with a readable code records that code,
   * TIMEOUT records a timeout, everything else (a truncated ERROR included)
   * is a protocol violation that fails the context.
   */
  function TranslateError(command: Command, p: Payload): (r: Translation)
    ensures r.Fatal? <==> command != CmdTimeout && (command != CmdError || GetU32(p).None?)
    ensures command == CmdTimeout ==> r == Recorded(ErrTimeout)
    ensures command == CmdError && GetU32(p).Some? ==> r == Recorded(ErrRemote(GetU32(p).value))
    // Server codes live in their own constructor, so a recorded error is
    // never one of the model's own codes OK or PROTOCOL.
    ensures r.Recorded? ==> r.error != ErrProtocol && r.error != ErrOk
  {
    match command
    case CmdError =>
      (match GetU32(p)
       case Some(code) => Recorded(ErrRemote(code))
       case None => Fatal)
    case CmdTimeout => Recorded(ErrTimeout)
    case _ => Fatal
  }

  /** An ERROR reply built from a code, whatever follows it, translates back to that code. */
  lemma ErrorPayloadRoundTrip(code: U32, rest: Payload)
    ensures TranslateError(CmdError, ErrorPayload(code) + rest) == Recorded(ErrRemote(code))
  {
    assert (ErrorPayload(code) + rest)[0] == FieldU32(code);
  }

  /** Outcome of a simple-ack reply: the user callback with a success flag, or a failed context. */
  datatype AckOutcome = AckCallback(success: bool) | AckContextFailed

  function AckDecision(command: Command, p: Payload): (r: AckOutcome)
    ensures r == AckCallback(true) <==> command == CmdReply && p == []
    ensures r == AckCallback(false) <==> command != CmdReply && TranslateError(command, p).Recorded?
    ensures r == AckContextFailed <==>
      (command == CmdReply && p != []) || (command != CmdReply && TranslateError(command, p).Fatal?)
  {
    if command != CmdReply then
      (if TranslateError(command, p).Fatal? then AckContextFailed else AckCallback(false))
    else if p != [] then AckContextFailed
    else AckCallback(true)
  }

  /** A well-formed ERROR reply to a simple command reaches the callback with success = 0. */
  lemma AckWellFormedError(code: U32, rest: Payload)
    ensures AckDecision(CmdError, ErrorPayload(code) + rest) == AckCallback(false)
  {
    ErrorPayloadRoundTrip(code, rest);
  }

  // ---------------------------------------------------------------------
  // Server address and port choice

  /** Fallback server and port; their values come from headers outside this model. */
  const DEFAULT_SERVER: string := "/tmp/polypaudio/native"
  const DEFAULT_PORT: string := "4713"

  /** Index of the last occurrence of `c` in `s`, as `strrchr` finds it. */
  function LastIndexOf(s: string, c: char): (r: Option<nat>)
    ensures r.Some? ==> r.value < |s| && s[r.value] == c
    ensures r.Some? ==> forall k :: r.value < k < |s| ==> s[k] != c
    ensures r.None? ==> forall k :: 0 <= k < |s| ==> s[k] != c
    decreases |s|
  {
    if |s| == 0 then None
    else if s[|s| - 1] == c then Some(|s| - 1)
    else LastIndexOf(s[..|s| - 1], c)
  }

  /** The port handed to name resolution: the text after the last ':', or the default port. */
  function SelectPort(server: string): (port: string)
    ensures ':' !in server ==> port == DEFAULT_PORT
    ensures ':' in server ==>
      ':' !in port && |port| < |server| &&
      server[|server| - |port| - 1] == ':' && server[|server| - |port|..] == port
  {
    match LastIndexOf(server, ':')
    case Some(i) =>
      var port := server[i + 1..];
      assert forall k :: 0 <= k < |port| ==> port[k] == server[i + 1 + k];
      port
    case None => DEFAULT_PORT
  }

  /** A server named by an explicit argument, else by the environment, else the default. */
  function ChooseServer(arg: Option<string>, env: Option<string>): (server: string)
    ensures arg.Some? ==> server == arg.value
    ensures arg.None? && env.Some? ==> server == env.value
    ensures arg.None? && env.None? ==> server == DEFAULT_SERVER
  {
    match arg
    case Some(s) => s
    case None => (match env case Some(e) => e case None => DEFAULT_SERVER)
  }

  predicate IsUnixPath(server: string) {
    |server| > 0 && server[0] == '/'
  }

  /** Where a connector is aimed: a local socket path, or a host and port for resolution. */
  datatype Target = UnixSocket(path: string) | TcpSocket(host: string, port: string)

  /**
   * Outcomes of the foreign steps of a connect: loading the auth cookie,
   * reading the server environment variable, resolving the address and
   * constructing the connector.
   */
  datatype ConnectEnv = ConnectEnv(
    cookie: Option<seq<bv8>>,
    envServer: Option<string>,
    resolves: bool,
    connectorCreated: bool)

  /** The connector target a connect aims at, or the error it fails the context with. */
  function PlanConnect(arg: Option<string>, env: ConnectEnv): (r: Result<Target, ErrorCode>)
    ensures env.cookie.None? ==> r == Err(ErrAuthKey)
    ensures r.Err? ==> r.error in {ErrAuthKey, ErrInvalidServer, ErrConnectionRefused}
    ensures r.Ok? <==>
      (env.cookie.Some? && env.connectorCreated &&
       (IsUnixPath(ChooseServer(arg, env.envServer)) || env.resolves))
    ensures r.Ok? && IsUnixPath(ChooseServer(arg, env.envServer)) ==>
      r.value == UnixSocket(ChooseServer(arg, env.envServer))
    ensures r.Ok? && !IsUnixPath(ChooseServer(arg, env.envServer)) ==>
      r.value == TcpSocket(ChooseServer(arg, env.envServer), SelectPort(ChooseServer(arg, env.envServer)))
    ensures env.cookie.Some? && !IsUnixPath(ChooseServer(arg, env.envServer)) && !env.resolves ==>
      r == Err(ErrInvalidServer)
  {
    if env.cookie.None? then Err(ErrAuthKey)
    else
      var server := ChooseServer(arg, env.envServer);
      if IsUnixPath(server) then
        (if env.connectorCreated then Ok(UnixSocket(server)) else Err(ErrConnectionRefused))
      else if !env.resolves then Err(ErrInvalidServer)
      else if env.connectorCreated then Ok(TcpSocket(server, SelectPort(server)))
      else Err(ErrConnectionRefused)
  }

  // ---------------------------------------------------------------------
  // Request tags

  /** The tag the n-th request of a context carries: n modulo 2^32. */
  function TagAt(n: nat): U32 {
    (n % TAG_MODULUS) as U32
  }

  /** The 32-bit increment `ctag++` performs. */
  function NextTag(t: U32): (r: U32)
    ensures t as int < TAG_MODULUS - 1 ==> r as int == t as int + 1
    ensures t as int == TAG_MODULUS - 1 ==> r == 0
  {
    ((t as int + 1) % TAG_MODULUS) as U32
  }

  lemma TagAtSucc(n: nat)
    ensures TagAt(n + 1) == NextTag(TagAt(n))
  {
  }

  /** Any window of fewer than 2^32 consecutive requests carries pairwise distinct tags. */
  lemma TagsDistinctInWindow(i: nat, j: nat)
    requires i < j < i + TAG_MODULUS
    ensures TagAt(i) != TagAt(j)
  {
  }
}
