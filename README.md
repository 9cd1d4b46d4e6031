# polyp client connection context, modelled in Dafny

This project models the client connection context of polypaudio's native
protocol library (`polyp/polyplib-context.c`). The context is a
single-threaded, callback-driven state machine. It owns:

- a state (UNCONNECTED, CONNECTING, AUTHORIZING, SETTING_NAME, READY, FAILED, TERMINATED);
- a last-error code and a 32-bit request tag counter (`ctag`);
- a reference count;
- three optional collaborators: the connector (`client`), the packet transport (`pstream`) and the reply dispatcher (`pdispatch`);
- a list of streams and a list of operations.

It connects to a server, runs the AUTH / SET_NAME handshake, translates
error replies and acknowledges simple commands. It routes audio chunks to
record streams and lets a caller wait until no protocol traffic is
outstanding (drain).

Files:

- `protocol.dfy` (module `Protocol`): the values the context deals in, with the pure decisions it takes:
  - the states, commands, error codes and reply payload shapes;
  - error translation and the simple-ack outcome;
  - the choice of server and port;
  - 32-bit tag arithmetic.
- `context.dfy` (module `Context`): class `Context`, one method per function of the C file.
  - Its fields are the C struct's fields, with the collaborators reduced to presence, pending flags and drain-callback slots.
  - Logs record the requests sent (`sent`), the reply tags registered (`registered`) and, in `trace`, every user-visible effect in order: observer calls, callbacks, streams and operations leaving their lists, and collaborators being released.
  - `Valid()` holds between steps. It says that transport and dispatcher are present together, and exactly in AUTHORIZING, SETTING_NAME and READY. It says that the connector is present exactly in CONNECTING, and that linked streams are not terminal. A second invariant, `LogsConsistent()`, covers the request log. It says that request n carries tag n modulo 2^32. It also says that every registered reply tag is the tag of a sent request, registered in request order and at most once per request (`awaited` records which request). It reads only the log fields, so methods whose frame leaves those fields alone preserve it by their frame, and every method that sends states it.
- `scenarios.dfy` (module `Scenarios`): runs of several operations whose results follow from the contracts alone.

Three places where the code is less strict than a reader might expect:

- A failure to load the auth cookie in `pa_context_connect` calls `pa_context_fail`. The context is then FAILED with AUTHKEY, not left UNCONNECTED.
- A well-formed ERROR (or a TIMEOUT) answering AUTH or SET_NAME only records the error code. The state stays AUTHORIZING or SETTING_NAME, and the context is not failed (`Scenarios.SetNameRefused`).
- A simple-ack REPLY with trailing data fails the context and skips the user callback.

## Model

| member | source | states |
|---|---|---|
| Context.Context.constructor | polyp/polyplib-context.c:53-85 | a new context has one reference, state UNCONNECTED, error OK, ctag 0, no connector, transport or dispatcher, and no streams or operations |
| Context.Context.Ref | polyp/polyplib-context.c:116-120 | the reference count grows by one |
| Context.Context.Unref | polyp/polyplib-context.c:122-127 | the count drops by one; when it reaches zero, every operation is cancelled, then every stream is terminated, then connector, dispatcher and transport are released, in that order |
| Context.Context.ContextFree | polyp/polyplib-context.c:87-114 | the final release empties both lists and drops all three collaborators, logging the cancellations, then the stream terminations, then the releases |
| Context.Context.CancelAll | polyp/polyplib-context.c:90-91 | the cancel loop ends with no operation linked, having cancelled each one once in list order |
| Context.Context.EndAllStreams | polyp/polyplib-context.c:93-94 | the terminate loop ends with no stream linked, having ended each one once in list order |
| Context.Context.OperationFinish | polyp/polyplib-context.c:91 | cancelling or completing an operation unlinks exactly that operation, which is what lets the loops terminate |
| Context.Context.StreamSetTerminal | polyp/polyplib-context.c:140-146 | driving a stream to a terminal state unlinks exactly that stream |
| Context.CancelOperationsCovers | polyp/polyplib-context.c:90-91 | the cancellation log names every pending operation exactly once, in list order, each as cancelled, never done |
| Context.EndStreamsCovers | polyp/polyplib-context.c:140-146 | the stream log names every linked stream exactly once, in list order, with the terminal state the context imposes |
| Context.Context.SetState | polyp/polyplib-context.c:129-168 | setting the current state changes nothing and calls no observer; a terminal state drives every stream to FAILED or TERMINATED, then releases dispatcher, transport and connector, commits the state, and only then calls the observer, which sees none of them; other states change only the state |
| Context.Context.Commit | polyp/polyplib-context.c:163-165 | the state is stored and then the observer is called once, if set, seeing the new state; nothing else changes |
| Context.Context.TearDown | polyp/polyplib-context.c:137-161 | teardown leaves no stream, connector, transport or dispatcher, releasing only those that were present |
| Protocol.StreamFinal | polyp/polyplib-context.c:143 | FAILED maps to a failed stream, TERMINATED to a terminated one |
| Context.Context.Fail | polyp/polyplib-context.c:170-174 | the error is always overwritten, then FAILED is entered (no second teardown if already FAILED) |
| Context.Context.Disconnect | polyp/polyplib-context.c:391-394 | TERMINATED is entered; from TERMINATED nothing changes |
| Context.Context.TransportDied | polyp/polyplib-context.c:176-180 | a transport death fails the context with CONNECTIONTERMINATED |
| Context.Context.PacketReceived | polyp/polyplib-context.c:182-194 | a packet the dispatcher rejects fails the context with PROTOCOL; an accepted one changes nothing here |
| Context.Context.MemblockReceived | polyp/polyplib-context.c:196-209 | a chunk reaches only the record stream registered at its channel, and only if that stream has a read callback; otherwise nothing happens, and state and error never change |
| Protocol.GetU32 | polyp/polyplib-context.c:215 | a u32 is read exactly when the payload starts with one |
| Protocol.TranslateError | polyp/polyplib-context.c:211-228 | ERROR with a readable code records that server code; TIMEOUT records TIMEOUT; a truncated ERROR or any other command is fatal; because the model keeps server codes in their own constructor, a recorded error is never the model's own OK or PROTOCOL code (see "## Left out") |
| Protocol.ErrorPayloadRoundTrip | polyp/polyplib-context.c:214-219 | an ERROR payload built from a code translates back to exactly that code, whatever follows it |
| Context.Context.HandleError | polyp/polyplib-context.c:211-228 | a recorded translation sets the error, returns 0 and changes nothing else; a fatal one fails the context with PROTOCOL and returns -1 |
| Context.Context.SetupComplete | polyp/polyplib-context.c:230-268 | a non-REPLY either only records the error (state unchanged) or leaves the context FAILED/PROTOCOL; a REPLY in AUTHORIZING sends SET_NAME with the name under the next tag, registers that tag and enters SETTING_NAME; a REPLY in SETTING_NAME enters READY |
| Context.Context.OnConnection | polyp/polyplib-context.c:270-310 | the connector is always released; without a channel the context is FAILED/CONNECTIONREFUSED; with one, transport and dispatcher exist, AUTH with the cookie goes out under the old ctag, ctag advances by one, that tag is registered, and the state is AUTHORIZING |
| Context.Context.ReleaseConnector | polyp/polyplib-context.c:278-279 | the connector is released and `client` cleared |
| Context.Context.StartHandshake | polyp/polyplib-context.c:286-306 | transport and dispatcher are created, AUTH is sent and registered under one tag, and AUTHORIZING is entered |
| Context.Context.SendRequest | polyp/polyplib-context.c:298-303 | a request goes out with tag = old ctag, ctag advances modulo 2^32, and the tag of request n stays n modulo 2^32 |
| Context.Context.SendWithReply | polyp/polyplib-context.c:298-304 | a request goes out under the old ctag and a reply is registered for exactly that request; transport and dispatcher become pending, and the log stays consistent |
| Context.Context.RegisterReply | polyp/polyplib-context.c:304 | the tag of the request just sent is registered with the dispatcher, which now has a reply pending, and that request's index is recorded as awaited |
| Protocol.NextTag | polyp/polyplib-context.c:301 | ctag++ adds one and wraps from 2^32-1 to 0 |
| Protocol.TagAtSucc | polyp/polyplib-context.c:529 | the tag of request n+1 is the increment of the tag of request n |
| Protocol.TagsDistinctInWindow | polyp/polyplib-context.c:529-531 | fewer than 2^32 consecutive requests never share a tag |
| Context.SentTagsDistinct | polyp/polyplib-context.c:529-531 | any two requests a context sent fewer than 2^32 requests apart carry different tags |
| Context.RegisteredInRequestOrder | polyp/polyplib-context.c:298-304 | a later registration answers a later request, and each registered tag is the tag of the request it answers |
| Context.RegisteredTagsDistinct | polyp/polyplib-context.c:298-304 | two reply registrations for requests fewer than 2^32 apart carry different tags |
| Context.SentTagsConsecutive | polyp/polyplib-context.c:249 | each request's tag is its predecessor's plus one, modulo 2^32 |
| Protocol.LastIndexOf | polyp/polyplib-context.c:318 | the result is the last position holding the character, and none exists if it returns nothing |
| Protocol.SelectPort | polyp/polyplib-context.c:318-321 | with a ':' the port is the colon-free text after the last ':'; without one it is the default port |
| Protocol.ChooseServer | polyp/polyplib-context.c:351-353 | an explicit server wins, then the environment variable, then the default server |
| Protocol.PlanConnect | polyp/polyplib-context.c:340-389 | a missing cookie gives AUTHKEY; a path starting with '/' targets a unix socket; otherwise the whole string is the host with the selected port, and an unresolvable address gives INVALIDSERVER; a connector that cannot be created gives CONNECTIONREFUSED |
| Context.Context.Connect | polyp/polyplib-context.c:340-389 | returns 0 exactly when the plan succeeds, and then holds that connector in CONNECTING with the error untouched; otherwise returns -1 with the context FAILED under the plan's error (AUTHKEY included) |
| Context.Context.GetState | polyp/polyplib-context.c:396-399 | returns the current state |
| Context.Context.Errno | polyp/polyplib-context.c:401-404 | returns the last error |
| Context.Context.SetStateCallback | polyp/polyplib-context.c:406-410 | sets or clears the observer |
| Context.Context.IsPending | polyp/polyplib-context.c:412-420 | false outside READY; in READY, true exactly when transport or dispatcher is pending |
| Context.Context.SetDispatchCallbacks | polyp/polyplib-context.c:432-462 | each drain slot ends armed for the operation exactly when its component is pending; only when neither is does the user callback run (once, if set) and the operation finish done |
| Context.Context.Drain | polyp/polyplib-context.c:464-479 | returns no operation exactly when nothing is pending, changing nothing; otherwise links a new drain operation armed on every pending component |
| Context.Context.TransportDrained | polyp/polyplib-context.c:428-430 | a flushed transport re-runs the drain step: it completes exactly when the dispatcher is idle too |
| Context.Context.DispatcherDrained | polyp/polyplib-context.c:424-426 | a drained dispatcher, which has no simple-ack operation left waiting for its reply, re-runs the drain step: it completes exactly when the transport is idle too |
| Context.Context.ExitDaemon | polyp/polyplib-context.c:481-490 | EXIT goes out under the old ctag and ctag advances; no reply is registered |
| Context.Context.SendSimpleCommand | polyp/polyplib-context.c:517-534 | a new simple-ack operation is linked and returned; the command goes out under the old ctag, ctag advances, and that tag is registered |
| Protocol.AckDecision | polyp/polyplib-context.c:492-515 | the callback gets success exactly for a REPLY with nothing after the tag, failure exactly for an error that translates; a trailing-data REPLY or a fatal translation fails the context |
| Protocol.AckWellFormedError | polyp/polyplib-context.c:497-501 | an ERROR carrying a code reaches the callback with success = 0 |
| Context.Context.SimpleAck | polyp/polyplib-context.c:492-515 | following AckDecision, the callback (if set) runs once with the flag, or the context fails with PROTOCOL and no callback runs; in every case the operation ends done and is unlinked |
| Scenarios.DisconnectTwice | polyp/polyplib-context.c:391-394 | two disconnects tear down and call the observer at most once |
| Scenarios.Handshake | polyp/polyplib-context.c:270-310 | channel, REPLY, REPLY reach READY having sent AUTH and SET_NAME under tags t and t+1, both registered |
| Scenarios.SetNameRefused | polyp/polyplib-context.c:236-240 | an ERROR with code k answering SET_NAME leaves SETTING_NAME with error k |
| Scenarios.CommandAcknowledged | polyp/polyplib-context.c:517-534 | a command answered by a bare REPLY calls back once with success and finishes done |
| Scenarios.DrainBehindCommand | polyp/polyplib-context.c:432-479 | a drain behind the only unanswered command is not completed by the transport flush; it fires once, after the command's callback, because the dispatcher cannot report drained while that command's operation is linked |

## Left out

- Temporary references: the ref/unref pairs that handlers take around their work (135/167, 186/193, 201/208, 234/267, 276/309, 344/386) cancel out and are omitted. The observer is recorded in `trace` and never re-enters the context.
- Operation reference counts, the context reference an operation holds, and the list position of a new operation are omitted. They live in `polyplib-operation.c`, which is not part of this model. Operations are named by an id. New ones are appended, and cancellation and completion unlink them.
- Stream creation and the filling of the channel tables live in `polyplib-stream.c`, which is not part of this model. The stream list and the record-stream table are state that the context is given. Clearing a channel slot when a stream is unlinked is not modelled. The playback-stream table is not used by this file and is left out.
- Foreign calls are reduced to their outcomes, carried by `ConnectEnv`:
  - loading the cookie from the home directory;
  - `getenv`;
  - `getaddrinfo`;
  - the unix and TCP connector constructors.
- The transport and dispatcher are reduced to presence, a pending flag and a drain-callback slot. Sending sets the transport pending and registering a reply sets the dispatcher pending. The drained events clear them.
- Reply timeouts and the unsolicited-command table (46-51) are left out. `PacketReceived` takes the dispatcher's verdict. The handler it runs for a reply is a separate step (`SetupComplete`, `SimpleAck`).
- The tag-length-value encoding is left out. A request is abstracted as (command, tag, payload shape), and a reply payload as a list of fields.
- Command and error codes are datatype constructors, because their numbers are defined in headers that are not part of this model. In C, a server error code that equals a local error number cannot be told apart from it; the model keeps them distinct. The values of DEFAULT_SERVER and DEFAULT_PORT come from those headers too.
- Memory management, `memblock_stat`, `pa_check_for_sigpipe` and the diagnostic print at 189 are left out. So are the chunk pointer arithmetic at 205 and the chunk's `delta`, which the code ignores.
- Callback function pointers and user data are left out. Only whether a callback is set is kept, and the casts at 453-455 and 508 become the operation kind.
- `send_simple_command`'s `internal_callback` argument is left out. The model always answers through the simple-ack handler, because other handlers are defined in other files.
- `src/pulse/sample.h` is left out. It holds only constants and prototypes of sample-format helpers, and their bodies are not part of this model.
- Context.Context.SetState requires, for a non-terminal target, that the collaborators already match that state. Every call in this file meets it: non-terminal states are entered only at 254, 259, 306 and 381, each time with the collaborators that state has already in place.
- Context.Context.ExitDaemon requires a transport. The C code passes `c->pstream` unchecked at 489; a null transport is excluded by the requires.
- Context.Context.SendSimpleCommand requires a transport. The C code passes `c->pstream` unchecked at 530; a null transport is excluded by the requires.
- Context.Context.DispatcherDrained requires that no simple-ack operation is linked. The dispatcher reports drained only once no reply is outstanding, and each simple-ack operation waits for a registered reply whose handler unlinks it before that point.
- Context.Context.Unref leaves a released context that no longer satisfies `Valid()`. Use after release is not modelled.
