# drpc call dispatch, modelled in Dafny

This project models the call-dispatch core of drpc, a Go RPC framework. Four parts are covered.

- **Server-side interceptor chaining.** `drpcmux/interceptor.go` composes a list of unary or stream server interceptors into one. `Interceptor` models this.
- **The mux's rpc handler.** `drpcmux/handle_rpc.go` looks up the rpc and picks the unary chain, the stream chain or no chain. It reads the input message when the rpc has one, calls the receiver, then sends the result, closes the send side or returns the wrapped error. `Mux` models this, and `MuxLaws` proves its laws.
- **The client connection and its dial options.** `drpcclient/clientconn.go` and `drpcclient/dialoptions.go` collect client interceptors from the options in order. They compose them once when the connection is built, and route every call and stream open through the composed interceptor. `Dial` and `Client` model these.
- **Request metadata on contexts.** `drpcmetadata/metadata.go` keeps one mutable key/value map in a context slot. A derived context shares the map with its parent, so `Add` changes it in place. `ClearContextExcept` keeps one pair in a new map. `Metadata` models this.

## How the model is built

- **Interceptors are data.** A layer either forwards or short-circuits.
  - `Forward` logs its pre-logic, may rewrite its argument, calls the next handler, and logs its post-logic. It may then replace the whole reply.
  - `ShortCircuit` logs its pre-logic and fails without calling the handler.
  - Each event records the rpc name the layer saw.
- **One reference semantics.** `Interceptor.Onion` is the nested-layers meaning of a list, with the first layer outermost. Both compositions are proved equal to it:
  - the server's index recursion (`Chained`, as in `getChainedUnaryHandler`);
  - the client's downward loop (`Client.RunChain`, as in the loop of `chainUnaryClientInterceptors`).
  Every order, reply and short-circuit law is proved about `Onion`.
- **Streams are objects.**
  - `Mux.Stream` is a class with the fields of the stream the mux's tests use: the message to be received, the message sent, the closed flag, and a log of what happened to it.
  - `Mux.Mux.HandleRPC` mutates that stream. It is proved equal to the pure `Mux.Dispatch` function, and the laws are lemmas about `Dispatch`.
  - A stream wrapped by a stream interceptor is a `StreamView`. It is the original stream or one whose received messages are prefixed, as the wrapper in the mux's tests does.
- **Error nesting is kept.**
  - A failed receive inside `msgRecv` is wrapped once, and `HandleRPC` wraps every handler error once more.
  - An invalid input type is an internal error.
  - `MsgSend` and `CloseSend` errors are returned as they are.
- **Metadata maps are objects.** `Metadata.MetadataMap` is a class, so in-place changes and sharing between contexts are real.

## Model

| member | source | states |
|---|---|---|
| Drpc.Wrap | drpcmux/handle_rpc.go:69 | a wrapped error still is the error it wraps and has the same root cause |
| Drpc.Root | drpcmux/handle_rpc.go:69 | the root cause of an error is not a wrapper, and the error is it |
| Interceptor.ChainInterceptors | drpcmux/interceptor.go:16-22 | no interceptors compose to nil, and exactly one composes to itself |
| Interceptor.Chained | drpcmux/interceptor.go:33-44 | definition, no contract: the handler built from index i on, ending in the final handler, as getChainedUnaryHandler builds it (getChainedStreamHandler at drpcmux/interceptor.go:70-81 is the same code); its partner is `ChainedIsOnion` |
| Interceptor.Call | drpcmux/interceptor.go:23-29 | definition, no contract: calling the composed interceptor, the single one directly or the first of the chain around the chained handler from index 1; its partner is `ComposedIsOnion` |
| Interceptor.ChainedIsOnion | drpcmux/interceptor.go:33-44 | the handler chained from index i runs the layers from i on, nested, around the final handler |
| Interceptor.ComposedIsOnion | drpcmux/interceptor.go:16-44 | the composed server interceptor behaves as all its layers nested, the first outermost, for any non-empty list |
| Interceptor.OnionForwarding | drpcmux/interceptor.go:23-43 | with forwarding layers: every pre-logic outermost first, then the handler on the threaded argument, then every post-logic innermost first; the reply is the handler's, overridden from the inside out |
| Interceptor.OnionShortCircuit | drpcmux/interceptor.go:23-43 | a layer that fails without calling its handler ends the call: only the layers outside it run, and the failure travels outwards |
| Interceptor.ShortCircuitSkipsRest | drpcmux/interceptor.go:23-43 | after a short-circuiting layer, neither the inner layers nor the final handler can change the outcome |
| Interceptor.TransparentDecide | drpcmux/interceptor.go:23-43 | pass-through layers hand the inner reply out unchanged |
| Interceptor.BeforesFixed | drpcmux/interceptor.go:27 | on the server every layer sees the same rpc name |
| Interceptor.ChainOrder | drpcmux/interceptor_test.go:76-128 | the composed chain runs pre-logic in list order and post-logic in reverse, around one handler call |
| Interceptor.ChainForwardsReply | drpcmux/interceptor.go:23-43 | a chain of pass-through interceptors returns exactly the handler's reply |
| Interceptor.ChainShortCircuit | drpcmux/interceptor_test.go:185-229 | an interceptor that errors stops the chain: the handler is not called and the error is returned |
| Interceptor.ApplyQuiet | drpcmux/interceptor.go:39-43 | a layer adds no stream event of its own |
| Interceptor.ChainedQuiet | drpcmux/interceptor.go:33-44 | a chained handler adds no stream event the final handler does not |
| Interceptor.CallQuiet | drpcmux/interceptor.go:23-29 | the composed interceptor adds no stream event the final handler does not |
| Mux.RecvOn | drpcmux/interceptor_test.go:35-52 | a receive fails exactly when the stream is closed or has nothing to receive; on the original stream it yields the pending message |
| Mux.SendOn | drpcmux/interceptor_test.go:27-33 | a send fails exactly on a closed stream and otherwise records the message, leaving the rest of the stream alone |
| Mux.CloseOn | drpcmux/interceptor_test.go:54-57 | closing the send side marks the stream closed and never fails |
| Mux.ReadInput | drpcmux/handle_rpc.go:78-85 | an invalid input type is an internal error; otherwise the stream's receive result, its error wrapped once |
| Mux.ReadEvents | drpcmux/handle_rpc.go:79-83 | definition, no contract: only a valid input type leads to a receive on the stream |
| Mux.Receive | drpcmux/handle_rpc.go:35 | definition, no contract: one logged call of the registered receiver; what it is called with on each path is stated by `UnaryChainDispatch`, `StreamInDispatch`, `UnaryInStreamOutDispatch` and `DirectDispatch` |
| Mux.UnaryTerminal | drpcmux/handle_rpc.go:34-36 | definition, no contract: the final handler of the unary chain calls the receiver with the request and context the chain hands it, and the original stream |
| Mux.StreamInTerminal | drpcmux/handle_rpc.go:41-43 | definition, no contract: the final handler of the stream chain for stream input passes the stream it is handed as both receiver inputs |
| Mux.UnaryInTerminal | drpcmux/handle_rpc.go:47-54 | definition, no contract: the final handler of the stream chain for unary input reads the input from the stream it is handed, and returns the read error or calls the receiver |
| Mux.PathOf | drpcmux/handle_rpc.go:26-65 | the unary chain exactly for unitary rpcs when one is installed; the stream chain exactly for other rpcs when one is installed, split by input shape; otherwise no chain |
| Mux.Serve | drpcmux/handle_rpc.go:21-65 | definition, no contract: the four-way switch up to the handler's result; its partners are `ServeQuiet` and the per-path laws in `MuxLaws` |
| Mux.Dispose | drpcmux/handle_rpc.go:67-74 | definition, no contract: the disposition of the handler's result; its partner is `DisposedExactlyOnce` |
| Mux.Dispatch | drpcmux/handle_rpc.go:15-75 | definition, no contract: the lookup, then `Serve`, then `Dispose`; `HandleRPC` is proved equal to it, and the `MuxLaws` lemmas are about it |
| Mux.Stream.constructor | drpcmux/interceptor_test.go:16-21 | a new stream holds its pending message, has sent nothing, is open, and has an empty log |
| Mux.Stream.MsgRecv | drpcmux/interceptor_test.go:35-52 | the stream's receive: the result of `RecvOn`, with the receive logged |
| Mux.Stream.MsgSend | drpcmux/interceptor_test.go:27-33 | the stream's send: the new state and error are those of `SendOn` |
| Mux.Stream.CloseSend | drpcmux/interceptor_test.go:54-57 | the stream's close: the new state is that of `CloseOn` |
| Mux.Mux.constructor | drpcmux/handle_rpc.go:16-27 | the mux holds the given registrations, which the handler looks up, and the interceptors it selects among |
| Mux.Mux.MsgRecv | drpcmux/handle_rpc.go:78-85 | `msgRecv` on the stream object: the result of `ReadInput`, with only the receive logged |
| Mux.Mux.HandleRPC | drpcmux/handle_rpc.go:15-75 | the rpc handler mutates the stream into the state `Dispatch` prescribes and returns its error |
| MuxLaws.DisposalsAppend | drpcmux/handle_rpc.go:67-74 | sends and closes in a concatenated log add up |
| MuxLaws.QuietNoDisposals | drpcmux/handle_rpc.go:67-74 | a log with no send or close contributes none |
| MuxLaws.ReceiveQuiet | drpcmux/handle_rpc.go:35 | the receiver itself neither sends nor closes |
| MuxLaws.TerminalsQuiet | drpcmux/handle_rpc.go:34-54 | none of the three final handlers the mux builds sends or closes |
| MuxLaws.ServeQuiet | drpcmux/handle_rpc.go:26-65 | whatever path is taken, the handler phase neither sends nor closes |
| MuxLaws.DisposedExactlyOnce | drpcmux/handle_rpc.go:67-74 | a registered rpc's handler result is disposed of exactly once: its error is wrapped and returned with nothing sent or closed; a message is sent, failing exactly on a closed stream; no message closes the send side without error |
| MuxLaws.DispatchExtendsLog | drpcmux/handle_rpc.go:16-19 | handling only appends to what happened to the stream; an unknown rpc is a protocol error naming it, and the stream is untouched |
| MuxLaws.ChainSelection | drpcmux/handle_rpc.go:26-55 | a unitary rpc's handling does not depend on the stream chain, and any other rpc's handling does not depend on the unary chain |
| MuxLaws.UnaryChainDispatch | drpcmux/handle_rpc.go:27-36 | unitary rpc through forwarding unary interceptors: receive, pre-logic in order, receiver on the threaded request, post-logic reversed, then the decided reply is disposed of |
| MuxLaws.StreamInDispatch | drpcmux/handle_rpc.go:38-43 | stream-input rpc through forwarding stream interceptors: the receiver gets the wrapped stream as both inputs, between the pre- and post-logic |
| MuxLaws.UnaryInStreamOutDispatch | drpcmux/handle_rpc.go:44-55 | unary-input, stream-output rpc through forwarding stream interceptors: the input is received through the wrapped stream inside the chain |
| MuxLaws.Prefixes | drpcmux/handle_rpc_test.go:307-320 | definition, no contract: all the prefixes a nest of wrappers adds, the outermost first |
| MuxLaws.RecvThroughWrappers | drpcmux/handle_rpc_test.go:307-320 | for any nest of prefixing wrappers: a receive fails as the underlying stream does (closed, or nothing pending), and otherwise yields the pending message with every prefix in front, the outermost first |
| MuxLaws.UnaryShortCircuitDispatch | drpcmux/handle_rpc.go:27-36 | a unary-chain interceptor at any position that fails without calling its handler, behind pass-through layers: the input is received, the pre-logic up to it and the post-logic outside it run, the receiver never runs, nothing is sent or closed, and the interceptor's error is returned wrapped |
| MuxLaws.StreamShortCircuitDispatch | drpcmux/handle_rpc.go:37-55 | the same for the stream chain and either input shape: nothing is received, the receiver never runs, nothing is sent or closed, and the interceptor's error is returned wrapped |
| MuxLaws.ReceiveFailureInChain | drpcmux/handle_rpc.go:49-52 | a failed read inside a pass-through stream chain skips the receiver, after every layer has run; a failed receive comes back wrapped twice, and an invalid input type comes back wrapped once |
| MuxLaws.ReceiveFailureUpFront | drpcmux/handle_rpc.go:29-32 | a failed receive before the unary chain or with no chain ends handling before any interceptor or the receiver runs; an invalid input type leaves the stream untouched |
| MuxLaws.DirectDispatch | drpcmux/handle_rpc.go:56-65 | with no applicable chain: the input is received only for a message input, then the receiver runs once with the original stream |
| MuxScenarios.UnaryInterceptorReplacesResult | drpcmux/handle_rpc_test.go:68-129 | a unary interceptor that replaces the handler's result gets its replacement sent |
| MuxScenarios.TwoInterceptorsInOrder | drpcmux/handle_rpc_test.go:237-305 | two unary interceptors run in onion order around the receiver, whose result is sent |
| MuxScenarios.InterceptorError | drpcmux/handle_rpc_test.go:187-235 | an interceptor error: the receiver never runs, nothing is sent, and the returned error wraps the interceptor's |
| MuxScenarios.StreamWrapperChangesInput | drpcmux/handle_rpc_test.go:322-396 | a wrapping stream interceptor changes the input a unary-input, stream-output rpc receives, and the send side is closed |
| MuxScenarios.MixedInterceptors | drpcmux/handle_rpc_test.go:398-512 | with both chains, each rpc shape goes through its own chain only |
| MuxScenarios.WithoutInterceptors | drpcmux/handle_rpc_test.go:514-562 | no interceptors: the receiver's result is sent |
| MuxScenarios.UnknownMethod | drpcmux/handle_rpc_test.go:564-596 | an unregistered rpc is a protocol error, and the stream sees nothing |
| MuxScenarios.NothingToReceive | drpcmux/handle_rpc.go:29-32 | nothing to receive: the stream's error comes back wrapped twice, and nothing else happens |
| MuxScenarios.UnaryBypassesStreamChain | drpcmux/handle_rpc_test.go:600-663 | a unary rpc with only a stream chain installed bypasses it, and the receiver's result is sent |
| Dial.UnaryInts | drpcclient/dialoptions.go:22-26 | definition, no contract: the unary interceptors a list of options appends, first option first; its partners are `IntsAppend` and `IntsSingle` |
| Dial.StreamInts | drpcclient/dialoptions.go:30-34 | definition, no contract: the stream interceptors a list of options appends, first option first; its partners are `IntsAppend` and `IntsSingle` |
| Dial.IntsAppend | drpcclient/dialoptions.go:22-34 | options applied one after the other append their interceptors one after the other |
| Dial.IntsSingle | drpcclient/dialoptions.go:22-34 | one option adds exactly the interceptors it carries, to the list of its kind |
| Dial.DialOptions.Default | drpcclient/dialoptions.go:16-18 | default dial options hold no interceptors at all |
| Dial.DialOptions.Apply | drpcclient/dialoptions.go:22-34 | applying an option appends its interceptors to the matching list and changes nothing else |
| Client.FinalInvoker | drpcclient/clientconn.go:31-33 | definition, no contract: the end of the unary chain is a logged call of the connection's Invoke |
| Client.FinalStreamer | drpcclient/clientconn.go:43-45 | definition, no contract: the end of the stream chain is a logged stream open on the connection |
| Client.Intercept | drpcclient/clientconn.go:35-52 | definition, no contract: no composed interceptor goes straight to the final handler, one runs around it, a chain runs as its nested layers; its partner is `InterceptIsOnion` |
| Client.InterceptIsOnion | drpcclient/clientconn.go:76-95 | whatever the list, the connection's composed interceptor behaves as the nested layers; this is glue, because the chain that is built is checked against the nested layers by `RunChain` |
| Client.RunChain | drpcclient/clientconn.go:83-93 | the handler built from the innermost interceptor out, each closing over the one before, is the nested-layers call |
| Client.InvokeOrder | drpcclient/clientconn_test.go:32-86 | forwarding client interceptors: pre-logic outermost first, each seeing the rpc name as rewritten outside it; then the connection call with every rewrite applied; then post-logic innermost first |
| Client.InvokeForwardsReply | drpcclient/clientconn_test.go:155-169 | with pass-through interceptors the caller gets exactly what the connection answered |
| Client.ClientConn.NewClientConnWithOptions | drpcclient/clientconn.go:18-28 | the connection holds the given conn, its interceptor lists are those of the options in order, and the composed interceptors are built from them |
| Client.ClientConn.InitInterceptors | drpcclient/clientconn.go:54-57 | both composed interceptors are built from their lists, and the lists are kept |
| Client.ClientConn.ChainUnaryClientInterceptors | drpcclient/clientconn.go:76-95 | the composed unary interceptor is nil, the only one, or the chain of the list |
| Client.ClientConn.ChainStreamClientInterceptors | drpcclient/clientconn.go:112-132 | the composed stream interceptor is nil, the only one, or the chain of the list |
| Client.ClientConn.Invoke | drpcclient/clientconn.go:35-40 | a call goes through the composed interceptor if there is one, else straight to the connection; on a built connection it is the options' interceptors nested around the connection |
| Client.ClientConn.NewStream | drpcclient/clientconn.go:47-52 | a stream open goes through the composed stream interceptor if there is one, else straight to the connection |
| ClientScenarios.TwoUnaryInterceptors | drpcclient/clientconn_test.go:32-86 | two unary interceptors from one option run in onion order, and the connection's response reaches the caller |
| ClientScenarios.NoUnaryInterceptors | drpcclient/clientconn_test.go:88-100 | with no interceptors the call goes straight to the connection |
| ClientScenarios.TwoStreamInterceptors | drpcclient/clientconn_test.go:102-132 | two stream interceptors run in onion order around the stream open, and the stream reaches the caller |
| ClientScenarios.RenamingInterceptor | drpcclient/clientconn.go:83-93 | interceptors from two options nest in option order; a changed rpc name is seen only inside the interceptor that changed it |
| Metadata.MetadataMap.constructor | drpcmetadata/metadata.go:79 | a new map holds the given entries |
| Metadata.Get | drpcmetadata/metadata.go:87-90 | definition, no contract: the map in the nearest metadata slot, none when there is no slot or it holds nil; what is found through it is stated by `GetValue` |
| Metadata.GetValue | drpcmetadata/metadata.go:93-100 | a value is found exactly when the context has metadata holding the key; found, it is the stored value; not found, it is empty |
| Metadata.ClearContext | drpcmetadata/metadata.go:55-57 | the cleared context has no metadata, and every other context value is unchanged |
| Metadata.Add | drpcmetadata/metadata.go:76-84 | the result's metadata is the old metadata with the pair set; an existing map is changed in place and the context returned as it is; otherwise a context holding a fresh map is derived |
| Metadata.AddPairs | drpcmetadata/metadata.go:13-18 | every pair is added, overriding the old entries; no pairs leave the context untouched; an existing map is updated in place |
| Metadata.ClearContextExcept | drpcmetadata/metadata.go:63-73 | if the key is present, a derived context holding a fresh map with only that pair; otherwise the cleared context |
| Metadata.SharedMetadata | drpcmetadata/metadata.go:76-90 | contexts derived from one another share a map, while the map kept by `ClearContextExcept` is a separate one |
| Metadata.AddPairsMerges | drpcmetadata/metadata.go:13-18 | pairs added to existing metadata overwrite shared keys and keep the others; no pairs on an empty context add no metadata |

## Left out

- **Encoding and decoding.**
  - The metadata wire encoding (`Encode`/`Decode`, drpcmetadata/metadata.go:21-49) is not modelled.
  - Messages are opaque strings. Encodings are names.
- **Reflection.** Go finds an rpc's input type, and whether a result is nil, by reflection. The model uses an input-shape tag (stream, message, or an invalid type for which `msgRecv` fails) and an optional result.
- **Registration.** Registration (`Register`, `New`, `NewWithInterceptors`) and the description types are not part of this model. A mux is built from a finished registration table.
- **Replacing replies.**
  - A forwarding interceptor may replace the whole reply, result and error together.
  - An interceptor that inspects the handler's reply, or changes only part of it, has no shape of its own.
  - The client test's stream recorder logs its post-logic only when opening the stream succeeds. A forwarding layer here always logs it.
- **Contexts and cancellation.**
  - Contexts are identifiers.
  - Mux.StreamInTerminal, Mux.UnaryInTerminal: on both stream-chain paths (drpcmux/handle_rpc.go:42 and drpcmux/handle_rpc.go:53) Go hands the receiver the context of the stream the chain passed on. The model hands it the request's context, because a stream view carries no context. A stream interceptor that replaces the context is therefore not modelled.
  - The `ctx` argument of `NewClientConnWithOptions` is unused there, as in the source.
  - Client.ClientConn.Invoke, Client.ClientConn.NewStream: the client connection passed to every client interceptor is not modelled, and neither are the interceptors' own calls on it. `FinalInvoker` and `FinalStreamer` use the connection fixed at construction.
- **Timing of the client chain.** Client.ClientConn.ChainUnaryClientInterceptors: the Go chain reads the connection's interceptor list when it is called. The model keeps the list it was built from. The two agree because nothing changes the list after construction.
- **Stream effects from handlers.** Receivers and interceptors cannot receive, send or close on the stream themselves. A stream-input receiver is handed the stream view but cannot use up its pending message. Only the dispatcher receives, through `msgRecv`, before the receiver runs. Only the dispatcher sends or closes, after the handler returns.
- **Key order.** `AddPairs` walks the pairs in Go's unspecified map order. The model picks any remaining key at each step, so nothing depends on the order.
- **Transport.**
  - The drpc connection and transport, pooled connections, and the drpcctx helpers are not part of this model.
  - The connection's answers to calls and stream opens are parameters (`Client.Conn`).
- **Concurrency.** Concurrent use of a mux, a stream or a shared metadata map is not modelled.
