/** Shared vocabulary of the RPC framework: optional values, the error classes
    that the dispatch core produces or passes on, messages, encodings, the
    views of a server stream that interceptors can hand on, and the events
    that make up the observable trace of one call. */
module Drpc {

  datatype Option<+T> = None | Some(value: T)

  datatype Result<+T, +E> = Ok(value: T) | Err(error: E)

  /** Errors. `ProtocolError` and `InternalError` are the two classes the
      dispatcher raises itself; `StreamClosed` and `NoMessage` are what the
      stream refuses a send or a receive with; `AppError` is any error returned
      by service code, an interceptor or the underlying connection; `Wrapped`
      is a wrapper that adds context but keeps the inner error reachable. */
  datatype Error =
    | ProtocolError(rpc: string)
    | InternalError
    | StreamClosed
    | NoMessage
    | AppError(code: nat)
    | Wrapped(inner: Error)

  /** Wrap an error with call-site context. */
  function Wrap(e: Error): (r: Error)
    ensures Is(r, e) && Root(r) == Root(e)
  {
    Wrapped(e)
  }

  /** `target` is `e` itself or is reachable from `e` by unwrapping. */
  predicate Is(e: Error, target: Error)
    decreases e
  {
    e == target || (e.Wrapped? && Is(e.inner, target))
  }

  /** The innermost error under every wrapper: its class decides the kind. */
  function Root(e: Error): (r: Error)
    ensures !r.Wrapped? && Is(e, r)
    decreases e
  {
    if e.Wrapped? then Root(e.inner) else e
  }

  /** An application message, shaped like the test messages: one string. */
  datatype Message = Message(value: string)

  /** The marshal/unmarshal capability a registration entry carries; opaque here. */
  datatype Encoding = Encoding(name: string)

  /** The request context carried by a stream; opaque here. */
  datatype RequestContext = RequestContext(id: nat)

  /** The stream a handler receives: the original stream, or a wrapper that an
      interceptor put around another view and that prefixes every message
      received through it. */
  datatype StreamView = Original | Prefixed(prefix: string, inner: StreamView)

  /** The first input a receiver gets: a decoded message or the stream itself. */
  datatype Input = InMessage(msg: Message) | InStream(stream: StreamView)

  /** The stream a client-side `NewStream` yields, named by its rpc. */
  datatype ClientStream = ClientStream(name: string)

  /** What the terminal handler or an interceptor returns: an optional result
      and an optional error (both may be present). */
  datatype Reply<+R> = Reply(out: Option<R>, err: Option<Error>)

  /** Observable events of one call, in the order they happen. */
  datatype Event =
    | Before(layer: string, rpc: string)        // an interceptor's pre-logic
    | After(layer: string, rpc: string)         // its post-logic
    | Recv                                      // a receive on the server stream
    | Receiver(srv: nat, ctx: RequestContext, in1: Input, in2: StreamView)  // service code runs
    | Send(msg: Message, enc: Encoding)         // a send on the server stream
    | CloseSend                                 // the send side is closed
    | Invoked(rpc: string, input: Message)      // the client's underlying Invoke
    | Opened(rpc: string)                       // the client's underlying NewStream

  /** The trace and the reply of running a handler or a chain. */
  datatype Run<+R> = Run(trace: seq<Event>, reply: Reply<R>)

  /** An event that is not a send or a close-send on the server stream. */
  predicate Quiet(e: Event)
  {
    !e.Send? && !e.CloseSend?
  }

  predicate QuietTrace(t: seq<Event>)
  {
    forall i :: 0 <= i < |t| ==> Quiet(t[i])
  }
}
