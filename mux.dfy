/** The server dispatcher (drpcmux/handle_rpc.go): look up the rpc in the
    mux's table, pick one of four paths (unary chain, stream chain with stream
    input, stream chain with unary input, direct call), run it, and then do
    exactly one of: return the wrapped error, send the result, close the send
    side. The stream is an object with a pending inbound message, the last
    sent message, a closed flag and a log of everything observable. */
module Mux {
  import opened Drpc
  import opened Interceptor

  /** What a registered rpc takes as its first input: the raw stream, a decoded
      message, or a declared type that is not a message at all (the case in
      which creating a fresh message fails). */
  datatype InShape = StreamIn | MessageIn | InvalidIn

  /** What a registered rpc produces: a raw stream or a single message. */
  datatype OutShape = StreamOut | MessageOut

  /** Registration entry (`rpcData`): service instance, encoding, receiver,
      and the input/output shapes in place of reflected types. */
  datatype RpcData = RpcData(
    srv: nat,
    enc: Encoding,
    receiver: (nat, RequestContext, Input, StreamView) -> Reply<Message>,
    in1: InShape,
    out: OutShape)
  {
    /** Unary input and unary output. */
    predicate Unitary()
    {
      in1 != StreamIn && out == MessageOut
    }
  }

  /** The argument of a server unary handler: context and request. */
  datatype UnaryRequest = UnaryRequest(ctx: RequestContext, req: Message)

  type UnaryServerInterceptor = Layer<UnaryRequest, Message>
  type StreamServerInterceptor = Layer<StreamView, Message>

  /** The mux's fields, as a value. */
  datatype MuxConfig = MuxConfig(
    rpcs: map<string, RpcData>,
    unaryInterceptor: Option<Composed<UnaryRequest, Message>>,
    streamInterceptor: Option<Composed<StreamView, Message>>)

  /** The stream's state, as a value. */
  datatype StreamState = StreamState(pending: Option<Message>, sent: Option<Message>, closed: bool, log: seq<Event>)

  // ---------------------------------------------------------------------------
  // The stream's operations, as functions of its state.

  /** Receive through a view: fails on a closed stream or when nothing is
      pending; every wrapper prefixes what comes through it. */
  function RecvOn(v: StreamView, s: StreamState): (r: Result<Message, Error>)
    ensures r.Err? <==> s.closed || s.pending.None?
    ensures v == Original && r.Ok? ==> r.value == s.pending.value
    decreases v
  {
    match v
    case Original =>
      if s.closed then Err(StreamClosed)
      else if s.pending.None? then Err(NoMessage)
      else Ok(s.pending.value)
    case Prefixed(p, inner) =>
      match RecvOn(inner, s)
      case Ok(m) => Ok(Message(p + m.value))
      case Err(e) => Err(e)
  }

  /** Send: refused on a closed stream; the attempt is logged either way. */
  function SendOn(m: Message, enc: Encoding, s: StreamState): (r: (StreamState, Option<Error>))
    ensures r.0.log == s.log + [Send(m, enc)] && r.0.closed == s.closed && r.0.pending == s.pending
    ensures r.1.Some? <==> s.closed
    ensures r.0.sent == if s.closed then s.sent else Some(m)
  {
    if s.closed then (s.(log := s.log + [Send(m, enc)]), Some(StreamClosed))
    else (s.(sent := Some(m), log := s.log + [Send(m, enc)]), None)
  }

  /** Close the send side. */
  function CloseOn(s: StreamState): (r: (StreamState, Option<Error>))
    ensures r.0.closed && r.0.log == s.log + [CloseSend] && r.1.None?
    ensures r.0.pending == s.pending && r.0.sent == s.sent
  {
    (s.(closed := true, log := s.log + [CloseSend]), None)
  }

  // ---------------------------------------------------------------------------
  // msgRecv, the receiver call and the three terminal handlers.

  /** msgRecv: an input type that is not a message fails with an internal error
      before touching the stream; otherwise a receive, its error wrapped. */
  function ReadInput(data: RpcData, v: StreamView, s: StreamState): (r: Result<Message, Error>)
    ensures data.in1 == InvalidIn ==> r == Err(InternalError)
    ensures data.in1 != InvalidIn && r.Err? ==> RecvOn(v, s).Err? && r.error == Wrap(RecvOn(v, s).error)
    ensures data.in1 != InvalidIn && r.Ok? ==> RecvOn(v, s) == r
  {
    if data.in1 == InvalidIn then Err(InternalError)
    else match RecvOn(v, s)
      case Ok(m) => Ok(m)
      case Err(e) => Err(Wrap(e))
  }

  /** The events msgRecv leaves on the stream. */
  function ReadEvents(data: RpcData): (r: seq<Event>)
  {
    if data.in1 == InvalidIn then [] else [Recv]
  }

  /** Call the registered receiver. */
  function Receive(data: RpcData, ctx: RequestContext, in1: Input, in2: StreamView): Run<Message>
  {
    Run([Receiver(data.srv, ctx, in1, in2)], data.receiver(data.srv, ctx, in1, in2))
  }

  /** Terminal of the unary chain: the receiver with the request and context
      the chain hands over, and the original stream. */
  function UnaryTerminal(data: RpcData): UnaryRequest -> Run<Message>
  {
    (r: UnaryRequest) => Receive(data, r.ctx, InMessage(r.req), Original)
  }

  /** Terminal of the stream chain for stream input: the stream the chain
      hands over is both the input and the stream argument. */
  function StreamInTerminal(data: RpcData, ctx: RequestContext): StreamView -> Run<Message>
  {
    v => Receive(data, ctx, InStream(v), v)
  }

  /** Terminal of the stream chain for unary input with stream output: the
      input is read from the stream the chain hands over. */
  function UnaryInTerminal(data: RpcData, ctx: RequestContext, s: StreamState): StreamView -> Run<Message>
  {
    v =>
      match ReadInput(data, v, s)
      case Err(e) => Run(ReadEvents(data), Reply(None, Some(e)))
      case Ok(m) =>
        var r := Receive(data, ctx, InMessage(m), v);
        Run(ReadEvents(data) + r.trace, r.reply)
  }

  // ---------------------------------------------------------------------------
  // The dispatcher as a function of the mux and the stream.

  /** Which path a registered rpc takes. */
  datatype Path = UnaryChain | StreamChainStreamIn | StreamChainUnaryIn | Direct

  function PathOf(cfg: MuxConfig, data: RpcData): (p: Path)
    ensures p == UnaryChain <==> data.Unitary() && cfg.unaryInterceptor.Some?
    ensures p == StreamChainStreamIn <==> !data.Unitary() && cfg.streamInterceptor.Some? && data.in1 == StreamIn
    ensures p == StreamChainUnaryIn <==> !data.Unitary() && cfg.streamInterceptor.Some? && data.in1 != StreamIn
  {
    if data.Unitary() && cfg.unaryInterceptor.Some? then UnaryChain
    else if !data.Unitary() && cfg.streamInterceptor.Some? then
      (if data.in1 == StreamIn then StreamChainStreamIn else StreamChainUnaryIn)
    else Direct
  }

  /** Everything up to the disposition of the result: the events and the
      (result, error) pair the receiver or the outermost interceptor returns. */
  function Serve(cfg: MuxConfig, data: RpcData, rpc: string, ctx: RequestContext, s: StreamState): Run<Message>
  {
    match PathOf(cfg, data)
    case UnaryChain =>
      (match ReadInput(data, Original, s)
       case Err(e) => Run(ReadEvents(data), Reply(None, Some(e)))
       case Ok(m) =>
         var r := Call(cfg.unaryInterceptor.value, rpc, UnaryRequest(ctx, m), UnaryTerminal(data));
         Run(ReadEvents(data) + r.trace, r.reply))
    case StreamChainStreamIn =>
      Call(cfg.streamInterceptor.value, rpc, Original, StreamInTerminal(data, ctx))
    case StreamChainUnaryIn =>
      Call(cfg.streamInterceptor.value, rpc, Original, UnaryInTerminal(data, ctx, s))
    case Direct =>
      if data.in1 == StreamIn then Receive(data, ctx, InStream(Original), Original)
      else
        match ReadInput(data, Original, s)
        case Err(e) => Run(ReadEvents(data), Reply(None, Some(e)))
        case Ok(m) =>
          var r := Receive(data, ctx, InMessage(m), Original);
          Run(ReadEvents(data) + r.trace, r.reply)
  }

  /** The disposition of the result: a wrapped error, else a send of the
      result, else a close of the send side. */
  function Dispose(reply: Reply<Message>, enc: Encoding, s: StreamState): (StreamState, Option<Error>)
  {
    if reply.err.Some? then (s, Some(Wrap(reply.err.value)))
    else if reply.out.Some? then SendOn(reply.out.value, enc, s)
    else CloseOn(s)
  }

  /** HandleRPC as a function: the new stream state and the returned error. */
  function Dispatch(cfg: MuxConfig, ctx: RequestContext, rpc: string, s: StreamState): (StreamState, Option<Error>)
  {
    if rpc !in cfg.rpcs then (s, Some(ProtocolError(rpc)))
    else
      var data := cfg.rpcs[rpc];
      var run := Serve(cfg, data, rpc, ctx, s);
      Dispose(run.reply, data.enc, s.(log := s.log + run.trace))
  }

  // ---------------------------------------------------------------------------
  // The objects.

  class Stream {
    const ctx: RequestContext
    var pending: Option<Message>
    var sent: Option<Message>
    var closed: bool
    var log: seq<Event>

    function State(): StreamState
      reads this
    {
      StreamState(pending, sent, closed, log)
    }

    constructor (ctx: RequestContext, pending: Option<Message>)
      ensures this.ctx == ctx && State() == StreamState(pending, None, false, [])
    {
      this.ctx := ctx;
      this.pending := pending;
      sent := None;
      closed := false;
      log := [];
    }

    method MsgRecv() returns (r: Result<Message, Error>)
      modifies this
      ensures r == RecvOn(Original, old(State()))
      ensures State() == old(State()).(log := old(log) + [Recv])
    {
      log := log + [Recv];
      if closed {
        r := Err(StreamClosed);
      } else if pending.None? {
        r := Err(NoMessage);
      } else {
        r := Ok(pending.value);
      }
    }

    method MsgSend(m: Message, enc: Encoding) returns (err: Option<Error>)
      modifies this
      ensures (State(), err) == SendOn(m, enc, old(State()))
    {
      log := log + [Send(m, enc)];
      if closed {
        err := Some(StreamClosed);
      } else {
        sent := Some(m);
        err := None;
      }
    }

    method CloseSend() returns (err: Option<Error>)
      modifies this
      ensures (State(), err) == CloseOn(old(State()))
    {
      closed := true;
      log := log + [Event.CloseSend];
      err := None;
    }
  }

  class Mux {
    var rpcs: map<string, RpcData>
    var unaryInterceptor: Option<Composed<UnaryRequest, Message>>
    var streamInterceptor: Option<Composed<StreamView, Message>>

    function Config(): MuxConfig
      reads this
    {
      MuxConfig(rpcs, unaryInterceptor, streamInterceptor)
    }

    /** A mux holding the given table and composed interceptors. */
    constructor (cfg: MuxConfig)
      ensures Config() == cfg
    {
      rpcs := cfg.rpcs;
      unaryInterceptor := cfg.unaryInterceptor;
      streamInterceptor := cfg.streamInterceptor;
    }

    /** msgRecv on the original stream. */
    method MsgRecv(data: RpcData, stream: Stream) returns (r: Result<Message, Error>)
      modifies stream
      ensures r == ReadInput(data, Original, old(stream.State()))
      ensures stream.State() == old(stream.State()).(log := old(stream.log) + ReadEvents(data))
    {
      if data.in1 == InvalidIn {
        return Err(InternalError);
      }
      var e := stream.MsgRecv();
      match e
      case Ok(m) => r := Ok(m);
      case Err(err) => r := Err(Wrap(err));
    }

    method HandleRPC(stream: Stream, rpc: string) returns (err: Option<Error>)
      modifies stream
      ensures (stream.State(), err) == Dispatch(Config(), stream.ctx, rpc, old(stream.State()))
    {
      if rpc !in rpcs {
        return Some(ProtocolError(rpc));
      }
      var data := rpcs[rpc];
      ghost var s0 := stream.State();
      var out: Option<Message> := None;
      var e: Option<Error> := None;
      if data.Unitary() && unaryInterceptor.Some? {
        var input := MsgRecv(data, stream);
        if input.Err? {
          e := Some(input.error);
        } else {
          var run := Call(unaryInterceptor.value, rpc, UnaryRequest(stream.ctx, input.value), UnaryTerminal(data));
          stream.log := stream.log + run.trace;
          out, e := run.reply.out, run.reply.err;
        }
      } else if !data.Unitary() && streamInterceptor.Some? {
        var handler;
        if data.in1 == StreamIn {
          handler := StreamInTerminal(data, stream.ctx);
        } else {
          handler := UnaryInTerminal(data, stream.ctx, stream.State());
        }
        var run := Call(streamInterceptor.value, rpc, Original, handler);
        stream.log := stream.log + run.trace;
        out, e := run.reply.out, run.reply.err;
      } else {
        var in1 := InStream(Original);
        if data.in1 != StreamIn {
          var input := MsgRecv(data, stream);
          if input.Err? {
            e := Some(input.error);
          } else {
            in1 := InMessage(input.value);
          }
        }
        if e.None? {
          var run := Receive(data, stream.ctx, in1, Original);
          stream.log := stream.log + run.trace;
          out, e := run.reply.out, run.reply.err;
        }
      }
      assert stream.State() == s0.(log := s0.log + Serve(Config(), data, rpc, stream.ctx, s0).trace);
      assert Reply(out, e) == Serve(Config(), data, rpc, stream.ctx, s0).reply;
      if e.Some? {
        err := Some(Wrap(e.value));
      } else if out.Some? {
        err := stream.MsgSend(out.value, data.enc);
      } else {
        err := stream.CloseSend();
      }
    }
  }
}
