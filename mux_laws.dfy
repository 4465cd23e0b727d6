/** What the dispatcher promises, stated on `Dispatch` (which `Mux.HandleRPC`
    is proved to compute): the error for an unknown rpc, the disposition of
    the result exactly once, the interceptor chain selected by the rpc's
    shape, the onion law through the dispatcher on every path, and what a
    failed receive does on each path. */
module MuxLaws {
  import opened Drpc
  import opened Interceptor
  import opened Mux

  // ---------------------------------------------------------------------------
  // Counting sends and close-sends in a trace.

  ghost function Disposals(t: seq<Event>): nat
    decreases |t|
  {
    if |t| == 0 then 0 else Disposals(t[..|t| - 1]) + (if Quiet(t[|t| - 1]) then 0 else 1)
  }

  lemma {:induction false} DisposalsAppend(a: seq<Event>, b: seq<Event>)
    ensures Disposals(a + b) == Disposals(a) + Disposals(b)
    decreases |b|
  {
    if |b| > 0 {
      assert (a + b)[..|a + b| - 1] == a + b[..|b| - 1];
      DisposalsAppend(a, b[..|b| - 1]);
    } else {
      assert a + b == a;
    }
  }

  lemma {:induction false} QuietNoDisposals(t: seq<Event>)
    requires QuietTrace(t)
    ensures Disposals(t) == 0
    decreases |t|
  {
    if |t| > 0 {
      var init := t[..|t| - 1];
      assert QuietTrace(init) by {
        forall i | 0 <= i < |init| ensures Quiet(init[i]) { assert init[i] == t[i]; }
      }
      QuietNoDisposals(init);
    }
  }

  // ---------------------------------------------------------------------------
  // Nothing before the disposition sends or closes.

  lemma {:induction false} ReceiveQuiet(data: RpcData, ctx: RequestContext, in1: Input, in2: StreamView)
    ensures QuietTrace(Receive(data, ctx, in1, in2).trace)
  {
    assert Receive(data, ctx, in1, in2).trace == [Receiver(data.srv, ctx, in1, in2)];
  }

  lemma {:induction false} TerminalsQuiet(data: RpcData, ctx: RequestContext, s: StreamState)
    ensures forall x :: QuietTrace(UnaryTerminal(data)(x).trace)
    ensures forall v :: QuietTrace(StreamInTerminal(data, ctx)(v).trace)
    ensures forall v :: QuietTrace(UnaryInTerminal(data, ctx, s)(v).trace)
  {
    forall x: UnaryRequest ensures QuietTrace(UnaryTerminal(data)(x).trace) {
      ReceiveQuiet(data, x.ctx, InMessage(x.req), Original);
    }
    forall v: StreamView ensures QuietTrace(StreamInTerminal(data, ctx)(v).trace) {
      ReceiveQuiet(data, ctx, InStream(v), v);
    }
    forall v: StreamView ensures QuietTrace(UnaryInTerminal(data, ctx, s)(v).trace) {
      match ReadInput(data, v, s)
      case Err(_) =>
      case Ok(m) =>
        ReceiveQuiet(data, ctx, InMessage(m), v);
        var t := ReadEvents(data) + Receive(data, ctx, InMessage(m), v).trace;
        assert forall i :: 0 <= i < |t| ==> t[i] == Recv || t[i].Receiver?;
    }
  }

  /** Interceptors and receivers neither send nor close on the stream. */
  lemma {:induction false} ServeQuiet(cfg: MuxConfig, data: RpcData, rpc: string, ctx: RequestContext, s: StreamState)
    ensures QuietTrace(Serve(cfg, data, rpc, ctx, s).trace)
  {
    TerminalsQuiet(data, ctx, s);
    match PathOf(cfg, data)
    case UnaryChain => {
      match ReadInput(data, Original, s)
      case Err(_) =>
      case Ok(m) =>
        var r := Call(cfg.unaryInterceptor.value, rpc, UnaryRequest(ctx, m), UnaryTerminal(data));
        CallQuiet(cfg.unaryInterceptor.value, rpc, UnaryRequest(ctx, m), UnaryTerminal(data));
        var t := ReadEvents(data) + r.trace;
        assert forall i :: |ReadEvents(data)| <= i < |t| ==> t[i] == r.trace[i - |ReadEvents(data)|];
    }
    case StreamChainStreamIn =>
      CallQuiet(cfg.streamInterceptor.value, rpc, Original, StreamInTerminal(data, ctx));
    case StreamChainUnaryIn =>
      CallQuiet(cfg.streamInterceptor.value, rpc, Original, UnaryInTerminal(data, ctx, s));
    case Direct =>
      if data.in1 != StreamIn {
        match ReadInput(data, Original, s)
        case Err(_) =>
        case Ok(m) =>
          var t := ReadEvents(data) + Receive(data, ctx, InMessage(m), Original).trace;
          assert forall i :: 0 <= i < |t| ==> t[i] == Recv || t[i].Receiver?;
      }
  }

  // ---------------------------------------------------------------------------
  // The disposition.

  /** A known rpc is disposed of exactly once: an error from the handler side
      is returned wrapped with no send and no close; otherwise exactly one send
      (of the result, refused only on a closed stream) or one close-send. */
  lemma {:induction false} DisposedExactlyOnce(cfg: MuxConfig, ctx: RequestContext, rpc: string, s: StreamState)
    requires rpc in cfg.rpcs
    ensures var run := Serve(cfg, cfg.rpcs[rpc], rpc, ctx, s);
            var r := Dispatch(cfg, ctx, rpc, s);
            && Disposals(r.0.log) == Disposals(s.log) + (if run.reply.err.Some? then 0 else 1)
            && (run.reply.err.Some? ==> r.1 == Some(Wrap(run.reply.err.value)) && r.0.closed == s.closed)
            && (run.reply.err.None? && run.reply.out.Some? ==>
                  (r.1.Some? <==> s.closed) && r.0.closed == s.closed
                  && r.0.log[|r.0.log| - 1] == Send(run.reply.out.value, cfg.rpcs[rpc].enc)
                  && (!s.closed ==> r.0.sent == run.reply.out))
            && (run.reply.err.None? && run.reply.out.None? ==> r.1.None? && r.0.closed)
  {
    var data := cfg.rpcs[rpc];
    var run := Serve(cfg, data, rpc, ctx, s);
    ServeQuiet(cfg, data, rpc, ctx, s);
    QuietNoDisposals(run.trace);
    DisposalsAppend(s.log, run.trace);
    var s1 := s.(log := s.log + run.trace);
    if run.reply.err.None? {
      var last := if run.reply.out.Some? then Send(run.reply.out.value, data.enc) else Event.CloseSend;
      DisposalsAppend(s1.log, [last]);
      assert Disposals([last]) == 1 by { assert [last][..0] == []; }
    }
  }

  /** On every completed dispatch the stream's earlier log is kept and its
      pending message is not consumed by the model's view of the stream. */
  lemma {:induction false} DispatchExtendsLog(cfg: MuxConfig, ctx: RequestContext, rpc: string, s: StreamState)
    ensures var r := Dispatch(cfg, ctx, rpc, s); s.log <= r.0.log && r.0.pending == s.pending
    ensures rpc !in cfg.rpcs ==> Dispatch(cfg, ctx, rpc, s) == (s, Some(ProtocolError(rpc)))
  {
    if rpc in cfg.rpcs {
      var data := cfg.rpcs[rpc];
      var run := Serve(cfg, data, rpc, ctx, s);
      var s1 := s.(log := s.log + run.trace);
      assert s.log <= s1.log;
    }
  }

  // ---------------------------------------------------------------------------
  // Chain selection.

  /** Unitary rpcs never use the stream chain, the others never the unary
      chain. */
  lemma {:induction false} ChainSelection(cfg: MuxConfig, ctx: RequestContext, rpc: string, s: StreamState,
                                          u: Option<Composed<UnaryRequest, Message>>,
                                          st: Option<Composed<StreamView, Message>>)
    requires rpc in cfg.rpcs
    ensures cfg.rpcs[rpc].Unitary() ==> Dispatch(cfg.(streamInterceptor := st), ctx, rpc, s) == Dispatch(cfg, ctx, rpc, s)
    ensures !cfg.rpcs[rpc].Unitary() ==> Dispatch(cfg.(unaryInterceptor := u), ctx, rpc, s) == Dispatch(cfg, ctx, rpc, s)
  {
    var data := cfg.rpcs[rpc];
    if data.Unitary() {
      assert Serve(cfg.(streamInterceptor := st), data, rpc, ctx, s) == Serve(cfg, data, rpc, ctx, s);
    } else {
      assert Serve(cfg.(unaryInterceptor := u), data, rpc, ctx, s) == Serve(cfg, data, rpc, ctx, s);
    }
  }

  // ---------------------------------------------------------------------------
  // The four paths.

  /** Unary chain: one receive, then the onion around the receiver, which gets
      the request and context the chain hands it and the original stream; the
      reply disposed of is the outermost replacement or the receiver's. */
  lemma {:induction false} UnaryChainDispatch(cfg: MuxConfig, ctx: RequestContext, rpc: string, s: StreamState,
                                              ls: seq<UnaryServerInterceptor>, m: Message)
    requires rpc in cfg.rpcs && cfg.rpcs[rpc].Unitary()
    requires |ls| > 0 && cfg.unaryInterceptor == ChainInterceptors(ls) && Forwarding(ls)
    requires ReadInput(cfg.rpcs[rpc], Original, s) == Ok(m)
    ensures var data := cfg.rpcs[rpc];
            var th := Thread(ls, UnaryRequest(ctx, m));
            var reply := data.receiver(data.srv, th.ctx, InMessage(th.req), Original);
            Dispatch(cfg, ctx, rpc, s)
            == Dispose(Decide(ls, reply), data.enc,
                       s.(log := s.log + [Recv] + BeforeAll(ls, rpc) + [Receiver(data.srv, th.ctx, InMessage(th.req), Original)]
                                       + AfterAll(ls, rpc)))
  {
    var data := cfg.rpcs[rpc];
    var th := Thread(ls, UnaryRequest(ctx, m));
    assert PathOf(cfg, data) == UnaryChain;
    ChainOrder(ls, rpc, UnaryRequest(ctx, m), UnaryTerminal(data));
    var call := Receiver(data.srv, th.ctx, InMessage(th.req), Original);
    assert UnaryTerminal(data)(th).trace == [call];
    assert ReadEvents(data) == [Recv];
    assert Serve(cfg, data, rpc, ctx, s).trace == [Recv] + (BeforeAll(ls, rpc) + [call] + AfterAll(ls, rpc));
    var run := Serve(cfg, data, rpc, ctx, s);
    assert run.reply == Decide(ls, data.receiver(data.srv, th.ctx, InMessage(th.req), Original));
    assert s.log + run.trace == s.log + [Recv] + BeforeAll(ls, rpc) + [call] + AfterAll(ls, rpc);
  }

  /** Stream chain, stream input: no receive by the dispatcher; the receiver
      gets the stream the chain hands it as both of its inputs. */
  lemma {:induction false} StreamInDispatch(cfg: MuxConfig, ctx: RequestContext, rpc: string, s: StreamState,
                                            ls: seq<StreamServerInterceptor>)
    requires rpc in cfg.rpcs && cfg.rpcs[rpc].in1 == StreamIn
    requires |ls| > 0 && cfg.streamInterceptor == ChainInterceptors(ls) && Forwarding(ls)
    ensures var data := cfg.rpcs[rpc];
            var v := Thread(ls, Original);
            Dispatch(cfg, ctx, rpc, s)
            == Dispose(Decide(ls, data.receiver(data.srv, ctx, InStream(v), v)), data.enc,
                       s.(log := s.log + BeforeAll(ls, rpc) + [Receiver(data.srv, ctx, InStream(v), v)] + AfterAll(ls, rpc)))
  {
    var data := cfg.rpcs[rpc];
    assert PathOf(cfg, data) == StreamChainStreamIn;
    ChainOrder(ls, rpc, Original, StreamInTerminal(data, ctx));
    var v := Thread(ls, Original);
    var run := Serve(cfg, data, rpc, ctx, s);
    assert run.trace == BeforeAll(ls, rpc) + [Receiver(data.srv, ctx, InStream(v), v)] + AfterAll(ls, rpc);
    assert s.log + run.trace == s.log + BeforeAll(ls, rpc) + [Receiver(data.srv, ctx, InStream(v), v)] + AfterAll(ls, rpc);
  }

  /** Stream chain, unary input: the input is received inside the chain,
      through the stream the chain hands on, so a wrapper installed by an
      interceptor sees (and can change) the input. */
  lemma {:induction false} UnaryInStreamOutDispatch(cfg: MuxConfig, ctx: RequestContext, rpc: string, s: StreamState,
                                                    ls: seq<StreamServerInterceptor>, m: Message)
    requires rpc in cfg.rpcs && cfg.rpcs[rpc].in1 == MessageIn && cfg.rpcs[rpc].out == StreamOut
    requires |ls| > 0 && cfg.streamInterceptor == ChainInterceptors(ls) && Forwarding(ls)
    requires RecvOn(Thread(ls, Original), s) == Ok(m)
    ensures var data := cfg.rpcs[rpc];
            var v := Thread(ls, Original);
            Dispatch(cfg, ctx, rpc, s)
            == Dispose(Decide(ls, data.receiver(data.srv, ctx, InMessage(m), v)), data.enc,
                       s.(log := s.log + BeforeAll(ls, rpc) + [Recv, Receiver(data.srv, ctx, InMessage(m), v)] + AfterAll(ls, rpc)))
  {
    var data := cfg.rpcs[rpc];
    var v := Thread(ls, Original);
    assert PathOf(cfg, data) == StreamChainUnaryIn;
    ChainOrder(ls, rpc, Original, UnaryInTerminal(data, ctx, s));
    assert UnaryInTerminal(data, ctx, s)(v).trace == [Recv, Receiver(data.srv, ctx, InMessage(m), v)];
    assert BeforeAll(ls, rpc) + UnaryInTerminal(data, ctx, s)(v).trace + AfterAll(ls, rpc)
        == BeforeAll(ls, rpc) + [Recv, Receiver(data.srv, ctx, InMessage(m), v)] + AfterAll(ls, rpc);
    var run := Serve(cfg, data, rpc, ctx, s);
    assert s.log + run.trace == s.log + BeforeAll(ls, rpc) + [Recv, Receiver(data.srv, ctx, InMessage(m), v)] + AfterAll(ls, rpc);
  }

  /** Every prefix a nest of wrappers adds, the outermost wrapper's first. */
  function Prefixes(v: StreamView): string
    decreases v
  {
    match v
    case Original => ""
    case Prefixed(p, inner) => p + Prefixes(inner)
  }

  /** A receive through any nest of prefixing wrappers fails as the stream
      itself does, and otherwise yields the stream's message with every prefix
      in front, the outermost wrapper's first. */
  lemma {:induction false} RecvThroughWrappers(v: StreamView, s: StreamState)
    ensures RecvOn(v, s)
         == if s.closed then Err(StreamClosed)
            else if s.pending.None? then Err(NoMessage)
            else Ok(Message(Prefixes(v) + s.pending.value.value))
    decreases v
  {
    match v
    case Original =>
      if s.pending.Some? {
        assert Prefixes(v) + s.pending.value.value == s.pending.value.value;
      }
    case Prefixed(p, inner) =>
      RecvThroughWrappers(inner, s);
      if !s.closed && s.pending.Some? {
        assert p + (Prefixes(inner) + s.pending.value.value) == (p + Prefixes(inner)) + s.pending.value.value;
      }
  }

  /** An interceptor of the unary chain that fails without calling its
      handler ends the dispatch: the input has been received, the pre-logic
      of the layers up to it and the post-logic of those outside it run, the
      receiver never does, nothing is sent or closed, and the interceptor's
      error is returned wrapped. */
  lemma {:induction false} UnaryShortCircuitDispatch(cfg: MuxConfig, ctx: RequestContext, rpc: string, s: StreamState,
                                                     ls: seq<UnaryServerInterceptor>, k: nat, m: Message)
    requires rpc in cfg.rpcs && cfg.rpcs[rpc].Unitary()
    requires k < |ls| && cfg.unaryInterceptor == ChainInterceptors(ls)
    requires Transparent(ls[..k]) && ls[k].ShortCircuit?
    requires ReadInput(cfg.rpcs[rpc], Original, s) == Ok(m)
    ensures Dispatch(cfg, ctx, rpc, s)
         == (s.(log := s.log + [Recv] + BeforeAll(ls[..k + 1], rpc) + AfterAll(ls[..k], rpc)), Some(Wrap(ls[k].err)))
  {
    var data := cfg.rpcs[rpc];
    assert PathOf(cfg, data) == UnaryChain;
    ChainShortCircuit(ls, k, rpc, UnaryRequest(ctx, m), UnaryTerminal(data));
    assert ReadEvents(data) == [Recv];
    var run := Serve(cfg, data, rpc, ctx, s);
    assert s.log + run.trace == s.log + [Recv] + BeforeAll(ls[..k + 1], rpc) + AfterAll(ls[..k], rpc);
  }

  /** The same for the stream chain, whatever the input shape: the
      dispatcher receives nothing before the chain, and a failing interceptor
      keeps the receive inside the chain (and the receiver) from happening. */
  lemma {:induction false} StreamShortCircuitDispatch(cfg: MuxConfig, ctx: RequestContext, rpc: string, s: StreamState,
                                                      ls: seq<StreamServerInterceptor>, k: nat)
    requires rpc in cfg.rpcs && !cfg.rpcs[rpc].Unitary()
    requires k < |ls| && cfg.streamInterceptor == ChainInterceptors(ls)
    requires Transparent(ls[..k]) && ls[k].ShortCircuit?
    ensures Dispatch(cfg, ctx, rpc, s)
         == (s.(log := s.log + BeforeAll(ls[..k + 1], rpc) + AfterAll(ls[..k], rpc)), Some(Wrap(ls[k].err)))
  {
    var data := cfg.rpcs[rpc];
    if data.in1 == StreamIn {
      assert PathOf(cfg, data) == StreamChainStreamIn;
      ChainShortCircuit(ls, k, rpc, Original, StreamInTerminal(data, ctx));
    } else {
      assert PathOf(cfg, data) == StreamChainUnaryIn;
      ChainShortCircuit(ls, k, rpc, Original, UnaryInTerminal(data, ctx, s));
    }
    var run := Serve(cfg, data, rpc, ctx, s);
    assert s.log + run.trace == s.log + BeforeAll(ls[..k + 1], rpc) + AfterAll(ls[..k], rpc);
  }

  /** A receive that fails inside a pass-through stream chain: every layer's
      pre- and post-logic runs, the receiver does not, and the wrapped receive
      error comes back wrapped once more. */
  lemma {:induction false} ReceiveFailureInChain(cfg: MuxConfig, ctx: RequestContext, rpc: string, s: StreamState,
                                                 ls: seq<StreamServerInterceptor>)
    requires rpc in cfg.rpcs && !cfg.rpcs[rpc].Unitary() && cfg.rpcs[rpc].in1 != StreamIn
    requires |ls| > 0 && cfg.streamInterceptor == ChainInterceptors(ls) && Transparent(ls)
    requires Forwarding(ls) && ReadInput(cfg.rpcs[rpc], Thread(ls, Original), s).Err?
    ensures var data := cfg.rpcs[rpc];
            Dispatch(cfg, ctx, rpc, s)
            == (s.(log := s.log + BeforeAll(ls, rpc) + ReadEvents(data) + AfterAll(ls, rpc)),
                Some(Wrap(ReadInput(data, Thread(ls, Original), s).error)))
  {
    var data := cfg.rpcs[rpc];
    var v := Thread(ls, Original);
    assert PathOf(cfg, data) == StreamChainUnaryIn;
    ChainOrder(ls, rpc, Original, UnaryInTerminal(data, ctx, s));
    TransparentDecide(ls, UnaryInTerminal(data, ctx, s)(v).reply);
    var run := Serve(cfg, data, rpc, ctx, s);
    assert run.reply == Reply(None, Some(ReadInput(data, v, s).error));
    assert s.log + run.trace == s.log + BeforeAll(ls, rpc) + ReadEvents(data) + AfterAll(ls, rpc);
  }

  /** A receive that fails before any interceptor or the receiver runs (the
      unary chain and the direct call): only the receive is logged and the
      stream's error comes back wrapped twice; a declared input type that is
      not a message fails with a wrapped internal error before any receive. */
  lemma {:induction false} ReceiveFailureUpFront(cfg: MuxConfig, ctx: RequestContext, rpc: string, s: StreamState)
    requires rpc in cfg.rpcs && cfg.rpcs[rpc].in1 != StreamIn
    requires PathOf(cfg, cfg.rpcs[rpc]) == UnaryChain || PathOf(cfg, cfg.rpcs[rpc]) == Direct
    requires cfg.rpcs[rpc].in1 == InvalidIn || s.closed || s.pending.None?
    ensures cfg.rpcs[rpc].in1 == InvalidIn ==> Dispatch(cfg, ctx, rpc, s) == (s, Some(Wrap(InternalError)))
    ensures cfg.rpcs[rpc].in1 == MessageIn ==>
              var e := if s.closed then StreamClosed else NoMessage;
              Dispatch(cfg, ctx, rpc, s) == (s.(log := s.log + [Recv]), Some(Wrap(Wrap(e))))
  {
    assert s.(log := s.log + []) == s;
  }

  /** Direct call: exactly the receive (for a unary input) and the receiver,
      with no interceptor event. */
  lemma {:induction false} DirectDispatch(cfg: MuxConfig, ctx: RequestContext, rpc: string, s: StreamState)
    requires rpc in cfg.rpcs && PathOf(cfg, cfg.rpcs[rpc]) == Direct
    requires cfg.rpcs[rpc].in1 == StreamIn || (cfg.rpcs[rpc].in1 == MessageIn && !s.closed && s.pending.Some?)
    ensures var data := cfg.rpcs[rpc];
            var in1 := if data.in1 == StreamIn then InStream(Original) else InMessage(s.pending.value);
            var pre := if data.in1 == StreamIn then [] else [Recv];
            Dispatch(cfg, ctx, rpc, s)
            == Dispose(data.receiver(data.srv, ctx, in1, Original), data.enc,
                       s.(log := s.log + pre + [Receiver(data.srv, ctx, in1, Original)]))
  {
    var data := cfg.rpcs[rpc];
    if data.in1 == StreamIn {
      assert s.log + [] == s.log;
    } else {
      assert ReadInput(data, Original, s) == Ok(s.pending.value);
      var run := Serve(cfg, data, rpc, ctx, s);
      assert run.trace == [Recv] + [Receiver(data.srv, ctx, InMessage(s.pending.value), Original)];
      assert s.log + run.trace == s.log + [Recv] + [Receiver(data.srv, ctx, InMessage(s.pending.value), Original)];
    }
  }
}
