/** The client connection (drpcclient/clientconn.go): a connection plus dial
    options; calls and stream opens go through the composed client
    interceptor when there is one, else straight to the connection. */
module Client {
  import opened Drpc
  import opened Interceptor
  import opened Dial

  /** The underlying connection: what Invoke fills the response with (or the
      error it fails with), and what NewStream yields. */
  datatype Conn = Conn(invoke: Invocation -> Reply<Message>, newStream: StreamRequest -> Reply<ClientStream>)

  /** finalInvoker: the call reaches the connection. */
  function FinalInvoker(conn: Conn): Invocation -> Run<Message>
  {
    (c: Invocation) => Run([Invoked(c.rpc, c.req)], conn.invoke(c))
  }

  /** finalStreamer: the stream open reaches the connection. */
  function FinalStreamer(conn: Conn): StreamRequest -> Run<ClientStream>
  {
    (r: StreamRequest) => Run([Opened(r.rpc)], conn.newStream(r))
  }

  /** A client interceptor sees the rpc name of the arguments it is called
      with, which an outer interceptor may have changed. */
  function InvokedRpc(c: Invocation): string { c.rpc }
  function OpenedRpc(r: StreamRequest): string { r.rpc }

  /** A call through an optional composed client interceptor: none calls the
      final handler, one interceptor runs around it, a chain runs as the
      nested layers. */
  function Intercept<A, R>(c: Option<Composed<A, R>>, see: A -> string, a: A, h: A -> Run<R>): Run<R>
  {
    match c
    case None => h(a)
    case Some(Plain(l)) => Apply(l, see(a), a, h)
    case Some(Chain(ls)) => Onion(ls, see, a, h)
  }

  /** Whatever the list, the composed client interceptor behaves as the nested
      layers, the first one outermost. */
  lemma {:induction false} InterceptIsOnion<A, R>(ls: seq<Layer<A, R>>, see: A -> string, a: A, h: A -> Run<R>)
    ensures Intercept(ChainInterceptors(ls), see, a, h) == Onion(ls, see, a, h)
  {
    if |ls| == 1 {
      match ls[0]
      case Forward(_, rewrite, _) =>
        assert Onion(ls[1..], see, rewrite(a), h) == h(rewrite(a));
      case ShortCircuit(_, _) =>
    }
  }

  /** The composed chain as written: a handler built from the innermost
      interceptor outwards, each one closing over the handler built before it,
      then called with the arguments. */
  method RunChain<A(!new), R>(ls: seq<Layer<A, R>>, see: A -> string, a: A, h: A -> Run<R>) returns (r: Run<R>)
    ensures r == Onion(ls, see, a, h)
  {
    var chained := h;
    var i := |ls|;
    while i > 0
      invariant 0 <= i <= |ls|
      invariant forall x :: chained(x) == Onion(ls[i..], see, x, h)
    {
      i := i - 1;
      var next := chained;
      var l := ls[i];
      chained := x => Apply(l, see(x), x, next);
      forall x ensures chained(x) == Onion(ls[i..], see, x, h) {
        assert ls[i..][0] == l;
        assert ls[i..][1..] == ls[i + 1..];
        match l
        case Forward(_, rewrite, _) => assert next(rewrite(x)) == Onion(ls[i + 1..], see, rewrite(x), h);
        case ShortCircuit(_, _) =>
      }
    }
    r := chained(a);
  }

  /** The onion law on the client: with every interceptor forwarding, each
      one's pre-logic outermost first (each seeing the rpc name as rewritten
      by those outside it), then the connection called with every rewrite
      applied, then the post-logic innermost first. */
  lemma {:induction false} InvokeOrder(conn: Conn, ls: seq<UnaryClientInterceptor>, c: Invocation)
    requires Forwarding(ls)
    ensures var th := Thread(ls, c);
            Onion(ls, InvokedRpc, c, FinalInvoker(conn))
            == Run(Befores(ls, InvokedRpc, c) + [Invoked(th.rpc, th.req)] + Afters(ls, InvokedRpc, c),
                   Decide(ls, conn.invoke(th)))
  {
    OnionForwarding(ls, InvokedRpc, c, FinalInvoker(conn));
  }

  /** With pass-through interceptors the caller gets exactly what the
      connection returned for the (rewritten) call. */
  lemma {:induction false} InvokeForwardsReply(conn: Conn, ls: seq<UnaryClientInterceptor>, c: Invocation)
    requires Transparent(ls)
    ensures Forwarding(ls)
    ensures Onion(ls, InvokedRpc, c, FinalInvoker(conn)).reply == conn.invoke(Thread(ls, c))
  {
    TransparentDecide(ls, conn.invoke(Thread(ls, c)));
    InvokeOrder(conn, ls, c);
  }

  class ClientConn {
    const conn: Conn
    const dopts: DialOptions

    /** The composed interceptors are the ones built from the lists. */
    ghost predicate Valid()
      reads this, dopts
    {
      dopts.unaryInt == ChainInterceptors(dopts.unaryInts)
      && dopts.streamInt == ChainInterceptors(dopts.streamInts)
    }

    /** Default options, then every option in order, then the chains; never
      fails. */
    constructor NewClientConnWithOptions(ctx: RequestContext, conn: Conn, opts: seq<DialOption>)
      ensures this.conn == conn && fresh(dopts)
      ensures dopts.unaryInts == UnaryInts(opts) && dopts.streamInts == StreamInts(opts)
      ensures Valid()
    {
      var d := new DialOptions.Default();
      var i := 0;
      while i < |opts|
        invariant 0 <= i <= |opts|
        invariant d.unaryInts == UnaryInts(opts[..i]) && d.streamInts == StreamInts(opts[..i])
      {
        d.Apply(opts[i]);
        IntsAppend(opts[..i], [opts[i]]);
        assert opts[..i + 1] == opts[..i] + [opts[i]];
        i := i + 1;
      }
      assert opts[..|opts|] == opts;
      this.conn := conn;
      dopts := d;
      new;
      InitInterceptors();
    }

    method InitInterceptors()
      modifies dopts
      ensures Valid()
      ensures dopts.unaryInts == old(dopts.unaryInts) && dopts.streamInts == old(dopts.streamInts)
    {
      ChainUnaryClientInterceptors();
      ChainStreamClientInterceptors();
    }

    /** chainUnaryClientInterceptors: none, the one interceptor, or a chain. */
    method ChainUnaryClientInterceptors()
      modifies dopts
      ensures dopts.unaryInt == ChainInterceptors(dopts.unaryInts)
      ensures dopts.unaryInts == old(dopts.unaryInts) && dopts.streamInts == old(dopts.streamInts)
      ensures dopts.streamInt == old(dopts.streamInt)
    {
      var n := |dopts.unaryInts|;
      if n == 0 {
        dopts.unaryInt := None;
      } else if n == 1 {
        dopts.unaryInt := Some(Plain(dopts.unaryInts[0]));
      } else {
        dopts.unaryInt := Some(Chain(dopts.unaryInts));
      }
    }

    /** chainStreamClientInterceptors: none, the one interceptor, or a chain. */
    method ChainStreamClientInterceptors()
      modifies dopts
      ensures dopts.streamInt == ChainInterceptors(dopts.streamInts)
      ensures dopts.unaryInts == old(dopts.unaryInts) && dopts.streamInts == old(dopts.streamInts)
      ensures dopts.unaryInt == old(dopts.unaryInt)
    {
      var n := |dopts.streamInts|;
      if n == 0 {
        dopts.streamInt := None;
      } else if n == 1 {
        dopts.streamInt := Some(Plain(dopts.streamInts[0]));
      } else {
        dopts.streamInt := Some(Chain(dopts.streamInts));
      }
    }

    /** A unary call: through the composed interceptor if there is one,
      else straight to the connection; on a connection built from options,
      the interceptors from the options nested around the connection. */
    method Invoke(ctx: RequestContext, rpc: string, enc: Encoding, req: Message) returns (r: Run<Message>)
      ensures r == Intercept(dopts.unaryInt, InvokedRpc, Invocation(ctx, rpc, enc, req), FinalInvoker(conn))
      ensures Valid() ==> r == Onion(dopts.unaryInts, InvokedRpc, Invocation(ctx, rpc, enc, req), FinalInvoker(conn))
    {
      var c := Invocation(ctx, rpc, enc, req);
      match dopts.unaryInt
      case None => r := FinalInvoker(conn)(c);
      case Some(Plain(l)) => r := Apply(l, rpc, c, FinalInvoker(conn));
      case Some(Chain(ls)) => r := RunChain(ls, InvokedRpc, c, FinalInvoker(conn));
      if Valid() {
        InterceptIsOnion(dopts.unaryInts, InvokedRpc, c, FinalInvoker(conn));
      }
    }

    /** A stream open: through the composed stream interceptor if there is
      one, else straight to the connection. */
    method NewStream(ctx: RequestContext, rpc: string, enc: Encoding) returns (r: Run<ClientStream>)
      ensures r == Intercept(dopts.streamInt, OpenedRpc, StreamRequest(ctx, rpc, enc), FinalStreamer(conn))
      ensures Valid() ==> r == Onion(dopts.streamInts, OpenedRpc, StreamRequest(ctx, rpc, enc), FinalStreamer(conn))
    {
      var q := StreamRequest(ctx, rpc, enc);
      match dopts.streamInt
      case None => r := FinalStreamer(conn)(q);
      case Some(Plain(l)) => r := Apply(l, rpc, q, FinalStreamer(conn));
      case Some(Chain(ls)) => r := RunChain(ls, OpenedRpc, q, FinalStreamer(conn));
      if Valid() {
        InterceptIsOnion(dopts.streamInts, OpenedRpc, q, FinalStreamer(conn));
      }
    }
  }
}
