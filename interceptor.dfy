/** Interceptor chaining (drpcmux/interceptor.go), for the unary and the stream
    flavour at once: `A` is what a layer receives and hands on (a request with
    its context, or a stream view), `R` is the result type.

    An interceptor is described by what it does rather than by an arbitrary
    closure: it either forwards to `next` (recording its pre- and post-logic,
    possibly rewriting what it hands on and possibly replacing the reply), or
    it short-circuits with an error without calling `next`. */
module Interceptor {
  import opened Drpc

  datatype Layer<!A, R> =
    | Forward(name: string, rewrite: A -> A, override: Option<Reply<R>>)
    | ShortCircuit(name: string, err: Error)

  /** The single interceptor a list composes to: the one element itself, or a
      wrapper closing over the whole list. */
  datatype Composed<!A, R> = Plain(layer: Layer<A, R>) | Chain(layers: seq<Layer<A, R>>)

  /** Run one layer on argument `a`, seeing rpc name `rpc`, with `next` as the
      rest of the chain. */
  function Apply<A, R>(l: Layer<A, R>, rpc: string, a: A, next: A -> Run<R>): Run<R>
  {
    match l
    case Forward(name, rewrite, override) =>
      var inner := next(rewrite(a));
      Run([Before(name, rpc)] + inner.trace + [After(name, rpc)],
          if override.Some? then override.value else inner.reply)
    case ShortCircuit(name, err) =>
      Run([Before(name, rpc)], Reply(None, Some(err)))
  }

  /** Reference semantics: the layers nested around the terminal handler `h`,
      the first layer outermost. `see` gives the rpc name a layer observes in
      its argument. */
  function Onion<A, R>(ls: seq<Layer<A, R>>, see: A -> string, a: A, h: A -> Run<R>): Run<R>
    decreases |ls|
  {
    if |ls| == 0 then h(a)
    else Apply(ls[0], see(a), a, x => Onion(ls[1..], see, x, h))
  }

  /** A pass-through interceptor: it records its pre- and post-logic and
      changes nothing. */
  function Pass<A, R>(name: string): Layer<A, R>
  {
    Forward(name, (a: A) => a, None)
  }

  /** On the server every layer sees the one rpc name the chain was called with. */
  function Fixed<A>(rpc: string): A -> string
  {
    _ => rpc
  }

  // ---------------------------------------------------------------------------
  // The composer as written: a switch on the length, and a handler built by
  // recursion on an index into the list.

  /** chainUnaryInterceptors / chainStreamInterceptors. */
  function ChainInterceptors<A, R>(ls: seq<Layer<A, R>>): (r: Option<Composed<A, R>>)
    ensures r.None? <==> |ls| == 0
    ensures |ls| == 1 ==> r == Some(Plain(ls[0]))
  {
    match |ls|
    case 0 => None
    case 1 => Some(Plain(ls[0]))
    case _ => Some(Chain(ls))
  }

  /** getChainedUnaryHandler / getChainedStreamHandler: the terminal at index
      `|ls|`, otherwise layer `i` with the handler for `i + 1` as its next. */
  function Chained<A, R>(ls: seq<Layer<A, R>>, i: nat, rpc: string, h: A -> Run<R>): A -> Run<R>
    requires i <= |ls|
    decreases |ls| - i
  {
    if i == |ls| then h
    else a => Apply(ls[i], rpc, a, Chained(ls, i + 1, rpc, h))
  }

  /** Call a composed interceptor with rpc name `rpc` and terminal handler `h`. */
  function Call<A, R>(c: Composed<A, R>, rpc: string, a: A, h: A -> Run<R>): Run<R>
  {
    match c
    case Plain(l) => Apply(l, rpc, a, h)
    case Chain(ls) =>
      // never built from fewer than two layers
      if |ls| == 0 then h(a) else Apply(ls[0], rpc, a, Chained(ls, 1, rpc, h))
  }

  // ---------------------------------------------------------------------------
  // Vocabulary for the onion law.

  /** Every layer calls `next`. */
  ghost predicate Forwarding<A, R>(ls: seq<Layer<A, R>>)
  {
    forall i :: 0 <= i < |ls| ==> ls[i].Forward?
  }

  /** Every layer calls `next` and returns what it returned. */
  ghost predicate Transparent<A, R>(ls: seq<Layer<A, R>>)
  {
    forall i :: 0 <= i < |ls| ==> ls[i].Forward? && ls[i].override.None?
  }

  /** The argument the innermost handler receives: every rewrite in order. */
  ghost function Thread<A, R>(ls: seq<Layer<A, R>>, a: A): A
    requires Forwarding(ls)
    decreases |ls|
  {
    if |ls| == 0 then a else Thread(ls[1..], ls[0].rewrite(a))
  }

  /** The pre-logic events of forwarding layers, outermost first. */
  ghost function Befores<A, R>(ls: seq<Layer<A, R>>, see: A -> string, a: A): seq<Event>
    requires Forwarding(ls)
    decreases |ls|
  {
    if |ls| == 0 then []
    else [Before(ls[0].name, see(a))] + Befores(ls[1..], see, ls[0].rewrite(a))
  }

  /** The post-logic events of forwarding layers, innermost first. */
  ghost function Afters<A, R>(ls: seq<Layer<A, R>>, see: A -> string, a: A): seq<Event>
    requires Forwarding(ls)
    decreases |ls|
  {
    if |ls| == 0 then []
    else Afters(ls[1..], see, ls[0].rewrite(a)) + [After(ls[0].name, see(a))]
  }

  /** The reply the outermost layer returns when `inner` comes back from inside:
      the outermost replacement, if any layer replaces it. */
  ghost function Decide<A, R>(ls: seq<Layer<A, R>>, inner: Reply<R>): Reply<R>
    requires Forwarding(ls)
    decreases |ls|
  {
    if |ls| == 0 then inner
    else if ls[0].override.Some? then ls[0].override.value
    else Decide(ls[1..], inner)
  }

  /** The pre-logic events of a chain on the server, outermost first. */
  ghost function BeforeAll<A, R>(ls: seq<Layer<A, R>>, rpc: string): (r: seq<Event>)
  {
    seq(|ls|, i requires 0 <= i < |ls| => Before(ls[i].name, rpc))
  }

  /** The post-logic events of a chain on the server, innermost first. */
  ghost function AfterAll<A, R>(ls: seq<Layer<A, R>>, rpc: string): (r: seq<Event>)
  {
    seq(|ls|, i requires 0 <= i < |ls| => After(ls[|ls| - 1 - i].name, rpc))
  }

  // ---------------------------------------------------------------------------
  // The composer agrees with the reference semantics.

  lemma {:induction false} ChainedIsOnion<A, R>(ls: seq<Layer<A, R>>, i: nat, rpc: string, h: A -> Run<R>, a: A)
    requires i <= |ls|
    ensures Chained(ls, i, rpc, h)(a) == Onion(ls[i..], Fixed(rpc), a, h)
    decreases |ls| - i
  {
    if i < |ls| {
      assert ls[i..][0] == ls[i];
      assert ls[i..][1..] == ls[i + 1..];
      match ls[i]
      case Forward(_, rewrite, _) => ChainedIsOnion(ls, i + 1, rpc, h, rewrite(a));
      case ShortCircuit(_, _) =>
    }
  }

  /** A non-empty list composes to an interceptor that behaves as the nested
      layers around the handler, every layer seeing the same rpc name. */
  lemma {:induction false} ComposedIsOnion<A, R>(ls: seq<Layer<A, R>>, rpc: string, a: A, h: A -> Run<R>)
    requires |ls| > 0
    ensures Call(ChainInterceptors(ls).value, rpc, a, h) == Onion(ls, Fixed(rpc), a, h)
  {
    if |ls| == 1 {
      match ls[0]
      case Forward(_, rewrite, _) =>
        assert Onion(ls[1..], Fixed(rpc), rewrite(a), h) == h(rewrite(a));
      case ShortCircuit(_, _) =>
    } else {
      assert ls[1..] == ls[1..][0..];
      match ls[0]
      case Forward(_, rewrite, _) => ChainedIsOnion(ls, 1, rpc, h, rewrite(a));
      case ShortCircuit(_, _) =>
    }
  }

  // ---------------------------------------------------------------------------
  // The onion law and short-circuiting, on the reference semantics.

  /** With every layer forwarding: the pre-logic outermost first, then the
      handler on the rewritten argument, then the post-logic innermost first;
      the reply is the outermost replacement or else the handler's. */
  lemma {:induction false} OnionForwarding<A, R>(ls: seq<Layer<A, R>>, see: A -> string, a: A, h: A -> Run<R>)
    requires Forwarding(ls)
    ensures Onion(ls, see, a, h)
         == Run(Befores(ls, see, a) + h(Thread(ls, a)).trace + Afters(ls, see, a),
                Decide(ls, h(Thread(ls, a)).reply))
    decreases |ls|
  {
    if |ls| > 0 {
      var a' := ls[0].rewrite(a);
      assert Forwarding(ls[1..]) by {
        forall i | 0 <= i < |ls[1..]| ensures ls[1..][i].Forward? { assert ls[1..][i] == ls[i + 1]; }
      }
      OnionForwarding(ls[1..], see, a', h);
    }
  }

  /** If the layers before `k` forward and layer `k` short-circuits, the run is
      the pre-logic of layers 0..k, then the post-logic of layers k-1..0, and
      the reply is the short-circuit error unless an outer layer replaces it. */
  lemma {:induction false} OnionShortCircuit<A, R>(ls: seq<Layer<A, R>>, k: nat, see: A -> string, a: A, h: A -> Run<R>)
    requires k < |ls| && Forwarding(ls[..k]) && ls[k].ShortCircuit?
    ensures Onion(ls, see, a, h)
         == Run(Befores(ls[..k], see, a) + [Before(ls[k].name, see(Thread(ls[..k], a)))] + Afters(ls[..k], see, a),
                Decide(ls[..k], Reply(None, Some(ls[k].err))))
    decreases k
  {
    if k > 0 {
      var a' := ls[0].rewrite(a);
      assert ls[..k][0] == ls[0];
      assert ls[..k][1..] == ls[1..][..k - 1];
      assert ls[1..][k - 1] == ls[k];
      var rest := ls[1..][..k - 1];
      assert Forwarding(rest) by {
        forall i | 0 <= i < |rest| ensures rest[i].Forward? { assert rest[i] == ls[..k][i + 1]; }
      }
      OnionShortCircuit(ls[1..], k - 1, see, a', h);
    }
  }

  /** A short-circuit at layer `k` makes the handler and every layer after `k`
      irrelevant: they never run. */
  lemma {:induction false} ShortCircuitSkipsRest<A, R>(ls: seq<Layer<A, R>>, k: nat, see: A -> string, a: A,
                                                        h: A -> Run<R>, h': A -> Run<R>)
    requires k < |ls| && Forwarding(ls[..k]) && ls[k].ShortCircuit?
    ensures Onion(ls, see, a, h) == Onion(ls[..k + 1], see, a, h')
  {
    assert ls[..k + 1][..k] == ls[..k];
    assert ls[..k + 1][k] == ls[k];
    OnionShortCircuit(ls, k, see, a, h);
    OnionShortCircuit(ls[..k + 1], k, see, a, h');
  }

  lemma {:induction false} TransparentDecide<A, R>(ls: seq<Layer<A, R>>, inner: Reply<R>)
    requires Transparent(ls)
    ensures Forwarding(ls) && Decide(ls, inner) == inner
    decreases |ls|
  {
    if |ls| > 0 {
      assert Transparent(ls[1..]) by {
        forall i | 0 <= i < |ls[1..]| ensures ls[1..][i].Forward? && ls[1..][i].override.None? {
          assert ls[1..][i] == ls[i + 1];
        }
      }
      TransparentDecide(ls[1..], inner);
    }
  }

  lemma {:induction false} BeforesFixed<A, R>(ls: seq<Layer<A, R>>, rpc: string, a: A)
    requires Forwarding(ls)
    ensures Befores(ls, Fixed(rpc), a) == BeforeAll(ls, rpc)
    ensures Afters(ls, Fixed(rpc), a) == AfterAll(ls, rpc)
    decreases |ls|
  {
    if |ls| > 0 {
      assert Forwarding(ls[1..]) by {
        forall i | 0 <= i < |ls[1..]| ensures ls[1..][i].Forward? { assert ls[1..][i] == ls[i + 1]; }
      }
      BeforesFixed(ls[1..], rpc, ls[0].rewrite(a));
      assert BeforeAll(ls, rpc) == [Before(ls[0].name, rpc)] + BeforeAll(ls[1..], rpc);
      assert AfterAll(ls, rpc) == AfterAll(ls[1..], rpc) + [After(ls[0].name, rpc)];
    }
  }

  // ---------------------------------------------------------------------------
  // The same laws for the composed server interceptor.

  /** Onion order on the server: with n forwarding layers the trace is
      before_1..before_n, the handler, after_n..after_1, every layer seeing
      the rpc name the chain was called with; the handler gets every rewrite
      in order, and the reply is the outermost replacement or the handler's. */
  lemma {:induction false} ChainOrder<A, R>(ls: seq<Layer<A, R>>, rpc: string, a: A, h: A -> Run<R>)
    requires |ls| > 0 && Forwarding(ls)
    ensures Call(ChainInterceptors(ls).value, rpc, a, h)
         == Run(BeforeAll(ls, rpc) + h(Thread(ls, a)).trace + AfterAll(ls, rpc),
                Decide(ls, h(Thread(ls, a)).reply))
  {
    ComposedIsOnion(ls, rpc, a, h);
    OnionForwarding(ls, Fixed(rpc), a, h);
    BeforesFixed(ls, rpc, a);
  }

  /** When every layer forwards the result of next, the composed call returns
      the handler's reply unchanged. */
  lemma {:induction false} ChainForwardsReply<A, R>(ls: seq<Layer<A, R>>, rpc: string, a: A, h: A -> Run<R>)
    requires |ls| > 0 && Transparent(ls)
    ensures Forwarding(ls)
    ensures Call(ChainInterceptors(ls).value, rpc, a, h).reply == h(Thread(ls, a)).reply
  {
    TransparentDecide(ls, h(Thread(ls, a)).reply);
    ChainOrder(ls, rpc, a, h);
  }

  /** If layer `k` returns an error without calling next and the layers before
      it pass replies through: layers 0..k run their pre-logic, layers k-1..0
      their post-logic, nothing after `k` and not the handler runs, and the
      composed result is exactly (no result, that error). */
  lemma {:induction false} ChainShortCircuit<A, R>(ls: seq<Layer<A, R>>, k: nat, rpc: string, a: A, h: A -> Run<R>)
    requires k < |ls| && Transparent(ls[..k]) && ls[k].ShortCircuit?
    ensures Call(ChainInterceptors(ls).value, rpc, a, h)
         == Run(BeforeAll(ls[..k + 1], rpc) + AfterAll(ls[..k], rpc), Reply(None, Some(ls[k].err)))
  {
    TransparentDecide(ls[..k], Reply(None, Some(ls[k].err)));
    ComposedIsOnion(ls, rpc, a, h);
    OnionShortCircuit(ls, k, Fixed(rpc), a, h);
    BeforesFixed(ls[..k], rpc, a);
    assert BeforeAll(ls[..k + 1], rpc) == BeforeAll(ls[..k], rpc) + [Before(ls[k].name, rpc)];
  }

  // ---------------------------------------------------------------------------
  // Layers add only their own pre- and post-logic events to a trace.

  lemma {:induction false} ApplyQuiet<A(!new), R>(l: Layer<A, R>, rpc: string, a: A, next: A -> Run<R>)
    requires forall x :: QuietTrace(next(x).trace)
    ensures QuietTrace(Apply(l, rpc, a, next).trace)
  {
    match l
    case Forward(name, rewrite, _) =>
      var x := rewrite(a);
      var t := next(x).trace;
      assert QuietTrace(next(x).trace);
      assert forall i :: 0 <= i < |t| ==> ([Before(name, rpc)] + t + [After(name, rpc)])[i + 1] == t[i];
    case ShortCircuit(_, _) =>
  }

  lemma {:induction false} ChainedQuiet<A(!new), R>(ls: seq<Layer<A, R>>, i: nat, rpc: string, h: A -> Run<R>)
    requires i <= |ls|
    requires forall x :: QuietTrace(h(x).trace)
    ensures forall x :: QuietTrace(Chained(ls, i, rpc, h)(x).trace)
    decreases |ls| - i
  {
    if i < |ls| {
      ChainedQuiet(ls, i + 1, rpc, h);
      forall x ensures QuietTrace(Chained(ls, i, rpc, h)(x).trace) {
        ApplyQuiet(ls[i], rpc, x, Chained(ls, i + 1, rpc, h));
      }
    }
  }

  /** A composed interceptor sends nothing and closes nothing on the stream
      unless its handler does. */
  lemma {:induction false} CallQuiet<A(!new), R>(c: Composed<A, R>, rpc: string, a: A, h: A -> Run<R>)
    requires forall x :: QuietTrace(h(x).trace)
    ensures QuietTrace(Call(c, rpc, a, h).trace)
  {
    match c
    case Plain(l) => ApplyQuiet(l, rpc, a, h);
    case Chain(ls) =>
      if |ls| > 0 {
        ChainedQuiet(ls, 1, rpc, h);
        ApplyQuiet(ls[0], rpc, a, Chained(ls, 1, rpc, h));
      }
  }
}
