/** Client dial options (drpcclient/dialoptions.go): the interceptor lists
    collected from the options, in the order the options were given, and the
    composed interceptors built from them. */
module Dial {
  import opened Drpc
  import opened Interceptor

  /** What a unary client interceptor sees of a call: context, rpc name,
      encoding and request. The response it fills in is the reply's result. */
  datatype Invocation = Invocation(ctx: RequestContext, rpc: string, enc: Encoding, req: Message)

  /** What a stream client interceptor sees of a stream being opened. */
  datatype StreamRequest = StreamRequest(ctx: RequestContext, rpc: string, enc: Encoding)

  type UnaryClientInterceptor = Layer<Invocation, Message>
  type StreamClientInterceptor = Layer<StreamRequest, ClientStream>

  /** A dial option: append unary interceptors, or append stream interceptors
      (WithChainUnaryInterceptor and WithChainStreamInterceptor). */
  datatype DialOption =
    | ChainUnary(unary: seq<UnaryClientInterceptor>)
    | ChainStream(stream: seq<StreamClientInterceptor>)

  /** The unary interceptors a list of options adds, first option first. */
  function UnaryInts(opts: seq<DialOption>): seq<UnaryClientInterceptor>
    decreases |opts|
  {
    if |opts| == 0 then []
    else (if opts[0].ChainUnary? then opts[0].unary else []) + UnaryInts(opts[1..])
  }

  /** The stream interceptors a list of options adds, first option first. */
  function StreamInts(opts: seq<DialOption>): seq<StreamClientInterceptor>
    decreases |opts|
  {
    if |opts| == 0 then []
    else (if opts[0].ChainStream? then opts[0].stream else []) + StreamInts(opts[1..])
  }

  /** Options given one after the other add their interceptors one after the
      other: later options' interceptors sit further inside the chain. */
  lemma {:induction false} IntsAppend(a: seq<DialOption>, b: seq<DialOption>)
    ensures UnaryInts(a + b) == UnaryInts(a) + UnaryInts(b)
    ensures StreamInts(a + b) == StreamInts(a) + StreamInts(b)
    decreases |a|
  {
    if |a| == 0 {
      assert a + b == b;
    } else {
      assert (a + b)[0] == a[0];
      assert (a + b)[1..] == a[1..] + b;
      IntsAppend(a[1..], b);
    }
  }

  /** One option alone. */
  lemma {:induction false} IntsSingle(o: DialOption)
    ensures UnaryInts([o]) == (if o.ChainUnary? then o.unary else [])
    ensures StreamInts([o]) == (if o.ChainStream? then o.stream else [])
  {
    assert [o][1..] == [];
    assert UnaryInts([o][1..]) == [];
    assert StreamInts([o][1..]) == [];
  }

  class DialOptions {
    var unaryInt: Option<Composed<Invocation, Message>>
    var streamInt: Option<Composed<StreamRequest, ClientStream>>
    var unaryInts: seq<UnaryClientInterceptor>
    var streamInts: seq<StreamClientInterceptor>

    /** defaultDialOptions: no interceptors at all. */
    constructor Default()
      ensures unaryInt.None? && streamInt.None? && unaryInts == [] && streamInts == []
    {
      unaryInt := None;
      streamInt := None;
      unaryInts := [];
      streamInts := [];
    }

    /** Apply one option: append its interceptors to the matching list. */
    method Apply(o: DialOption)
      modifies this
      ensures unaryInts == old(unaryInts) + UnaryInts([o])
      ensures streamInts == old(streamInts) + StreamInts([o])
      ensures unaryInt == old(unaryInt) && streamInt == old(streamInt)
    {
      IntsSingle(o);
      match o
      case ChainUnary(ints) => unaryInts := unaryInts + ints;
      case ChainStream(ints) => streamInts := streamInts + ints;
    }
  }
}
