/** Concrete dispatches of the mux's own test scenarios, each run through the
    `Mux` and `Stream` objects, with what each one observes stated as a
    postcondition. */
module MuxScenarios {
  import opened Drpc
  import opened Interceptor
  import opened Mux
  import opened MuxLaws

  const Enc := Encoding("mock")
  const Ctx := RequestContext(0)
  const Srv: nat := 1

  /** A receiver that answers every call with `out`. */
  function Answer(out: Option<Message>): (nat, RequestContext, Input, StreamView) -> Reply<Message>
  {
    (srv: nat, ctx: RequestContext, in1: Input, in2: StreamView) => Reply(out, None)
  }

  function UnaryRpc(out: Option<Message>): RpcData
  {
    RpcData(Srv, Enc, Answer(out), MessageIn, MessageOut)
  }

  /** A unary interceptor that calls the handler and then replaces the result:
      the replacement is what is sent. */
  method UnaryInterceptorReplacesResult() returns (sent: Option<Message>, err: Option<Error>, log: seq<Event>)
    ensures err.None? && sent == Some(Message("modified_response"))
    ensures log == [Recv, Before("replace", "test.Method"),
                    Receiver(Srv, Ctx, InMessage(Message("request")), Original),
                    After("replace", "test.Method"), Send(Message("modified_response"), Enc)]
  {
    var layer: UnaryServerInterceptor := Forward("replace", (a: UnaryRequest) => a,
                                                 Some(Reply(Some(Message("modified_response")), None)));
    var cfg := MuxConfig(map["test.Method" := UnaryRpc(Some(Message("original_response")))],
                         ChainInterceptors([layer]), None);
    var mux := new Mux(cfg);
    var stream := new Stream(Ctx, Some(Message("request")));
    err := mux.HandleRPC(stream, "test.Method");
    sent, log := stream.sent, stream.log;
  }

  /** Two pass-through unary interceptors run in onion order around the
      receiver, whose result is sent. */
  method TwoInterceptorsInOrder() returns (sent: Option<Message>, err: Option<Error>, log: seq<Event>)
    ensures err.None? && sent == Some(Message("response"))
    ensures log == [Recv, Before("interceptor1", "test.Method"), Before("interceptor2", "test.Method"),
                    Receiver(Srv, Ctx, InMessage(Message("request")), Original),
                    After("interceptor2", "test.Method"), After("interceptor1", "test.Method"),
                    Send(Message("response"), Enc)]
  {
    var ls: seq<UnaryServerInterceptor> := [Pass("interceptor1"), Pass("interceptor2")];
    var cfg := MuxConfig(map["test.Method" := UnaryRpc(Some(Message("response")))], ChainInterceptors(ls), None);
    var mux := new Mux(cfg);
    var stream := new Stream(Ctx, Some(Message("request")));
    ghost var s0 := stream.State();
    err := mux.HandleRPC(stream, "test.Method");
    UnaryChainDispatch(cfg, Ctx, "test.Method", s0, ls, Message("request"));
    assert Thread(ls, UnaryRequest(Ctx, Message("request"))) == UnaryRequest(Ctx, Message("request")) by {
      assert ls[1..][1..] == [];
    }
    assert Decide(ls, Reply(Some(Message("response")), None)) == Reply(Some(Message("response")), None) by {
      assert ls[1..][1..] == [];
    }
    sent, log := stream.sent, stream.log;
  }

  /** An interceptor that fails without calling its handler: the receiver
      never runs, nothing is sent, and the returned error wraps the
      interceptor's. */
  method InterceptorError() returns (sent: Option<Message>, err: Option<Error>, log: seq<Event>)
    ensures err.Some? && Is(err.value, AppError(7)) && sent.None?
    ensures log == [Recv, Before("deny", "test.Method")]
  {
    var layer: UnaryServerInterceptor := ShortCircuit("deny", AppError(7));
    var cfg := MuxConfig(map["test.Method" := UnaryRpc(Some(Message("response")))], ChainInterceptors([layer]), None);
    var mux := new Mux(cfg);
    var stream := new Stream(Ctx, Some(Message("request")));
    err := mux.HandleRPC(stream, "test.Method");
    sent, log := stream.sent, stream.log;
  }

  /** A stream interceptor that wraps the stream so received messages are
      prefixed: an rpc with unary input and stream output gets the prefixed
      input, and the stream's send side is closed. */
  method StreamWrapperChangesInput() returns (err: Option<Error>, log: seq<Event>, closed: bool)
    ensures err.None? && closed
    ensures var v := Prefixed("MODIFIED_", Original);
            log == [Before("modify", "test.UnaryStreamMethod"), Recv,
                    Receiver(Srv, Ctx, InMessage(Message("MODIFIED_original_input")), v),
                    After("modify", "test.UnaryStreamMethod"), CloseSend]
  {
    var layer: StreamServerInterceptor := Forward("modify", (v: StreamView) => Prefixed("MODIFIED_", v), None);
    var data := RpcData(Srv, Enc, Answer(None), MessageIn, StreamOut);
    var cfg := MuxConfig(map["test.UnaryStreamMethod" := data], None, ChainInterceptors([layer]));
    var mux := new Mux(cfg);
    var stream := new Stream(Ctx, Some(Message("original_input")));
    ghost var s0 := stream.State();
    err := mux.HandleRPC(stream, "test.UnaryStreamMethod");
    assert Thread([layer], Original) == Prefixed("MODIFIED_", Original);
    assert "MODIFIED_" + "original_input" == "MODIFIED_original_input";
    assert RecvOn(Prefixed("MODIFIED_", Original), s0) == Ok(Message("MODIFIED_original_input"));
    UnaryInStreamOutDispatch(cfg, Ctx, "test.UnaryStreamMethod", s0, [layer], Message("MODIFIED_original_input"));
    log, closed := stream.log, stream.closed;
  }

  /** With both chains installed each rpc goes through the chain of its shape
      only. */
  method MixedInterceptors() returns (unaryLog: seq<Event>, streamLog: seq<Event>, mixedLog: seq<Event>)
    ensures unaryLog == [Recv, Before("unary", "test.UnaryMethod"),
                         Receiver(Srv, Ctx, InMessage(Message("test_input")), Original),
                         After("unary", "test.UnaryMethod"), CloseSend]
    ensures streamLog == [Before("stream", "test.StreamMethod"),
                          Receiver(Srv, Ctx, InStream(Original), Original),
                          After("stream", "test.StreamMethod"), CloseSend]
    ensures mixedLog == [Before("stream", "test.UnaryStreamMethod"), Recv,
                         Receiver(Srv, Ctx, InMessage(Message("test_input")), Original),
                         After("stream", "test.UnaryStreamMethod"), CloseSend]
  {
    var rpcs := map["test.UnaryMethod" := RpcData(Srv, Enc, Answer(None), MessageIn, MessageOut),
                    "test.StreamMethod" := RpcData(Srv, Enc, Answer(None), StreamIn, StreamOut),
                    "test.UnaryStreamMethod" := RpcData(Srv, Enc, Answer(None), MessageIn, StreamOut)];
    var cfg := MuxConfig(rpcs, ChainInterceptors([Pass("unary")]), ChainInterceptors([Pass("stream")]));
    var mux := new Mux(cfg);
    var s1 := new Stream(Ctx, Some(Message("test_input")));
    var _ := mux.HandleRPC(s1, "test.UnaryMethod");
    var s2 := new Stream(Ctx, None);
    var _ := mux.HandleRPC(s2, "test.StreamMethod");
    var s3 := new Stream(Ctx, Some(Message("test_input")));
    var _ := mux.HandleRPC(s3, "test.UnaryStreamMethod");
    unaryLog, streamLog, mixedLog := s1.log, s2.log, s3.log;
  }

  /** No interceptors: the receiver's result is sent as is. */
  method WithoutInterceptors() returns (sent: Option<Message>, err: Option<Error>)
    ensures err.None? && sent == Some(Message("test_output"))
  {
    var mux := new Mux(MuxConfig(map["test.UnaryMethod" := UnaryRpc(Some(Message("test_output")))], None, None));
    var stream := new Stream(Ctx, Some(Message("test_input")));
    err := mux.HandleRPC(stream, "test.UnaryMethod");
    sent := stream.sent;
  }

  /** An unregistered rpc is a protocol error and the stream sees nothing. */
  method UnknownMethod() returns (err: Option<Error>, log: seq<Event>)
    ensures err == Some(ProtocolError("test.NonExistentMethod")) && log == []
  {
    var mux := new Mux(MuxConfig(map["test.ValidMethod" := UnaryRpc(None)], None, None));
    var stream := new Stream(Ctx, None);
    err := mux.HandleRPC(stream, "test.NonExistentMethod");
    log := stream.log;
  }

  /** A unary rpc whose stream has nothing to receive fails with the stream's
      error wrapped twice, and nothing is sent. */
  method NothingToReceive() returns (err: Option<Error>, log: seq<Event>)
    ensures err == Some(Wrap(Wrap(NoMessage))) && Root(err.value) == NoMessage && log == [Recv]
  {
    var mux := new Mux(MuxConfig(map["test.UnaryMethod" := UnaryRpc(None)], ChainInterceptors([Pass("unary")]), None));
    var stream := new Stream(Ctx, None);
    err := mux.HandleRPC(stream, "test.UnaryMethod");
    log := stream.log;
  }

  /** A unary rpc on a mux with only a stream chain bypasses that chain: the
      receiver's result is sent and the chain leaves no trace. */
  method UnaryBypassesStreamChain() returns (sent: Option<Message>, err: Option<Error>, log: seq<Event>)
    ensures err.None? && sent == Some(Message("test_output"))
    ensures log == [Recv, Receiver(Srv, Ctx, InMessage(Message("test_input")), Original),
                    Send(Message("test_output"), Enc)]
  {
    var cfg := MuxConfig(map["test.UnaryMethod" := UnaryRpc(Some(Message("test_output")))],
                         None, ChainInterceptors([Pass("stream")]));
    var mux := new Mux(cfg);
    var stream := new Stream(Ctx, Some(Message("test_input")));
    err := mux.HandleRPC(stream, "test.UnaryMethod");
    sent, log := stream.sent, stream.log;
  }
}
