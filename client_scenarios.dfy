/** Concrete calls through client connections built from dial options, on a
    connection that answers every call with "mocked response for request: "
    followed by the request and opens streams named after their rpc. */
module ClientScenarios {
  import opened Drpc
  import opened Interceptor
  import opened Dial
  import opened Client

  const Enc := Encoding("test")
  const Ctx := RequestContext(0)

  function MockConn(): Conn
  {
    Conn((c: Invocation) => Reply(Some(Message("mocked response for request: " + c.req.value)), None),
         (q: StreamRequest) => Reply(Some(ClientStream(q.rpc)), None))
  }

  /** Two unary interceptors from one option: first to last on the way in,
      last to first on the way out, and the connection's response reaches the
      caller. */
  method TwoUnaryInterceptors() returns (r: Run<Message>)
    ensures r.reply == Reply(Some(Message("mocked response for request: foobar")), None)
    ensures r.trace == [Before("interceptor1", "TestMethod"), Before("interceptor2", "TestMethod"),
                        Invoked("TestMethod", Message("foobar")),
                        After("interceptor2", "TestMethod"), After("interceptor1", "TestMethod")]
  {
    var ls: seq<UnaryClientInterceptor> := [Pass("interceptor1"), Pass("interceptor2")];
    var cc := new ClientConn.NewClientConnWithOptions(Ctx, MockConn(), [ChainUnary(ls)]);
    assert UnaryInts([ChainUnary(ls)]) == ls by { IntsSingle(ChainUnary(ls)); }
    r := cc.Invoke(Ctx, "TestMethod", Enc, Message("foobar"));
    assert "mocked response for request: " + "foobar" == "mocked response for request: foobar";
    assert ls[1..][1..] == [];
  }

  /** An option with no interceptors: the call goes straight to the
      connection. */
  method NoUnaryInterceptors() returns (r: Run<Message>)
    ensures r == Run([Invoked("TestMethod", Message("foobar"))],
                     Reply(Some(Message("mocked response for request: foobar")), None))
  {
    var cc := new ClientConn.NewClientConnWithOptions(Ctx, MockConn(), [ChainUnary([])]);
    assert UnaryInts([ChainUnary([])]) == [] by { IntsSingle(ChainUnary([])); }
    r := cc.Invoke(Ctx, "TestMethod", Enc, Message("foobar"));
    assert "mocked response for request: " + "foobar" == "mocked response for request: foobar";
  }

  /** Two stream interceptors: onion order around the stream open, and the
      opened stream reaches the caller. */
  method TwoStreamInterceptors() returns (r: Run<ClientStream>)
    ensures r.reply == Reply(Some(ClientStream("TestRPC")), None)
    ensures r.trace == [Before("interceptor1", "TestRPC"), Before("interceptor2", "TestRPC"),
                        Opened("TestRPC"),
                        After("interceptor2", "TestRPC"), After("interceptor1", "TestRPC")]
  {
    var ls: seq<StreamClientInterceptor> := [Pass("interceptor1"), Pass("interceptor2")];
    var cc := new ClientConn.NewClientConnWithOptions(Ctx, MockConn(), [ChainStream(ls)]);
    assert StreamInts([ChainStream(ls)]) == ls by { IntsSingle(ChainStream(ls)); }
    r := cc.NewStream(Ctx, "TestRPC", Enc);
    assert ls[1..][1..] == [];
  }

  /** Interceptors from two options nest in option order, and an interceptor
      that renames the rpc is seen by the interceptors inside it and by the
      connection, not by those outside it. */
  method RenamingInterceptor() returns (r: Run<Message>)
    ensures r.trace == [Before("outer", "A"), Before("rename", "A"), Before("inner", "B"),
                        Invoked("B", Message("x")),
                        After("inner", "B"), After("rename", "A"), After("outer", "A")]
  {
    var rename: UnaryClientInterceptor := Forward("rename", (c: Invocation) => c.(rpc := "B"), None);
    var opts := [ChainUnary([Pass("outer"), rename]), ChainUnary([Pass("inner")])];
    var cc := new ClientConn.NewClientConnWithOptions(Ctx, MockConn(), opts);
    var ls := [Pass("outer"), rename, Pass("inner")];
    assert UnaryInts(opts) == ls by {
      IntsAppend([opts[0]], [opts[1]]);
      IntsSingle(opts[0]);
      IntsSingle(opts[1]);
      assert opts == [opts[0]] + [opts[1]];
    }
    r := cc.Invoke(Ctx, "A", Enc, Message("x"));
    var c := Invocation(Ctx, "A", Enc, Message("x"));
    var c' := c.(rpc := "B");
    assert ls[1..][1..][1..] == [];
    assert Forwarding(ls);
    InvokeOrder(MockConn(), ls, c);
    var l1, l2 := ls[1..], ls[1..][1..];
    assert ls[0].rewrite(c) == c && l1[0] == rename && rename.rewrite(c) == c' && l2[0].rewrite(c') == c';
    assert Forwarding(l1) && Forwarding(l2) && Forwarding(l2[1..]);
    assert Thread(l2, c') == Thread(l2[1..], c') == c';
    assert Thread(l1, c) == c';
    assert Thread(ls, c) == c';
    assert Befores(l2, InvokedRpc, c') == [Before("inner", "B")];
    assert Afters(l2, InvokedRpc, c') == [After("inner", "B")];
    assert Befores(ls, InvokedRpc, c) == [Before("outer", "A"), Before("rename", "A"), Before("inner", "B")];
    assert Afters(ls, InvokedRpc, c) == [After("inner", "B"), After("rename", "A"), After("outer", "A")];
  }
}
