/** The example server simple_testserver.py: two exposed handlers,
    `hello` and `multi`, and what the dispatcher answers for a few requests.
    The handlers bind their arguments as a Python 2 method with one parameter
    besides `self` would, simplified: a positional argument that is iterable
    but not a list (a text under `__args`) is refused rather than spread, and
    the TypeError texts name the parameter generically. */
module SimpleTestServer {
  import opened Json
  import opened Responses
  import opened Registry
  import opened Dispatch

  /** The arity message Python 2 gives for a method with one parameter
      besides `self` called with `given - 1` arguments. */
  function ArityError(handlerName: string, given: nat): Outcome {
    RaisedTypeError(handlerName + "() " + "takes exactly" + " 2 " + "arguments" + " (" + Digits(given) + " given)")
  }

  /** Python's arity TypeError of a one-parameter method always passes the
      arity test. */
  lemma ArityErrorIsArityMessage(handlerName: string, given: nat)
    ensures IsArityMessage(ArityError(handlerName, given).message)
  {
    var message := ArityError(handlerName, given).message;
    var tail := " (" + Digits(given) + " given)";
    assert message == (handlerName + "() ") + "takes exactly" + (" 2 " + "arguments" + tail);
    ContainsInfix(handlerName + "() ", "takes exactly", " 2 " + "arguments" + tail);
    assert message == (handlerName + "() " + "takes exactly" + " 2 ") + "arguments" + tail;
    ContainsInfix(handlerName + "() " + "takes exactly" + " 2 ", "arguments", tail);
  }

  /** Binds `*positional, **named` to the one parameter `param`, checking in
      Python 2's order: too many positional arguments first, then unknown
      keywords, then a keyword repeating the positional argument, then a
      missing argument. */
  function BindOne(handlerName: string, param: string, positional: Value, named: map<string, Value>): (r: Result<Value>)
    ensures r.Bound? <==>
      positional.Array? && named.Keys <= {param} && |positional.items| + |named| == 1
    ensures positional.Array? && |positional.items| > 1 ==>
      r == Error(ArityError(handlerName, 1 + |positional.items| + |named|))
    ensures r.Bound? ==> r.value in positional.items || (param in named && r.value == named[param])
    ensures r.Error? ==> r.outcome.RaisedTypeError?
  {
    if !positional.Array? then
      Error(RaisedTypeError(handlerName + "() argument after * must be a sequence"))
    else if |positional.items| > 1 then
      Error(ArityError(handlerName, 1 + |positional.items| + |named|))
    else if named.Keys - {param} != {} then
      Error(RaisedTypeError(handlerName + "() got an unexpected keyword argument"))
    else if |positional.items| == 1 && param in named then
      Error(RaisedTypeError(handlerName + "() got multiple values for keyword argument '" + param + "'"))
    else if |positional.items| == 1 then
      Bound(positional.items[0])
    else if param in named then
      Bound(named[param])
    else
      Error(ArityError(handlerName, 1))
  }

  /** Python 2's name for the type of a decoded value. */
  function TypeName(v: Value): string {
    match v
    case Null => "NoneType"
    case Bool(_) => "bool"
    case Int(_) => "int"
    case Str(_) => "unicode"
    case Array(_) => "list"
    case Object(_) => "dict"
  }

  datatype Result<T> = Bound(value: T) | Error(outcome: Outcome)

  /** `hello(self, name)`: `u"Hello " + name`. */
  function Hello(positional: Value, named: map<string, Value>): (r: Outcome)
    ensures r.Returned? || r.RaisedTypeError?
    ensures r.Returned? ==> r.value.Str? && "Hello " <= r.value.s
    ensures positional.Array? && |positional.items| == 1 && positional.items[0].Str? && named == map[] ==>
      r == Returned(Str("Hello " + positional.items[0].s))
  {
    match BindOne("hello", "name", positional, named)
    case Error(outcome) => outcome
    case Bound(name) =>
      if name.Str? then Returned(Str("Hello " + name.s))
      else RaisedTypeError("coercing to Unicode: need string or buffer, " + TypeName(name) + " found")
  }

  /** `multi(self, num)`: `num * 2`. */
  function Multi(positional: Value, named: map<string, Value>): (r: Outcome)
    ensures r.Returned? || r.RaisedTypeError?
    ensures positional.Array? && |positional.items| == 1 && positional.items[0].Int? && named == map[] ==>
      r == Returned(Int(2 * positional.items[0].n))
  {
    match BindOne("multi", "num", positional, named)
    case Error(outcome) => outcome
    case Bound(num) =>
      match num
      case Int(n) => Returned(Int(n * 2))
      case Bool(b) => Returned(Int(if b then 2 else 0))
      case Str(s) => Returned(Str(s + s))
      case Array(items) => Returned(Array(items + items))
      case _ => RaisedTypeError("unsupported operand type(s) for *: '" + TypeName(num) + "' and 'int'")
  }

  const TestRegistry: map<string, Handler> := map["hello" := Hello, "multi" := Multi]

  /** Of `dir(self)`, only `hello` and `multi` are registered: `default`
      and the names starting with `_` are skipped, and `debug` is not
      exposed. */
  lemma TestServerRegistersHelloAndMulti(init: Attribute, debugValue: Attribute, default: Attribute,
                                         hello: Attribute, multi: Attribute)
    requires hello != multi && debugValue != hello && debugValue != multi && debugValue != default
    requires hello.handler == Hello && multi.handler == Multi
    ensures var attrs := [Binding("__init__", init), Binding("debug", debugValue), Binding("default", default),
                          Binding("hello", hello), Binding("multi", multi)];
      var flags := map[init := None, debugValue := None, default := Some(Bool(true)),
                       hello := Some(Bool(true)), multi := Some(Bool(true))];
      Scan(attrs, flags).registry == TestRegistry
  {
    var attrs := [Binding("__init__", init), Binding("debug", debugValue), Binding("default", default),
                  Binding("hello", hello), Binding("multi", multi)];
    var flags := map[init := None, debugValue := None, default := Some(Bool(true)),
                     hello := Some(Bool(true)), multi := Some(Bool(true))];
    assert !Qualifies("__init__") && Qualifies("debug") && !Qualifies("default");
    assert Qualifies("hello") && Qualifies("multi");
    assert attrs[..1][..0] == [] && attrs[..2][..1] == attrs[..1] && attrs[..3][..2] == attrs[..2];
    assert attrs[..4][..3] == attrs[..3] && attrs[..4] == attrs[..|attrs| - 1];
    assert Scan(attrs[..1], flags) == Scanned(map[], flags);
    assert Scan(attrs[..2], flags) == Scanned(map[], flags);
    assert Scan(attrs[..3], flags) == Scanned(map[], flags);
    assert Scan(attrs[..4], flags) == Scanned(map["hello" := Hello], flags[hello := None]);
    assert flags[hello := None][multi] == Some(Bool(true));
  }

  /** Any call of `hello` with one text argument is answered with the
      greeting, echoing the call's `jsonrpc` and `id`. */
  lemma HelloGreets(fields: map<string, Value>, name: string)
    requires MethodName(fields) == Some("hello")
    requires SplitParams(fields) == Arguments(Array([Str(name)]), map[])
    ensures DispatchCall(Object(fields), TestRegistry) ==
      Answered(Successful(Get(fields, "jsonrpc", Null), Get(fields, "id", Null), Str("Hello " + name)))
  {
    assert Hello(Array([Str(name)]), map[]) == Returned(Str("Hello " + name));
  }

  /** Any call of `hello` without arguments is answered with InvalidParams. */
  lemma HelloNeedsItsArgument(fields: map<string, Value>)
    requires MethodName(fields) == Some("hello")
    requires SplitParams(fields) == Arguments(Array([]), map[])
    ensures DispatchCall(Object(fields), TestRegistry) ==
      Answered(ErrorResponse(InvalidParams, Get(fields, "jsonrpc", Null), Get(fields, "id", Null), None))
  {
    assert Hello(Array([]), map[]) == ArityError("hello", 1);
    ArityErrorIsArityMessage("hello", 1);
  }

  /** Any call of `multi` with one integer argument is answered with its
      double, whatever the id, a missing one included. */
  lemma MultiDoubles(fields: map<string, Value>, n: int)
    requires MethodName(fields) == Some("multi")
    requires SplitParams(fields) == Arguments(Array([Int(n)]), map[])
    ensures DispatchCall(Object(fields), TestRegistry) ==
      Answered(Successful(Get(fields, "jsonrpc", Null), Get(fields, "id", Null), Int(2 * n)))
  {
    assert Multi(Array([Int(n)]), map[]) == Returned(Int(2 * n));
  }

  function HelloWorldCall(): Value {
    Object(map["jsonrpc" := Str("2.0"), "method" := Str("hello"), "params" := Array([Str("World")]), "id" := Int(1)])
  }

  /** `{"jsonrpc":"2.0","method":"hello","params":["World"],"id":1}` is
      answered `{"jsonrpc":"2.0","id":1,"result":"Hello World"}`. */
  lemma HelloWorld(req: HttpRequest, decode: Decoder)
    requires req.verb == "POST" && decode(req.body) == Decoded(HelloWorldCall())
    ensures Handle(req, TestRegistry, decode) == Bare(Successful(Str("2.0"), Int(1), Str("Hello World")))
  {
    var fields := HelloWorldCall().fields;
    assert IsAscii("hello") && MethodName(fields) == Some("hello");
    assert SplitParams(fields) == Arguments(Array([Str("World")]), map[]);
    HelloGreets(fields, "World");
    assert "Hello " + "World" == "Hello World";
    AnsweredSingleCallIsBare(HelloWorldCall(), TestRegistry);
  }

  lemma NopeIsNotFound()
    ensures DispatchCall(Object(map["method" := Str("nope"), "id" := Int(1)]), TestRegistry) ==
      Answered(ErrorResponse(MethodNotFound, Null, Int(1), None))
  {
  }

  lemma HelloX(id: Value)
    ensures DispatchCall(Object(map["method" := Str("hello"), "params" := Array([Str("X")]), "id" := id]), TestRegistry) ==
      Answered(Successful(Null, id, Str("Hello X")))
  {
    var fields := map["method" := Str("hello"), "params" := Array([Str("X")]), "id" := id];
    assert IsAscii("hello") && MethodName(fields) == Some("hello");
    assert SplitParams(fields) == Arguments(Array([Str("X")]), map[]);
    HelloGreets(fields, "X");
    assert "Hello " + "X" == "Hello X";
  }

  /** `[{"method":"nope","id":1},{"method":"hello","params":["X"],"id":2}]`
      is answered with a MethodNotFound entry for id 1 and the result
      "Hello X" for id 2, in that order. */
  lemma UnknownMethodInBatch(req: HttpRequest, decode: Decoder)
    requires req.verb == "POST"
    requires decode(req.body) == Decoded(Array([
      Object(map["method" := Str("nope"), "id" := Int(1)]),
      Object(map["method" := Str("hello"), "params" := Array([Str("X")]), "id" := Int(2)])]))
    ensures Handle(req, TestRegistry, decode) ==
      List([ErrorResponse(MethodNotFound, Null, Int(1), None), Successful(Null, Int(2), Str("Hello X"))])
  {
    var c1 := Object(map["method" := Str("nope"), "id" := Int(1)]);
    var c2 := Object(map["method" := Str("hello"), "params" := Array([Str("X")]), "id" := Int(2)]);
    NopeIsNotFound();
    HelloX(Int(2));
    assert [c1, c2][..1] == [c1];
    assert [c1][..0] == [];
    assert Collect([c1], TestRegistry) == Collected([ErrorResponse(MethodNotFound, Null, Int(1), None)]);
    PostBodyIsBatchOrCall(req, TestRegistry, decode);
  }

  /** A GET with query `params=["X"]&method=hello&id=1` decodes `params`
      before dispatch; the id stays the query's text "1". */
  lemma HelloByGet(req: HttpRequest, decode: Decoder)
    requires req.verb == "GET"
    requires req.query == map["params" := Str("[\"X\"]"), "method" := Str("hello"), "id" := Str("1")]
    requires decode("[\"X\"]") == Decoded(Array([Str("X")]))
    ensures Handle(req, TestRegistry, decode) == Bare(Successful(Null, Str("1"), Str("Hello X")))
  {
    var call := Object(map["params" := Array([Str("X")]), "method" := Str("hello"), "id" := Str("1")]);
    assert req.query["params" := Array([Str("X")])] == call.fields;
    assert IsAscii("hello") && MethodName(call.fields) == Some("hello");
    assert SplitParams(call.fields) == Arguments(Array([Str("X")]), map[]);
    HelloGreets(call.fields, "X");
    assert "Hello " + "X" == "Hello X";
    AnsweredSingleCallIsBare(call, TestRegistry);
  }

  lemma HelloNoArgument(id: Value)
    ensures DispatchCall(Object(map["method" := Str("hello"), "params" := Array([]), "id" := id]), TestRegistry) ==
      Answered(ErrorResponse(InvalidParams, Null, id, None))
  {
    var fields := map["method" := Str("hello"), "params" := Array([]), "id" := id];
    assert IsAscii("hello") && MethodName(fields) == Some("hello");
    assert SplitParams(fields) == Arguments(Array([]), map[]);
    HelloNeedsItsArgument(fields);
  }

  /** `hello` called without its argument is answered with InvalidParams. */
  lemma HelloWithoutArgument(req: HttpRequest, decode: Decoder)
    requires req.verb == "POST"
    requires decode(req.body) == Decoded(Object(map["method" := Str("hello"), "params" := Array([]), "id" := Int(3)]))
    ensures Handle(req, TestRegistry, decode) == Bare(ErrorResponse(InvalidParams, Null, Int(3), None))
  {
    HelloNoArgument(Int(3));
    AnsweredSingleCallIsBare(Object(map["method" := Str("hello"), "params" := Array([]), "id" := Int(3)]), TestRegistry);
  }

  /** A notification whose handler returns a value is still answered: only
      a handler returning `None` is silent. The entry's id is `None`. */
  lemma NotificationWithResultIsAnswered(req: HttpRequest, decode: Decoder)
    requires req.verb == "POST"
    requires decode(req.body) == Decoded(Object(map["method" := Str("multi"), "params" := Array([Int(21)])]))
    ensures Handle(req, TestRegistry, decode) == Bare(Successful(Null, Null, Int(42)))
  {
    var call := Object(map["method" := Str("multi"), "params" := Array([Int(21)])]);
    assert IsAscii("multi") && MethodName(call.fields) == Some("multi");
    assert SplitParams(call.fields) == Arguments(Array([Int(21)]), map[]);
    MultiDoubles(call.fields, 21);
    AnsweredSingleCallIsBare(call, TestRegistry);
  }

  /** With `responses` shadowed as written, the call of `HelloWorld` raises
      instead of being answered. */
  lemma ShadowedResponsesBreakHelloWorld()
    ensures DispatchCall(HelloWorldCall(), TestRegistry).Answered?
    ensures DispatchCallAsWritten(HelloWorldCall(), TestRegistry) == Escaped(ResponsesShadowed)
  {
    var fields := HelloWorldCall().fields;
    assert IsAscii("hello") && MethodName(fields) == Some("hello");
    assert SplitParams(fields) == Arguments(Array([Str("World")]), map[]);
    HelloGreets(fields, "World");
    AsWrittenRaisesWhereAnswered(HelloWorldCall(), TestRegistry);
  }
}
