/** What `JsonRpcMethods.default` computes, as functions: the request is
    normalised into a list of calls, each call is dispatched to one response
    entry or to none, and the entries are assembled into the reply. The method
    `Server.JsonRpcMethods.Default` is proved to compute `Handle`. */
module Dispatch {
  import opened Json
  import opened Responses
  import opened Registry

  /** What CherryPy hands to `default`: the HTTP verb, the query arguments
      (for GET) and the raw body (for POST). */
  datatype HttpRequest = HttpRequest(verb: string, query: map<string, Value>, body: string)

  /** The calls a request carries, or the reply given before any call runs. */
  datatype Normalized = Calls(calls: seq<Value>) | Answer(reply: Reply)

  /** Turns the GET query or the POST body into the list of calls. */
  function Normalize(req: HttpRequest, decode: Decoder): (r: Normalized)
    ensures r == Answer(BadRequest) <==> req.verb != "GET" && req.verb != "POST"
    ensures req.verb == "GET" && r.Calls? ==> |r.calls| == 1 && r.calls[0].Object?
    ensures req.verb == "GET" && r.Calls? ==> r.calls[0].fields.Keys == req.query.Keys
    ensures r.Answer? ==>
      || r.reply == BadRequest
      || r.reply == ServerError(ParamsNotText)
      || (r.reply.Bare? && r.reply.entry.ErrorResponse? && r.reply.entry.kind == ParseError)
  {
    if req.verb == "GET" then
      if "params" in req.query then
        match req.query["params"]
        case Str(text) =>
          (match decode(text)
           case DecodeFailure(message) => Answer(ParseErrorReply(message))
           case Decoded(params) => Calls([Object(req.query["params" := params])]))
        case _ => Answer(ServerError(ParamsNotText))
      else
        Calls([Object(req.query)])
    else if req.verb == "POST" then
      match decode(req.body)
      case DecodeFailure(message) => Answer(ParseErrorReply(message))
      case Decoded(data) => if data.Array? then Calls(data.items) else Calls([data])
    else
      Answer(BadRequest)
  }

  /** The arguments a handler is called with: `*positional, **named`. */
  datatype Arguments = Arguments(positional: Value, named: map<string, Value>)

  /** The key of the vendor extension that carries positional arguments inside
      a named-parameter object. */
  const ArgsKey: string := "__args"

  /** Splits the `params` of a call into positional and named arguments. */
  function SplitParams(request: map<string, Value>): (args: Arguments)
    ensures Get(request, "params", Null).Array? ==>
      args.positional == request["params"] && args.named == map[]
    ensures !Get(request, "params", Null).Array? && !Get(request, "params", Null).Object? ==>
      args == Arguments(Array([]), map[])
    ensures Get(request, "params", Null).Object? ==>
      var fields := request["params"].fields;
      && args.positional == Get(fields, ArgsKey, Array([]))
      && args.named.Keys <= fields.Keys
      && (forall k :: k in args.named ==> args.named[k] == fields[k])
      && (forall k :: k in fields && k != ArgsKey ==> k in args.named)
      && (ArgsKey in args.named <==> ArgsKey in fields && !Truthy(fields[ArgsKey]))
  {
    var params := Get(request, "params", Array([]));
    match params
    case Array(_) => Arguments(params, map[])
    case Object(fields) =>
      var positional := Get(fields, ArgsKey, Array([]));
      Arguments(positional, if Truthy(positional) then fields - {ArgsKey} else fields)
    case _ => Arguments(Array([]), map[])
  }

  /** Nothing of a named-parameter object is lost in the split: putting the
      positional arguments back under `__args` gives the object again. */
  lemma SplitParamsIsLossless(request: map<string, Value>)
    requires "params" in request && request["params"].Object?
    ensures var fields := request["params"].fields;
      var args := SplitParams(request);
      (if ArgsKey in fields then args.named[ArgsKey := args.positional] else args.named) == fields
  {
  }

  /** Python's `part in text` on strings. */
  predicate Contains(text: string, part: string)
    decreases |text|
  {
    |part| <= |text| && (text[..|part|] == part || Contains(text[1..], part))
  }

  /** `part` occurs in `text` at position `i`. */
  ghost predicate OccursAt(text: string, part: string, i: int) {
    0 <= i <= |text| - |part| && text[i..i + |part|] == part
  }

  /** `Contains` agrees with the definition by position. */
  lemma {:induction false} ContainsIffOccurs(text: string, part: string)
    ensures Contains(text, part) <==> exists i :: OccursAt(text, part, i)
    decreases |text|
  {
    if |part| <= |text| {
      if text[..|part|] == part {
        assert OccursAt(text, part, 0);
      } else {
        ContainsIffOccurs(text[1..], part);
        if Contains(text[1..], part) {
          var i :| OccursAt(text[1..], part, i);
          assert text[i + 1..i + 1 + |part|] == text[1..][i..i + |part|];
          assert OccursAt(text, part, i + 1);
        }
        if exists i :: OccursAt(text, part, i) {
          var i :| OccursAt(text, part, i);
          assert i != 0;
          assert text[1..][i - 1..i - 1 + |part|] == text[i..i + |part|];
          assert OccursAt(text[1..], part, i - 1);
        }
      }
    }
  }

  /** A text holds every part it is built around. */
  lemma ContainsInfix(before: string, part: string, after: string)
    ensures Contains(before + part + after, part)
  {
    var text := before + part + after;
    assert text[|before|..|before| + |part|] == part;
    assert OccursAt(text, part, |before|);
    ContainsIffOccurs(text, part);
  }

  /** The text test that tells an arity mismatch from any other TypeError. */
  predicate IsArityMessage(message: string) {
    Contains(message, "takes exactly") && Contains(message, "arguments")
  }

  /** The entry a handler's outcome gives, or none. */
  function Classify(outcome: Outcome, jsonrpc: Value, id: Value): (r: Option<ResponseEntry>)
    ensures r.Some? ==> r.value.jsonrpc == jsonrpc && r.value.id == id
    ensures r.None? <==> outcome == Returned(Null) && !Truthy(id)
    ensures r.Some? && r.value.Successful? <==> outcome.Returned? && outcome.value != Null
    ensures r.Some? && r.value.Successful? ==> r.value.result == outcome.value
    ensures r.Some? && r.value.ErrorResponse? ==> r.value.kind in {InvalidParams, InternalError}
    ensures r.Some? && r.value.ErrorResponse? && r.value.kind == InvalidParams <==>
      outcome.RaisedTypeError? && IsArityMessage(outcome.message)
    ensures outcome == Returned(Null) && Truthy(id) ==>
      r == Some(ErrorResponse(InternalError, jsonrpc, id, Some(Str(NoResultMessage))))
    ensures outcome.RaisedTypeError? && IsArityMessage(outcome.message) ==>
      r == Some(ErrorResponse(InvalidParams, jsonrpc, id, None))
    ensures outcome.RaisedTypeError? && !IsArityMessage(outcome.message) ==>
      r == Some(ErrorResponse(InternalError, jsonrpc, id, Some(Str(outcome.message))))
    ensures outcome.Raised? ==>
      r == Some(ErrorResponse(InternalError, jsonrpc, id,
        Some(if outcome.data.Some? && Truthy(outcome.data.value) then outcome.data.value else Str(outcome.message))))
  {
    match outcome
    case Returned(result) =>
      if result == Null then
        if Truthy(id) then Some(ErrorResponse(InternalError, jsonrpc, id, Some(Str(NoResultMessage)))) else None
      else
        Some(Successful(jsonrpc, id, result))
    case RaisedTypeError(message) =>
      if IsArityMessage(message) then
        Some(ErrorResponse(InvalidParams, jsonrpc, id, None))
      else
        Some(ErrorResponse(InternalError, jsonrpc, id, Some(Str(message))))
    case Raised(message, data) =>
      var errorData := if data.Some? && Truthy(data.value) then data.value else Str(message);
      Some(ErrorResponse(InternalError, jsonrpc, id, Some(errorData)))
  }

  /** `str(request.get("method", ""))` */
  function MethodName(request: map<string, Value>): (r: Option<string>)
    ensures "method" !in request ==> r == Some("")
    ensures r.None? <==> "method" in request && request["method"].Str? && !IsAscii(request["method"].s)
    ensures "method" in request && request["method"].Str? && r.Some? ==> r.value == request["method"].s
  {
    PyStr(Get(request, "method", Str("")))
  }

  /** What one call of a batch comes to. */
  datatype CallResult = Answered(entry: ResponseEntry) | Silent | Escaped(fault: Fault)

  /** One iteration of the dispatch loop. */
  function DispatchCall(call: Value, registry: map<string, Handler>): (r: CallResult)
    ensures r.Escaped? <==> !call.Object? || MethodName(call.fields).None?
    ensures !call.Object? ==> r == Escaped(RequestNotAnObject)
    ensures r.Answered? ==>
      r.entry.jsonrpc == Get(call.fields, "jsonrpc", Null) && r.entry.id == Get(call.fields, "id", Null)
    ensures r.Answered? && r.entry.ErrorResponse? && r.entry.kind == MethodNotFound <==>
      call.Object? && MethodName(call.fields).Some? && MethodName(call.fields).value !in registry
    ensures r.Silent? <==>
      && call.Object? && MethodName(call.fields).Some? && MethodName(call.fields).value in registry
      && !Truthy(Get(call.fields, "id", Null))
      && var args := SplitParams(call.fields);
         registry[MethodName(call.fields).value](args.positional, args.named) == Returned(Null)
    ensures call.Object? && MethodName(call.fields).None? ==> r == Escaped(MethodNameNotAscii)
    ensures call.Object? && MethodName(call.fields).Some? && MethodName(call.fields).value !in registry ==>
      r == Answered(ErrorResponse(MethodNotFound, Get(call.fields, "jsonrpc", Null), Get(call.fields, "id", Null), None))
    ensures call.Object? && MethodName(call.fields).Some? && MethodName(call.fields).value in registry ==>
      var args := SplitParams(call.fields);
      var c := Classify(registry[MethodName(call.fields).value](args.positional, args.named),
                        Get(call.fields, "jsonrpc", Null), Get(call.fields, "id", Null));
      r == (if c.Some? then Answered(c.value) else Silent)
  {
    match call
    case Object(request) =>
      var jsonrpc := Get(request, "jsonrpc", Null);
      (match MethodName(request)
       case None => Escaped(MethodNameNotAscii)
       case Some(name) =>
         var id := Get(request, "id", Null);
         var args := SplitParams(request);
         if name !in registry then
           Answered(ErrorResponse(MethodNotFound, jsonrpc, id, None))
         else
           match Classify(registry[name](args.positional, args.named), jsonrpc, id)
           case Some(entry) => Answered(entry)
           case None => Silent)
    case _ => Escaped(RequestNotAnObject)
  }

  /** The entries of a list of calls, or the first exception that escapes. */
  datatype Collected = Collected(entries: seq<ResponseEntry>) | Failed(fault: Fault)

  /** The dispatch loop over `calls`, in order. */
  function Collect(calls: seq<Value>, registry: map<string, Handler>): (r: Collected)
    ensures r.Collected? ==> |r.entries| <= |calls|
    decreases |calls|
  {
    if calls == [] then Collected([])
    else
      match Collect(calls[..|calls| - 1], registry)
      case Failed(fault) => Failed(fault)
      case Collected(entries) =>
        match DispatchCall(calls[|calls| - 1], registry)
        case Answered(entry) => Collected(entries + [entry])
        case Silent => Collected(entries)
        case Escaped(fault) => Failed(fault)
  }

  /** Running one list of calls after another. */
  function Then(first: Collected, second: Collected): Collected {
    match first
    case Failed(fault) => Failed(fault)
    case Collected(entries) =>
      match second
      case Failed(fault) => Failed(fault)
      case Collected(more) => Collected(entries + more)
  }

  /** Calls are independent: the entries of a batch are those of its first
      part followed by those of the rest, and an error entry in one part
      does not stop the other. */
  lemma {:induction false} CollectAppend(a: seq<Value>, b: seq<Value>, registry: map<string, Handler>)
    ensures Collect(a + b, registry) == Then(Collect(a, registry), Collect(b, registry))
    decreases |b|
  {
    if b == [] {
      assert a + b == a;
      if Collect(a, registry).Collected? {
        assert Collect(a, registry).entries + [] == Collect(a, registry).entries;
      }
    } else {
      var n := |b| - 1;
      assert (a + b)[..|a + b| - 1] == a + b[..n];
      assert (a + b)[|a + b| - 1] == b[n];
      CollectAppend(a, b[..n], registry);
      match Collect(a, registry)
      case Failed(_) =>
      case Collected(ea) =>
        match Collect(b[..n], registry)
        case Failed(_) =>
        case Collected(eb) =>
          match DispatchCall(b[n], registry)
          case Answered(e) =>
            assert ea + eb + [e] == ea + (eb + [e]);
          case Silent =>
          case Escaped(_) =>
    }
  }

  /** Once a call raises, the rest of the loop does not run: the result of
      the whole list is the exception of that prefix. */
  lemma CollectStopsAtFailure(calls: seq<Value>, k: nat, registry: map<string, Handler>)
    requires k <= |calls| && Collect(calls[..k], registry).Failed?
    ensures Collect(calls, registry) == Collect(calls[..k], registry)
  {
    assert calls == calls[..k] + calls[k..];
    CollectAppend(calls[..k], calls[k..], registry);
  }

  /** The number of calls of a list that produce no entry. */
  function SilentCount(calls: seq<Value>, registry: map<string, Handler>): nat
    decreases |calls|
  {
    if calls == [] then 0
    else SilentCount(calls[..|calls| - 1], registry) + (if DispatchCall(calls[|calls| - 1], registry).Silent? then 1 else 0)
  }

  /** Each call contributes at most one entry: exactly one unless it is
      silent. */
  lemma {:induction false} CollectAnswersEveryNonSilentCall(calls: seq<Value>, registry: map<string, Handler>)
    requires Collect(calls, registry).Collected?
    ensures |Collect(calls, registry).entries| == |calls| - SilentCount(calls, registry)
    ensures |Collect(calls, registry).entries| <= |calls|
    decreases |calls|
  {
    if calls != [] {
      CollectAnswersEveryNonSilentCall(calls[..|calls| - 1], registry);
    }
  }

  /** The loop ends in an exception exactly when some call raises one, and
      then in the exception of the first such call. */
  lemma {:induction false} CollectFailsAtFirstEscape(calls: seq<Value>, registry: map<string, Handler>)
    ensures Collect(calls, registry).Failed? <==>
      exists i :: 0 <= i < |calls| && DispatchCall(calls[i], registry).Escaped?
    ensures forall i ::
      (0 <= i < |calls| && DispatchCall(calls[i], registry).Escaped? &&
       forall j :: 0 <= j < i ==> !DispatchCall(calls[j], registry).Escaped?) ==>
        Collect(calls, registry) == Failed(DispatchCall(calls[i], registry).fault)
    decreases |calls|
  {
    if calls != [] {
      var n := |calls| - 1;
      var p := calls[..n];
      CollectFailsAtFirstEscape(p, registry);
      forall i | 0 <= i < n ensures p[i] == calls[i] { }
      if exists i :: 0 <= i < |calls| && DispatchCall(calls[i], registry).Escaped? {
        var i :| 0 <= i < |calls| && DispatchCall(calls[i], registry).Escaped?;
        if i < n {
          assert DispatchCall(p[i], registry).Escaped?;
        }
      }
    }
  }

  /** Lines 225-230: a single call is answered with its entry as a bare
      object, several with the list of entries, none with no body. */
  function Assemble(callCount: nat, entries: seq<ResponseEntry>): (r: Reply)
    ensures r == NoContent <==> callCount == 0
    ensures r.List? <==> callCount > 1
    ensures r.List? ==> r.entries == entries
    ensures r.Bare? <==> callCount == 1 && entries != []
    ensures r.Bare? ==> r.entry == entries[0]
    ensures r == ServerError(NoEntryToReturn) <==> callCount == 1 && entries == []
  {
    if callCount == 1 then
      if |entries| > 0 then Bare(entries[0]) else ServerError(NoEntryToReturn)
    else if callCount > 1 then
      List(entries)
    else
      NoContent
  }

  /** The reply to the calls of one request. */
  function Respond(calls: seq<Value>, registry: map<string, Handler>): (r: Reply)
    ensures r == NoContent <==> calls == []
    ensures r.List? ==> |calls| > 1 && |r.entries| <= |calls|
    ensures r.Bare? ==> |calls| == 1
    ensures r.ServerError? || r.Bare? || r.List? || r == NoContent
  {
    match Collect(calls, registry)
    case Failed(fault) => ServerError(fault)
    case Collected(entries) => Assemble(|calls|, entries)
  }

  /** What `default` returns for a request. */
  function Handle(req: HttpRequest, registry: map<string, Handler>, decode: Decoder): (r: Reply)
    ensures r == BadRequest <==> req.verb != "GET" && req.verb != "POST"
    ensures req.verb == "GET" ==> r.Bare? || r.ServerError?
  {
    match Normalize(req, decode)
    case Answer(reply) => reply
    case Calls(calls) => Respond(calls, registry)
  }

  /** A verb other than GET or POST is refused before anything is decoded. */
  lemma OtherVerbsAreRefused(req: HttpRequest, registry: map<string, Handler>, decode: Decoder)
    requires req.verb != "GET" && req.verb != "POST"
    ensures Handle(req, registry, decode) == BadRequest
  {
  }

  /** A body or a GET `params` the decoder rejects is answered with one parse
      error carrying the decoder's message, whatever the registry holds: no
      call is dispatched. */
  lemma ParseFailureDispatchesNothing(req: HttpRequest, r1: map<string, Handler>, r2: map<string, Handler>,
                                      decode: Decoder)
    requires req.verb == "POST" || (req.verb == "GET" && "params" in req.query && req.query["params"].Str?)
    requires var text := if req.verb == "POST" then req.body else req.query["params"].s;
      decode(text).DecodeFailure?
    ensures var text := if req.verb == "POST" then req.body else req.query["params"].s;
      Handle(req, r1, decode) == Handle(req, r2, decode) == ParseErrorReply(decode(text).message)
  {
  }

  /** A GET request is one call: the query with `params` decoded in place. */
  lemma GetIsOneCall(req: HttpRequest, registry: map<string, Handler>, decode: Decoder)
    requires req.verb == "GET"
    requires "params" in req.query ==> req.query["params"].Str? && decode(req.query["params"].s).Decoded?
    ensures var call := if "params" in req.query
        then Object(req.query["params" := decode(req.query["params"].s).value])
        else Object(req.query);
      Handle(req, registry, decode) == Respond([call], registry)
  {
  }

  /** A POST body that decodes to an array is a batch of its elements in
      order; any other value is one call. */
  lemma PostBodyIsBatchOrCall(req: HttpRequest, registry: map<string, Handler>, decode: Decoder)
    requires req.verb == "POST" && decode(req.body).Decoded?
    ensures var data := decode(req.body).value;
      Handle(req, registry, decode) == Respond(if data.Array? then data.items else [data], registry)
  {
  }

  /** A one-element batch is answered exactly like the bare call it holds,
      with a bare object rather than an array. */
  lemma OneElementBatchIsAnsweredBare(req1: HttpRequest, req2: HttpRequest, call: Value,
                                      registry: map<string, Handler>, decode: Decoder)
    requires req1.verb == "POST" && req2.verb == "POST" && !call.Array?
    requires decode(req1.body) == Decoded(Array([call])) && decode(req2.body) == Decoded(call)
    ensures Handle(req1, registry, decode) == Handle(req2, registry, decode)
    ensures Handle(req1, registry, decode).Bare? || Handle(req1, registry, decode).ServerError?
  {
  }

  /** An empty batch has no body, and no handler runs. */
  lemma EmptyBatchHasNoBody(registry: map<string, Handler>)
    ensures Respond([], registry) == NoContent
  {
  }

  /** A single call that produces no entry (a notification whose handler
      returned nothing) makes `responses[0]` fail. */
  lemma SilentSingleCallFails(call: Value, registry: map<string, Handler>)
    requires DispatchCall(call, registry).Silent?
    ensures Respond([call], registry) == ServerError(NoEntryToReturn)
  {
    assert [call][..0] == [];
    assert Collect([call], registry) == Collected([]);
  }

  /** A single call that is answered gets its entry back as a bare object. */
  lemma AnsweredSingleCallIsBare(call: Value, registry: map<string, Handler>)
    requires DispatchCall(call, registry).Answered?
    ensures Respond([call], registry) == Bare(DispatchCall(call, registry).entry)
  {
    assert [call][..0] == [];
    assert Collect([call], registry) == Collected([DispatchCall(call, registry).entry]);
  }

  /** Several calls are answered with an array holding one entry per call
      that is not silent, in call order. */
  lemma BatchIsAnsweredWithList(calls: seq<Value>, registry: map<string, Handler>)
    requires |calls| > 1
    requires forall i :: 0 <= i < |calls| ==> !DispatchCall(calls[i], registry).Escaped?
    ensures Respond(calls, registry).List?
    ensures |Respond(calls, registry).entries| == |calls| - SilentCount(calls, registry)
    ensures forall k :: 0 <= k < |calls| ==>
      Collect(calls[..k], registry).Collected? && Collect(calls[k..], registry).Collected? &&
      Respond(calls, registry) ==
        List(Collect(calls[..k], registry).entries + Collect(calls[k..], registry).entries)
  {
    CollectFailsAtFirstEscape(calls, registry);
    CollectAnswersEveryNonSilentCall(calls, registry);
    forall k | 0 <= k < |calls|
      ensures Collect(calls[..k], registry).Collected? && Collect(calls[k..], registry).Collected?
      ensures Respond(calls, registry) ==
        List(Collect(calls[..k], registry).entries + Collect(calls[k..], registry).entries)
    {
      assert calls == calls[..k] + calls[k..];
      CollectAppend(calls[..k], calls[k..], registry);
      CollectFailsAtFirstEscape(calls[..k], registry);
      CollectFailsAtFirstEscape(calls[k..], registry);
      forall i | 0 <= i < k ensures calls[..k][i] == calls[i] { }
      forall i | 0 <= i < |calls| - k ensures calls[k..][i] == calls[k + i] { }
    }
  }

  /** `default` as written: `responses = []` at line 78 rebinds the name of
      the `responses` module, so every `responses.XxxResponse(...)` looks the
      constructor up on a list and raises AttributeError. Inside the handler's
      `try`, the second lookup in the `except` clause raises again; either way
      the exception escapes. Only a silent call gets through. */
  function DispatchCallAsWritten(call: Value, registry: map<string, Handler>): (r: CallResult)
    ensures !r.Answered?
    ensures r.Silent? <==> DispatchCall(call, registry).Silent?
  {
    match call
    case Object(request) =>
      (match MethodName(request)
       case None => Escaped(MethodNameNotAscii)
       case Some(name) =>
         var id := Get(request, "id", Null);
         var args := SplitParams(request);
         if name !in registry then Escaped(ResponsesShadowed)
         else if registry[name](args.positional, args.named) == Returned(Null) && !Truthy(id) then Silent
         else Escaped(ResponsesShadowed))
    case _ => Escaped(RequestNotAnObject)
  }

  /** As written, every call the intended dispatcher answers raises instead;
      the other calls behave the same. */
  lemma AsWrittenRaisesWhereAnswered(call: Value, registry: map<string, Handler>)
    ensures DispatchCall(call, registry).Answered? ==>
      DispatchCallAsWritten(call, registry) == Escaped(ResponsesShadowed)
    ensures !DispatchCall(call, registry).Answered? ==>
      DispatchCallAsWritten(call, registry) == DispatchCall(call, registry)
  {
  }
}
