/** The serving object `JsonRpcMethods` of cpjsonrpcserver/__init__.py: the
    constructor scans the object's attributes into the method registry, and
    `Default` answers a request. */
module Server {
  import opened Json
  import opened Responses
  import opened Registry
  import opened Dispatch

  class JsonRpcMethods {
    /** Turns on logging, which is not part of this model. */
    const debug: bool
    /** `rpc_methods`: method name to handler. */
    var rpcMethods: map<string, Handler>

    /** `__init__`: registers every attribute whose name qualifies and whose
        function object is exposed, and deletes that object's `exposed`
        flag. `attributes` is `dir(self)` with what `getattr` finds. */
    constructor (attributes: seq<Binding>, debug: bool)
      modifies Items(attributes)
      ensures this.debug == debug
      ensures Scanned(rpcMethods, Flags(Items(attributes))) == Scan(attributes, old(Flags(Items(attributes))))
    {
      ghost var items := Items(attributes);
      ghost var flags0 := Flags(items);
      var registry: map<string, Handler> := map[];
      var i := 0;
      while i < |attributes|
        invariant 0 <= i <= |attributes|
        invariant Scan(attributes[..i], flags0) == Scanned(registry, Flags(items))
      {
        var name := attributes[i].name;
        var item := attributes[i].item;
        ghost var before := Flags(items);
        assert item in items;
        ScanStep(attributes, i, flags0);
        if !(|name| > 0 && name[0] == '_') && name != "default" && item.exposed.Some? && Truthy(item.exposed.value) {
          registry := registry[name := item.handler];
          item.exposed := None;
          assert Flags(items) == before[item := None];
        }
        i := i + 1;
      }
      assert attributes[..i] == attributes;
      this.debug := debug;
      rpcMethods := registry;
    }

    /** One iteration of the loop of `default`: the entry one call is
        answered with, or the exception it raises. */
    method DispatchOne(request: Value) returns (result: CallResult)
      ensures result == DispatchCall(request, rpcMethods)
    {
      if !request.Object? {
        return Escaped(RequestNotAnObject);
      }
      var jsonrpc := Get(request.fields, "jsonrpc", Null);
      var name := PyStr(Get(request.fields, "method", Str("")));
      if name.None? {
        return Escaped(MethodNameNotAscii);
      }
      var id := Get(request.fields, "id", Null);
      var args := SplitParams(request.fields);
      if name.value !in rpcMethods {
        return Answered(ErrorResponse(MethodNotFound, jsonrpc, id, None));
      }
      var rpcFunction := rpcMethods[name.value];
      var outcome := rpcFunction(args.positional, args.named);
      var entry := Classify(outcome, jsonrpc, id);
      if entry.Some? {
        result := Answered(entry.value);
      } else {
        result := Silent;
      }
    }

    /** The first part of `default`: the calls a request carries, or the
        reply given before any call runs. */
    method Requests(req: HttpRequest, decode: Decoder) returns (normalized: Normalized)
      ensures normalized == Normalize(req, decode)
    {
      if req.verb == "GET" {
        var data := req.query;
        if "params" in data {
          if !data["params"].Str? {
            return Answer(ServerError(ParamsNotText));
          }
          match decode(data["params"].s)
          case DecodeFailure(message) =>
            return Answer(ParseErrorReply(message));
          case Decoded(params) =>
            data := data["params" := params];
        }
        normalized := Calls([Object(data)]);
      } else if req.verb == "POST" {
        match decode(req.body)
        case DecodeFailure(message) =>
          return Answer(ParseErrorReply(message));
        case Decoded(data) =>
          if data.Array? {
            normalized := Calls(data.items);
          } else {
            normalized := Calls([data]);
          }
      } else {
        normalized := Answer(BadRequest);
      }
    }

    /** `default`: normalises the request, dispatches every call in order and
        assembles the reply. */
    method Default(req: HttpRequest, decode: Decoder) returns (reply: Reply)
      ensures reply == Handle(req, rpcMethods, decode)
    {
      var normalized := Requests(req, decode);
      if normalized.Answer? {
        return normalized.reply;
      }
      reply := AnswerCalls(normalized.calls);
    }

    /** The rest of `default`: the loop over the calls, then the reply built
        from the entries. */
    method AnswerCalls(requests: seq<Value>) returns (reply: Reply)
      ensures reply == Respond(requests, rpcMethods)
    {
      var responses: seq<ResponseEntry> := [];
      var i := 0;
      while i < |requests|
        invariant 0 <= i <= |requests|
        invariant Collect(requests[..i], rpcMethods) == Collected(responses)
      {
        assert requests[..i + 1][..i] == requests[..i];
        var result := DispatchOne(requests[i]);
        match result {
          case Escaped(fault) =>
            CollectStopsAtFailure(requests, i + 1, rpcMethods);
            return ServerError(fault);
          case Answered(entry) =>
            responses := responses + [entry];
          case Silent =>
        }
        i := i + 1;
      }
      assert requests[..i] == requests;

      if |requests| == 1 {
        if |responses| == 0 {
          return ServerError(NoEntryToReturn);
        }
        reply := Bare(responses[0]);
      } else if |requests| > 1 {
        reply := List(responses);
      } else {
        reply := NoContent;
      }
    }
  }
}
