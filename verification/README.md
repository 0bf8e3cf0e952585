# cherrypy-jsonrpcserver: the JSON-RPC dispatcher, modelled in Dafny

`cpjsonrpcserver` turns a CherryPy object into a JSON-RPC 2.0 endpoint.
Subclass `JsonRpcMethods`, mark methods `exposed`, and the class does two things:

- `__init__` registers the exposed methods by name.
- `default` takes every HTTP request. It decodes the JSON-RPC call or batch from the GET query or the POST body, calls the handlers, and turns each outcome into a response entry. It returns one object, an array or no body.

This project models both operations and proves what they do.

- `json.dfy` (module `Json`): decoded JSON values. It also holds the Python built-ins the dispatcher applies to them: the truth value, `dict.get`, and Python 2 `str()`, which fails on non-ASCII text.
- `responses.dfy` (module `Responses`): the error kinds and codes of section 5.1 of the JSON-RPC 2.0 Specification. It defines the response entries and what `default` gives back: a bare entry, a list, no body, HTTP 400, or an exception that escapes to CherryPy.
- `registry.dfy` (module `Registry`): the attribute scan of `__init__` as a function `Scan` over `dir(self)`. Function objects are heap objects (`class Attribute`), so two names may share one. Deleting an `exposed` flag is visible through every name bound to that object, and to every later instance of the class.
- `dispatch.dfy` (module `Dispatch`): what `default` computes, as functions:
  - `Normalize` turns the request into calls;
  - `SplitParams` splits each call's arguments;
  - `Classify` turns a handler outcome into an entry;
  - `DispatchCall` dispatches one call and `Collect` the loop over all of them;
  - `Assemble` builds the reply and `Handle` runs the whole request.
- `server.dfy` (module `Server`): the class `JsonRpcMethods`.
  - Its constructor runs the imperative scan loop, which updates the shared `exposed` flags in place. It is proved equal to `Scan`.
  - `Default` reads the calls with `Requests` and answers them with `AnswerCalls`, the imperative request loop; `DispatchOne` is one iteration of it. `Default` is proved to return `Handle`.
- `simple_testserver.dfy` (module `SimpleTestServer`): the example server with `hello` and `multi`. It shows the registry it gets and the replies to a few concrete requests.

Where the code and its documentation differ, the model follows the code:

- A call to an unknown method always gets a MethodNotFound entry, even when it is a notification (no id).
- A notification whose handler returns a value gets a Successful entry. Only a handler result of `None` together with a falsy id produces no entry. The test is Python's truth value, so an id of `0` or `""` also counts as a notification.
- A handler that returns `None` for a call with a truthy id gets an InternalError entry with the data "No result from JSON-RPC method.".
- A one-element batch `[call]` is answered with a bare object, not with a one-element array.
- An empty batch `[]` gets no body, not an Invalid Request error.
- A single call that produces no entry makes `responses[0]` raise IndexError.
- The code never produces Invalid Request. A call that is not a JSON object makes `request.get` raise AttributeError. A method name that is not ASCII makes `str()` raise UnicodeEncodeError. Both escape `default`, and so does a GET `params` that is not text.
- Any TypeError whose text contains both "takes exactly" and "arguments" becomes InvalidParams. Any other TypeError becomes InternalError carrying its text. Other exceptions become InternalError carrying their `data` attribute when it is truthy, and their text otherwise.
- A ParseError entry is built without `jsonrpc` and without `id`.

## Model

| member | source | states |
|---|---|---|
| Json.PyStr | cpjsonrpcserver/__init__.py:135 | `str()` of the method value fails exactly on non-ASCII text; ASCII text is kept unchanged |
| Responses.Code | cpjsonrpcserver/__init__.py:8 | reproduces the error-code table of section 5.1 of the JSON-RPC 2.0 Specification, which the imported `responses` module implements (that module is not part of this model): each code lies in the reserved range -32768..-32000, and ParseError and InternalError are identified by their codes |
| Responses.KindOfCode | cpjsonrpcserver/__init__.py:8 | reading a code back gives only a kind whose code it is |
| Responses.CodeRoundTrip | cpjsonrpcserver/__init__.py:8 | every kind is read back from its own code, so no two kinds share a code |
| Responses.ParseErrorReply | cpjsonrpcserver/__init__.py:96-100 | a parse failure is answered with a bare entry of code -32700 carrying the decoder's message as its data, with neither `jsonrpc` nor `id` |
| Registry.Qualifies | cpjsonrpcserver/__init__.py:60-63 | definition, no contract of its own: the name test of the scan; `Registry.ScanRegistersOnlyQualifyingNames` and `Registry.ScanRegistersFirstExposedNames` state it |
| Registry.IsExposed | cpjsonrpcserver/__init__.py:65 | definition, no contract of its own: `hasattr(item, "exposed") and item.exposed`; `Registry.ScanRegistersExposedNames` and `Registry.ScanOfUnexposed` state it |
| Registry.Visit | cpjsonrpcserver/__init__.py:60-68 | one iteration of the scan keeps the set of function objects whose flags it tracks; what it registers is stated by `Registry.ScanRegistersFirstExposedNames` |
| Registry.Scan | cpjsonrpcserver/__init__.py:58-69 | the scan keeps the set of tracked function objects; the lemmas below state what it registers and which flags it deletes |
| Registry.ScanRegistersOnlyQualifyingNames | cpjsonrpcserver/__init__.py:60-63 | no registered name starts with `_`, and `default` is never registered |
| Registry.ScanClearsFlags | cpjsonrpcserver/__init__.py:59-68 | the scan deletes the `exposed` flag of exactly those function objects that were exposed and are bound to a qualifying name; every other flag, including `default`'s, is unchanged |
| Registry.ScanRegistersFirstExposedNames | cpjsonrpcserver/__init__.py:58-69 | the registry holds a name iff it is the first qualifying name (no leading `_`, not `default`) bound to an exposed function object; it maps that name to that object's handler and holds no other name |
| Registry.ScanRegistersExposedNames | cpjsonrpcserver/__init__.py:59-67 | when no two qualifying names share a function object, a name is registered iff it qualifies and its object is exposed |
| Registry.ScanOfUnexposed | cpjsonrpcserver/__init__.py:65 | when no qualifying name is bound to an exposed object, nothing is registered and no flag changes |
| Registry.RescanRegistersNothing | cpjsonrpcserver/__init__.py:68 | the flags are deleted on the shared function objects, so scanning the same attributes again (a second instance of the class) registers nothing |
| Server.JsonRpcMethods.constructor | cpjsonrpcserver/__init__.py:51-69 | the imperative scan leaves the registry and the objects' `exposed` flags exactly as `Scan` specifies, starting from the flags as they were |
| Server.JsonRpcMethods.Default | cpjsonrpcserver/__init__.py:72-230 | reading the calls with `Requests` and answering them with `AnswerCalls` returns exactly `Handle` of the request with the instance's registry |
| Server.JsonRpcMethods.Requests | cpjsonrpcserver/__init__.py:84-126 | the imperative GET/POST block yields exactly `Normalize` of the request |
| Server.JsonRpcMethods.AnswerCalls | cpjsonrpcserver/__init__.py:129-230 | the imperative request loop and the reply built after it give exactly `Respond` of the calls with the instance's registry |
| Server.JsonRpcMethods.DispatchOne | cpjsonrpcserver/__init__.py:131-222 | one iteration of the request loop returns exactly `DispatchCall` of the call with the instance's registry |
| Dispatch.Normalize | cpjsonrpcserver/__init__.py:84-126 | only a verb other than GET or POST is refused with HTTP 400; a GET is exactly one call, an object with the query's keys; any other early reply is a ParseError entry or the exception of a GET `params` that is not text |
| Dispatch.MethodName | cpjsonrpcserver/__init__.py:135 | a missing method is the empty name; the name fails exactly when it is non-ASCII text; text is kept unchanged |
| Dispatch.SplitParams | cpjsonrpcserver/__init__.py:140-150 | a list of params is positional; an object's `__args` entry is positional and the rest is named; `__args` stays among the named arguments iff it is falsy; any other params value gives no arguments |
| Dispatch.SplitParamsIsLossless | cpjsonrpcserver/__init__.py:146-150 | putting the positional arguments back under `__args` gives the named-parameter object again |
| Dispatch.IsArityMessage | cpjsonrpcserver/__init__.py:197 | definition, no contract of its own: the text test `"takes exactly" in msg and "arguments" in msg`; `Dispatch.Classify` and `SimpleTestServer.ArityErrorIsArityMessage` state it |
| Dispatch.ContainsIffOccurs | cpjsonrpcserver/__init__.py:197 | `part in text` holds iff `part` occurs at some position of `text` |
| Dispatch.ContainsInfix | cpjsonrpcserver/__init__.py:197 | a text built around a part contains that part |
| Dispatch.Classify | cpjsonrpcserver/__init__.py:173-222 | entries echo `jsonrpc` and `id`; no entry iff the handler returned `None` and the id is falsy; `None` with a truthy id gives InternalError with data "No result from JSON-RPC method."; Successful iff a non-`None` value was returned, carrying it; InvalidParams, with no data, iff a TypeError with an arity message; any other TypeError gives InternalError with its text; any other exception gives InternalError with its truthy `data` or else its text |
| Dispatch.DispatchCall | cpjsonrpcserver/__init__.py:129-222 | a call escapes iff it is not an object (RequestNotAnObject) or its method name is not ASCII (MethodNameNotAscii); entries echo `jsonrpc` and `id`; MethodNotFound iff the name is not registered, and then with no data; a registered call gets the entry `Classify` gives for its handler's outcome on the split arguments, and is silent iff that handler returns `None` for a call with a falsy id |
| Dispatch.Collect | cpjsonrpcserver/__init__.py:129-222 | the loop never yields more entries than calls; its other properties are stated by the three lemmas below |
| Dispatch.CollectAppend | cpjsonrpcserver/__init__.py:129-222 | calls are independent: the loop over `a + b` gives the entries of `a` followed by those of `b`, or the first exception |
| Dispatch.CollectAnswersEveryNonSilentCall | cpjsonrpcserver/__init__.py:129-222 | the loop yields one entry per call that is not silent, so never more entries than calls |
| Dispatch.CollectFailsAtFirstEscape | cpjsonrpcserver/__init__.py:129-138 | the loop ends in an exception iff some call raises one, and then in the exception of the first such call |
| Dispatch.CollectStopsAtFailure | cpjsonrpcserver/__init__.py:129-222 | once a call raises, the rest of the batch is not dispatched: the whole loop ends in that prefix's exception |
| Dispatch.Respond | cpjsonrpcserver/__init__.py:129-230 | no body iff there are no calls; a list only for several calls, never with more entries than calls; a bare object only for one call; otherwise an exception escapes |
| Dispatch.Assemble | cpjsonrpcserver/__init__.py:225-230 | no body iff there were no calls; an array of all entries iff several calls; a bare object holding the first entry iff one call with an entry; IndexError iff one call without one |
| Dispatch.Handle | cpjsonrpcserver/__init__.py:72-230 | HTTP 400 iff the verb is neither GET nor POST; a GET is always answered with a single object unless an exception escapes |
| Dispatch.OtherVerbsAreRefused | cpjsonrpcserver/__init__.py:122-126 | a verb other than GET or POST is answered with HTTP 400 |
| Dispatch.ParseFailureDispatchesNothing | cpjsonrpcserver/__init__.py:91-117 | undecodable input is answered with a ParseError carrying the decoder's message, whatever the registry holds |
| Dispatch.GetIsOneCall | cpjsonrpcserver/__init__.py:84-101 | a GET is one call: the query with `params` decoded in place |
| Dispatch.PostBodyIsBatchOrCall | cpjsonrpcserver/__init__.py:102-121 | a POST body that decodes to an array is a batch of its elements in order; any other value is one call |
| Dispatch.OneElementBatchIsAnsweredBare | cpjsonrpcserver/__init__.py:118-121 | `[call]` is answered exactly as `call` is, with a bare object or an exception |
| Dispatch.EmptyBatchHasNoBody | cpjsonrpcserver/__init__.py:229-230 | an empty batch gets no body |
| Dispatch.SilentSingleCallFails | cpjsonrpcserver/__init__.py:225-226 | a single call that produces no entry makes `responses[0]` raise |
| Dispatch.AnsweredSingleCallIsBare | cpjsonrpcserver/__init__.py:225-226 | a single answered call gets its entry back as a bare object |
| Dispatch.BatchIsAnsweredWithList | cpjsonrpcserver/__init__.py:227-228 | a batch of several calls, none raising, is answered with an array of one entry per non-silent call, in call order |
| Dispatch.DispatchCallAsWritten | cpjsonrpcserver/__init__.py:78 | with `responses` shadowed, no call is ever answered; a call passes exactly when the intended dispatcher leaves it silent |
| Dispatch.AsWrittenRaisesWhereAnswered | cpjsonrpcserver/__init__.py:78 | as written, every call the dispatcher should answer raises instead; every other call behaves the same |
| SimpleTestServer.BindOne | examples/simple_testserver/simple_testserver.py:18 | a one-parameter method binds iff it is given exactly one argument, positional or by its parameter's name; more than one positional argument is the arity TypeError; the bound value is the argument given; every failure is a TypeError |
| SimpleTestServer.Hello | examples/simple_testserver/simple_testserver.py:18-20 | `hello` only returns or raises TypeError; what it returns is text starting "Hello "; given one text argument it returns "Hello " followed by it |
| SimpleTestServer.Multi | examples/simple_testserver/simple_testserver.py:23-25 | `multi` only returns or raises TypeError; given one integer argument it returns its double |
| SimpleTestServer.ArityErrorIsArityMessage | cpjsonrpcserver/__init__.py:197 | Python's "takes exactly 2 arguments (n given)" TypeError always passes the arity test |
| SimpleTestServer.TestServerRegistersHelloAndMulti | examples/simple_testserver/simple_testserver.py:16-25 | of `__init__`, `debug`, `default`, `hello` and `multi`, exactly `hello` and `multi` are registered |
| SimpleTestServer.HelloGreets | examples/simple_testserver/simple_testserver.py:18-20 | any `hello` call with one text argument is answered "Hello " followed by it, echoing `jsonrpc` and `id` |
| SimpleTestServer.HelloNeedsItsArgument | cpjsonrpcserver/__init__.py:194-200 | any `hello` call without arguments is answered with InvalidParams |
| SimpleTestServer.MultiDoubles | examples/simple_testserver/simple_testserver.py:23-25 | any `multi` call with one integer argument is answered with its double |
| SimpleTestServer.HelloWorld | examples/simple_testserver/simple_testserver.py:18-20 | the call `hello("World")` with id 1 is answered "Hello World" with id 1, as a bare object |
| SimpleTestServer.NopeIsNotFound | cpjsonrpcserver/__init__.py:164-170 | an unregistered method name gets MethodNotFound |
| SimpleTestServer.HelloX | examples/simple_testserver/simple_testserver.py:18-20 | `hello("X")` is answered "Hello X" for any id |
| SimpleTestServer.UnknownMethodInBatch | cpjsonrpcserver/__init__.py:164-170 | in a batch, an unknown method gets MethodNotFound and the next call is still answered, in order |
| SimpleTestServer.HelloByGet | cpjsonrpcserver/__init__.py:84-101 | a GET query's `params` is decoded before dispatch; the id stays the query's text |
| SimpleTestServer.HelloNoArgument | cpjsonrpcserver/__init__.py:194-200 | `hello()` with no argument raises the arity TypeError and gets InvalidParams, for any id |
| SimpleTestServer.HelloWithoutArgument | cpjsonrpcserver/__init__.py:194-200 | `hello()` with no argument is answered with InvalidParams |
| SimpleTestServer.NotificationWithResultIsAnswered | cpjsonrpcserver/__init__.py:177-193 | a notification to `multi(21)` is still answered, with result 42 and id `null` |
| SimpleTestServer.ShadowedResponsesBreakHelloWorld | cpjsonrpcserver/__init__.py:78 | as written, the `hello("World")` call raises instead of being answered |

## Left out

- CherryPy plumbing (`_raw_body_reader`, `set_content_type_json`, `_cp_config`, `default.exposed`): HTTP framing and headers are not modelled. The reply is the value `default` returns or the exception it raises.
- Logging, `traceback` formatting and the `debug` flag: output only. `debug` is kept as a field that nothing reads.
- JSON text parsing and serialisation (`json.loads`, `json.dumps`): the decoder is a parameter (`Decoder`). Entries stand for the dicts `to_dict()` would produce. The `responses` and `tools` modules are not part of this model, so the exact dict layout is not stated.
- Floating-point numbers: JSON numbers are integers only.
- Handlers are pure functions from arguments to an outcome. State a handler keeps between calls, and side effects, are not modelled.
- Python's binding of `*positional, **named` to a handler's parameters is user-side. Only the example handlers model it, simplified in `SimpleTestServer.BindOne`.
- `getattr` failing, or an `exposed` flag that is set but not in the function's `__dict__`: the scan assumes `getattr` succeeds and the flag can be deleted.
- The order of `dir(self)` (sorted by Python) is taken as given in the attribute sequence. `Registry.ScanRegistersFirstExposedNames` assumes the names are distinct, as `dir` guarantees.
- Json.PyStr: `str()` of a JSON array or object is given a fixed marker text rather than Python's rendering of the list or dict. A method name of that shape, which no Python identifier is, is simply not found.
- The parse-error reply at lines 96-100 and 113-117 also looks up `responses.ParseErrorResponse` on the shadowing list. As written it raises too. Only the dispatch loop has an as-written member.
- Dispatch.Classify: exception texts are taken as already decoded text. For a non-ASCII byte-string message, `unicode(err)` at lines 197, 206 and 220 raises UnicodeDecodeError out of the `except` clause; that exception is not modelled.
- Concurrency: CherryPy may run `default` on several threads at once. The model takes one request at a time.

## Findings

| source | as written | input that shows it | evidently intended | confidence | as-written member | corrected member |
|---|---|---|---|---|---|---|
| cpjsonrpcserver/__init__.py:78 | `responses = []` rebinds the name of the imported `responses` module, so every `responses.XxxResponse(...)` in `default` looks the constructor up on a list and raises AttributeError | POST `{"jsonrpc":"2.0","method":"hello","params":["World"],"id":1}` to the example server | `responses` should be a separate list, so that the call is answered `{"jsonrpc":"2.0","id":1,"result":"Hello World"}` | high, not executed | Dispatch.DispatchCallAsWritten (shown by SimpleTestServer.ShadowedResponsesBreakHelloWorld) | Dispatch.DispatchCall (with SimpleTestServer.HelloWorld) |
