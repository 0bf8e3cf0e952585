/** The response side of the dispatcher: the JSON-RPC error kinds, the
    response entries the `responses` constructors build, and what `default`
    finally gives back to CherryPy. */
module Responses {
  import opened Json

  /** The five error kinds of section 5.1 of the JSON-RPC 2.0 Specification. */
  datatype ErrorKind = ParseError | InvalidRequest | MethodNotFound | InvalidParams | InternalError

  /** The error codes section 5.1 of the JSON-RPC 2.0 Specification assigns;
      they lie in the range it reserves for pre-defined errors. */
  function Code(kind: ErrorKind): (code: int)
    ensures -32768 <= code <= -32000
    ensures kind == ParseError <==> code == -32700
    ensures kind == InternalError <==> code == -32603
  {
    match kind
    case ParseError => -32700
    case InvalidRequest => -32600
    case MethodNotFound => -32601
    case InvalidParams => -32602
    case InternalError => -32603
  }

  /** The error kind a client reads back from a code, if any. */
  function KindOfCode(code: int): (kind: Option<ErrorKind>)
    ensures kind.Some? ==> Code(kind.value) == code
  {
    if code == -32700 then Some(ParseError)
    else if code == -32600 then Some(InvalidRequest)
    else if code == -32601 then Some(MethodNotFound)
    else if code == -32602 then Some(InvalidParams)
    else if code == -32603 then Some(InternalError)
    else None
  }

  /** The code of an entry identifies its kind. */
  lemma CodeRoundTrip(kind: ErrorKind)
    ensures KindOfCode(Code(kind)) == Some(kind)
  {
  }

  /** One answer to one call: `SuccessfulResponse` or one of the error
      responses. `jsonrpc` and `id` are echoed from the call (`Null` when the
      call has none); an entry carries a result or an error, never both. */
  datatype ResponseEntry =
    | Successful(jsonrpc: Value, id: Value, result: Value)
    | ErrorResponse(kind: ErrorKind, jsonrpc: Value, id: Value, data: Option<Value>)

  /** An exception that escapes `default` (CherryPy answers it with status 500). */
  datatype Fault =
    | RequestNotAnObject   // `request.get` on a call that is not a dict: AttributeError
    | MethodNameNotAscii   // `str()` on a non-ASCII unicode method name: UnicodeEncodeError
    | ParamsNotText        // `json.loads` on a GET `params` that is not a string: TypeError
    | NoEntryToReturn      // `responses[0]` on an empty list: IndexError
    | ResponsesShadowed    // `responses.XxxResponse` looked up on a list: AttributeError

  /** What `default` produces. */
  datatype Reply =
    | BadRequest                          // HTTP 400, neither GET nor POST
    | Bare(entry: ResponseEntry)          // one JSON object
    | List(entries: seq<ResponseEntry>)   // a JSON array
    | NoContent                           // `None`: no body
    | ServerError(fault: Fault)           // an exception escaped

  const NoResultMessage: string := "No result from JSON-RPC method."

  /** `ParseErrorResponse(data = message)`: the constructor is given no
      `jsonrpc` and no `id`. */
  function ParseErrorReply(message: string): (r: Reply)
    ensures r.Bare? && r.entry.ErrorResponse? && Code(r.entry.kind) == -32700
    ensures r.entry.data == Some(Str(message)) && r.entry.jsonrpc == Null && r.entry.id == Null
  {
    Bare(ErrorResponse(ParseError, Null, Null, Some(Str(message))))
  }
}
