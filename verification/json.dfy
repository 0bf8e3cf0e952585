/** JSON values as the dispatcher sees them once the decoder has run, and the
    few Python built-ins the dispatcher applies to them: truth value, `dict.get`
    and `str()`. */
module Json {

  datatype Option<+T> = None | Some(value: T)

  /** A decoded JSON document. A JSON object is a Python dict, so it is a map;
      numbers are integers only. */
  datatype Value =
    | Null
    | Bool(b: bool)
    | Int(n: int)
    | Str(s: string)
    | Array(items: seq<Value>)
    | Object(fields: map<string, Value>)

  /** What the JSON decoder (`json.loads`) gives back for a text: a value, or
      the decoder's diagnostic message. The decoder itself is not part of this
      model; callers pass it in. */
  datatype Decoded = Decoded(value: Value) | DecodeFailure(message: string)

  type Decoder = string -> Decoded

  /** Python's truth value `bool(v)`: None, False, 0 and empty containers are
      false, everything else is true. */
  predicate Truthy(v: Value) {
    match v
    case Null => false
    case Bool(b) => b
    case Int(n) => n != 0
    case Str(s) => |s| > 0
    case Array(items) => |items| > 0
    case Object(fields) => |fields| > 0
  }

  /** `d.get(key, default)` */
  function Get(d: map<string, Value>, key: string, default: Value): Value {
    if key in d then d[key] else default
  }

  /** Python 2 `str()` of a unicode string encodes it as ASCII. */
  predicate IsAscii(s: string) {
    forall i :: 0 <= i < |s| ==> s[i] < 128 as char
  }

  function DigitChar(d: nat): char
    requires d < 10
  {
    "0123456789"[d]
  }

  function Digits(n: nat): (r: string)
    ensures |r| > 0
    decreases n
  {
    if n < 10 then [DigitChar(n)] else Digits(n / 10) + [DigitChar(n % 10)]
  }

  /** Python 2 `str()` on a decoded value. `None` stands for the
      UnicodeEncodeError raised on a string that is not plain ASCII. Arrays and
      objects are given a fixed marker text rather than Python's rendering. */
  function PyStr(v: Value): (r: Option<string>)
    ensures r.None? <==> v.Str? && !IsAscii(v.s)
    ensures v.Str? && r.Some? ==> r.value == v.s
  {
    match v
    case Null => Some("None")
    case Bool(b) => Some(if b then "True" else "False")
    case Int(n) => Some(if n < 0 then "-" + Digits(-n) else Digits(n))
    case Str(s) => if IsAscii(s) then Some(s) else None
    case Array(_) => Some("[...]")
    case Object(_) => Some("{...}")
  }
}
