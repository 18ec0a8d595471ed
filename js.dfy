/** The JavaScript values the client exchanges with the server, with the
    two pieces of JavaScript semantics the client's branches depend on:
    truthiness (`if (x)`) and property access (`data.message`), which throws
    on `null` and `undefined`. Awaited calls either yield a value or throw an
    Error whose message the callers compare against. */
module Js {

  datatype Option<+T> = None | Some(value: T)

  /** The outcome of an awaited call: a value, or a thrown Error carrying its message. */
  datatype Result<+T> = Ok(value: T) | Thrown(message: string)

  /** The bytes of one Blob delivered by the recorder. */
  type Chunk = seq<bv8>

  /** A Blob assembled from parts, with its MIME type. */
  datatype Blob = Blob(parts: seq<Chunk>, mimeType: string)

  /** One `FormData.append(name, blob, filename)` entry. */
  datatype FormPart = FormPart(name: string, blob: Blob, filename: string)

  datatype JsValue =
    | Undefined
    | Null
    | Bool(b: bool)
    | Num(n: int)
    | Str(s: string)
    | Obj(fields: map<string, JsValue>)
    | Form(parts: seq<FormPart>)

  /** JavaScript truthiness (numbers are integers in this model). */
  predicate Truthy(v: JsValue)
  {
    match v
    case Undefined => false
    case Null => false
    case Bool(b) => b
    case Num(n) => n != 0
    case Str(s) => s != ""
    case Obj(_) => true
    case Form(_) => true
  }

  /** Property access `v.key`: a TypeError on null and undefined, `undefined`
      for a missing key or a primitive. */
  function Get(v: JsValue, key: string): Result<JsValue>
  {
    match v
    case Undefined => Thrown("TypeError")
    case Null => Thrown("TypeError")
    case Obj(fields) => Ok(if key in fields then fields[key] else Undefined)
    case _ => Ok(Undefined)
  }

  /** `v.key` where `v` is known to be neither null nor undefined. */
  function GetOr(v: JsValue, key: string): JsValue
  {
    match Get(v, key)
    case Ok(x) => x
    case Thrown(_) => Undefined
  }

  function DigitChar(d: nat): char
    requires d < 10
  {
    "0123456789"[d]
  }

  /** Decimal text of a natural number, as `String(n)` prints it. */
  function NatToString(n: nat): (s: string)
    ensures |s| > 0
    ensures forall i :: 0 <= i < |s| ==> '0' <= s[i] <= '9'
  {
    if n < 10 then [DigitChar(n)] else NatToString(n / 10) + [DigitChar(n % 10)]
  }

  function IntToString(i: int): string
  {
    if i < 0 then "-" + NatToString(-i) else NatToString(i)
  }

  /** What a template literal `${v}` inserts for `v`. */
  function TemplateText(v: JsValue): string
  {
    match v
    case Undefined => "undefined"
    case Null => "null"
    case Bool(b) => if b then "true" else "false"
    case Num(n) => IntToString(n)
    case Str(s) => s
    case Obj(_) => "[object Object]"
    case Form(_) => "[object FormData]"
  }
}
