/** Scalar JSON values as the decoders and the outbound builder meet them, and
    the Python operations applied to them: truthiness, `x or default`,
    `dict.get`, `str()`, `int()` and `.lower()`. */
module Values {
  import opened Wrappers
  import opened Text

  datatype Value = Null | Bool(b: bool) | Int(i: int) | Str(s: string)

  /** A JSON object with scalar members. */
  type Object = map<string, Value>

  /** What a descriptor's `data` field holds: normally a dict; an edit can
      store any other JSON value there, which the model keeps opaque. */
  datatype Data = Dict(fields: Object) | NotDict

  /** Python truthiness. */
  predicate Truthy(v: Value) {
    match v
    case Null => false
    case Bool(b) => b
    case Int(i) => i != 0
    case Str(s) => s != ""
  }

  /** Python `v or fallback`. */
  function Or(v: Value, fallback: Value): Value {
    if Truthy(v) then v else fallback
  }

  /** Python `obj.get(key, default)`. */
  function Get(obj: Object, key: string, default: Value): Value {
    if key in obj then obj[key] else default
  }

  /** Python `str(v)` (also what an f-string interpolates). */
  function ToText(v: Value): string {
    match v
    case Null => "None"
    case Bool(b) => if b then "True" else "False"
    case Int(i) => IntText(i)
    case Str(s) => s
  }

  /** Python `int(v)`; `None` when the call raises (a `None` value, or a
      string that is not an integer literal). */
  function IntOf(v: Value): Option<int> {
    match v
    case Null => None
    case Bool(b) => Some(if b then 1 else 0)
    case Int(i) => Some(i)
    case Str(s) => ParseInt(s)
  }

  /** Python `v.lower()`; only strings have the method, anything else raises. */
  function LowerOf(v: Value): Option<string> {
    match v
    case Str(s) => Some(Lower(s))
    case _ => None
  }
}

/** The library calls whose byte-level behaviour lies outside the model. A
    `Codec` is a parameter of everything that decodes, so every property
    proved holds for any behaviour of these calls. */
module Library {
  import opened Wrappers
  import opened Values

  datatype Codec = Codec(
    /** `json.loads(base64.urlsafe_b64decode(p).decode("utf-8", "ignore"))` on an
        already padded payload `p`: the JSON object, or `None` when a step raises
        or the JSON value is not an object. */
    vmessObject: string -> Option<Object>,
    /** `base64.urlsafe_b64decode(p).decode("utf-8", "ignore")` on a padded `p`;
        `None` when decoding raises. */
    base64Text: string -> Option<string>,
    /** `urllib.parse.unquote`. */
    unquote: string -> string,
    /** `json.loads` on edited form data; `None` when it raises. */
    jsonLoads: string -> Option<Data>)
}
