/** The values that a decoded request body is made of, Python's truthiness and
    dict lookup over them, and the errors the request decoder can raise. */
module Values {

  datatype Option<+T> = None | Some(value: T)

  datatype Result<+T, +E> = Success(value: T) | Failure(error: E)

  datatype Outcome<+E> = Pass | Fail(error: E)

  /** An uploaded file, an opaque blob described by its metadata. */
  datatype Upload = Upload(name: string, size: nat, contentType: string)

  /** A value of the decoded body: what the JSON decoder, a form field or
      an uploaded file can place in it. Dictionaries have string keys. */
  datatype Value =
    | Null
    | Bool(b: bool)
    | Num(n: int)
    | Str(s: string)
    | File(upload: Upload)
    | List(items: seq<Value>)
    | Map(fields: map<string, Value>)

  /** Python's `bool(v)`: false exactly for `None`, `False`, zero and the
      empty string, list and dictionary; a Django file is true when it has
      a name. */
  predicate Truthy(v: Value): (b: bool)
    ensures !b <==>
      || v == Null || v == Bool(false) || v == Num(0) || v == Str("")
      || v == List([]) || v == Map(map[]) || (v.File? && v.upload.name == "")
  {
    match v
    case Null => false
    case Bool(b) => b
    case Num(n) => n != 0
    case Str(s) => s != ""
    case File(u) => u.name != ""
    case List(items) => items != []
    case Map(fields) => fields != map[]
  }

  /** Python's `d.get(k, default)`. */
  function Get<K, V>(m: map<K, V>, k: K, default: V): (v: V) {
    if k in m then m[k] else default
  }

  /** What can escape from the decoder. `IndexParseError` stands for the
      `ValueError` that `int()` raises on a malformed bracket index and
      `ShapeError` for the `TypeError`, `AttributeError` or `KeyError` that
      Python raises when a value has the wrong shape for the operation. */
  datatype Error =
    | UnicornViewError(message: string)
    | AssertionError(message: string)
    | JsonDecodeError
    | IndexParseError(segment: string)
    | ShapeError
    | MethodNameError
}
