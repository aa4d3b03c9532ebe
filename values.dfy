/** Values shared by every part of the Groq adapter model: optional and
    fallible results, bytes, and the dynamically typed values that fill the
    adapter's keyword-argument dictionaries. */
module Values {

  datatype Option<+T> = None | Some(value: T)

  datatype Result<+T, +E> = Ok(value: T) | Err(error: E)

  newtype byte = b: int | 0 <= b < 256

  type Bytes = seq<byte>

  /** A Python value as it sits in a request, configuration or message
      dictionary. `Null` is Python's None. Floats, header mappings, URL
      objects and user-supplied HTTP clients are only passed through, so they
      are `Opaque`. `AsyncHttpClient` stands for a newly built
      httpx.AsyncClient with the given connection limits. */
  datatype Value =
    | Null
    | Bool(b: bool)
    | Int(i: int)
    | Str(s: string)
    | List(items: seq<Value>)
    | Mapping(fields: map<string, Value>)
    | Opaque(ref: nat)
    | AsyncHttpClient(maxConnections: nat, maxKeepaliveConnections: nat)

  /** A Python `Dict[str, Any]`. */
  type Dict = map<string, Value>

  /** Python truthiness (`if v:`). */
  predicate Truthy(v: Value) {
    match v
    case Null => false
    case Bool(b) => b
    case Int(i) => i != 0
    case Str(s) => s != ""
    case List(items) => items != []
    case Mapping(fields) => fields != map[]
    case _ => true
  }

  /** Python truthiness of an `Optional[str]`: present and non-empty. */
  predicate TruthyText(o: Option<string>) {
    o.Some? && o.value != ""
  }

  /** An `Optional[str]` as a dictionary value. */
  function FromText(o: Option<string>): (v: Value)
    ensures v == Null <==> o.None?
    ensures o.Some? ==> v == Str(o.value)
  {
    if o.Some? then Str(o.value) else Null
  }

  /** `text or ""` for an `Optional[str]`. */
  function OrEmpty(o: Option<string>): (s: string)
    ensures o.Some? ==> s == o.value
    ensures o.None? ==> s == ""
  {
    if o.Some? then o.value else ""
  }

  /** The comprehension `{k: v for k, v in m.items() if v is not None}`. */
  function DropNone(m: Dict): (r: Dict)
    ensures forall k :: k in r <==> k in m && m[k] != Null
    ensures forall k :: k in r ==> r[k] == m[k]
  {
    map k | k in m && m[k] != Null :: m[k]
  }
}
