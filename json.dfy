/** JSON-like values as the Ruby client builds and parses them: hashes with
    symbol keys (serialised as strings), arrays, strings, integers, booleans
    and nil, together with Ruby's notion of truthiness. */
module Json {

  datatype Value =
    | Null
    | Bool(b: bool)
    | Num(n: int)
    | Str(s: string)
    | Arr(items: seq<Value>)
    | Obj(fields: map<string, Value>)

  /** A Ruby Hash whose keys are serialised as JSON object keys. */
  type Hash = map<string, Value>

  /** Ruby truthiness: only nil and false are falsy (0, "" and {} are truthy). */
  predicate Truthy(v: Value) {
    v != Null && v != Bool(false)
  }

  /** `h[k]` in Ruby: the stored value, or nil when the key is absent. */
  function Field(h: Hash, k: string): (v: Value)
    ensures k in h ==> v == h[k]
    ensures k !in h ==> v == Null
    ensures Truthy(v) ==> k in h && h[k] == v
  {
    if k in h then h[k] else Null
  }

  datatype Option<T> = None | Some(value: T)

  /** The empty hash `{}`. */
  const EmptyHash: Hash := map[]
}
