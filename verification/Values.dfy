/** Configuration values: what a YAML layer, an environment name or a runtime
    write can put into the configuration mapping. */
module Values {

  datatype Option<+T> = None | Some(value: T)

  datatype Value =
    | Null
    | Bool(b: bool)
    | Int(i: int)
    | Float(r: real)
    | Str(s: string)
    | List(items: seq<Value>)
    | Dict(m: map<string, Value>)

  type Data = map<string, Value>

  /** What json.loads makes of a text: a value, a decoding error, or a failure of
      another kind (nesting too deep, say) that callers do not expect. */
  datatype Decoded = Json(value: Value) | NotJson | Broken(message: string)

  /** The value at a position of the tree, the position being a sequence of keys. */
  function At(v: Value, ks: seq<string>): Option<Value> {
    if ks == [] then Some(v)
    else if v.Dict? && ks[0] in v.m then At(v.m[ks[0]], ks[1..])
    else None
  }

  /** A leaf is whatever is not a mapping. */
  predicate LeafAt(v: Value, ks: seq<string>) {
    At(v, ks).Some? && !At(v, ks).value.Dict?
  }

  /** Python's truth value. */
  predicate Truthy(v: Value) {
    match v
    case Null => false
    case Bool(b) => b
    case Int(i) => i != 0
    case Float(r) => r != 0.0
    case Str(s) => s != ""
    case List(items) => items != []
    case Dict(m) => m != map[]
  }

  /** str(value); `render` is str() of a value that is no string. */
  function StrOf(render: Value -> string, v: Value): string {
    if v.Str? then v.s else render(v)
  }

  /** str(value or fallback) */
  function TextOr(render: Value -> string, v: Value, fallback: string): string {
    if Truthy(v) then StrOf(render, v) else fallback
  }
}
