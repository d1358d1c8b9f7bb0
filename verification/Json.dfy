/** Python values as the flow scripts, the preference files and the vault see them. */
module Json {

  datatype Option<+T> = None | Some(value: T)

  /** `Num` stands for int and float alike; a dict keeps no insertion order. */
  datatype Value =
    | Null
    | Bool(b: bool)
    | Num(n: real)
    | Text(s: string)
    | List(vs: seq<Value>)
    | Dict(m: map<string, Value>)

  /** Python truth value. */
  predicate Truthy(v: Value) {
    match v
    case Null => false
    case Bool(b) => b
    case Num(n) => n != 0.0
    case Text(s) => s != ""
    case List(vs) => vs != []
    case Dict(m) => m != map[]
  }

  /** The values that count as false. */
  lemma FalsyIff(v: Value)
    ensures !Truthy(v) <==>
              v == Null || v == Bool(false) || v == Num(0.0) || v == Text("") || v == List([]) || v == Dict(map[])
  {
  }

  /** `d.get(key, default)` on a dict. */
  function Get(d: map<string, Value>, key: string, default: Value): Value {
    if key in d then d[key] else default
  }

  /** Follows a path of dict keys; None when a step is missing or does not land in a dict. */
  function Read(v: Value, path: seq<string>): Option<Value> {
    if path == [] then Some(v)
    else if v.Dict? && path[0] in v.m then Read(v.m[path[0]], path[1..])
    else None
  }
}
