/** The decoded JSON leaf values that the scraper copies from a detail payload
    into its output without looking inside them. */
module Json {

  /** A decoded JSON value. Numbers are integers only: floating point is not modelled. */
  datatype Value =
    | Null
    | Bool(b: bool)
    | Num(n: int)
    | Str(s: string)
    | Arr(items: seq<Value>)
    | Obj(members: map<string, Value>)

  /** Python truthiness of a decoded JSON value: `None`, `False`, `0` and the empty
      string, list and dict are false, everything else is true. */
  predicate Truthy(v: Value)
    ensures Truthy(v) <==>
      && v != Null && v != Bool(false) && v != Num(0)
      && v != Str("") && v != Arr([]) && v != Obj(map[])
  {
    match v
    case Null => false
    case Bool(b) => b
    case Num(n) => n != 0
    case Str(s) => s != []
    case Arr(items) => items != []
    case Obj(members) => members != map[]
  }
}
