/** JSON-like values as the service sees them in Python dictionaries and MongoDB documents. */
module Json {
  import opened Wrappers

  /** One value of a Python dictionary entry, a JSON field or a BSON field.
      `Time(t)` stands for a fixed-width ISO-8601 UTC timestamp string: such strings
      order lexicographically exactly as the instants `t` they denote. */
  datatype Value =
    | Null
    | Str(s: string)
    | Int(n: int)
    | Time(t: int)
    | List(items: seq<Value>)
    | Dict(fields: map<string, Value>)

  /** A document: a dictionary with string keys. */
  type Record = map<string, Value>

  /** Python truthiness of a value: None, "", 0, [] and {} are false. */
  predicate Truthy(v: Value)
  {
    match v
    case Null => false
    case Str(s) => s != ""
    case Int(n) => n != 0
    case Time(_) => true
    case List(items) => items != []
    case Dict(fields) => fields != map[]
  }

  /** Python truthiness of an optional string argument. */
  predicate Given(o: Option<string>)
  {
    o.Some? && o.value != ""
  }

  /** An optional string as the value Python stores for it. */
  function OptStr(o: Option<string>): (v: Value)
    ensures v == Null <==> o.None?
    ensures Truthy(v) <==> Given(o)
  {
    match o
    case None => Null
    case Some(s) => Str(s)
  }
}
