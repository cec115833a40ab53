/** JavaScript values as they cross the boundaries of the client: request
    bodies, server responses, thrown errors and promise outcomes. */
module Values {

  datatype Option<+T> = None | Some(value: T)

  /** Identifiers as the client handles them: route parameters, dictionary
      keys and the server's `_id` values are all strings. */
  type Id = string

  /** A JavaScript value, JSON plus `undefined`. Numbers are integers: the
      client never computes with fractional numbers. */
  datatype Json =
    | Undefined
    | Null
    | Bool(b: bool)
    | Num(n: int)
    | Str(s: string)
    | Arr(items: seq<Json>)
    | Obj(fields: map<string, Json>)

  /** JavaScript truthiness: `undefined`, `null`, `false`, `0` and `''` are falsy. */
  predicate Truthy(v: Json) {
    match v
    case Undefined => false
    case Null => false
    case Bool(b) => b
    case Num(n) => n != 0
    case Str(s) => s != ""
    case Arr(_) => true
    case Obj(_) => true
  }

  /** `v?.name`: the named property of an object, `undefined` otherwise. */
  function Get(v: Json, name: string): Json {
    if v.Obj? && name in v.fields then v.fields[name] else Undefined
  }

  /** `{ ...v }`: an object keeps its own properties; `null`, `undefined`,
      numbers and booleans contribute none. Strings and arrays, which the
      client never spreads, are also taken to contribute none, although
      JavaScript would give them their index keys. */
  function Spread(v: Json): Json {
    if v.Obj? then v else Obj(map[])
  }

  /** `a || b`. */
  function Or(a: Json, b: Json): Json {
    if Truthy(a) then a else b
  }

  /** `a ?? b`. */
  function Coalesce(a: Json, b: Json): Json {
    if a == Null || a == Undefined then b else a
  }

  /** An array of strings. */
  function StrArray(xs: seq<string>): (v: Json)
    ensures v.Arr? && |v.items| == |xs| && forall i :: 0 <= i < |xs| ==> v.items[i] == Str(xs[i])
  {
    Arr(seq(|xs|, i requires 0 <= i < |xs| => Str(xs[i])))
  }

  /** A string-or-undefined value, as stored in an optional field. */
  function OptionalStr(o: Option<string>): Json {
    match o
    case Some(s) => Str(s)
    case None => Undefined
  }

  /** `if (s)` on a value typed `string | null`. */
  predicate Present(o: Option<string>) {
    o.Some? && o.value != ""
  }

  /** How an awaited promise settled. */
  datatype Settled = Fulfilled(data: Json) | Rejected(reason: Json)
}
