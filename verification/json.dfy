/** The slice of a simplejson document the core reads: a JSON object with
    typed accessors that fall back to a default when the key is missing or
    holds a value of another kind. */
module Json {
  import opened Outcomes
  import opened GoInts

  /** JSON numbers are modelled as 64-bit integers only. */
  datatype Value =
    | Null
    | Bool(b: bool)
    | Number(n: Int64)
    | String(s: string)
    | Array(items: seq<Value>)
    | Object(fields: map<string, Value>)

  type Object = map<string, Value>

  /** `Get(key)`: a missing key reads as an absent value. */
  function Get(o: Object, key: string): Option<Value>
  {
    if key in o then Some(o[key]) else None
  }

  /** `MustString()`: the string, else "". */
  function MustString(v: Option<Value>): string
  {
    if v.Some? && v.value.String? then v.value.s else ""
  }

  /** `MustBool(default)`: the boolean, else the default. */
  function MustBool(v: Option<Value>, default: bool): bool
  {
    if v.Some? && v.value.Bool? then v.value.b else default
  }

  /** `MustInt()`: the number, else 0. */
  function MustInt(v: Option<Value>): Int64
  {
    if v.Some? && v.value.Number? then v.value.n else 0
  }
}
