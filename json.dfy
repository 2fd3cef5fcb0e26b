/** The JavaScript values that a record of the flat-file store can hold, with
    JavaScript's truthiness and strict equality. */
module Json {
  import opened Wrappers
  import opened Text

  /** A JSON value as `JSON.parse` produces it. `Time(ms)` stands for a date
      the store wrote as an ISO-8601 string (`toISOString`), identified by its
      instant in milliseconds; two such strings are equal exactly when the
      instants are. Unlike the file's strings, a `Time` is never equal to a
      `Str`, so a lookup comparing a timestamp field with its ISO text is not
      modelled; no operation modelled here does one. */
  datatype Value =
    | Null
    | Bool(b: bool)
    | Num(n: real)
    | Str(s: string)
    | Time(ms: int)
    | Arr(elems: seq<Value>)
    | Obj(fields: map<string, Value>)

  /** A stored document: field name to value. A field that is not in the map is `undefined`. */
  type Record = map<string, Value>

  /** JavaScript truthiness: `null`, `false`, `0` and `''` are falsy, everything else truthy. */
  predicate Truthy(v: Value)
  {
    match v
    case Null => false
    case Bool(b) => b
    case Num(n) => n != 0.0
    case Str(s) => s != ""
    case Time(_) => true
    case Arr(_) => true
    case Obj(_) => true
  }

  /** Truthiness of a string that may be `undefined`. */
  predicate TruthyText(o: Option<string>)
  {
    o.Some? && o.value != ""
  }

  /** `!s || !s.trim()` of a string that may be `undefined`: missing, empty or only white space. */
  predicate Blank(o: Option<string>)
  {
    o.None? || Trim(o.value) == ""
  }

  /** `item[field]`. */
  function Get(item: Record, field: string): Option<Value>
  {
    if field in item then Some(item[field]) else None
  }

  /** `a === b`. Arrays and objects compare by identity, and those in a record
      were just parsed from the file, so they are never identical to a value
      the caller holds. */
  predicate StrictEquals(a: Option<Value>, b: Option<Value>)
  {
    match (a, b)
    case (None, None) => true
    case (Some(x), Some(y)) => !x.Arr? && !x.Obj? && x == y
    case _ => false
  }

  /** `item[field] === value`. */
  predicate Matches(item: Record, field: string, value: Option<Value>)
  {
    StrictEquals(Get(item, field), value)
  }
}
