/** Parsed JSON values as the loader receives them from `json.load`, and the
    few Python operations the loader applies to them. */
module Json {
  import opened Wrappers

  /** A decoded JSON value. Objects are Python dicts keyed by member name. */
  datatype Json =
    | JNull
    | JInt(i: int)
    | JString(s: string)
    | JArray(items: seq<Json>)
    | JObject(members: map<string, Json>)

  /** The exceptions the loader's Python code can raise on unexpected input,
      and the constraint errors the database reports on a write. */
  datatype Error =
    | KeyError(key: string)          // `d[key]` on a dict without `key`
    | TypeError(what: string)        // subscripting, iterating or converting the wrong kind of value
    | AttributeError(what: string)   // `.get` on a value that is not a dict
    | NotNullViolation(column: string)
    | ValueTooLong(column: string)
    | NumericOverflow(column: string)
    | UniqueViolation(orderId: string)

  /** Python truthiness: `None`, `0`, `""`, `[]` and `{}` are false. */
  predicate Truthy(j: Json) {
    match j
    case JNull => false
    case JInt(i) => i != 0
    case JString(s) => s != ""
    case JArray(xs) => xs != []
    case JObject(m) => m != map[]
  }

  /** `d[key]`: a missing key raises `KeyError`, a value that is not a dict
      raises `TypeError`. */
  function Subscript(d: Json, key: string): (r: Result<Json, Error>)
    ensures r.Ok? <==> d.JObject? && key in d.members
    ensures r.Ok? ==> r.value == d.members[key]
    ensures d.JObject? && key !in d.members ==> r == Err(KeyError(key))
  {
    match d
    case JObject(m) => if key in m then Ok(m[key]) else Err(KeyError(key))
    case _ => Err(TypeError("subscript"))
  }

  /** `d.get(key, default)` on a dict `d` with members `m`. */
  function Get(m: map<string, Json>, key: string, default: Json): Json {
    if key in m then m[key] else default
  }

  /** The decimal text of an integer, as Python's `str(n)` writes it. */
  function IntText(n: int): (s: string)
    ensures s != []
    decreases if n < 0 then -n + 1 else n
  {
    if n < 0 then "-" + IntText(-n)
    else if n < 10 then [('0' as int + n) as char]
    else IntText(n / 10) + [('0' as int + n % 10) as char]
  }

  /** What the ORM makes of a value assigned to a text column: text stays,
      an integer becomes its decimal text (`str(value)`), anything else is
      treated as NULL (`None`). */
  function ColumnText(v: Json): Option<string> {
    match v
    case JString(s) => Some(s)
    case JInt(n) => Some(IntText(n))
    case _ => None
  }
}
