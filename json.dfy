/** Decoded JSON values as JavaScript code sees them, with the two
    JavaScript rules the core relies on: truthiness and property lookup. */
module Json {
  import opened Wrappers

  datatype Value =
    | JNull
    | JBool(b: bool)
    | JNum(n: real)
    | JStr(s: string)
    | JArr(items: seq<Value>)
    | JObj(fields: map<string, Value>)

  /** JavaScript truthiness of a property that may be missing (`None` is
      `undefined`): `undefined`, `null`, `false`, `0` and `""` are falsy,
      everything else (including empty arrays and objects) is truthy. */
  predicate Truthy(v: Option<Value>) {
    match v
    case None => false
    case Some(JNull) => false
    case Some(JBool(b)) => b
    case Some(JNum(n)) => n != 0.0
    case Some(JStr(s)) => s != ""
    case Some(JArr(_)) => true
    case Some(JObj(_)) => true
  }

  /** `v.key` on a value that is not `null`: an object answers with its own
      property, any other value with `undefined`. */
  function Field(v: Value, key: string): Option<Value> {
    if v.JObj? && key in v.fields then Some(v.fields[key]) else None
  }

  /** `v.key === s` for a string literal `s`. */
  predicate FieldIs(v: Value, key: string, s: string) {
    Field(v, key) == Some(JStr(s))
  }

  /** The decimal spelling of an index, as it appears as a property key. */
  function Decimal(n: nat): string
    decreases n
  {
    if n < 10 then [('0' as int + n) as char]
    else Decimal(n / 10) + [('0' as int + n % 10) as char]
  }

  /** The own enumerable properties of an array, keyed by index. */
  function IndexFields(items: seq<Value>): map<string, Value>
    decreases |items|
  {
    if items == [] then map[]
    else IndexFields(items[..|items| - 1])[Decimal(|items| - 1) := items[|items| - 1]]
  }

  /** What the object spread `{...v}` copies out of a value: an object's
      own properties, the elements of an array or the characters of a string
      under their index, and nothing for `null`, booleans and numbers. */
  function OwnFields(v: Value): map<string, Value> {
    match v
    case JObj(m) => m
    case JArr(items) => IndexFields(items)
    case JStr(s) => IndexFields(seq(|s|, i requires 0 <= i < |s| => JStr([s[i]])))
    case _ => map[]
  }
}
