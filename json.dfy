/**
 * Decoded JSON values as Python sees them after json.loads / request.get_json(),
 * with the few dynamic operations the modelled code applies to them.
 */
module Json {
  import opened Common
  import opened PyBuiltins

  /** JSON integers and JSON floats decode to different Python types. */
  datatype Json =
    | JNull
    | JBool(b: bool)
    | JInt(i: int)
    | JFloat(f: real)
    | JStr(s: string)
    | JArr(items: seq<Json>)
    | JObj(fields: map<string, Json>)

  /** Python truthiness (`if not value`). */
  predicate Truthy(j: Json)
  {
    match j
    case JNull => false
    case JBool(b) => b
    case JInt(i) => i != 0
    case JFloat(f) => f != 0.0
    case JStr(s) => s != ""
    case JArr(items) => items != []
    case JObj(m) => m != map[]
  }

  /** dict.get(key, default). */
  function Get(m: map<string, Json>, key: string, default: Json): (r: Json)
    ensures key in m ==> r == m[key]
    ensures key !in m ==> r == default
  {
    if key in m then m[key] else default
  }

  /** The Python type name that TypeError messages quote. */
  function TypeName(j: Json): string
  {
    match j
    case JNull => "NoneType"
    case JBool(_) => "bool"
    case JInt(_) => "int"
    case JFloat(_) => "float"
    case JStr(_) => "str"
    case JArr(_) => "list"
    case JObj(_) => "dict"
  }

  /** The AttributeError message for calling a method the value's type lacks. */
  function NoAttribute(j: Json, attr: string): string
  {
    "'" + TypeName(j) + "' object has no attribute '" + attr + "'"
  }

  /**
   * Python's `key in value` for a string key: a dict tests its keys, a list
   * its items, a string its substrings; any other value raises TypeError.
   */
  function PyIn(key: string, j: Json): (r: Result<bool, string>)
    ensures j.JObj? ==> r == Ok(key in j.fields)
    ensures (j.JNull? || j.JBool? || j.JInt? || j.JFloat?) ==> r.Err?
  {
    match j
    case JObj(m) => Ok(key in m)
    case JArr(items) => Ok(JStr(key) in items)
    case JStr(s) => Ok(Contains(s, key))
    case _ => Err("argument of type '" + TypeName(j) + "' is not iterable")
  }

  /** The value Python arithmetic uses for a number (a bool counts as 0 or 1). */
  function AsNumber(j: Json): Option<real>
  {
    match j
    case JInt(i) => Some(i as real)
    case JFloat(f) => Some(f)
    case JBool(b) => Some(if b then 1.0 else 0.0)
    case _ => None
  }
}
