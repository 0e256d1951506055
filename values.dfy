/**
 * The Python values the core handles without declaring their type: the
 * documents json.loads returns, and the exceptions that end a request or a
 * task with the text str(e) gives them.
 */
module Values {
  import opened Wrappers
  import Text

  /** What json.loads returns: None, bool, int, float, str, list or dict. */
  datatype Json =
    | JNull
    | JBool(b: bool)
    | JInt(i: int)
    | JReal(r: real)
    | JStr(s: string)
    | JArr(items: seq<Json>)
    | JObj(fields: map<string, Json>)

  /** Python truthiness (`if value:`). */
  predicate Truthy(v: Json) {
    match v
    case JNull => false
    case JBool(b) => b
    case JInt(i) => i != 0
    case JReal(r) => r != 0.0
    case JStr(s) => s != ""
    case JArr(a) => a != []
    case JObj(m) => m != map[]
  }

  /** type(value).__name__ */
  function TypeName(v: Json): string {
    match v
    case JNull => "NoneType"
    case JBool(_) => "bool"
    case JInt(_) => "int"
    case JReal(_) => "float"
    case JStr(_) => "str"
    case JArr(_) => "list"
    case JObj(_) => "dict"
  }

  /** dict.get(key, default) */
  function Get(m: map<string, Json>, key: string, default: Json): (r: Json)
    ensures key in m ==> r == m[key]
    ensures key !in m ==> r == default
  {
    if key in m then m[key] else default
  }

  /** A nullable str column or argument as a JSON value. */
  function OptText(s: Option<string>): (j: Json)
    ensures s.None? <==> j == JNull
    ensures s.Some? ==> j == JStr(s.value)
  {
    match s
    case None => JNull
    case Some(t) => JStr(t)
  }

  /** The exceptions the core raises or lets through. */
  datatype Exc =
    | ValueError(msg: string)
      /** a UNIQUE or NOT NULL constraint failed at commit; `detail` is SQLite's own text */
    | IntegrityError(detail: string)
      /** `x.get(...)` on a value that is not a dict */
    | NoGetAttribute(typeName: string)
      /** `x.value` on None (a mandate whose status is NULL) */
    | NoValueAttribute
      /** `x.name` on an object without that attribute, such as a dict */
    | MissingAttribute(typeName: string, name: string)
      /** `x / 100` on a value that is not a number */
    | NotDivisible(typeName: string)
      /** `key in x` on a value that is not a container */
    | NotContainer(typeName: string)
      /** json.loads on text that is not JSON */
    | JsonDecodeError
      /** pydantic rejected a field while building a schema object */
    | ValidationError(field: string)
      /** an Enum column read back a stored text that names none of its members */
    | LookupError(stored: string, enumName: string, possible: string)

  /** str(e) */
  function Message(e: Exc): string {
    match e
    case ValueError(m) => m
    case IntegrityError(d) => d
    case NoGetAttribute(t) => "'" + t + "' object has no attribute 'get'"
    case NoValueAttribute => "'NoneType' object has no attribute 'value'"
    case MissingAttribute(t, n) => "'" + t + "' object has no attribute '" + n + "'"
    case NotDivisible(t) => "unsupported operand type(s) for /: '" + t + "' and 'int'"
    case NotContainer(t) => "argument of type '" + t + "' is not iterable"
    case JsonDecodeError => "Expecting value"
    case ValidationError(f) => "1 validation error: " + f
    case LookupError(v, n, p) =>
      "'" + v + "' is not among the defined enum values. Enum name: " + n + ". Possible values: " + p
  }

  /** Python's `key in container` for a str key. */
  function PyIn(key: string, container: Json): (r: Result<bool, Exc>)
    ensures r.Err? <==> !(container.JObj? || container.JArr? || container.JStr?)
    ensures container.JObj? ==> r == Ok(key in container.fields)
  {
    match container
    case JObj(m) => Ok(key in m)
    case JArr(a) => Ok(JStr(key) in a)
    case JStr(s) => Ok(Text.IsSubstring(key, s))
    case _ => Err(NotContainer(TypeName(container)))
  }

  /** `value / 100` as the webhook handlers compute it (bool counts as 0 or 1). */
  function Div100(v: Json): (r: Result<real, Exc>)
    ensures r.Ok? <==> (v.JInt? || v.JBool? || v.JReal?)
    ensures v.JInt? ==> r == Ok(v.i as real / 100.0)
  {
    match v
    case JInt(i) => Ok(i as real / 100.0)
    case JBool(b) => Ok(if b then 0.01 else 0.0)
    case JReal(x) => Ok(x / 100.0)
    case _ => Err(NotDivisible(TypeName(v)))
  }

  /** str(value) for the scalars a webhook's created_at can hold. */
  function PyStr(v: Json): string {
    match v
    case JNull => "None"
    case JBool(b) => if b then "True" else "False"
    case JInt(i) => Text.IntToString(i)
    case JStr(s) => s
    case _ => "<rendering not modelled>"
  }
}
