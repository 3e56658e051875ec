/** The values that `json.loads`, `yaml.safe_load` and the HTTP APIs hand to the
    modelled code, with the few Python behaviours the code relies on:
    truthiness (`if not x`), `dict.get`, hashing of dictionary keys and the
    rendering of an optional string inside an f-string. */
module JsonValue {
  import opened Wrappers
  import opened Dicts

  /** A JSON value; numbers are exact reals, objects keep insertion order. */
  datatype Json =
    | JNull
    | JBool(b: bool)
    | JNum(n: real)
    | JStr(s: string)
    | JArr(items: seq<Json>)
    | JObj(fields: Dict<string, Json>)

  /** Python truthiness: `None`, `False`, `0`, `""`, `[]` and `{}` are false. */
  predicate Truthy(j: Json)
  {
    match j
    case JNull => false
    case JBool(b) => b
    case JNum(n) => n != 0.0
    case JStr(s) => s != []
    case JArr(xs) => xs != []
    case JObj(fs) => fs != []
  }

  /** `value.get(key)`: only a dictionary has `get`; anything else raises
      AttributeError. A missing key gives `None`. */
  function GetAttr(j: Json, key: string): (r: Result<Option<Json>>)
    ensures r.Ok? <==> j.JObj?
    ensures r.Ok? ==> (r.value.Some? <==> key in Keys(j.fields))
  {
    match j
    case JObj(fs) => Ok(Get(fs, key))
    case _ => Err(AttributeError)
  }

  /** `value.get(key, default)`. */
  function GetAttrOr(j: Json, key: string, default: Json): (r: Result<Json>)
    ensures r.Ok? <==> j.JObj?
  {
    var v :- GetAttr(j, key);
    Ok(v.GetOr(default))
  }

  /** `value.get(key)` where `None` is the Python value: a missing key and an
      explicit `null` both read as `JNull`. */
  function GetAttrOrNull(j: Json, key: string): (r: Result<Json>)
    ensures r.Ok? <==> j.JObj?
  {
    GetAttrOr(j, key, JNull)
  }

  /** `json.loads`, supplied by the caller: `None` stands for JSONDecodeError. */
  type Loads = string -> Option<Json>

  function Decode(loads: Loads, text: string): (r: Result<Json>)
    ensures r.Ok? <==> loads(text).Some?
    ensures r.Err? ==> r.error == JsonDecodeError
  {
    match loads(text)
    case Some(j) => Ok(j)
    case None => Err(JsonDecodeError)
  }

  /** The key under which a value is stored in a Python dictionary. Lists
      and dictionaries are unhashable (TypeError); `True` and `False` hash and
      compare as `1` and `0`, so they share a slot with those numbers. */
  function HashKey(j: Json): (r: Result<Json>)
    ensures r.Ok? <==> !(j.JArr? || j.JObj?)
    ensures r.Ok? ==> !r.value.JBool?
  {
    match j
    case JArr(_) => Err(TypeError)
    case JObj(_) => Err(TypeError)
    case JBool(b) => Ok(JNum(if b then 1.0 else 0.0))
    case _ => Ok(j)
  }

  /** An optional string as an f-string renders it: `None` prints as "None". */
  function Render(s: Option<string>): string
  {
    match s
    case Some(t) => t
    case None => "None"
  }

  /** An API value that the model stores as an optional string: `null` is
      `None`; a value of another kind is refused with TypeError. */
  function OptString(j: Json): (r: Result<Option<string>>)
    ensures r.Ok? <==> (j.JNull? || j.JStr?)
  {
    match j
    case JNull => Ok(None)
    case JStr(s) => Ok(Some(s))
    case _ => Err(TypeError)
  }
}
