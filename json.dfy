/** JSON values as Python's json module produces them, with the Python operations the
    agent applies to a parsed reply: truthiness, `key in x`, `x[key]` and `x.get(key, default)`. */
module Json {
  import opened Wrappers
  import opened Text

  /** A decoded JSON document: None, bool, int, float, str, list or dict. */
  datatype Json =
    | JNull
    | JBool(b: bool)
    | JInt(i: int)
    | JFloat(f: real)
    | JString(s: string)
    | JArray(items: seq<Json>)
    | JObject(fields: map<string, Json>)

  /** Python's truth value (`if x:`): None, False, zero, and empty strings, lists and dicts are false. */
  predicate Truthy(v: Json)
    ensures Truthy(v) <==> v !in {JNull, JBool(false), JInt(0), JFloat(0.0), JString(""), JArray([]), JObject(map[])}
  {
    match v
    case JNull => false
    case JBool(b) => b
    case JInt(i) => i != 0
    case JFloat(f) => f != 0.0
    case JString(s) => s != ""
    case JArray(items) => items != []
    case JObject(fields) => fields != map[]
  }

  /** The name Python gives the type of a decoded value, as it appears in TypeError texts. */
  function TypeName(v: Json): string
  {
    match v
    case JNull => "NoneType"
    case JBool(_) => "bool"
    case JInt(_) => "int"
    case JFloat(_) => "float"
    case JString(_) => "str"
    case JArray(_) => "list"
    case JObject(_) => "dict"
  }

  /** Python's `key in v` for a string key: a dict tests its keys, a list its elements,
      a str its substrings; on a number, a bool or None it raises TypeError. */
  function Contains(v: Json, key: string): (r: Result<bool, string>)
    ensures r.Failure? <==> v.JNull? || v.JBool? || v.JInt? || v.JFloat?
    ensures v.JObject? ==> r == Success(key in v.fields)
  {
    match v
    case JObject(fields) => Success(key in fields)
    case JArray(items) => Success(JString(key) in items)
    case JString(s) => Success(HasInfix(key, s))
    case _ => Failure("argument of type '" + TypeName(v) + "' is not iterable")
  }

  /** Python's `v[key]` for a string key: only a dict that has the key yields a value;
      a missing key raises KeyError, every other type raises TypeError. */
  function GetItem(v: Json, key: string): (r: Result<Json, string>)
    ensures r.Success? <==> v.JObject? && key in v.fields
    ensures r.Success? ==> r.value == v.fields[key]
  {
    match v
    case JObject(fields) =>
      if key in fields then Success(fields[key]) else Failure("'" + key + "'")
    case JArray(_) => Failure("list indices must be integers or slices, not str")
    case JString(_) => Failure("string indices must be integers, not 'str'")
    case _ => Failure("'" + TypeName(v) + "' object is not subscriptable")
  }

  /** Python's `fields.get(key, default)`. */
  function Get(fields: map<string, Json>, key: string, default: Json): (r: Json)
    ensures key in fields ==> r == fields[key]
    ensures key !in fields ==> r == default
  {
    if key in fields then fields[key] else default
  }

  /** The JSON library as the agent uses it: `loads` parses a text or raises with an
      error text; `dumps` serialises a value. Neither is defined here. */
  datatype Codec = Codec(loads: string -> Result<Json, string>, dumps: Json -> string)

  /** The value `loads` yields for some text: what call_model can append. */
  ghost predicate Parsed(c: Codec, v: Json)
  {
    exists s :: c.loads(s) == Success(v)
  }

  /** The assumption the agent's second step relies on: serialising a value that `loads`
      produced and parsing the result gives back the same value. It is asked only of parsed
      values, which are countably many; no codec could round-trip every real number. */
  ghost predicate RoundTrips(c: Codec)
  {
    forall s :: c.loads(s).Success? ==> c.loads(c.dumps(c.loads(s).value)) == c.loads(s)
  }

  /** The assumption can be met: a codec that knows only `null` round-trips. */
  lemma RoundTripsIsSatisfiable()
    ensures exists c :: RoundTrips(c)
  {
    var c := Codec(s => if s == "null" then Success(JNull) else Failure("Expecting value"), v => "null");
    assert RoundTrips(c);
  }

  /** Under the assumption, a parsed value survives serialising and parsing again. */
  lemma ParsedRoundTrips(c: Codec, v: Json)
    requires RoundTrips(c) && Parsed(c, v)
    ensures c.loads(c.dumps(v)) == Success(v)
  {
    var s :| c.loads(s) == Success(v);
    assert c.loads(s).Success?;
  }
}
