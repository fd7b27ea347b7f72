/** The part of org.json (as shipped with Android) that the plugin relies on:
    flat JSON objects of scalar values, JSON arrays of arguments, and the
    `opt*` accessors with their fallbacks and coercions. */
module Json {
  import opened Optional
  import opened Text

  /** A scalar JSON value. `Null` is JSONObject.NULL, a JSON `null` that is present. */
  datatype Value = Null | Bool(b: bool) | Num(n: int) | Str(s: string)

  /** A settings object: a flat mapping from names to scalar values. */
  type Object = map<string, Value>

  /** An element of a JSONArray of command arguments. */
  datatype Element = Item(value: Value) | Obj(fields: Object)

  /** JSON.toBoolean: booleans, and the strings "true"/"false" compared with
      Java's equalsIgnoreCase. */
  function ToBoolean(v: Value): (r: Option<bool>)
    ensures v.Bool? ==> r == Some(v.b)
    ensures r.Some? ==> v.Bool? || (v.Str? && (EqualsIgnoreCaseJava(v.s, "true") || EqualsIgnoreCaseJava(v.s, "false")))
    ensures v.Str? && EqualsIgnoreCaseJava(v.s, "true") ==> r == Some(true)
    ensures v.Str? && EqualsIgnoreCaseJava(v.s, "false") ==> r == Some(false)
  {
    match v
    case Bool(b) => Some(b)
    case Str(s) =>
      if EqualsIgnoreCaseJava(s, "true") then Some(true)
      else if EqualsIgnoreCaseJava(s, "false") then Some(false)
      else None
    case _ => None
  }

  /** Any case of the letters coerces, and so does a long s, which Java
      upper-cases to 'S'; other text, numbers and null do not. */
  lemma ToBooleanExamples()
    ensures ToBoolean(Str("TRUE")) == Some(true)
    ensures ToBoolean(Str("False")) == Some(false)
    ensures ToBoolean(Str("fal\U{17F}e")) == Some(false)
    ensures ToBoolean(Str("yes")) == None
    ensures ToBoolean(Str("1")) == None
    ensures ToBoolean(Num(1)) == None
    ensures ToBoolean(Null) == None
  {
    assert EqualsIgnoreCaseJava("TRUE", "true");
    assert EqualsIgnoreCaseJava("False", "false");
    assert EqualsIgnoreCaseJava("fal\U{17F}e", "false");
    assert !EqualsIgnoreCaseJava("yes", "true") && !EqualsIgnoreCaseJava("yes", "false");
    assert !EqualsIgnoreCaseJava("1", "true") && !EqualsIgnoreCaseJava("1", "false");
  }

  /** JSON.toString: a string is itself, anything else is String.valueOf of it
      (so a present JSON null reads as the text "null"). */
  function ToText(v: Value): (r: string)
    ensures v.Str? ==> r == v.s
    ensures v.Null? ==> r == "null"
    ensures v.Bool? ==> r == if v.b then "true" else "false"
  {
    match v
    case Null => "null"
    case Bool(b) => if b then "true" else "false"
    case Num(n) => DecimalText(n)
    case Str(s) => s
  }

  /** JSONObject.optString(key, fallback). */
  function OptString(o: Object, key: string, fallback: string): (r: string)
    ensures key !in o ==> r == fallback
    ensures key in o && o[key].Str? ==> r == o[key].s
    ensures key in o && o[key].Null? ==> r == "null"
    ensures key in o && o[key].Bool? ==> r == if o[key].b then "true" else "false"
    ensures key in o && o[key].Num? ==> r == DecimalText(o[key].n)
  {
    if key in o then ToText(o[key]) else fallback
  }

  /** JSONObject.optString(key, null): None stands for Java's null. */
  function OptStringOrNull(o: Object, key: string): (r: Option<string>)
    ensures r.None? <==> key !in o
    ensures key in o ==> r == Some(ToText(o[key]))
  {
    if key in o then Some(ToText(o[key])) else None
  }

  /** With a null fallback, optString reads the same text as with any other fallback. */
  lemma OptStringOrNullAgrees(o: Object, key: string, fallback: string)
    ensures OptString(o, key, fallback) == if OptStringOrNull(o, key).Some? then OptStringOrNull(o, key).value else fallback
  { }

  /** JSONObject.optBoolean(key, fallback). */
  function OptBoolean(o: Object, key: string, fallback: bool): (r: bool)
    ensures key !in o ==> r == fallback
    ensures key in o && o[key].Bool? ==> r == o[key].b
    ensures key in o && ToBoolean(o[key]).None? ==> r == fallback
    ensures key in o && ToBoolean(o[key]).Some? ==> r == ToBoolean(o[key]).value
  {
    if key in o then
      match ToBoolean(o[key])
      case Some(b) => b
      case None => fallback
    else fallback
  }

  /** JSONArray.opt(i): None stands for Java's null (index out of range). */
  function OptAt(args: seq<Element>, i: nat): (r: Option<Element>)
    ensures r.Some? <==> i < |args|
    ensures i < |args| ==> r == Some(args[i])
  {
    if i < |args| then Some(args[i]) else None
  }

  /** JSONArray.optJSONObject(i): the object at i, or null. */
  function OptObjectAt(args: seq<Element>, i: nat): (r: Option<Object>)
    ensures r.Some? <==> i < |args| && args[i].Obj?
    ensures r.Some? ==> r.value == args[i].fields
  {
    if i < |args| && args[i].Obj? then Some(args[i].fields) else None
  }

  /** JSONArray.optBoolean(i): the coerced boolean at i, false otherwise. */
  function OptBooleanAt(args: seq<Element>, i: nat): (r: bool)
    ensures r <==> i < |args| && args[i].Item? && ToBoolean(args[i].value) == Some(true)
  {
    if i < |args| && args[i].Item? then
      match ToBoolean(args[i].value)
      case Some(b) => b
      case None => false
    else false
  }
}
