/** JSON values as the LangChain adapter sees them after `JSON.parse`, the
    JavaScript operations it applies to them (property access, `??`,
    truthiness, `String(v)`), and the library functions it calls, which are
    given to the model as a bundle of functions: `JSON.parse`,
    `JSON.stringify`, number formatting, `zodToJsonSchema`, zod's `safeParse`
    and Ajv's validation. */
module JsonValues {
  import opened Wrappers
  import opened Text

  /** A parsed JSON value. Numbers are exact: JSON has no NaN or infinity. */
  datatype Json =
    | JNull
    | JBool(b: bool)
    | JNumber(n: real)
    | JString(s: string)
    | JArray(items: seq<Json>)
    | JObject(fields: map<string, Json>)

  /** A schema as the adapter is given one: a JSON Schema record, or a zod
      schema known by a handle. */
  datatype Schema = JsonSchema(json: Json) | ZodSchema(handle: nat)

  /** The library functions, uninterpreted: `JSON.parse` (failing with the
      SyntaxError's message), `JSON.stringify(v, null, 2)`, `String(n)` for a
      number, `zodToJsonSchema`, zod's `safeParse` (failing with the zod
      error's message), Ajv's check of a value against a JSON Schema (`None`
      when it passes, else the joined error text), and the message of the
      TypeError the engine throws when code reads a property of `null` or
      calls something that is not a function. */
  datatype Library = Library(
    parse: string -> Result<Json, string>,
    stringify: Json -> string,
    numberText: real -> string,
    zodToJson: nat -> Json,
    zodParse: (nat, Json) -> Result<Json, string>,
    ajvCheck: (Json, Json) -> Option<string>,
    typeErrorText: string)

  /** `v.key`: `None` stands for `undefined`; only objects have the keys the
      adapter reads. (Reading a key of `null` throws; callers handle that
      before calling.) */
  function Get(v: Json, key: string): (r: Option<Json>)
    ensures r.Some? <==> v.JObject? && key in v.fields
    ensures r.Some? ==> r.value == v.fields[key]
  {
    if v.JObject? && key in v.fields then Some(v.fields[key]) else None
  }

  /** `a ?? b`: `a` unless it is `null` or `undefined`. */
  function OrElse(a: Option<Json>, b: Option<Json>): (r: Option<Json>)
    ensures a.Some? && a.value != JNull ==> r == a
    ensures a.None? || a.value == JNull ==> r == b
  {
    if a.Some? && a.value != JNull then a else b
  }

  /** A value used as a condition: `undefined`, `null`, `false`, `0` and `""`
      are falsy, every array and object is truthy. */
  predicate Truthy(v: Option<Json>) {
    match v
    case None => false
    case Some(JNull) => false
    case Some(JBool(b)) => b
    case Some(JNumber(n)) => n != 0.0
    case Some(JString(s)) => s != ""
    case Some(JArray(_)) => true
    case Some(JObject(_)) => true
  }

  /** Whether `String(v)` throws a TypeError. An object with its own
      `toString` key throws: no JSON value can be called, and the object's
      `valueOf` gives back the object, which is no primitive. An array throws
      when one of its elements does, since `join` converts each of them. */
  predicate StringThrows(v: Json)
    decreases v
  {
    match v
    case JObject(fields) => "toString" in fields
    case JArray(items) => exists w :: w in items && StringThrows(w)
    case _ => false
  }

  /** `String(v)` where it does not throw: arrays join their elements'
      strings with ",", `null` elements giving ""; an object is
      "[object Object]". On a value where `StringThrows` holds it gives
      that same text instead of the TypeError. */
  function JsString(v: Json, lib: Library): string
    decreases v, if v.JArray? then |v.items| + 1 else 0
  {
    match v
    case JNull => "null"
    case JBool(b) => if b then "true" else "false"
    case JNumber(n) => lib.numberText(n)
    case JString(s) => s
    case JArray(items) =>
      assert forall k :: 0 <= k < |items| ==> items[k] in items;
      JoinElements(v, items, lib)
    case JObject(_) => "[object Object]"
  }

  /** The elements of an array as `Array.prototype.join` writes them. */
  function JoinElements(v: Json, items: seq<Json>, lib: Library): string
    requires v.JArray? && |items| <= |v.items|
    requires forall k :: 0 <= k < |items| ==> items[k] < v
    decreases v, |items|
  {
    if |items| == 0 then ""
    else
      var head := if items[0] == JNull then "" else JsString(items[0], lib);
      if |items| == 1 then head else head + "," + JoinElements(v, items[1..], lib)
  }

  /** `String(v ?? "")`: the string of the value, "" when it is missing or
      `null`, and `None` where `String` throws. */
  function StringOr(v: Option<Json>, lib: Library): (r: Option<string>)
    ensures r.None? <==> v.Some? && StringThrows(v.value)
    ensures v == None || v == Some(JNull) ==> r == Some("")
    ensures v.Some? && v.value.JString? ==> r == Some(v.value.s)
    ensures v.Some? && v.value.JObject? && r.Some? ==> r.value == "[object Object]"
  {
    match OrElse(v, Some(JString("")))
    case Some(w) => if StringThrows(w) then None else Some(JsString(w, lib))
    case None => Some("")
  }

  /** `schemaToJson`: a JSON Schema as it is, a zod schema converted. */
  function SchemaToJson(schema: Option<Schema>, lib: Library): (r: Option<Json>)
    ensures r.None? <==> schema.None?
    ensures schema.Some? && schema.value.JsonSchema? ==> r == Some(schema.value.json)
  {
    match schema
    case None => None
    case Some(JsonSchema(json)) => Some(json)
    case Some(ZodSchema(handle)) => Some(lib.zodToJson(handle))
  }
}
