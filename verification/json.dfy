/** JSON as a value tree, and the org.json library as a parameter.

    The org.json printer, parser and `opt*` coercions are library code the
    codecs call but do not define. They are passed in as a `JsonLib` record
    of functions; `Lawful` states the only facts about them the codecs rely
    on. A `None` from `parse` is a `JSONException` (malformed text). */
module Json {
  import opened Wrappers
  import opened JavaTypes

  /** A JSON number as org.json holds it: a boxed `Long` or a boxed `Float`. */
  datatype Number = LongNumber(l: Long) | FloatNumber(f: Float32)

  datatype Json =
    | JNull
    | JBool(b: bool)
    | JNumber(n: Number)
    | JString(s: string)
    | JArray(elems: seq<Json>)
    | JObject(fields: map<string, Json>)

  /** The org.json operations the item codec uses:
      `toString()`, `new JSONArray(text)` / `JSONTokener.nextValue()`, and
      `optString`, `optBoolean`, `(float) optDouble`, `optLong` applied to a
      present, non-null member value. */
  datatype JsonLib = JsonLib(
    render: Json -> string,
    parse: string -> Option<Json>,
    optString: Json -> string,
    optBoolean: Json -> bool,
    optFloat: Json -> Float32,
    optLong: Json -> Long)

  /** What the codecs assume of org.json: printing then parsing gives the
      tree back, the text `null` parses as JSON null, and each `opt*`
      coercion returns a value of its own type unchanged. */
  ghost predicate Lawful(lib: JsonLib) {
    && (forall v :: lib.parse(lib.render(v)) == Some(v))
    && lib.parse("null") == Some(JNull)
    && (forall s :: lib.optString(JString(s)) == s)
    && (forall b :: lib.optBoolean(JBool(b)) == b)
    && (forall f :: lib.optFloat(JNumber(FloatNumber(f))) == f)
    && (forall l :: lib.optLong(JNumber(LongNumber(l))) == l)
  }

  /** `JSONObject.isNull(key)`: the key is absent or holds JSON null. */
  predicate IsNull(o: map<string, Json>, key: string) {
    key !in o || o[key] == JNull
  }

  /** No lawful printer prints an array as the text `null`, since that text
      parses back as JSON null. */
  lemma PrintedArrayIsNotNullText(lib: JsonLib, elems: seq<Json>)
    requires Lawful(lib)
    ensures lib.render(JArray(elems)) != "null"
  {
  }
}
