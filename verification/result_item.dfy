/** `ResultItem`: one interaction record of a learning unit run, with eight
    independently optional fields, and its JSON object codec. */
module ResultItems {
  import opened Wrappers
  import opened JavaTypes
  import opened Json

  const IdKey: string := "id"
  const ChallengeKey: string := "challenge"
  const CompletedKey: string := "completed"
  const GivenResponseKey: string := "givenResponse"
  const CorrectResponseKey: string := "correctResponse"
  const ScoreKey: string := "score"
  const DurationKey: string := "durationInMs"
  const TimeToFirstActionKey: string := "timeToFirstActionInMs"

  /** The eight JSON member names, in declaration order. */
  const ItemKeys: seq<string> :=
    [IdKey, ChallengeKey, CompletedKey, GivenResponseKey, CorrectResponseKey,
     ScoreKey, DurationKey, TimeToFirstActionKey]

  /** The public constructor: every field is stored as given, null included.
      Structural equality of this datatype is the eight-field `equals`. */
  datatype ResultItem = ResultItem(
    id: Option<string>,
    completed: Option<bool>,
    challenge: Option<string>,
    givenResponse: Option<string>,
    correctResponse: Option<string>,
    score: Option<Float32>,
    durationInMs: Option<Long>,
    timeToFirstActionInMs: Option<Long>)

  const EmptyItem: ResultItem := ResultItem(None, None, None, None, None, None, None, None)

  /** No two of the eight member names coincide, so no field can be read
      from another field's member. */
  lemma ItemKeysDistinct()
    ensures |ItemKeys| == 8
    ensures forall i, j :: 0 <= i < j < |ItemKeys| ==> ItemKeys[i] != ItemKeys[j]
  {
  }

  function StringJson(s: Option<string>): Option<Json> {
    match s
    case None => None
    case Some(v) => Some(JString(v))
  }

  function BoolJson(b: Option<bool>): Option<Json> {
    match b
    case None => None
    case Some(v) => Some(JBool(v))
  }

  function FloatJson(f: Option<Float32>): Option<Json> {
    match f
    case None => None
    case Some(v) => Some(JNumber(FloatNumber(v)))
  }

  function LongJson(l: Option<Long>): Option<Json> {
    match l
    case None => None
    case Some(v) => Some(JNumber(LongNumber(v)))
  }

  /** The member `toJson()` writes under `key`, if any. */
  function MemberValue(x: ResultItem, key: string): Option<Json> {
    if key == IdKey then StringJson(x.id)
    else if key == CompletedKey then BoolJson(x.completed)
    else if key == ChallengeKey then StringJson(x.challenge)
    else if key == GivenResponseKey then StringJson(x.givenResponse)
    else if key == CorrectResponseKey then StringJson(x.correctResponse)
    else if key == ScoreKey then FloatJson(x.score)
    else if key == DurationKey then LongJson(x.durationInMs)
    else if key == TimeToFirstActionKey then LongJson(x.timeToFirstActionInMs)
    else None
  }

  /** `toJson()`: a member is written exactly for each non-null field, with
      that field's value, and JSON null is never written. */
  function ToJson(x: ResultItem): (o: map<string, Json>)
    ensures o.Keys <= set k | k in ItemKeys
    ensures forall k :: k in o ==> o[k] != JNull
    ensures IdKey in o <==> x.id.Some?
    ensures CompletedKey in o <==> x.completed.Some?
    ensures ChallengeKey in o <==> x.challenge.Some?
    ensures GivenResponseKey in o <==> x.givenResponse.Some?
    ensures CorrectResponseKey in o <==> x.correctResponse.Some?
    ensures ScoreKey in o <==> x.score.Some?
    ensures DurationKey in o <==> x.durationInMs.Some?
    ensures TimeToFirstActionKey in o <==> x.timeToFirstActionInMs.Some?
    ensures x.id.Some? ==> o[IdKey] == JString(x.id.value)
    ensures x.completed.Some? ==> o[CompletedKey] == JBool(x.completed.value)
    ensures x.challenge.Some? ==> o[ChallengeKey] == JString(x.challenge.value)
    ensures x.givenResponse.Some? ==> o[GivenResponseKey] == JString(x.givenResponse.value)
    ensures x.correctResponse.Some? ==> o[CorrectResponseKey] == JString(x.correctResponse.value)
    ensures x.score.Some? ==> o[ScoreKey] == JNumber(FloatNumber(x.score.value))
    ensures x.durationInMs.Some? ==> o[DurationKey] == JNumber(LongNumber(x.durationInMs.value))
    ensures x.timeToFirstActionInMs.Some? ==>
              o[TimeToFirstActionKey] == JNumber(LongNumber(x.timeToFirstActionInMs.value))
  {
    map k | k in ItemKeys && MemberValue(x, k).Some? :: MemberValue(x, k).value
  }

  /** `json.isNull(key) ? null : json.optX(key)`: one optional member,
      coerced by `coerce` when present and non-null. */
  function Member<T>(o: map<string, Json>, key: string, coerce: Json -> T): (r: Option<T>)
    ensures r.None? <==> IsNull(o, key)
    ensures r.Some? ==> key in o && r.value == coerce(o[key])
  {
    if IsNull(o, key) then None else Some(coerce(o[key]))
  }

  /** `fromJson(obj)`: a field is null exactly when its member is absent or
      holds JSON null; otherwise it is the member coerced by the matching
      `opt*` call. It never fails on an object. */
  function FromJson(lib: JsonLib, o: map<string, Json>): (r: ResultItem)
    ensures r.id.None? <==> IsNull(o, IdKey)
    ensures r.completed.None? <==> IsNull(o, CompletedKey)
    ensures r.challenge.None? <==> IsNull(o, ChallengeKey)
    ensures r.givenResponse.None? <==> IsNull(o, GivenResponseKey)
    ensures r.correctResponse.None? <==> IsNull(o, CorrectResponseKey)
    ensures r.score.None? <==> IsNull(o, ScoreKey)
    ensures r.durationInMs.None? <==> IsNull(o, DurationKey)
    ensures r.timeToFirstActionInMs.None? <==> IsNull(o, TimeToFirstActionKey)
    ensures r.id.Some? ==> r.id.value == lib.optString(o[IdKey])
    ensures r.completed.Some? ==> r.completed.value == lib.optBoolean(o[CompletedKey])
    ensures r.challenge.Some? ==> r.challenge.value == lib.optString(o[ChallengeKey])
    ensures r.givenResponse.Some? ==> r.givenResponse.value == lib.optString(o[GivenResponseKey])
    ensures r.correctResponse.Some? ==> r.correctResponse.value == lib.optString(o[CorrectResponseKey])
    ensures r.score.Some? ==> r.score.value == lib.optFloat(o[ScoreKey])
    ensures r.durationInMs.Some? ==> r.durationInMs.value == lib.optLong(o[DurationKey])
    ensures r.timeToFirstActionInMs.Some? ==>
              r.timeToFirstActionInMs.value == lib.optLong(o[TimeToFirstActionKey])
  {
    ResultItem(
      Member(o, IdKey, lib.optString),
      Member(o, CompletedKey, lib.optBoolean),
      Member(o, ChallengeKey, lib.optString),
      Member(o, GivenResponseKey, lib.optString),
      Member(o, CorrectResponseKey, lib.optString),
      Member(o, ScoreKey, lib.optFloat),
      Member(o, DurationKey, lib.optLong),
      Member(o, TimeToFirstActionKey, lib.optLong))
  }

  /** Decoding the encoded object gives back an item equal to the original
      under the eight-field equality. */
  lemma JsonRoundTrip(lib: JsonLib, x: ResultItem)
    requires Lawful(lib)
    ensures FromJson(lib, ToJson(x)) == x
  {
  }

  /** The all-null item encodes to the empty object, and the empty object
      decodes to the all-null item whatever the library. */
  lemma EmptyItemRoundTrip(lib: JsonLib)
    ensures ToJson(EmptyItem) == map[]
    ensures FromJson(lib, map[]) == EmptyItem
  {
  }

  /** An item with only `id` and `score` set encodes to an object with
      exactly those two members. */
  lemma PartialItemKeys(id: string, score: Float32)
    ensures ToJson(EmptyItem.(id := Some(id), score := Some(score))).Keys == {IdKey, ScoreKey}
  {
  }

  /** The JSON array written for a list of items: one object per item, in
      order. */
  function ItemsToJson(items: seq<ResultItem>): (r: seq<Json>)
    ensures |r| == |items|
    ensures forall i :: 0 <= i < |items| ==> r[i] == JObject(ToJson(items[i]))
  {
    if items == [] then [] else [JObject(ToJson(items[0]))] + ItemsToJson(items[1..])
  }

  /** The loop `items.add(ResultItem.fromJson(jsonArray.getJSONObject(i)))`:
      it fails exactly when some element is not an object, and otherwise
      decodes every element in order. */
  function ItemsFromJson(lib: JsonLib, elems: seq<Json>): (r: Result<seq<ResultItem>>)
    ensures r.Ok? <==> forall i :: 0 <= i < |elems| ==> elems[i].JObject?
    ensures r.Ok? ==> |r.value| == |elems|
    ensures r.Ok? ==> forall i :: 0 <= i < |elems| ==> r.value[i] == FromJson(lib, elems[i].fields)
  {
    if elems == [] then Ok([])
    else if !elems[0].JObject? then Fail
    else
      var rest :- ItemsFromJson(lib, elems[1..]);
      Ok([FromJson(lib, elems[0].fields)] + rest)
  }

  /** Decoding the encoded array gives the list back, element by element. */
  lemma {:induction false} ItemsRoundTrip(lib: JsonLib, items: seq<ResultItem>)
    requires Lawful(lib)
    ensures ItemsFromJson(lib, ItemsToJson(items)) == Ok(items)
  {
    var r := ItemsFromJson(lib, ItemsToJson(items));
    assert r.Ok?;
    forall i | 0 <= i < |items|
      ensures r.value[i] == items[i]
    {
      JsonRoundTrip(lib, items[i]);
    }
    assert r.value == items;
  }
}
