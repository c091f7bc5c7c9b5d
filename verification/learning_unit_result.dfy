/** `RunLearningUnitResult` of the integration library (envelope version 2):
    how a learning unit run ended, with an optional score, a required
    foreground duration, two nullable strings and an optional list of
    result items carried as JSON text. */
module LearningUnitResult {
  import opened Wrappers
  import opened JavaTypes
  import opened Intents
  import opened Envelope
  import opened Json
  import opened ResultItems

  const Version: Int32 := 2

  const VersionExtra: string := "version"
  const ResultTypeExtra: string := "resultType"
  const ScoreExtra: string := "score"
  const DurationExtra: string := "foregroundDurationInMs"
  const AdditionalDataExtra: string := "additionalData"
  const ErrorDetailsExtra: string := "errorDetails"
  const ItemsExtra: string := "items"

  /** The keys `toIntent()` writes. */
  const ResultKeys: set<string> :=
    {VersionExtra, ResultTypeExtra, ScoreExtra, DurationExtra, AdditionalDataExtra, ErrorDetailsExtra, ItemsExtra}

  /** Structural equality of this datatype is the seven-field `equals`. A
      null `items` (no account of the interactions) and an empty list (no
      interactions) are different values. */
  datatype RunLearningUnitResult = RunLearningUnitResult(
    version: Int32,
    resultType: Outcome,
    score: Option<Float32>,
    foregroundDurationInMs: Long,
    additionalData: Option<string>,
    errorDetails: Option<string>,
    items: Option<seq<ResultItem>>)

  /** The four outcome factories other than `ofError`: the current version,
      the factory's own outcome, no error details, and every argument
      passed through unchanged. */
  predicate BuiltBy(r: RunLearningUnitResult, o: Outcome, score: Option<Float32>, duration: Long,
                    additionalData: Option<string>, items: Option<seq<ResultItem>>) {
    && r.version == Version && r.resultType == o && r.errorDetails.None?
    && r.score == score && r.foregroundDurationInMs == duration
    && r.additionalData == additionalData && r.items == items
  }

  function OfSuccess(score: Option<Float32>, duration: Long, additionalData: Option<string>,
                     items: Option<seq<ResultItem>>): (r: RunLearningUnitResult)
    ensures BuiltBy(r, Success, score, duration, additionalData, items)
  {
    RunLearningUnitResult(Version, Success, score, duration, additionalData, None, items)
  }

  function OfAbort(score: Option<Float32>, duration: Long, additionalData: Option<string>,
                   items: Option<seq<ResultItem>>): (r: RunLearningUnitResult)
    ensures BuiltBy(r, Abort, score, duration, additionalData, items)
  {
    RunLearningUnitResult(Version, Abort, score, duration, additionalData, None, items)
  }

  function OfTimeoutInactivity(score: Option<Float32>, duration: Long, additionalData: Option<string>,
                               items: Option<seq<ResultItem>>): (r: RunLearningUnitResult)
    ensures BuiltBy(r, TimeoutInactivity, score, duration, additionalData, items)
  {
    RunLearningUnitResult(Version, TimeoutInactivity, score, duration, additionalData, None, items)
  }

  function OfTimeUp(score: Option<Float32>, duration: Long, additionalData: Option<string>,
                    items: Option<seq<ResultItem>>): (r: RunLearningUnitResult)
    ensures BuiltBy(r, TimeUp, score, duration, additionalData, items)
  {
    RunLearningUnitResult(Version, TimeUp, score, duration, additionalData, None, items)
  }

  /** `ofError`: outcome `Error` carrying the given (non-null) details, all
      other arguments unchanged. */
  function OfError(score: Option<Float32>, duration: Long, errorDetails: string,
                   additionalData: Option<string>, items: Option<seq<ResultItem>>): (r: RunLearningUnitResult)
    ensures r.version == Version && r.resultType == Error && r.errorDetails == Some(errorDetails)
    ensures r.score == score && r.foregroundDurationInMs == duration
    ensures r.additionalData == additionalData && r.items == items
  {
    RunLearningUnitResult(Version, Error, score, duration, additionalData, Some(errorDetails), items)
  }

  /** `itemsJson()`: the literal text `null` for a null list, otherwise the
      printed JSON array of the items' objects. */
  function ItemsJson(lib: JsonLib, items: Option<seq<ResultItem>>): string {
    match items
    case None => "null"
    case Some(l) => lib.render(JArray(ItemsToJson(l)))
  }

  /** The items text is present, is not `null`, and does not parse as an
      array whose every element is an object. */
  predicate ItemsMalformed(lib: JsonLib, text: Option<string>) {
    && text.Some? && text.value != "null"
    && !(lib.parse(text.value).Some? && lib.parse(text.value).value.JArray?
         && forall i :: 0 <= i < |lib.parse(text.value).value.elems| ==>
                          lib.parse(text.value).value.elems[i].JObject?)
  }

  /** `parseItems` on the string read from the `items` extra. */
  function ParseItemsText(lib: JsonLib, text: Option<string>): (r: Result<Option<seq<ResultItem>>>)
    ensures r.Fail? <==> ItemsMalformed(lib, text)
    ensures text.None? || text == Some("null") ==> r == Ok(None)
    ensures r.Ok? && r.value.Some? ==>
              |r.value.value| == |lib.parse(text.value).value.elems|
    ensures r.Ok? && text.Some? && text.value != "null" ==>
              && r.value.Some?
              && Ok(r.value.value) == ItemsFromJson(lib, lib.parse(text.value).value.elems)
  {
    if text.None? || text.value == "null" then Ok(None)
    else match lib.parse(text.value)
      case Some(JArray(elems)) =>
        var l :- ItemsFromJson(lib, elems);
        Ok(Some(l))
      case _ => Fail
  }

  /** The items text round-trips: null comes back null and every list,
      the empty one included, comes back equal, so the two stay distinct. */
  lemma ItemsTextRoundTrip(lib: JsonLib, items: Option<seq<ResultItem>>)
    requires Lawful(lib)
    ensures ParseItemsText(lib, Some(ItemsJson(lib, items))) == Ok(items)
  {
    if items.Some? {
      PrintedArrayIsNotNullText(lib, ItemsToJson(items.value));
      ItemsRoundTrip(lib, items.value);
    }
  }

  /** `fromIntent`. It fails exactly when the outcome key does not hold one
      of the five names, the duration key is absent, or the items text is
      malformed; the version defaults to 2 and a present score key is read
      with default `0.0f`. */
  function FromIntent(lib: JsonLib, b: Intent): (r: Result<RunLearningUnitResult>)
    ensures r.Fail? <==>
              || !HoldsOutcomeName(b, ResultTypeExtra)
              || DurationExtra !in b.extras
              || ItemsMalformed(lib, GetStringExtra(b, ItemsExtra))
    ensures r.Ok? ==>
              && r.value.version == ReadVersion(b, Version)
              && Name(r.value.resultType) == b.extras[ResultTypeExtra].s
              && r.value.score == LenientFloat(b, ScoreExtra)
              && r.value.foregroundDurationInMs == GetLongExtra(b, DurationExtra, 0)
              && r.value.additionalData == GetStringExtra(b, AdditionalDataExtra)
              && r.value.errorDetails == GetStringExtra(b, ErrorDetailsExtra)
              && Ok(r.value.items) == ParseItemsText(lib, GetStringExtra(b, ItemsExtra))
  {
    var version := ReadVersion(b, Version);
    var resultType :- ReadOutcome(b, ResultTypeExtra);
    var score := LenientFloat(b, ScoreExtra);
    var duration := LenientLong(b, DurationExtra);
    var additionalData := GetStringExtra(b, AdditionalDataExtra);
    var errorDetails := GetStringExtra(b, ErrorDetailsExtra);
    var items :- ParseItemsText(lib, GetStringExtra(b, ItemsExtra));
    if resultType.None? || duration.None? then Fail
    else Ok(RunLearningUnitResult(version, resultType.value, score, duration.value,
                                  additionalData, errorDetails, items))
  }

  /** `toIntent()`: exactly the seven keys, the outcome by name, a null
      score, additional data or error details as a null-valued key, and
      the items as text. */
  function ToIntent(lib: JsonLib, r: RunLearningUnitResult): (b: Intent)
    ensures b.action.None? && b.component.None? && b.data.None?
    ensures b.extras.Keys == ResultKeys
    ensures b.extras[VersionExtra] == VInt(r.version)
    ensures b.extras[ResultTypeExtra] == VStr(Name(r.resultType))
    ensures b.extras[ScoreExtra] == BoxedFloat(r.score)
    ensures b.extras[DurationExtra] == VLong(r.foregroundDurationInMs)
    ensures b.extras[AdditionalDataExtra] == NullableString(r.additionalData)
    ensures b.extras[ErrorDetailsExtra] == NullableString(r.errorDetails)
    ensures b.extras[ItemsExtra] == VStr(ItemsJson(lib, r.items))
  {
    EmptyIntent.(extras := map[
      VersionExtra := VInt(r.version),
      ResultTypeExtra := VStr(Name(r.resultType)),
      ScoreExtra := BoxedFloat(r.score),
      DurationExtra := VLong(r.foregroundDurationInMs),
      AdditionalDataExtra := NullableString(r.additionalData),
      ErrorDetailsExtra := NullableString(r.errorDetails),
      ItemsExtra := VStr(ItemsJson(lib, r.items))])
  }

  /** Decoding the encoded result gives every field back, except that a
      null score comes back as `0.0f`: its null-valued key passes
      `hasExtra` and `getFloatExtra` then yields the default. */
  lemma RoundTrip(lib: JsonLib, r: RunLearningUnitResult)
    requires Lawful(lib)
    ensures FromIntent(lib, ToIntent(lib, r)) == Ok(r.(score := Some(r.score.GetOr(ZeroFloat))))
    ensures r.score.Some? ==> FromIntent(lib, ToIntent(lib, r)) == Ok(r)
  {
    var b := ToIntent(lib, r);
    EncodedFieldsReadBack(lib, r, b);
  }

  /** Each field read back from a bag holding the encoded keys of `r`. */
  lemma EncodedFieldsReadBack(lib: JsonLib, r: RunLearningUnitResult, b: Intent)
    requires Lawful(lib)
    requires {VersionExtra, ResultTypeExtra, DurationExtra, AdditionalDataExtra, ErrorDetailsExtra, ItemsExtra}
             <= b.extras.Keys
    requires b.extras[VersionExtra] == VInt(r.version)
    requires b.extras[ResultTypeExtra] == VStr(Name(r.resultType))
    requires b.extras[DurationExtra] == VLong(r.foregroundDurationInMs)
    requires b.extras[AdditionalDataExtra] == NullableString(r.additionalData)
    requires b.extras[ErrorDetailsExtra] == NullableString(r.errorDetails)
    requires b.extras[ItemsExtra] == VStr(ItemsJson(lib, r.items))
    ensures FromIntent(lib, b) == Ok(r.(score := LenientFloat(b, ScoreExtra)))
  {
    ItemsTextRoundTrip(lib, r.items);
    ValueOfName(r.resultType, Name(r.resultType));
    assert ReadVersion(b, Version) == r.version;
    assert ReadOutcome(b, ResultTypeExtra) == Ok(Some(r.resultType));
    assert LenientLong(b, DurationExtra) == Some(r.foregroundDurationInMs);
    assert GetStringExtra(b, AdditionalDataExtra) == r.additionalData;
    assert GetStringExtra(b, ErrorDetailsExtra) == r.errorDetails;
    assert ParseItemsText(lib, GetStringExtra(b, ItemsExtra)) == Ok(r.items);
  }

  /** A concrete witness of the lost null score: `ofSuccess(null, …)` does
      not survive the round trip. */
  lemma NullScoreComesBackAsZero(lib: JsonLib)
    requires Lawful(lib)
    ensures var r := OfSuccess(None, 1000, None, None);
            FromIntent(lib, ToIntent(lib, r)) == Ok(r.(score := Some(ZeroFloat)))
            && FromIntent(lib, ToIntent(lib, r)) != Ok(r)
  {
  }

  /** `toIntent()` corrected to leave the score key out when the score is
      null, as it does for every other optional value whose absence is
      meant to be seen. */
  function ToIntentOmittingNullScore(lib: JsonLib, r: RunLearningUnitResult): (b: Intent)
    ensures ScoreExtra in b.extras <==> r.score.Some?
    ensures b.extras.Keys == if r.score.Some? then ResultKeys else ResultKeys - {ScoreExtra}
    ensures forall k :: k in b.extras ==> b.extras[k] == ToIntent(lib, r).extras[k]
  {
    var full := ToIntent(lib, r);
    if r.score.Some? then full else full.(extras := full.extras - {ScoreExtra})
  }

  /** With the corrected encoder every result round-trips, null score
      included. */
  lemma RoundTripOmittingNullScore(lib: JsonLib, r: RunLearningUnitResult)
    requires Lawful(lib)
    ensures FromIntent(lib, ToIntentOmittingNullScore(lib, r)) == Ok(r)
  {
    var b := ToIntentOmittingNullScore(lib, r);
    EncodedFieldsReadBack(lib, r, b);
  }

  /** Every factory-built result with a score round-trips unchanged, for all
      five outcomes. */
  lemma FactoriesRoundTrip(lib: JsonLib, score: Float32, duration: Long, additionalData: Option<string>,
                           errorDetails: string, items: Option<seq<ResultItem>>)
    requires Lawful(lib)
    ensures var s := Some(score);
            && FromIntent(lib, ToIntent(lib, OfSuccess(s, duration, additionalData, items)))
               == Ok(OfSuccess(s, duration, additionalData, items))
            && FromIntent(lib, ToIntent(lib, OfAbort(s, duration, additionalData, items)))
               == Ok(OfAbort(s, duration, additionalData, items))
            && FromIntent(lib, ToIntent(lib, OfTimeoutInactivity(s, duration, additionalData, items)))
               == Ok(OfTimeoutInactivity(s, duration, additionalData, items))
            && FromIntent(lib, ToIntent(lib, OfTimeUp(s, duration, additionalData, items)))
               == Ok(OfTimeUp(s, duration, additionalData, items))
            && FromIntent(lib, ToIntent(lib, OfError(s, duration, errorDetails, additionalData, items)))
               == Ok(OfError(s, duration, errorDetails, additionalData, items))
  {
    var s := Some(score);
    RoundTrip(lib, OfSuccess(s, duration, additionalData, items));
    RoundTrip(lib, OfAbort(s, duration, additionalData, items));
    RoundTrip(lib, OfTimeoutInactivity(s, duration, additionalData, items));
    RoundTrip(lib, OfTimeUp(s, duration, additionalData, items));
    RoundTrip(lib, OfError(s, duration, errorDetails, additionalData, items));
  }

  /** A bag without a version key decodes with version 2; a stamped `int`
      version, older or newer, is kept. */
  lemma VersionDefault(lib: JsonLib, b: Intent)
    requires FromIntent(lib, b).Ok?
    ensures VersionExtra !in b.extras ==> FromIntent(lib, b).value.version == Version
    ensures VersionExtra in b.extras && b.extras[VersionExtra].VInt? ==>
              FromIntent(lib, b).value.version == b.extras[VersionExtra].i
  {
  }
}
