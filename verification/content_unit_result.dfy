/** The content app library's result envelope (version 1). It is declared
    twice with identical code, as `com.eidu.integration.RunLearningUnitResult`
    and as `com.eidu.content.integration.RunContentUnitResult`; this module
    models both. Unlike the integration library's result it carries the
    content id, a primitive score and no result items. */
module ContentUnitResult {
  import opened Wrappers
  import opened JavaTypes
  import opened Intents
  import opened Envelope

  const Version: Int32 := 1

  const VersionExtra: string := "version"
  const ContentIdExtra: string := "contentId"
  const ResultTypeExtra: string := "resultType"
  const ScoreExtra: string := "score"
  const DurationExtra: string := "foregroundDurationInMs"
  const AdditionalDataExtra: string := "additionalData"
  const ErrorDetailsExtra: string := "errorDetails"

  /** The keys `toIntent()` writes. */
  const ResultKeys: set<string> :=
    {VersionExtra, ContentIdExtra, ResultTypeExtra, ScoreExtra, DurationExtra, AdditionalDataExtra, ErrorDetailsExtra}

  /** Structural equality of this datatype is the seven-field `equals`
      (with the score compared bit for bit; see the notes on floats). */
  datatype RunContentUnitResult = RunContentUnitResult(
    version: Int32,
    contentId: string,
    resultType: Outcome,
    score: Float32,
    foregroundDurationInMs: Long,
    additionalData: Option<string>,
    errorDetails: Option<string>)

  /** What every factory shares: the current version, the given content id,
      duration and additional data, and the factory's own outcome. */
  predicate BuiltBy(r: RunContentUnitResult, o: Outcome, contentId: string, duration: Long,
                    additionalData: Option<string>) {
    && r.version == Version && r.resultType == o && r.contentId == contentId
    && r.foregroundDurationInMs == duration && r.additionalData == additionalData
  }

  /** `ofSuccess`: the only factory that takes a score. */
  function OfSuccess(contentId: string, score: Float32, duration: Long, additionalData: Option<string>)
    : (r: RunContentUnitResult)
    ensures BuiltBy(r, Success, contentId, duration, additionalData)
    ensures r.score == score && r.errorDetails.None?
  {
    RunContentUnitResult(Version, contentId, Success, score, duration, additionalData, None)
  }

  /** `ofAbort`: the score is fixed at `0`. */
  function OfAbort(contentId: string, duration: Long, additionalData: Option<string>): (r: RunContentUnitResult)
    ensures BuiltBy(r, Abort, contentId, duration, additionalData)
    ensures r.score == ZeroFloat && r.errorDetails.None?
  {
    RunContentUnitResult(Version, contentId, Abort, ZeroFloat, duration, additionalData, None)
  }

  /** `ofTimeoutInactivity`: the score is fixed at `0`. */
  function OfTimeoutInactivity(contentId: string, duration: Long, additionalData: Option<string>)
    : (r: RunContentUnitResult)
    ensures BuiltBy(r, TimeoutInactivity, contentId, duration, additionalData)
    ensures r.score == ZeroFloat && r.errorDetails.None?
  {
    RunContentUnitResult(Version, contentId, TimeoutInactivity, ZeroFloat, duration, additionalData, None)
  }

  /** `ofTimeUp`: the score is fixed at `0`. */
  function OfTimeUp(contentId: string, duration: Long, additionalData: Option<string>): (r: RunContentUnitResult)
    ensures BuiltBy(r, TimeUp, contentId, duration, additionalData)
    ensures r.score == ZeroFloat && r.errorDetails.None?
  {
    RunContentUnitResult(Version, contentId, TimeUp, ZeroFloat, duration, additionalData, None)
  }

  /** `ofError`: the score is fixed at `0` and the details are kept. */
  function OfError(contentId: string, duration: Long, errorDetails: string, additionalData: Option<string>)
    : (r: RunContentUnitResult)
    ensures BuiltBy(r, Error, contentId, duration, additionalData)
    ensures r.score == ZeroFloat && r.errorDetails == Some(errorDetails)
  {
    RunContentUnitResult(Version, contentId, Error, ZeroFloat, duration, additionalData, Some(errorDetails))
  }

  /** `fromIntent`. It fails exactly when the content id is null or empty,
      the outcome key does not hold one of the five names, or the score or
      duration key is absent; present score and duration keys are read with
      default `0`. */
  function FromIntent(b: Intent): (r: Result<RunContentUnitResult>)
    ensures r.Fail? <==>
              || !HoldsNonEmptyString(b, ContentIdExtra)
              || !HoldsOutcomeName(b, ResultTypeExtra)
              || ScoreExtra !in b.extras
              || DurationExtra !in b.extras
    ensures r.Ok? ==>
              && r.value.version == ReadVersion(b, Version)
              && VStr(r.value.contentId) == b.extras[ContentIdExtra]
              && Name(r.value.resultType) == b.extras[ResultTypeExtra].s
              && Some(r.value.score) == LenientFloat(b, ScoreExtra)
              && r.value.foregroundDurationInMs == GetLongExtra(b, DurationExtra, 0)
              && r.value.additionalData == GetStringExtra(b, AdditionalDataExtra)
              && r.value.errorDetails == GetStringExtra(b, ErrorDetailsExtra)
  {
    var version := ReadVersion(b, Version);
    var contentId := GetStringExtra(b, ContentIdExtra);
    var resultType :- ReadOutcome(b, ResultTypeExtra);
    var score := LenientFloat(b, ScoreExtra);
    var duration := LenientLong(b, DurationExtra);
    var additionalData := GetStringExtra(b, AdditionalDataExtra);
    var errorDetails := GetStringExtra(b, ErrorDetailsExtra);
    if !Present(contentId) || resultType.None? || score.None? || duration.None? then Fail
    else Ok(RunContentUnitResult(version, contentId.value, resultType.value, score.value, duration.value,
                                 additionalData, errorDetails))
  }

  /** `toIntent()`: exactly the seven keys, the outcome by name, and null
      additional data or error details as null-valued keys. */
  function ToIntent(r: RunContentUnitResult): (b: Intent)
    ensures b.action.None? && b.component.None? && b.data.None?
    ensures b.extras.Keys == ResultKeys
    ensures b.extras[VersionExtra] == VInt(r.version)
    ensures b.extras[ContentIdExtra] == VStr(r.contentId)
    ensures b.extras[ResultTypeExtra] == VStr(Name(r.resultType))
    ensures b.extras[ScoreExtra] == VFloat(r.score)
    ensures b.extras[DurationExtra] == VLong(r.foregroundDurationInMs)
    ensures b.extras[AdditionalDataExtra] == NullableString(r.additionalData)
    ensures b.extras[ErrorDetailsExtra] == NullableString(r.errorDetails)
  {
    EmptyIntent.(extras := map[
      VersionExtra := VInt(r.version),
      ContentIdExtra := VStr(r.contentId),
      ResultTypeExtra := VStr(Name(r.resultType)),
      ScoreExtra := VFloat(r.score),
      DurationExtra := VLong(r.foregroundDurationInMs),
      AdditionalDataExtra := NullableString(r.additionalData),
      ErrorDetailsExtra := NullableString(r.errorDetails)])
  }

  /** The round trip is exact whenever the content id is non-empty (every
      factory's contract asks for one), and decoding rejects an empty one. */
  lemma RoundTrip(r: RunContentUnitResult)
    ensures r.contentId != "" ==> FromIntent(ToIntent(r)) == Ok(r)
    ensures r.contentId == "" ==> FromIntent(ToIntent(r)).Fail?
  {
  }

  /** Every factory's result round-trips for a non-empty content id. */
  lemma FactoriesRoundTrip(contentId: string, score: Float32, duration: Long, errorDetails: string,
                           additionalData: Option<string>)
    requires contentId != ""
    ensures FromIntent(ToIntent(OfSuccess(contentId, score, duration, additionalData)))
            == Ok(OfSuccess(contentId, score, duration, additionalData))
    ensures FromIntent(ToIntent(OfAbort(contentId, duration, additionalData)))
            == Ok(OfAbort(contentId, duration, additionalData))
    ensures FromIntent(ToIntent(OfTimeoutInactivity(contentId, duration, additionalData)))
            == Ok(OfTimeoutInactivity(contentId, duration, additionalData))
    ensures FromIntent(ToIntent(OfTimeUp(contentId, duration, additionalData)))
            == Ok(OfTimeUp(contentId, duration, additionalData))
    ensures FromIntent(ToIntent(OfError(contentId, duration, errorDetails, additionalData)))
            == Ok(OfError(contentId, duration, errorDetails, additionalData))
  {
    RoundTrip(OfSuccess(contentId, score, duration, additionalData));
    RoundTrip(OfAbort(contentId, duration, additionalData));
    RoundTrip(OfTimeoutInactivity(contentId, duration, additionalData));
    RoundTrip(OfTimeUp(contentId, duration, additionalData));
    RoundTrip(OfError(contentId, duration, errorDetails, additionalData));
  }
}
