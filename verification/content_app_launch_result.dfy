/** `LaunchResultData` of the content app library's `com.eidu.content.result`
    package: the result of a content unit run with a required score and
    duration and a nullable additional-data string. */
module ContentAppLaunchResult {
  import opened Wrappers
  import opened JavaTypes
  import opened Intents
  import opened Envelope

  const Version: Int32 := 1

  const VersionExtra: string := "version"
  const ContentIdExtra: string := "contentId"
  const ResultExtra: string := "runContentUnitResult"
  const ScoreExtra: string := "score"
  const DurationExtra: string := "foregroundDurationInMs"
  const AdditionalDataExtra: string := "additionalData"

  /** The keys `toResultIntent()` writes. */
  const ResultKeys: set<string> :=
    {VersionExtra, ContentIdExtra, ResultExtra, ScoreExtra, DurationExtra, AdditionalDataExtra}

  /** The getters of the class are the fields of this datatype. */
  datatype LaunchResultData = LaunchResultData(
    version: Int32,
    contentId: string,
    runContentUnitResult: Outcome,
    score: Float32,
    foregroundDurationInMs: Long,
    additionalData: Option<string>)

  /** `fromPlainData`: the current version and every argument as given. */
  function FromPlainData(contentId: string, outcome: Outcome, score: Float32, duration: Long,
                         additionalData: Option<string>): (d: LaunchResultData)
    ensures d.version == Version && d.contentId == contentId && d.runContentUnitResult == outcome
    ensures d.score == score && d.foregroundDurationInMs == duration && d.additionalData == additionalData
  {
    LaunchResultData(Version, contentId, outcome, score, duration, additionalData)
  }

  /** `fromResultIntent`. It fails exactly when the content id is null or
      empty, the outcome key does not hold one of the five names, or the
      score or duration key is absent; the additional data is read only
      when its key is present, which is the same as reading it always. */
  function FromResultIntent(b: Intent): (r: Result<LaunchResultData>)
    ensures r.Fail? <==>
              || !HoldsNonEmptyString(b, ContentIdExtra)
              || !HoldsOutcomeName(b, ResultExtra)
              || ScoreExtra !in b.extras
              || DurationExtra !in b.extras
    ensures r.Ok? ==>
              && r.value.version == ReadVersion(b, Version)
              && VStr(r.value.contentId) == b.extras[ContentIdExtra]
              && Name(r.value.runContentUnitResult) == b.extras[ResultExtra].s
              && Some(r.value.score) == LenientFloat(b, ScoreExtra)
              && Some(r.value.foregroundDurationInMs) == LenientLong(b, DurationExtra)
              && r.value.additionalData == GetStringExtra(b, AdditionalDataExtra)
  {
    var version := ReadVersion(b, Version);
    var contentId := GetStringExtra(b, ContentIdExtra);
    var outcome :- ReadOutcome(b, ResultExtra);
    var score := LenientFloat(b, ScoreExtra);
    var duration := LenientLong(b, DurationExtra);
    var additionalData := if HasExtra(b, AdditionalDataExtra) then GetStringExtra(b, AdditionalDataExtra) else None;
    if !Present(contentId) || outcome.None? || score.None? || duration.None? then Fail
    else Ok(LaunchResultData(version, contentId.value, outcome.value, score.value, duration.value, additionalData))
  }

  /** `toResultIntent()`: exactly the six keys, the outcome by name and a
      null additional data as a null-valued key. */
  function ToResultIntent(d: LaunchResultData): (b: Intent)
    ensures b.action.None? && b.component.None? && b.data.None?
    ensures b.extras.Keys == ResultKeys
    ensures b.extras[VersionExtra] == VInt(d.version)
    ensures b.extras[ContentIdExtra] == VStr(d.contentId)
    ensures b.extras[ResultExtra] == VStr(Name(d.runContentUnitResult))
    ensures b.extras[ScoreExtra] == VFloat(d.score)
    ensures b.extras[DurationExtra] == VLong(d.foregroundDurationInMs)
    ensures b.extras[AdditionalDataExtra] == NullableString(d.additionalData)
  {
    EmptyIntent.(extras := map[
      VersionExtra := VInt(d.version),
      ContentIdExtra := VStr(d.contentId),
      ResultExtra := VStr(Name(d.runContentUnitResult)),
      ScoreExtra := VFloat(d.score),
      DurationExtra := VLong(d.foregroundDurationInMs),
      AdditionalDataExtra := NullableString(d.additionalData)])
  }

  /** The round trip is exact, for all five outcomes and null additional
      data included, whenever the content id is non-empty; an empty one is
      rejected. */
  lemma RoundTrip(d: LaunchResultData)
    ensures d.contentId != "" ==> FromResultIntent(ToResultIntent(d)) == Ok(d)
    ensures d.contentId == "" ==> FromResultIntent(ToResultIntent(d)).Fail?
  {
  }
}
