/** `LaunchResultData` of the content app lib's `com.eidu.content.result`
    package: like the content app library's, but the outcome is stored
    under `runWuResult` and the additional data is a list of strings. */
module ContentLibLaunchResult {
  import opened Wrappers
  import opened JavaTypes
  import opened Intents
  import opened Envelope

  const Version: Int32 := 1

  const VersionExtra: string := "version"
  const ContentIdExtra: string := "contentId"
  const ResultExtra: string := "runWuResult"
  const ScoreExtra: string := "score"
  const DurationExtra: string := "foregroundDurationInMs"
  const AdditionalDataExtra: string := "additionalData"

  /** The keys `toResultIntent()` writes. */
  const ResultKeys: set<string> :=
    {VersionExtra, ContentIdExtra, ResultExtra, ScoreExtra, DurationExtra, AdditionalDataExtra}

  /** The private list is copied on construction and handed out read-only,
      so a value of this datatype is never shared or mutated. */
  datatype LaunchResultData = LaunchResultData(
    version: Int32,
    contentId: string,
    runWuResult: Outcome,
    score: Float32,
    foregroundDurationInMs: Long,
    additionalData: seq<string>)

  /** `fromPlainData`: the current version and every argument as given. */
  function FromPlainData(contentId: string, outcome: Outcome, score: Float32, duration: Long,
                         additionalData: seq<string>): (d: LaunchResultData)
    ensures d.version == Version && d.contentId == contentId && d.runWuResult == outcome
    ensures d.score == score && d.foregroundDurationInMs == duration && d.additionalData == additionalData
  {
    LaunchResultData(Version, contentId, outcome, score, duration, additionalData)
  }

  /** `getAdditionalData()`: a read-only view with the stored elements in
      order. */
  function GetAdditionalData(d: LaunchResultData): (l: seq<string>)
    ensures |l| == |d.additionalData|
    ensures forall i :: 0 <= i < |l| ==> l[i] == d.additionalData[i]
  {
    d.additionalData
  }

  /** The additional-data read: an absent key is the empty list, a key
      holding a string list is that list, and any other value (null
      included) makes `getStringArrayListExtra` return null, on which the
      copying constructor throws. */
  function ReadAdditionalData(b: Intent): (r: Result<seq<string>>)
    ensures AdditionalDataExtra !in b.extras ==> r == Ok([])
    ensures AdditionalDataExtra in b.extras ==>
              (r.Ok? <==> b.extras[AdditionalDataExtra].VStrList?)
    ensures r.Ok? && AdditionalDataExtra in b.extras ==> r.value == b.extras[AdditionalDataExtra].list
  {
    if !HasExtra(b, AdditionalDataExtra) then Ok([])
    else match GetStringArrayListExtra(b, AdditionalDataExtra)
      case None => Fail
      case Some(l) => Ok(l)
  }

  /** `fromResultIntent`. It fails exactly when the content id is null or
      empty, the outcome key does not hold one of the five names, the score
      or duration key is absent, or the additional-data key is present
      without a string list. */
  function FromResultIntent(b: Intent): (r: Result<LaunchResultData>)
    ensures r.Fail? <==>
              || !HoldsNonEmptyString(b, ContentIdExtra)
              || !HoldsOutcomeName(b, ResultExtra)
              || ScoreExtra !in b.extras
              || DurationExtra !in b.extras
              || ReadAdditionalData(b).Fail?
    ensures r.Ok? ==>
              && r.value.version == ReadVersion(b, Version)
              && VStr(r.value.contentId) == b.extras[ContentIdExtra]
              && Name(r.value.runWuResult) == b.extras[ResultExtra].s
              && Some(r.value.score) == LenientFloat(b, ScoreExtra)
              && Some(r.value.foregroundDurationInMs) == LenientLong(b, DurationExtra)
              && Ok(r.value.additionalData) == ReadAdditionalData(b)
  {
    var version := ReadVersion(b, Version);
    var contentId := GetStringExtra(b, ContentIdExtra);
    var outcome :- ReadOutcome(b, ResultExtra);
    var score := LenientFloat(b, ScoreExtra);
    var duration := LenientLong(b, DurationExtra);
    var additionalData :- ReadAdditionalData(b);
    if !Present(contentId) || outcome.None? || score.None? || duration.None? then Fail
    else Ok(LaunchResultData(version, contentId.value, outcome.value, score.value, duration.value, additionalData))
  }

  /** `toResultIntent()`: exactly the six keys, the outcome by name and the
      additional data as a string list, the empty one included. */
  function ToResultIntent(d: LaunchResultData): (b: Intent)
    ensures b.action.None? && b.component.None? && b.data.None?
    ensures b.extras.Keys == ResultKeys
    ensures b.extras[VersionExtra] == VInt(d.version)
    ensures b.extras[ContentIdExtra] == VStr(d.contentId)
    ensures b.extras[ResultExtra] == VStr(Name(d.runWuResult))
    ensures b.extras[ScoreExtra] == VFloat(d.score)
    ensures b.extras[DurationExtra] == VLong(d.foregroundDurationInMs)
    ensures b.extras[AdditionalDataExtra] == VStrList(d.additionalData)
  {
    EmptyIntent.(extras := map[
      VersionExtra := VInt(d.version),
      ContentIdExtra := VStr(d.contentId),
      ResultExtra := VStr(Name(d.runWuResult)),
      ScoreExtra := VFloat(d.score),
      DurationExtra := VLong(d.foregroundDurationInMs),
      AdditionalDataExtra := VStrList(d.additionalData)])
  }

  /** The round trip is exact, for all five outcomes and every list (empty
      included), whenever the content id is non-empty. */
  lemma RoundTrip(d: LaunchResultData)
    ensures d.contentId != "" ==> FromResultIntent(ToResultIntent(d)) == Ok(d)
    ensures d.contentId == "" ==> FromResultIntent(ToResultIntent(d)).Fail?
  {
  }

  /** A sender that leaves the additional data out is read as having sent
      an empty list; one that stores null there is rejected. */
  lemma MissingOrNullAdditionalData(b: Intent)
    ensures AdditionalDataExtra !in b.extras && FromResultIntent(b).Ok? ==>
              FromResultIntent(b).value.additionalData == []
    ensures AdditionalDataExtra in b.extras && b.extras[AdditionalDataExtra].VNull? ==>
              FromResultIntent(b).Fail?
  {
  }
}
