/** `LaunchData`, the launch envelope of the `com.eidu.content.launch`
    package. Both content libraries declare it with the same fields and the
    same writer; they differ in the key of the run id and in one line of the
    reader. */
module LaunchData {
  import opened Wrappers
  import opened JavaTypes
  import opened Intents
  import opened Envelope

  const Version: Int32 := 1

  const VersionExtra: string := "version"
  const ContentIdExtra: string := "contentId"
  const LearnerIdExtra: string := "learnerId"
  const SchoolIdExtra: string := "schoolId"
  const EnvironmentExtra: string := "environment"
  const RemainingForegroundTimeExtra: string := "remainingForegroundTimeInMs"
  const InactivityTimeoutExtra: string := "inactivityTimeoutInMs"

  /** The two libraries that declare the class. */
  datatype Library = ContentAppLibrary | ContentAppLib

  /** The key of the run id: `contentUnitRunId` in the content app library,
      `workUnitRunId` in the content app lib. */
  function RunIdExtra(l: Library): string {
    match l
    case ContentAppLibrary => "contentUnitRunId"
    case ContentAppLib => "workUnitRunId"
  }

  /** The keys written unconditionally. */
  function IdentifierKeys(l: Library): set<string> {
    {VersionExtra, ContentIdExtra, RunIdExtra(l), LearnerIdExtra, SchoolIdExtra, EnvironmentExtra}
  }

  /** The getters of the class are the fields of this datatype. */
  datatype LaunchData = LaunchData(
    version: Int32,
    contentId: string,
    runId: string,
    learnerId: string,
    schoolId: string,
    environment: string,
    remainingForegroundTimeInMs: Option<Long>,
    inactivityTimeoutInMs: Option<Long>)

  /** The five identifiers are all non-empty: what `fromLaunchIntent` checks. */
  predicate Complete(d: LaunchData) {
    d.contentId != "" && d.runId != "" && d.learnerId != "" && d.schoolId != "" && d.environment != ""
  }

  /** `fromPlainData`: the current version and every argument as given. */
  function FromPlainData(contentId: string, runId: string, learnerId: string, schoolId: string,
                         environment: string, remainingForegroundTimeInMs: Option<Long>,
                         inactivityTimeoutInMs: Option<Long>): (d: LaunchData)
    ensures d.version == Version
    ensures d.contentId == contentId && d.runId == runId && d.learnerId == learnerId
    ensures d.schoolId == schoolId && d.environment == environment
    ensures d.remainingForegroundTimeInMs == remainingForegroundTimeInMs
    ensures d.inactivityTimeoutInMs == inactivityTimeoutInMs
  {
    LaunchData(Version, contentId, runId, learnerId, schoolId, environment,
               remainingForegroundTimeInMs, inactivityTimeoutInMs)
  }

  /** The five identifier keys all hold non-empty strings. */
  predicate HoldsIdentifiers(l: Library, b: Intent) {
    && HoldsNonEmptyString(b, ContentIdExtra)
    && HoldsNonEmptyString(b, RunIdExtra(l))
    && HoldsNonEmptyString(b, LearnerIdExtra)
    && HoldsNonEmptyString(b, SchoolIdExtra)
    && HoldsNonEmptyString(b, EnvironmentExtra)
  }

  /** The identifiers and version as read, with the two timeouts supplied. */
  function ReadWith(l: Library, b: Intent, remaining: Option<Long>, inactivity: Option<Long>)
    : (r: Result<LaunchData>)
    ensures r.Fail? <==> !HoldsIdentifiers(l, b)
    ensures r.Ok? ==>
              && Complete(r.value)
              && r.value.version == ReadVersion(b, Version)
              && Some(r.value.contentId) == GetStringExtra(b, ContentIdExtra)
              && Some(r.value.runId) == GetStringExtra(b, RunIdExtra(l))
              && Some(r.value.learnerId) == GetStringExtra(b, LearnerIdExtra)
              && Some(r.value.schoolId) == GetStringExtra(b, SchoolIdExtra)
              && Some(r.value.environment) == GetStringExtra(b, EnvironmentExtra)
              && r.value.remainingForegroundTimeInMs == remaining
              && r.value.inactivityTimeoutInMs == inactivity
  {
    var version := ReadVersion(b, Version);
    var contentId := GetStringExtra(b, ContentIdExtra);
    var runId := GetStringExtra(b, RunIdExtra(l));
    var learnerId := GetStringExtra(b, LearnerIdExtra);
    var schoolId := GetStringExtra(b, SchoolIdExtra);
    var environment := GetStringExtra(b, EnvironmentExtra);
    if !(Present(contentId) && Present(runId) && Present(learnerId) && Present(schoolId) && Present(environment))
    then Fail
    else Ok(LaunchData(version, contentId.value, runId.value, learnerId.value, schoolId.value,
                       environment.value, remaining, inactivity))
  }

  /** `fromLaunchIntent` of the content app library, and the evidently
      intended reader of the content app lib: each timeout read leniently
      from its own key. Fails exactly when an identifier is null or empty. */
  function FromLaunchIntent(l: Library, b: Intent): (r: Result<LaunchData>)
    ensures r.Fail? <==> !HoldsIdentifiers(l, b)
    ensures r.Ok? ==>
              && Complete(r.value)
              && r.value.remainingForegroundTimeInMs == LenientLong(b, RemainingForegroundTimeExtra)
              && r.value.inactivityTimeoutInMs == LenientLong(b, InactivityTimeoutExtra)
              && r.value.version == ReadVersion(b, Version)
              && Some(r.value.contentId) == GetStringExtra(b, ContentIdExtra)
              && Some(r.value.runId) == GetStringExtra(b, RunIdExtra(l))
              && Some(r.value.learnerId) == GetStringExtra(b, LearnerIdExtra)
              && Some(r.value.schoolId) == GetStringExtra(b, SchoolIdExtra)
              && Some(r.value.environment) == GetStringExtra(b, EnvironmentExtra)
  {
    ReadWith(l, b, LenientLong(b, RemainingForegroundTimeExtra), LenientLong(b, InactivityTimeoutExtra))
  }

  /** `fromLaunchIntent` of the content app lib as written: the inactivity
      timeout is assigned to the remaining-time variable, so the inactivity
      timeout is always null and, when its key is present, its value
      replaces the remaining time. */
  function FromLaunchIntentAsWritten(b: Intent): (r: Result<LaunchData>)
    ensures r.Fail? <==> !HoldsIdentifiers(ContentAppLib, b)
    ensures r.Ok? ==> r.value.inactivityTimeoutInMs.None?
    ensures r.Ok? && InactivityTimeoutExtra in b.extras ==>
              r.value.remainingForegroundTimeInMs == LenientLong(b, InactivityTimeoutExtra)
    ensures r.Ok? && InactivityTimeoutExtra !in b.extras ==>
              r.value.remainingForegroundTimeInMs == LenientLong(b, RemainingForegroundTimeExtra)
  {
    var remaining := LenientLong(b, RemainingForegroundTimeExtra);
    var inactivity: Option<Long> := None;
    var remaining' := if HasExtra(b, InactivityTimeoutExtra) then Some(GetLongExtra(b, InactivityTimeoutExtra, 0))
                      else remaining;
    ReadWith(ContentAppLib, b, remaining', inactivity)
  }

  /** The version and identifier extras `toLaunchIntent` always writes. */
  function IdentifierExtras(l: Library, d: LaunchData): (m: map<string, Value>)
    ensures m.Keys == IdentifierKeys(l)
    ensures m[VersionExtra] == VInt(d.version)
    ensures m[ContentIdExtra] == VStr(d.contentId)
    ensures m[RunIdExtra(l)] == VStr(d.runId)
    ensures m[LearnerIdExtra] == VStr(d.learnerId)
    ensures m[SchoolIdExtra] == VStr(d.schoolId)
    ensures m[EnvironmentExtra] == VStr(d.environment)
  {
    var common := map[
      VersionExtra := VInt(d.version),
      ContentIdExtra := VStr(d.contentId),
      LearnerIdExtra := VStr(d.learnerId),
      SchoolIdExtra := VStr(d.schoolId),
      EnvironmentExtra := VStr(d.environment)];
    assert RunIdExtra(l) !in common;
    common[RunIdExtra(l) := VStr(d.runId)]
  }

  /** `toLaunchIntent(action)`: the version and identifiers always, each
      timeout only when it is set. */
  function ToLaunchIntent(l: Library, d: LaunchData, action: string): (b: Intent)
    ensures b.action == Some(action) && b.component.None? && b.data.None?
    ensures b.extras.Keys == IdentifierKeys(l)
                             + (if d.remainingForegroundTimeInMs.Some? then {RemainingForegroundTimeExtra} else {})
                             + (if d.inactivityTimeoutInMs.Some? then {InactivityTimeoutExtra} else {})
    ensures forall k :: k in IdentifierKeys(l) ==> b.extras[k] == IdentifierExtras(l, d)[k]
    ensures d.remainingForegroundTimeInMs.Some? ==>
              b.extras[RemainingForegroundTimeExtra] == VLong(d.remainingForegroundTimeInMs.value)
    ensures d.inactivityTimeoutInMs.Some? ==>
              b.extras[InactivityTimeoutExtra] == VLong(d.inactivityTimeoutInMs.value)
  {
    var withIds := NewIntent(action).(extras := IdentifierExtras(l, d));
    PutLongIfSet(PutLongIfSet(withIds, RemainingForegroundTimeExtra, d.remainingForegroundTimeInMs),
                 InactivityTimeoutExtra, d.inactivityTimeoutInMs)
  }

  /** The timeouts read back leniently from a written intent are the
      written ones, null included, because a null is not written at all. */
  lemma TimeoutsReadBack(l: Library, d: LaunchData, action: string)
    ensures LenientLong(ToLaunchIntent(l, d, action), RemainingForegroundTimeExtra) == d.remainingForegroundTimeInMs
    ensures LenientLong(ToLaunchIntent(l, d, action), InactivityTimeoutExtra) == d.inactivityTimeoutInMs
  {
  }

  /** Reading a written intent with the correct reader gives the data back
      exactly, null timeouts included, whenever the identifiers are
      non-empty, in either library; an empty identifier is rejected. */
  lemma RoundTrip(l: Library, d: LaunchData, action: string)
    ensures Complete(d) ==> FromLaunchIntent(l, ToLaunchIntent(l, d, action)) == Ok(d)
    ensures !Complete(d) ==> FromLaunchIntent(l, ToLaunchIntent(l, d, action)).Fail?
  {
  }

  /** The content app lib's reader as written loses the inactivity timeout
      on every round trip and, when one was set, reports it as the
      remaining time. It agrees with the correct reader exactly when no
      inactivity timeout was set. */
  lemma AsWrittenRoundTrip(d: LaunchData, action: string)
    requires Complete(d)
    ensures FromLaunchIntentAsWritten(ToLaunchIntent(ContentAppLib, d, action))
            == Ok(d.(remainingForegroundTimeInMs :=
                       if d.inactivityTimeoutInMs.Some? then d.inactivityTimeoutInMs else d.remainingForegroundTimeInMs,
                     inactivityTimeoutInMs := None))
    ensures FromLaunchIntentAsWritten(ToLaunchIntent(ContentAppLib, d, action)) == Ok(d)
            <==> d.inactivityTimeoutInMs.None?
  {
  }

  /** A concrete witness: a launch with a 60 s time budget and a 10 s
      inactivity timeout is read back as a 10 s time budget and no
      inactivity timeout. */
  lemma InactivityTimeoutOverwritesRemainingTime()
    ensures var d := FromPlainData("unit", "run", "learner", "school", "environment", Some(60000), Some(10000));
            FromLaunchIntentAsWritten(ToLaunchIntent(ContentAppLib, d, "launch"))
            == Ok(d.(remainingForegroundTimeInMs := Some(10000), inactivityTimeoutInMs := None))
  {
  }
}
