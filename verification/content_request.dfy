/** The content app library's `com.eidu.integration.RunLearningUnitRequest`:
    the launch request as the content app receives it. Five required
    identifiers and two optional timeouts; no action check on decoding and
    no asset URI. */
module ContentAppRequest {
  import opened Wrappers
  import opened JavaTypes
  import opened Intents
  import opened Envelope

  const Version: Int32 := 1

  const VersionExtra: string := "version"
  const ContentIdExtra: string := "contentId"
  const ContentUnitRunIdExtra: string := "contentUnitRunId"
  const LearnerIdExtra: string := "learnerId"
  const SchoolIdExtra: string := "schoolId"
  const StageExtra: string := "stage"
  const RemainingForegroundTimeExtra: string := "remainingForegroundTimeInMs"
  const InactivityTimeoutExtra: string := "inactivityTimeoutInMs"

  /** The action of the explicit launch intent. */
  const ActionLaunchContent: string := "com.eidu.integration.LAUNCH_CONTENT"

  /** The keys written unconditionally: the version and the identifiers. */
  const IdentifierKeys: set<string> :=
    {VersionExtra, ContentIdExtra, ContentUnitRunIdExtra, LearnerIdExtra, SchoolIdExtra, StageExtra}

  /** The keys `addExtras` writes. */
  const RequestKeys: set<string> := IdentifierKeys + {RemainingForegroundTimeExtra, InactivityTimeoutExtra}

  /** Structural equality of this datatype is the eight-field `equals`. */
  datatype RunLearningUnitRequest = RunLearningUnitRequest(
    version: Int32,
    contentId: string,
    contentUnitRunId: string,
    learnerId: string,
    schoolId: string,
    stage: string,
    remainingForegroundTimeInMs: Option<Long>,
    inactivityTimeoutInMs: Option<Long>)

  /** The five identifiers are all non-empty: what `fromIntent` checks. */
  predicate Complete(r: RunLearningUnitRequest) {
    r.contentId != "" && r.contentUnitRunId != "" && r.learnerId != "" && r.schoolId != "" && r.stage != ""
  }

  /** `of`: the current version and every argument as given, unvalidated. */
  function Of(contentId: string, contentUnitRunId: string, learnerId: string, schoolId: string, stage: string,
              remainingForegroundTimeInMs: Option<Long>, inactivityTimeoutInMs: Option<Long>)
    : (r: RunLearningUnitRequest)
    ensures r.version == Version
    ensures r.contentId == contentId && r.contentUnitRunId == contentUnitRunId
    ensures r.learnerId == learnerId && r.schoolId == schoolId && r.stage == stage
    ensures r.remainingForegroundTimeInMs == remainingForegroundTimeInMs
    ensures r.inactivityTimeoutInMs == inactivityTimeoutInMs
  {
    RunLearningUnitRequest(Version, contentId, contentUnitRunId, learnerId, schoolId, stage,
                           remainingForegroundTimeInMs, inactivityTimeoutInMs)
  }

  /** The five identifier keys all hold non-empty strings. */
  predicate HoldsIdentifiers(b: Intent) {
    && HoldsNonEmptyString(b, ContentIdExtra)
    && HoldsNonEmptyString(b, ContentUnitRunIdExtra)
    && HoldsNonEmptyString(b, LearnerIdExtra)
    && HoldsNonEmptyString(b, SchoolIdExtra)
    && HoldsNonEmptyString(b, StageExtra)
  }

  /** `fromIntent`: whatever the action, it fails exactly when an identifier
      is null or empty; the timeouts are read leniently, so an absent key is
      null and any present key is a number. */
  function FromIntent(b: Intent): (r: Result<RunLearningUnitRequest>)
    ensures r.Fail? <==> !HoldsIdentifiers(b)
    ensures r.Ok? ==>
              && Complete(r.value)
              && r.value.version == ReadVersion(b, Version)
              && Some(r.value.contentId) == GetStringExtra(b, ContentIdExtra)
              && Some(r.value.contentUnitRunId) == GetStringExtra(b, ContentUnitRunIdExtra)
              && Some(r.value.learnerId) == GetStringExtra(b, LearnerIdExtra)
              && Some(r.value.schoolId) == GetStringExtra(b, SchoolIdExtra)
              && Some(r.value.stage) == GetStringExtra(b, StageExtra)
              && r.value.remainingForegroundTimeInMs == LenientLong(b, RemainingForegroundTimeExtra)
              && r.value.inactivityTimeoutInMs == LenientLong(b, InactivityTimeoutExtra)
  {
    var version := ReadVersion(b, Version);
    var contentId := GetStringExtra(b, ContentIdExtra);
    var contentUnitRunId := GetStringExtra(b, ContentUnitRunIdExtra);
    var learnerId := GetStringExtra(b, LearnerIdExtra);
    var schoolId := GetStringExtra(b, SchoolIdExtra);
    var stage := GetStringExtra(b, StageExtra);
    var remaining := LenientLong(b, RemainingForegroundTimeExtra);
    var inactivity := LenientLong(b, InactivityTimeoutExtra);
    if !(Present(contentId) && Present(contentUnitRunId) && Present(learnerId)
         && Present(schoolId) && Present(stage)) then Fail
    else Ok(RunLearningUnitRequest(version, contentId.value, contentUnitRunId.value, learnerId.value,
                                   schoolId.value, stage.value, remaining, inactivity))
  }

  /** The version and the five identifiers, written into `b`. */
  function AddIdentifiers(r: RunLearningUnitRequest, b: Intent): (b': Intent)
    ensures b'.action == b.action && b'.component == b.component && b'.data == b.data
    ensures b'.extras.Keys == b.extras.Keys + IdentifierKeys
    ensures forall k :: k in b.extras && k !in IdentifierKeys ==> b'.extras[k] == b.extras[k]
    ensures b'.extras[VersionExtra] == VInt(r.version)
    ensures b'.extras[ContentIdExtra] == VStr(r.contentId)
    ensures b'.extras[ContentUnitRunIdExtra] == VStr(r.contentUnitRunId)
    ensures b'.extras[LearnerIdExtra] == VStr(r.learnerId)
    ensures b'.extras[SchoolIdExtra] == VStr(r.schoolId)
    ensures b'.extras[StageExtra] == VStr(r.stage)
  {
    b.(extras := b.extras[
      VersionExtra := VInt(r.version)][
      ContentIdExtra := VStr(r.contentId)][
      ContentUnitRunIdExtra := VStr(r.contentUnitRunId)][
      LearnerIdExtra := VStr(r.learnerId)][
      SchoolIdExtra := VStr(r.schoolId)][
      StageExtra := VStr(r.stage)])
  }

  /** `addExtras`: the identifiers and both timeout keys, a null timeout
      stored as a null-valued key. */
  function AddExtras(r: RunLearningUnitRequest, b: Intent): (b': Intent)
    ensures b'.action == b.action && b'.component == b.component && b'.data == b.data
    ensures b'.extras.Keys == b.extras.Keys + RequestKeys
    ensures forall k :: k in b.extras && k !in RequestKeys ==> b'.extras[k] == b.extras[k]
    ensures forall k :: k in IdentifierKeys ==> b'.extras[k] == AddIdentifiers(r, b).extras[k]
    ensures b'.extras[RemainingForegroundTimeExtra] == BoxedLong(r.remainingForegroundTimeInMs)
    ensures b'.extras[InactivityTimeoutExtra] == BoxedLong(r.inactivityTimeoutInMs)
  {
    var withIds := AddIdentifiers(r, b);
    withIds.(extras := withIds.extras[
      RemainingForegroundTimeExtra := BoxedLong(r.remainingForegroundTimeInMs)][
      InactivityTimeoutExtra := BoxedLong(r.inactivityTimeoutInMs)])
  }

  /** `toIntent(contentAppLaunchAction)`: an implicit intent with the given
      action. */
  function ToIntent(r: RunLearningUnitRequest, action: string): (b: Intent)
    ensures b.action == Some(action) && b.component.None? && b.data.None?
    ensures b.extras == AddExtras(r, EmptyIntent).extras
  {
    AddExtras(r, NewIntent(action))
  }

  /** `toIntent(packageName, className)`: an explicit intent with the
      library's launch action. */
  function ToIntentExplicit(r: RunLearningUnitRequest, packageName: string, className: string): (b: Intent)
    ensures b.action == Some(ActionLaunchContent)
    ensures b.component == Some(Component(packageName, className)) && b.data.None?
    ensures b.extras == AddExtras(r, EmptyIntent).extras
  {
    AddExtras(r, NewIntent(ActionLaunchContent).(component := Some(Component(packageName, className))))
  }

  /** As written, the round trip turns a null timeout into `0`: `addExtras`
      stores the null under its key, and `fromIntent` reads any present key
      with `getLongExtra(…, 0)`. Set timeouts come back unchanged. A request
      with a missing identifier does not come back at all. */
  lemma RoundTrip(r: RunLearningUnitRequest, action: string)
    ensures Complete(r) ==>
              FromIntent(ToIntent(r, action))
              == Ok(r.(remainingForegroundTimeInMs := Some(r.remainingForegroundTimeInMs.GetOr(0)),
                       inactivityTimeoutInMs := Some(r.inactivityTimeoutInMs.GetOr(0))))
    ensures Complete(r) && r.remainingForegroundTimeInMs.Some? && r.inactivityTimeoutInMs.Some? ==>
              FromIntent(ToIntent(r, action)) == Ok(r)
    ensures !Complete(r) ==> FromIntent(ToIntent(r, action)).Fail?
  {
  }

  /** The explicit intent decodes exactly as the implicit one: decoding
      never looks at the action or the component. */
  lemma ExplicitRoundTrip(r: RunLearningUnitRequest, packageName: string, className: string)
    ensures FromIntent(ToIntentExplicit(r, packageName, className))
            == FromIntent(ToIntent(r, ActionLaunchContent))
    ensures Complete(r) ==>
              FromIntent(ToIntentExplicit(r, packageName, className))
              == Ok(r.(remainingForegroundTimeInMs := Some(r.remainingForegroundTimeInMs.GetOr(0)),
                       inactivityTimeoutInMs := Some(r.inactivityTimeoutInMs.GetOr(0))))
  {
  }

  /** A concrete request whose "no time limit" does not survive: it comes
      back with a limit of 0 ms. */
  lemma NullTimeoutsComeBackAsZero()
    ensures var r := Of("unit", "run", "learner", "school", "stage", None, None);
            && FromIntent(ToIntent(r, ActionLaunchContent)).Ok?
            && FromIntent(ToIntent(r, ActionLaunchContent)).value.remainingForegroundTimeInMs == Some(0)
            && FromIntent(ToIntent(r, ActionLaunchContent)).value.inactivityTimeoutInMs == Some(0)
            && FromIntent(ToIntent(r, ActionLaunchContent)) != Ok(r)
  {
  }

  /** `addExtras` corrected to leave a null timeout's key out, as the
      content app library's own `LaunchData.toLaunchIntent` does. */
  function AddExtrasOmittingNullTimeouts(r: RunLearningUnitRequest, b: Intent): (b': Intent)
    ensures b'.action == b.action && b'.component == b.component && b'.data == b.data
    ensures RemainingForegroundTimeExtra !in b.extras ==>
              (RemainingForegroundTimeExtra in b'.extras <==> r.remainingForegroundTimeInMs.Some?)
    ensures InactivityTimeoutExtra !in b.extras ==>
              (InactivityTimeoutExtra in b'.extras <==> r.inactivityTimeoutInMs.Some?)
    ensures IdentifierKeys <= b'.extras.Keys
    ensures forall k :: k in IdentifierKeys ==> b'.extras[k] == AddIdentifiers(r, b).extras[k]
    ensures b'.extras.Keys == b.extras.Keys + IdentifierKeys
                              + (if r.remainingForegroundTimeInMs.Some? then {RemainingForegroundTimeExtra} else {})
                              + (if r.inactivityTimeoutInMs.Some? then {InactivityTimeoutExtra} else {})
    ensures r.remainingForegroundTimeInMs.Some? ==>
              b'.extras[RemainingForegroundTimeExtra] == VLong(r.remainingForegroundTimeInMs.value)
    ensures r.inactivityTimeoutInMs.Some? ==>
              b'.extras[InactivityTimeoutExtra] == VLong(r.inactivityTimeoutInMs.value)
    ensures forall k :: k in b.extras && k !in RequestKeys ==> b'.extras[k] == b.extras[k]
  {
    var withIds := AddIdentifiers(r, b);
    var withRemaining := PutLongIfSet(withIds, RemainingForegroundTimeExtra, r.remainingForegroundTimeInMs);
    assert forall k :: k in b.extras && k !in RequestKeys ==> withRemaining.extras[k] == b.extras[k];
    PutLongIfSet(withRemaining, InactivityTimeoutExtra, r.inactivityTimeoutInMs)
  }

  /** With the corrected writer every complete request round-trips, null
      timeouts included. */
  lemma RoundTripOmittingNullTimeouts(r: RunLearningUnitRequest, action: string)
    requires Complete(r)
    ensures FromIntent(AddExtrasOmittingNullTimeouts(r, NewIntent(action))) == Ok(r)
  {
  }
}
