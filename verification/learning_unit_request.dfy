/** `RunLearningUnitRequest` of the integration library: the request the
    host app sends to launch a learning unit. Five required identifiers,
    two optional timeouts, and an optional asset base URI carried in the
    intent's data slot. */
module LearningUnitRequest {
  import opened Wrappers
  import opened JavaTypes
  import opened Intents
  import opened Envelope

  const Version: Int32 := 1

  const VersionExtra: string := "version"
  const LearningUnitIdExtra: string := "learningUnitId"
  const LearningUnitRunIdExtra: string := "learningUnitRunId"
  const LearnerIdExtra: string := "learnerId"
  const SchoolIdExtra: string := "schoolId"
  const StageExtra: string := "stage"
  const RemainingForegroundTimeExtra: string := "remainingForegroundTimeInMs"
  const InactivityTimeoutExtra: string := "inactivityTimeoutInMs"

  /** The action that marks an intent as a learning unit launch. */
  const ActionLaunchLearningUnit: string := "com.eidu.integration.LAUNCH_LEARNING_UNIT"

  /** The keys `addExtras` writes. */
  const RequestKeys: set<string> :=
    {VersionExtra, LearningUnitIdExtra, LearningUnitRunIdExtra, LearnerIdExtra, SchoolIdExtra,
     StageExtra, RemainingForegroundTimeExtra, InactivityTimeoutExtra}

  /** Structural equality of this datatype is the nine-field `equals`. */
  datatype RunLearningUnitRequest = RunLearningUnitRequest(
    version: Int32,
    learningUnitId: string,
    learningUnitRunId: string,
    learnerId: string,
    schoolId: string,
    stage: string,
    remainingForegroundTimeInMs: Option<Long>,
    inactivityTimeoutInMs: Option<Long>,
    assetsBaseUri: Option<Uri>)

  /** The five identifiers are all non-empty: what `fromIntent` checks. */
  predicate Complete(r: RunLearningUnitRequest) {
    r.learningUnitId != "" && r.learningUnitRunId != "" && r.learnerId != ""
    && r.schoolId != "" && r.stage != ""
  }

  /** `of`: the current version and every argument stored as given; no
      validation, so empty identifiers are kept. */
  function Of(learningUnitId: string, learningUnitRunId: string, learnerId: string, schoolId: string,
              stage: string, remainingForegroundTimeInMs: Option<Long>, inactivityTimeoutInMs: Option<Long>,
              assetsBaseUri: Option<Uri>): (r: RunLearningUnitRequest)
    ensures r.version == Version
    ensures r.learningUnitId == learningUnitId && r.learningUnitRunId == learningUnitRunId
    ensures r.learnerId == learnerId && r.schoolId == schoolId && r.stage == stage
    ensures r.remainingForegroundTimeInMs == remainingForegroundTimeInMs
    ensures r.inactivityTimeoutInMs == inactivityTimeoutInMs
    ensures r.assetsBaseUri == assetsBaseUri
  {
    RunLearningUnitRequest(Version, learningUnitId, learningUnitRunId, learnerId, schoolId, stage,
                           remainingForegroundTimeInMs, inactivityTimeoutInMs, assetsBaseUri)
  }

  /** The private `getLongExtra`: an absent key throws, a null-valued key
      reads as null, a `Long` reads as itself, and any other value throws. */
  function StrictLong(b: Intent, key: string): (r: Result<Option<Long>>)
    ensures key !in b.extras ==> r.Fail?
    ensures key in b.extras && b.extras[key].VNull? ==> r == Ok(None)
    ensures key in b.extras && b.extras[key].VLong? ==> r == Ok(Some(b.extras[key].l))
    ensures key in b.extras && !b.extras[key].VNull? && !b.extras[key].VLong? ==> r.Fail?
  {
    if !HasExtra(b, key) then Fail
    else match b.extras[key]
      case VNull => Ok(None)
      case VLong(l) => Ok(Some(l))
      case _ => Fail
  }

  /** The timeout key is present and holds null or a `Long`. */
  predicate HoldsNullableLong(b: Intent, key: string) {
    key in b.extras && (b.extras[key].VNull? || b.extras[key].VLong?)
  }

  /** The five identifier keys all hold non-empty strings. */
  predicate HoldsIdentifiers(b: Intent) {
    && HoldsNonEmptyString(b, LearningUnitIdExtra)
    && HoldsNonEmptyString(b, LearningUnitRunIdExtra)
    && HoldsNonEmptyString(b, LearnerIdExtra)
    && HoldsNonEmptyString(b, SchoolIdExtra)
    && HoldsNonEmptyString(b, StageExtra)
  }

  /** `fromIntent`. A foreign action gives `Ok(None)` ("not a request to run
      a learning unit", not an error). Otherwise it fails exactly when an
      identifier is null or empty or a timeout key is absent or of the wrong
      type; the version defaults to 1 and the URI comes from the data slot. */
  function FromIntent(b: Intent): (r: Result<Option<RunLearningUnitRequest>>)
    ensures r == Ok(None) <==> b.action != Some(ActionLaunchLearningUnit)
    ensures b.action == Some(ActionLaunchLearningUnit) ==>
              (r.Fail? <==>
                 || !HoldsIdentifiers(b)
                 || !HoldsNullableLong(b, RemainingForegroundTimeExtra)
                 || !HoldsNullableLong(b, InactivityTimeoutExtra))
    ensures r.Ok? && r.value.Some? ==>
              && b.action == Some(ActionLaunchLearningUnit)
              && Complete(r.value.value)
              && r.value.value.version == ReadVersion(b, Version)
              && Some(r.value.value.learningUnitId) == GetStringExtra(b, LearningUnitIdExtra)
              && Some(r.value.value.learningUnitRunId) == GetStringExtra(b, LearningUnitRunIdExtra)
              && Some(r.value.value.learnerId) == GetStringExtra(b, LearnerIdExtra)
              && Some(r.value.value.schoolId) == GetStringExtra(b, SchoolIdExtra)
              && Some(r.value.value.stage) == GetStringExtra(b, StageExtra)
              && Ok(r.value.value.remainingForegroundTimeInMs) == StrictLong(b, RemainingForegroundTimeExtra)
              && Ok(r.value.value.inactivityTimeoutInMs) == StrictLong(b, InactivityTimeoutExtra)
              && r.value.value.assetsBaseUri == b.data
  {
    if b.action != Some(ActionLaunchLearningUnit) then Ok(None)
    else
      var version := ReadVersion(b, Version);
      var learningUnitId := GetStringExtra(b, LearningUnitIdExtra);
      var learningUnitRunId := GetStringExtra(b, LearningUnitRunIdExtra);
      var learnerId := GetStringExtra(b, LearnerIdExtra);
      var schoolId := GetStringExtra(b, SchoolIdExtra);
      var stage := GetStringExtra(b, StageExtra);
      var remaining :- StrictLong(b, RemainingForegroundTimeExtra);
      var inactivity :- StrictLong(b, InactivityTimeoutExtra);
      if !(Present(learningUnitId) && Present(learningUnitRunId) && Present(learnerId)
           && Present(schoolId) && Present(stage)) then Fail
      else Ok(Some(RunLearningUnitRequest(version, learningUnitId.value, learningUnitRunId.value,
                                          learnerId.value, schoolId.value, stage.value,
                                          remaining, inactivity, b.data)))
  }

  /** `addExtras`: the version, the five identifiers and both timeout keys,
      a null timeout as a null-valued key. Nothing else changes. */
  function AddExtras(r: RunLearningUnitRequest, b: Intent): (b': Intent)
    ensures b'.action == b.action && b'.component == b.component && b'.data == b.data
    ensures b'.extras.Keys == b.extras.Keys + RequestKeys
    ensures forall k :: k in b.extras && k !in RequestKeys ==> b'.extras[k] == b.extras[k]
    ensures b'.extras[VersionExtra] == VInt(r.version)
    ensures b'.extras[LearningUnitIdExtra] == VStr(r.learningUnitId)
    ensures b'.extras[LearningUnitRunIdExtra] == VStr(r.learningUnitRunId)
    ensures b'.extras[LearnerIdExtra] == VStr(r.learnerId)
    ensures b'.extras[SchoolIdExtra] == VStr(r.schoolId)
    ensures b'.extras[StageExtra] == VStr(r.stage)
    ensures b'.extras[RemainingForegroundTimeExtra] == BoxedLong(r.remainingForegroundTimeInMs)
    ensures b'.extras[InactivityTimeoutExtra] == BoxedLong(r.inactivityTimeoutInMs)
  {
    b.(extras := b.extras[
      VersionExtra := VInt(r.version)][
      LearningUnitIdExtra := VStr(r.learningUnitId)][
      LearningUnitRunIdExtra := VStr(r.learningUnitRunId)][
      LearnerIdExtra := VStr(r.learnerId)][
      SchoolIdExtra := VStr(r.schoolId)][
      StageExtra := VStr(r.stage)][
      RemainingForegroundTimeExtra := BoxedLong(r.remainingForegroundTimeInMs)][
      InactivityTimeoutExtra := BoxedLong(r.inactivityTimeoutInMs)])
  }

  /** `toIntent(packageName, className)`: the launch action, the explicit
      component, the asset base URI as data, and the extras. */
  function ToIntent(r: RunLearningUnitRequest, packageName: string, className: string): (b: Intent)
    ensures b.action == Some(ActionLaunchLearningUnit)
    ensures b.component == Some(Component(packageName, className))
    ensures b.data == r.assetsBaseUri
    ensures b.extras == AddExtras(r, EmptyIntent).extras
  {
    var intent := NewIntent(ActionLaunchLearningUnit).(component := Some(Component(packageName, className)),
                                                        data := r.assetsBaseUri);
    AddExtras(r, intent)
  }

  /** Decoding the encoded request gives it back exactly, null timeouts and
      null URI included, whenever the identifiers are non-empty; with an
      empty identifier decoding fails. */
  lemma RoundTrip(r: RunLearningUnitRequest, packageName: string, className: string)
    ensures Complete(r) ==> FromIntent(ToIntent(r, packageName, className)) == Ok(Some(r))
    ensures !Complete(r) ==> FromIntent(ToIntent(r, packageName, className)).Fail?
  {
  }

  /** `getAssetAsUri(path)`: fails when there is no asset base URI,
      otherwise appends `path` to it as one trailing segment. */
  function GetAssetAsUri(r: RunLearningUnitRequest, path: string): (u: Result<Uri>)
    ensures u.Fail? <==> r.assetsBaseUri.None?
    ensures u.Ok? ==> u.value.segments == r.assetsBaseUri.value.segments + [path]
    ensures u.Ok? ==> u.value.scheme == r.assetsBaseUri.value.scheme
                      && u.value.authority == r.assetsBaseUri.value.authority
                      && u.value.query == r.assetsBaseUri.value.query
  {
    match r.assetsBaseUri
    case None => Fail
    case Some(base) => Ok(AppendPath(base, path))
  }

  /** The base URI survives the intent, so the asset URI computed on the
      receiving side is the one the sender would compute. */
  lemma AssetUriSurvivesIntent(r: RunLearningUnitRequest, packageName: string, className: string, path: string)
    requires Complete(r)
    ensures FromIntent(ToIntent(r, packageName, className)).Ok?
    ensures FromIntent(ToIntent(r, packageName, className)).value.Some?
    ensures GetAssetAsUri(FromIntent(ToIntent(r, packageName, className)).value.value, path)
            == GetAssetAsUri(r, path)
  {
  }
}
