# EIDU integration codecs in Dafny

The EIDU libraries let the EIDU app and learning or content apps exchange
launch requests and run results. The exchange goes through the key-value
extras of an Android `Intent`. Every message class is an immutable value
object with three parts:

- factories (`of*`, `fromPlainData`);
- an encoder (`toIntent`, `toLaunchIntent`, `toResultIntent`);
- a decoder (`fromIntent`, `fromLaunchIntent`, `fromResultIntent`, `fromQueryIntent`) that rejects incomplete data.

This project models those codecs as pure Dafny functions. It proves what
they promise, and proves the round trips that tie each encoder to its
decoder. It covers three libraries:

- **integration-library.** `RunLearningUnitResult` is envelope version 2. It has an optional score and a list of `ResultItem`s carried as JSON text. `RunLearningUnitRequest` has an action check, strict timeout reads and an asset base URI.
- **content-app-library.** It has the older `RunLearningUnitRequest` and `RunLearningUnitResult`. `RunContentUnitResult` is the same code as that `RunLearningUnitResult`, so both are modelled once. It also has `LaunchData`, `LaunchResultData`, `QueryResultData` and `QueryContentProvider`.
- **content-app-lib.** It has its own `LaunchData`, `LaunchResultData`, `QueryResultData` and `QueryContentProvider`.

## Layout

| file | module | what it holds |
|---|---|---|
| `wrappers.dfy` | `Wrappers` | `Option`, and `Result` (`Ok` or `Fail`; a thrown exception is `Fail`) |
| `java_types.dfy` | `JavaTypes` | `int` and `long` as bounded subset types; `float` as an opaque 32-bit pattern |
| `intents.dfy` | `Intents` | the `Intent`: action, component, data URI, and an extras map; the Bundle accessors; `Uri.appendPath` |
| `envelope.dfy` | `Envelope` | the shared outcome enum and `nullableValueOf`; required-string and version rules; the lenient optional reads |
| `json.dfy` | `Json` | JSON as a value tree; org.json passed in as a record of functions with its laws |
| `result_item.dfy` | `ResultItems` | the `ResultItem` JSON object codec and the item-array codec |
| `learning_unit_result.dfy` | `LearningUnitResult` | the integration library's result |
| `learning_unit_request.dfy` | `LearningUnitRequest` | the integration library's request and `getAssetAsUri` |
| `content_unit_result.dfy` | `ContentUnitResult` | the content app library's two identical result classes |
| `content_request.dfy` | `ContentAppRequest` | the content app library's request |
| `launch_data.dfy` | `LaunchData` | `LaunchData` of both content libraries, with the content app lib's reader as written |
| `content_app_launch_result.dfy` | `ContentAppLaunchResult` | the content app library's `LaunchResultData` |
| `content_lib_launch_result.dfy` | `ContentLibLaunchResult` | the content app lib's `LaunchResultData` |
| `query_result.dfy` | `QueryResult` | `QueryResultData` of both content libraries |
| `query_provider.dfy` | `QueryProvider` | `QueryContentProvider.getContentIds` over an abstract cursor |

## The Android semantics assumed

The code relies on `Intent` and `Bundle` behaviour that is not part of the
repository. Here it is written down as definitions in `Intents`:

- `hasExtra(k)` holds when `k` is a key, even when its value is null.
- `getStringExtra` and `getStringArrayListExtra` return null in three cases: the key is absent, it holds null, or it holds another type.
- `getIntExtra`, `getLongExtra` and `getFloatExtra` return their default in the same three cases.
- `putExtra` with a null `String`, a null boxed `Long` or a null boxed `Float` stores a null value under the key.
- A later put replaces an earlier one.

`Enum.valueOf(null)` throws a `NullPointerException`, which
`nullableValueOf` does not catch. A missing outcome key therefore makes
decoding fail, and does not yield null.

org.json is library code the item codec calls but does not define. It is
passed in as a `Json.JsonLib` value. `Json.Lawful` states the only facts
used about it:

- parsing printed JSON gives the tree back. This is an abstraction, not a
  fact about org.json: a float whose value is a whole number is printed
  without a fraction (`1.0f` as `1`) and parses back as an integer. For a
  finite score other than negative zero, `(float) optDouble` in `fromJson`
  restores the same float, so the law describes the printer, parser and
  coercion together. Negative zero is the exception: `-0.0f` prints as
  `0` and comes back as `0.0f`, a different `Float` (see
  `ResultItems.JsonRoundTrip` under "Left out");
- the text `null` parses as JSON null;
- each `opt*` coercion returns a value of its own type unchanged.

## Model

| member | source | states |
|---|---|---|
| `Envelope.ValueOf` | integration-library/src/main/java/com/eidu/integration/RunLearningUnitResult.java:370-376 | a non-null string decodes to an outcome exactly when it is one of the five names, and then to the constant of that name; any other string decodes to null |
| `Envelope.NullableValueOf` | content-app-library/src/main/java/com/eidu/integration/RunLearningUnitResult.java:321-327 | a null name fails (the uncaught `NullPointerException` of `valueOf(null)`); a non-null one never fails |
| `Envelope.ValueOfName` | content-app-library/src/main/java/com/eidu/content/integration/RunContentUnitResult.java:168-183 | `name()` and `nullableValueOf` are inverse: a constant's name decodes to it, and only its name does |
| `Envelope.NameInjective` | content-app-library/src/main/java/com/eidu/content/result/LaunchResultData.java:112-126 | the five constant names are pairwise distinct |
| `Envelope.ReadOutcome` | content-app-lib/src/main/java/com/eidu/content/result/LaunchResultData.java:53 | reading an outcome by name fails exactly when the key holds no string, and yields a constant exactly when it holds one of the five names |
| `Envelope.ReadOutcomeOfName` | integration-library/src/main/java/com/eidu/integration/RunLearningUnitResult.java:255-257 | an outcome written by name reads back as that outcome |
| `Envelope.PresentIffNonEmptyString` | content-app-library/src/main/java/com/eidu/integration/RunLearningUnitRequest.java:158-165 | a required string passes the null-or-empty check exactly when its key holds a non-empty string |
| `Envelope.ReadVersion` | integration-library/src/main/java/com/eidu/integration/RunLearningUnitResult.java:254 | a stored `int` version is kept; an absent or mistyped one reads as the codec's current version |
| `Envelope.LenientLong` | content-app-library/src/main/java/com/eidu/content/launch/LaunchData.java:100-107 | an absent key reads as null; a present `long` reads as itself; any other present value, null included, reads as 0 |
| `Envelope.LenientFloat` | integration-library/src/main/java/com/eidu/integration/RunLearningUnitResult.java:258 | the same lenient read for a `float` score, with default 0.0f |
| `Envelope.LenientLongOfBoxed` | content-app-library/src/main/java/com/eidu/integration/RunLearningUnitRequest.java:149-156 | a stored boxed `Long` reads back as itself, and a stored null reads back as 0 |
| `Intents.PutLongIfSet` | content-app-library/src/main/java/com/eidu/content/launch/LaunchData.java:151-156 | a timeout key is written only for a set value; a null leaves the intent unchanged |
| `Intents.AppendPath` | integration-library/src/main/java/com/eidu/integration/RunLearningUnitRequest.java:281 | appending a non-empty path adds exactly one trailing segment and keeps scheme, authority, earlier segments and query (an empty path: see Left out) |
| `Json.PrintedArrayIsNotNullText` | integration-library/src/main/java/com/eidu/integration/RunLearningUnitResult.java:282 | no printed JSON array is the text `null`, so a printed item list is never mistaken for a null list |
| `ResultItems.ItemKeysDistinct` | integration-library/src/main/java/com/eidu/integration/ResultItem.java:28-35 | the eight member names are pairwise distinct |
| `ResultItems.ToJson` | integration-library/src/main/java/com/eidu/integration/ResultItem.java:131-143 | only the eight names are written; a member is written exactly for each non-null field, with that field's value; JSON null is never written |
| `ResultItems.FromJson` | integration-library/src/main/java/com/eidu/integration/ResultItem.java:116-128 | a field is null exactly when its member is absent or JSON null; otherwise it is the `opt*` coercion of the member; decoding an object never fails |
| `ResultItems.JsonRoundTrip` | integration-library/src/main/java/com/eidu/integration/ResultItem.java:146-158 | decoding an encoded item gives an item equal to it in all eight fields |
| `ResultItems.EmptyItemRoundTrip` | integration-library/src/androidTest/java/com/eidu/integration/ResultItemTest.java:25-30 | the all-null item encodes to the empty object, and the empty object decodes to the all-null item |
| `ResultItems.PartialItemKeys` | integration-library/src/main/java/com/eidu/integration/ResultItem.java:133-141 | an item with only id and score set encodes to exactly those two members |
| `ResultItems.ItemsToJson` | integration-library/src/main/java/com/eidu/integration/RunLearningUnitResult.java:317-328 | the item array has one object per item, in order |
| `ResultItems.ItemsFromJson` | integration-library/src/main/java/com/eidu/integration/RunLearningUnitResult.java:286-288 | decoding an array fails exactly when some element is not an object; otherwise it decodes every element, in order |
| `ResultItems.ItemsRoundTrip` | integration-library/src/main/java/com/eidu/integration/RunLearningUnitResult.java:282-290 | decoding an encoded item array gives the list back |
| `LearningUnitResult.OfSuccess` | integration-library/src/main/java/com/eidu/integration/RunLearningUnitResult.java:121-134 | version 2, outcome Success, no error details; score, duration, additional data and items passed through |
| `LearningUnitResult.OfAbort` | integration-library/src/main/java/com/eidu/integration/RunLearningUnitResult.java:147-160 | the same, with outcome Abort |
| `LearningUnitResult.OfTimeoutInactivity` | integration-library/src/main/java/com/eidu/integration/RunLearningUnitResult.java:174-187 | the same, with outcome TimeoutInactivity |
| `LearningUnitResult.OfTimeUp` | integration-library/src/main/java/com/eidu/integration/RunLearningUnitResult.java:201-214 | the same, with outcome TimeUp |
| `LearningUnitResult.OfError` | integration-library/src/main/java/com/eidu/integration/RunLearningUnitResult.java:229-243 | outcome Error with the given error details, every other argument unchanged |
| `LearningUnitResult.ParseItemsText` | integration-library/src/main/java/com/eidu/integration/RunLearningUnitResult.java:280-295 | absent text or `null` gives a null list; otherwise parsing fails exactly when the text is not an array of objects, and an array of objects gives a list with each element decoded by `ResultItem.fromJson`, in order |
| `LearningUnitResult.ItemsTextRoundTrip` | integration-library/src/main/java/com/eidu/integration/RunLearningUnitResult.java:317-328 | the items text round-trips: null stays null and every list, the empty one included, comes back equal |
| `LearningUnitResult.FromIntent` | integration-library/src/main/java/com/eidu/integration/RunLearningUnitResult.java:253-277 | decoding fails exactly when the outcome key does not hold one of the five names, the duration key is absent, or the items text is malformed; each field's decoded value is stated |
| `LearningUnitResult.ToIntent` | integration-library/src/main/java/com/eidu/integration/RunLearningUnitResult.java:305-314 | exactly the seven keys are written, each with its value; null strings and a null score become null values |
| `LearningUnitResult.RoundTrip` | integration-library/src/main/java/com/eidu/integration/RunLearningUnitResult.java:331-342 | decoding the encoded result gives every field back; the score comes back as given when set, and as 0.0f when null |
| `LearningUnitResult.NullScoreComesBackAsZero` | integration-library/src/main/java/com/eidu/integration/RunLearningUnitResult.java:309 | `ofSuccess` with a null score does not survive the round trip |
| `LearningUnitResult.ToIntentOmittingNullScore` | integration-library/src/main/java/com/eidu/integration/RunLearningUnitResult.java:305-314 | the corrected encoder writes the score key exactly when the score is set, and otherwise writes what `toIntent` writes |
| `LearningUnitResult.RoundTripOmittingNullScore` | integration-library/src/main/java/com/eidu/integration/RunLearningUnitResult.java:258 | with the corrected encoder every result round-trips exactly |
| `LearningUnitResult.FactoriesRoundTrip` | integration-library/src/main/java/com/eidu/integration/RunLearningUnitResult.java:121-243 | a result built by any of the five factories with a score round-trips exactly |
| `LearningUnitResult.VersionDefault` | integration-library/src/main/java/com/eidu/integration/RunLearningUnitResult.java:27 | a result intent without a version decodes as version 2; a stored `int` version is kept |
| `LearningUnitRequest.Of` | integration-library/src/main/java/com/eidu/integration/RunLearningUnitRequest.java:132-151 | version 1 and every argument stored as given, empty strings included |
| `LearningUnitRequest.StrictLong` | integration-library/src/main/java/com/eidu/integration/RunLearningUnitRequest.java:284-298 | an absent timeout key fails; null reads as null; a `Long` reads as itself; any other type fails |
| `LearningUnitRequest.FromIntent` | integration-library/src/main/java/com/eidu/integration/RunLearningUnitRequest.java:165-200 | the result is null exactly for a foreign action, which is not a failure; a launch intent gives a request or a failure: decoding fails exactly when an identifier is null or empty or a timeout key is absent or mistyped; each field's decoded value is stated, the URI taken from the data slot |
| `LearningUnitRequest.AddExtras` | integration-library/src/main/java/com/eidu/integration/RunLearningUnitRequest.java:221-231 | the version, the five identifiers and both timeout keys are written, a null timeout as a null value; other keys are kept |
| `LearningUnitRequest.ToIntent` | integration-library/src/main/java/com/eidu/integration/RunLearningUnitRequest.java:213-218 | the launch action, the component and the asset base URI as data, plus the extras |
| `LearningUnitRequest.RoundTrip` | integration-library/src/main/java/com/eidu/integration/RunLearningUnitRequest.java:301-314 | with non-empty identifiers the request round-trips exactly, null timeouts and null URI included; otherwise decoding fails |
| `LearningUnitRequest.GetAssetAsUri` | integration-library/src/main/java/com/eidu/integration/RunLearningUnitRequest.java:277-281 | fails exactly when there is no base URI; otherwise appends the path as one trailing segment, keeping the query |
| `LearningUnitRequest.AssetUriSurvivesIntent` | integration-library/src/androidTest/java/com/eidu/integration/RunLearningUnitRequestTest.java:48-56 | the receiver of a request computes the same asset URI as its sender |
| `ContentUnitResult.OfSuccess` | content-app-library/src/main/java/com/eidu/integration/RunLearningUnitResult.java:104-117 | version 1, outcome Success, the given score, no error details; content id, duration and additional data passed through |
| `ContentUnitResult.OfAbort` | content-app-library/src/main/java/com/eidu/integration/RunLearningUnitResult.java:129-141 | outcome Abort with score 0 |
| `ContentUnitResult.OfTimeoutInactivity` | content-app-library/src/main/java/com/eidu/integration/RunLearningUnitResult.java:154-166 | outcome TimeoutInactivity with score 0 |
| `ContentUnitResult.OfTimeUp` | content-app-library/src/main/java/com/eidu/integration/RunLearningUnitResult.java:179-191 | outcome TimeUp with score 0 |
| `ContentUnitResult.OfError` | content-app-library/src/main/java/com/eidu/integration/RunLearningUnitResult.java:205-218 | outcome Error with score 0 and the given error details |
| `ContentUnitResult.FromIntent` | content-app-library/src/main/java/com/eidu/integration/RunLearningUnitResult.java:228-260 | decoding fails exactly when the content id is null or empty, the outcome is missing or unknown, or the score or duration key is absent |
| `ContentUnitResult.ToIntent` | content-app-library/src/main/java/com/eidu/integration/RunLearningUnitResult.java:270-279 | exactly the seven keys are written, with the content id and the outcome by name |
| `ContentUnitResult.RoundTrip` | content-app-library/src/main/java/com/eidu/integration/RunLearningUnitResult.java:282-293 | a result with a non-empty content id round-trips exactly; one with an empty id is rejected |
| `ContentUnitResult.FactoriesRoundTrip` | content-app-library/src/main/java/com/eidu/content/integration/RunContentUnitResult.java:28-149 | every factory's result round-trips for a non-empty content id |
| `ContentAppRequest.Of` | content-app-library/src/main/java/com/eidu/integration/RunLearningUnitRequest.java:111-128 | version 1 and every argument stored as given |
| `ContentAppRequest.FromIntent` | content-app-library/src/main/java/com/eidu/integration/RunLearningUnitRequest.java:141-176 | whatever the action, decoding fails exactly when an identifier is null or empty; the timeouts are read leniently |
| `ContentAppRequest.AddIdentifiers` | content-app-library/src/main/java/com/eidu/integration/RunLearningUnitRequest.java:211-216 | the version and the five identifiers are written; other keys are kept |
| `ContentAppRequest.AddExtras` | content-app-library/src/main/java/com/eidu/integration/RunLearningUnitRequest.java:210-220 | the identifiers and both timeout keys are written, a null timeout as a null value |
| `ContentAppRequest.ToIntent` | content-app-library/src/main/java/com/eidu/integration/RunLearningUnitRequest.java:188-190 | the given action and the extras |
| `ContentAppRequest.ToIntentExplicit` | content-app-library/src/main/java/com/eidu/integration/RunLearningUnitRequest.java:203-207 | the library's launch action, the component, and the same extras |
| `ContentAppRequest.RoundTrip` | content-app-library/src/main/java/com/eidu/integration/RunLearningUnitRequest.java:223-235 | a complete request comes back with a null timeout turned into 0; with both timeouts set it comes back exactly; a request with a null or empty identifier fails to decode |
| `ContentAppRequest.ExplicitRoundTrip` | content-app-library/src/main/java/com/eidu/integration/RunLearningUnitRequest.java:35-36 | the explicit intent decodes exactly as the implicit one, for every request |
| `ContentAppRequest.NullTimeoutsComeBackAsZero` | content-app-library/src/main/java/com/eidu/integration/RunLearningUnitRequest.java:217-218 | a request with no time limits comes back with limits of 0 ms |
| `ContentAppRequest.AddExtrasOmittingNullTimeouts` | content-app-library/src/main/java/com/eidu/content/launch/LaunchData.java:151-156 | the corrected writer writes the identifiers, writes a timeout key exactly when the timeout is set and then holds its `Long` value, and keeps every other key |
| `ContentAppRequest.RoundTripOmittingNullTimeouts` | content-app-library/src/main/java/com/eidu/integration/RunLearningUnitRequest.java:149-156 | with the corrected writer every complete request round-trips exactly |
| `LaunchData.FromPlainData` | content-app-library/src/main/java/com/eidu/content/launch/LaunchData.java:62-79 | version 1 and every argument stored unvalidated |
| `LaunchData.ReadWith` | content-app-lib/src/main/java/com/eidu/content/launch/LaunchData.java:117-136 | decoding fails exactly when one of the five identifiers is null or empty; otherwise the identifiers and version are stated |
| `LaunchData.FromLaunchIntent` | content-app-library/src/main/java/com/eidu/content/launch/LaunchData.java:92-130 | the content app library's reader, and the intended reader of the content app lib (whose code differs at its line 114, see Findings): the same failure rule, with the version, the five identifiers (the run id under the library's key) and each timeout read from its own key |
| `LaunchData.FromLaunchIntentAsWritten` | content-app-lib/src/main/java/com/eidu/content/launch/LaunchData.java:101-137 | the inactivity timeout is always null; if its key is present, its value replaces the remaining time |
| `LaunchData.IdentifierExtras` | content-app-lib/src/main/java/com/eidu/content/launch/LaunchData.java:151-157 | the version and five identifiers under their keys, the run id under `workUnitRunId` or `contentUnitRunId` |
| `LaunchData.ToLaunchIntent` | content-app-library/src/main/java/com/eidu/content/launch/LaunchData.java:142-158 | the identifiers are written always, and each timeout key only when that timeout is set |
| `LaunchData.TimeoutsReadBack` | content-app-lib/src/main/java/com/eidu/content/launch/LaunchData.java:158-163 | the timeouts read back from a written intent are the written ones, null included |
| `LaunchData.RoundTrip` | content-app-library/src/main/java/com/eidu/content/launch/LaunchData.java:160-197 | with non-empty identifiers, the content app library's reader and the corrected content app lib reader (not that library's code, see Findings) give every getter back under each library's key layout; otherwise decoding fails |
| `LaunchData.AsWrittenRoundTrip` | content-app-lib/src/main/java/com/eidu/content/launch/LaunchData.java:108-115 | the as-written reader loses the inactivity timeout, and agrees with the correct reader exactly when none was set |
| `LaunchData.InactivityTimeoutOverwritesRemainingTime` | content-app-lib/src/main/java/com/eidu/content/launch/LaunchData.java:114 | a 60 s budget with a 10 s inactivity timeout reads back as a 10 s budget with no inactivity timeout |
| `ContentAppLaunchResult.FromPlainData` | content-app-library/src/main/java/com/eidu/content/result/LaunchResultData.java:30-45 | version 1 and every argument stored unchanged |
| `ContentAppLaunchResult.FromResultIntent` | content-app-library/src/main/java/com/eidu/content/result/LaunchResultData.java:47-84 | decoding fails exactly when the content id is null or empty, the outcome is unknown, or the score or duration key is absent; additional data is whatever string its key holds |
| `ContentAppLaunchResult.ToResultIntent` | content-app-library/src/main/java/com/eidu/content/result/LaunchResultData.java:86-94 | exactly six keys are written, the outcome name under `runContentUnitResult` |
| `ContentAppLaunchResult.RoundTrip` | content-app-library/src/main/java/com/eidu/content/result/LaunchResultData.java:128-155 | every getter round-trips for all five outcomes when the content id is non-empty |
| `ContentLibLaunchResult.FromPlainData` | content-app-lib/src/main/java/com/eidu/content/result/LaunchResultData.java:33-48 | version 1 and every argument stored unchanged |
| `ContentLibLaunchResult.GetAdditionalData` | content-app-lib/src/main/java/com/eidu/content/result/LaunchResultData.java:154-157 | the stored elements, in order |
| `ContentLibLaunchResult.ReadAdditionalData` | content-app-lib/src/main/java/com/eidu/content/result/LaunchResultData.java:62-65 | an absent key reads as the empty list and a string list as itself; any other value fails in the copying constructor |
| `ContentLibLaunchResult.FromResultIntent` | content-app-lib/src/main/java/com/eidu/content/result/LaunchResultData.java:50-86 | decoding fails exactly when the content id is null or empty, the outcome is unknown, the score or duration key is absent, or the additional data is not a list |
| `ContentLibLaunchResult.ToResultIntent` | content-app-lib/src/main/java/com/eidu/content/result/LaunchResultData.java:88-96 | exactly six keys are written: the outcome name under `runWuResult`, and the list under `additionalData` |
| `ContentLibLaunchResult.RoundTrip` | content-app-lib/src/main/java/com/eidu/content/result/LaunchResultData.java:98-112 | every getter round-trips, for every list, when the content id is non-empty |
| `ContentLibLaunchResult.MissingOrNullAdditionalData` | content-app-lib/src/main/java/com/eidu/content/result/LaunchResultData.java:111 | missing additional data decodes as an empty list; a stored null is rejected |
| `QueryResult.FromContentIds` | content-app-library/src/main/java/com/eidu/content/result/QueryResultData.java:26-28 | the ids are kept, elements and order |
| `QueryResult.GetContentIds` | content-app-lib/src/main/java/com/eidu/content/result/QueryResultData.java:26-33 | the ids in stored order |
| `QueryResult.FromQueryIntent` | content-app-library/src/main/java/com/eidu/content/result/QueryResultData.java:17-23 | an absent key gives the empty list; a stored list gives that list; any other value fails |
| `QueryResult.ToResultIntent` | content-app-library/src/main/java/com/eidu/content/result/QueryResultData.java:31-35 | exactly one key, `contentIds`, holding the ids, the empty list included |
| `QueryResult.RoundTrip` | content-app-library/src/androidTest/java/com/eidu/content/result/QueryResultDataTest.java:13-20 | every query result round-trips |
| `QueryResult.OnlyContentIdsMatters` | content-app-lib/src/main/java/com/eidu/content/result/QueryResultData.java:17-24 | two intents that agree on `contentIds` decode alike |
| `QueryProvider.ColumnIndex` | content-app-library/src/main/java/com/eidu/content/query/QueryContentProvider.java:14-17 | the index of the first column with the name, or -1 exactly when there is none |
| `QueryProvider.GetColumn` | content-app-library/src/main/java/com/eidu/content/query/QueryContentProvider.java:13-27 | a missing column gives the empty list; otherwise one cell per row, in row order, equal to the reference projection |
| `QueryProvider.GetAvailableUnitIds` | content-app-library/src/main/java/com/eidu/content/query/QueryContentProvider.java:11-27 | the projection of the `availableUnitIds` column, with as many ids as rows when the column exists |
| `QueryProvider.GetContentIds` | content-app-lib/src/main/java/com/eidu/content/query/QueryContentProvider.java:13-29 | the projection of the `contentId` column, with as many ids as rows when the column exists |
| `QueryProvider.NoRowsNoIds` | content-app-lib/src/main/java/com/eidu/content/query/QueryContentProvider.java:21-28 | a cursor without rows gives the empty list |

## Where the code and the documented design differ

The model follows the code in each of these cases:

- **content-app-lib `LaunchResultData.fromResultIntent`.** An `additionalData` key holding null or a non-list does not decode to an empty list. `getStringArrayListExtra` returns null, and the copying constructor (`LaunchResultData.java:111`) then throws. The model fails there (`ContentLibLaunchResult.ReadAdditionalData`).
- **Both `QueryResultData.fromQueryIntent`.** A `contentIds` key holding something other than a string list fails the same way, in `Collections.unmodifiableList(null)`.
- **The content app library's `LaunchResultData.fromResultIntent`.** It reads the additional data only when its key is present. That is the same as reading it always, because an absent key reads as null either way.

## Left out

- Intents.AppendPath: Android's `appendPath("")` adds only a bare `/` to the path, which `getPathSegments()` then drops, so no segment is added; the model appends `""` as a segment. Its contract therefore matches Android only for a non-empty path, and `LearningUnitRequest.GetAssetAsUri` inherits this for an empty asset path.
- The `Intent`, `Bundle` and `Parcel` transport, component and package routing, and the internals of Android's `Uri`. The bag is a map, and a URI is a scheme, an authority, path segments and a query; it has no fragment.
- `getAssetAsStream` and `getAssetAsFileDescriptor` are left out. They open a file descriptor through the `ContentResolver`, which is I/O.
- `DataService` is left out: binder IPC and a static mutable service field. `QueryIntent.createIntent` is left out too: two lines of intent construction with no logic.
- JSON text syntax and the org.json printer and parser are a parameter (`Json.JsonLib`). Only their stated laws are used.
- ResultItems.JsonRoundTrip: a `-0.0f` item score does not survive org.json: it prints as `0`, parses as the integer 0, and `(float) optDouble` yields `0.0f`, which `Float.equals` (and so `ResultItem.equals`) tells apart from `-0.0f`. The round-trip law of `Json.Lawful` hides this, so this lemma, `ResultItems.ItemsRoundTrip`, `LearningUnitResult.ItemsTextRoundTrip` and the items part of `LearningUnitResult.RoundTrip` do not hold in Java for an item with a negative-zero score.
- ResultItems.ToJson: float numerics are not modelled. A float is an opaque bit pattern, so two further effects are out of scope: `JSONObject.put` throws for a non-finite score, and the score passes through `double` in `fromJson`. The round-trip law of `Json.Lawful` stands in for org.json's printer and parser together with that `double` conversion: org.json alone does not give a number back with its kind, since `1.0f` prints as `1` and parses as an integer.
- ContentUnitResult.RoundTrip: `equals` compares the primitive score with `==`, under which `NaN` differs from itself and `-0.0f` equals `0.0f`. The model uses bit equality.
- `hashCode`, exception messages, and the distinction between exception classes: every exception is `Fail`.
- QueryResult.FromContentIds: Java keeps an unmodifiable view of the caller's list (`Collections.unmodifiableList`), not a copy, and `fromQueryIntent` wraps the bundle's own list the same way, so later changes to the underlying list show through `getContentIds()`. The model holds an immutable `seq<string>` snapshot. Java lists may also hold `null` elements; `seq<string>` excludes them, here and in `ContentLibLaunchResult.additionalData`.
- QueryProvider.GetColumn: the Java walk moves the caller's cursor and leaves it after the last row. The model is a pure function of the cursor's contents and has no cursor position.
- QueryProvider.ColumnIndex: the matching that Android cursors do inside `getColumnIndex` is not modelled: case-insensitive comparison, and stripping a `table.` prefix. The model takes the first exact match.
- `equals` is the structural equality of each datatype. For that reason it has no member of its own.
- Getters are datatype fields.

## Findings

| source | as written | input that shows it | evidently intended | confidence | as-written member | corrected member |
|---|---|---|---|---|---|---|
| integration-library/src/main/java/com/eidu/integration/RunLearningUnitResult.java:309 | `toIntent` stores a null score as a null-valued key. Line 258 then sees the key and reads 0.0f | `ofSuccess(null, 1000, null, null)` encoded and decoded | a null score stays null (the field is nullable, and absence is meant to be seen) | not executed | `LearningUnitResult.NullScoreComesBackAsZero` | `LearningUnitResult.RoundTripOmittingNullScore` |
| content-app-library/src/main/java/com/eidu/integration/RunLearningUnitRequest.java:217-218 | `addExtras` stores null timeouts as null-valued keys. Lines 149-156 read each present key as 0 | `of("unit", "run", "learner", "school", "stage", null, null)` encoded and decoded | "no limit" stays null, as `LaunchData.toLaunchIntent` in the same library achieves by leaving the key out | not executed | `ContentAppRequest.NullTimeoutsComeBackAsZero` | `ContentAppRequest.RoundTripOmittingNullTimeouts` |
| content-app-lib/src/main/java/com/eidu/content/launch/LaunchData.java:114 | the inactivity timeout is assigned to `remainingForegroundTimeInMs` | a launch intent with remaining time 60000 and inactivity timeout 10000 | each timeout read into its own field, as the content app library's `LaunchData.java:106` does | not executed | `LaunchData.InactivityTimeoutOverwritesRemainingTime` | `LaunchData.RoundTrip` |
