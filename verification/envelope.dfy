/** Decoding helpers shared by every codec: the run outcome enum and its
    by-name decoding, required-string validation, and the two ways the
    codecs read an optional `Long`. */
module Envelope {
  import opened Wrappers
  import opened JavaTypes
  import opened Intents

  /** The reason a run ended. Every result class of the repository declares
      this same five-constant enum (`ResultType`, `RunContentUnitResult`,
      `RunWuResult`). */
  datatype Outcome = Success | Abort | Error | TimeoutInactivity | TimeUp

  /** `Enum.name()`. */
  function Name(o: Outcome): string {
    match o
    case Success => "Success"
    case Abort => "Abort"
    case Error => "Error"
    case TimeoutInactivity => "TimeoutInactivity"
    case TimeUp => "TimeUp"
  }

  /** The five names `Enum.valueOf` accepts. */
  const OutcomeNames: set<string> := {"Success", "Abort", "Error", "TimeoutInactivity", "TimeUp"}

  /** `nullableValueOf` on a non-null string: the constant of that exact
      name, or null for any other string. */
  function ValueOf(s: string): (r: Option<Outcome>)
    ensures r.Some? <==> s in OutcomeNames
    ensures r.Some? ==> Name(r.value) == s
  {
    if s == "Success" then Some(Success)
    else if s == "Abort" then Some(Abort)
    else if s == "Error" then Some(Error)
    else if s == "TimeoutInactivity" then Some(TimeoutInactivity)
    else if s == "TimeUp" then Some(TimeUp)
    else None
  }

  /** `nullableValueOf` on a nullable string: `Enum.valueOf(null)` throws a
      `NullPointerException`, which the helper does not catch. */
  function NullableValueOf(s: Option<string>): (r: Result<Option<Outcome>>)
    ensures r.Fail? <==> s.None?
    ensures r.Ok? ==> r.value == ValueOf(s.value)
  {
    match s
    case None => Fail
    case Some(name) => Ok(ValueOf(name))
  }

  /** `name()` and `valueOf` are inverse: decoding a constant's name gives
      back that constant, and only a constant's name decodes to it. */
  lemma ValueOfName(o: Outcome, s: string)
    ensures ValueOf(Name(o)) == Some(o)
    ensures ValueOf(s) == Some(o) <==> s == Name(o)
  {
  }

  /** The names are pairwise distinct, so `name()` is injective. */
  lemma NameInjective(o1: Outcome, o2: Outcome)
    ensures Name(o1) == Name(o2) ==> o1 == o2
  {
  }

  /** The extras key `key` holds exactly the name of an outcome: the only
      case in which `nullableValueOf(getStringExtra(key))` neither throws
      nor returns null. */
  predicate HoldsOutcomeName(b: Intent, key: string) {
    key in b.extras && b.extras[key].VStr? && b.extras[key].s in OutcomeNames
  }

  /** Reading an outcome stored by name: it fails exactly when the key holds
      no string at all, yields null for an unknown name, and otherwise
      yields the constant whose name is stored. */
  function ReadOutcome(b: Intent, key: string): (r: Result<Option<Outcome>>)
    ensures r.Fail? <==> GetStringExtra(b, key).None?
    ensures r.Ok? && r.value.Some? <==> HoldsOutcomeName(b, key)
    ensures r.Ok? && r.value.Some? ==> Name(r.value.value) == b.extras[key].s
  {
    NullableValueOf(GetStringExtra(b, key))
  }

  /** Writing an outcome by name and reading it back gives the outcome. */
  lemma ReadOutcomeOfName(b: Intent, key: string, o: Outcome)
    ensures ReadOutcome(Put(b, key, VStr(Name(o))), key) == Ok(Some(o))
  {
  }

  /** The shared rule for a required string field: it must be non-null and
      non-empty. */
  predicate Present(s: Option<string>) {
    s.Some? && s.value != ""
  }

  /** The extras key `key` holds a non-empty string. */
  predicate HoldsNonEmptyString(b: Intent, key: string) {
    key in b.extras && b.extras[key].VStr? && b.extras[key].s != ""
  }

  lemma PresentIffNonEmptyString(b: Intent, key: string)
    ensures Present(GetStringExtra(b, key)) <==> HoldsNonEmptyString(b, key)
  {
  }

  /** `intent.getIntExtra("version", current)`: the stamped version when the
      key holds an `int`, the codec's current version otherwise. */
  function ReadVersion(b: Intent, current: Int32): (r: Int32)
    ensures "version" in b.extras && b.extras["version"].VInt? ==> r == b.extras["version"].i
    ensures !("version" in b.extras && b.extras["version"].VInt?) ==> r == current
  {
    GetIntExtra(b, "version", current)
  }

  /** The lenient optional-`Long` read:
      `hasExtra(k) ? getLongExtra(k, 0) : null`. A key holding null or a
      non-`long` value reads as `0`. */
  function LenientLong(b: Intent, key: string): (r: Option<Long>)
    ensures r.None? <==> key !in b.extras
    ensures key in b.extras && b.extras[key].VLong? ==> r == Some(b.extras[key].l)
    ensures key in b.extras && !b.extras[key].VLong? ==> r == Some(0)
  {
    if HasExtra(b, key) then Some(GetLongExtra(b, key, 0)) else None
  }

  /** The lenient optional-`Float` read:
      `hasExtra(k) ? getFloatExtra(k, 0f) : null`. */
  function LenientFloat(b: Intent, key: string): (r: Option<Float32>)
    ensures r.None? <==> key !in b.extras
    ensures key in b.extras && b.extras[key].VFloat? ==> r == Some(b.extras[key].f)
    ensures key in b.extras && !b.extras[key].VFloat? ==> r == Some(ZeroFloat)
  {
    if HasExtra(b, key) then Some(GetFloatExtra(b, key, ZeroFloat)) else None
  }

  /** Storing a boxed `Long` and reading it back leniently gives the value,
      except that a null comes back as `0` because its key is present. */
  lemma LenientLongOfBoxed(b: Intent, key: string, l: Option<Long>)
    ensures LenientLong(Put(b, key, BoxedLong(l)), key) == Some(l.GetOr(0))
  {
  }
}
