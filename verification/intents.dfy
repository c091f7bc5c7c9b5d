/** The Android `Intent` seen as a key-value bag: an optional action, an
    optional explicit component, an optional data URI and a map of typed
    extras. The accessors below state the Android `Bundle` semantics the
    codecs rely on:
    - `hasExtra(k)` holds exactly when `k` is a key, even when it holds null;
    - `getStringExtra(k)` / `getStringArrayListExtra(k)` yield null when the
      key is absent, holds null or holds a value of another type;
    - `getIntExtra`/`getLongExtra`/`getFloatExtra(k, d)` yield `d` in those
      same three cases;
    - putting a null `String`, boxed `Long` or boxed `Float` stores a
      null-valued key. */
module Intents {
  import opened Wrappers
  import opened JavaTypes

  /** A value stored in the extras. `VNull` is a key that holds null. */
  datatype Value =
    | VNull
    | VStr(s: string)
    | VInt(i: Int32)
    | VLong(l: Long)
    | VFloat(f: Float32)
    | VStrList(list: seq<string>)

  /** A hierarchical URI: an opaque scheme and authority, the path as its
      list of decoded segments, and an optional query. */
  datatype Uri = Uri(scheme: string, authority: string, segments: seq<string>, query: Option<string>)

  /** An explicit target set by `setClassName(packageName, className)`. */
  datatype Component = Component(packageName: string, className: string)

  datatype Intent = Intent(
    action: Option<string>,
    component: Option<Component>,
    data: Option<Uri>,
    extras: map<string, Value>)

  /** `new Intent()`. */
  const EmptyIntent: Intent := Intent(None, None, None, map[])

  /** `new Intent(action)`. */
  function NewIntent(action: string): (r: Intent)
    ensures r.action == Some(action) && r.extras == map[]
    ensures r.component.None? && r.data.None?
  {
    EmptyIntent.(action := Some(action))
  }

  predicate HasExtra(b: Intent, key: string) {
    key in b.extras
  }

  function GetStringExtra(b: Intent, key: string): Option<string> {
    if key in b.extras && b.extras[key].VStr? then Some(b.extras[key].s) else None
  }

  function GetStringArrayListExtra(b: Intent, key: string): Option<seq<string>> {
    if key in b.extras && b.extras[key].VStrList? then Some(b.extras[key].list) else None
  }

  function GetIntExtra(b: Intent, key: string, default: Int32): Int32 {
    if key in b.extras && b.extras[key].VInt? then b.extras[key].i else default
  }

  function GetLongExtra(b: Intent, key: string, default: Long): Long {
    if key in b.extras && b.extras[key].VLong? then b.extras[key].l else default
  }

  function GetFloatExtra(b: Intent, key: string, default: Float32): Float32 {
    if key in b.extras && b.extras[key].VFloat? then b.extras[key].f else default
  }

  /** `putExtra(key, v)` for any value: later puts replace earlier ones. */
  function Put(b: Intent, key: string, v: Value): (r: Intent)
    ensures r.extras.Keys == b.extras.Keys + {key}
    ensures r.extras[key] == v
    ensures forall k :: k in b.extras && k != key ==> r.extras[k] == b.extras[k]
    ensures r.action == b.action && r.component == b.component && r.data == b.data
  {
    b.(extras := b.extras[key := v])
  }

  /** `if (l != null) putExtra(key, l)`: the key is written only for a set
      value, so a null leaves the bag as it was. */
  function PutLongIfSet(b: Intent, key: string, l: Option<Long>): (r: Intent)
    ensures r.extras.Keys == if l.Some? then b.extras.Keys + {key} else b.extras.Keys
    ensures l.Some? ==> r.extras[key] == VLong(l.value)
    ensures forall k :: k in b.extras && k != key ==> r.extras[k] == b.extras[k]
    ensures l.None? ==> r == b
    ensures r.action == b.action && r.component == b.component && r.data == b.data
  {
    match l
    case None => b
    case Some(v) => Put(b, key, VLong(v))
  }

  /** The value `putExtra(String, String)` stores for a nullable string. */
  function NullableString(s: Option<string>): Value {
    match s
    case None => VNull
    case Some(v) => VStr(v)
  }

  /** The value `putExtra` stores for a nullable boxed `Long`. */
  function BoxedLong(l: Option<Long>): Value {
    match l
    case None => VNull
    case Some(v) => VLong(v)
  }

  /** The value `putExtra` stores for a nullable boxed `Float`. */
  function BoxedFloat(f: Option<Float32>): Value {
    match f
    case None => VNull
    case Some(v) => VFloat(v)
  }

  /** `uri.buildUpon().appendPath(segment).build()`: the segment becomes one
      more path segment; scheme, authority and query are kept. */
  function AppendPath(u: Uri, segment: string): (r: Uri)
    ensures |r.segments| == |u.segments| + 1
    ensures r.segments[..|u.segments|] == u.segments
    ensures r.segments[|u.segments|] == segment
    ensures r.scheme == u.scheme && r.authority == u.authority && r.query == u.query
  {
    u.(segments := u.segments + [segment])
  }
}
