/** `QueryResultData` of the `com.eidu.content.result` package: the list of
    content ids a content app reports as available. Both content libraries
    read it the same way; only the content app library can also build and
    write one. */
module QueryResult {
  import opened Wrappers
  import opened Intents

  const ContentIdsExtra: string := "contentIds"

  /** Structural equality of this datatype is `equals`: equality of the id
      sequences. */
  datatype QueryResultData = QueryResultData(contentIds: seq<string>)

  /** `fromContentIds`: the ids, elements and order kept. */
  function FromContentIds(contentIds: seq<string>): (q: QueryResultData)
    ensures |q.contentIds| == |contentIds|
    ensures forall i :: 0 <= i < |contentIds| ==> q.contentIds[i] == contentIds[i]
  {
    QueryResultData(contentIds)
  }

  /** `getContentIds()`: a read-only view of the ids in stored order. */
  function GetContentIds(q: QueryResultData): (l: seq<string>)
    ensures |l| == |q.contentIds|
    ensures forall i :: 0 <= i < |l| ==> l[i] == q.contentIds[i]
  {
    q.contentIds
  }

  /** `fromQueryIntent`: an absent key is the empty list and a key holding
      a string list is that list; a key holding anything else (null
      included) makes `getStringArrayListExtra` return null, which
      `Collections.unmodifiableList` rejects. */
  function FromQueryIntent(b: Intent): (r: Result<QueryResultData>)
    ensures ContentIdsExtra !in b.extras ==> r == Ok(QueryResultData([]))
    ensures ContentIdsExtra in b.extras ==> (r.Ok? <==> b.extras[ContentIdsExtra].VStrList?)
    ensures r.Ok? && ContentIdsExtra in b.extras ==> r.value.contentIds == b.extras[ContentIdsExtra].list
  {
    if HasExtra(b, ContentIdsExtra) then
      match GetStringArrayListExtra(b, ContentIdsExtra)
      case None => Fail
      case Some(l) => Ok(QueryResultData(l))
    else Ok(QueryResultData([]))
  }

  /** `toResultIntent()`: a bag with exactly the one key, holding a copy of
      the ids; an empty list is written too. */
  function ToResultIntent(q: QueryResultData): (b: Intent)
    ensures b.action.None? && b.component.None? && b.data.None?
    ensures b.extras.Keys == {ContentIdsExtra}
    ensures b.extras[ContentIdsExtra] == VStrList(q.contentIds)
  {
    Put(EmptyIntent, ContentIdsExtra, VStrList(GetContentIds(q)))
  }

  /** Every query result survives the round trip, the empty one included. */
  lemma RoundTrip(q: QueryResultData)
    ensures FromQueryIntent(ToResultIntent(q)) == Ok(q)
  {
  }

  /** Only the `contentIds` key matters: two bags that agree on it decode
      alike, whatever else they hold. */
  lemma OnlyContentIdsMatters(b1: Intent, b2: Intent)
    requires ContentIdsExtra in b1.extras <==> ContentIdsExtra in b2.extras
    requires ContentIdsExtra in b1.extras ==> b1.extras[ContentIdsExtra] == b2.extras[ContentIdsExtra]
    ensures FromQueryIntent(b1) == FromQueryIntent(b2)
  {
  }
}
