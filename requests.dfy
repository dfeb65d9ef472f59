/** The request bodies sent to the Notion client, as built by src/client.ts
    (`getDatabase`, `createNotionPage`, `updateNotionPage`,
    `deleteNotionPage`) and, in identical form, by the `NotionPlus` methods of
    src/lib/notion-plus.ts. The client itself is not modelled: a request is
    returned to the caller, and the response is passed in by the caller. */
module Requests {
  import opened Wire
  import Pages

  /** The response of `databases.query`. */
  datatype QueryResponse = QueryResponse(results: seq<Pages.Page>, has_more: bool)

  /** What a model operation sends (`None` when it throws before any call)
      and what it returns. */
  datatype Exchange<T> = Exchange(request: Option<Value>, result: Result<T>)

  /** `FindArguments`: an omitted `metadata` is `false`. */
  datatype FindArguments = FindArguments(
    filter: Value, pageSize: Option<int>, sorts: Option<seq<Value>>, metadata: bool)

  /** `FilterResponse`: the decoded records, their count, and whether more pages remain. */
  datatype FilterResponse = FilterResponse(results: seq<map<string, Value>>, count: int, hasMore: bool)

  /** JavaScript `a || b`. */
  function Or(a: Value, b: Value): Value {
    if Truthy(a) then a else b
  }

  /** The optional page size as a JavaScript value. */
  function PageSizeValue(pageSize: Option<int>): Value {
    match pageSize
    case None => Undefined
    case Some(n) => Num(n)
  }

  /** The `databases.query` body: `filter` only when it is truthy,
      `page_size: pageSize || 0`, and `sorts` defaulting to `[]`. */
  function GetDatabase(databaseId: string, filter: Value, pageSize: Option<int>, sorts: Option<seq<Value>>)
    : (q: Value)
    ensures q.Obj?
    ensures q.fields.Keys == {"database_id", "page_size", "sorts"} + (if Truthy(filter) then {"filter"} else {})
    ensures q.fields["database_id"] == Str(databaseId)
    ensures Truthy(filter) ==> q.fields["filter"] == filter
    ensures pageSize.None? || pageSize == Some(0) ==> q.fields["page_size"] == Num(0)
    ensures pageSize.Some? && pageSize.value != 0 ==> q.fields["page_size"] == Num(pageSize.value)
    ensures sorts.None? ==> q.fields["sorts"] == Arr([])
    ensures sorts.Some? ==> q.fields["sorts"] == Arr(sorts.value)
  {
    var withFilter := if Truthy(filter) then map["filter" := filter] else map[];
    Obj(map["database_id" := Str(databaseId)] + withFilter
        + map["page_size" := Or(PageSizeValue(pageSize), Num(0)),
              "sorts" := Arr(if sorts.Some? then sorts.value else [])])
  }

  /** The `pages.update` body: the page id and the properties, unchanged. */
  function UpdateNotionPage(pageId: string, properties: map<string, Value>): (q: Value)
    ensures q.Obj? && q.fields.Keys == {"page_id", "properties"}
    ensures q.fields["page_id"] == Str(pageId) && q.fields["properties"] == Obj(properties)
  {
    Obj(map["page_id" := Str(pageId), "properties" := Obj(properties)])
  }

  /** The `pages.create` body: parented to the database with
      `type: 'database_id'`, and the properties, unchanged. */
  function CreateNotionPage(databaseId: string, properties: map<string, Value>): (q: Value)
    ensures q.Obj? && q.fields.Keys == {"parent", "properties"}
    ensures q.fields["parent"] == Obj(map["type" := Str("database_id"), "database_id" := Str(databaseId)])
    ensures q.fields["properties"] == Obj(properties)
  {
    Obj(map[
      "parent" := Obj(map["type" := Str("database_id"), "database_id" := Str(databaseId)]),
      "properties" := Obj(properties)
    ])
  }

  /** The archiving `pages.update` body: only the page id and `archived: true`. */
  function DeleteNotionPage(pageId: string): (q: Value)
    ensures q.Obj? && q.fields.Keys == {"page_id", "archived"}
    ensures q.fields["page_id"] == Str(pageId) && q.fields["archived"] == Bool(true)
  {
    Obj(map["page_id" := Str(pageId), "archived" := Bool(true)])
  }

  /** A page size of zero and an omitted page size send the same query. */
  lemma {:induction false} ZeroPageSizeIsOmitted(databaseId: string, filter: Value, sorts: Option<seq<Value>>)
    ensures GetDatabase(databaseId, filter, Some(0), sorts) == GetDatabase(databaseId, filter, None, sorts)
  {
  }

  /** Every falsy filter (`undefined`, `null`, `false`, `0`, `''`) sends the
      same query as no filter. */
  lemma {:induction false} FalsyFilterIsOmitted(databaseId: string, filter: Value, pageSize: Option<int>, sorts: Option<seq<Value>>)
    requires !Truthy(filter)
    ensures GetDatabase(databaseId, filter, pageSize, sorts) == GetDatabase(databaseId, Undefined, pageSize, sorts)
  {
  }
}
