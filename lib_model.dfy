/** `Model<T>` of src/lib/model.ts: a database id and a schema, both private
    and set only by the constructor, and the CRUD operations that translate
    between records and Notion payloads. The shared `NotionPlus` client is a
    reference the model keeps but never inspects here: each operation returns
    the request it would send, and takes the client's response as an input. */
module LibModel {
  import opened Wire
  import Schemas
  import Pages
  import LibCodec
  import opened Requests

  class Model {
    const notionPlus: object
    const databaseId: string
    const schema: Schemas.Schema

    constructor(notionPlus: object, databaseId: string, schema: Schemas.Schema)
      ensures this.notionPlus == notionPlus && this.databaseId == databaseId && this.schema == schema
    {
      this.notionPlus := notionPlus;
      this.databaseId := databaseId;
      this.schema := schema;
    }

    /** `type(property)`: the declared kind, or `undefined` for an undeclared name. */
    function Type(property: string): (k: Option<Kind>)
      ensures k.Some? <==> property in schema.notionSchema
      ensures k.Some? ==> k.value == schema.notionSchema[property]
    {
      if property in schema.notionSchema then Some(schema.notionSchema[property]) else None
    }

    /** `getNotionPropertyFromData[this.type(key)](value, key)`. */
    function Fragment(key: string, value: Value): (r: Result<map<string, Value>>)
      ensures r.Success? <==> Writable(key, value)
      ensures r.Success? ==> r.value.Keys == {key}
    {
      match Type(key)
      case None => Failure(TypeError)
      case Some(k) => LibCodec.GetNotionPropertyFromData(k, value, key)
    }

    /** A field this model can write: declared, of a kind with an encoder,
        and a list when it is a multi-select. */
    predicate Writable(key: string, value: Value) {
      && key in schema.notionSchema
      && var k := schema.notionSchema[key];
      && k != CreatedBy && k != UniqueId
      && (k == MultiSelect ==> value.Arr?)
    }

    /** `convertToNotionProperties(items)`: merges the fragments of all
        fields. Any field that cannot be written makes the whole conversion
        throw; otherwise the payload has exactly the item's keys, each holding
        its own kind's encoding. */
    function ConvertToNotionProperties(items: map<string, Value>): (r: Result<map<string, Value>>)
      ensures r.Success? <==> forall key | key in items :: Writable(key, items[key])
      ensures r.Success? ==> r.value.Keys == items.Keys
      ensures r.Success? ==> forall key | key in items ::
        r.value[key] == LibCodec.GetNotionPropertyFromData(schema.notionSchema[key], items[key], key).value[key]
    {
      if forall key | key in items :: Fragment(key, items[key]).Success? then
        Success(map key | key in items :: Fragment(key, items[key]).value[key])
      else
        Failure(TypeError)
    }

    /** `find(args)`: one query with the model's database id and the
        arguments passed through; the records keep the response's order, the
        count is their number and `hasMore` is copied, with no special case
        for an empty response. */
    function Find(args: FindArguments, response: QueryResponse): (e: Exchange<FilterResponse>)
      ensures e.request == Some(GetDatabase(databaseId, args.filter, args.pageSize, args.sorts))
      ensures e.result.Success? <==>
        forall i | 0 <= i < |response.results| :: LibCodec.PrettyDbData(response.results[i], args.metadata).Success?
      ensures e.result.Success? ==>
        && e.result.value.count == |e.result.value.results| == |response.results|
        && e.result.value.hasMore == response.has_more
        && forall i | 0 <= i < |response.results| ::
             e.result.value.results[i] == LibCodec.PrettyDbData(response.results[i], args.metadata).value
    {
      var request := GetDatabase(databaseId, args.filter, args.pageSize, args.sorts);
      var records := Pages.PrettyAll(LibCodec.ParseNotionParams, response.results, args.metadata);
      match records
      case Failure(err) => Exchange(Some(request), Failure(err))
      case Success(rs) => Exchange(Some(request), Success(FilterResponse(rs, |rs|, response.has_more)))
    }

    /** `create(item, metaData)`: a failing conversion throws before any
        call; otherwise the page is created in this model's database and the
        response is decoded with the caller's `metaData`. */
    function Create(item: map<string, Value>, metaData: bool, response: Pages.Page): (e: Exchange<map<string, Value>>)
      ensures e.request.None? <==> !forall key | key in item :: Writable(key, item[key])
      ensures e.request.None? ==> e.result.Failure?
      ensures e.request.Some? ==>
        && e.request.value == CreateNotionPage(databaseId, ConvertToNotionProperties(item).value)
        && e.result == LibCodec.PrettyDbData(response, metaData)
    {
      match ConvertToNotionProperties(item)
      case Failure(err) => Exchange(None, Failure(err))
      case Success(properties) =>
        Exchange(Some(CreateNotionPage(databaseId, properties)), LibCodec.PrettyDbData(response, metaData))
    }

    /** `update(id, data, metaData)`: as `create`, but the request targets the
        given page id. */
    function Update(id: string, data: map<string, Value>, metaData: bool, response: Pages.Page)
      : (e: Exchange<map<string, Value>>)
      ensures e.request.None? <==> !forall key | key in data :: Writable(key, data[key])
      ensures e.request.None? ==> e.result.Failure?
      ensures e.request.Some? ==>
        && e.request.value == UpdateNotionPage(id, ConvertToNotionProperties(data).value)
        && e.result == LibCodec.PrettyDbData(response, metaData)
    {
      match ConvertToNotionProperties(data)
      case Failure(err) => Exchange(None, Failure(err))
      case Success(properties) =>
        Exchange(Some(UpdateNotionPage(id, properties)), LibCodec.PrettyDbData(response, metaData))
    }
  }

  /** The reserved `created_by` and `last_edited_by` fields can never be
      written: their kind has no encoder, so a create or update that names
      either of them throws before any request. */
  lemma {:induction false} ReservedActorsNotWritable(m: Model, items: map<string, Value>)
    requires m.schema.Valid()
    requires "created_by" in items || "last_edited_by" in items
    ensures m.ConvertToNotionProperties(items).Failure?
  {
    var key := if "created_by" in items then "created_by" else "last_edited_by";
    assert key in Schemas.Reserved;
    assert !m.Writable(key, items[key]);
  }

  /** An undeclared field makes the conversion throw. */
  lemma {:induction false} UndeclaredFieldNotWritable(m: Model, items: map<string, Value>, key: string)
    requires key in items && key !in m.schema.notionSchema
    ensures m.ConvertToNotionProperties(items).Failure?
  {
    assert !m.Writable(key, items[key]);
  }
}
