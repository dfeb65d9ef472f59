/** `Model<T>` of src/schema.ts, the second legacy model: the same fields
    and operations as src/modal.ts, except that `create`, like `update`,
    drops the fields it cannot encode and always reaches the call. */
module LegacySchema {
  import opened Wire
  import Schemas
  import LegacyCodec
  import LegacyModel
  import opened Requests
  import Pages

  class Model {
    var schema: map<string, Kind>
    var databaseId: string

    /** The caller's schema with the six record fields laid over it. */
    constructor(schema: map<string, Kind>, databaseId: string)
      ensures this.schema == Schemas.Overlay(schema) && this.databaseId == databaseId
      ensures Valid()
    {
      this.schema := Schemas.Overlay(schema);
      this.databaseId := databaseId;
    }

    /** The record fields carry their reserved kinds; the fields are public,
        so this holds from construction until a caller reassigns `schema`. */
    predicate Valid()
      reads this
    {
      Schemas.HasReserved(schema)
    }

    /** `type(property)`: the declared kind, or `undefined`. */
    function Type(property: string): (k: Option<Kind>)
      reads this
      ensures k.Some? <==> property in schema
      ensures k.Some? ==> k.value == schema[property]
    {
      if property in schema then Some(schema[property]) else None
    }

    /** `find(args)`: one query with the model's database id, shaped as in
        `LegacyModel.ShapeFind`. */
    function Find(args: FindArguments, response: QueryResponse): (e: Exchange<FilterResponse>)
      reads this
      ensures e.request == Some(GetDatabase(databaseId, args.filter, args.pageSize, args.sorts))
      ensures e.result == LegacyModel.ShapeFind(response, args.metadata)
    {
      Exchange(Some(GetDatabase(databaseId, args.filter, args.pageSize, args.sorts)),
               LegacyModel.ShapeFind(response, args.metadata))
    }

    /** `update(id, data, metaData)`: always sends an update, carrying the
        fields that encode. */
    method Update(id: string, data: map<string, Value>, metaData: bool, response: Pages.Page)
      returns (e: Exchange<map<string, Value>>)
      ensures e.request == Some(UpdateNotionPage(id, LegacyModel.DroppingPayload(schema, data)))
      ensures e.result == LegacyCodec.PrettyDbData(response, metaData)
      ensures Valid() ==>
        && "created_by" !in e.request.value.fields["properties"].fields
        && "last_edited_by" !in e.request.value.fields["properties"].fields
    {
      if Valid() {
        LegacyModel.ReservedActorsNeverSent(schema, data);
      }
      var properties := LegacyModel.EncodeDropping(schema, data);
      e := Exchange(Some(UpdateNotionPage(id, properties)), LegacyCodec.PrettyDbData(response, metaData));
    }

    /** `create(data, metaData)`: always sends a create in this model's
        database, carrying the fields that encode. */
    method Create(data: map<string, Value>, metaData: bool, response: Pages.Page)
      returns (e: Exchange<map<string, Value>>)
      ensures e.request == Some(CreateNotionPage(databaseId, LegacyModel.DroppingPayload(schema, data)))
      ensures e.result == LegacyCodec.PrettyDbData(response, metaData)
      ensures Valid() ==>
        && "created_by" !in e.request.value.fields["properties"].fields
        && "last_edited_by" !in e.request.value.fields["properties"].fields
    {
      if Valid() {
        LegacyModel.ReservedActorsNeverSent(schema, data);
      }
      var properties := LegacyModel.EncodeDropping(schema, data);
      e := Exchange(Some(CreateNotionPage(databaseId, properties)), LegacyCodec.PrettyDbData(response, metaData));
    }
  }
}
