/** What the two legacy `Model` classes (src/modal.ts and src/schema.ts) share:
    the `Object.keys(data).reduce(...)` that merges per-field fragments into
    one payload, in its catch-and-drop form and in its all-or-nothing form,
    and the result shaping of `find`. */
module LegacyModel {
  import opened Wire
  import Pages
  import Schemas
  import LibCodec
  import LegacyCodec
  import LibModel
  import opened Requests

  /** `getMutatePropertyFromData[this.type(key)](value, key)`: throws for an
      undeclared field (the table has no `undefined` entry), for the kinds
      without an encoder, and for a multi-select value that is not a list. */
  function Fragment(schema: map<string, Kind>, key: string, value: Value): (r: Result<map<string, Value>>)
    ensures r.Success? <==>
      && key in schema
      && LegacyCodec.ClientKind(schema[key]) && schema[key] != CreatedBy
      && (schema[key] == MultiSelect ==> value.Arr?)
    ensures r.Failure? ==> r.error == TypeError
    ensures r.Success? ==> r.value.Keys == {key}
  {
    if key in schema then LegacyCodec.GetMutatePropertyFromData(schema[key], value, key) else Failure(TypeError)
  }

  /** The payload the catch-and-drop reduce has built once it has visited the
      fields in `visited`: exactly the visited fields that encode, each with
      its own encoding. */
  function Kept(schema: map<string, Kind>, data: map<string, Value>, visited: set<string>): (payload: map<string, Value>)
    requires visited <= data.Keys
    ensures payload.Keys <= visited
    ensures forall key | key in visited :: key in payload <==> Fragment(schema, key, data[key]).Success?
    ensures forall key | key in payload :: payload[key] == Fragment(schema, key, data[key]).value[key]
  {
    map key | key in visited && Fragment(schema, key, data[key]).Success? :: Fragment(schema, key, data[key]).value[key]
  }

  /** Visiting one more field adds its fragment when it encodes and nothing
      otherwise. */
  lemma {:induction false} KeptStep(schema: map<string, Kind>, data: map<string, Value>, visited: set<string>, key: string)
    requires visited <= data.Keys && key in data && key !in visited
    ensures var fragment := Fragment(schema, key, data[key]);
      Kept(schema, data, visited + {key})
        == if fragment.Success? then Kept(schema, data, visited) + fragment.value else Kept(schema, data, visited)
  {
    var fragment := Fragment(schema, key, data[key]);
    var before, after := Kept(schema, data, visited), Kept(schema, data, visited + {key});
    if fragment.Success? {
      assert after.Keys == before.Keys + {key};
    } else {
      assert after.Keys == before.Keys;
    }
  }

  /** The payload `update` sends: the fields of `data` that encode; every
      other field is dropped. */
  function DroppingPayload(schema: map<string, Kind>, data: map<string, Value>): (payload: map<string, Value>)
    ensures payload.Keys <= data.Keys
    ensures forall key | key in data :: key in payload <==> Fragment(schema, key, data[key]).Success?
    ensures forall key | key in payload :: payload[key] == Fragment(schema, key, data[key]).value[key]
  {
    Kept(schema, data, data.Keys)
  }

  /** The all-or-nothing payload: it throws when any field fails, and is
      otherwise the payload that drops nothing. */
  function StrictPayload(schema: map<string, Kind>, data: map<string, Value>): (r: Result<map<string, Value>>)
    ensures r.Success? <==> forall key | key in data :: Fragment(schema, key, data[key]).Success?
    ensures r.Success? ==> r.value.Keys == data.Keys && r.value == DroppingPayload(schema, data)
  {
    if forall key | key in data :: Fragment(schema, key, data[key]).Success? then
      Success(DroppingPayload(schema, data))
    else
      Failure(TypeError)
  }

  /** One field that does not encode makes the all-or-nothing payload throw
      the error that field raised. */
  lemma {:induction false} StrictFailsAt(schema: map<string, Kind>, data: map<string, Value>, key: string)
    requires key in data && Fragment(schema, key, data[key]).Failure?
    ensures StrictPayload(schema, data) == Failure(Fragment(schema, key, data[key]).error)
  {
  }

  /** With the record fields laid over the schema, `created_by` and
      `last_edited_by` never reach a payload: the catch-and-drop reduce
      silently leaves them out and the all-or-nothing one throws. */
  lemma {:induction false} ReservedActorsNeverSent(schema: map<string, Kind>, data: map<string, Value>)
    requires Schemas.HasReserved(schema)
    ensures "created_by" !in DroppingPayload(schema, data) && "last_edited_by" !in DroppingPayload(schema, data)
    ensures "created_by" in data || "last_edited_by" in data ==> StrictPayload(schema, data).Failure?
  {
    assert "created_by" in Schemas.Reserved && "last_edited_by" in Schemas.Reserved;
    if "created_by" in data {
      assert Fragment(schema, "created_by", data["created_by"]).Failure?;
    }
    if "last_edited_by" in data {
      assert Fragment(schema, "last_edited_by", data["last_edited_by"]).Failure?;
    }
  }

  /** Off the `files` kind, one field encodes in the legacy model exactly
      when the current model can write it, and to the same fragment. */
  lemma {:induction false} FragmentMatchesCurrent(m: LibModel.Model, key: string, value: Value)
    requires key in m.schema.notionSchema ==> m.schema.notionSchema[key] != Files
    ensures Fragment(m.schema.notionSchema, key, value).Success? <==> m.Writable(key, value)
    ensures m.Writable(key, value) ==>
      Fragment(m.schema.notionSchema, key, value).value
        == LibCodec.GetNotionPropertyFromData(m.schema.notionSchema[key], value, key).value
  {
    if key in m.schema.notionSchema {
      LegacyCodec.EncodersAgreeOffFiles(m.schema.notionSchema[key], value, key);
    }
  }

  /** Off the `files` kind, the legacy all-or-nothing payload is the
      current model's `convertToNotionProperties`: both throw on the same
      data, and otherwise send the same payload. */
  lemma {:induction false} StrictMatchesCurrentConversion(m: LibModel.Model, data: map<string, Value>)
    requires forall key | key in data && key in m.schema.notionSchema :: m.schema.notionSchema[key] != Files
    ensures StrictPayload(m.schema.notionSchema, data).Success? <==> m.ConvertToNotionProperties(data).Success?
    ensures StrictPayload(m.schema.notionSchema, data).Success? ==>
      StrictPayload(m.schema.notionSchema, data).value == m.ConvertToNotionProperties(data).value
  {
    var schema := m.schema.notionSchema;
    forall key | key in data
      ensures Fragment(schema, key, data[key]).Success? <==> m.Writable(key, data[key])
      ensures m.Writable(key, data[key]) ==>
        Fragment(schema, key, data[key]).value == LibCodec.GetNotionPropertyFromData(schema[key], data[key], key).value
    {
      FragmentMatchesCurrent(m, key, data[key]);
    }
    var strict, current := StrictPayload(schema, data), m.ConvertToNotionProperties(data);
    if strict.Success? {
      assert strict.value.Keys == current.value.Keys;
      assert forall key | key in data :: strict.value[key] == current.value[key];
    }
  }

  /** The reduce with a `try`/`catch` around each field, in whatever order
      `Object.keys` lists the fields: a field that throws leaves the
      accumulator as it was. */
  method EncodeDropping(schema: map<string, Kind>, data: map<string, Value>) returns (payload: map<string, Value>)
    ensures payload == DroppingPayload(schema, data)
  {
    payload := map[];
    var todo := data.Keys;
    while todo != {}
      invariant todo <= data.Keys
      invariant payload == Kept(schema, data, data.Keys - todo)
      decreases todo
    {
      var key :| key in todo;
      var fragment := Fragment(schema, key, data[key]);
      if fragment.Success? {
        payload := payload + fragment.value;
      }
      KeptStep(schema, data, data.Keys - todo, key);
      assert data.Keys - (todo - {key}) == (data.Keys - todo) + {key};
      todo := todo - {key};
    }
  }

  /** The reduce without a `catch`: the first field that throws aborts it. */
  method EncodeStrict(schema: map<string, Kind>, data: map<string, Value>) returns (r: Result<map<string, Value>>)
    ensures r == StrictPayload(schema, data)
  {
    var payload := map[];
    var todo := data.Keys;
    while todo != {}
      invariant todo <= data.Keys
      invariant forall key | key in data.Keys - todo :: Fragment(schema, key, data[key]).Success?
      invariant payload == Kept(schema, data, data.Keys - todo)
      decreases todo
    {
      var key :| key in todo;
      var fragment := Fragment(schema, key, data[key]);
      if fragment.Failure? {
        StrictFailsAt(schema, data, key);
        return Failure(fragment.error);
      }
      payload := payload + fragment.value;
      KeptStep(schema, data, data.Keys - todo, key);
      assert data.Keys - (todo - {key}) == (data.Keys - todo) + {key};
      todo := todo - {key};
    }
    assert data.Keys - todo == data.Keys;
    return Success(payload);
  }

  /** The result of `find` in both legacy files: an empty response gives no
      records, count 0 and `hasMore` false whatever the response's
      `has_more`; otherwise the records keep the response's order, the count
      is their number and `hasMore` is copied. */
  function ShapeFind(response: QueryResponse, metadata: bool): (r: Result<FilterResponse>)
    ensures |response.results| == 0 ==> r == Success(FilterResponse([], 0, false))
    ensures |response.results| > 0 ==>
      (r.Success? <==>
        forall i | 0 <= i < |response.results| :: LegacyCodec.PrettyDbData(response.results[i], metadata).Success?)
    ensures |response.results| > 0 && r.Success? ==>
      && r.value.count == |r.value.results| == |response.results|
      && r.value.hasMore == response.has_more
      && forall i | 0 <= i < |response.results| ::
           r.value.results[i] == LegacyCodec.PrettyDbData(response.results[i], metadata).value
  {
    if |response.results| > 0 then
      match Pages.PrettyAll(LegacyCodec.ParseNotionParams, response.results, metadata)
      case Failure(err) => Failure(err)
      case Success(records) => Success(FilterResponse(records, |records|, response.has_more))
    else
      Success(FilterResponse([], 0, false))
  }
}
