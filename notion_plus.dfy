/** `NotionPlus` of src/lib/notion-plus.ts: a process-wide instance built once
    from a token, holding a dictionary of models keyed by database id and
    serialised schema. The Notion client the instance wraps is represented
    by the token it was built from; the request bodies of its methods are
    those of module Requests. */
module NotionPlus {
  import Schemas
  import LibModel

  /** `${databaseId}_${JSON.stringify(schema)}`. The serialisation is not
      modelled: callers pass the serialised text. */
  function ModelKey(databaseId: string, schemaJson: string): (key: string)
    ensures |key| == |databaseId| + 1 + |schemaJson|
    ensures key[..|databaseId|] == databaseId && key[|databaseId|] == '_'
    ensures key[|databaseId| + 1..] == schemaJson
  {
    databaseId + "_" + schemaJson
  }

  /** For database ids without `_` (Notion ids are hexadecimal with dashes)
      the key determines both the id and the serialised schema, so two
      different models never share a cache entry. */
  lemma {:induction false} ModelKeyInjective(id1: string, json1: string, id2: string, json2: string)
    requires '_' !in id1 && '_' !in id2
    ensures ModelKey(id1, json1) == ModelKey(id2, json2) <==> id1 == id2 && json1 == json2
  {
    var k1, k2 := ModelKey(id1, json1), ModelKey(id2, json2);
    if k1 == k2 {
      // the separator sits at |id1| in one key and at |id2| in the other,
      // and neither id contains it
      if |id1| != |id2| {
        assert false;
      }
      assert id1 == k1[..|id1|] == k2[..|id2|] == id2;
    }
  }

  /** With an `_` inside an id the key is ambiguous: database `a_b` with
      schema text `c` and database `a` with schema text `b_c` share a key. */
  lemma ModelKeyAmbiguousWithUnderscore()
    ensures ModelKey("a_b", "c") == ModelKey("a", "b_c")
  {
  }

  class NotionPlus {
    const notionToken: string
    var models: map<string, LibModel.Model>

    /** The private constructor, reached only from `GetInstance`. */
    constructor(notionToken: string)
      ensures this.notionToken == notionToken && models == map[]
    {
      this.notionToken := notionToken;
      models := map[];
    }

    /** `getModel(databaseId, schema)`: construct-if-absent. A known key
        returns the stored model and changes nothing; a new key stores one
        fresh model under it and leaves every other entry as it was. */
    method GetModel(databaseId: string, schema: Schemas.Schema, schemaJson: string) returns (m: LibModel.Model)
      modifies this
      ensures var key := ModelKey(databaseId, schemaJson);
        && key in models && models[key] == m
        && (key in old(models) ==> m == old(models)[key] && models == old(models))
        && (key !in old(models) ==>
              && fresh(m) && models == old(models)[key := m]
              && m.notionPlus == this && m.databaseId == databaseId && m.schema == schema)
      ensures old(models).Keys <= models.Keys
    {
      var key := ModelKey(databaseId, schemaJson);
      if key !in models {
        // the source passes NotionPlus.instance, which is `this`: the
        // constructor is private and only GetInstance calls it
        var created := new LibModel.Model(this, databaseId, schema);
        models := models[key := created];
      }
      m := models[key];
    }
  }

  /** The class-level `static instance` slot of `NotionPlus`. */
  class Statics {
    var instance: NotionPlus?

    constructor()
      ensures instance == null
    {
      instance := null;
    }

    /** `getInstance(token)`: builds the instance on the first call only;
        later calls return it and ignore their token. */
    method GetInstance(notionToken: string) returns (np: NotionPlus)
      modifies this
      ensures old(instance) != null ==> np == old(instance) && instance == old(instance)
      ensures old(instance) == null ==>
        fresh(np) && instance == np && np.notionToken == notionToken && np.models == map[]
    {
      if instance == null {
        instance := new NotionPlus(notionToken);
      }
      np := instance;
    }
  }

  /** Two `getModel` calls with the same database id and schema text return
      the same model, whatever schema objects they pass. */
  method GetModelTwice(np: NotionPlus, databaseId: string, first: Schemas.Schema, second: Schemas.Schema, schemaJson: string)
    returns (m1: LibModel.Model, m2: LibModel.Model)
    modifies np
    ensures m1 == m2
  {
    m1 := np.GetModel(databaseId, first, schemaJson);
    m2 := np.GetModel(databaseId, second, schemaJson);
  }

  /** Two `getInstance` calls return the same instance, built from the first
      call's token. */
  method GetInstanceTwice(statics: Statics, token1: string, token2: string) returns (np1: NotionPlus, np2: NotionPlus)
    requires statics.instance == null
    modifies statics
    ensures np1 == np2 && np2.notionToken == token1
  {
    np1 := statics.GetInstance(token1);
    np2 := statics.GetInstance(token2);
  }
}
