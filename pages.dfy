/** Pages as the Notion API returns them, and `prettyDbData`: decode every
    property of a page by its own wire `type`, optionally on top of the six
    envelope fields. Both codecs share this shape; they differ only in the
    table that `parse` looks up. */
module Pages {
  import opened Wire
  import Schemas

  /** A page object as the client returns it: a full page, with the six
      envelope fields and the property map, or a partial page, which carries
      only its id and has no `properties`. */
  datatype Page =
    | Page(
        id: Value,
        created_time: Value,
        last_edited_time: Value,
        created_by: Value,
        last_edited_by: Value,
        url: Value,
        properties: map<string, Value>)
    | PartialPage(id: Value)

  /** `parseNotionParams[typeName](item)`: a codec's decode table. */
  type Parser = (string, Value) -> Result<Value>

  /** The envelope copied into a record when metadata is requested. */
  function Envelope(page: Page): (m: map<string, Value>)
    requires page.Page?
    ensures m.Keys == Schemas.RecordKeys
  {
    map[
      "id" := page.id,
      "created_time" := page.created_time,
      "last_edited_time" := page.last_edited_time,
      "created_by" := page.created_by,
      "last_edited_by" := page.last_edited_by,
      "url" := page.url
    ]
  }

  /** The seed of the reduce: the envelope when `metaData`, else `{}`. */
  function Seed(page: Page, metaData: bool): map<string, Value>
    requires page.Page?
  {
    if metaData then Envelope(page) else map[]
  }

  /** `parseNotionParams[property.type](property)`. A `type` that is not a
      string names no table entry, so the call throws. */
  function DecodeProperty(parse: Parser, property: Value): Result<Value> {
    var kind :- Prop(property, "type");
    if kind.Str? then parse(kind.s, property) else Failure(TypeError)
  }

  ghost predicate AllDecode(parse: Parser, props: map<string, Value>) {
    forall k | k in props :: DecodeProperty(parse, props[k]).Success?
  }

  /** `prettyDbData(page, metaData)`: the record of a page. It fails on a
      partial page (`Object.keys` of its missing `properties` throws) and
      when any property fails to decode; otherwise its keys are the page's
      property keys plus the envelope keys when `metaData`, every property
      holds its decoded value, and an envelope field keeps its wire value
      unless a property of the same name overrides it. */
  function Pretty(parse: Parser, page: Page, metaData: bool): (r: Result<map<string, Value>>)
    ensures page.PartialPage? ==> r == Failure(TypeError)
    ensures r.Success? <==> page.Page? && AllDecode(parse, page.properties)
    ensures r.Success? ==>
      r.value.Keys == page.properties.Keys + (if metaData then Schemas.RecordKeys else {})
    ensures r.Success? ==>
      forall k | k in page.properties :: r.value[k] == DecodeProperty(parse, page.properties[k]).value
    ensures r.Success? && metaData ==>
      forall k | k in Schemas.RecordKeys && k !in page.properties :: r.value[k] == Envelope(page)[k]
  {
    if page.PartialPage? then Failure(TypeError)
    else
      var props := page.properties;
      if forall k | k in props :: DecodeProperty(parse, props[k]).Success? then
        Success(Seed(page, metaData) + map k | k in props :: DecodeProperty(parse, props[k]).value)
      else
        Failure(TypeError)
  }

  /** The source's `Object.keys(properties).reduce(...)` over one enumeration
      `keys` of the property names: each step decodes one property and
      spreads it over the accumulator; the first failure aborts. */
  function Reduce(parse: Parser, props: map<string, Value>, keys: seq<string>, acc: map<string, Value>)
    : (r: Result<map<string, Value>>)
    requires forall i | 0 <= i < |keys| :: keys[i] in props
    ensures r.Failure? ==> exists i | 0 <= i < |keys| :: DecodeProperty(parse, props[keys[i]]).Failure?
    ensures r.Success? ==> forall k :: k in r.value <==> k in acc || k in keys
    decreases |keys|
  {
    if keys == [] then Success(acc)
    else
      var v :- DecodeProperty(parse, props[keys[0]]);
      Reduce(parse, props, keys[1..], acc[keys[0] := v])
  }

  /** The reduce over `keys` succeeds iff every listed property decodes, and
      then adds exactly the listed properties to the accumulator. */
  lemma {:induction false} ReduceAdds(
    parse: Parser, props: map<string, Value>, keys: seq<string>, acc: map<string, Value>)
    requires forall i | 0 <= i < |keys| :: keys[i] in props
    ensures var r := Reduce(parse, props, keys, acc);
      && (r.Success? <==> forall k | k in keys :: DecodeProperty(parse, props[k]).Success?)
      && (r.Success? ==> r.value == acc + map k | k in keys :: DecodeProperty(parse, props[k]).value)
    decreases |keys|
  {
    if keys != [] {
      var k0 := keys[0];
      var rest := keys[1..];
      assert forall k :: k in keys <==> k == k0 || k in rest;
      var d := DecodeProperty(parse, props[k0]);
      if d.Success? {
        ReduceAdds(parse, props, rest, acc[k0 := d.value]);
        var r := Reduce(parse, props, keys, acc);
        if r.Success? {
          var added := map k | k in rest :: DecodeProperty(parse, props[k]).value;
          var all := map k | k in keys :: DecodeProperty(parse, props[k]).value;
          assert r.value == acc[k0 := d.value] + added;
          assert acc[k0 := d.value] + added == acc + all;
        }
      }
    }
  }

  /** Whatever order `Object.keys` lists the properties in, the reduce
      throws exactly when `Pretty` does and otherwise builds the same record:
      the record does not depend on the enumeration order. (Which exception
      is thrown may: the first failing property in that order raises it.) */
  lemma {:induction false} ReduceIsPretty(parse: Parser, page: Page, metaData: bool, keys: seq<string>)
    requires page.Page?
    requires forall k :: k in keys <==> k in page.properties
    ensures var r := Reduce(parse, page.properties, keys, Seed(page, metaData));
      && (r.Success? <==> Pretty(parse, page, metaData).Success?)
      && (r.Success? ==> r == Pretty(parse, page, metaData))
  {
    var props := page.properties;
    ReduceAdds(parse, props, keys, Seed(page, metaData));
    if forall k | k in props :: DecodeProperty(parse, props[k]).Success? {
      assert (map k | k in keys :: DecodeProperty(parse, props[k]).value)
          == (map k | k in props :: DecodeProperty(parse, props[k]).value);
    }
  }

  /** Two decode tables that agree on every property of a page give the same record. */
  lemma {:induction false} PrettyCongruent(parse: Parser, parse': Parser, page: Page, metaData: bool)
    requires page.Page? ==> forall k | k in page.properties ::
      DecodeProperty(parse, page.properties[k]) == DecodeProperty(parse', page.properties[k])
    ensures Pretty(parse, page, metaData) == Pretty(parse', page, metaData)
  {
    if page.PartialPage? {
      return;
    }
    var props := page.properties;
    if AllDecode(parse, props) {
      assert AllDecode(parse', props);
      assert (map k | k in props :: DecodeProperty(parse, props[k]).value)
          == (map k | k in props :: DecodeProperty(parse', props[k]).value);
    }
  }

  /** `xs.map(f)` for an `f` that may throw: fails when any element fails,
      and otherwise keeps the number and order of the elements. */
  function MapAll<A, B>(f: A -> Result<B>, xs: seq<A>): (r: Result<seq<B>>)
    ensures r.Success? <==> forall i | 0 <= i < |xs| :: f(xs[i]).Success?
    ensures r.Success? ==> |r.value| == |xs|
    ensures r.Success? ==> forall i | 0 <= i < |xs| :: r.value[i] == f(xs[i]).value
  {
    if xs == [] then Success([])
    else
      var first :- f(xs[0]);
      var rest :- MapAll(f, xs[1..]);
      assert forall i | 1 <= i < |xs| :: xs[i] == xs[1..][i - 1];
      Success([first] + rest)
  }

  /** `results.map(item => prettyDbData(item, metaData))`. */
  function PrettyAll(parse: Parser, pages: seq<Page>, metaData: bool): (r: Result<seq<map<string, Value>>>)
    ensures r.Success? <==> forall i | 0 <= i < |pages| :: Pretty(parse, pages[i], metaData).Success?
    ensures r.Success? ==> |r.value| == |pages|
    ensures r.Success? ==> forall i | 0 <= i < |pages| :: r.value[i] == Pretty(parse, pages[i], metaData).value
  {
    MapAll(page => Pretty(parse, page, metaData), pages)
  }
}
