/** The entries of the two dispatch tables, `parseNotionParams` and
    `getNotionPropertyFromData` / `getMutatePropertyFromData`. Both codecs
    (src/lib/utils.ts and src/utils.ts) write these same entries; each codec
    module says which entry sits under which kind. */
module Entries {
  import opened Wire

  /** A decoder entry: reads a wire property item into a plain value. */
  datatype Decoder =
    | FirstPlainText(key: string)   // `item[key][0]?.plain_text`
    | OptionName(key: string)       // `item[key] ? item[key].name : ''`
    | OptionNames                   // `item.multi_select.map(o => o.name)`
    | Creator                       // person email or bot owner of `item.created_by`
    | FirstFileUrl                  // url of `item.files[0]`
    | Member(key: string)           // `item[key]`

  /** An encoder entry: builds the wire object stored under the field name. */
  datatype Encoder =
    | TextRun(key: string)          // `{[key]: [{text: {content: v}}]}`
    | Named(key: string)            // `{[key]: {name: v}}`
    | NamedList                     // `{multi_select: v.map(x => ({name: x}))}`
    | ExternalFile                  // `{name: v, type: 'external', external: {url: v}}`
    | Plain(key: string)            // `{[key]: v}`

  /** Title and rich text: the plain text of the first run, or `undefined`
      when there is no first run. */
  function DecodeFirstPlainText(key: string, item: Value): (r: Result<Value>)
    ensures r.Failure? <==> Nullish(item) || Nullish(Field(item, key))
    ensures !Nullish(item) && Field(item, key) == Arr([]) ==> r == Success(Undefined)
    ensures !Nullish(item) && Field(item, key).Arr? && Field(item, key).items != [] ==>
      var run := Field(item, key).items[0];
      r == Success(if Nullish(run) then Undefined else Field(run, "plain_text"))
  {
    var runs :- Prop(item, key);
    var first :- At0(runs);
    if Nullish(first) then Success(Undefined) else Prop(first, "plain_text")
  }

  /** Select and status: the option's name, or the empty string when the
      option is unset (any falsy value). */
  function DecodeOptionName(key: string, item: Value): (r: Result<Value>)
    ensures r.Failure? <==> Nullish(item)
    ensures r.Success? && !Truthy(Field(item, key)) ==> r.value == Str("")
    ensures r.Success? && Truthy(Field(item, key)) ==> r.value == Field(Field(item, key), "name")
  {
    var option :- Prop(item, key);
    if Truthy(option) then Prop(option, "name") else Success(Str(""))
  }

  /** `options.map(o => o.name)`. */
  function Names(options: seq<Value>): (r: Result<seq<Value>>)
    ensures r.Failure? <==> exists i :: 0 <= i < |options| && Nullish(options[i])
    ensures r.Success? ==> |r.value| == |options|
    ensures r.Success? ==> forall i :: 0 <= i < |options| ==> r.value[i] == Field(options[i], "name")
  {
    if options == [] then Success([])
    else
      var first :- Prop(options[0], "name");
      var rest :- Names(options[1..]);
      assert forall i :: 1 <= i < |options| ==> options[i] == options[1..][i - 1];
      Success([first] + rest)
  }

  /** Multi-select: the option names, in wire order, duplicates kept. */
  function DecodeOptionNames(item: Value): (r: Result<Value>)
    ensures r.Failure? <==>
      Nullish(item) || !Field(item, "multi_select").Arr? ||
      exists i :: 0 <= i < |Field(item, "multi_select").items| && Nullish(Field(item, "multi_select").items[i])
    ensures r.Success? ==>
      var options := Field(item, "multi_select").items;
      r.value.Arr? && |r.value.items| == |options| &&
      forall i :: 0 <= i < |options| ==> r.value.items[i] == Field(options[i], "name")
  {
    var list :- Prop(item, "multi_select");
    if !list.Arr? then Failure(TypeError)  // `.map` is not a function
    else
      var names :- Names(list.items);
      Success(Arr(names))
  }

  /** Created-by: the creator's email when its `type` is `'person'`, its bot
      `owner` otherwise. */
  function DecodeCreator(item: Value): (r: Result<Value>)
    ensures
      var user := Field(item, "created_by");
      var isPerson := Field(user, "type") == Str("person");
      && (r.Failure? <==>
            Nullish(item) || Nullish(user) ||
            (isPerson && Nullish(Field(user, "person"))) ||
            (!isPerson && Nullish(Field(user, "bot"))))
      && (r.Success? && isPerson ==> r.value == Field(Field(user, "person"), "email"))
      && (r.Success? && !isPerson ==> r.value == Field(Field(user, "bot"), "owner"))
  {
    var user :- Prop(item, "created_by");
    var kind :- Prop(user, "type");
    // `user` is known not to be nullish here, so `user.person` cannot throw
    if kind == Str("person") then Prop(Field(user, "person"), "email")
    else Prop(Field(user, "bot"), "owner")
  }

  /** Files: the first file's external url when its `type` is `'external'`,
      its hosted `file.url` otherwise; an empty list fails. */
  function DecodeFirstFileUrl(item: Value): (r: Result<Value>)
    ensures !Nullish(item) && Field(item, "files") == Arr([]) ==> r.Failure?
    ensures
      var file := Elem0(Field(item, "files"));
      var external := Field(file, "type") == Str("external");
      && (r.Failure? <==>
            Nullish(item) || Nullish(Field(item, "files")) || Nullish(file) ||
            (external && Nullish(Field(file, "external"))) ||
            (!external && Nullish(Field(file, "file"))))
      && (r.Success? && external ==> r.value == Field(Field(file, "external"), "url"))
      && (r.Success? && !external ==> r.value == Field(Field(file, "file"), "url"))
  {
    var files :- Prop(item, "files");
    var file :- At0(files);
    var kind :- Prop(file, "type");
    if kind == Str("external") then Prop(Field(file, "external"), "url")
    else Prop(Field(file, "file"), "url")
  }

  /** Runs one decoder entry on a property item. */
  function Decode(d: Decoder, item: Value): Result<Value> {
    match d
    case FirstPlainText(key) => DecodeFirstPlainText(key, item)
    case OptionName(key) => DecodeOptionName(key, item)
    case OptionNames => DecodeOptionNames(item)
    case Creator => DecodeCreator(item)
    case FirstFileUrl => DecodeFirstFileUrl(item)
    case Member(key) => Prop(item, key)
  }

  /** `values.map(x => ({name: x}))`. */
  function NameAll(values: seq<Value>): (r: seq<Value>)
    ensures |r| == |values|
    ensures forall i :: 0 <= i < |values| ==> r[i] == Obj(map["name" := values[i]])
  {
    if values == [] then [] else [Obj(map["name" := values[0]])] + NameAll(values[1..])
  }

  /** Runs one encoder entry on a plain value: the wire object that goes under
      the field name. Only the multi-select entry can throw, when the value has
      no `.map` (it is not an array). */
  function Encode(e: Encoder, v: Value): (r: Result<Value>)
    ensures r.Failure? <==> e == NamedList && !v.Arr?
    ensures r.Failure? ==> r.error == TypeError
    ensures r.Success? ==> r.value.Obj?
    ensures e.TextRun? ==> r == Success(Obj(map[e.key := Arr([Obj(map["text" := Obj(map["content" := v])])])]))
    ensures e.Named? ==> r == Success(Obj(map[e.key := Obj(map["name" := v])]))
    ensures e.NamedList? && v.Arr? ==> r == Success(Obj(map["multi_select" := Arr(NameAll(v.items))]))
    ensures e.ExternalFile? ==>
      r == Success(Obj(map["name" := v, "type" := Str("external"), "external" := Obj(map["url" := v])]))
    ensures e.Plain? ==> r == Success(Obj(map[e.key := v]))
  {
    match e
    case TextRun(key) => Success(Obj(map[key := Arr([Obj(map["text" := Obj(map["content" := v])])])]))
    case Named(key) => Success(Obj(map[key := Obj(map["name" := v])]))
    case NamedList =>
      if v.Arr? then Success(Obj(map["multi_select" := Arr(NameAll(v.items))])) else Failure(TypeError)
    case ExternalFile => Success(Obj(map["name" := v, "type" := Str("external"), "external" := Obj(map["url" := v])]))
    case Plain(key) => Success(Obj(map[key := v]))
  }

  /** The decoder that reads back what an encoder writes, when there is one. */
  function Inverse(e: Encoder): Option<Decoder> {
    match e
    case Named(key) => Some(OptionName(key))
    case NamedList => Some(OptionNames)
    case Plain(key) => Some(Member(key))
    case _ => None
  }

  /** Round trip: decoding with the matching entry gives back exactly the
      encoded value, for every value the encoder accepts. */
  lemma {:induction false} DecodeEncode(e: Encoder, v: Value)
    requires Inverse(e).Some?
    requires Encode(e, v).Success?
    ensures Decode(Inverse(e).value, Encode(e, v).value) == Success(v)
  {
    match e
    case Named(key) =>
    case NamedList =>
      var wrapped := NameAll(v.items);
      var r := Names(wrapped);
      assert r.Success?;
      assert r.value == v.items;
    case Plain(key) =>
  }

  /** Text entries lose the value: the encoder writes `text.content`, the
      decoder reads `plain_text`, so decoding gives `undefined`. */
  lemma TextRunReadsBackUndefined(key: string, v: Value)
    ensures Decode(FirstPlainText(key), Encode(TextRun(key), v).value) == Success(Undefined)
  {
    var inner := Encode(TextRun(key), v).value;
    assert Field(inner, key) == Arr([Obj(map["text" := Obj(map["content" := v])])]);
  }

  /** The external-file entry writes no `files` list, so the file decoder
      cannot read it back. */
  lemma ExternalFileUnreadable(v: Value)
    ensures Decode(FirstFileUrl, Encode(ExternalFile, v).value).Failure?
  {
    var inner := Encode(ExternalFile, v).value;
    assert Field(inner, "files") == Undefined;
  }
}
