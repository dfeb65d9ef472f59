/** The legacy property codec, src/utils.ts: the same tables as the current
    codec except that `files` is a plain scalar in both directions. Its kinds
    are the sixteen of `EnumPropertyTypes` in src/client.ts (no `unique_id`). */
module LegacyCodec {
  import opened Wire
  import opened Entries
  import Pages
  import Schemas
  import LibCodec

  /** `EnumPropertyTypes` of src/client.ts: every kind but `unique_id`. */
  predicate ClientKind(k: Kind) {
    k != UniqueId
  }

  /** The kinds whose encoder and decoder are exact inverses here. */
  const RoundTripKinds: set<Kind> := LibCodec.RoundTripKinds + {Files}

  /** The entry of `parseNotionParams` for a kind: one for each of the
      sixteen client kinds. */
  function DecoderFor(k: Kind): (d: Option<Decoder>)
    ensures d.Some? <==> ClientKind(k)
  {
    match k
    case Title => Some(FirstPlainText("title"))
    case RichText => Some(FirstPlainText("rich_text"))
    case Select => Some(OptionName("select"))
    case Status => Some(OptionName("status"))
    case MultiSelect => Some(OptionNames)
    case CreatedBy => Some(Creator)
    case UniqueId => None
    // number, files, checkbox, date, string, boolean, email, url, phone_number, created_time
    case _ => Some(Member(KindName(k)))
  }

  /** The entry of `getMutatePropertyFromData` for a kind: every client kind
      but `created_by`. */
  function EncoderFor(k: Kind): (e: Option<Encoder>)
    ensures e.Some? <==> ClientKind(k) && k != CreatedBy
  {
    match k
    case Title => Some(TextRun("title"))
    case RichText => Some(TextRun("rich_text"))
    case Select => Some(Named("select"))
    case Status => Some(Named("status"))
    case MultiSelect => Some(NamedList)
    case CreatedBy => None
    case UniqueId => None
    // number, files, checkbox, date, string, boolean, email, url, phone_number, created_time
    case _ => Some(Plain(KindName(k)))
  }

  /** `parseNotionParams[typeName](item)`. */
  function ParseNotionParams(typeName: string, item: Value): (r: Result<Value>)
    ensures ParseKind(typeName).None? || typeName == "unique_id" ==> r.Failure?
    ensures ParseKind(typeName).Some? && typeName != "unique_id" ==>
      r == Decode(DecoderFor(ParseKind(typeName).value).value, item)
  {
    match ParseKind(typeName)
    case None => Failure(TypeError)
    case Some(k) =>
      match DecoderFor(k)
      case None => Failure(TypeError)
      case Some(d) => Decode(d, item)
  }

  /** `getMutatePropertyFromData[k](v, property)`. */
  function GetMutatePropertyFromData(k: Kind, v: Value, property: string): (r: Result<map<string, Value>>)
    ensures r.Success? <==> ClientKind(k) && k != CreatedBy && (k == MultiSelect ==> v.Arr?)
    ensures r.Failure? ==> r.error == TypeError
    ensures r.Success? ==> r.value.Keys == {property}
  {
    match EncoderFor(k)
    case None => Failure(TypeError)
    case Some(e) =>
      var inner :- Encode(e, v);
      Success(map[property := inner])
  }

  /** `prettyDbData(page, metaData)` with this codec's decode table. */
  function PrettyDbData(page: Pages.Page, metaData: bool): (r: Result<map<string, Value>>)
    ensures r.Success? <==>
      page.Page? && forall k | k in page.properties :: Pages.DecodeProperty(ParseNotionParams, page.properties[k]).Success?
    ensures page.Page? && (exists k | k in page.properties :: Field(page.properties[k], "type") == Str("unique_id")) ==>
      r.Failure?
    ensures r.Success? ==>
      r.value.Keys == page.properties.Keys + (if metaData then Schemas.RecordKeys else {})
    ensures r.Success? ==> forall k | k in page.properties ::
      r.value[k] == Pages.DecodeProperty(ParseNotionParams, page.properties[k]).value
  {
    Pages.Pretty(ParseNotionParams, page, metaData)
  }

  /** For a round-trip kind the decoder entry is the inverse of the encoder entry. */
  lemma EntriesMatch(k: Kind)
    requires k in RoundTripKinds
    ensures EncoderFor(k).Some? && Inverse(EncoderFor(k).value) == DecoderFor(k)
  {
    match k
    case Select =>
    case Status =>
    case MultiSelect =>
    case _ =>
  }

  /** Round trip for every round-trip kind, files included: files is written
      as `{files: v}` and read back as `item.files`. */
  lemma {:induction false} RoundTrip(k: Kind, v: Value, property: string)
    requires k in RoundTripKinds
    requires k == MultiSelect ==> v.Arr?
    ensures GetMutatePropertyFromData(k, v, property).Success?
    ensures ParseNotionParams(KindName(k), GetMutatePropertyFromData(k, v, property).value[property]) == Success(v)
  {
    var e := EncoderFor(k).value;
    EntriesMatch(k);
    DecodeEncode(e, v);
    var inner := Encode(e, v).value;
    assert GetMutatePropertyFromData(k, v, property).value[property] == inner;
    assert ParseKind(KindName(k)) == Some(k);
    assert ParseNotionParams(KindName(k), inner) == Decode(DecoderFor(k).value, inner);
  }

  /** The two codecs decode every wire type other than `files` alike. */
  lemma {:induction false} DecodersAgreeOffFiles(typeName: string, item: Value)
    requires typeName != "files"
    ensures ParseNotionParams(typeName, item) == LibCodec.ParseNotionParams(typeName, item)
  {
    match ParseKind(typeName)
    case None =>
    case Some(k) =>
      assert k != Files;
      assert DecoderFor(k) == LibCodec.DecoderFor(k);
  }

  /** The two codecs encode every kind other than `files` alike. */
  lemma {:induction false} EncodersAgreeOffFiles(k: Kind, v: Value, property: string)
    requires k != Files
    ensures GetMutatePropertyFromData(k, v, property) == LibCodec.GetNotionPropertyFromData(k, v, property)
  {
    assert EncoderFor(k) == LibCodec.EncoderFor(k);
  }

  /** On a page with no `files` property the two `prettyDbData` give the same
      record (or both throw). */
  lemma {:induction false} PrettyDbDataAgreesOffFiles(page: Pages.Page, metaData: bool)
    requires page.Page? ==> forall k | k in page.properties :: Field(page.properties[k], "type") != Str("files")
    ensures PrettyDbData(page, metaData) == LibCodec.PrettyDbData(page, metaData)
  {
    if page.PartialPage? {
      return;
    }
    var props := page.properties;
    forall k | k in props
      ensures Pages.DecodeProperty(ParseNotionParams, props[k])
           == Pages.DecodeProperty(LibCodec.ParseNotionParams, props[k])
    {
      var t := Field(props[k], "type");
      if !Nullish(props[k]) && t.Str? {
        DecodersAgreeOffFiles(t.s, props[k]);
      }
    }
    Pages.PrettyCongruent(ParseNotionParams, LibCodec.ParseNotionParams, page, metaData);
  }
}
