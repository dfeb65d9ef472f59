/** The current property codec, src/lib/utils.ts: the decode table
    `parseNotionParams`, the encode table `getNotionPropertyFromData`, and
    `prettyDbData` over them. */
module LibCodec {
  import opened Wire
  import opened Entries
  import Pages
  import Schemas

  /** The kinds whose encoder and decoder are exact inverses. */
  const RoundTripKinds: set<Kind> :=
    {Select, Status, MultiSelect, Date, Number, Checkbox, String, Boolean, Email, Url, PhoneNumber, CreatedTime}

  /** The entry of `parseNotionParams` for a kind. Every declared kind has one
      except `unique_id`. */
  function DecoderFor(k: Kind): (d: Option<Decoder>)
    ensures d.None? <==> k == UniqueId
  {
    match k
    case Title => Some(FirstPlainText("title"))
    case RichText => Some(FirstPlainText("rich_text"))
    case Select => Some(OptionName("select"))
    case Status => Some(OptionName("status"))
    case MultiSelect => Some(OptionNames)
    case CreatedBy => Some(Creator)
    case Files => Some(FirstFileUrl)
    case UniqueId => None
    // number, checkbox, date, string, boolean, email, url, phone_number, created_time
    case _ => Some(Member(KindName(k)))
  }

  /** The entry of `getNotionPropertyFromData` for a kind. There is none for
      `created_by` and none for `unique_id`. */
  function EncoderFor(k: Kind): (e: Option<Encoder>)
    ensures e.None? <==> k == CreatedBy || k == UniqueId
  {
    match k
    case Title => Some(TextRun("title"))
    case RichText => Some(TextRun("rich_text"))
    case Select => Some(Named("select"))
    case Status => Some(Named("status"))
    case MultiSelect => Some(NamedList)
    case Files => Some(ExternalFile)
    case CreatedBy => None
    case UniqueId => None
    // number, checkbox, date, string, boolean, email, url, phone_number, created_time
    case _ => Some(Plain(KindName(k)))
  }

  /** `parseNotionParams[typeName](item)`: a name with no table entry is
      `undefined`, and calling it throws. */
  function ParseNotionParams(typeName: string, item: Value): (r: Result<Value>)
    ensures ParseKind(typeName).None? || typeName == "unique_id" ==> r.Failure?
    ensures ParseKind(typeName).Some? && typeName != "unique_id" ==>
      r == Decode(DecoderFor(ParseKind(typeName).value).value, item)
  {
    match ParseKind(typeName)
    case None => Failure(TypeError)
    case Some(k) =>
      match DecoderFor(k)
      case None => Failure(TypeError)
      case Some(d) => Decode(d, item)
  }

  /** `getNotionPropertyFromData[k](v, property)`: a one-key fragment keyed by
      the field name. It throws for the two kinds without an entry and for a
      multi-select value that is not a list. */
  function GetNotionPropertyFromData(k: Kind, v: Value, property: string): (r: Result<map<string, Value>>)
    ensures r.Success? <==> k != CreatedBy && k != UniqueId && (k == MultiSelect ==> v.Arr?)
    ensures r.Success? ==> r.value.Keys == {property}
  {
    match EncoderFor(k)
    case None => Failure(TypeError)
    case Some(e) =>
      var inner :- Encode(e, v);
      Success(map[property := inner])
  }

  /** `prettyDbData(page, metaData)` with this codec's decode table. */
  function PrettyDbData(page: Pages.Page, metaData: bool): (r: Result<map<string, Value>>)
    ensures r.Success? <==>
      page.Page? && forall k | k in page.properties :: Pages.DecodeProperty(ParseNotionParams, page.properties[k]).Success?
    ensures page.Page? && (exists k | k in page.properties :: Field(page.properties[k], "type") == Str("unique_id")) ==>
      r.Failure?
    ensures r.Success? ==>
      r.value.Keys == page.properties.Keys + (if metaData then Schemas.RecordKeys else {})
    ensures r.Success? ==> forall k | k in page.properties ::
      r.value[k] == Pages.DecodeProperty(ParseNotionParams, page.properties[k]).value
  {
    Pages.Pretty(ParseNotionParams, page, metaData)
  }

  /** Encoding then decoding the fragment under the field name gives back the
      value, for every round-trip kind and every value it accepts. */
  lemma {:induction false} RoundTrip(k: Kind, v: Value, property: string)
    requires k in RoundTripKinds
    requires k == MultiSelect ==> v.Arr?
    ensures GetNotionPropertyFromData(k, v, property).Success?
    ensures ParseNotionParams(KindName(k), GetNotionPropertyFromData(k, v, property).value[property]) == Success(v)
  {
    var e := EncoderFor(k).value;
    EntriesMatch(k);
    DecodeEncode(e, v);
    var inner := Encode(e, v).value;
    assert GetNotionPropertyFromData(k, v, property).value[property] == inner;
    assert ParseKind(KindName(k)) == Some(k);
    assert ParseNotionParams(KindName(k), inner) == Decode(DecoderFor(k).value, inner);
  }

  /** For a round-trip kind the decoder entry is the inverse of the encoder entry. */
  lemma EntriesMatch(k: Kind)
    requires k in RoundTripKinds
    ensures EncoderFor(k).Some? && Inverse(EncoderFor(k).value) == DecoderFor(k)
  {
    match k
    case Select =>
    case Status =>
    case MultiSelect =>
    case _ =>
  }

  /** No other kind round-trips: for each of them the string `'x'` does not
      come back. Title and rich text come back `undefined`; files, created_by
      and unique_id throw on one side or the other. */
  lemma {:induction false} OnlyRoundTripKindsRoundTrip(k: Kind, property: string)
    requires k !in RoundTripKinds
    ensures var f := GetNotionPropertyFromData(k, Str("x"), property);
      f.Failure? || ParseNotionParams(KindName(k), f.value[property]) != Success(Str("x"))
  {
    var f := GetNotionPropertyFromData(k, Str("x"), property);
    if k == Title || k == RichText {
      TextRunReadsBackUndefined(KindName(k), Str("x"));
    } else if k == Files {
      ExternalFileUnreadable(Str("x"));
    }
  }

  /** The files fragment is the external-file object itself, with no `files`
      list, so decoding it as a files property throws. */
  lemma {:induction false} FilesFragmentIsUnreadable(v: Value, property: string)
    ensures var f := GetNotionPropertyFromData(Files, v, property);
      && f.Success?
      && f.value[property] == Obj(map["name" := v, "type" := Str("external"), "external" := Obj(map["url" := v])])
      && ParseNotionParams("files", f.value[property]).Failure?
  {
    ExternalFileUnreadable(v);
  }

  /** `unique_id` is a declared kind with neither a decoder nor an encoder. */
  lemma UniqueIdUnsupported(item: Value, v: Value, property: string)
    ensures ParseNotionParams("unique_id", item).Failure?
    ensures GetNotionPropertyFromData(UniqueId, v, property).Failure?
  {
  }
}
