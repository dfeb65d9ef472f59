# notion-plus, modelled in Dafny

notion-plus maps a typed record schema onto the property format of Notion
pages and databases. This project models its core and proves properties
about it:

- **The property codec.** The two dispatch tables are a decoder
  (`parseNotionParams`) and an encoder (`getNotionPropertyFromData`, or
  `getMutatePropertyFromData` in the legacy copy). `prettyDbData` folds the
  decoder over every property of a page. The current codec (src/lib/utils.ts)
  and the legacy one (src/utils.ts) are both modelled. Wire JSON is the
  datatype `Wire.Value`. Every JavaScript `TypeError` becomes a `Failure` of
  `Wire.Result`: reading a property of `null`/`undefined`, calling a missing
  table entry, calling `.map` on a non-list.
- **Schema augmentation.** `Schema` (src/lib/schema.ts) and the legacy model
  constructors lay the six page-envelope fields over the caller's
  field→kind map, with fixed kinds that always win.
- **The models.** The current `Model` (src/lib/model.ts) and the two legacy
  ones (src/modal.ts and src/schema.ts) each have `find`, `create` and
  `update`. The Notion client is not modelled. Each operation returns an
  `Exchange`: the request it would send (or none, when it throws first) and
  its result, computed from a client response passed in by the caller.
  - The current model's conversion throws on the first field it cannot
    encode.
  - The legacy `update`, and the `create` of src/schema.ts, catch and drop
    such fields. They are `while` loops that take the fields in any order.
  - The `create` of src/modal.ts aborts on the first such field.
- **The `NotionPlus` singleton and its model cache** (src/lib/notion-plus.ts).
  This is a class with an in-place `models` map, plus the `static instance`
  slot.
- **Request shaping** (src/client.ts, and the identical builders of
  src/lib/notion-plus.ts). It covers `pageSize || 0`, the conditional
  `filter` and the default `sorts`.
- **The token store** (src/config.ts).

Module layout:

| module | file |
|---|---|
| Wire, Schemas | wire.dfy, schemas.dfy |
| Entries (table entries shared by both codecs) | entries.dfy |
| Pages (`prettyDbData`) | pages.dfy |
| LibCodec, LegacyCodec | lib_codec.dfy, legacy_codec.dfy |
| Requests | requests.dfy |
| LibModel, NotionPlus | lib_model.dfy, notion_plus.dfy |
| LegacyModel (shared by the legacy models), Modal, LegacySchema | legacy_model.dfy, modal.dfy, legacy_schema.dfy |
| Config | config.dfy |

## Model

| member | source | states |
|---|---|---|
| Wire.ParseKind | src/lib/schema.ts:3-20 | A wire `type` string names at most one of the 17 kinds, and it names exactly the kind whose name it is. |
| Schemas.Overlay | src/lib/schema.ts:38-48 | The overlaid schema declares the caller's fields plus the six envelope fields. The envelope fields get `string`, `created_time` (twice), `created_by` (twice) and `url`. Every other caller field keeps its caller-given kind. |
| Schemas.OverlayIdempotent | src/lib/schema.ts:39-47 | Overlaying an overlaid schema changes nothing. |
| Schemas.OverlayForgetsReserved | src/lib/schema.ts:39-47 | Two caller schemas give the same overlay iff they agree on every non-envelope name. So what a caller says about an envelope field is lost. |
| Schemas.Schema.constructor | src/lib/schema.ts:35-49 | `notionSchema` is the overlay of the argument, fixed at construction, and every envelope field carries its reserved kind. |
| Entries.DecodeFirstPlainText | src/lib/utils.ts:22-23 | Title/rich text read the `plain_text` of the first run, `undefined` for an empty run list or a nullish run. They throw only when the item or its run list is nullish. |
| Entries.DecodeOptionName | src/lib/utils.ts:31-32 | Select/status read the option's `name`, or `''` when the option is falsy. |
| Entries.Names | src/lib/utils.ts:33-34 | `options.map(o => o.name)` keeps length and order. It throws iff some option is nullish. |
| Entries.DecodeOptionNames | src/lib/utils.ts:33-34 | Multi-select reads the option names in wire order, with the same count. It throws for a non-list or a nullish option. |
| Entries.DecodeCreator | src/lib/utils.ts:35-44 | Created-by reads `person.email` when the user's `type` is `'person'` and `bot.owner` otherwise, with each throwing case listed. |
| Entries.DecodeFirstFileUrl | src/lib/utils.ts:46-49 | Files reads the first file's `external.url` when its type is `'external'` and `file.url` otherwise. An empty file list throws. |
| Entries.NameAll | src/lib/utils.ts:94-100 | `values.map(x => ({name: x}))` keeps length and order and wraps each value. |
| Entries.Encode | src/lib/utils.ts:58-126 | Only the multi-select entry can throw, exactly when the value is not a list, and then with a `TypeError`. Title and rich text write `{[key]: [{text: {content: v}}]}`. Select and status write `{[key]: {name: v}}`. Multi-select writes `{multi_select: [...]}` with each listed value wrapped as `{name: x}`, in order. Files writes `{name: v, type: 'external', external: {url: v}}`. Every other kind writes `{[key]: v}`. |
| Entries.DecodeEncode | src/lib/utils.ts:80-105 | The option-name, option-list and plain-member entries are exact inverses: decode(encode(v)) == v for every value the encoder accepts. |
| Entries.TextRunReadsBackUndefined | src/lib/utils.ts:58-79 | Text entries write `text.content` but read `plain_text`, so any value reads back as `undefined`. |
| Entries.ExternalFileUnreadable | src/lib/utils.ts:106-114 | The external-file fragment has no `files` list, so the files decoder throws on it. |
| Pages.Envelope | src/lib/utils.ts:145-154 | The metadata seed has exactly the six `NotionRecord` keys. |
| Pages.Pretty | src/lib/utils.ts:135-157 | A partial page, which has no `properties`, makes `prettyDbData` throw. Otherwise it succeeds iff every property decodes by its own wire `type`. Its keys are the property keys, plus the six envelope keys iff `metaData`. Each property holds its decoded value. An envelope field keeps its wire value unless a property of the same name overrides it. |
| Pages.Reduce | src/lib/utils.ts:136-144 | One failing property is needed for the fold over a key list to throw. When it succeeds, its keys are the seed's keys plus the listed ones. |
| Pages.ReduceAdds | src/lib/utils.ts:136-144 | The spread-based reduce over a key list succeeds iff every listed property decodes. It then adds exactly the listed decoded properties to the seed. |
| Pages.ReduceIsPretty | src/lib/utils.ts:135-157 | Whatever order `Object.keys` gives, the reduce throws exactly when `Pretty` does and otherwise builds the same record. |
| Pages.PrettyCongruent | src/lib/utils.ts:142 | Two decode tables that agree on every property of a page give the same `prettyDbData`. |
| Pages.MapAll | src/lib/model.ts:71 | `results.map(f)` with a throwing `f` fails iff some element fails. Otherwise it keeps count and order, element by element. |
| Pages.PrettyAll | src/lib/model.ts:71 | `results.map(item => prettyDbData(item, metaData))` throws iff some page fails to decode. Otherwise the i-th record is the i-th page's record, with the same count. |
| LibCodec.DecoderFor | src/lib/utils.ts:21-50 | The decode table has an entry for every kind but `unique_id`. |
| LibCodec.EncoderFor | src/lib/utils.ts:54-127 | The encode table has no entry for `created_by` or `unique_id`, and one for every other kind. |
| LibCodec.ParseNotionParams | src/lib/utils.ts:21-50 | An unknown `type` name and `unique_id` throw. Every other name runs its kind's entry. |
| LibCodec.GetNotionPropertyFromData | src/lib/utils.ts:54-127 | Encoding succeeds iff the kind has an entry and, for multi-select, the value is a list. The fragment's only key is the field name. |
| LibCodec.PrettyDbData | src/lib/utils.ts:135-157 | With this codec's table, `prettyDbData` succeeds iff the page is full and every property decodes. A property of wire type `unique_id` always makes it throw. The keys and decoded values are as in `Pages.Pretty`. |
| LibCodec.EntriesMatch | src/lib/utils.ts:24-34 | For every round-trip kind the decoder entry is the inverse of the encoder entry. |
| LibCodec.RoundTrip | src/lib/utils.ts:80-126 | For select, status, multi-select (lists), date and the scalar kinds: decoding, by its kind name, the fragment stored under the field name gives back the value. |
| LibCodec.OnlyRoundTripKindsRoundTrip | src/lib/utils.ts:58-79 | No other kind round-trips: `'x'` does not come back for title, rich text, files, created_by or unique_id. |
| LibCodec.FilesFragmentIsUnreadable | src/lib/utils.ts:106-114 | The files fragment is `{name: v, type: 'external', external: {url: v}}` with no `files` wrapper, and decoding it as files throws. |
| LibCodec.UniqueIdUnsupported | src/lib/schema.ts:20 | `unique_id` is declared but both decoding and encoding it throw. |
| LegacyCodec.DecoderFor | src/utils.ts:19-52 | The legacy decode table has an entry for exactly the 16 client kinds. |
| LegacyCodec.EncoderFor | src/utils.ts:54-124 | The legacy encode table covers the client kinds except `created_by`. |
| LegacyCodec.ParseNotionParams | src/utils.ts:19-52 | An unknown name and `unique_id` throw. Every other name runs its kind's entry. |
| LegacyCodec.GetMutatePropertyFromData | src/utils.ts:54-124 | Encoding succeeds iff the kind is a client kind other than `created_by` and, for multi-select, the value is a list. The fragment's only key is the field name. |
| LegacyCodec.PrettyDbData | src/utils.ts:126-145 | With the legacy table, `prettyDbData` succeeds iff the page is full and every property decodes. A property of wire type `unique_id` always makes it throw. The keys and decoded values are as in `Pages.Pretty`. |
| LegacyCodec.EntriesMatch | src/utils.ts:22-40 | For every legacy round-trip kind, files included, the decoder entry is the inverse of the encoder entry. |
| LegacyCodec.RoundTrip | src/utils.ts:54-124 | The same round trip as the current codec, and here files round-trips too (`{files: v}` read back as `item.files`). |
| LegacyCodec.DecodersAgreeOffFiles | src/utils.ts:19-52 | Both codecs decode every wire type other than `files` identically. |
| LegacyCodec.EncodersAgreeOffFiles | src/utils.ts:54-124 | Both codecs encode every kind other than `files` identically. |
| LegacyCodec.PrettyDbDataAgreesOffFiles | src/utils.ts:126-145 | On a page with no `files` property, both `prettyDbData` give the same result. |
| Requests.GetDatabase | src/client.ts:50-62 | The query has `database_id`. It has `filter` iff the filter is truthy. `page_size` is the page size when non-zero and 0 otherwise. `sorts` defaults to `[]`. `getDatabases` in src/lib/notion-plus.ts:43-55 builds the same body. |
| Requests.UpdateNotionPage | src/client.ts:83-88 | The update carries exactly `page_id` and the properties, unchanged, as does src/lib/notion-plus.ts:64-72. |
| Requests.CreateNotionPage | src/client.ts:96-104 | The create is parented `{type: 'database_id', database_id}` and carries the properties unchanged, as does src/lib/notion-plus.ts:74-85. |
| Requests.DeleteNotionPage | src/client.ts:111-116 | The archive request carries only `page_id` and `archived: true`. |
| Requests.ZeroPageSizeIsOmitted | src/client.ts:59 | Page size 0 and no page size send the same query. |
| Requests.FalsyFilterIsOmitted | src/client.ts:58 | Every falsy filter sends the same query as no filter. |
| LibModel.Model.constructor | src/lib/model.ts:33-41 | The model keeps the client reference, database id and schema it is given. The fields are `const`, never reassigned. |
| LibModel.Model.Type | src/lib/model.ts:43 | `type(p)` is the declared kind, or none for an undeclared name. |
| LibModel.Model.Fragment | src/lib/model.ts:49 | One field's fragment succeeds iff the field is writable (declared, of a kind with an encoder, a list when multi-select). Its only key is the field name. |
| LibModel.Model.ConvertToNotionProperties | src/lib/model.ts:45-54 | The conversion succeeds iff every field is declared, of a kind with an encoder, and a list when multi-select. The payload then has exactly the item's keys, each holding its kind's encoding. |
| LibModel.Model.Find | src/lib/model.ts:63-77 | It sends one query built from the model's database id and the arguments. The results are the decoded pages in response order, `count` is their number and `hasMore` is copied, with no empty-response special case. |
| LibModel.Model.Create | src/lib/model.ts:79-82 | No request is sent iff some field cannot be written, and then it throws. Otherwise it creates in the model's database with the converted payload and decodes the response with the caller's `metaData`. |
| LibModel.Model.Update | src/lib/model.ts:84-87 | As create, but targeting the given page id. |
| LibModel.ReservedActorsNotWritable | src/lib/model.ts:45-54 | With the overlaid schema, an item naming `created_by` or `last_edited_by` always makes the conversion throw. |
| LibModel.UndeclaredFieldNotWritable | src/lib/model.ts:43-54 | An undeclared field makes the conversion throw. |
| NotionPlus.ModelKey | src/lib/notion-plus.ts:32 | The key is the database id, then `_`, then the serialised schema. |
| NotionPlus.ModelKeyInjective | src/lib/notion-plus.ts:31-37 | For ids without `_`, equal keys mean equal ids and equal schema texts. |
| NotionPlus.ModelKeyAmbiguousWithUnderscore | src/lib/notion-plus.ts:32 | With `_` in an id, two different (id, schema) pairs share a key. |
| NotionPlus.NotionPlus.constructor | src/lib/notion-plus.ts:16-22 | A new instance keeps its token and starts with an empty cache. |
| NotionPlus.NotionPlus.GetModel | src/lib/notion-plus.ts:31-37 | A known key returns the stored model and changes nothing. A new key stores exactly one fresh model, built from this instance, id and schema, and keeps every other entry. The cache never shrinks. |
| NotionPlus.Statics.constructor | src/lib/notion-plus.ts:16 | The static slot starts empty. |
| NotionPlus.Statics.GetInstance | src/lib/notion-plus.ts:24-29 | The first call builds the instance from its token. Later calls return that instance and ignore their token. |
| NotionPlus.GetModelTwice | src/lib/notion-plus.ts:31-37 | Two `getModel` calls with the same id and schema text return the same model. |
| NotionPlus.GetInstanceTwice | src/lib/notion-plus.ts:24-29 | Two `getInstance` calls return the same instance, built with the first token. |
| LegacyModel.Fragment | src/modal.ts:139 | A field's fragment succeeds iff it is declared with a client kind other than `created_by` and, for multi-select, holds a list. Its only key is the field name. |
| LegacyModel.Kept | src/modal.ts:135-145 | After visiting some fields, the catch-and-drop accumulator holds exactly the visited fields that encode, each with its own encoding. |
| LegacyModel.KeptStep | src/modal.ts:136-144 | Visiting one more field spreads in its fragment when it encodes and leaves the accumulator unchanged when it throws. |
| LegacyModel.DroppingPayload | src/modal.ts:135-145 | The catch-and-drop payload holds a field of the data iff that field encodes, with the field's own encoding, and no other key. |
| LegacyModel.StrictPayload | src/modal.ts:157-164 | The reduce without a catch succeeds iff every field encodes, and then has all the data's keys. |
| LegacyModel.StrictFailsAt | src/modal.ts:157-164 | One field that fails to encode makes the uncaught reduce throw that field's error. |
| LegacyModel.ReservedActorsNeverSent | src/modal.ts:134-167 | With the overlaid schema, `created_by` and `last_edited_by` never reach a catch-and-drop payload, and they make the uncaught reduce throw. |
| LegacyModel.FragmentMatchesCurrent | src/utils.ts:54-124 | Off `files`, a field encodes in the legacy model iff the current model can write it, and to the same fragment. |
| LegacyModel.StrictMatchesCurrentConversion | src/modal.ts:157-164 | Off `files`, the legacy all-or-nothing payload throws iff the current `convertToNotionProperties` does, and otherwise equals it. |
| LegacyModel.EncodeDropping | src/modal.ts:135-145 | The per-field try/catch reduce, over any key order, returns the payload of exactly the fields that encode. The same reduce is in `update` and `create` of src/schema.ts:82-108. |
| LegacyModel.EncodeStrict | src/modal.ts:157-164 | The reduce without a catch, over any key order, throws iff some field fails and otherwise returns the full payload. |
| LegacyModel.ShapeFind | src/modal.ts:106-124 | An empty response gives `{results: [], count: 0, hasMore: false}` whatever `has_more` says. Otherwise the results are the decoded pages in order, `count` is their number and `hasMore` is copied. src/schema.ts:61-79 shapes the result the same way. |
| Modal.Model.constructor | src/modal.ts:80-91 | `schema` is the overlay of the caller's schema, `databaseId` is as given, and every envelope field has its reserved kind. |
| Modal.Model.Type | src/modal.ts:94-96 | `type(p)` is exactly `schema[p]`, none when undeclared. |
| Modal.Model.Find | src/modal.ts:106-124 | It sends one query for the model's database with the arguments passed through, and shapes the result as `LegacyModel.ShapeFind`. |
| Modal.Model.Update | src/modal.ts:134-148 | It always sends an update carrying the catch-and-drop payload, and decodes the response with the caller's `metaData`. While the envelope kinds are intact (`Valid`, as built), the payload never carries `created_by` or `last_edited_by`. |
| Modal.Model.Create | src/modal.ts:156-167 | No request is sent iff some field fails to encode, and then it throws. Otherwise it creates in the model's database with the full payload. While `Valid` holds, data naming `created_by` or `last_edited_by` is never sent. |
| LegacySchema.Model.constructor | src/schema.ts:44-55 | The same overlay as the other models. |
| LegacySchema.Model.Type | src/schema.ts:57-59 | `type(p)` is exactly `schema[p]`. |
| LegacySchema.Model.Find | src/schema.ts:61-79 | It sends one query for the model's database and shapes the result as `LegacyModel.ShapeFind`. |
| LegacySchema.Model.Update | src/schema.ts:81-95 | It always sends an update carrying the catch-and-drop payload. While `Valid` holds, the payload never carries `created_by` or `last_edited_by`. |
| LegacySchema.Model.Create | src/schema.ts:97-111 | It always reaches the create call, carrying the catch-and-drop payload. While `Valid` holds, the payload never carries `created_by` or `last_edited_by`. |
| Config.Config.constructor | src/config.ts:1 | The store starts with the environment's token, or none. |
| Config.Config.SetNotionToken | src/config.ts:3-8 | An empty token throws `'Notion token is not set'` and leaves the stored token unchanged. Any other token replaces it. |
| Config.Config.GetNotionToken | src/config.ts:10-15 | It throws the same message iff no token or an empty one is stored. Otherwise it returns the stored, non-empty token. |
| Config.SetThenGet | src/config.ts:3-15 | After a successful set, get returns that token. After a rejected set, get answers as before. |

## Left out

- The Notion HTTP client is not modelled, along with its construction at module load (src/client.ts:37-39). Its responses are inputs, and the requests are returned values.
- `getPageProps` (src/client.ts:70-75, src/lib/notion-plus.ts:57-62) is left out. It is a bare pass-through of two ids to the client, and no model uses it.
- `getNotionClient` (src/lib/notion-plus.ts:39-41) is left out. It only returns the client, which is represented by its token.
- `Model.archive` (src/lib/model.ts:89-91) is left out. It calls `archiveNotionPage`, which src/lib/notion-plus.ts does not define, so that method is not part of this model.
- Promises and `await` are left out: every operation is sequential. The `console.log` of caught errors is left out too.
- `process.env.NOTION_TOKEN` is left out. The initial token is a constructor argument of `Config.Config`.
- `JSON.stringify(schema)` in the cache key is left out. The caller passes the serialised text.
- JavaScript numbers are modelled as unbounded integers, with no fractions, NaN or infinities.
- The order of `Object.keys` is not modelled: records and payloads are maps. The loops and `Pages.ReduceIsPretty` hold for every order.
- Pages.Reduce: states only that a failure needs some failing property, not which one's exception is thrown. `Pages.ReduceAdds` gives the full outcome.
- Pages.ReduceIsPretty: does not state which exception the reduce throws, because with an arbitrary decode table the first failing property in key order decides it. Both codec tables throw only `TypeError`.
- A partial page (`PartialPageObjectResponse`) carries only its id here, none of the envelope fields.
- Pages.Pretty: a failure is always reported as `TypeError` rather than as the decode table's own exception. Both codec tables raise nothing else.
- Property reads see own keys only, not keys inherited from `Object.prototype`. A field named like a prototype member (`toString`) therefore counts as undeclared.
- A non-string wire `type` is treated as naming no table entry. JavaScript would coerce it to a string first (a one-element array `['title']` names `title`).
- Indexing with `[0]` is modelled for arrays, strings and an object's own `"0"` key. Other objects give `undefined`.
- The `notionPlus` reference that a current `Model` keeps is never inspected. Its requests go through the builders of module Requests.
- The TypeScript generics (`T`, `Partial<T>`, `T & NotionRecord`) are left out. Records are maps from field name to wire value.
- src/index.ts and the example scripts are usage scripts with fixed ids and I/O only, so they are left out.
