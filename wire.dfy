/** JSON values as the Notion API sends and receives them, and the few pieces of
    JavaScript semantics the codec relies on: property reads that throw on
    null/undefined, indexing, truthiness, and the closed set of property kinds. */
module Wire {

  /** A JavaScript value as it appears in a Notion payload. Numbers are
      integers here (floating point is not modelled). */
  datatype Value =
    | Undefined
    | Null
    | Bool(b: bool)
    | Num(n: int)
    | Str(s: string)
    | Arr(items: seq<Value>)
    | Obj(fields: map<string, Value>)

  /** The exceptions modelled: the only one the codec can raise is a
      `TypeError`, from reading a property of null/undefined or from calling
      a missing table entry or a missing `.map`; an `Error` with a message is
      what the token store throws. */
  datatype Error = TypeError | Thrown(message: string)

  datatype Result<+T> = Success(value: T) | Failure(error: Error) {
    predicate IsFailure() { Failure? }

    function PropagateFailure<U>(): Result<U>
      requires Failure?
    {
      Failure(error)
    }

    function Extract(): T
      requires Success?
    {
      value
    }
  }

  datatype Option<+T> = None | Some(value: T)

  predicate Nullish(v: Value) {
    v.Undefined? || v.Null?
  }

  /** JavaScript truthiness: `undefined`, `null`, `false`, `0` and `''` are falsy. */
  predicate Truthy(v: Value) {
    match v
    case Undefined => false
    case Null => false
    case Bool(b) => b
    case Num(n) => n != 0
    case Str(s) => s != ""
    case _ => true
  }

  /** The value of `v[key]` for a value that is not null/undefined: an own key
      of an object, otherwise `undefined`. */
  function Field(v: Value, key: string): Value {
    if v.Obj? && key in v.fields then v.fields[key] else Undefined
  }

  /** `v.key`: a TypeError on null/undefined. */
  function Prop(v: Value, key: string): (r: Result<Value>)
    ensures r.Failure? <==> Nullish(v)
    ensures r.Success? ==> r.value == Field(v, key)
  {
    if Nullish(v) then Failure(TypeError) else Success(Field(v, key))
  }

  /** The value of `v[0]` for a value that is not null/undefined. */
  function Elem0(v: Value): Value {
    match v
    case Arr(items) => if items == [] then Undefined else items[0]
    case Str(s) => if s == "" then Undefined else Str([s[0]])
    case Obj(f) => if "0" in f then f["0"] else Undefined
    case _ => Undefined
  }

  /** `v[0]`: a TypeError on null/undefined. */
  function At0(v: Value): (r: Result<Value>)
    ensures r.Failure? <==> Nullish(v)
    ensures r.Success? ==> r.value == Elem0(v)
  {
    if Nullish(v) then Failure(TypeError) else Success(Elem0(v))
  }

  /** The property kinds of `EnumPropertyTypes` in src/lib/schema.ts. */
  datatype Kind =
    | Title | RichText | Checkbox | Select | MultiSelect | Number | Date
    | String | Boolean | Files | Email | Url | PhoneNumber | CreatedBy
    | CreatedTime | Status | UniqueId

  /** The wire name of a kind, the string stored in a schema and in a
      property's `type`. */
  function KindName(k: Kind): string {
    match k
    case Title => "title"
    case RichText => "rich_text"
    case Checkbox => "checkbox"
    case Select => "select"
    case MultiSelect => "multi_select"
    case Number => "number"
    case Date => "date"
    case String => "string"
    case Boolean => "boolean"
    case Files => "files"
    case Email => "email"
    case Url => "url"
    case PhoneNumber => "phone_number"
    case CreatedBy => "created_by"
    case CreatedTime => "created_time"
    case Status => "status"
    case UniqueId => "unique_id"
  }

  const KindsByName: map<string, Kind> :=
    map[
      "title" := Title, "rich_text" := RichText, "checkbox" := Checkbox,
      "select" := Select, "multi_select" := MultiSelect, "number" := Number,
      "date" := Date, "string" := String, "boolean" := Boolean,
      "files" := Files, "email" := Email, "url" := Url,
      "phone_number" := PhoneNumber, "created_by" := CreatedBy,
      "created_time" := CreatedTime, "status" := Status, "unique_id" := UniqueId
    ]

  /** The kind a wire `type` string names, if any. */
  function ParseKind(name: string): (r: Option<Kind>)
    ensures r.Some? ==> KindName(r.value) == name
    ensures forall k: Kind :: KindName(k) == name ==> r == Some(k)
  {
    if name in KindsByName then Some(KindsByName[name]) else None
  }
}
