/** The schema of a Notion database as the library sees it (src/lib/schema.ts):
    a map from field name to property kind, overlaid with the six fields every
    page carries. */
module Schemas {
  import opened Wire

  /** The kinds the overlay gives the envelope fields. */
  const Reserved: map<string, Kind> :=
    map[
      "id" := String,
      "created_time" := CreatedTime,
      "last_edited_time" := CreatedTime,
      "created_by" := CreatedBy,
      "last_edited_by" := CreatedBy,
      "url" := Url
    ]

  /** The keys of `NotionRecord`: the page envelope fields, which are the
      reserved names. */
  const RecordKeys: set<string> := Reserved.Keys

  /** Every reserved name is declared with its reserved kind. */
  predicate HasReserved(schema: map<string, Kind>) {
    forall key | key in Reserved :: key in schema && schema[key] == Reserved[key]
  }

  /** `{...notionSchema, id: 'string', ...}`: the caller's schema with the
      reserved entries written last, so that they win. */
  function Overlay(caller: map<string, Kind>): (s: map<string, Kind>)
    ensures s.Keys == caller.Keys + RecordKeys
    ensures s["id"] == String && s["url"] == Url
    ensures s["created_time"] == CreatedTime && s["last_edited_time"] == CreatedTime
    ensures s["created_by"] == CreatedBy && s["last_edited_by"] == CreatedBy
    ensures forall k | k in caller && k !in RecordKeys :: s[k] == caller[k]
  {
    caller + Reserved
  }

  /** Overlaying twice changes nothing: an overlaid schema already has every
      reserved entry with its reserved kind. */
  lemma OverlayIdempotent(caller: map<string, Kind>)
    ensures Overlay(Overlay(caller)) == Overlay(caller)
  {
    var once := Overlay(caller);
    assert forall k | k in once :: Overlay(once)[k] == once[k];
  }

  /** The caller entries that survive the overlay are the same in `a` and `b`. */
  ghost predicate SameOffReserved(a: map<string, Kind>, b: map<string, Kind>) {
    forall k | k !in RecordKeys :: (k in a <==> k in b) && (k in a ==> a[k] == b[k])
  }

  /** Two caller schemas give the same overlaid schema exactly when they agree
      off the reserved names. */
  lemma {:induction false} OverlayForgetsReserved(a: map<string, Kind>, b: map<string, Kind>)
    ensures Overlay(a) == Overlay(b) <==> SameOffReserved(a, b)
  {
    if Overlay(a) == Overlay(b) {
      forall k | k !in RecordKeys
        ensures (k in a <==> k in b) && (k in a ==> a[k] == b[k])
      {
        assert k in a <==> k in Overlay(a);
        assert k in b <==> k in Overlay(b);
      }
    }
    if SameOffReserved(a, b) {
      assert forall k :: k in Overlay(a) <==> k in Overlay(b);
      assert forall k | k in Overlay(a) :: Overlay(a)[k] == Overlay(b)[k];
    }
  }

  /** `class Schema<T>`: its `readonly notionSchema` is computed once, in the
      constructor. */
  class Schema {
    const notionSchema: map<string, Kind>

    /** Every reserved name is declared with its reserved kind. */
    predicate Valid() {
      HasReserved(notionSchema)
    }

    constructor(notionSchema: map<string, Kind>)
      ensures this.notionSchema == Overlay(notionSchema)
      ensures Valid()
    {
      this.notionSchema := Overlay(notionSchema);
    }
  }
}
