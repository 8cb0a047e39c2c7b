/**
 * resource_contentful_entry.go: the entry's field triples, the try-decode of
 * each field's content, the lifecycle pass and the four reconcilers.
 */
module Entries {
  import opened Wrappers
  import opened Errors
  import Assoc
  import opened Remote
  import opened Attributes
  import opened Lifecycle

  /** A decoded JSON document; numbers keep their literal text. */
  datatype Json =
    | JNull
    | JBool(b: bool)
    | JNumber(literal: string)
    | JString(s: string)
    | JArray(elems: seq<Json>)
    | JObject(members: map<string, Json>)

  /** A field value as sent: the decoded document, or the content string itself. */
  datatype FieldValue = Decoded(json: Json) | Verbatim(text: string)

  /**
   * parseContentValue: the decoded value when the content parses as JSON,
   * the content unchanged otherwise. `decode` stands for json.Unmarshal.
   */
  function ParseContentValue(decode: string -> Option<Json>, content: string): (v: FieldValue)
    ensures v.Verbatim? <==> decode(content).None?
    ensures v.Verbatim? ==> v.text == content
    ensures v.Decoded? ==> decode(content) == Some(v.json)
  {
    match decode(content)
    case Some(json) => Decoded(json)
    case None => Verbatim(content)
  }

  /** Field id to locale to value. */
  type FieldMap = map<string, map<string, FieldValue>>

  datatype EntryBody = EntryBody(locale: string, fields: FieldMap)

  const EntrySchema: map<string, Kind> :=
    map["entry_id" := KStr, "version" := KInt, "space_id" := KStr, "contenttype_id" := KStr,
        "locale" := KStr, "field" := KFieldList, "published" := KBool, "archived" := KBool]

  /** What one iteration of the field loop stores: the id bound to a fresh one-locale map. */
  function FieldPairs(decode: string -> Option<Json>, raw: seq<FieldBlock>): seq<(string, map<string, FieldValue>)>
  {
    seq(|raw|, i requires 0 <= i < |raw| => (raw[i].id, map[raw[i].locale := ParseContentValue(decode, raw[i].content)]))
  }

  function FieldsOf(decode: string -> Option<Json>, raw: seq<FieldBlock>): FieldMap
  {
    Assoc.FromPairs(FieldPairs(decode, raw))
  }

  /** The loop of resourceCreateEntry and resourceUpdateEntry: reset the id's inner map, then store the one locale. */
  method BuildFields(decode: string -> Option<Json>, raw: seq<FieldBlock>) returns (fields: FieldMap)
    ensures fields == FieldsOf(decode, raw)
  {
    fields := map[];
    for i := 0 to |raw|
      invariant fields == FieldsOf(decode, raw[..i])
    {
      var field := raw[i];
      fields := fields[field.id := map[]];
      fields := fields[field.id := fields[field.id][field.locale := ParseContentValue(decode, field.content)]];
      assert FieldPairs(decode, raw[..i + 1]) == FieldPairs(decode, raw[..i]) + [FieldPairs(decode, raw)[i]];
      Assoc.FromPairsAppend(FieldPairs(decode, raw[..i]), FieldPairs(decode, raw)[i]);
    }
    assert raw[..|raw|] == raw;
  }

  /** The map has one key per distinct field id of the triples. */
  lemma FieldsOfKeys(decode: string -> Option<Json>, raw: seq<FieldBlock>)
    ensures FieldsOf(decode, raw).Keys == set i | 0 <= i < |raw| :: raw[i].id
  {
    var ps := FieldPairs(decode, raw);
    Assoc.FromPairsKeys(ps);
    assert (set i | 0 <= i < |ps| :: ps[i].0) == set i | 0 <= i < |raw| :: raw[i].id by {
      forall i | 0 <= i < |raw| ensures ps[i].0 == raw[i].id {
      }
    }
  }

  /**
   * The last triple with a given id decides it: the id holds exactly that
   * triple's locale, bound to its parsed content; earlier locales are gone.
   */
  lemma FieldsOfLastWins(decode: string -> Option<Json>, raw: seq<FieldBlock>, k: nat)
    requires k < |raw|
    requires forall j | k < j < |raw| :: raw[j].id != raw[k].id
    ensures raw[k].id in FieldsOf(decode, raw)
    ensures FieldsOf(decode, raw)[raw[k].id] == map[raw[k].locale := ParseContentValue(decode, raw[k].content)]
    ensures |FieldsOf(decode, raw)[raw[k].id]| == 1
  {
    var ps := FieldPairs(decode, raw);
    forall j | k < j < |ps| ensures ps[j].0 != ps[k].0 {
    }
    Assoc.FromPairsLastWins(ps, k);
  }

  /** setEntryProperties writes space_id, version and contenttype_id, in that order. */
  function EntryWrites(e: Entity<EntryBody>): seq<(string, Value)>
  {
    [("space_id", Str(e.sys.space)), ("version", Int(e.sys.version)), ("contenttype_id", Str(e.sys.contentType))]
  }

  method SetEntryProperties(d: ResourceData, e: Entity<EntryBody>) returns (err: Option<ClientError>)
    modifies d`attrs
    ensures Written(err, d.attrs) == Apply(d.schema, old(d.attrs), EntryWrites(e))
  {
    var writes := EntryWrites(e);
    ApplyFirst(d.schema, d.attrs, writes[0], writes[1..]);
    err := d.Set("space_id", Str(e.sys.space));
    if err.Some? {
      return;
    }
    ApplyFirst(d.schema, d.attrs, writes[1], writes[2..]);
    err := d.Set("version", Int(e.sys.version));
    if err.Some? {
      return;
    }
    ApplyFirst(d.schema, d.attrs, writes[2], []);
    err := d.Set("contenttype_id", Str(e.sys.contentType));
  }

  lemma EntryWritesKeys(e: Entity<EntryBody>)
    ensures KeysOf(EntryWrites(e)) == {"space_id", "version", "contenttype_id"}
    ensures DistinctKeys(EntryWrites(e))
  {
    var w := EntryWrites(e);
    assert w[0].0 == "space_id" && w[1].0 == "version" && w[2].0 == "contenttype_id";
  }

  /** Under the entry schema setEntryProperties cannot fail: the three attributes land and nothing else changes. */
  lemma EntryPropertiesLand(attrs: map<string, Value>, e: Entity<EntryBody>)
    ensures Apply(EntrySchema, attrs, EntryWrites(e))
         == Written(None, attrs["space_id" := Str(e.sys.space)]["version" := Int(e.sys.version)]["contenttype_id" := Str(e.sys.contentType)])
  {
    var w := EntryWrites(e);
    ApplyFirst(EntrySchema, attrs, w[0], w[1..]);
    ApplyFirst(EntrySchema, attrs[w[0].0 := w[0].1], w[1], w[2..]);
  }

  /**
   * setEntryState: one snapshot read, then the entry pass. The snapshot read
   * ignores its error; the Go code would dereference a nil entry if it failed,
   * so a successful read is required.
   */
  method SetEntryState(d: ResourceData, c: Collection<EntryBody>) returns (err: Option<ClientError>)
    requires c.Valid() && GetReply(c.items, c.Fault(Verb.Get), d.GetString("space_id"), d.id).Ok?
    modifies c`items, c`log
    ensures c.Valid()
    ensures var scope := d.GetString("space_id");
      var pass := EntryPass(old(c.items), c.next, c.faults, scope, GetReply(old(c.items), c.Fault(Verb.Get), scope, d.id).value,
                            d.GetBool("published"), d.GetBool("archived"));
      && err == pass.err && c.items == pass.items
      && c.log == old(c.log) + [Call(Verb.Get, scope, d.id, 0)] + pass.calls
  {
    var spaceId := d.GetString("space_id");
    var got := c.Get(spaceId, d.id);
    var entry := got.value;
    var after;
    err, after := RunEntryPass(c, spaceId, entry, d.GetBool("published"), d.GetBool("archived"));
  }

  /** The payload resourceCreateEntry sends: the caller's entry_id, no version, the locale and the field map. */
  function CreatePayload(decode: string -> Option<Json>, attrs: map<string, Value>): Entity<EntryBody>
  {
    Entity(Unsaved.(id := StrAt(attrs, "entry_id"), contentType := StrAt(attrs, "contenttype_id")),
           EntryBody(StrAt(attrs, "locale"), FieldsOf(decode, FieldsAt(attrs, "field"))))
  }

  /** The fetched entry with only its locale and fields replaced, as resourceUpdateEntry sends it. */
  function UpdatePayload(decode: string -> Option<Json>, attrs: map<string, Value>, fetched: Entity<EntryBody>): Entity<EntryBody>
  {
    fetched.(body := EntryBody(StrAt(attrs, "locale"), FieldsOf(decode, FieldsAt(attrs, "field"))))
  }

  /** A new entry is saved under the caller's entry_id, when one is given and not taken, at version 1. */
  lemma CreateKeepsEntryId(decode: string -> Option<Json>, items: map<string, Entity<EntryBody>>, next: nat,
                           scope: string, attrs: map<string, Value>)
    requires Consistent(items, next)
    requires StrAt(attrs, "entry_id") != "" && StrAt(attrs, "entry_id") !in items
    ensures var r := UpsertReply(items, next, None, scope, CreatePayload(decode, attrs));
      && r.result.Ok?
      && r.result.value.sys.id == StrAt(attrs, "entry_id")
      && r.result.value.sys.version == 1
      && r.result.value.body == EntryBody(StrAt(attrs, "locale"), FieldsOf(decode, FieldsAt(attrs, "field")))
  {
    CreateFilesUnderNewId(items, next, scope, CreatePayload(decode, attrs));
  }

  /** An update of a stored entry keeps its Sys from the fetch, bumps the version, and replaces locale and fields. */
  lemma UpdateKeepsFetchedSys(decode: string -> Option<Json>, items: map<string, Entity<EntryBody>>, next: nat,
                              scope: string, attrs: map<string, Value>, fetched: Entity<EntryBody>)
    requires Consistent(items, next) && Find(items, scope, fetched.sys.id) == Some(fetched)
    ensures var r := UpsertReply(items, next, None, scope, UpdatePayload(decode, attrs, fetched));
      && r.result.Ok?
      && r.result.value.sys == fetched.sys.(version := fetched.sys.version + 1)
      && r.result.value.body == EntryBody(StrAt(attrs, "locale"), FieldsOf(decode, FieldsAt(attrs, "field")))
  {
    ConsistentAt(items, next, fetched.sys.id);
  }

  /**
   * State written back after a saved entry, then the lifecycle pass from it,
   * for Create and Update alike. The local id is set before the lifecycle pass.
   * `log0` is the call log up to and including the upsert; the pass adds its
   * snapshot read and its lifecycle calls.
   */
  ghost predicate SavedThenPassed(d: ResourceData, c: Collection<EntryBody>, attrs0: map<string, Value>,
                                  id0: string, setIdFirst: bool, scope: string, up: Reply<EntryBody>,
                                  log0: seq<Call>, diags: seq<Diagnostic>)
    requires up.result.Ok?
    reads d, c
  {
    var saved := up.result.value;
    var w := Apply(d.schema, attrs0, EntryWrites(saved));
    if w.err.Some? then
      && diags == Translate(w.err) && c.items == up.items && d.attrs == w.attrs && d.id == (if setIdFirst then saved.sys.id else id0)
      && c.log == log0
    else
      var pass := EntryPass(up.items, up.next, c.faults, scope, saved, BoolAt(attrs0, "published"), BoolAt(attrs0, "archived"));
      && diags == Translate(pass.err) && c.items == pass.items && d.attrs == w.attrs && d.id == saved.sys.id
      && c.log == log0 + [Call(Verb.Get, scope, saved.sys.id, 0)] + pass.calls
  }

  /** After setEntryProperties succeeded, the lifecycle pass reads the saved space, id and the unchanged targets. */
  lemma AfterEntryProperties(schema: map<string, Kind>, attrs0: map<string, Value>, saved: Entity<EntryBody>)
    requires Apply(schema, attrs0, EntryWrites(saved)).err.None?
    ensures var attrs := Apply(schema, attrs0, EntryWrites(saved)).attrs;
      && StrAt(attrs, "space_id") == saved.sys.space
      && BoolAt(attrs, "published") == BoolAt(attrs0, "published")
      && BoolAt(attrs, "archived") == BoolAt(attrs0, "archived")
  {
    EntryWritesKeys(saved);
    ApplyLands(schema, attrs0, EntryWrites(saved), 0);
    ApplyTouchesOnlyWritten(schema, attrs0, EntryWrites(saved), "published");
    ApplyTouchesOnlyWritten(schema, attrs0, EntryWrites(saved), "archived");
  }

  method CreateEntry(decode: string -> Option<Json>, d: ResourceData, c: Collection<EntryBody>) returns (diags: seq<Diagnostic>)
    requires c.Valid() && c.Fault(Verb.Get).None?
    modifies c`items, c`next, c`log, d`attrs, d`id
    ensures c.Valid()
    ensures var scope := StrAt(old(d.attrs), "space_id");
      var sent := CreatePayload(decode, old(d.attrs));
      var up := UpsertReply(old(c.items), old(c.next), c.Fault(Verb.Upsert), scope, sent);
      var upserted := old(c.log) + [Call(Verb.Upsert, scope, sent.sys.id, 0)];
      if up.result.Fail? then
        diags == Translate(Some(up.result.error)) && c.items == old(c.items) && d.attrs == old(d.attrs) && d.id == old(d.id)
        && c.log == upserted
      else
        SavedThenPassed(d, c, old(d.attrs), old(d.id), false, scope, up, upserted, diags)
  {
    var fields := BuildFields(decode, d.GetFields("field"));
    var entry := Entity(Unsaved.(id := d.GetString("entry_id"), contentType := d.GetString("contenttype_id")),
                        EntryBody(d.GetString("locale"), fields));
    var spaceId := d.GetString("space_id");
    var r := c.Upsert(spaceId, entry);
    if r.Fail? {
      diags := ParseError(Some(r.error));
      return;
    }
    var saved := r.value;
    var err := SetEntryProperties(d, saved);
    if err.Some? {
      diags := ParseError(err);
      return;
    }
    d.SetId(saved.sys.id);
    AfterEntryProperties(d.schema, old(d.attrs), saved);
    err := SetEntryState(d, c);
    diags := ParseError(err);
  }

  /**
   * resourceReadEntry: a NotFound clears the local id and reports nothing.
   * Any other read error would be dereferenced as a nil entry, so it is ruled out.
   */
  method ReadEntry(d: ResourceData, c: Collection<EntryBody>) returns (diags: seq<Diagnostic>)
    requires c.Fault(Verb.Get).None? || c.Fault(Verb.Get).value.NotFoundError?
    modifies c`log, d`attrs, d`id
    ensures c.log == old(c.log) + [Call(Verb.Get, StrAt(old(d.attrs), "space_id"), old(d.id), 0)]
    ensures var got := GetReply(c.items, c.Fault(Verb.Get), StrAt(old(d.attrs), "space_id"), old(d.id));
      if got.Fail? then
        diags == [] && d.id == "" && d.attrs == old(d.attrs)
      else
        var w := Apply(d.schema, old(d.attrs), EntryWrites(got.value));
        diags == Translate(w.err) && d.attrs == w.attrs && d.id == old(d.id)
  {
    var got := c.Get(d.GetString("space_id"), d.id);
    if got.Fail? && got.error.NotFoundError? {
      d.SetId("");
      return [];
    }
    var err := SetEntryProperties(d, got.value);
    diags := ParseError(err);
  }

  /** resourceUpdateEntry: fetch, replace locale and fields, upsert with the fetched version, write back, lifecycle pass. */
  method UpdateEntry(decode: string -> Option<Json>, d: ResourceData, c: Collection<EntryBody>) returns (diags: seq<Diagnostic>)
    requires c.Valid()
    modifies c`items, c`next, c`log, d`attrs, d`id
    ensures c.Valid()
    ensures var scope := StrAt(old(d.attrs), "space_id");
      var got := GetReply(old(c.items), c.Fault(Verb.Get), scope, old(d.id));
      var read := old(c.log) + [Call(Verb.Get, scope, old(d.id), 0)];
      if got.Fail? then
        diags == Translate(Some(got.error)) && c.items == old(c.items) && d.attrs == old(d.attrs) && d.id == old(d.id)
        && c.log == read
      else
        var up := UpsertReply(old(c.items), old(c.next), c.Fault(Verb.Upsert), scope, UpdatePayload(decode, old(d.attrs), got.value));
        var upserted := read + [Call(Verb.Upsert, scope, got.value.sys.id, got.value.sys.version)];
        if up.result.Fail? then
          diags == Translate(Some(up.result.error)) && c.items == old(c.items) && d.attrs == old(d.attrs) && d.id == old(d.id)
          && c.log == upserted
        else
          SavedThenPassed(d, c, old(d.attrs), old(d.id), true, scope, up, upserted, diags)
  {
    var spaceId := d.GetString("space_id");
    var got := c.Get(spaceId, d.id);
    if got.Fail? {
      diags := ParseError(Some(got.error));
      return;
    }
    var entry := got.value;
    ConsistentAt(c.items, c.next, d.id);
    var fields := BuildFields(decode, d.GetFields("field"));
    entry := entry.(body := EntryBody(d.GetString("locale"), fields));
    var r := c.Upsert(spaceId, entry);
    if r.Fail? {
      diags := ParseError(Some(r.error));
      return;
    }
    var saved := r.value;
    d.SetId(saved.sys.id);
    var err := SetEntryProperties(d, saved);
    if err.Some? {
      diags := ParseError(err);
      return;
    }
    AfterEntryProperties(d.schema, old(d.attrs), saved);
    err := SetEntryState(d, c);
    diags := ParseError(err);
  }

  /** resourceDeleteEntry: any read failure, NotFound included, is reported and no delete is sent. */
  method DeleteEntry(d: ResourceData, c: Collection<EntryBody>) returns (diags: seq<Diagnostic>)
    requires c.Valid()
    modifies c`items, c`log
    ensures c.Valid()
    ensures var scope := d.GetString("space_id");
      var got := GetReply(old(c.items), c.Fault(Verb.Get), scope, d.id);
      if got.Fail? then
        diags == Translate(Some(got.error)) && c.items == old(c.items) && c.log == old(c.log) + [Call(Verb.Get, scope, d.id, 0)]
      else
        var del := DeleteReply(old(c.items), c.Fault(Verb.Delete), scope, d.id);
        && diags == Translate(del.err) && c.items == del.items
        && c.log == old(c.log) + [Call(Verb.Get, scope, d.id, 0), Call(Verb.Delete, scope, d.id, 0)]
  {
    var spaceId := d.GetString("space_id");
    var got := c.Get(spaceId, d.id);
    if got.Fail? {
      diags := ParseError(Some(got.error));
      return;
    }
    var err := c.Delete(spaceId, d.id);
    diags := ParseError(err);
  }
}
