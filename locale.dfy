/**
 * resource_contentful_locale.go: the six locale attributes copied onto a new
 * or fetched locale, written back into local state, and the four reconcilers.
 */
module Locales {
  import opened Wrappers
  import opened Errors
  import opened Remote
  import opened Attributes

  /** contentful.Locale without its Sys. */
  datatype LocaleBody = LocaleBody(name: string, code: string, fallbackCode: string, optional: bool, cda: bool, cma: bool)

  const LocaleSchema: map<string, Kind> :=
    map["version" := KInt, "space_id" := KStr, "name" := KStr, "code" := KStr, "fallback_code" := KStr,
        "optional" := KBool, "cda" := KBool, "cma" := KBool]

  /** The six attributes as Create and Update copy them from local state. */
  function LocaleFrom(attrs: map<string, Value>): LocaleBody
  {
    LocaleBody(StrAt(attrs, "name"), StrAt(attrs, "code"), StrAt(attrs, "fallback_code"),
               BoolAt(attrs, "optional"), BoolAt(attrs, "cda"), BoolAt(attrs, "cma"))
  }

  /** setLocaleProperties writes the six attributes, in this order, and neither version nor space_id. */
  function LocaleWrites(l: Entity<LocaleBody>): seq<(string, Value)>
  {
    [("name", Str(l.body.name)), ("code", Str(l.body.code)), ("fallback_code", Str(l.body.fallbackCode)),
     ("optional", Bool(l.body.optional)), ("cda", Bool(l.body.cda)), ("cma", Bool(l.body.cma))]
  }

  method SetLocaleProperties(d: ResourceData, l: Entity<LocaleBody>) returns (err: Option<ClientError>)
    modifies d`attrs
    ensures Written(err, d.attrs) == Apply(d.schema, old(d.attrs), LocaleWrites(l))
  {
    var writes := LocaleWrites(l);
    ApplyFirst(d.schema, d.attrs, writes[0], writes[1..]);
    err := d.Set("name", Str(l.body.name));
    if err.Some? {
      return;
    }
    ApplyFirst(d.schema, d.attrs, writes[1], writes[2..]);
    err := d.Set("code", Str(l.body.code));
    if err.Some? {
      return;
    }
    ApplyFirst(d.schema, d.attrs, writes[2], writes[3..]);
    err := d.Set("fallback_code", Str(l.body.fallbackCode));
    if err.Some? {
      return;
    }
    ApplyFirst(d.schema, d.attrs, writes[3], writes[4..]);
    err := d.Set("optional", Bool(l.body.optional));
    if err.Some? {
      return;
    }
    ApplyFirst(d.schema, d.attrs, writes[4], writes[5..]);
    err := d.Set("cda", Bool(l.body.cda));
    if err.Some? {
      return;
    }
    ApplyFirst(d.schema, d.attrs, writes[5], []);
    err := d.Set("cma", Bool(l.body.cma));
  }

  lemma LocaleWritesKeys(l: Entity<LocaleBody>)
    ensures KeysOf(LocaleWrites(l)) == {"name", "code", "fallback_code", "optional", "cda", "cma"}
  {
    var ws := LocaleWrites(l);
    assert ws[0].0 == "name" && ws[1].0 == "code" && ws[2].0 == "fallback_code";
    assert ws[3].0 == "optional" && ws[4].0 == "cda" && ws[5].0 == "cma";
  }

  /** Whatever the outcome, the write-back leaves version and space_id as they were. */
  lemma LocaleNeverWritesVersion(schema: map<string, Kind>, attrs: map<string, Value>, l: Entity<LocaleBody>)
    ensures var after := Apply(schema, attrs, LocaleWrites(l)).attrs;
      && ("version" in after <==> "version" in attrs) && ("version" in attrs ==> after["version"] == attrs["version"])
      && ("space_id" in after <==> "space_id" in attrs) && ("space_id" in attrs ==> after["space_id"] == attrs["space_id"])
  {
    LocaleWritesKeys(l);
    ApplyTouchesOnlyWritten(schema, attrs, LocaleWrites(l), "version");
    ApplyTouchesOnlyWritten(schema, attrs, LocaleWrites(l), "space_id");
  }

  /** The six attributes are set, with the types the schema declares. */
  ghost predicate Configured(attrs: map<string, Value>)
  {
    && Conforms(LocaleSchema, attrs)
    && "name" in attrs && "code" in attrs && "fallback_code" in attrs
    && "optional" in attrs && "cda" in attrs && "cma" in attrs
  }

  /**
   * A locale built from local state and saved unchanged writes back exactly
   * what local state held: no difference shows after Create or Update.
   */
  lemma LocaleRoundTrip(attrs: map<string, Value>, sys: Sys)
    requires Configured(attrs)
    ensures Apply(LocaleSchema, attrs, LocaleWrites(Entity(sys, LocaleFrom(attrs)))) == Written(None, attrs)
  {
    var ws := LocaleWrites(Entity(sys, LocaleFrom(attrs)));
    forall i | 0 <= i < |ws| ensures ws[i].0 in attrs && attrs[ws[i].0] == ws[i].1 {
      assert ws[0].0 == "name" && ws[1].0 == "code" && ws[2].0 == "fallback_code";
      assert ws[3].0 == "optional" && ws[4].0 == "cda" && ws[5].0 == "cma";
    }
    ApplyStoredChangesNothing(LocaleSchema, attrs, ws);
  }

  /** After a successful upsert: write-back, and the local id only when asked for and when it succeeded. */
  ghost predicate SavedThenWritten(d: ResourceData, c: Collection<LocaleBody>, attrs0: map<string, Value>,
                                   id0: string, setId: bool, up: Reply<LocaleBody>, diags: seq<Diagnostic>)
    requires up.result.Ok?
    reads d, c
  {
    var saved := up.result.value;
    var w := Apply(d.schema, attrs0, LocaleWrites(saved));
    && diags == Translate(w.err) && c.items == up.items && d.attrs == w.attrs
    && d.id == (if w.err.None? && setId then saved.sys.id else id0)
  }

  /** resourceCreateLocale: a new locale without Sys; the local id is set after the write-back. */
  method CreateLocale(d: ResourceData, c: Collection<LocaleBody>) returns (diags: seq<Diagnostic>)
    requires c.Valid()
    modifies c`items, c`next, c`log, d`attrs, d`id
    ensures c.Valid()
    ensures c.log == old(c.log) + [Call(Verb.Upsert, StrAt(old(d.attrs), "space_id"), "", 0)]
    ensures var up := UpsertReply(old(c.items), old(c.next), c.Fault(Verb.Upsert), StrAt(old(d.attrs), "space_id"),
                                  Entity(Unsaved, LocaleFrom(old(d.attrs))));
      if up.result.Fail? then
        diags == Translate(Some(up.result.error)) && c.items == old(c.items) && d.attrs == old(d.attrs) && d.id == old(d.id)
      else
        SavedThenWritten(d, c, old(d.attrs), old(d.id), true, up, diags)
  {
    var locale := Entity(Unsaved, LocaleBody(d.GetString("name"), d.GetString("code"), d.GetString("fallback_code"),
                                             d.GetBool("optional"), d.GetBool("cda"), d.GetBool("cma")));
    var r := c.Upsert(d.GetString("space_id"), locale);
    if r.Fail? {
      diags := ParseError(Some(r.error));
      return;
    }
    var err := SetLocaleProperties(d, r.value);
    if err.Some? {
      diags := ParseError(err);
      return;
    }
    d.SetId(r.value.sys.id);
    diags := [];
  }

  /** resourceReadLocale: NotFound clears the id; any other error is reported before anything is written. */
  method ReadLocale(d: ResourceData, c: Collection<LocaleBody>) returns (diags: seq<Diagnostic>)
    modifies c`log, d`attrs, d`id
    ensures c.log == old(c.log) + [Call(Verb.Get, StrAt(old(d.attrs), "space_id"), old(d.id), 0)]
    ensures var got := GetReply(c.items, c.Fault(Verb.Get), StrAt(old(d.attrs), "space_id"), old(d.id));
      if got.Fail? && got.error.NotFoundError? then
        diags == [] && d.id == "" && d.attrs == old(d.attrs)
      else if got.Fail? then
        diags == Translate(Some(got.error)) && d.id == old(d.id) && d.attrs == old(d.attrs)
      else
        var w := Apply(d.schema, old(d.attrs), LocaleWrites(got.value));
        diags == Translate(w.err) && d.attrs == w.attrs && d.id == old(d.id)
  {
    var got := c.Get(d.GetString("space_id"), d.id);
    if got.Fail? && got.error.NotFoundError? {
      d.SetId("");
      return [];
    }
    if got.Fail? {
      diags := ParseError(Some(got.error));
      return;
    }
    var err := SetLocaleProperties(d, got.value);
    diags := ParseError(err);
  }

  /** The six field assignments of resourceUpdateLocale on the fetched locale; its Sys is untouched. */
  method Reconfigure(d: ResourceData, fetched: Entity<LocaleBody>) returns (locale: Entity<LocaleBody>)
    ensures locale == fetched.(body := LocaleFrom(d.attrs))
  {
    locale := fetched;
    locale := locale.(body := locale.body.(name := d.GetString("name")));
    locale := locale.(body := locale.body.(code := d.GetString("code")));
    locale := locale.(body := locale.body.(fallbackCode := d.GetString("fallback_code")));
    locale := locale.(body := locale.body.(optional := d.GetBool("optional")));
    locale := locale.(body := locale.body.(cda := d.GetBool("cda")));
    locale := locale.(body := locale.body.(cma := d.GetBool("cma")));
  }

  /** resourceUpdateLocale: the six attributes overwrite the fetched locale, whose Sys is kept; the id is not reset. */
  method UpdateLocale(d: ResourceData, c: Collection<LocaleBody>) returns (diags: seq<Diagnostic>)
    requires c.Valid()
    modifies c`items, c`next, c`log, d`attrs, d`id
    ensures c.Valid()
    ensures var got := GetReply(old(c.items), c.Fault(Verb.Get), StrAt(old(d.attrs), "space_id"), old(d.id));
      c.log == old(c.log) + [Call(Verb.Get, StrAt(old(d.attrs), "space_id"), old(d.id), 0)]
               + (if got.Ok? then [Call(Verb.Upsert, StrAt(old(d.attrs), "space_id"), got.value.sys.id, got.value.sys.version)] else [])
    ensures var scope := StrAt(old(d.attrs), "space_id");
      var got := GetReply(old(c.items), c.Fault(Verb.Get), scope, old(d.id));
      if got.Fail? then
        diags == Translate(Some(got.error)) && c.items == old(c.items) && d.attrs == old(d.attrs) && d.id == old(d.id)
      else
        var up := UpsertReply(old(c.items), old(c.next), c.Fault(Verb.Upsert), scope,
                              got.value.(body := LocaleFrom(old(d.attrs))));
        if up.result.Fail? then
          diags == Translate(Some(up.result.error)) && c.items == old(c.items) && d.attrs == old(d.attrs) && d.id == old(d.id)
        else
          SavedThenWritten(d, c, old(d.attrs), old(d.id), false, up, diags)
  {
    var spaceId := d.GetString("space_id");
    var got := c.Get(spaceId, d.id);
    if got.Fail? {
      diags := ParseError(Some(got.error));
      return;
    }
    var locale := Reconfigure(d, got.value);
    var r := c.Upsert(spaceId, locale);
    if r.Fail? {
      diags := ParseError(Some(r.error));
      return;
    }
    var err := SetLocaleProperties(d, r.value);
    diags := ParseError(err);
  }

  /** resourceDeleteLocale: a read failure is reported; a NotFound from the delete itself counts as success. */
  method DeleteLocale(d: ResourceData, c: Collection<LocaleBody>) returns (diags: seq<Diagnostic>)
    requires c.Valid()
    modifies c`items, c`log
    ensures c.Valid()
    ensures var scope := d.GetString("space_id");
      var got := GetReply(old(c.items), c.Fault(Verb.Get), scope, d.id);
      if got.Fail? then
        diags == Translate(Some(got.error)) && c.items == old(c.items) && c.log == old(c.log) + [Call(Verb.Get, scope, d.id, 0)]
      else
        var del := DeleteReply(old(c.items), c.Fault(Verb.Delete), scope, d.id);
        && diags == (if del.err.Some? && del.err.value.NotFoundError? then [] else Translate(del.err))
        && c.items == del.items
        && c.log == old(c.log) + [Call(Verb.Get, scope, d.id, 0), Call(Verb.Delete, scope, d.id, 0)]
  {
    var spaceId := d.GetString("space_id");
    var got := c.Get(spaceId, d.id);
    if got.Fail? {
      diags := ParseError(Some(got.error));
      return;
    }
    var locale := got.value;
    ConsistentAt(c.items, c.next, d.id);
    var err := c.Delete(spaceId, locale.sys.id);
    if err.Some? && err.value.NotFoundError? {
      return [];
    }
    diags := ParseError(err);
  }
}
