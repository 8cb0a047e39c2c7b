/**
 * resource_contentful_space.go: name and default locale on a new space, the
 * name alone on a fetched one, the write-back of version and name, and the
 * four reconcilers. Spaces are not scoped by another space; their calls use
 * the empty scope.
 */
module Spaces {
  import opened Wrappers
  import opened Errors
  import opened Remote
  import opened Attributes

  /** contentful.Space without its Sys. */
  datatype SpaceBody = SpaceBody(name: string, defaultLocale: string)

  const SpaceSchema: map<string, Kind> := map["version" := KInt, "name" := KStr, "default_locale" := KStr]

  /** The scope of every space call. */
  const TopLevel: string := ""

  /** updateSpaceProperties writes version and name, in that order. */
  function SpaceWrites(s: Entity<SpaceBody>): seq<(string, Value)>
  {
    [("version", Int(s.sys.version)), ("name", Str(s.body.name))]
  }

  method UpdateSpaceProperties(d: ResourceData, s: Entity<SpaceBody>) returns (err: Option<ClientError>)
    modifies d`attrs
    ensures Written(err, d.attrs) == Apply(d.schema, old(d.attrs), SpaceWrites(s))
  {
    var writes := SpaceWrites(s);
    ApplyFirst(d.schema, d.attrs, writes[0], writes[1..]);
    err := d.Set("version", Int(s.sys.version));
    if err.Some? {
      return;
    }
    ApplyFirst(d.schema, d.attrs, writes[1], []);
    err := d.Set("name", Str(s.body.name));
  }

  /** The write-back leaves default_locale as it was, whatever the outcome. */
  lemma DefaultLocaleNeverWritten(schema: map<string, Kind>, attrs: map<string, Value>, s: Entity<SpaceBody>)
    ensures var after := Apply(schema, attrs, SpaceWrites(s)).attrs;
      && ("default_locale" in after <==> "default_locale" in attrs)
      && ("default_locale" in attrs ==> after["default_locale"] == attrs["default_locale"])
  {
    var ws := SpaceWrites(s);
    assert KeysOf(ws) == {"version", "name"} by {
      assert ws[0].0 == "version" && ws[1].0 == "name";
    }
    ApplyTouchesOnlyWritten(schema, attrs, ws, "default_locale");
  }

  /** Under the space schema the write-back cannot fail and both attributes land. */
  lemma SpacePropertiesLand(attrs: map<string, Value>, s: Entity<SpaceBody>)
    ensures Apply(SpaceSchema, attrs, SpaceWrites(s))
         == Written(None, attrs["version" := Int(s.sys.version)]["name" := Str(s.body.name)])
  {
    var ws := SpaceWrites(s);
    ApplyFirst(SpaceSchema, attrs, ws[0], ws[1..]);
    ApplyFirst(SpaceSchema, attrs[ws[0].0 := ws[0].1], ws[1], []);
  }

  /**
   * An update of a stored space sends the fetched default locale back: only the
   * name changes, and the version advances by one.
   */
  lemma UpdateKeepsDefaultLocale(items: map<string, Entity<SpaceBody>>, next: nat, fetched: Entity<SpaceBody>, name: string)
    requires Consistent(items, next) && Find(items, TopLevel, fetched.sys.id) == Some(fetched)
    ensures var r := UpsertReply(items, next, None, TopLevel, fetched.(body := fetched.body.(name := name)));
      && r.result.Ok?
      && r.result.value.body == SpaceBody(name, fetched.body.defaultLocale)
      && r.result.value.sys == fetched.sys.(version := fetched.sys.version + 1)
  {
    ConsistentAt(items, next, fetched.sys.id);
  }

  /** resourceSpaceCreate: name and default locale; the local id is set after the write-back. */
  method CreateSpace(d: ResourceData, c: Collection<SpaceBody>) returns (diags: seq<Diagnostic>)
    requires c.Valid()
    modifies c`items, c`next, c`log, d`attrs, d`id
    ensures c.Valid()
    ensures c.log == old(c.log) + [Call(Verb.Upsert, TopLevel, "", 0)]
    ensures var up := UpsertReply(old(c.items), old(c.next), c.Fault(Verb.Upsert), TopLevel,
                                  Entity(Unsaved, SpaceBody(StrAt(old(d.attrs), "name"), StrAt(old(d.attrs), "default_locale"))));
      if up.result.Fail? then
        diags == Translate(Some(up.result.error)) && c.items == old(c.items) && d.attrs == old(d.attrs) && d.id == old(d.id)
      else
        var w := Apply(d.schema, old(d.attrs), SpaceWrites(up.result.value));
        && diags == Translate(w.err) && c.items == up.items && d.attrs == w.attrs
        && d.id == (if w.err.Some? then old(d.id) else up.result.value.sys.id)
  {
    var space := Entity(Unsaved, SpaceBody(d.GetString("name"), d.GetString("default_locale")));
    var r := c.Upsert(TopLevel, space);
    if r.Fail? {
      diags := ParseError(Some(r.error));
      return;
    }
    var err := UpdateSpaceProperties(d, r.value);
    if err.Some? {
      diags := ParseError(err);
      return;
    }
    d.SetId(r.value.sys.id);
    diags := [];
  }

  /** resourceSpaceRead: NotFound clears the id; otherwise the read's own error, if any, is all it reports. */
  method ReadSpace(d: ResourceData, c: Collection<SpaceBody>) returns (diags: seq<Diagnostic>)
    modifies c`log, d`id
    ensures c.log == old(c.log) + [Call(Verb.Get, TopLevel, old(d.id), 0)]
    ensures var got := GetReply(c.items, c.Fault(Verb.Get), TopLevel, old(d.id));
      if got.Fail? && got.error.NotFoundError? then
        diags == [] && d.id == ""
      else
        diags == Translate(ErrorOf(got)) && d.id == old(d.id)
  {
    var got := c.Get(TopLevel, d.id);
    if got.Fail? && got.error.NotFoundError? {
      d.SetId("");
      return [];
    }
    diags := ParseError(ErrorOf(got));
  }

  /** resourceSpaceUpdate: the name overwrites the fetched space; the local id is left alone. */
  method UpdateSpace(d: ResourceData, c: Collection<SpaceBody>) returns (diags: seq<Diagnostic>)
    requires c.Valid()
    modifies c`items, c`next, c`log, d`attrs
    ensures c.Valid()
    ensures var got := GetReply(old(c.items), c.Fault(Verb.Get), TopLevel, old(d.id));
      c.log == old(c.log) + [Call(Verb.Get, TopLevel, old(d.id), 0)]
               + (if got.Ok? then [Call(Verb.Upsert, TopLevel, got.value.sys.id, got.value.sys.version)] else [])
    ensures var got := GetReply(old(c.items), c.Fault(Verb.Get), TopLevel, d.id);
      if got.Fail? then
        diags == Translate(Some(got.error)) && c.items == old(c.items) && d.attrs == old(d.attrs)
      else
        var up := UpsertReply(old(c.items), old(c.next), c.Fault(Verb.Upsert), TopLevel,
                              got.value.(body := got.value.body.(name := StrAt(old(d.attrs), "name"))));
        if up.result.Fail? then
          diags == Translate(Some(up.result.error)) && c.items == old(c.items) && d.attrs == old(d.attrs)
        else
          var w := Apply(d.schema, old(d.attrs), SpaceWrites(up.result.value));
          diags == Translate(w.err) && c.items == up.items && d.attrs == w.attrs
  {
    var got := c.Get(TopLevel, d.id);
    if got.Fail? {
      diags := ParseError(Some(got.error));
      return;
    }
    var space := got.value;
    space := space.(body := space.body.(name := d.GetString("name")));
    var r := c.Upsert(TopLevel, space);
    if r.Fail? {
      diags := ParseError(Some(r.error));
      return;
    }
    var err := UpdateSpaceProperties(d, r.value);
    diags := ParseError(err);
  }

  /** resourceSpaceDelete: a read failure is reported; a NotFound from the delete itself counts as success. */
  method DeleteSpace(d: ResourceData, c: Collection<SpaceBody>) returns (diags: seq<Diagnostic>)
    requires c.Valid()
    modifies c`items, c`log
    ensures c.Valid()
    ensures var got := GetReply(old(c.items), c.Fault(Verb.Get), TopLevel, d.id);
      if got.Fail? then
        diags == Translate(Some(got.error)) && c.items == old(c.items) && c.log == old(c.log) + [Call(Verb.Get, TopLevel, d.id, 0)]
      else
        var del := DeleteReply(old(c.items), c.Fault(Verb.Delete), TopLevel, d.id);
        && diags == (if del.err.Some? && del.err.value.NotFoundError? then [] else Translate(del.err))
        && c.items == del.items
        && c.log == old(c.log) + [Call(Verb.Get, TopLevel, d.id, 0), Call(Verb.Delete, TopLevel, d.id, 0)]
  {
    var got := c.Get(TopLevel, d.id);
    if got.Fail? {
      diags := ParseError(Some(got.error));
      return;
    }
    var space := got.value;
    ConsistentAt(c.items, c.next, d.id);
    var err := c.Delete(TopLevel, space.sys.id);
    if err.Some? && err.value.NotFoundError? {
      return [];
    }
    diags := ParseError(err);
  }
}
