/**
 * resource_contentful_environment.go: the environment name copied onto a new
 * or fetched environment, the write-back of three attributes, and the four
 * reconcilers.
 */
module Environments {
  import opened Wrappers
  import opened Errors
  import opened Remote
  import opened Attributes

  /** contentful.Environment without its Sys. */
  datatype EnvironmentBody = EnvironmentBody(name: string)

  const EnvironmentSchema: map<string, Kind> := map["version" := KInt, "space_id" := KStr, "name" := KStr]

  /** setEnvironmentProperties writes space_id, version and name, in that order. */
  function EnvironmentWrites(e: Entity<EnvironmentBody>): seq<(string, Value)>
  {
    [("space_id", Str(e.sys.space)), ("version", Int(e.sys.version)), ("name", Str(e.body.name))]
  }

  method SetEnvironmentProperties(d: ResourceData, e: Entity<EnvironmentBody>) returns (err: Option<ClientError>)
    modifies d`attrs
    ensures Written(err, d.attrs) == Apply(d.schema, old(d.attrs), EnvironmentWrites(e))
  {
    var writes := EnvironmentWrites(e);
    ApplyFirst(d.schema, d.attrs, writes[0], writes[1..]);
    err := d.Set("space_id", Str(e.sys.space));
    if err.Some? {
      return;
    }
    ApplyFirst(d.schema, d.attrs, writes[1], writes[2..]);
    err := d.Set("version", Int(e.sys.version));
    if err.Some? {
      return;
    }
    ApplyFirst(d.schema, d.attrs, writes[2], []);
    err := d.Set("name", Str(e.body.name));
  }

  /** The write-back names exactly space_id, version and name: any other attribute is left as it was. */
  lemma EnvironmentWritesOnlyThree(schema: map<string, Kind>, attrs: map<string, Value>, e: Entity<EnvironmentBody>, k: string)
    requires k != "space_id" && k != "version" && k != "name"
    ensures var after := Apply(schema, attrs, EnvironmentWrites(e)).attrs;
      (k in after <==> k in attrs) && (k in attrs ==> after[k] == attrs[k])
  {
    var ws := EnvironmentWrites(e);
    assert KeysOf(ws) == {"space_id", "version", "name"} by {
      assert ws[0].0 == "space_id" && ws[1].0 == "version" && ws[2].0 == "name";
    }
    ApplyTouchesOnlyWritten(schema, attrs, ws, k);
  }

  /** Under the environment schema the write-back cannot fail and all three attributes land. */
  lemma EnvironmentPropertiesLand(attrs: map<string, Value>, e: Entity<EnvironmentBody>)
    ensures Apply(EnvironmentSchema, attrs, EnvironmentWrites(e))
         == Written(None, attrs["space_id" := Str(e.sys.space)]["version" := Int(e.sys.version)]["name" := Str(e.body.name)])
  {
    var ws := EnvironmentWrites(e);
    ApplyFirst(EnvironmentSchema, attrs, ws[0], ws[1..]);
    ApplyFirst(EnvironmentSchema, attrs[ws[0].0 := ws[0].1], ws[1], ws[2..]);
  }

  /**
   * After a successful upsert: write-back first; when it succeeds the local id
   * becomes the environment's name on Create and its Sys.ID on Update.
   */
  ghost predicate SavedThenWritten(d: ResourceData, c: Collection<EnvironmentBody>, attrs0: map<string, Value>,
                                   id0: string, idFromName: bool, up: Reply<EnvironmentBody>, diags: seq<Diagnostic>)
    requires up.result.Ok?
    reads d, c
  {
    var saved := up.result.value;
    var w := Apply(d.schema, attrs0, EnvironmentWrites(saved));
    && diags == Translate(w.err) && c.items == up.items && d.attrs == w.attrs
    && d.id == (if w.err.Some? then id0 else if idFromName then saved.body.name else saved.sys.id)
  }

  /** resourceCreateEnvironment: a new environment with its name only; the local id is that name. */
  method CreateEnvironment(d: ResourceData, c: Collection<EnvironmentBody>) returns (diags: seq<Diagnostic>)
    requires c.Valid()
    modifies c`items, c`next, c`log, d`attrs, d`id
    ensures c.Valid()
    ensures c.log == old(c.log) + [Call(Verb.Upsert, StrAt(old(d.attrs), "space_id"), "", 0)]
    ensures var up := UpsertReply(old(c.items), old(c.next), c.Fault(Verb.Upsert), StrAt(old(d.attrs), "space_id"),
                                  Entity(Unsaved, EnvironmentBody(StrAt(old(d.attrs), "name"))));
      if up.result.Fail? then
        diags == Translate(Some(up.result.error)) && c.items == old(c.items) && d.attrs == old(d.attrs) && d.id == old(d.id)
      else
        SavedThenWritten(d, c, old(d.attrs), old(d.id), true, up, diags)
  {
    var environment := Entity(Unsaved, EnvironmentBody(d.GetString("name")));
    var r := c.Upsert(d.GetString("space_id"), environment);
    if r.Fail? {
      diags := ParseError(Some(r.error));
      return;
    }
    var err := SetEnvironmentProperties(d, r.value);
    if err.Some? {
      diags := ParseError(err);
      return;
    }
    d.SetId(r.value.body.name);
    diags := [];
  }

  /** A created environment's local id is the configured name, whatever id the server filed it under. */
  lemma CreatedIdIsName(items: map<string, Entity<EnvironmentBody>>, next: nat, scope: string, name: string)
    ensures var up := UpsertReply(items, next, None, scope, Entity(Unsaved, EnvironmentBody(name)));
      up.result.Ok? ==> up.result.value.body.name == name && up.result.value.sys.id == FreshId(next)
  {
  }

  /** resourceUpdateEnvironment: the name overwrites the fetched environment; the local id becomes its Sys.ID. */
  method UpdateEnvironment(d: ResourceData, c: Collection<EnvironmentBody>) returns (diags: seq<Diagnostic>)
    requires c.Valid()
    modifies c`items, c`next, c`log, d`attrs, d`id
    ensures c.Valid()
    ensures var got := GetReply(old(c.items), c.Fault(Verb.Get), StrAt(old(d.attrs), "space_id"), old(d.id));
      c.log == old(c.log) + [Call(Verb.Get, StrAt(old(d.attrs), "space_id"), old(d.id), 0)]
               + (if got.Ok? then [Call(Verb.Upsert, StrAt(old(d.attrs), "space_id"), got.value.sys.id, got.value.sys.version)] else [])
    ensures var scope := StrAt(old(d.attrs), "space_id");
      var got := GetReply(old(c.items), c.Fault(Verb.Get), scope, old(d.id));
      if got.Fail? then
        diags == Translate(Some(got.error)) && c.items == old(c.items) && d.attrs == old(d.attrs) && d.id == old(d.id)
      else
        var up := UpsertReply(old(c.items), old(c.next), c.Fault(Verb.Upsert), scope,
                              got.value.(body := got.value.body.(name := StrAt(old(d.attrs), "name"))));
        if up.result.Fail? then
          diags == Translate(Some(up.result.error)) && c.items == old(c.items) && d.attrs == old(d.attrs) && d.id == old(d.id)
        else
          SavedThenWritten(d, c, old(d.attrs), old(d.id), false, up, diags)
  {
    var spaceId := d.GetString("space_id");
    var got := c.Get(spaceId, d.id);
    if got.Fail? {
      diags := ParseError(Some(got.error));
      return;
    }
    var environment := got.value;
    environment := environment.(body := environment.body.(name := d.GetString("name")));
    var r := c.Upsert(spaceId, environment);
    if r.Fail? {
      diags := ParseError(Some(r.error));
      return;
    }
    var err := SetEnvironmentProperties(d, r.value);
    if err.Some? {
      diags := ParseError(err);
      return;
    }
    d.SetId(r.value.sys.id);
    diags := [];
  }

  /**
   * resourceReadEnvironment: a NotFound clears the local id and reports nothing.
   * Any other read error would be dereferenced as a nil environment, so it is ruled out.
   */
  method ReadEnvironment(d: ResourceData, c: Collection<EnvironmentBody>) returns (diags: seq<Diagnostic>)
    requires c.Fault(Verb.Get).None? || c.Fault(Verb.Get).value.NotFoundError?
    modifies c`log, d`attrs, d`id
    ensures c.log == old(c.log) + [Call(Verb.Get, StrAt(old(d.attrs), "space_id"), old(d.id), 0)]
    ensures var got := GetReply(c.items, c.Fault(Verb.Get), StrAt(old(d.attrs), "space_id"), old(d.id));
      if got.Fail? then
        diags == [] && d.id == "" && d.attrs == old(d.attrs)
      else
        var w := Apply(d.schema, old(d.attrs), EnvironmentWrites(got.value));
        diags == Translate(w.err) && d.attrs == w.attrs && d.id == old(d.id)
  {
    var got := c.Get(d.GetString("space_id"), d.id);
    if got.Fail? && got.error.NotFoundError? {
      d.SetId("");
      return [];
    }
    var err := SetEnvironmentProperties(d, got.value);
    diags := ParseError(err);
  }

  /** resourceDeleteEnvironment: both a read failure and a delete failure are reported, NotFound included. */
  method DeleteEnvironment(d: ResourceData, c: Collection<EnvironmentBody>) returns (diags: seq<Diagnostic>)
    requires c.Valid()
    modifies c`items, c`log
    ensures c.Valid()
    ensures var scope := d.GetString("space_id");
      var got := GetReply(old(c.items), c.Fault(Verb.Get), scope, d.id);
      if got.Fail? then
        diags == Translate(Some(got.error)) && c.items == old(c.items) && c.log == old(c.log) + [Call(Verb.Get, scope, d.id, 0)]
      else
        var del := DeleteReply(old(c.items), c.Fault(Verb.Delete), scope, d.id);
        && diags == Translate(del.err) && c.items == del.items
        && c.log == old(c.log) + [Call(Verb.Get, scope, d.id, 0), Call(Verb.Delete, scope, d.id, 0)]
  {
    var spaceId := d.GetString("space_id");
    var got := c.Get(spaceId, d.id);
    if got.Fail? {
      diags := ParseError(Some(got.error));
      return;
    }
    var environment := got.value;
    ConsistentAt(c.items, c.next, d.id);
    var err := c.Delete(spaceId, environment.sys.id);
    diags := ParseError(err);
  }
}
