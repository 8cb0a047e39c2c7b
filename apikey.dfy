/**
 * resource_contentful_apikey.go: name and description copied onto a new or
 * fetched API key, the write-back of five attributes, and the four reconcilers.
 */
module ApiKeys {
  import opened Wrappers
  import opened Errors
  import opened Remote
  import opened Attributes

  /** contentful.APIKey without its Sys; the access token is the server's. */
  datatype ApiKeyBody = ApiKeyBody(name: string, description: string, accessToken: string)

  const ApiKeySchema: map<string, Kind> :=
    map["version" := KInt, "access_token" := KStr, "space_id" := KStr, "name" := KStr, "description" := KStr]

  /** setAPIKeyProperties writes these five attributes, in this order. */
  function ApiKeyWrites(k: Entity<ApiKeyBody>): seq<(string, Value)>
  {
    [("space_id", Str(k.sys.space)), ("version", Int(k.sys.version)), ("name", Str(k.body.name)),
     ("description", Str(k.body.description)), ("access_token", Str(k.body.accessToken))]
  }

  method SetApiKeyProperties(d: ResourceData, k: Entity<ApiKeyBody>) returns (err: Option<ClientError>)
    modifies d`attrs
    ensures Written(err, d.attrs) == Apply(d.schema, old(d.attrs), ApiKeyWrites(k))
  {
    var writes := ApiKeyWrites(k);
    ApplyFirst(d.schema, d.attrs, writes[0], writes[1..]);
    err := d.Set("space_id", Str(k.sys.space));
    if err.Some? {
      return;
    }
    ApplyFirst(d.schema, d.attrs, writes[1], writes[2..]);
    err := d.Set("version", Int(k.sys.version));
    if err.Some? {
      return;
    }
    ApplyFirst(d.schema, d.attrs, writes[2], writes[3..]);
    err := d.Set("name", Str(k.body.name));
    if err.Some? {
      return;
    }
    ApplyFirst(d.schema, d.attrs, writes[3], writes[4..]);
    err := d.Set("description", Str(k.body.description));
    if err.Some? {
      return;
    }
    ApplyFirst(d.schema, d.attrs, writes[4], []);
    err := d.Set("access_token", Str(k.body.accessToken));
  }

  /**
   * The write-back stops at the first attribute the schema rejects: with a
   * schema that lacks `name`, space_id and version land and the rest do not.
   */
  lemma ApiKeyWriteBackStopsAtName(schema: map<string, Kind>, attrs: map<string, Value>, k: Entity<ApiKeyBody>)
    requires "space_id" in schema && schema["space_id"] == KStr && "version" in schema && schema["version"] == KInt
    requires "name" !in schema
    ensures Apply(schema, attrs, ApiKeyWrites(k))
         == Written(Some(OtherError("Invalid address to set: name")),
                    attrs["space_id" := Str(k.sys.space)]["version" := Int(k.sys.version)])
  {
    var ws := ApiKeyWrites(k);
    ApplyFirst(schema, attrs, ws[0], ws[1..]);
    ApplyFirst(schema, attrs[ws[0].0 := ws[0].1], ws[1], ws[2..]);
    ApplyFirst(schema, attrs[ws[0].0 := ws[0].1][ws[1].0 := ws[1].1], ws[2], ws[3..]);
    assert ws[2].0 == "name";
    assert "Invalid address to set: " + "name" == "Invalid address to set: name";
  }

  /** Under the API key schema the write-back cannot fail, and all five attributes land. */
  lemma ApiKeyPropertiesLand(attrs: map<string, Value>, k: Entity<ApiKeyBody>)
    ensures Apply(ApiKeySchema, attrs, ApiKeyWrites(k))
         == Written(None, attrs["space_id" := Str(k.sys.space)]["version" := Int(k.sys.version)]["name" := Str(k.body.name)]
                              ["description" := Str(k.body.description)]["access_token" := Str(k.body.accessToken)])
  {
    var ws := ApiKeyWrites(k);
    ApplyFirst(ApiKeySchema, attrs, ws[0], ws[1..]);
    var a1 := attrs[ws[0].0 := ws[0].1];
    ApplyFirst(ApiKeySchema, a1, ws[1], ws[2..]);
    var a2 := a1[ws[1].0 := ws[1].1];
    ApplyFirst(ApiKeySchema, a2, ws[2], ws[3..]);
    var a3 := a2[ws[2].0 := ws[2].1];
    ApplyFirst(ApiKeySchema, a3, ws[3], ws[4..]);
    var a4 := a3[ws[3].0 := ws[3].1];
    ApplyFirst(ApiKeySchema, a4, ws[4], []);
  }

  /**
   * An update of a stored key keeps everything the server holds except name
   * and description: the access token and Sys come from the fetch, and the
   * version advances by one.
   */
  lemma UpdateKeepsAccessToken(items: map<string, Entity<ApiKeyBody>>, next: nat, scope: string,
                               fetched: Entity<ApiKeyBody>, name: string, description: string)
    requires Consistent(items, next) && Find(items, scope, fetched.sys.id) == Some(fetched)
    ensures var r := UpsertReply(items, next, None, scope, fetched.(body := fetched.body.(name := name, description := description)));
      && r.result.Ok?
      && r.result.value.body == ApiKeyBody(name, description, fetched.body.accessToken)
      && r.result.value.sys == fetched.sys.(version := fetched.sys.version + 1)
  {
    ConsistentAt(items, next, fetched.sys.id);
  }

  /** After a successful upsert: write-back first, and the local id only when it succeeded. */
  ghost predicate SavedThenWritten(d: ResourceData, c: Collection<ApiKeyBody>, attrs0: map<string, Value>,
                                   id0: string, up: Reply<ApiKeyBody>, diags: seq<Diagnostic>)
    requires up.result.Ok?
    reads d, c
  {
    var saved := up.result.value;
    var w := Apply(d.schema, attrs0, ApiKeyWrites(saved));
    && diags == Translate(w.err) && c.items == up.items && d.attrs == w.attrs
    && d.id == (if w.err.Some? then id0 else saved.sys.id)
  }

  /** Upsert, setAPIKeyProperties, SetId: the common tail of Create and Update. */
  method SaveApiKey(d: ResourceData, c: Collection<ApiKeyBody>, key: Entity<ApiKeyBody>) returns (diags: seq<Diagnostic>)
    requires c.Valid()
    modifies c`items, c`next, c`log, d`attrs, d`id
    ensures c.Valid()
    ensures c.log == old(c.log) + [Call(Verb.Upsert, StrAt(old(d.attrs), "space_id"), key.sys.id, key.sys.version)]
    ensures var up := UpsertReply(old(c.items), old(c.next), c.Fault(Verb.Upsert), StrAt(old(d.attrs), "space_id"), key);
      if up.result.Fail? then
        diags == Translate(Some(up.result.error)) && c.items == old(c.items) && d.attrs == old(d.attrs) && d.id == old(d.id)
      else
        SavedThenWritten(d, c, old(d.attrs), old(d.id), up, diags)
  {
    var r := c.Upsert(d.GetString("space_id"), key);
    if r.Fail? {
      diags := ParseError(Some(r.error));
      return;
    }
    var err := SetApiKeyProperties(d, r.value);
    if err.Some? {
      diags := ParseError(err);
      return;
    }
    d.SetId(r.value.sys.id);
    diags := [];
  }

  /** resourceCreateAPIKey: a new key with name and description only; the server assigns the id. */
  method CreateApiKey(d: ResourceData, c: Collection<ApiKeyBody>) returns (diags: seq<Diagnostic>)
    requires c.Valid()
    modifies c`items, c`next, c`log, d`attrs, d`id
    ensures c.Valid()
    ensures c.log == old(c.log) + [Call(Verb.Upsert, StrAt(old(d.attrs), "space_id"), "", 0)]
    ensures var up := UpsertReply(old(c.items), old(c.next), c.Fault(Verb.Upsert), StrAt(old(d.attrs), "space_id"),
                                  Entity(Unsaved, ApiKeyBody(StrAt(old(d.attrs), "name"), StrAt(old(d.attrs), "description"), "")));
      if up.result.Fail? then
        diags == Translate(Some(up.result.error)) && c.items == old(c.items) && d.attrs == old(d.attrs) && d.id == old(d.id)
      else
        SavedThenWritten(d, c, old(d.attrs), old(d.id), up, diags)
  {
    var key := Entity(Unsaved, ApiKeyBody(d.GetString("name"), d.GetString("description"), ""));
    diags := SaveApiKey(d, c, key);
  }

  /** resourceUpdateAPIKey: name and description overwrite the fetched key; everything else is as fetched. */
  method UpdateApiKey(d: ResourceData, c: Collection<ApiKeyBody>) returns (diags: seq<Diagnostic>)
    requires c.Valid()
    modifies c`items, c`next, c`log, d`attrs, d`id
    ensures c.Valid()
    ensures var got := GetReply(old(c.items), c.Fault(Verb.Get), StrAt(old(d.attrs), "space_id"), old(d.id));
      c.log == old(c.log) + [Call(Verb.Get, StrAt(old(d.attrs), "space_id"), old(d.id), 0)]
               + (if got.Ok? then [Call(Verb.Upsert, StrAt(old(d.attrs), "space_id"), got.value.sys.id, got.value.sys.version)] else [])
    ensures var scope := StrAt(old(d.attrs), "space_id");
      var got := GetReply(old(c.items), c.Fault(Verb.Get), scope, old(d.id));
      if got.Fail? then
        diags == Translate(Some(got.error)) && c.items == old(c.items) && d.attrs == old(d.attrs) && d.id == old(d.id)
      else
        var up := UpsertReply(old(c.items), old(c.next), c.Fault(Verb.Upsert), scope,
                              got.value.(body := got.value.body.(name := StrAt(old(d.attrs), "name"),
                                                                 description := StrAt(old(d.attrs), "description"))));
        if up.result.Fail? then
          diags == Translate(Some(up.result.error)) && c.items == old(c.items) && d.attrs == old(d.attrs) && d.id == old(d.id)
        else
          SavedThenWritten(d, c, old(d.attrs), old(d.id), up, diags)
  {
    var got := c.Get(d.GetString("space_id"), d.id);
    if got.Fail? {
      diags := ParseError(Some(got.error));
      return;
    }
    var key := got.value;
    key := key.(body := key.body.(name := d.GetString("name")));
    key := key.(body := key.body.(description := d.GetString("description")));
    diags := SaveApiKey(d, c, key);
  }

  /**
   * resourceReadAPIKey: a NotFound clears the local id and reports nothing.
   * Any other read error would be dereferenced as a nil key, so it is ruled out.
   */
  method ReadApiKey(d: ResourceData, c: Collection<ApiKeyBody>) returns (diags: seq<Diagnostic>)
    requires c.Fault(Verb.Get).None? || c.Fault(Verb.Get).value.NotFoundError?
    modifies c`log, d`attrs, d`id
    ensures c.log == old(c.log) + [Call(Verb.Get, StrAt(old(d.attrs), "space_id"), old(d.id), 0)]
    ensures var got := GetReply(c.items, c.Fault(Verb.Get), StrAt(old(d.attrs), "space_id"), old(d.id));
      if got.Fail? then
        diags == [] && d.id == "" && d.attrs == old(d.attrs)
      else
        var w := Apply(d.schema, old(d.attrs), ApiKeyWrites(got.value));
        diags == Translate(w.err) && d.attrs == w.attrs && d.id == old(d.id)
  {
    var got := c.Get(d.GetString("space_id"), d.id);
    if got.Fail? && got.error.NotFoundError? {
      d.SetId("");
      return [];
    }
    var err := SetApiKeyProperties(d, got.value);
    diags := ParseError(err);
  }

  /** resourceDeleteAPIKey: both a read failure and a delete failure are reported, NotFound included. */
  method DeleteApiKey(d: ResourceData, c: Collection<ApiKeyBody>) returns (diags: seq<Diagnostic>)
    requires c.Valid()
    modifies c`items, c`log
    ensures c.Valid()
    ensures var scope := d.GetString("space_id");
      var got := GetReply(old(c.items), c.Fault(Verb.Get), scope, d.id);
      if got.Fail? then
        diags == Translate(Some(got.error)) && c.items == old(c.items) && c.log == old(c.log) + [Call(Verb.Get, scope, d.id, 0)]
      else
        var del := DeleteReply(old(c.items), c.Fault(Verb.Delete), scope, d.id);
        && diags == Translate(del.err) && c.items == del.items
        && c.log == old(c.log) + [Call(Verb.Get, scope, d.id, 0), Call(Verb.Delete, scope, d.id, 0)]
  {
    var spaceId := d.GetString("space_id");
    var got := c.Get(spaceId, d.id);
    if got.Fail? {
      diags := ParseError(Some(got.error));
      return;
    }
    var key := got.value;
    ConsistentAt(c.items, c.next, d.id);
    var err := c.Delete(spaceId, key.sys.id);
    diags := ParseError(err);
  }
}
