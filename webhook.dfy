/**
 * resource_contentful_webhook.go: the header and topic transforms, the
 * write-back of a webhook into local state, and the four reconcilers.
 */
module Webhooks {
  import opened Wrappers
  import opened Errors
  import Assoc
  import opened Remote
  import opened Attributes

  datatype Header = Header(key: string, value: string)

  /** contentful.Webhook without its Sys. */
  datatype WebhookBody = WebhookBody(name: string, url: string, topics: seq<string>, headers: seq<Header>,
                                     username: string, password: string)

  const WebhookSchema: map<string, Kind> :=
    map["version" := KInt, "space_id" := KStr, "name" := KStr, "url" := KStr,
        "http_basic_auth_username" := KStr, "http_basic_auth_password" := KStr,
        "headers" := KStrMap, "topics" := KStrList]

  /** The (key, value) pairs of a header list, in order. */
  function HeaderPairs(hs: seq<Header>): seq<(string, string)>
  {
    seq(|hs|, i requires 0 <= i < |hs| => (hs[i].key, hs[i].value))
  }

  /** The map setWebhookProperties rebuilds from a header list; a later key overwrites an earlier one. */
  function HeadersMap(hs: seq<Header>): map<string, string>
  {
    Assoc.FromPairs(HeaderPairs(hs))
  }

  /** `hs` holds one header per binding of `m`, with distinct keys, in some order. */
  ghost predicate ListsHeaders(hs: seq<Header>, m: map<string, string>)
  {
    Assoc.Enumerates(HeaderPairs(hs), m)
  }

  /** After some iterations of the header loop: `hs` lists the bindings of `m` whose keys are no longer in `rest`. */
  ghost predicate Listed(hs: seq<Header>, m: map<string, string>, rest: set<string>)
  {
    && rest <= m.Keys
    && (forall i | 0 <= i < |hs| :: hs[i].key in m && m[hs[i].key] == hs[i].value && hs[i].key !in rest)
    && (forall i, j | 0 <= i < j < |hs| :: hs[i].key != hs[j].key)
    && (forall x | x in m :: x in rest || exists i :: 0 <= i < |hs| && hs[i].key == x)
  }

  /** One iteration: the header of a key still to do joins the list. */
  lemma ListedExtend(hs: seq<Header>, m: map<string, string>, rest: set<string>, k: string)
    requires Listed(hs, m, rest) && k in rest
    ensures Listed(hs + [Header(k, m[k])], m, rest - {k})
  {
    var hs' := hs + [Header(k, m[k])];
    forall x | x in m ensures x in rest - {k} || exists i :: 0 <= i < |hs'| && hs'[i].key == x {
      if x == k {
        assert hs'[|hs'| - 1].key == x;
      } else if x !in rest {
        var i :| 0 <= i < |hs| && hs[i].key == x;
        assert hs'[i] == hs[i];
      }
    }
  }

  /** With no key left to do, the list enumerates the map. */
  lemma ListedDone(hs: seq<Header>, m: map<string, string>)
    requires Listed(hs, m, {})
    ensures ListsHeaders(hs, m)
  {
    var ps := HeaderPairs(hs);
    forall x | x in m ensures exists i :: 0 <= i < |ps| && ps[i].0 == x {
      var i :| 0 <= i < |hs| && hs[i].key == x;
      assert ps[i].0 == x;
    }
  }

  /**
   * transformHeadersToContentfulFormat: one header per key of the map, in Go's
   * unspecified map order, which a nondeterministic choice of the next key stands for.
   */
  method TransformHeaders(m: map<string, string>) returns (hs: seq<Header>)
    ensures ListsHeaders(hs, m)
  {
    hs := [];
    var rest := m.Keys;
    while rest != {}
      invariant Listed(hs, m, rest)
      decreases |rest|
    {
      var k :| k in rest;
      ListedExtend(hs, m, rest, k);
      hs := hs + [Header(k, m[k])];
      rest := rest - {k};
    }
    ListedDone(hs, m);
  }

  /** Rebuilding the map from the transformed list gives the configured headers back. */
  lemma HeadersRoundTrip(hs: seq<Header>, m: map<string, string>)
    requires ListsHeaders(hs, m)
    ensures HeadersMap(hs) == m
  {
    Assoc.FromPairsOfEnumeration(HeaderPairs(hs), m);
  }

  /** A key is bound to the value of the last header that carries it. */
  lemma HeadersLastWins(hs: seq<Header>, k: nat)
    requires k < |hs|
    requires forall j | k < j < |hs| :: hs[j].key != hs[k].key
    ensures hs[k].key in HeadersMap(hs) && HeadersMap(hs)[hs[k].key] == hs[k].value
  {
    var ps := HeaderPairs(hs);
    forall j | k < j < |ps| ensures ps[j].0 != ps[k].0 {
    }
    Assoc.FromPairsLastWins(ps, k);
  }

  /** The loop at the start of setWebhookProperties. */
  method CollectHeaders(hs: seq<Header>) returns (headers: map<string, string>)
    ensures headers == HeadersMap(hs)
  {
    headers := map[];
    for i := 0 to |hs|
      invariant headers == HeadersMap(hs[..i])
    {
      var entry := hs[i];
      headers := headers[entry.key := entry.value];
      assert HeaderPairs(hs[..i + 1]) == HeaderPairs(hs[..i]) + [HeaderPairs(hs)[i]];
      Assoc.FromPairsAppend(HeaderPairs(hs[..i]), HeaderPairs(hs)[i]);
    }
    assert hs[..|hs|] == hs;
  }

  /** transformTopicsToContentfulFormat: the topics, in order. */
  method TransformTopics(raw: seq<string>) returns (topics: seq<string>)
    ensures topics == raw
  {
    topics := [];
    for i := 0 to |raw|
      invariant topics == raw[..i]
    {
      topics := topics + [raw[i]];
      assert raw[..i + 1] == raw[..i] + [raw[i]];
    }
    assert raw[..|raw|] == raw;
  }

  /** setWebhookProperties writes these seven attributes, in this order; the password is not among them. */
  function WebhookWrites(w: Entity<WebhookBody>): seq<(string, Value)>
  {
    [("headers", StrMap(HeadersMap(w.body.headers))), ("space_id", Str(w.sys.space)), ("version", Int(w.sys.version)),
     ("name", Str(w.body.name)), ("url", Str(w.body.url)), ("http_basic_auth_username", Str(w.body.username)),
     ("topics", StrList(w.body.topics))]
  }

  method SetWebhookProperties(d: ResourceData, w: Entity<WebhookBody>) returns (err: Option<ClientError>)
    modifies d`attrs
    ensures Written(err, d.attrs) == Apply(d.schema, old(d.attrs), WebhookWrites(w))
  {
    var writes := WebhookWrites(w);
    var headers := CollectHeaders(w.body.headers);
    ApplyFirst(d.schema, d.attrs, writes[0], writes[1..]);
    err := d.Set("headers", StrMap(headers));
    if err.Some? {
      return;
    }
    ApplyFirst(d.schema, d.attrs, writes[1], writes[2..]);
    err := d.Set("space_id", Str(w.sys.space));
    if err.Some? {
      return;
    }
    ApplyFirst(d.schema, d.attrs, writes[2], writes[3..]);
    err := d.Set("version", Int(w.sys.version));
    if err.Some? {
      return;
    }
    ApplyFirst(d.schema, d.attrs, writes[3], writes[4..]);
    err := d.Set("name", Str(w.body.name));
    if err.Some? {
      return;
    }
    ApplyFirst(d.schema, d.attrs, writes[4], writes[5..]);
    err := d.Set("url", Str(w.body.url));
    if err.Some? {
      return;
    }
    ApplyFirst(d.schema, d.attrs, writes[5], writes[6..]);
    err := d.Set("http_basic_auth_username", Str(w.body.username));
    if err.Some? {
      return;
    }
    ApplyFirst(d.schema, d.attrs, writes[6], []);
    err := d.Set("topics", StrList(w.body.topics));
  }

  lemma WebhookWritesKeys(w: Entity<WebhookBody>)
    ensures KeysOf(WebhookWrites(w))
         == {"headers", "space_id", "version", "name", "url", "http_basic_auth_username", "topics"}
    ensures DistinctKeys(WebhookWrites(w))
  {
    var ws := WebhookWrites(w);
    assert ws[0].0 == "headers" && ws[1].0 == "space_id" && ws[2].0 == "version" && ws[3].0 == "name";
    assert ws[4].0 == "url" && ws[5].0 == "http_basic_auth_username" && ws[6].0 == "topics";
  }

  /** Whatever the schema and whatever fails, writing a webhook back leaves the stored password as it was. */
  lemma PasswordNeverWritten(schema: map<string, Kind>, attrs: map<string, Value>, w: Entity<WebhookBody>)
    ensures var after := Apply(schema, attrs, WebhookWrites(w)).attrs;
      && ("http_basic_auth_password" in after <==> "http_basic_auth_password" in attrs)
      && ("http_basic_auth_password" in attrs ==> after["http_basic_auth_password"] == attrs["http_basic_auth_password"])
  {
    WebhookWritesKeys(w);
    ApplyTouchesOnlyWritten(schema, attrs, WebhookWrites(w), "http_basic_auth_password");
  }

  /** The kinds the webhook schema declares for the seven written attributes. */
  lemma WebhookSchemaKinds()
    ensures "headers" in WebhookSchema && WebhookSchema["headers"] == KStrMap
    ensures "space_id" in WebhookSchema && WebhookSchema["space_id"] == KStr
    ensures "version" in WebhookSchema && WebhookSchema["version"] == KInt
    ensures "name" in WebhookSchema && WebhookSchema["name"] == KStr
    ensures "url" in WebhookSchema && WebhookSchema["url"] == KStr
    ensures "http_basic_auth_username" in WebhookSchema && WebhookSchema["http_basic_auth_username"] == KStr
    ensures "topics" in WebhookSchema && WebhookSchema["topics"] == KStrList
  {
  }

  /** Under the webhook schema the write-back cannot fail, and all seven values land, the headers as the rebuilt map. */
  lemma WebhookPropertiesLand(attrs: map<string, Value>, w: Entity<WebhookBody>)
    ensures Apply(WebhookSchema, attrs, WebhookWrites(w))
         == Written(None, attrs["headers" := StrMap(HeadersMap(w.body.headers))]["space_id" := Str(w.sys.space)]
                               ["version" := Int(w.sys.version)]["name" := Str(w.body.name)]["url" := Str(w.body.url)]
                               ["http_basic_auth_username" := Str(w.body.username)]["topics" := StrList(w.body.topics)])
  {
    WebhookSchemaKinds();
    var ws := WebhookWrites(w);
    ApplyFirst(WebhookSchema, attrs, ws[0], ws[1..]);
    var a1 := attrs[ws[0].0 := ws[0].1];
    ApplyFirst(WebhookSchema, a1, ws[1], ws[2..]);
    var a2 := a1[ws[1].0 := ws[1].1];
    ApplyFirst(WebhookSchema, a2, ws[2], ws[3..]);
    var a3 := a2[ws[2].0 := ws[2].1];
    ApplyFirst(WebhookSchema, a3, ws[3], ws[4..]);
    var a4 := a3[ws[3].0 := ws[3].1];
    ApplyFirst(WebhookSchema, a4, ws[4], ws[5..]);
    var a5 := a4[ws[4].0 := ws[4].1];
    ApplyFirst(WebhookSchema, a5, ws[5], ws[6..]);
    var a6 := a5[ws[5].0 := ws[5].1];
    ApplyFirst(WebhookSchema, a6, ws[6], []);
  }

  /** The six configured attributes of a webhook payload, the headers as a list of the configured map. */
  ghost predicate Carries(attrs: map<string, Value>, body: WebhookBody)
  {
    && body.name == StrAt(attrs, "name") && body.url == StrAt(attrs, "url")
    && body.topics == StrListAt(attrs, "topics")
    && ListsHeaders(body.headers, StrMapAt(attrs, "headers"))
    && body.username == StrAt(attrs, "http_basic_auth_username")
    && body.password == StrAt(attrs, "http_basic_auth_password")
  }

  /** Name, URL, topics, headers, username and password copied from local state. */
  method BuildBody(d: ResourceData) returns (body: WebhookBody)
    ensures Carries(d.attrs, body)
  {
    var topics := TransformTopics(d.GetStringList("topics"));
    var headers := TransformHeaders(d.GetStringMap("headers"));
    body := WebhookBody(d.GetString("name"), d.GetString("url"), topics, headers,
                        d.GetString("http_basic_auth_username"), d.GetString("http_basic_auth_password"));
  }

  /** After a successful upsert: write-back first, and the local id only when it succeeded. */
  ghost predicate SavedThenWritten(d: ResourceData, c: Collection<WebhookBody>, attrs0: map<string, Value>,
                                   id0: string, up: Reply<WebhookBody>, diags: seq<Diagnostic>)
    requires up.result.Ok?
    reads d, c
  {
    var saved := up.result.value;
    var w := Apply(d.schema, attrs0, WebhookWrites(saved));
    && diags == Translate(w.err) && c.items == up.items && d.attrs == w.attrs
    && d.id == (if w.err.Some? then id0 else saved.sys.id)
  }

  /** Upsert, setWebhookProperties, SetId: the common tail of Create and Update. */
  method SaveWebhook(d: ResourceData, c: Collection<WebhookBody>, webhook: Entity<WebhookBody>) returns (diags: seq<Diagnostic>)
    requires c.Valid()
    modifies c`items, c`next, c`log, d`attrs, d`id
    ensures c.Valid()
    ensures c.log == old(c.log) + [Call(Verb.Upsert, StrAt(old(d.attrs), "space_id"), webhook.sys.id, webhook.sys.version)]
    ensures var up := UpsertReply(old(c.items), old(c.next), c.Fault(Verb.Upsert), StrAt(old(d.attrs), "space_id"), webhook);
      if up.result.Fail? then
        diags == Translate(Some(up.result.error)) && c.items == old(c.items) && d.attrs == old(d.attrs) && d.id == old(d.id)
      else
        SavedThenWritten(d, c, old(d.attrs), old(d.id), up, diags)
  {
    var r := c.Upsert(d.GetString("space_id"), webhook);
    if r.Fail? {
      diags := ParseError(Some(r.error));
      return;
    }
    var saved := r.value;
    var err := SetWebhookProperties(d, saved);
    if err.Some? {
      diags := ParseError(err);
      return;
    }
    d.SetId(saved.sys.id);
    diags := [];
  }

  /**
   * resourceCreateWebhook: a new webhook without Sys, so the server assigns
   * the id. `sent` is the payload, whose header order is not determined.
   */
  method CreateWebhook(d: ResourceData, c: Collection<WebhookBody>) returns (diags: seq<Diagnostic>, ghost sent: Entity<WebhookBody>)
    requires c.Valid()
    modifies c`items, c`next, c`log, d`attrs, d`id
    ensures c.Valid()
    ensures c.log == old(c.log) + [Call(Verb.Upsert, StrAt(old(d.attrs), "space_id"), "", 0)]
    ensures sent.sys == Unsaved && Carries(old(d.attrs), sent.body)
    ensures var up := UpsertReply(old(c.items), old(c.next), c.Fault(Verb.Upsert), StrAt(old(d.attrs), "space_id"), sent);
      if up.result.Fail? then
        diags == Translate(Some(up.result.error)) && c.items == old(c.items) && d.attrs == old(d.attrs) && d.id == old(d.id)
      else
        SavedThenWritten(d, c, old(d.attrs), old(d.id), up, diags)
  {
    var body := BuildBody(d);
    var webhook := Entity(Unsaved, body);
    sent := webhook;
    diags := SaveWebhook(d, c, webhook);
  }

  /** resourceUpdateWebhook: the six attributes overwrite the fetched webhook, whose Sys is kept. */
  method UpdateWebhook(d: ResourceData, c: Collection<WebhookBody>) returns (diags: seq<Diagnostic>, ghost sent: Entity<WebhookBody>)
    requires c.Valid()
    modifies c`items, c`next, c`log, d`attrs, d`id
    ensures c.Valid()
    ensures var got := GetReply(old(c.items), c.Fault(Verb.Get), StrAt(old(d.attrs), "space_id"), old(d.id));
      c.log == old(c.log) + [Call(Verb.Get, StrAt(old(d.attrs), "space_id"), old(d.id), 0)]
               + (if got.Ok? then [Call(Verb.Upsert, StrAt(old(d.attrs), "space_id"), got.value.sys.id, got.value.sys.version)] else [])
    ensures var scope := StrAt(old(d.attrs), "space_id");
      var got := GetReply(old(c.items), c.Fault(Verb.Get), scope, old(d.id));
      if got.Fail? then
        diags == Translate(Some(got.error)) && c.items == old(c.items) && d.attrs == old(d.attrs) && d.id == old(d.id)
      else
        && sent.sys == got.value.sys && Carries(old(d.attrs), sent.body)
        && var up := UpsertReply(old(c.items), old(c.next), c.Fault(Verb.Upsert), scope, sent);
           if up.result.Fail? then
             diags == Translate(Some(up.result.error)) && c.items == old(c.items) && d.attrs == old(d.attrs) && d.id == old(d.id)
           else
             SavedThenWritten(d, c, old(d.attrs), old(d.id), up, diags)
  {
    var got := c.Get(d.GetString("space_id"), d.id);
    if got.Fail? {
      diags := ParseError(Some(got.error));
      sent := Entity(Unsaved, WebhookBody("", "", [], [], "", ""));
      return;
    }
    var webhook := got.value;
    var body := BuildBody(d);
    webhook := webhook.(body := body);
    sent := webhook;
    diags := SaveWebhook(d, c, webhook);
  }

  /** resourceReadWebhook: NotFound clears the id; any other error is reported before anything is written. */
  method ReadWebhook(d: ResourceData, c: Collection<WebhookBody>) returns (diags: seq<Diagnostic>)
    modifies c`log, d`attrs, d`id
    ensures c.log == old(c.log) + [Call(Verb.Get, StrAt(old(d.attrs), "space_id"), old(d.id), 0)]
    ensures var got := GetReply(c.items, c.Fault(Verb.Get), StrAt(old(d.attrs), "space_id"), old(d.id));
      if got.Fail? && got.error.NotFoundError? then
        diags == [] && d.id == "" && d.attrs == old(d.attrs)
      else if got.Fail? then
        diags == Translate(Some(got.error)) && d.id == old(d.id) && d.attrs == old(d.attrs)
      else
        var w := Apply(d.schema, old(d.attrs), WebhookWrites(got.value));
        diags == Translate(w.err) && d.attrs == w.attrs && d.id == old(d.id)
  {
    var got := c.Get(d.GetString("space_id"), d.id);
    if got.Fail? && got.error.NotFoundError? {
      d.SetId("");
      return [];
    }
    if got.Fail? {
      diags := ParseError(Some(got.error));
      return;
    }
    var err := SetWebhookProperties(d, got.value);
    diags := ParseError(err);
  }

  /** resourceDeleteWebhook: a read failure is reported; a NotFound from the delete itself counts as success. */
  method DeleteWebhook(d: ResourceData, c: Collection<WebhookBody>) returns (diags: seq<Diagnostic>)
    requires c.Valid()
    modifies c`items, c`log
    ensures c.Valid()
    ensures var scope := d.GetString("space_id");
      var got := GetReply(old(c.items), c.Fault(Verb.Get), scope, d.id);
      if got.Fail? then
        diags == Translate(Some(got.error)) && c.items == old(c.items) && c.log == old(c.log) + [Call(Verb.Get, scope, d.id, 0)]
      else
        var del := DeleteReply(old(c.items), c.Fault(Verb.Delete), scope, d.id);
        && diags == (if del.err.Some? && del.err.value.NotFoundError? then [] else Translate(del.err))
        && c.items == del.items
        && c.log == old(c.log) + [Call(Verb.Get, scope, d.id, 0), Call(Verb.Delete, scope, d.id, 0)]
  {
    var spaceId := d.GetString("space_id");
    var got := c.Get(spaceId, d.id);
    if got.Fail? {
      diags := ParseError(Some(got.error));
      return;
    }
    var webhook := got.value;
    ConsistentAt(c.items, c.next, d.id);
    var err := c.Delete(spaceId, webhook.sys.id);
    if err.Some? && err.value.NotFoundError? {
      return [];
    }
    diags := ParseError(err);
  }
}
