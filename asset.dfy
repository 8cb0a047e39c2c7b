/**
 * resource_contentful_asset.go: the title, description and file payload built
 * from the `fields` block, the lifecycle pass and the four reconcilers.
 */
module Assets {
  import opened Wrappers
  import opened Errors
  import Assoc
  import opened Remote
  import opened Attributes
  import opened Lifecycle

  /**
   * contentful.File as the reconcilers fill it. URL and UploadURL are Go
   * strings left empty when unset, UploadFrom and Details are pointers left
   * nil; all four are None when unset.
   */
  datatype File = File(fileName: string, contentType: string, url: Option<string>, uploadUrl: Option<string>,
                       uploadFrom: Option<string>, details: Option<FileDetails>)

  datatype AssetBody = AssetBody(locale: string, title: map<string, string>, description: map<string, string>,
                                 file: map<string, File>)

  const AssetSchema: map<string, Kind> :=
    map["asset_id" := KStr, "version" := KInt, "locale" := KStr, "space_id" := KStr,
        "fields" := KAssetFieldsList, "published" := KBool, "archived" := KBool]

  /** What Create and Update return for a `fields` block without a `file` block. */
  const FileBlockMissing: Diagnostic := Diagnostic(Error, "file block not defined in asset")

  /** What one iteration of the title or description loop stores: content under its locale. */
  function LocalizedPairs(raw: seq<LocalizedBlock>): seq<(string, string)>
  {
    seq(|raw|, i requires 0 <= i < |raw| => (raw[i].locale, raw[i].content))
  }

  function LocalizedOf(raw: seq<LocalizedBlock>): map<string, string>
  {
    Assoc.FromPairs(LocalizedPairs(raw))
  }

  /** The loop that fills localizedTitle, and the same one for localizedDescription. */
  method BuildLocalized(raw: seq<LocalizedBlock>) returns (localized: map<string, string>)
    ensures localized == LocalizedOf(raw)
  {
    localized := map[];
    for i := 0 to |raw|
      invariant localized == LocalizedOf(raw[..i])
    {
      var field := raw[i];
      localized := localized[field.locale := field.content];
      assert LocalizedPairs(raw[..i + 1]) == LocalizedPairs(raw[..i]) + [LocalizedPairs(raw)[i]];
      Assoc.FromPairsAppend(LocalizedPairs(raw[..i]), LocalizedPairs(raw)[i]);
    }
    assert raw[..|raw|] == raw;
  }

  /** One entry per distinct locale of the blocks. */
  lemma LocalizedKeys(raw: seq<LocalizedBlock>)
    ensures LocalizedOf(raw).Keys == set i | 0 <= i < |raw| :: raw[i].locale
  {
    var ps := LocalizedPairs(raw);
    Assoc.FromPairsKeys(ps);
    assert (set i | 0 <= i < |ps| :: ps[i].0) == set i | 0 <= i < |raw| :: raw[i].locale by {
      forall i | 0 <= i < |raw| ensures ps[i].0 == raw[i].locale {
      }
    }
  }

  /** A locale holds the content of the last block that names it. */
  lemma LocalizedLastWins(raw: seq<LocalizedBlock>, k: nat)
    requires k < |raw|
    requires forall j | k < j < |raw| :: raw[j].locale != raw[k].locale
    ensures raw[k].locale in LocalizedOf(raw) && LocalizedOf(raw)[raw[k].locale] == raw[k].content
  {
    var ps := LocalizedPairs(raw);
    forall j | k < j < |ps| ensures ps[j].0 != ps[k].0 {
    }
    Assoc.FromPairsLastWins(ps, k);
  }

  /**
   * The file descriptor: name and content type always; URL, UploadURL and
   * UploadFrom only from a non-empty input string. Details are looked up under
   * the key "file_details", which the block does not have, so they are never set.
   */
  function FileOf(block: FileBlock): (f: File)
    ensures f.fileName == block.fileName && f.contentType == block.contentType
    ensures (f.url.Some? <==> block.url != "") && (f.url.Some? ==> f.url.value == block.url)
    ensures (f.uploadUrl.Some? <==> block.upload != "") && (f.uploadUrl.Some? ==> f.uploadUrl.value == block.upload)
    ensures (f.uploadFrom.Some? <==> block.uploadFrom != "") && (f.uploadFrom.Some? ==> f.uploadFrom.value == block.uploadFrom)
    ensures f.details.None?
  {
    File(block.fileName, block.contentType,
         if block.url != "" then Some(block.url) else None,
         if block.upload != "" then Some(block.upload) else None,
         if block.uploadFrom != "" then Some(block.uploadFrom) else None,
         None)
  }

  /** The descriptor written in place, one optional field at a time. */
  method DescribeFile(block: FileBlock) returns (f: File)
    ensures f == FileOf(block)
  {
    f := File(block.fileName, block.contentType, None, None, None, None);
    if block.url != "" {
      f := f.(url := Some(block.url));
    }
    if block.upload != "" {
      f := f.(uploadUrl := Some(block.upload));
    }
    if block.uploadFrom != "" {
      f := f.(uploadFrom := Some(block.uploadFrom));
    }
  }

  /**
   * The asset Create and Update send, built from the first `fields` block,
   * under the `asset_id` attribute and the given version; None when that block
   * has no `file` block. The file map holds one descriptor, under the resource's
   * locale, built from the first `file` block.
   */
  function AssetPayload(attrs: map<string, Value>, version: int): (r: Option<Entity<AssetBody>>)
    requires |AssetFieldsAt(attrs, "fields")| > 0
    ensures var fields := AssetFieldsAt(attrs, "fields")[0];
      && (r.None? <==> fields.file == [])
      && (r.Some? ==>
            && r.value.sys.id == StrAt(attrs, "asset_id") && r.value.sys.version == version
            && r.value.body.locale == StrAt(attrs, "locale")
            && r.value.body.title == LocalizedOf(fields.title)
            && r.value.body.description == LocalizedOf(fields.description)
            && r.value.body.file.Keys == {StrAt(attrs, "locale")}
            && r.value.body.file[StrAt(attrs, "locale")] == FileOf(fields.file[0]))
  {
    var fields := AssetFieldsAt(attrs, "fields")[0];
    if fields.file == [] then None
    else
      var locale := StrAt(attrs, "locale");
      Some(Entity(Unsaved.(id := StrAt(attrs, "asset_id"), version := version),
                  AssetBody(locale, LocalizedOf(fields.title), LocalizedOf(fields.description),
                            map[locale := FileOf(fields.file[0])])))
  }

  method BuildPayload(d: ResourceData, version: int) returns (asset: Option<Entity<AssetBody>>)
    requires |d.GetAssetFields("fields")| > 0
    ensures asset == AssetPayload(d.attrs, version)
  {
    var fields := d.GetAssetFields("fields")[0];
    var title := BuildLocalized(fields.title);
    var description := BuildLocalized(fields.description);
    if fields.file == [] {
      return None;
    }
    var file := DescribeFile(fields.file[0]);
    var locale := d.GetString("locale");
    asset := Some(Entity(Unsaved.(id := d.GetString("asset_id"), version := version),
                         AssetBody(locale, title, description, map[locale := file])));
  }

  /** setAssetProperties writes space_id and version, in that order. */
  function AssetWrites(e: Entity<AssetBody>): seq<(string, Value)>
  {
    [("space_id", Str(e.sys.space)), ("version", Int(e.sys.version))]
  }

  method SetAssetProperties(d: ResourceData, e: Entity<AssetBody>) returns (err: Option<ClientError>)
    modifies d`attrs
    ensures Written(err, d.attrs) == Apply(d.schema, old(d.attrs), AssetWrites(e))
  {
    var writes := AssetWrites(e);
    ApplyFirst(d.schema, d.attrs, writes[0], writes[1..]);
    err := d.Set("space_id", Str(e.sys.space));
    if err.Some? {
      return;
    }
    ApplyFirst(d.schema, d.attrs, writes[1], []);
    err := d.Set("version", Int(e.sys.version));
  }

  /** Under the asset schema setAssetProperties cannot fail: both attributes land and nothing else changes. */
  lemma AssetPropertiesLand(attrs: map<string, Value>, e: Entity<AssetBody>)
    ensures Apply(AssetSchema, attrs, AssetWrites(e))
         == Written(None, attrs["space_id" := Str(e.sys.space)]["version" := Int(e.sys.version)])
  {
    var w := AssetWrites(e);
    ApplyFirst(AssetSchema, attrs, w[0], w[1..]);
    ApplyFirst(AssetSchema, attrs[w[0].0 := w[0].1], w[1], []);
  }

  /** After setAssetProperties succeeded, the space is the saved one and the lifecycle targets are as before. */
  lemma AfterAssetProperties(schema: map<string, Kind>, attrs0: map<string, Value>, saved: Entity<AssetBody>)
    requires Apply(schema, attrs0, AssetWrites(saved)).err.None?
    ensures var attrs := Apply(schema, attrs0, AssetWrites(saved)).attrs;
      && StrAt(attrs, "space_id") == saved.sys.space
      && BoolAt(attrs, "published") == BoolAt(attrs0, "published")
      && BoolAt(attrs, "archived") == BoolAt(attrs0, "archived")
  {
    var w := AssetWrites(saved);
    assert KeysOf(w) == {"space_id", "version"} by {
      assert w[0].0 == "space_id" && w[1].0 == "version";
    }
    ApplyLands(schema, attrs0, w, 0);
    ApplyTouchesOnlyWritten(schema, attrs0, w, "published");
    ApplyTouchesOnlyWritten(schema, attrs0, w, "archived");
  }

  /**
   * setAssetState: one snapshot read, the asset pass, then setAssetProperties
   * on the entity as the last call left it. The snapshot read ignores its
   * error; the Go code would dereference a nil asset if it failed, so a
   * successful read is required.
   */
  method SetAssetState(d: ResourceData, c: Collection<AssetBody>) returns (err: Option<ClientError>)
    requires c.Valid() && GetReply(c.items, c.Fault(Verb.Get), d.GetString("space_id"), d.id).Ok?
    modifies c`items, c`log, d`attrs
    ensures c.Valid()
    ensures var scope := StrAt(old(d.attrs), "space_id");
      var pass := AssetPass(old(c.items), c.next, c.faults, scope, GetReply(old(c.items), c.Fault(Verb.Get), scope, d.id).value,
                            BoolAt(old(d.attrs), "published"), BoolAt(old(d.attrs), "archived"));
      && c.items == pass.items
      && c.log == old(c.log) + [Call(Verb.Get, scope, d.id, 0)] + pass.calls
      && (pass.err.Some? ==> err == pass.err && d.attrs == old(d.attrs))
      && (pass.err.None? ==> Written(err, d.attrs) == Apply(d.schema, old(d.attrs), AssetWrites(pass.entity)))
  {
    var spaceId := d.GetString("space_id");
    var got := c.Get(spaceId, d.id);
    var asset := got.value;
    var after;
    err, after := RunAssetPass(c, spaceId, asset, d.GetBool("published"), d.GetBool("archived"));
    if err.Some? {
      return;
    }
    err := SetAssetProperties(d, after);
  }

  /**
   * What follows a successful upsert, for Create and Update alike: Process,
   * then the local id, setAssetProperties and the lifecycle pass from the saved
   * asset, with setAssetProperties once more at its end. `log0` is the call
   * log up to and including the upsert.
   */
  ghost predicate SavedThenProcessed(d: ResourceData, c: Collection<AssetBody>, attrs0: map<string, Value>,
                                     id0: string, scope: string, up: Reply<AssetBody>, log0: seq<Call>,
                                     diags: seq<Diagnostic>)
    requires up.result.Ok?
    reads d, c
  {
    var saved := up.result.value;
    var processed := ProcessReply(up.items, c.Fault(Verb.Process), scope, saved);
    var processLog := log0 + [Call(Verb.Process, scope, saved.sys.id, saved.sys.version)];
    if processed.Some? then
      diags == Translate(processed) && c.items == up.items && d.attrs == attrs0 && d.id == id0 && c.log == processLog
    else
      var w := Apply(d.schema, attrs0, AssetWrites(saved));
      && d.id == saved.sys.id
      && if w.err.Some? then
           diags == Translate(w.err) && c.items == up.items && d.attrs == w.attrs && c.log == processLog
         else
           var pass := AssetPass(up.items, up.next, c.faults, scope, saved, BoolAt(attrs0, "published"), BoolAt(attrs0, "archived"));
           && c.items == pass.items
           && c.log == processLog + [Call(Verb.Get, scope, saved.sys.id, 0)] + pass.calls
           && if pass.err.Some? then
                diags == Translate(pass.err) && d.attrs == w.attrs
              else
                var w' := Apply(d.schema, w.attrs, AssetWrites(pass.entity));
                diags == Translate(w'.err) && d.attrs == w'.attrs
  }

  /** Upsert, Process, SetId, setAssetProperties, setAssetState: the common tail of Create and Update. */
  method SaveAsset(d: ResourceData, c: Collection<AssetBody>, asset: Entity<AssetBody>) returns (diags: seq<Diagnostic>)
    requires c.Valid() && c.Fault(Verb.Get).None?
    modifies c`items, c`next, c`log, d`attrs, d`id
    ensures c.Valid()
    ensures var scope := StrAt(old(d.attrs), "space_id");
      var up := UpsertReply(old(c.items), old(c.next), c.Fault(Verb.Upsert), scope, asset);
      var upserted := old(c.log) + [Call(Verb.Upsert, scope, asset.sys.id, asset.sys.version)];
      if up.result.Fail? then
        diags == Translate(Some(up.result.error)) && c.items == old(c.items) && d.attrs == old(d.attrs) && d.id == old(d.id)
        && c.log == upserted
      else
        SavedThenProcessed(d, c, old(d.attrs), old(d.id), scope, up, upserted, diags)
  {
    var spaceId := d.GetString("space_id");
    var r := c.Upsert(spaceId, asset);
    if r.Fail? {
      diags := ParseError(Some(r.error));
      return;
    }
    var saved := r.value;
    SavedThenReadBack(old(c.items), old(c.next), spaceId, asset);
    var err := c.Process(spaceId, saved);
    if err.Some? {
      diags := ParseError(err);
      return;
    }
    d.SetId(saved.sys.id);
    err := SetAssetProperties(d, saved);
    if err.Some? {
      diags := ParseError(err);
      return;
    }
    AfterAssetProperties(d.schema, old(d.attrs), saved);
    err := SetAssetState(d, c);
    diags := ParseError(err);
  }

  /**
   * resourceCreateAsset: the payload under `asset_id` with version 0, or the
   * missing-file error before any call. Indexing the first `fields` block
   * panics on an empty list, so one is required; so is a snapshot read that
   * does not fail, as in setAssetState.
   */
  method CreateAsset(d: ResourceData, c: Collection<AssetBody>) returns (diags: seq<Diagnostic>)
    requires c.Valid() && c.Fault(Verb.Get).None? && |d.GetAssetFields("fields")| > 0
    modifies c`items, c`next, c`log, d`attrs, d`id
    ensures c.Valid()
    ensures var scope := StrAt(old(d.attrs), "space_id");
      var payload := AssetPayload(old(d.attrs), 0);
      if payload.None? then
        diags == [FileBlockMissing] && c.items == old(c.items) && c.log == old(c.log) && d.attrs == old(d.attrs) && d.id == old(d.id)
      else
        var up := UpsertReply(old(c.items), old(c.next), c.Fault(Verb.Upsert), scope, payload.value);
        var upserted := old(c.log) + [Call(Verb.Upsert, scope, payload.value.sys.id, 0)];
        if up.result.Fail? then
          diags == Translate(Some(up.result.error)) && c.items == old(c.items) && d.attrs == old(d.attrs) && d.id == old(d.id)
          && c.log == upserted
        else
          SavedThenProcessed(d, c, old(d.attrs), old(d.id), scope, up, upserted, diags)
  {
    var asset := BuildPayload(d, 0);
    if asset.None? {
      return [FileBlockMissing];
    }
    diags := SaveAsset(d, c, asset.value);
  }

  /**
   * resourceUpdateAsset: the fetched asset only proves existence and is
   * dropped; the payload is rebuilt as in Create but carries the locally
   * stored version.
   */
  method UpdateAsset(d: ResourceData, c: Collection<AssetBody>) returns (diags: seq<Diagnostic>)
    requires c.Valid()
    requires GetReply(c.items, c.Fault(Verb.Get), d.GetString("space_id"), d.id).Ok? ==> |d.GetAssetFields("fields")| > 0
    modifies c`items, c`next, c`log, d`attrs, d`id
    ensures c.Valid()
    ensures var scope := StrAt(old(d.attrs), "space_id");
      var got := GetReply(old(c.items), c.Fault(Verb.Get), scope, old(d.id));
      var read := old(c.log) + [Call(Verb.Get, scope, old(d.id), 0)];
      if got.Fail? then
        diags == Translate(Some(got.error)) && c.items == old(c.items) && d.attrs == old(d.attrs) && d.id == old(d.id)
        && c.log == read
      else
        var payload := AssetPayload(old(d.attrs), IntAt(old(d.attrs), "version"));
        if payload.None? then
          diags == [FileBlockMissing] && c.items == old(c.items) && d.attrs == old(d.attrs) && d.id == old(d.id)
          && c.log == read
        else
          var up := UpsertReply(old(c.items), old(c.next), c.Fault(Verb.Upsert), scope, payload.value);
          var upserted := read + [Call(Verb.Upsert, scope, payload.value.sys.id, payload.value.sys.version)];
          if up.result.Fail? then
            diags == Translate(Some(up.result.error)) && c.items == old(c.items) && d.attrs == old(d.attrs) && d.id == old(d.id)
            && c.log == upserted
          else
            SavedThenProcessed(d, c, old(d.attrs), old(d.id), scope, up, upserted, diags)
  {
    var got := c.Get(d.GetString("space_id"), d.id);
    if got.Fail? {
      diags := ParseError(Some(got.error));
      return;
    }
    var asset := BuildPayload(d, d.GetInt("version"));
    if asset.None? {
      return [FileBlockMissing];
    }
    diags := SaveAsset(d, c, asset.value);
  }

  /**
   * The update is checked against the version in local state, not the one just
   * fetched: a stale local version is rejected even though the asset exists.
   */
  lemma StaleLocalVersionIsRejected(items: map<string, Entity<AssetBody>>, next: nat, scope: string,
                                    attrs: map<string, Value>)
    requires |AssetFieldsAt(attrs, "fields")| > 0
    requires AssetPayload(attrs, IntAt(attrs, "version")).Some?
    requires IntAt(attrs, "version") != 0
    requires Find(items, scope, StrAt(attrs, "asset_id")).Some?
    requires items[StrAt(attrs, "asset_id")].sys.version != IntAt(attrs, "version")
    ensures UpsertReply(items, next, None, scope, AssetPayload(attrs, IntAt(attrs, "version")).value)
         == Reply(Fail(VersionMismatch), items, next)
  {
    UpdateIsOptimistic(items, next, scope, AssetPayload(attrs, IntAt(attrs, "version")).value);
  }

  /**
   * resourceReadAsset: a NotFound clears the local id and reports nothing.
   * Any other read error would be dereferenced as a nil asset, so it is ruled out.
   */
  method ReadAsset(d: ResourceData, c: Collection<AssetBody>) returns (diags: seq<Diagnostic>)
    requires c.Fault(Verb.Get).None? || c.Fault(Verb.Get).value.NotFoundError?
    modifies c`log, d`attrs, d`id
    ensures c.log == old(c.log) + [Call(Verb.Get, StrAt(old(d.attrs), "space_id"), old(d.id), 0)]
    ensures var got := GetReply(c.items, c.Fault(Verb.Get), StrAt(old(d.attrs), "space_id"), old(d.id));
      if got.Fail? then
        diags == [] && d.id == "" && d.attrs == old(d.attrs)
      else
        var w := Apply(d.schema, old(d.attrs), AssetWrites(got.value));
        diags == Translate(w.err) && d.attrs == w.attrs && d.id == old(d.id)
  {
    var got := c.Get(d.GetString("space_id"), d.id);
    if got.Fail? && got.error.NotFoundError? {
      d.SetId("");
      return [];
    }
    var err := SetAssetProperties(d, got.value);
    diags := ParseError(err);
  }

  /** resourceDeleteAsset: any read failure, NotFound included, is reported; otherwise the fetched asset is deleted. */
  method DeleteAsset(d: ResourceData, c: Collection<AssetBody>) returns (diags: seq<Diagnostic>)
    requires c.Valid()
    modifies c`items, c`log
    ensures c.Valid()
    ensures var scope := d.GetString("space_id");
      var got := GetReply(old(c.items), c.Fault(Verb.Get), scope, d.id);
      if got.Fail? then
        diags == Translate(Some(got.error)) && c.items == old(c.items) && c.log == old(c.log) + [Call(Verb.Get, scope, d.id, 0)]
      else
        var del := DeleteReply(old(c.items), c.Fault(Verb.Delete), scope, d.id);
        && diags == Translate(del.err) && c.items == del.items
        && c.log == old(c.log) + [Call(Verb.Get, scope, d.id, 0), Call(Verb.Delete, scope, d.id, 0)]
  {
    var spaceId := d.GetString("space_id");
    var got := c.Get(spaceId, d.id);
    if got.Fail? {
      diags := ParseError(Some(got.error));
      return;
    }
    var asset := got.value;
    ConsistentAt(c.items, c.next, d.id);
    var err := c.Delete(spaceId, asset.sys.id);
    diags := ParseError(err);
  }
}
