/**
 * The local side: Terraform's per-resource state (`schema.ResourceData`) as
 * an id plus a map of typed attribute values checked against the resource's
 * schema. `d.Get` yields the zero value of an attribute that is not set;
 * `d.Set` rejects a key the schema does not declare or a value of the wrong type.
 */
module Attributes {
  import opened Wrappers
  import opened Errors
  import Assoc

  /** One `field { id, content, locale }` block of an entry. */
  datatype FieldBlock = FieldBlock(id: string, content: string, locale: string)

  /** One `title` or `description` block of an asset. */
  datatype LocalizedBlock = LocalizedBlock(content: string, locale: string)

  datatype FileDetails = FileDetails(size: int, width: int, height: int)

  /** The asset's `file` block; an unset optional string is "". */
  datatype FileBlock = FileBlock(url: string, upload: string, details: Option<FileDetails>, uploadFrom: string,
                                 fileName: string, contentType: string)

  /** The asset's `fields` block. */
  datatype AssetFieldsBlock = AssetFieldsBlock(title: seq<LocalizedBlock>, description: seq<LocalizedBlock>,
                                               file: seq<FileBlock>)

  datatype Value =
    | Str(s: string)
    | Int(i: int)
    | Bool(b: bool)
    | StrList(strs: seq<string>)
    | StrMap(entries: map<string, string>)
    | FieldList(fields: seq<FieldBlock>)
    | AssetFieldsList(blocks: seq<AssetFieldsBlock>)

  datatype Kind = KStr | KInt | KBool | KStrList | KStrMap | KFieldList | KAssetFieldsList

  function KindOf(v: Value): Kind
  {
    match v
    case Str(_) => KStr
    case Int(_) => KInt
    case Bool(_) => KBool
    case StrList(_) => KStrList
    case StrMap(_) => KStrMap
    case FieldList(_) => KFieldList
    case AssetFieldsList(_) => KAssetFieldsList
  }

  /** Every attribute that is set is declared, with a value of its declared type. */
  ghost predicate Conforms(schema: map<string, Kind>, attrs: map<string, Value>)
  {
    forall k | k in attrs :: k in schema && schema[k] == KindOf(attrs[k])
  }

  /** The error `d.Set(k, v)` returns. */
  function SetError(schema: map<string, Kind>, k: string, v: Value): (err: Option<ClientError>)
    ensures err.None? <==> (k in schema && schema[k] == KindOf(v))
  {
    if k in schema && schema[k] == KindOf(v) then None else Some(OtherError("Invalid address to set: " + k))
  }

  datatype Written = Written(err: Option<ClientError>, attrs: map<string, Value>)

  /** A run of `d.Set` calls, each returning at once when one fails. */
  function Apply(schema: map<string, Kind>, attrs: map<string, Value>, writes: seq<(string, Value)>): Written
    decreases |writes|
  {
    if writes == [] then Written(None, attrs)
    else
      var err := SetError(schema, writes[0].0, writes[0].1);
      if err.Some? then Written(err, attrs)
      else Apply(schema, attrs[writes[0].0 := writes[0].1], writes[1..])
  }

  /** The schema declares every key written, with the type of the value written. */
  predicate Accepts(schema: map<string, Kind>, writes: seq<(string, Value)>)
  {
    forall i | 0 <= i < |writes| :: writes[i].0 in schema && schema[writes[i].0] == KindOf(writes[i].1)
  }

  /** When every write is accepted, all of them land, a later write to a key winning. */
  lemma {:induction false} ApplyAccepted(schema: map<string, Kind>, attrs: map<string, Value>, writes: seq<(string, Value)>)
    requires Accepts(schema, writes)
    ensures Apply(schema, attrs, writes) == Written(None, attrs + Assoc.FromPairs(writes))
    decreases |writes|
  {
    if writes != [] {
      var w, rest := writes[0], writes[1..];
      assert writes == [w] + rest;
      assert Accepts(schema, rest) by {
        forall i | 0 <= i < |rest| ensures rest[i].0 in schema && schema[rest[i].0] == KindOf(rest[i].1) {
          assert rest[i] == writes[i + 1];
        }
      }
      ApplyAccepted(schema, attrs[w.0 := w.1], rest);
      Assoc.FromPairsCons(w, rest);
      assert attrs[w.0 := w.1] + Assoc.FromPairs(rest) == attrs + (map[w.0 := w.1] + Assoc.FromPairs(rest));
    }
  }

  /**
   * The first rejected write ends the run: its error is returned, the writes
   * before it have landed, and it and every later write have not.
   */
  lemma {:induction false} ApplyStopsAtFirstRejected(schema: map<string, Kind>, attrs: map<string, Value>,
                                                      writes: seq<(string, Value)>, i: nat)
    requires i < |writes| && Accepts(schema, writes[..i])
    requires SetError(schema, writes[i].0, writes[i].1).Some?
    ensures Apply(schema, attrs, writes)
         == Written(SetError(schema, writes[i].0, writes[i].1), attrs + Assoc.FromPairs(writes[..i]))
    decreases i
  {
    if i == 0 {
      assert writes[..0] == [];
    } else {
      var w, rest := writes[0], writes[1..];
      assert writes[..i] == [w] + rest[..i - 1];
      assert rest[i - 1] == writes[i];
      assert SetError(schema, w.0, w.1).None? by {
        assert writes[..i][0] == w;
      }
      var pre := rest[..i - 1];
      assert Accepts(schema, pre) by {
        forall j | 0 <= j < |pre| ensures pre[j].0 in schema && schema[pre[j].0] == KindOf(pre[j].1) {
          assert pre[j] == writes[..i][j + 1];
        }
      }
      ApplyStopsAtFirstRejected(schema, attrs[w.0 := w.1], rest, i - 1);
      Assoc.FromPairsCons(w, rest[..i - 1]);
      assert attrs[w.0 := w.1] + Assoc.FromPairs(rest[..i - 1]) == attrs + (map[w.0 := w.1] + Assoc.FromPairs(rest[..i - 1]));
    }
  }

  /** Setting attributes never breaks conformance to the schema. */
  lemma {:induction false} ApplyConforms(schema: map<string, Kind>, attrs: map<string, Value>, writes: seq<(string, Value)>)
    requires Conforms(schema, attrs)
    ensures Conforms(schema, Apply(schema, attrs, writes).attrs)
    decreases |writes|
  {
    if writes != [] && SetError(schema, writes[0].0, writes[0].1).None? {
      ApplyConforms(schema, attrs[writes[0].0 := writes[0].1], writes[1..]);
    }
  }

  /** One unfolding of `Apply`, for the reconcilers' runs of `d.Set`. */
  lemma ApplyFirst(schema: map<string, Kind>, attrs: map<string, Value>, w: (string, Value), rest: seq<(string, Value)>)
    ensures Apply(schema, attrs, [w] + rest)
         == if SetError(schema, w.0, w.1).Some? then Written(SetError(schema, w.0, w.1), attrs)
            else Apply(schema, attrs[w.0 := w.1], rest)
  {
    assert ([w] + rest)[0] == w;
    assert ([w] + rest)[1..] == rest;
  }

  /** `d.Get(k)` with the type assertion the reconcilers apply: the zero value when `k` is not set. */
  function StrAt(attrs: map<string, Value>, k: string): string
  {
    if k in attrs && attrs[k].Str? then attrs[k].s else ""
  }

  function IntAt(attrs: map<string, Value>, k: string): int
  {
    if k in attrs && attrs[k].Int? then attrs[k].i else 0
  }

  function BoolAt(attrs: map<string, Value>, k: string): bool
  {
    if k in attrs && attrs[k].Bool? then attrs[k].b else false
  }

  function StrListAt(attrs: map<string, Value>, k: string): seq<string>
  {
    if k in attrs && attrs[k].StrList? then attrs[k].strs else []
  }

  function StrMapAt(attrs: map<string, Value>, k: string): map<string, string>
  {
    if k in attrs && attrs[k].StrMap? then attrs[k].entries else map[]
  }

  function FieldsAt(attrs: map<string, Value>, k: string): seq<FieldBlock>
  {
    if k in attrs && attrs[k].FieldList? then attrs[k].fields else []
  }

  function AssetFieldsAt(attrs: map<string, Value>, k: string): seq<AssetFieldsBlock>
  {
    if k in attrs && attrs[k].AssetFieldsList? then attrs[k].blocks else []
  }

  /** The keys a run of writes names. */
  function KeysOf(writes: seq<(string, Value)>): set<string>
  {
    set i | 0 <= i < |writes| :: writes[i].0
  }

  /** No key is written twice. */
  predicate DistinctKeys(writes: seq<(string, Value)>)
  {
    forall i, j | 0 <= i < j < |writes| :: writes[i].0 != writes[j].0
  }

  /** A run of writes ends without error exactly when the schema accepts every write. */
  lemma {:induction false} ApplySucceedsIffAccepted(schema: map<string, Kind>, attrs: map<string, Value>,
                                                     writes: seq<(string, Value)>)
    ensures Apply(schema, attrs, writes).err.None? <==> Accepts(schema, writes)
    decreases |writes|
  {
    if writes != [] {
      var rest := writes[1..];
      ApplySucceedsIffAccepted(schema, attrs[writes[0].0 := writes[0].1], rest);
      if Accepts(schema, writes) {
        assert Accepts(schema, rest) by {
          forall i | 0 <= i < |rest| ensures rest[i].0 in schema && schema[rest[i].0] == KindOf(rest[i].1) {
            assert rest[i] == writes[i + 1];
          }
        }
      }
    }
  }

  /** Attributes no write names are left as they were, whatever the outcome. */
  lemma {:induction false} ApplyTouchesOnlyWritten(schema: map<string, Kind>, attrs: map<string, Value>,
                                                    writes: seq<(string, Value)>, k: string)
    requires k !in KeysOf(writes)
    ensures var after := Apply(schema, attrs, writes).attrs;
      (k in after <==> k in attrs) && (k in attrs ==> after[k] == attrs[k])
    decreases |writes|
  {
    if writes != [] && SetError(schema, writes[0].0, writes[0].1).None? {
      var rest := writes[1..];
      assert k !in KeysOf(rest) by {
        forall i | 0 <= i < |rest| ensures rest[i].0 != k {
          assert rest[i] == writes[i + 1];
        }
      }
      assert writes[0].0 in KeysOf(writes);
      ApplyTouchesOnlyWritten(schema, attrs[writes[0].0 := writes[0].1], rest, k);
    }
  }

  /** After an error-free run of writes to distinct keys, each key holds the value written to it. */
  lemma ApplyLands(schema: map<string, Kind>, attrs: map<string, Value>, writes: seq<(string, Value)>, i: nat)
    requires i < |writes| && DistinctKeys(writes) && Apply(schema, attrs, writes).err.None?
    ensures writes[i].0 in Apply(schema, attrs, writes).attrs
    ensures Apply(schema, attrs, writes).attrs[writes[i].0] == writes[i].1
  {
    ApplySucceedsIffAccepted(schema, attrs, writes);
    ApplyAccepted(schema, attrs, writes);
    Assoc.FromPairsLastWins(writes, i);
    assert writes[i].0 in Assoc.FromPairs(writes);
  }

  /** Writing back values local state already holds is accepted and changes nothing. */
  lemma {:induction false} ApplyStoredChangesNothing(schema: map<string, Kind>, attrs: map<string, Value>,
                                                      writes: seq<(string, Value)>)
    requires Conforms(schema, attrs)
    requires forall i | 0 <= i < |writes| :: writes[i].0 in attrs && attrs[writes[i].0] == writes[i].1
    ensures Apply(schema, attrs, writes) == Written(None, attrs)
    decreases |writes|
  {
    if writes != [] {
      var w, rest := writes[0], writes[1..];
      assert attrs[w.0 := w.1] == attrs;
      forall i | 0 <= i < |rest| ensures rest[i].0 in attrs && attrs[rest[i].0] == rest[i].1 {
        assert rest[i] == writes[i + 1];
      }
      ApplyStoredChangesNothing(schema, attrs, rest);
    }
  }

  class ResourceData {
    const schema: map<string, Kind>
    var id: string
    var attrs: map<string, Value>

    ghost predicate Valid()
      reads this
    {
      Conforms(schema, attrs)
    }

    constructor (schema: map<string, Kind>, id: string, attrs: map<string, Value>)
      ensures this.schema == schema && this.id == id && this.attrs == attrs
    {
      this.schema, this.id, this.attrs := schema, id, attrs;
    }

    function GetString(k: string): string
      reads this
    {
      StrAt(attrs, k)
    }

    function GetInt(k: string): int
      reads this
    {
      IntAt(attrs, k)
    }

    function GetBool(k: string): bool
      reads this
    {
      BoolAt(attrs, k)
    }

    function GetStringList(k: string): seq<string>
      reads this
    {
      StrListAt(attrs, k)
    }

    function GetStringMap(k: string): map<string, string>
      reads this
    {
      StrMapAt(attrs, k)
    }

    function GetFields(k: string): seq<FieldBlock>
      reads this
    {
      FieldsAt(attrs, k)
    }

    function GetAssetFields(k: string): seq<AssetFieldsBlock>
      reads this
    {
      AssetFieldsAt(attrs, k)
    }

    method Set(k: string, v: Value) returns (err: Option<ClientError>)
      modifies this`attrs
      ensures Written(err, attrs) == Apply(schema, old(attrs), [(k, v)])
      ensures old(Valid()) ==> Valid()
    {
      err := SetError(schema, k, v);
      if err.None? {
        attrs := attrs[k := v];
      }
      ApplyFirst(schema, old(attrs), (k, v), []);
    }

    method SetId(newId: string)
      modifies this`id
      ensures id == newId
    {
      id := newId;
    }
  }
}
