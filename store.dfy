/**
 * The remote side: an in-memory stand-in for one entity collection of the
 * Contentful management API (client.Spaces, client.Entries, ...). The
 * reconcilers only see it through the calls of `Collection`. Each verb can be
 * made to fail with a chosen error, and every call is recorded in a log.
 */
module Remote {
  import opened Wrappers
  import opened Errors

  /** System metadata; `published`/`archived` stand for a non-empty PublishedAt/ArchivedAt. */
  datatype Sys = Sys(id: string, version: int, space: string, contentType: string, published: bool, archived: bool)

  /** The Sys of a payload that was never saved: Go's nil Sys, or one with Version 0. */
  const Unsaved: Sys := Sys("", 0, "", "", false, false)

  datatype Entity<T> = Entity(sys: Sys, body: T)

  datatype Verb = Get | Upsert | Delete | Process | Publish | Unpublish | Archive | Unarchive
  {
    predicate IsLifecycle()
    {
      Publish? || Unpublish? || Archive? || Unarchive?
    }
  }

  /** One call as the store saw it: the verb, the space it was scoped to, the id and the version sent. */
  datatype Call = Call(verb: Verb, scope: string, id: string, version: int)

  const NotFound: ClientError := NotFoundError("The resource could not be found.")
  const VersionMismatch: ClientError := OtherError("Version mismatch")
  const PublishArchived: ClientError := OtherError("Cannot publish an archived entity")

  function FaultOf(faults: map<Verb, ClientError>, v: Verb): Option<ClientError>
  {
    if v in faults then Some(faults[v]) else None
  }

  function Find<T>(items: map<string, Entity<T>>, scope: string, id: string): Option<Entity<T>>
  {
    if id in items && items[id].sys.space == scope then Some(items[id]) else None
  }

  /** A server-assigned id; it is longer than every id already in use. */
  function FreshId(next: nat): (id: string)
    ensures |id| == next + 1
  {
    seq(next + 1, _ => '0')
  }

  /**
   * What the store keeps true: each entity is filed under its own non-empty id,
   * no id is longer than the id counter, saved versions are positive, and no
   * entity is published and archived at once.
   */
  ghost predicate Consistent<T>(items: map<string, Entity<T>>, next: nat)
  {
    forall id {:trigger Filed(items, id)} | Filed(items, id) :: WellFiled(items[id], id, next)
  }

  /** `id` is a key of the store: the term under which `Consistent` is put to use. */
  ghost predicate Filed<T>(items: map<string, Entity<T>>, id: string)
  {
    id in items
  }

  ghost predicate WellFiled<T>(e: Entity<T>, id: string, next: nat)
  {
    && e.sys.id == id
    && 0 < |id| <= next
    && e.sys.version > 0
    && !(e.sys.published && e.sys.archived)
  }

  lemma ConsistentAt<T>(items: map<string, Entity<T>>, next: nat, id: string)
    requires Consistent(items, next) && id in items
    ensures WellFiled(items[id], id, next)
  {
    assert Filed(items, id);
  }

  /** Filing a well-formed entity, with the counter not lowered, keeps the store consistent. */
  lemma ConsistentUpdate<T>(items: map<string, Entity<T>>, next: nat, next': nat, id: string, e: Entity<T>)
    requires Consistent(items, next) && next <= next' && WellFiled(e, id, next')
    ensures Consistent(items[id := e], next')
  {
    var after := items[id := e];
    forall k | Filed(after, k) ensures WellFiled(after[k], k, next') {
      if k != id {
        ConsistentAt(items, next, k);
      }
    }
  }

  /** The answer to a call and the store afterwards. */
  datatype Reply<T> = Reply(result: Result<Entity<T>, ClientError>, items: map<string, Entity<T>>, next: nat)

  function GetReply<T>(items: map<string, Entity<T>>, fault: Option<ClientError>, scope: string, id: string)
    : Result<Entity<T>, ClientError>
  {
    if fault.Some? then Fail(fault.value)
    else
      match Find(items, scope, id)
      case None => Fail(NotFound)
      case Some(e) => Ok(e)
  }

  /**
   * Version 0 creates, under the payload's id or a fresh one, and fails if
   * the id is taken; any other version must match the stored one, which it
   * then advances by one.
   */
  function UpsertReply<T>(items: map<string, Entity<T>>, next: nat, fault: Option<ClientError>, scope: string, e: Entity<T>)
    : Reply<T>
  {
    if fault.Some? then Reply(Fail(fault.value), items, next)
    else if e.sys.version == 0 then
      var id := if e.sys.id == "" then FreshId(next) else e.sys.id;
      if id in items then Reply(Fail(VersionMismatch), items, next)
      else
        var saved := Entity(Sys(id, 1, scope, e.sys.contentType, false, false), e.body);
        Reply(Ok(saved), items[id := saved], if |id| > next then |id| else next)
    else
      match Find(items, scope, e.sys.id)
      case None => Reply(Fail(NotFound), items, next)
      case Some(current) =>
        if current.sys.version != e.sys.version then Reply(Fail(VersionMismatch), items, next)
        else
          var saved := Entity(current.sys.(version := current.sys.version + 1), e.body);
          Reply(Ok(saved), items[e.sys.id := saved], next)
  }

  /** The Sys after a successful lifecycle call; archiving also unpublishes. */
  function Transitioned(s: Sys, verb: Verb): Sys
    requires verb.IsLifecycle()
  {
    var bumped := s.(version := s.version + 1);
    match verb
    case Publish => bumped.(published := true)
    case Unpublish => bumped.(published := false)
    case Archive => bumped.(archived := true, published := false)
    case Unarchive => bumped.(archived := false)
  }

  /** Publish, Unpublish, Archive and Unarchive: versioned like an update; an archived entity cannot be published. */
  function TransitionReply<T>(items: map<string, Entity<T>>, next: nat, fault: Option<ClientError>, scope: string,
                              e: Entity<T>, verb: Verb): Reply<T>
    requires verb.IsLifecycle()
  {
    if fault.Some? then Reply(Fail(fault.value), items, next)
    else
      match Find(items, scope, e.sys.id)
      case None => Reply(Fail(NotFound), items, next)
      case Some(current) =>
        if current.sys.version != e.sys.version then Reply(Fail(VersionMismatch), items, next)
        else if verb == Publish && current.sys.archived then Reply(Fail(PublishArchived), items, next)
        else
          var saved := Entity(Transitioned(current.sys, verb), current.body);
          Reply(Ok(saved), items[e.sys.id := saved], next)
  }

  datatype Removal<T> = Removal(err: Option<ClientError>, items: map<string, Entity<T>>)

  function DeleteReply<T>(items: map<string, Entity<T>>, fault: Option<ClientError>, scope: string, id: string): Removal<T>
  {
    if fault.Some? then Removal(fault, items)
    else if Find(items, scope, id).None? then Removal(Some(NotFound), items)
    else Removal(None, map k | k in items && k != id :: items[k])
  }

  /** Asset processing: only the outcome is visible to the reconciler. */
  function ProcessReply<T>(items: map<string, Entity<T>>, fault: Option<ClientError>, scope: string, e: Entity<T>)
    : Option<ClientError>
  {
    if fault.Some? then fault
    else if Find(items, scope, e.sys.id).None? then Some(NotFound)
    else None
  }

  lemma UpsertKeepsConsistent<T>(items: map<string, Entity<T>>, next: nat, fault: Option<ClientError>, scope: string, e: Entity<T>)
    requires Consistent(items, next)
    ensures var r := UpsertReply(items, next, fault, scope, e); Consistent(r.items, r.next) && r.next >= next
  {
    if fault.None? && e.sys.version == 0 {
      var id := if e.sys.id == "" then FreshId(next) else e.sys.id;
      if id !in items {
        var saved := Entity(Sys(id, 1, scope, e.sys.contentType, false, false), e.body);
        var next' := if |id| > next then |id| else next;
        assert UpsertReply(items, next, fault, scope, e) == Reply(Ok(saved), items[id := saved], next');
        ConsistentUpdate(items, next, next', id, saved);
      }
    } else if fault.None? && Find(items, scope, e.sys.id).Some? {
      var current := items[e.sys.id];
      ConsistentAt(items, next, e.sys.id);
      if current.sys.version == e.sys.version {
        var saved := Entity(current.sys.(version := current.sys.version + 1), e.body);
        assert UpsertReply(items, next, fault, scope, e) == Reply(Ok(saved), items[e.sys.id := saved], next);
        ConsistentUpdate(items, next, next, e.sys.id, saved);
      }
    }
  }

  lemma TransitionKeepsConsistent<T>(items: map<string, Entity<T>>, next: nat, fault: Option<ClientError>, scope: string,
                                     e: Entity<T>, verb: Verb)
    requires verb.IsLifecycle() && Consistent(items, next)
    ensures var r := TransitionReply(items, next, fault, scope, e, verb); Consistent(r.items, next) && r.next == next
  {
    if fault.None? && Find(items, scope, e.sys.id).Some? {
      var current := items[e.sys.id];
      if current.sys.version == e.sys.version && !(verb == Publish && current.sys.archived) {
        var saved := Entity(Transitioned(current.sys, verb), current.body);
        ConsistentAt(items, next, e.sys.id);
        TransitionedKeepsFlags(current.sys, verb);
        assert TransitionReply(items, next, fault, scope, e, verb) == Reply(Ok(saved), items[e.sys.id := saved], next);
        ConsistentUpdate(items, next, next, e.sys.id, saved);
      }
    }
  }

  lemma TransitionedKeepsFlags(s: Sys, verb: Verb)
    requires verb.IsLifecycle() && !(s.published && s.archived) && !(verb == Publish && s.archived)
    ensures var t := Transitioned(s, verb);
      t.id == s.id && t.space == s.space && t.version == s.version + 1 && !(t.published && t.archived)
  {
  }

  lemma DeleteKeepsConsistent<T>(items: map<string, Entity<T>>, next: nat, fault: Option<ClientError>, scope: string, id: string)
    requires Consistent(items, next)
    ensures Consistent(DeleteReply(items, fault, scope, id).items, next)
  {
    var after := DeleteReply(items, fault, scope, id).items;
    forall k | Filed(after, k) ensures WellFiled(after[k], k, next) {
      ConsistentAt(items, next, k);
    }
  }

  /**
   * A successful create files the payload under a new id: the payload's own
   * id when it has one, else an id not in use; the version starts at 1 and
   * the entity is neither published nor archived. A create fails exactly when
   * the chosen id is already taken.
   */
  lemma CreateFilesUnderNewId<T>(items: map<string, Entity<T>>, next: nat, scope: string, e: Entity<T>)
    requires Consistent(items, next) && e.sys.version == 0
    ensures var r := UpsertReply(items, next, None, scope, e);
      && (r.result.Ok? <==> (e.sys.id == "" || e.sys.id !in items))
      && (r.result.Ok? ==>
            var s := r.result.value.sys;
            && s.id !in items && s.id != ""
            && (e.sys.id != "" ==> s.id == e.sys.id)
            && s.version == 1 && s.space == scope && !s.published && !s.archived
            && r.result.value.body == e.body
            && r.items == items[s.id := r.result.value])
  {
    if e.sys.id == "" {
      forall k | k in items ensures |k| <= next {
        ConsistentAt(items, next, k);
      }
      assert FreshId(next) !in items by {
        assert |FreshId(next)| == next + 1;
      }
    }
  }

  /**
   * An update is optimistic: with a stale version it fails with a version
   * mismatch and changes nothing; with the stored version it replaces the
   * body, keeps id, space and lifecycle flags, and advances the version by one.
   */
  lemma UpdateIsOptimistic<T>(items: map<string, Entity<T>>, next: nat, scope: string, e: Entity<T>)
    requires e.sys.version != 0 && Find(items, scope, e.sys.id).Some?
    ensures var r := UpsertReply(items, next, None, scope, e);
      var current := items[e.sys.id];
      && (current.sys.version != e.sys.version ==> r == Reply(Fail(VersionMismatch), items, next))
      && (current.sys.version == e.sys.version ==>
            && r.result == Ok(Entity(current.sys.(version := e.sys.version + 1), e.body))
            && r.items == items[e.sys.id := r.result.value])
  {
  }

  /** What was saved can be read back until it is deleted; after a delete it is not found. */
  lemma SavedThenReadBack<T>(items: map<string, Entity<T>>, next: nat, scope: string, e: Entity<T>)
    requires Consistent(items, next)
    ensures var r := UpsertReply(items, next, None, scope, e);
      r.result.Ok? ==>
        && GetReply(r.items, None, scope, r.result.value.sys.id) == Ok(r.result.value)
        && DeleteReply(r.items, None, scope, r.result.value.sys.id).err == None
        && GetReply(DeleteReply(r.items, None, scope, r.result.value.sys.id).items, None, scope, r.result.value.sys.id)
           == Fail(NotFound)
  {
    if e.sys.version != 0 && Find(items, scope, e.sys.id).Some? {
      ConsistentAt(items, next, e.sys.id);
    }
  }

  class Collection<T> {
    const faults: map<Verb, ClientError>
    var items: map<string, Entity<T>>
    var next: nat
    var log: seq<Call>

    ghost predicate Valid()
      reads this
    {
      Consistent(items, next)
    }

    /** The error every call of `v` fails with, if any. */
    function Fault(v: Verb): Option<ClientError>
    {
      FaultOf(faults, v)
    }

    constructor (faults: map<Verb, ClientError>)
      ensures this.faults == faults && items == map[] && next == 0 && log == [] && Valid()
    {
      this.faults := faults;
      items, next, log := map[], 0, [];
    }

    method Get(scope: string, id: string) returns (r: Result<Entity<T>, ClientError>)
      modifies this`log
      ensures r == GetReply(items, Fault(Verb.Get), scope, id)
      ensures log == old(log) + [Call(Verb.Get, scope, id, 0)]
    {
      log := log + [Call(Verb.Get, scope, id, 0)];
      r := GetReply(items, Fault(Verb.Get), scope, id);
    }

    /** Like the client's Upsert, the answer is the entity as saved (Go decodes it into the payload). */
    method Upsert(scope: string, e: Entity<T>) returns (r: Result<Entity<T>, ClientError>)
      requires Valid()
      modifies this`items, this`next, this`log
      ensures Valid()
      ensures var s := UpsertReply(old(items), old(next), Fault(Verb.Upsert), scope, e);
        r == s.result && items == s.items && next == s.next
      ensures log == old(log) + [Call(Verb.Upsert, scope, e.sys.id, e.sys.version)]
    {
      UpsertKeepsConsistent(items, next, Fault(Verb.Upsert), scope, e);
      var s := UpsertReply(items, next, Fault(Verb.Upsert), scope, e);
      log := log + [Call(Verb.Upsert, scope, e.sys.id, e.sys.version)];
      r, items, next := s.result, s.items, s.next;
    }

    /** Publish, Unpublish, Archive or Unarchive; the answer is the entity as it now is. */
    method Transition(verb: Verb, scope: string, e: Entity<T>) returns (r: Result<Entity<T>, ClientError>)
      requires Valid() && verb.IsLifecycle()
      modifies this`items, this`log
      ensures Valid()
      ensures var s := TransitionReply(old(items), next, Fault(verb), scope, e, verb); r == s.result && items == s.items
      ensures log == old(log) + [Call(verb, scope, e.sys.id, e.sys.version)]
    {
      var s := TransitionReply(items, next, Fault(verb), scope, e, verb);
      TransitionKeepsConsistent(items, next, Fault(verb), scope, e, verb);
      assert Consistent(s.items, next);
      log := log + [Call(verb, scope, e.sys.id, e.sys.version)];
      r := s.result;
      items := s.items;
    }

    method Delete(scope: string, id: string) returns (err: Option<ClientError>)
      requires Valid()
      modifies this`items, this`log
      ensures Valid()
      ensures var s := DeleteReply(old(items), Fault(Verb.Delete), scope, id); err == s.err && items == s.items
      ensures log == old(log) + [Call(Verb.Delete, scope, id, 0)]
    {
      DeleteKeepsConsistent(items, next, Fault(Verb.Delete), scope, id);
      var s := DeleteReply(items, Fault(Verb.Delete), scope, id);
      log := log + [Call(Verb.Delete, scope, id, 0)];
      err, items := s.err, s.items;
    }

    method Process(scope: string, e: Entity<T>) returns (err: Option<ClientError>)
      modifies this`log
      ensures err == ProcessReply(items, Fault(Verb.Process), scope, e)
      ensures log == old(log) + [Call(Verb.Process, scope, e.sys.id, e.sys.version)]
    {
      log := log + [Call(Verb.Process, scope, e.sys.id, e.sys.version)];
      err := ProcessReply(items, Fault(Verb.Process), scope, e);
    }
  }
}
