/**
 * The publish/archive state machine behind setEntryState and setAssetState.
 * Both take one snapshot of the remote entity, then make at most one of
 * Publish/Unpublish and at most one of Archive/Unarchive, chosen from the two
 * target booleans and from whether the snapshot is published or archived.
 * A successful call replaces the snapshot with the server's answer, as the
 * Go client decodes the response into the same struct. The entry pass keeps
 * only the last call's error; the asset pass stops at the first failure.
 */
module Lifecycle {
  import opened Wrappers
  import opened Errors
  import opened Remote

  /** The first step: publish when the target is published and PublishedAt is empty, unpublish in the opposite case. */
  function PublishStep(target: bool, s: Sys): (step: Option<Verb>)
    ensures step.Some? <==> target != s.published
    ensures step.Some? ==> step.value == (if target then Publish else Unpublish)
  {
    if target && !s.published then Some(Publish)
    else if !target && s.published then Some(Unpublish)
    else None
  }

  /** The second step, the same choice for ArchivedAt. */
  function ArchiveStep(target: bool, s: Sys): (step: Option<Verb>)
    ensures step.Some? <==> target != s.archived
    ensures step.Some? ==> step.value == (if target then Archive else Unarchive)
  {
    if target && !s.archived then Some(Archive)
    else if !target && s.archived then Some(Unarchive)
    else None
  }

  predicate LifecycleStep(step: Option<Verb>)
  {
    step.Some? ==> step.value.IsLifecycle()
  }

  datatype Outcome<T> = Outcome(items: map<string, Entity<T>>, err: Option<ClientError>, entity: Entity<T>)

  /** One optional lifecycle call on `e`. */
  function Step<T>(items: map<string, Entity<T>>, next: nat, faults: map<Verb, ClientError>, scope: string,
                   e: Entity<T>, step: Option<Verb>): Outcome<T>
    requires LifecycleStep(step)
  {
    if step.None? then Outcome(items, None, e)
    else
      var r := TransitionReply(items, next, FaultOf(faults, step.value), scope, e, step.value);
      Outcome(r.items, ErrorOf(r.result), if r.result.Ok? then r.result.value else e)
  }

  /** The call the store sees for an optional step. */
  function CallOf<T>(scope: string, e: Entity<T>, step: Option<Verb>): seq<Call>
  {
    if step.None? then [] else [Call(step.value, scope, e.sys.id, e.sys.version)]
  }

  function VerbsOf(calls: seq<Call>): (verbs: seq<Verb>)
    ensures |verbs| == |calls| && forall i | 0 <= i < |calls| :: verbs[i] == calls[i].verb
  {
    seq(|calls|, i requires 0 <= i < |calls| => calls[i].verb)
  }

  /** The verb of an optional step, as a list of zero or one verbs. */
  function Opt(step: Option<Verb>): seq<Verb>
  {
    if step.Some? then [step.value] else []
  }

  /** Where a pass leaves the store, what it returns, the calls it made and the entity it ends with. */
  datatype Pass<T> = Pass(items: map<string, Entity<T>>, err: Option<ClientError>, calls: seq<Call>, entity: Entity<T>)

  /** setEntryState after its snapshot: both steps run, and `err` is overwritten by the archive step when it runs. */
  function EntryPass<T>(items: map<string, Entity<T>>, next: nat, faults: map<Verb, ClientError>, scope: string,
                        snapshot: Entity<T>, published: bool, archived: bool): Pass<T>
  {
    var p := PublishStep(published, snapshot.sys);
    var s1 := Step(items, next, faults, scope, snapshot, p);
    var a := ArchiveStep(archived, s1.entity.sys);
    var s2 := Step(s1.items, next, faults, scope, s1.entity, a);
    Pass(s2.items, if a.Some? then s2.err else s1.err, CallOf(scope, snapshot, p) + CallOf(scope, s1.entity, a), s2.entity)
  }

  /** setAssetState after its snapshot, up to the final setAssetProperties: the first failure ends the pass. */
  function AssetPass<T>(items: map<string, Entity<T>>, next: nat, faults: map<Verb, ClientError>, scope: string,
                        snapshot: Entity<T>, published: bool, archived: bool): Pass<T>
  {
    var p := PublishStep(published, snapshot.sys);
    var s1 := Step(items, next, faults, scope, snapshot, p);
    if s1.err.Some? then Pass(s1.items, s1.err, CallOf(scope, snapshot, p), s1.entity)
    else
      var a := ArchiveStep(archived, s1.entity.sys);
      var s2 := Step(s1.items, next, faults, scope, s1.entity, a);
      Pass(s2.items, s2.err, CallOf(scope, snapshot, p) + CallOf(scope, s1.entity, a), s2.entity)
  }

  lemma LogAppend(log: seq<Call>, x: seq<Call>, y: seq<Call>)
    ensures (log + x) + y == log + (x + y)
  {
  }

  /** The entry pass as two steps, the second one read off the entity the first leaves. */
  lemma EntryPassSteps<T>(items: map<string, Entity<T>>, next: nat, faults: map<Verb, ClientError>, scope: string,
                          snapshot: Entity<T>, published: bool, archived: bool, s1: Outcome<T>, s2: Outcome<T>)
    requires s1 == Step(items, next, faults, scope, snapshot, PublishStep(published, snapshot.sys))
    requires s2 == Step(s1.items, next, faults, scope, s1.entity, ArchiveStep(archived, s1.entity.sys))
    ensures var a := ArchiveStep(archived, s1.entity.sys);
      EntryPass(items, next, faults, scope, snapshot, published, archived)
      == Pass(s2.items, if a.Some? then s2.err else s1.err,
              CallOf(scope, snapshot, PublishStep(published, snapshot.sys)) + CallOf(scope, s1.entity, a), s2.entity)
  {
  }

  /** The snapshot is the stored entity, fetched in the same space. */
  ghost predicate Fetched<T>(items: map<string, Entity<T>>, next: nat, scope: string, snapshot: Entity<T>)
  {
    Consistent(items, next) && Find(items, scope, snapshot.sys.id) == Some(snapshot)
  }

  /** A publish-type step leaves ArchivedAt as it was, so the archive step read off the snapshot is the same. */
  lemma ArchiveFlagSurvivesPublishStep<T>(items: map<string, Entity<T>>, next: nat, faults: map<Verb, ClientError>,
                                          scope: string, snapshot: Entity<T>, published: bool)
    requires Fetched(items, next, scope, snapshot)
    ensures var s1 := Step(items, next, faults, scope, snapshot, PublishStep(published, snapshot.sys));
      && s1.entity.sys.archived == snapshot.sys.archived
      && s1.entity.sys.id == snapshot.sys.id
      && Fetched(s1.items, next, scope, s1.entity)
  {
    var p := PublishStep(published, snapshot.sys);
    if p.Some? {
      TransitionKeepsConsistent(items, next, FaultOf(faults, p.value), scope, snapshot, p.value);
    }
  }

  /**
   * Both steps are decided from the one snapshot: the entry pass calls
   * exactly the publish step and then the archive step the snapshot dictates.
   * So it makes at most one of Publish/Unpublish, at most one of
   * Archive/Unarchive, in that order, and none for a flag already at its target.
   */
  lemma EntryCallsFromSnapshot<T>(items: map<string, Entity<T>>, next: nat, faults: map<Verb, ClientError>,
                                  scope: string, snapshot: Entity<T>, published: bool, archived: bool)
    requires Fetched(items, next, scope, snapshot)
    ensures var pass := EntryPass(items, next, faults, scope, snapshot, published, archived);
      && VerbsOf(pass.calls) == Opt(PublishStep(published, snapshot.sys)) + Opt(ArchiveStep(archived, snapshot.sys))
      && (forall i | 0 <= i < |pass.calls| :: pass.calls[i].scope == scope && pass.calls[i].id == snapshot.sys.id)
  {
    ArchiveFlagSurvivesPublishStep(items, next, faults, scope, snapshot, published);
    var p := PublishStep(published, snapshot.sys);
    var s1 := Step(items, next, faults, scope, snapshot, p);
    var a := ArchiveStep(archived, s1.entity.sys);
    CallsOfSteps(scope, snapshot, s1.entity, p, a);
  }

  /** The asset pass makes the same calls, except that a failed first step skips the second. */
  lemma AssetCallsFromSnapshot<T>(items: map<string, Entity<T>>, next: nat, faults: map<Verb, ClientError>,
                                  scope: string, snapshot: Entity<T>, published: bool, archived: bool)
    requires Fetched(items, next, scope, snapshot)
    ensures var pass := AssetPass(items, next, faults, scope, snapshot, published, archived);
      var first := Step(items, next, faults, scope, snapshot, PublishStep(published, snapshot.sys));
      && (first.err.Some? ==> VerbsOf(pass.calls) == Opt(PublishStep(published, snapshot.sys)) && pass.err == first.err)
      && (first.err.None? ==>
            VerbsOf(pass.calls) == Opt(PublishStep(published, snapshot.sys)) + Opt(ArchiveStep(archived, snapshot.sys)))
      && (forall i | 0 <= i < |pass.calls| :: pass.calls[i].scope == scope && pass.calls[i].id == snapshot.sys.id)
  {
    ArchiveFlagSurvivesPublishStep(items, next, faults, scope, snapshot, published);
    var p := PublishStep(published, snapshot.sys);
    var s1 := Step(items, next, faults, scope, snapshot, p);
    var a := ArchiveStep(archived, s1.entity.sys);
    CallsOfSteps(scope, snapshot, s1.entity, p, a);
  }

  lemma CallsOfSteps<T>(scope: string, e0: Entity<T>, e1: Entity<T>, p: Option<Verb>, a: Option<Verb>)
    requires e1.sys.id == e0.sys.id
    ensures var calls := CallOf(scope, e0, p) + CallOf(scope, e1, a);
      && VerbsOf(calls) == Opt(p) + Opt(a)
      && VerbsOf(CallOf(scope, e0, p)) == Opt(p)
      && (forall i | 0 <= i < |calls| :: calls[i].scope == scope && calls[i].id == e0.sys.id)
  {
  }

  /** A flag already at its target costs no call; with both at target the pass changes nothing. */
  lemma InTargetMakesNoCalls<T>(items: map<string, Entity<T>>, next: nat, faults: map<Verb, ClientError>,
                                scope: string, snapshot: Entity<T>)
    ensures var pass := EntryPass(items, next, faults, scope, snapshot, snapshot.sys.published, snapshot.sys.archived);
      pass == Pass(items, None, [], snapshot)
    ensures var pass := AssetPass(items, next, faults, scope, snapshot, snapshot.sys.published, snapshot.sys.archived);
      pass == Pass(items, None, [], snapshot)
  {
  }

  /**
   * The entry pass overwrites the publish step's error: whenever an archive or
   * unarchive call runs and succeeds, the pass reports no error at all, even
   * if the publish step failed.
   */
  lemma EntryArchiveMasksPublishError<T>(items: map<string, Entity<T>>, next: nat, faults: map<Verb, ClientError>,
                                         scope: string, snapshot: Entity<T>, published: bool, archived: bool)
    ensures var pass := EntryPass(items, next, faults, scope, snapshot, published, archived);
      var s1 := Step(items, next, faults, scope, snapshot, PublishStep(published, snapshot.sys));
      var a := ArchiveStep(archived, s1.entity.sys);
      var s2 := Step(s1.items, next, faults, scope, s1.entity, a);
      && (a.Some? ==> pass.err == s2.err)
      && (a.None? ==> pass.err == s1.err)
  {
  }

  /** The asset pass reports the first failure and makes no call after it. */
  lemma AssetStopsAtFirstFailure<T>(items: map<string, Entity<T>>, next: nat, faults: map<Verb, ClientError>,
                                    scope: string, snapshot: Entity<T>, published: bool, archived: bool)
    ensures var pass := AssetPass(items, next, faults, scope, snapshot, published, archived);
      var s1 := Step(items, next, faults, scope, snapshot, PublishStep(published, snapshot.sys));
      s1.err.Some? ==> pass == Pass(s1.items, s1.err, CallOf(scope, snapshot, PublishStep(published, snapshot.sys)), snapshot)
  {
  }

  /** No lifecycle call is made to fail. */
  predicate NoLifecycleFaults(faults: map<Verb, ClientError>)
  {
    Publish !in faults && Unpublish !in faults && Archive !in faults && Unarchive !in faults
  }

  /**
   * A pair of targets one pass can reach from the snapshot: never both flags,
   * and not published when the snapshot is archived, since an archived entity
   * must be unarchived before it can be published. Both flags are dealt with
   * by BothTargetsEndArchived and BothTargetsRepeatFails.
   */
  predicate Reachable(snapshot: Sys, published: bool, archived: bool)
  {
    !(published && (archived || snapshot.archived))
  }

  /** A call the store accepts bumps the version and replaces the stored entity with the answer. */
  lemma StepSucceeds<T>(items: map<string, Entity<T>>, next: nat, faults: map<Verb, ClientError>, scope: string,
                        e: Entity<T>, step: Option<Verb>)
    requires Fetched(items, next, scope, e) && NoLifecycleFaults(faults) && LifecycleStep(step)
    requires !(step == Some(Publish) && e.sys.archived)
    ensures var s := Step(items, next, faults, scope, e, step);
      && s.err.None?
      && (step.Some? ==> s.entity == Entity(Transitioned(e.sys, step.value), e.body))
      && (step.Some? ==> s.items == items[e.sys.id := s.entity])
      && (step.None? ==> s == Outcome(items, None, e))
      && Fetched(s.items, next, scope, s.entity)
  {
    if step.Some? {
      ConsistentAt(items, next, e.sys.id);
      TransitionKeepsConsistent(items, next, None, scope, e, step.value);
      TransitionedKeepsFlags(e.sys, step.value);
    }
  }

  /**
   * With no failure injected, a pass towards reachable targets succeeds and
   * leaves the entity exactly at its targets, one version further per call
   * made; the entry and the asset pass then agree.
   */
  lemma PassesReachTarget<T>(items: map<string, Entity<T>>, next: nat, faults: map<Verb, ClientError>,
                             scope: string, snapshot: Entity<T>, published: bool, archived: bool)
    requires Fetched(items, next, scope, snapshot) && NoLifecycleFaults(faults)
    requires Reachable(snapshot.sys, published, archived)
    ensures var pass := EntryPass(items, next, faults, scope, snapshot, published, archived);
      && pass == AssetPass(items, next, faults, scope, snapshot, published, archived)
      && pass.err.None?
      && pass.entity.sys.published == published && pass.entity.sys.archived == archived
      && pass.entity.sys.version == snapshot.sys.version + |pass.calls|
      && pass.entity.body == snapshot.body
      && Fetched(pass.items, next, scope, pass.entity)
  {
    var p := PublishStep(published, snapshot.sys);
    StepSucceeds(items, next, faults, scope, snapshot, p);
    var s1 := Step(items, next, faults, scope, snapshot, p);
    if p.Some? {
      TransitionedFlags(snapshot.sys, p.value);
    }
    assert s1.entity.sys.published == published && s1.entity.sys.archived == snapshot.sys.archived;
    assert s1.entity.sys.version == snapshot.sys.version + |CallOf(scope, snapshot, p)|;
    var a := ArchiveStep(archived, s1.entity.sys);
    StepSucceeds(s1.items, next, faults, scope, s1.entity, a);
    var s2 := Step(s1.items, next, faults, scope, s1.entity, a);
    if a.Some? {
      TransitionedFlags(s1.entity.sys, a.value);
    }
    assert s2.entity.sys.published == published && s2.entity.sys.archived == archived;
    var calls := CallOf(scope, snapshot, p) + CallOf(scope, s1.entity, a);
    assert s2.entity.sys.version == snapshot.sys.version + |calls|;
    assert EntryPass(items, next, faults, scope, snapshot, published, archived) == Pass(s2.items, None, calls, s2.entity);
    assert AssetPass(items, next, faults, scope, snapshot, published, archived) == Pass(s2.items, None, calls, s2.entity);
  }

  /** How each lifecycle verb sets the two flags. */
  lemma TransitionedFlags(s: Sys, verb: Verb)
    requires verb.IsLifecycle()
    ensures var t := Transitioned(s, verb);
      && t.published == (if verb == Publish then true else if verb == Unpublish || verb == Archive then false else s.published)
      && t.archived == (if verb == Archive then true else if verb == Unarchive then false else s.archived)
      && t.version == s.version + 1 && t.id == s.id
  {
  }

  /** A second pass with the same targets after a successful one makes no call and changes nothing. */
  lemma SecondPassIsQuiet<T>(items: map<string, Entity<T>>, next: nat, faults: map<Verb, ClientError>,
                             scope: string, snapshot: Entity<T>, published: bool, archived: bool)
    requires Fetched(items, next, scope, snapshot) && NoLifecycleFaults(faults)
    requires Reachable(snapshot.sys, published, archived)
    ensures var first := EntryPass(items, next, faults, scope, snapshot, published, archived);
      EntryPass(first.items, next, faults, scope, first.entity, published, archived) == Pass(first.items, None, [], first.entity)
  {
    PassesReachTarget(items, next, faults, scope, snapshot, published, archived);
    var first := EntryPass(items, next, faults, scope, snapshot, published, archived);
    InTargetMakesNoCalls(first.items, next, faults, scope, first.entity);
  }

  /**
   * Both targets set, from a snapshot that is not archived: one pass publishes
   * when the snapshot is not yet published and then archives, and the archive
   * call clears the published flag. The entity ends archived and unpublished.
   * A draft sees Publish then Archive. The entry and the asset pass agree.
   */
  lemma BothTargetsEndArchived<T>(items: map<string, Entity<T>>, next: nat, faults: map<Verb, ClientError>,
                                  scope: string, snapshot: Entity<T>)
    requires Fetched(items, next, scope, snapshot) && NoLifecycleFaults(faults)
    requires !snapshot.sys.archived
    ensures var pass := EntryPass(items, next, faults, scope, snapshot, true, true);
      && pass == AssetPass(items, next, faults, scope, snapshot, true, true)
      && pass.err.None?
      && pass.entity.sys.archived && !pass.entity.sys.published
      && VerbsOf(pass.calls) == Opt(PublishStep(true, snapshot.sys)) + [Archive]
      && (!snapshot.sys.published ==> VerbsOf(pass.calls) == [Publish, Archive])
      && pass.entity.sys.version == snapshot.sys.version + |pass.calls|
      && pass.entity.body == snapshot.body
      && Fetched(pass.items, next, scope, pass.entity)
  {
    var p := PublishStep(true, snapshot.sys);
    StepSucceeds(items, next, faults, scope, snapshot, p);
    var s1 := Step(items, next, faults, scope, snapshot, p);
    if p.Some? {
      TransitionedFlags(snapshot.sys, p.value);
    }
    assert !s1.entity.sys.archived && s1.entity.sys.version == snapshot.sys.version + |CallOf(scope, snapshot, p)|;
    var a := ArchiveStep(true, s1.entity.sys);
    assert a == Some(Archive);
    StepSucceeds(s1.items, next, faults, scope, s1.entity, a);
    var s2 := Step(s1.items, next, faults, scope, s1.entity, a);
    TransitionedFlags(s1.entity.sys, Archive);
    var calls := CallOf(scope, snapshot, p) + CallOf(scope, s1.entity, a);
    CallsOfSteps(scope, snapshot, s1.entity, p, a);
    assert s2.entity.sys.version == snapshot.sys.version + |calls|;
    assert EntryPass(items, next, faults, scope, snapshot, true, true) == Pass(s2.items, None, calls, s2.entity);
    assert AssetPass(items, next, faults, scope, snapshot, true, true) == Pass(s2.items, None, calls, s2.entity);
  }

  /**
   * Why both targets are not reachable: once the first pass has archived the
   * entity, the next pass with the same targets asks to publish it again,
   * which the store refuses, and no archive call follows. Both passes report
   * that refusal and change nothing.
   */
  lemma BothTargetsRepeatFails<T>(items: map<string, Entity<T>>, next: nat, faults: map<Verb, ClientError>,
                                  scope: string, snapshot: Entity<T>)
    requires Fetched(items, next, scope, snapshot) && NoLifecycleFaults(faults)
    requires !snapshot.sys.archived
    ensures var first := EntryPass(items, next, faults, scope, snapshot, true, true);
      var second := EntryPass(first.items, next, faults, scope, first.entity, true, true);
      && second.err == Some(PublishArchived)
      && VerbsOf(second.calls) == [Publish]
      && second.items == first.items && second.entity == first.entity
      && AssetPass(first.items, next, faults, scope, first.entity, true, true) == second
  {
    BothTargetsEndArchived(items, next, faults, scope, snapshot);
    var first := EntryPass(items, next, faults, scope, snapshot, true, true);
    var p := PublishStep(true, first.entity.sys);
    assert p == Some(Publish);
    var s1 := Step(first.items, next, faults, scope, first.entity, p);
    assert s1 == Outcome(first.items, Some(PublishArchived), first.entity);
    assert ArchiveStep(true, s1.entity.sys) == None;
  }

  /**
   * Publishing an archived entity while asking for it to be unarchived: the
   * publish call fails and the unarchive call succeeds, so the entry pass
   * reports success although the entity ends unpublished.
   */
  lemma EntryMasksPublishOfArchived<T>(items: map<string, Entity<T>>, next: nat, faults: map<Verb, ClientError>,
                                       scope: string, snapshot: Entity<T>)
    requires Find(items, scope, snapshot.sys.id) == Some(snapshot) && NoLifecycleFaults(faults)
    requires snapshot.sys.archived && !snapshot.sys.published
    ensures var entry := EntryPass(items, next, faults, scope, snapshot, true, false);
      && entry.err.None?
      && VerbsOf(entry.calls) == [Publish, Unarchive]
      && !entry.entity.sys.published && !entry.entity.sys.archived
  {
    var p := PublishStep(true, snapshot.sys);
    assert p == Some(Publish);
    var s1 := Step(items, next, faults, scope, snapshot, p);
    assert s1 == Outcome(items, Some(PublishArchived), snapshot);
    var a := ArchiveStep(false, s1.entity.sys);
    assert a == Some(Unarchive);
    var s2 := Step(s1.items, next, faults, scope, s1.entity, a);
    TransitionedFlags(snapshot.sys, Unarchive);
    assert s2.entity == Entity(Transitioned(snapshot.sys, Unarchive), snapshot.body) && s2.err.None?;
    var calls := CallOf(scope, snapshot, p) + CallOf(scope, s1.entity, a);
    CallsOfSteps(scope, snapshot, snapshot, p, a);
    assert EntryPass(items, next, faults, scope, snapshot, true, false) == Pass(s2.items, None, calls, s2.entity);
  }

  /** In the same situation the asset pass reports the publish failure and never unarchives. */
  lemma AssetReportsPublishOfArchived<T>(items: map<string, Entity<T>>, next: nat, faults: map<Verb, ClientError>,
                                         scope: string, snapshot: Entity<T>)
    requires Find(items, scope, snapshot.sys.id) == Some(snapshot) && NoLifecycleFaults(faults)
    requires snapshot.sys.archived && !snapshot.sys.published
    ensures var asset := AssetPass(items, next, faults, scope, snapshot, true, false);
      && asset.err == Some(PublishArchived)
      && VerbsOf(asset.calls) == [Publish]
      && asset.items == items && asset.entity == snapshot
  {
    var p := PublishStep(true, snapshot.sys);
    assert p == Some(Publish);
    var s1 := Step(items, next, faults, scope, snapshot, p);
    assert s1 == Outcome(items, Some(PublishArchived), snapshot);
  }

  /**
   * One lifecycle call through the client, which decodes the server's answer
   * into the entity passed in: on success the caller's entity is the answer.
   */
  method Perform<T>(c: Collection<T>, verb: Verb, scope: string, e: Entity<T>) returns (err: Option<ClientError>, after: Entity<T>)
    requires c.Valid() && verb.IsLifecycle()
    modifies c`items, c`log
    ensures c.Valid()
    ensures Step(old(c.items), c.next, c.faults, scope, e, Some(verb)) == Outcome(c.items, err, after)
    ensures c.log == old(c.log) + CallOf(scope, e, Some(verb))
  {
    var r := c.Transition(verb, scope, e);
    err := ErrorOf(r);
    after := if r.Ok? then r.value else e;
  }

  /** An optional step through the client: no call when `step` is None. */
  method RunStep<T>(c: Collection<T>, scope: string, e: Entity<T>, step: Option<Verb>) returns (err: Option<ClientError>, after: Entity<T>)
    requires c.Valid() && LifecycleStep(step)
    modifies c`items, c`log
    ensures c.Valid()
    ensures Step(old(c.items), c.next, c.faults, scope, e, step) == Outcome(c.items, err, after)
    ensures c.log == old(c.log) + CallOf(scope, e, step)
  {
    if step.Some? {
      err, after := Perform(c, step.value, scope, e);
    } else {
      err, after := None, e;
    }
  }

  /** The two steps of setEntryState from its snapshot on; each call's answer feeds the next decision. */
  method RunEntryPass<T>(c: Collection<T>, scope: string, snapshot: Entity<T>, published: bool, archived: bool)
    returns (err: Option<ClientError>, after: Entity<T>)
    requires c.Valid()
    modifies c`items, c`log
    ensures c.Valid()
    ensures var pass := EntryPass(old(c.items), c.next, c.faults, scope, snapshot, published, archived);
      err == pass.err && c.items == pass.items && c.log == old(c.log) + pass.calls && after == pass.entity
  {
    ghost var items0, log0 := c.items, c.log;
    var publishErr, entity := RunStep(c, scope, snapshot, PublishStep(published, snapshot.sys));
    ghost var s1 := Outcome(c.items, publishErr, entity);
    var archive := ArchiveStep(archived, entity.sys);
    var archiveErr;
    archiveErr, after := RunStep(c, scope, entity, archive);
    assert c.Valid();
    err := if archive.Some? then archiveErr else publishErr;
    EntryPassSteps(items0, c.next, c.faults, scope, snapshot, published, archived, s1, Outcome(c.items, archiveErr, after));
    LogAppend(log0, CallOf(scope, snapshot, PublishStep(published, snapshot.sys)), CallOf(scope, entity, archive));
  }

  /** The two steps of setAssetState from its snapshot on, returning at the first failure. */
  method RunAssetPass<T>(c: Collection<T>, scope: string, snapshot: Entity<T>, published: bool, archived: bool)
    returns (err: Option<ClientError>, after: Entity<T>)
    requires c.Valid()
    modifies c`items, c`log
    ensures c.Valid()
    ensures var pass := AssetPass(old(c.items), c.next, c.faults, scope, snapshot, published, archived);
      err == pass.err && c.items == pass.items && c.log == old(c.log) + pass.calls && after == pass.entity
  {
    ghost var log0 := c.log;
    var publishErr, entity := RunStep(c, scope, snapshot, PublishStep(published, snapshot.sys));
    if publishErr.Some? {
      return publishErr, entity;
    }
    var archive := ArchiveStep(archived, entity.sys);
    err, after := RunStep(c, scope, entity, archive);
    assert c.Valid();
    LogAppend(log0, CallOf(scope, snapshot, PublishStep(published, snapshot.sys)), CallOf(scope, entity, archive));
  }
}
