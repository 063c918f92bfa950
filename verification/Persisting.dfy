/** What persisting a planned batch adds to each table, and that the transaction which does it
    succeeds when the preflight has just been done under the same lock. */
module Persisting {
  import opened Wrappers
  import opened Tables
  import opened Classification
  import opened Receive
  import opened Invariant
  import opened Settlement

  type Builds = map<TransitionId, Projection>
  type Pointers = map<PointerId, Pointer>
  type Artifacts = map<ArtifactId, Artifact>

  ghost predicate Opens(pointers: Pointers, key: TagKey, operation: Operation, t: TransitionId, row: Transition) {
    var pid := PointerId(t.revision, key);
    pid in pointers &&
    row == Transition(pid, pointers[pid].generation, pointers[pid].artifact, if operation == Move then
        Some(StagedFor(t)) else None, Pending)
  }

  // ---- One intent's revisions

  ghost predicate RevisionReady(db: Db, key: TagKey, intent: IntentId, operation: Operation, plan: RevisionPlan,
          builds: Builds)
  {
    var t, pid := TransitionId(intent, plan.revision), PointerId(plan.revision, key);
    t !in db.transitions && StagedFor(t) !in db.artifacts && pid in db.pointers && db.pointers[pid] == plan.pointer &&
        plan.pointer.available &&
    (operation == Move ==> t in builds)
  }

  ghost predicate RevisionsReady(db: Db, key: TagKey, intent: IntentId, operation: Operation, plans: seq<RevisionPlan>,
          builds: Builds)
  {
    Distinct(RevisionIds(plans)) && forall plan | plan in plans ::
        RevisionReady(db, key, intent, operation, plan, builds)
  }

  ghost predicate RevisionTransitions(pointers: Pointers, before: Transitions, after: Transitions, key: TagKey,
          intent: IntentId, operation: Operation, revisions: seq<Uuid>)
  {
    (forall t :: t in after <==> t in before || (t.intent == intent && t.revision in revisions)) &&
    forall t | t in after :: if t in before then after[t] == before[t] else Opens(pointers, key, operation, t, after[t])
  }

  ghost predicate RevisionArtifacts(before: Artifacts, after: Artifacts, key: TagKey, intent: IntentId,
          operation: Operation, revisions: seq<Uuid>, builds: Builds)
  {
    (forall a ::
      a in after <==>
      a in before ||
      (operation == Move && a.StagedFor? && a.transition.intent == intent && a.transition.revision in revisions)) &&
    forall a | a in after ::
      if a in before then after[a] == before[a]
      else a.StagedFor? && a.transition in builds && after[a] == StagedArtifact(key, a.transition, builds[a.transition])
  }

  ghost predicate RevisionPointers(before: Pointers, after: Pointers, key: TagKey, revisions: seq<Uuid>) {
    after.Keys == before.Keys &&
    forall pid | pid in before ::
      after[pid] == if pid.key == key && pid.revision in revisions then before[pid].(available := false)
          else before[pid]
  }

  ghost predicate RevisionsPersisted(db: Db, next: Db, key: TagKey, intent: IntentId, operation: Operation,
          revisions: seq<Uuid>, builds: Builds)
  {
    next == db.(transitions := next.transitions, artifacts := next.artifacts, pointers := next.pointers) &&
    RevisionTransitions(db.pointers, db.transitions, next.transitions, key, intent, operation, revisions) &&
    RevisionArtifacts(db.artifacts, next.artifacts, key, intent, operation, revisions, builds) &&
    RevisionPointers(db.pointers, next.pointers, key, revisions)
  }

  lemma PersistOneSucceeds(db: Db, key: TagKey, intent: IntentId, operation: Operation, plan: RevisionPlan,
          builds: Builds) returns (mid: Db)
    requires RevisionReady(db, key, intent, operation, plan, builds)
    ensures PersistRevision(db, key, intent, operation, plan, builds) == Some(mid)
    ensures RevisionsPersisted(db, mid, key, intent, operation, [plan.revision], builds)
  {
    mid := PersistRevision(db, key, intent, operation, plan, builds).value;
  }

  lemma ReadyAfterRevision(db: Db, mid: Db, key: TagKey, intent: IntentId, operation: Operation, revision: Uuid,
          other: RevisionPlan, builds: Builds)
    requires RevisionsPersisted(db, mid, key, intent, operation, [revision], builds) && revision != other.revision
    requires RevisionReady(db, key, intent, operation, other, builds)
    ensures RevisionReady(mid, key, intent, operation, other, builds)
  {
    assert other.revision !in [revision];
  }

  lemma JoinRevisionTransitions(db: Db, mid: Db, next: Db, key: TagKey, intent: IntentId, operation: Operation,
          revisions: seq<Uuid>)
    requires revisions != []
    requires RevisionTransitions(db.pointers, db.transitions, mid.transitions, key, intent, operation, [revisions[0]])
    requires RevisionPointers(db.pointers, mid.pointers, key, [revisions[0]])
    requires RevisionTransitions(mid.pointers, mid.transitions, next.transitions, key, intent, operation,
             revisions[1..])
    ensures RevisionTransitions(db.pointers, db.transitions, next.transitions, key, intent, operation, revisions)
  {
    forall r ensures r in revisions <==>
        r in [revisions[0]] || r in revisions[1..] { assert revisions == [revisions[0]] + revisions[1..]; }
    forall t | t in next.transitions
      ensures if t in db.transitions then next.transitions[t] == db.transitions[t]
              else Opens(db.pointers, key, operation, t, next.transitions[t])
    {
      if t in mid.transitions { assert next.transitions[t] == mid.transitions[t]; }
    }
  }

  lemma JoinRevisionRows(db: Db, mid: Db, next: Db, key: TagKey, intent: IntentId, operation: Operation,
          revisions: seq<Uuid>, builds: Builds)
    requires revisions != []
    requires RevisionArtifacts(db.artifacts, mid.artifacts, key, intent, operation, [revisions[0]], builds)
    requires RevisionArtifacts(mid.artifacts, next.artifacts, key, intent, operation, revisions[1..], builds)
    requires RevisionPointers(db.pointers, mid.pointers, key, [revisions[0]]) &&
             RevisionPointers(mid.pointers, next.pointers, key, revisions[1..])
    ensures RevisionArtifacts(db.artifacts, next.artifacts, key, intent, operation, revisions, builds)
    ensures RevisionPointers(db.pointers, next.pointers, key, revisions)
  {
    forall r ensures r in revisions <==>
        r in [revisions[0]] || r in revisions[1..] { assert revisions == [revisions[0]] + revisions[1..]; }
  }

  lemma {:induction false} PersistRevisionsSucceeds(db: Db, key: TagKey, intent: IntentId, operation: Operation,
          plans: seq<RevisionPlan>, builds: Builds) returns (next: Db)
    requires RevisionsReady(db, key, intent, operation, plans, builds)
    ensures PersistRevisions(db, key, intent, operation, plans, builds) == Some(next)
    ensures RevisionsPersisted(db, next, key, intent, operation, RevisionIds(plans), builds)
    decreases |plans|
  {
    var revisions := RevisionIds(plans);
    if plans == [] {
      next := db;
    } else {
      assert plans[0] in plans;
      var mid := PersistOneSucceeds(db, key, intent, operation, plans[0], builds);
      assert RevisionIds(plans[1..]) == revisions[1..];
      forall other | other in plans[1..] ensures RevisionReady(mid, key, intent, operation, other, builds) {
        var n :| 0 <= n < |plans[1..]| && plans[1..][n] == other;
        assert revisions[0] != revisions[n + 1];
        ReadyAfterRevision(db, mid, key, intent, operation, revisions[0], other, builds);
      }
      next := PersistRevisionsSucceeds(mid, key, intent, operation, plans[1..], builds);
      JoinRevisionTransitions(db, mid, next, key, intent, operation, revisions);
      JoinRevisionRows(db, mid, next, key, intent, operation, revisions, builds);
    }
  }

  // ---- A whole batch

  ghost predicate Adds(intents: Intents, batch: Uuid, tags: seq<Tag>, t: TransitionId) {
    Covers(batch, tags, t.intent) && t.intent in intents && t.revision in intents[t.intent].revisions
  }

  ghost predicate IntentsAdded(before: Intents, after: Intents, plugin: Uuid, batch: Uuid, plans: seq<Plan>) {
    (forall id :: id in after <==> id in before || Covers(batch, PlanTags(plans), id)) &&
    (forall id | id in before :: after[id] == before[id]) &&
    forall plan | plan in plans ::
        IntentId(batch, plan.command.tag) in after &&
            after[IntentId(batch, plan.command.tag)] == IntentFor(plugin, plan)
  }

  ghost predicate TransitionsAdded(intents: Intents, pointers: Pointers, before: Transitions, after: Transitions,
          batch: Uuid, tags: seq<Tag>)
  {
    (forall t :: t in after <==> t in before || Adds(intents, batch, tags, t)) &&
    forall t | t in after ::
      if t in before then after[t] == before[t]
      else t.intent in intents && Opens(pointers, intents[t.intent].key, intents[t.intent].operation, t, after[t])
  }

  ghost predicate ArtifactsAdded(intents: Intents, before: Artifacts, after: Artifacts, batch: Uuid, tags: seq<Tag>,
          builds: Builds)
  {
    (forall a :: a in after <==>
       a in before || (a.StagedFor? && Adds(intents, batch, tags, a.transition) &&
           intents[a.transition.intent].operation == Move)) &&
    forall a | a in after ::
      if a in before then after[a] == before[a]
      else a.StagedFor? && a.transition in builds && a.transition.intent in intents &&
           after[a] == StagedArtifact(intents[a.transition.intent].key, a.transition, builds[a.transition])
  }

  ghost predicate PointersFrozen(intents: Intents, before: Pointers, after: Pointers, plugin: Uuid, batch: Uuid,
          tags: seq<Tag>)
  {
    after.Keys == before.Keys &&
    forall pid | pid in before ::
      after[pid] == if pid.key.plugin == plugin && Adds(intents, batch, tags, OwnerOf(batch, pid)) then
          before[pid].(available := false) else before[pid]
  }

  ghost predicate PlansPersisted(db: Db, next: Db, plugin: Uuid, batch: Uuid, plans: seq<Plan>, builds: Builds) {
    next == db.(intents := next.intents, transitions := next.transitions, artifacts := next.artifacts,
        pointers := next.pointers) &&
    IntentsAdded(db.intents, next.intents, plugin, batch, plans) &&
    TransitionsAdded(next.intents, db.pointers, db.transitions, next.transitions, batch, PlanTags(plans)) &&
    ArtifactsAdded(next.intents, db.artifacts, next.artifacts, batch, PlanTags(plans), builds) &&
    PointersFrozen(next.intents, db.pointers, next.pointers, plugin, batch, PlanTags(plans))
  }

  ghost predicate PlanReady(db: Db, plugin: Uuid, batch: Uuid, plan: Plan, builds: Builds) {
    var id, intent := IntentId(batch, plan.command.tag), IntentFor(plugin, plan);
    id !in db.intents && RevisionsReady(db, intent.key, id, intent.operation, plan.revisions, builds) &&
    (forall t | t in db.transitions :: t.intent != id) && forall a | a in db.artifacts && a.StagedFor? ::
        a.transition.intent != id
  }

  lemma PersistPlanSucceeds(db: Db, plugin: Uuid, batch: Uuid, plan: Plan, builds: Builds) returns (mid: Db)
    requires PlanReady(db, plugin, batch, plan, builds)
    ensures PersistPlan(db, plugin, batch, plan, builds) == Some(mid)
    ensures PlansPersisted(db, mid, plugin, batch, [plan], builds)
  {
    assert PlanTags([plan]) == [plan.command.tag];
    var id, intent := IntentId(batch, plan.command.tag), IntentFor(plugin, plan);
    var start := db.(intents := db.intents[id := intent]);
    assert RevisionsReady(start, intent.key, id, intent.operation, plan.revisions, builds) by {
      forall r | r in plan.revisions ensures RevisionReady(start, intent.key, id, intent.operation, r, builds) {
        assert RevisionReady(db, intent.key, id, intent.operation, r, builds);
      }
    }
    mid := PersistRevisionsSucceeds(start, intent.key, id, intent.operation, plan.revisions, builds);
    OnePlanRows(db, mid, plugin, batch, plan, builds);
  }

  lemma OnePlanRows(db: Db, mid: Db, plugin: Uuid, batch: Uuid, plan: Plan, builds: Builds)
    requires var id, intent := IntentId(batch, plan.command.tag), IntentFor(plugin, plan);
             id !in db.intents && mid.intents == db.intents[id := intent] &&
             RevisionTransitions(db.pointers, db.transitions, mid.transitions, intent.key, id, intent.operation,
                 RevisionIds(plan.revisions)) &&
             RevisionArtifacts(db.artifacts, mid.artifacts, intent.key, id, intent.operation,
                 RevisionIds(plan.revisions), builds) &&
             RevisionPointers(db.pointers, mid.pointers, intent.key, RevisionIds(plan.revisions))
    ensures IntentsAdded(db.intents, mid.intents, plugin, batch, [plan])
    ensures TransitionsAdded(mid.intents, db.pointers, db.transitions, mid.transitions, batch, [plan.command.tag])
    ensures ArtifactsAdded(mid.intents, db.artifacts, mid.artifacts, batch, [plan.command.tag], builds)
    ensures PointersFrozen(mid.intents, db.pointers, mid.pointers, plugin, batch, [plan.command.tag])
  {
    assert PlanTags([plan]) == [plan.command.tag];
    forall t: TransitionId
      ensures Adds(mid.intents, batch, [plan.command.tag], t) <==>
              t.intent == IntentId(batch, plan.command.tag) && t.revision in RevisionIds(plan.revisions)
    {
    }
  }

  lemma ReadyAfterPlan(db: Db, mid: Db, plugin: Uuid, batch: Uuid, plan: Plan, other: Plan, builds: Builds)
    requires PlansPersisted(db, mid, plugin, batch, [plan], builds) && plan.command.tag != other.command.tag
    requires PlanReady(db, plugin, batch, other, builds)
    ensures PlanReady(mid, plugin, batch, other, builds)
  {
    var id, intent := IntentId(batch, other.command.tag), IntentFor(plugin, other);
    assert PlanTags([plan]) == [plan.command.tag];
    forall r | r in other.revisions ensures RevisionReady(mid, intent.key, id, intent.operation, r, builds) {
      assert RevisionReady(db, intent.key, id, intent.operation, r, builds);
      assert !Covers(batch, [plan.command.tag], id);
    }
  }

  lemma JoinIntentsAdded(before: Intents, mid: Intents, after: Intents, plugin: Uuid, batch: Uuid, plans: seq<Plan>)
    requires plans != [] && IntentsAdded(before, mid, plugin, batch, [plans[0]]) &&
             IntentsAdded(mid, after, plugin, batch, plans[1..])
    ensures IntentsAdded(before, after, plugin, batch, plans)
  {
    assert plans == [plans[0]] + plans[1..] && plans[0] in [plans[0]];
    assert PlanTags(plans)[1..] == PlanTags(plans[1..]) && PlanTags([plans[0]]) == [PlanTags(plans)[0]];
    forall id { CoversHead(batch, PlanTags(plans), id); }
  }

  lemma AddsHead(mid: Intents, after: Intents, batch: Uuid, tags: seq<Tag>, t: TransitionId)
    requires tags != [] && (forall id | id in mid :: id in after && after[id] == mid[id])
    requires forall id :: id in after <==> id in mid || Covers(batch, tags[1..], id)
    requires Covers(batch, [tags[0]], IntentId(batch, tags[0])) ==> IntentId(batch, tags[0]) in mid
    ensures Adds(after, batch, tags, t) <==> Adds(mid, batch, [tags[0]], t) || Adds(after, batch, tags[1..], t)
  {
    CoversHead(batch, tags, t.intent);
  }

  lemma JoinTransitionsAdded(db: Db, mid: Db, next: Db, plugin: Uuid, batch: Uuid, tags: seq<Tag>)
    requires tags != [] && forall t :: Adds(next.intents, batch, tags, t) <==>
             Adds(mid.intents, batch, [tags[0]], t) || Adds(next.intents, batch, tags[1..], t)
    requires forall id | id in mid.intents :: id in next.intents && next.intents[id] == mid.intents[id]
    requires TransitionsAdded(mid.intents, db.pointers, db.transitions, mid.transitions, batch, [tags[0]])
    requires PointersFrozen(mid.intents, db.pointers, mid.pointers, plugin, batch, [tags[0]])
    requires TransitionsAdded(next.intents, mid.pointers, mid.transitions, next.transitions, batch, tags[1..])
    ensures TransitionsAdded(next.intents, db.pointers, db.transitions, next.transitions, batch, tags)
  {
    forall t | t in next.transitions && t !in db.transitions
      ensures t.intent in next.intents &&
              Opens(db.pointers, next.intents[t.intent].key, next.intents[t.intent].operation, t, next.transitions[t])
    {
      if t in mid.transitions { assert next.transitions[t] == mid.transitions[t]; }
    }
  }

  lemma JoinArtifactsAdded(db: Db, mid: Db, next: Db, batch: Uuid, tags: seq<Tag>, builds: Builds)
    requires tags != [] && forall t :: Adds(next.intents, batch, tags, t) <==>
             Adds(mid.intents, batch, [tags[0]], t) || Adds(next.intents, batch, tags[1..], t)
    requires forall id | id in mid.intents :: id in next.intents && next.intents[id] == mid.intents[id]
    requires ArtifactsAdded(mid.intents, db.artifacts, mid.artifacts, batch, [tags[0]], builds)
    requires ArtifactsAdded(next.intents, mid.artifacts, next.artifacts, batch, tags[1..], builds)
    ensures ArtifactsAdded(next.intents, db.artifacts, next.artifacts, batch, tags, builds)
  {
  }

  lemma JoinPointersFrozen(db: Db, mid: Db, next: Db, plugin: Uuid, batch: Uuid, tags: seq<Tag>)
    requires tags != [] && forall t :: Adds(next.intents, batch, tags, t) <==>
             Adds(mid.intents, batch, [tags[0]], t) || Adds(next.intents, batch, tags[1..], t)
    requires PointersFrozen(mid.intents, db.pointers, mid.pointers, plugin, batch, [tags[0]])
    requires PointersFrozen(next.intents, mid.pointers, next.pointers, plugin, batch, tags[1..])
    ensures PointersFrozen(next.intents, db.pointers, next.pointers, plugin, batch, tags)
  {
  }

  lemma JoinPlans(db: Db, mid: Db, next: Db, plugin: Uuid, batch: Uuid, plans: seq<Plan>, builds: Builds)
    requires plans != [] && PlansPersisted(db, mid, plugin, batch, [plans[0]], builds) &&
             PlansPersisted(mid, next, plugin, batch, plans[1..], builds)
    ensures PlansPersisted(db, next, plugin, batch, plans, builds)
  {
    var tags := PlanTags(plans);
    assert tags[1..] == PlanTags(plans[1..]) && PlanTags([plans[0]]) == [tags[0]];
    assert plans[0] in [plans[0]];
    JoinIntentsAdded(db.intents, mid.intents, next.intents, plugin, batch, plans);
    forall t: TransitionId
      ensures Adds(next.intents, batch, tags, t) <==>
              Adds(mid.intents, batch, [tags[0]], t) || Adds(next.intents, batch, tags[1..], t)
    {
      AddsHead(mid.intents, next.intents, batch, tags, t);
    }
    JoinTransitionsAdded(db, mid, next, plugin, batch, tags);
    JoinArtifactsAdded(db, mid, next, batch, tags, builds);
    JoinPointersFrozen(db, mid, next, plugin, batch, tags);
  }

  lemma {:induction false} PersistPlansSucceeds(db: Db, plugin: Uuid, batch: Uuid, plans: seq<Plan>, builds: Builds)
          returns (next: Db)
    requires Distinct(PlanTags(plans)) && forall plan | plan in plans :: PlanReady(db, plugin, batch, plan, builds)
    ensures PersistPlans(db, plugin, batch, plans, builds) == Some(next)
    ensures PlansPersisted(db, next, plugin, batch, plans, builds)
    decreases |plans|
  {
    if plans == [] {
      next := db;
    } else {
      assert plans[0] in plans;
      var mid := PersistPlanSucceeds(db, plugin, batch, plans[0], builds);
      assert PlanTags(plans[1..]) == PlanTags(plans)[1..];
      forall other | other in plans[1..] ensures PlanReady(mid, plugin, batch, other, builds) {
        var n :| 0 <= n < |plans[1..]| && plans[1..][n] == other;
        assert PlanTags(plans)[0] != PlanTags(plans)[n + 1];
        assert PlanReady(db, plugin, batch, other, builds);
        ReadyAfterPlan(db, mid, plugin, batch, plans[0], other, builds);
      }
      next := PersistPlansSucceeds(mid, plugin, batch, plans[1..], builds);
      JoinPlans(db, mid, next, plugin, batch, plans, builds);
    }
  }
}
