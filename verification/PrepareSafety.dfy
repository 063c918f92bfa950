/** Preparing a batch keeps the invariant on the tables: every new row starts out agreeing with
    what it names. */
module PrepareSafety {
  import opened Wrappers
  import opened Tables
  import opened Classification
  import opened Receive
  import opened Lifecycle
  import opened World
  import opened Invariant
  import opened Settlement
  import opened Planning
  import opened Persisting

  // ---- What is added

  ghost predicate IntentSound(db: Db, objects: Objects, plugin: Uuid, tag: Tag, row: Intent) {
    row.key == TagKey(plugin, tag) && row.state.Prepared? && IntentFacts(row, objects) && VersionExpected(db, row) &&
    !Blocked(db, row.key) && (row.operation == Delete ==> !ActivelyPublished(db, row.key)) &&
    Distinct(row.revisions) && (forall pid | pid in db.pointers && pid.key == row.key ::
        pid.revision in row.revisions) &&
    forall r | r in row.revisions ::
      PointerId(r, row.key) in db.pointers && db.pointers[PointerId(r, row.key)].available &&
          db.pointers[PointerId(r, row.key)].artifact.Some?
  }

  ghost predicate IntentsGrown(db: Db, after: Intents, objects: Objects, plugin: Uuid, batch: Uuid, tags: seq<Tag>) {
    (forall id | id in db.intents :: id in after && after[id] == db.intents[id] && id.batch != batch) &&
    (forall id | id in after && id !in db.intents ::
        id.batch == batch && id.tag in tags && IntentSound(db, objects, plugin, id.tag, after[id])) &&
    forall tag | tag in tags :: IntentId(batch, tag) in after
  }

  ghost predicate TransitionsGrown(intents: Intents, pointers: Pointers, before: Transitions, after: Transitions,
          batch: Uuid)
  {
    (forall t | t in before :: t in after && after[t] == before[t] && t.intent.batch != batch) &&
    (forall t | t in after && t !in before ::
      t.intent.batch == batch && t.intent in intents && t.revision in intents[t.intent].revisions &&
      Opens(pointers, intents[t.intent].key, intents[t.intent].operation, t, after[t])) &&
    forall t: TransitionId | t.intent.batch == batch && t.intent in intents &&
        t.revision in intents[t.intent].revisions :: t in after
  }

  ghost predicate StagedSoundly(intents: Intents, t: TransitionId, row: Artifact) {
    t.intent in intents && row.kind.PluginKind? && row.key == intents[t.intent].key && row.revision == t.revision &&
    Some(row.commit) == intents[t.intent].newCommit && row.storage == BuiltFor(t) && row.state.Staged?
  }

  ghost predicate ArtifactsGrown(intents: Intents, transitions: Transitions, before: Artifacts, after: Artifacts,
          batch: Uuid, builds: Builds)
  {
    (forall a | a in before :: a in after && after[a] == before[a] &&
        (a.StagedFor? ==> a.transition.intent.batch != batch)) &&
    (forall a | a in after && a !in before ::
      a.StagedFor? && a.transition.intent.batch == batch && a.transition in transitions &&
          transitions[a.transition].staged == Some(a) &&
      StagedSoundly(intents, a.transition, after[a]) &&
      a.transition in builds && after[a].commit == builds[a.transition].commit &&
          after[a].digest == builds[a.transition].digest) &&
    forall t | t in transitions && t.intent.batch == batch && transitions[t].staged.Some? ::
        StagedFor(t) in after && StagedFor(t) !in before
  }

  ghost predicate PointersGrown(transitions: Transitions, before: Pointers, after: Pointers, batch: Uuid) {
    after.Keys == before.Keys &&
    (forall pid | pid in before ::
      after[pid] == before[pid] ||
      (after[pid] == before[pid].(available := false) && OwnerOf(batch, pid) in transitions &&
          transitions[OwnerOf(batch, pid)].pointer == pid)) &&
    forall t | t in transitions && t.intent.batch == batch && transitions[t].pointer in before ::
        !after[transitions[t].pointer].available
  }

  ghost predicate BatchGrown(db: Db, after: map<Uuid, Batch>, plugin: Uuid, session: Uuid, batch: Uuid, tags: seq<Tag>)
  {
    batch !in db.batches && after == db.batches[batch := Batch(plugin, session, Prepared, tags)] && tags != [] &&
        Distinct(tags) &&
    plugin in db.plugins && plugin in db.population.repositories
  }

  ghost predicate PreparedEffect(db: Db, next: Db, objects: Objects, plugin: Uuid, session: Uuid, batch: Uuid,
          tags: seq<Tag>, builds: Builds)
  {
    next == db.(batches := next.batches, intents := next.intents, transitions := next.transitions,
                artifacts := next.artifacts, pointers := next.pointers) &&
    BatchGrown(db, next.batches, plugin, session, batch, tags) &&
        IntentsGrown(db, next.intents, objects, plugin, batch, tags) &&
    TransitionsGrown(next.intents, db.pointers, db.transitions, next.transitions, batch) &&
    ArtifactsGrown(next.intents, next.transitions, db.artifacts, next.artifacts, batch, builds) &&
    PointersGrown(next.transitions, db.pointers, next.pointers, batch)
  }

  // ---- Planned intents are sound

  lemma PlannedVersion(w: World, plugin: Uuid, plan: Plan)
    requires VersionFactsOk(w.db.versions, w.objects) && PlanSound(w.db, plugin, plan)
    ensures var key := TagKey(plugin, plan.command.tag);
            key in w.db.versions && w.db.versions[key].status == Available && plan.command.oldObject.Object? &&
            w.db.versions[key].raw == Some(plan.command.oldObject) && plan.command.oldCommit.Some? &&
            w.db.versions[key].commit == plan.command.oldCommit
  {
    assert VersionFacts(w.db.versions[TagKey(plugin, plan.command.tag)], w.objects);
  }

  lemma PlannedIntent(w: World, plugin: Uuid, plan: Plan, command: RefCommand)
    requires VersionFactsOk(w.db.versions, w.objects) && ItemsOk(w.db.population, w.db.pointers.Keys) &&
             PlanSound(w.db, plugin, plan)
    requires ClassifyTag(w.objects, command) == Some(plan.command)
    requires !command.newObject.Empty? && command.oldObject != command.newObject
    ensures IntentSound(w.db, w.objects, plugin, plan.command.tag, IntentFor(plugin, plan))
    ensures command.tag == plan.command.tag && IntentFor(plugin, plan).oldObject == command.oldObject
    ensures IntentFor(plugin, plan).newObject == RefValue(command.newObject)
  {
    PlannedVersion(w, plugin, plan);
    var row := IntentFor(plugin, plan);
    forall pid | pid in w.db.pointers && pid.key == row.key ensures pid.revision in row.revisions {
      assert Selects(w.db.population, w.db.population.items, row.key, pid.revision);
    }
    forall r | r in row.revisions
      ensures PointerId(r, row.key) in w.db.pointers && w.db.pointers[PointerId(r, row.key)].available &&
              w.db.pointers[PointerId(r, row.key)].artifact.Some?
    {
      var i :| 0 <= i < |plan.revisions| && plan.revisions[i].revision == r;
      assert plan.revisions[i] in plan.revisions;
    }
  }

  // ---- Fresh rows

  ghost predicate Unused(db: Db, batch: Uuid) {
    batch !in db.batches && (forall id | id in db.intents :: id.batch != batch) &&
        (forall t | t in db.transitions :: t.intent.batch != batch) &&
    (forall a | a in db.artifacts && a.StagedFor? :: a.transition.intent.batch != batch)
  }

  lemma FreshUnused(db: Db, batch: Uuid)
    requires RowsOk(db) && ArtifactsOk(db) && batch !in db.batches
    ensures Unused(db, batch)
  {
  }

  lemma SoundReady(db: Db, plugin: Uuid, batch: Uuid, plan: Plan, builds: Builds)
    requires Unused(db, batch) && PlanSound(db, plugin, plan) && Built(batch, plan, builds)
    ensures PlanReady(db, plugin, batch, plan, builds)
  {
    var id, intent := IntentId(batch, plan.command.tag), IntentFor(plugin, plan);
    forall r | r in plan.revisions ensures RevisionReady(db, intent.key, id, intent.operation, r, builds) {
      assert TransitionId(id, r.revision) !in db.transitions;
    }
  }

  /** Nothing can come between the preflight and the transaction that relies on it, so the
      transaction never fails. */
  lemma PersistSucceeds(db: Db, plugin: Uuid, session: Uuid, batch: Uuid, plans: seq<Plan>, builds: Builds)
          returns (next: Db)
    requires Unused(db, batch) && Distinct(PlanTags(plans)) && AllBuilt(batch, plans, builds)
    requires forall plan | plan in plans :: PlanSound(db, plugin, plan)
    ensures Persist(db, plugin, session, batch, plans, builds) == Some(next)
    ensures PlansPersisted(db.(batches := next.batches), next, plugin, batch, plans, builds)
    ensures next.batches == db.batches[batch := Batch(plugin, session, Prepared, PlanTags(plans))]
  {
    var start := db.(batches := db.batches[batch := Batch(plugin, session, Prepared, PlanTags(plans))]);
    forall plan | plan in plans ensures PlanReady(start, plugin, batch, plan, builds) {
      SoundReady(db, plugin, batch, plan, builds);
    }
    next := PersistPlansSucceeds(start, plugin, batch, plans, builds);
  }

  // ---- The effect, row by row

  lemma PlanOfTag(plans: seq<Plan>, tag: Tag) returns (plan: Plan)
    requires tag in PlanTags(plans)
    ensures plan in plans && plan.command.tag == tag
  {
    var i :| 0 <= i < |plans| && PlanTags(plans)[i] == tag;
    plan := plans[i];
  }

  lemma GrownIntents(db: Db, after: Intents, objects: Objects, plugin: Uuid, batch: Uuid, plans: seq<Plan>)
    requires Unused(db, batch) && IntentsAdded(db.intents, after, plugin, batch, plans)
    requires forall plan | plan in plans :: IntentSound(db, objects, plugin, plan.command.tag, IntentFor(plugin, plan))
    ensures IntentsGrown(db, after, objects, plugin, batch, PlanTags(plans))
  {
    forall id | id in after && id !in db.intents ensures IntentSound(db, objects, plugin, id.tag, after[id]) {
      var plan := PlanOfTag(plans, id.tag);
      assert id == IntentId(batch, plan.command.tag);
    }
  }

  lemma GrownTransitions(db: Db, next: Db, objects: Objects, plugin: Uuid, batch: Uuid, tags: seq<Tag>)
    requires Unused(db, batch) && IntentsGrown(db, next.intents, objects, plugin, batch, tags)
    requires TransitionsAdded(next.intents, db.pointers, db.transitions, next.transitions, batch, tags)
    ensures TransitionsGrown(next.intents, db.pointers, db.transitions, next.transitions, batch)
  {
  }

  ghost predicate BuildsFit(intents: Intents, batch: Uuid, builds: Builds) {
    forall t | t in builds && t.intent.batch == batch && t.intent in intents && intents[t.intent].operation == Move &&
               t.revision in intents[t.intent].revisions :: Some(builds[t].commit) == intents[t.intent].newCommit
  }

  lemma BuiltFit(db: Db, after: Intents, objects: Objects, plugin: Uuid, batch: Uuid, plans: seq<Plan>, builds: Builds)
    requires Unused(db, batch) && IntentsAdded(db.intents, after, plugin, batch, plans) &&
             AllBuilt(batch, plans, builds)
    ensures BuildsFit(after, batch, builds)
  {
    forall t | t in builds && t.intent.batch == batch && t.intent in after && after[t.intent].operation == Move &&
        t.revision in after[t.intent].revisions
      ensures Some(builds[t].commit) == after[t.intent].newCommit
    {
      var plan := PlanOfTag(plans, t.intent.tag);
      assert t.intent == IntentId(batch, plan.command.tag);
      var i :| 0 <= i < |plan.revisions| && plan.revisions[i].revision == t.revision;
      assert Built(batch, plan, builds) && plan.revisions[i] in plan.revisions;
    }
  }

  /** A new artifact is staged for a new move. */
  lemma GrownOwner(db: Db, next: Db, objects: Objects, plugin: Uuid, batch: Uuid, tags: seq<Tag>, builds: Builds,
          a: ArtifactId)
    requires Unused(db, batch) && IntentsGrown(db, next.intents, objects, plugin, batch, tags)
    requires ArtifactsAdded(next.intents, db.artifacts, next.artifacts, batch, tags, builds)
    requires a in next.artifacts && a !in db.artifacts
    ensures a.StagedFor? && a.transition.intent.batch == batch && a.transition.intent in next.intents &&
            a.transition in builds
    ensures next.intents[a.transition.intent].operation == Move &&
            a.transition.revision in next.intents[a.transition.intent].revisions
    ensures a.transition !in db.transitions &&
            next.artifacts[a] == StagedArtifact(next.intents[a.transition.intent].key, a.transition,
                builds[a.transition])
  {
  }

  lemma GrownArtifact(db: Db, next: Db, objects: Objects, plugin: Uuid, batch: Uuid, tags: seq<Tag>, builds: Builds,
          a: ArtifactId)
    requires Unused(db, batch) && IntentsGrown(db, next.intents, objects, plugin, batch, tags)
    requires TransitionsGrown(next.intents, db.pointers, db.transitions, next.transitions, batch)
    requires ArtifactsAdded(next.intents, db.artifacts, next.artifacts, batch, tags, builds) &&
             BuildsFit(next.intents, batch, builds)
    requires a in next.artifacts && a !in db.artifacts
    ensures a.StagedFor? && a.transition.intent.batch == batch && a.transition in next.transitions &&
            next.transitions[a.transition].staged == Some(a)
    ensures StagedSoundly(next.intents, a.transition, next.artifacts[a])
    ensures a.transition in builds && next.artifacts[a].commit == builds[a.transition].commit &&
            next.artifacts[a].digest == builds[a.transition].digest
  {
    GrownOwner(db, next, objects, plugin, batch, tags, builds, a);
    assert a.transition in next.transitions;
  }

  lemma GrownStaged(db: Db, next: Db, objects: Objects, plugin: Uuid, batch: Uuid, tags: seq<Tag>, builds: Builds,
          t: TransitionId)
    requires Unused(db, batch) && IntentsGrown(db, next.intents, objects, plugin, batch, tags)
    requires TransitionsGrown(next.intents, db.pointers, db.transitions, next.transitions, batch)
    requires ArtifactsAdded(next.intents, db.artifacts, next.artifacts, batch, tags, builds)
    requires t in next.transitions && t.intent.batch == batch && next.transitions[t].staged.Some?
    ensures StagedFor(t) in next.artifacts && StagedFor(t) !in db.artifacts
  {
    assert t !in db.transitions && t.intent !in db.intents;
  }

  lemma GrownArtifacts(db: Db, next: Db, objects: Objects, plugin: Uuid, batch: Uuid, tags: seq<Tag>, builds: Builds)
    requires Unused(db, batch) && IntentsGrown(db, next.intents, objects, plugin, batch, tags)
    requires TransitionsGrown(next.intents, db.pointers, db.transitions, next.transitions, batch)
    requires ArtifactsAdded(next.intents, db.artifacts, next.artifacts, batch, tags, builds) &&
             BuildsFit(next.intents, batch, builds)
    ensures ArtifactsGrown(next.intents, next.transitions, db.artifacts, next.artifacts, batch, builds)
  {
    forall a | a in next.artifacts && a !in db.artifacts {
      GrownArtifact(db, next, objects, plugin, batch, tags, builds, a);
    }
    forall t | t in next.transitions && t.intent.batch == batch && next.transitions[t].staged.Some? {
      GrownStaged(db, next, objects, plugin, batch, tags, builds, t);
    }
  }

  lemma GrownPointers(db: Db, next: Db, objects: Objects, plugin: Uuid, batch: Uuid, tags: seq<Tag>)
    requires Unused(db, batch) && IntentsGrown(db, next.intents, objects, plugin, batch, tags)
    requires TransitionsGrown(next.intents, db.pointers, db.transitions, next.transitions, batch)
    requires Persisting.PointersFrozen(next.intents, db.pointers, next.pointers, plugin, batch, tags)
    ensures PointersGrown(next.transitions, db.pointers, next.pointers, batch)
  {
    forall t | t in next.transitions && t.intent.batch == batch && next.transitions[t].pointer in db.pointers
      ensures !next.pointers[next.transitions[t].pointer].available
    {
      assert t !in db.transitions && t.intent !in db.intents;
      var pid := next.transitions[t].pointer;
      assert IntentSound(db, objects, plugin, t.intent.tag, next.intents[t.intent]);
      assert OwnerOf(batch, pid) == t;
    }
  }

  lemma PlansEffect(db: Db, next: Db, objects: Objects, plugin: Uuid, session: Uuid, batch: Uuid, plans: seq<Plan>,
          builds: Builds)
    requires Unused(db, batch) && PluginsOk(db) && plans != [] && Distinct(PlanTags(plans)) &&
             AllBuilt(batch, plans, builds)
    requires forall plan | plan in plans :: IntentSound(db, objects, plugin, plan.command.tag, IntentFor(plugin, plan))
    requires PlansPersisted(db.(batches := next.batches), next, plugin, batch, plans, builds)
    requires next.batches == db.batches[batch := Batch(plugin, session, Prepared, PlanTags(plans))]
    ensures PreparedEffect(db, next, objects, plugin, session, batch, PlanTags(plans), builds)
  {
    var tags := PlanTags(plans);
    assert plans[0] in plans && VersionExpected(db, IntentFor(plugin, plans[0]));
    GrownIntents(db, next.intents, objects, plugin, batch, plans);
    GrownTransitions(db, next, objects, plugin, batch, tags);
    BuiltFit(db, next.intents, objects, plugin, batch, plans, builds);
    GrownArtifacts(db, next, objects, plugin, batch, tags, builds);
    GrownPointers(db, next, objects, plugin, batch, tags);
  }
}
