/** The prepare step of a push keeps the invariant. */
module PrepareInvariant {
  import opened Wrappers
  import opened Tables
  import opened Classification
  import opened Receive
  import opened Lifecycle
  import opened World
  import opened Invariant
  import opened Settlement
  import opened Planning
  import opened Persisting
  import opened PrepareSafety

  // ---- Rows

  lemma PreparedRows(db: Db, next: Db, objects: Objects, plugin: Uuid, session: Uuid, batch: Uuid, tags: seq<Tag>,
          builds: Builds)
    requires RowsOk(db) && PreparedEffect(db, next, objects, plugin, session, batch, tags, builds)
    ensures BatchRowsOk(next) && IntentRowsOk(next)
  {
  }

  lemma PreparedTransitionRows(db: Db, next: Db, objects: Objects, plugin: Uuid, session: Uuid, batch: Uuid,
          tags: seq<Tag>, builds: Builds)
    requires RowsOk(db) && PreparedEffect(db, next, objects, plugin, session, batch, tags, builds)
    ensures TransitionRowsOk(next)
  {
    forall t | t in next.transitions && t !in db.transitions
      ensures next.transitions[t].pointer == PointerId(t.revision, next.intents[t.intent].key) &&
              next.transitions[t].current.Some? &&
              next.transitions[t].state.Pending? && next.intents[t.intent].state.Prepared? &&
                  next.transitions[t].pointer in db.pointers
    {
      AddedTransition(db, next, objects, plugin, session, batch, tags, builds, t);
    }
  }

  /** A new transition starts from a live pointer. */
  lemma AddedTransition(db: Db, next: Db, objects: Objects, plugin: Uuid, session: Uuid, batch: Uuid, tags: seq<Tag>,
          builds: Builds, t: TransitionId)
    requires RowsOk(db) && PreparedEffect(db, next, objects, plugin, session, batch, tags, builds)
    requires t in next.transitions && t !in db.transitions
    ensures t.intent in next.intents && t.intent !in db.intents &&
            IntentSound(db, objects, plugin, t.intent.tag, next.intents[t.intent])
    ensures Opens(db.pointers, next.intents[t.intent].key, next.intents[t.intent].operation, t, next.transitions[t])
    ensures next.transitions[t].pointer in db.pointers && db.pointers[next.transitions[t].pointer].available &&
            next.transitions[t].current.Some?
  {
    assert t.intent !in db.intents;
  }

  // ---- Intents

  lemma PreparedIntents(db: Db, next: Db, objects: Objects, plugin: Uuid, session: Uuid, batch: Uuid, tags: seq<Tag>,
          builds: Builds)
    requires IntentsOk(db, objects) && PreparedEffect(db, next, objects, plugin, session, batch, tags, builds)
    ensures IntentsOk(next, objects)
  {
    forall i, j | i in next.intents && j in next.intents && IsUnresolved(next.intents[i].state) &&
        IsUnresolved(next.intents[j].state) &&
                  next.intents[i].key == next.intents[j].key
      ensures i == j
    {
      PreparedUnique(db, next, objects, plugin, batch, tags, i, j);
    }
    forall id | id in next.intents && IsUnresolved(next.intents[id].state)
        ensures VersionExpected(next, next.intents[id]) {
      if id in db.intents { assert VersionExpected(db, db.intents[id]); }
    }
    PreparedSelection(db, next, objects, plugin, batch, tags);
  }

  lemma PreparedSelection(db: Db, next: Db, objects: Objects, plugin: Uuid, batch: Uuid, tags: seq<Tag>)
    requires SelectionOk(db) && IntentsGrown(db, next.intents, objects, plugin, batch, tags) &&
             next.pointers.Keys == db.pointers.Keys
    ensures SelectionOk(next)
  {
    forall id, pid | id in next.intents && IsUnresolved(next.intents[id].state) && pid in next.pointers &&
        pid.key == next.intents[id].key
      ensures pid.revision in next.intents[id].revisions
    {
      assert id !in db.intents ==> IntentSound(db, objects, plugin, id.tag, next.intents[id]);
    }
  }

  lemma PreparedUnique(db: Db, next: Db, objects: Objects, plugin: Uuid, batch: Uuid, tags: seq<Tag>, i: IntentId,
          j: IntentId)
    requires UnresolvedUnique(db) && IntentsGrown(db, next.intents, objects, plugin, batch, tags)
    requires i in next.intents && j in next.intents && IsUnresolved(next.intents[i].state) &&
             IsUnresolved(next.intents[j].state)
    requires next.intents[i].key == next.intents[j].key
    ensures i == j
  {
    if i in db.intents && j !in db.intents { PreparedApart(db, next, objects, plugin, batch, tags, i, j); }
    if j in db.intents && i !in db.intents { PreparedApart(db, next, objects, plugin, batch, tags, j, i); }
  }

  lemma PreparedApart(db: Db, next: Db, objects: Objects, plugin: Uuid, batch: Uuid, tags: seq<Tag>, i: IntentId,
          j: IntentId)
    requires IntentsGrown(db, next.intents, objects, plugin, batch, tags)
    requires i in db.intents && IsUnresolved(db.intents[i].state) && j in next.intents && j !in db.intents
    ensures db.intents[i].key != next.intents[j].key
  {
    assert !Blocked(db, next.intents[j].key);
  }

  // ---- Projections

  lemma PreparedFrozen(db: Db, next: Db, objects: Objects, plugin: Uuid, session: Uuid, batch: Uuid, tags: seq<Tag>,
          builds: Builds)
    requires RowsOk(db) && FrozenOk(db) && PreparedEffect(db, next, objects, plugin, session, batch, tags, builds)
    ensures FrozenOk(next)
  {
    forall t | t in next.transitions && TransitionUnresolved(next.transitions[t].state)
        ensures Receive.PointerFrozen(next, next.transitions[t]) {
      if t in db.transitions {
        assert Receive.PointerFrozen(db, db.transitions[t]);
      } else {
        AddedTransition(db, next, objects, plugin, session, batch, tags, builds, t);
      }
    }
  }

  lemma AddedStaged(db: Db, next: Db, objects: Objects, plugin: Uuid, session: Uuid, batch: Uuid, tags: seq<Tag>,
          builds: Builds, t: TransitionId)
    requires RowsOk(db) && ArtifactsOk(db) && PreparedEffect(db, next, objects, plugin, session, batch, tags, builds)
    requires t in next.transitions && t !in db.transitions && next.transitions[t].staged.Some?
    ensures t.intent in next.intents && StagedRowOk(next, t)
  {
    assert StagedFor(t) in next.artifacts && StagedFor(t) !in db.artifacts;
  }

  lemma PreparedStaged(db: Db, next: Db, objects: Objects, plugin: Uuid, session: Uuid, batch: Uuid, tags: seq<Tag>,
          builds: Builds)
    requires RowsOk(db) && ArtifactsOk(db) && StagedOk(db) &&
             PreparedEffect(db, next, objects, plugin, session, batch, tags, builds)
    ensures StagedOk(next)
  {
    forall t | t in next.transitions && TransitionUnresolved(next.transitions[t].state) &&
        next.transitions[t].staged.Some?
      ensures t.intent in next.intents && StagedRowOk(next, t)
    {
      if t in db.transitions {
        assert StagedRowOk(db, t);
      } else {
        AddedStaged(db, next, objects, plugin, session, batch, tags, builds, t);
      }
    }
  }

  lemma PreparedStorageKeys(db: Db, next: Db, objects: Objects, plugin: Uuid, session: Uuid, batch: Uuid,
          tags: seq<Tag>, builds: Builds, a: ArtifactId, c: ArtifactId)
    requires ArtifactsOk(db) && PreparedEffect(db, next, objects, plugin, session, batch, tags, builds)
    requires a in next.artifacts && c in next.artifacts && next.artifacts[a].storage == next.artifacts[c].storage
    ensures a == c
  {
  }

  lemma PreparedArtifacts(db: Db, next: Db, objects: Objects, plugin: Uuid, session: Uuid, batch: Uuid, tags: seq<Tag>,
          builds: Builds)
    requires ArtifactsOk(db) && PreparedEffect(db, next, objects, plugin, session, batch, tags, builds)
    ensures ArtifactsOk(next)
  {
    forall a, c | a in next.artifacts && c in next.artifacts && next.artifacts[a].storage == next.artifacts[c].storage
        ensures a == c {
      PreparedStorageKeys(db, next, objects, plugin, session, batch, tags, builds, a, c);
    }
  }

  /** The disk gains at most the storage of the batch that is being prepared. */
  ghost predicate DiskGrown(db: Db, before: map<StorageKey, Projection>, after: map<StorageKey, Projection>) {
    forall key | key in before :: key in after && after[key] == before[key]
  }

  lemma PreparedPointers(db: Db, next: Db, objects: Objects, disk: map<StorageKey, Projection>,
          after: map<StorageKey, Projection>, plugin: Uuid, session: Uuid, batch: Uuid, tags: seq<Tag>, builds: Builds)
    requires PointersOk(db, disk) && PreparedEffect(db, next, objects, plugin, session, batch, tags, builds) &&
             DiskGrown(db, disk, after)
    ensures PointersOk(next, after)
  {
    forall pid | pid in next.pointers && next.pointers[pid].artifact.Some?
        ensures PointedAt(next, after, pid, next.pointers[pid].artifact.value) {
      assert PointedAt(db, disk, pid, db.pointers[pid].artifact.value);
    }
  }

  lemma PreparedProjections(db: Db, next: Db, objects: Objects, disk: map<StorageKey, Projection>,
          after: map<StorageKey, Projection>, plugin: Uuid, session: Uuid, batch: Uuid, tags: seq<Tag>, builds: Builds)
    requires RowsOk(db) && ProjectionsOk(db, disk) &&
             PreparedEffect(db, next, objects, plugin, session, batch, tags, builds)
    requires DiskGrown(db, disk, after)
    ensures ProjectionsOk(next, after)
  {
    PreparedFrozen(db, next, objects, plugin, session, batch, tags, builds);
    PreparedStaged(db, next, objects, plugin, session, batch, tags, builds);
    PreparedArtifacts(db, next, objects, plugin, session, batch, tags, builds);
    PreparedPointers(db, next, objects, disk, after, plugin, session, batch, tags, builds);
  }

  // ---- Tables

  lemma PreparedTables(db: Db, next: Db, objects: Objects, plugin: Uuid, session: Uuid, batch: Uuid, tags: seq<Tag>,
          builds: Builds)
    requires TablesOk(db) && PreparedEffect(db, next, objects, plugin, session, batch, tags, builds)
    ensures TablesOk(next)
  {
    forall key ensures Replay(next.history, key) == StandingOf(next.versions, key) {
      assert Replay(db.history, key) == StandingOf(db.versions, key);
    }
    forall id ensures RowsFor(next.history, id) == if Recorded(next, id) then 1 else 0 {
      assert RowsFor(db.history, id) == if Recorded(db, id) then 1 else 0;
    }
  }

  // ---- Git

  lemma BlockedGrows(db: Db, next: Db, key: TagKey)
    requires (forall id | id in db.intents :: id in next.intents && next.intents[id] == db.intents[id]) &&
             Blocked(db, key)
    ensures Blocked(next, key)
  {
    var id :| id in db.intents && db.intents[id].key == key && IsUnresolved(db.intents[id].state);
    assert id in next.intents;
  }

  lemma PreparedAgreement(db: Db, next: Db, refs: map<TagKey, ObjectId>)
    requires AgreementOk(db, refs) && next.versions == db.versions
    requires forall id | id in db.intents :: id in next.intents && next.intents[id] == db.intents[id]
    ensures AgreementOk(next, refs)
  {
    forall key | key in next.versions && next.versions[key].status == Available && !Blocked(next, key)
        ensures RefIs(refs, key, next.versions[key].raw) {
      if Blocked(db, key) { BlockedGrows(db, next, key); }
    }
  }

  /** Git still has every value the new batch expects. */
  lemma PreparedFromOld(db: Db, next: Db, objects: Objects, refs: map<TagKey, ObjectId>, plugin: Uuid, batch: Uuid,
          tags: seq<Tag>)
    requires AgreementOk(db, refs) && IntentsGrown(db, next.intents, objects, plugin, batch, tags)
    ensures RefsOld(next, refs, batch)
  {
    forall id | id in next.intents && id.batch == batch
        ensures RefIs(refs, next.intents[id].key, Some(next.intents[id].oldObject)) {
      assert id !in db.intents && IntentSound(db, objects, plugin, id.tag, next.intents[id]);
    }
  }

  lemma OtherRefs(db: Db, next: Db, objects: Objects, refs: map<TagKey, ObjectId>, plugin: Uuid, batch: Uuid,
          tags: seq<Tag>, other: Uuid)
    requires IntentsGrown(db, next.intents, objects, plugin, batch, tags) && other != batch
    ensures RefsOld(next, refs, other) <==> RefsOld(db, refs, other)
    ensures RefsNew(next, refs, other) <==> RefsNew(db, refs, other)
  {
    assert forall id: IntentId | id.batch == other :: id in next.intents <==> id in db.intents;
  }

  lemma OtherStored(db: Db, next: Db, objects: Objects, disk: map<StorageKey, Projection>,
          after: map<StorageKey, Projection>, plugin: Uuid, batch: Uuid, tags: seq<Tag>, t: TransitionId)
    requires IntentsGrown(db, next.intents, objects, plugin, batch, tags) && DiskGrown(db, disk, after)
    requires t in db.transitions && t in next.transitions && next.transitions[t] == db.transitions[t] &&
             t.intent in db.intents
    requires StagedStored(db, disk, t)
    ensures t.intent in next.intents && StagedStored(next, after, t)
  {
  }

  lemma PreparedBatchRefs(db: Db, next: Db, objects: Objects, refs: map<TagKey, ObjectId>, plugin: Uuid, session: Uuid,
          batch: Uuid, tags: seq<Tag>)
    requires BatchRefsOk(db, refs) && AgreementOk(db, refs)
    requires BatchGrown(db, next.batches, plugin, session, batch, tags) &&
             IntentsGrown(db, next.intents, objects, plugin, batch, tags)
    ensures BatchRefsOk(next, refs)
  {
    PreparedFromOld(db, next, objects, refs, plugin, batch, tags);
    forall b | b in next.batches && IsUnresolved(next.batches[b].state)
        ensures RefsOld(next, refs, b) || RefsNew(next, refs, b) {
      if b != batch { OtherRefs(db, next, objects, refs, plugin, batch, tags, b); }
    }
  }

  lemma PreparedStorage(db: Db, next: Db, objects: Objects, refs: map<TagKey, ObjectId>,
          disk: map<StorageKey, Projection>, after: map<StorageKey, Projection>, plugin: Uuid, batch: Uuid,
          tags: seq<Tag>)
    requires TransitionRowsOk(db) && StorageOk(db, refs, disk) && AgreementOk(db, refs) && DiskGrown(db, disk, after)
    requires IntentsGrown(db, next.intents, objects, plugin, batch, tags)
    requires TransitionsGrown(next.intents, db.pointers, db.transitions, next.transitions, batch)
    ensures StorageOk(next, refs, after)
  {
    PreparedFromOld(db, next, objects, refs, plugin, batch, tags);
    forall t | t in next.transitions && TransitionOpen(next.transitions[t].state)
      ensures t.intent in next.intents && (RefsOld(next, refs, t.intent.batch) || StagedStored(next, after, t))
    {
      if t in db.transitions {
        OtherRefs(db, next, objects, refs, plugin, batch, tags, t.intent.batch);
        if StagedStored(db, disk, t) { OtherStored(db, next, objects, disk, after, plugin, batch, tags, t); }
      }
    }
  }

  lemma PreparedGit(w: World, next: Db, after: map<StorageKey, Projection>, plugin: Uuid, session: Uuid, batch: Uuid,
          tags: seq<Tag>, builds: Builds)
    requires RowsOk(w.db) && GitOk(w) && PreparedEffect(w.db, next, w.objects, plugin, session, batch, tags, builds) &&
             DiskGrown(w.db, w.disk, after)
    ensures GitOk(w.(db := next, disk := after))
  {
    PreparedAgreement(w.db, next, w.refs);
    PreparedBatchRefs(w.db, next, w.objects, w.refs, plugin, session, batch, tags);
    PreparedStorage(w.db, next, w.objects, w.refs, w.disk, after, plugin, batch, tags);
  }

  // ---- Sessions of other Plugins

  lemma OtherCovered(db: Db, next: Db, objects: Objects, plugin: Uuid, batch: Uuid, tags: seq<Tag>, p: Uuid,
          command: RefCommand, prepared: Option<Uuid>)
    requires IntentsGrown(db, next.intents, objects, plugin, batch, tags) && next.versions == db.versions &&
             CommandCovered(db, p, command, prepared)
    ensures CommandCovered(next, p, command, prepared)
  {
  }

  lemma OtherBatchStored(db: Db, next: Db, objects: Objects, disk: map<StorageKey, Projection>,
          after: map<StorageKey, Projection>, plugin: Uuid, batch: Uuid, tags: seq<Tag>, other: Uuid)
    requires IntentsGrown(db, next.intents, objects, plugin, batch, tags) && DiskGrown(db, disk, after) &&
             other != batch
    requires TransitionsGrown(next.intents, db.pointers, db.transitions, next.transitions, batch) &&
             BatchStored(db, disk, other)
    ensures BatchStored(next, after, other)
  {
    forall t | t in next.transitions && t.intent.batch == other
        ensures t.intent in next.intents && StagedStored(next, after, t) {
      OtherStored(db, next, objects, disk, after, plugin, batch, tags, t);
    }
  }

  lemma OtherStaged(db: Db, next: Db, batch: Uuid, builds: Builds, other: Uuid)
    requires TransitionsGrown(next.intents, db.pointers, db.transitions, next.transitions, batch)
    requires ArtifactsGrown(next.intents, next.transitions, db.artifacts, next.artifacts, batch, builds)
    requires StillStaged(db, other) && other != batch
    ensures StillStaged(next, other)
  {
  }

  lemma OtherSession(w: World, next: Db, after: map<StorageKey, Projection>, plugin: Uuid, session: Uuid, batch: Uuid,
          tags: seq<Tag>, builds: Builds, p: Uuid)
    requires BatchGrown(w.db, next.batches, plugin, session, batch, tags) &&
             IntentsGrown(w.db, next.intents, w.objects, plugin, batch, tags)
    requires TransitionsGrown(next.intents, w.db.pointers, w.db.transitions, next.transitions, batch)
    requires ArtifactsGrown(next.intents, next.transitions, w.db.artifacts, next.artifacts, batch, builds)
    requires next.versions == w.db.versions && DiskGrown(w.db, w.disk, after)
    requires p in w.sessions && SessionOk(w.db, w.refs, w.disk, p, w.sessions[p])
    ensures SessionOk(next, w.refs, after, p, w.sessions[p])
  {
    match w.sessions[p].phase
    case Opened =>
    case Applied(prepared) => if prepared.Some? { OtherStaged(w.db, next, batch, builds, prepared.value); }
    case Applying(commands, prepared) =>
      forall command | command in commands ensures CommandCovered(next, p, command, prepared) {
        OtherCovered(w.db, next, w.objects, plugin, batch, tags, p, command, prepared);
      }
      if prepared.Some? {
        OtherRefs(w.db, next, w.objects, w.refs, plugin, batch, tags, prepared.value);
        OtherBatchStored(w.db, next, w.objects, w.disk, after, plugin, batch, tags, prepared.value);
        OtherStaged(w.db, next, batch, builds, prepared.value);
        assert BatchPushed(next, prepared.value, commands);
      }
  }

  lemma PreparedSessions(w: World, next: Db, after: map<StorageKey, Projection>, plugin: Uuid, session: Uuid,
          batch: Uuid, tags: seq<Tag>, builds: Builds)
    requires BatchGrown(w.db, next.batches, plugin, session, batch, tags) &&
             IntentsGrown(w.db, next.intents, w.objects, plugin, batch, tags)
    requires TransitionsGrown(next.intents, w.db.pointers, w.db.transitions, next.transitions, batch)
    requires ArtifactsGrown(next.intents, next.transitions, w.db.artifacts, next.artifacts, batch, builds)
    requires next.versions == w.db.versions && DiskGrown(w.db, w.disk, after) && SessionsOk(w)
    ensures SessionsOk(w.(db := next, disk := after))
  {
    forall p | p in w.sessions ensures SessionOk(next, w.refs, after, p, w.sessions[p]) {
      OtherSession(w, next, after, plugin, session, batch, tags, builds, p);
    }
  }

  lemma PreparingKeepsInvariant(w: World, next: Db, after: map<StorageKey, Projection>, plugin: Uuid, session: Uuid,
          batch: Uuid, tags: seq<Tag>, builds: Builds)
    requires Inv(w) && PreparedEffect(w.db, next, w.objects, plugin, session, batch, tags, builds) &&
             DiskGrown(w.db, w.disk, after)
    ensures Inv(w.(db := next, disk := after))
  {
    PreparedRows(w.db, next, w.objects, plugin, session, batch, tags, builds);
    PreparedTransitionRows(w.db, next, w.objects, plugin, session, batch, tags, builds);
    PreparedIntents(w.db, next, w.objects, plugin, session, batch, tags, builds);
    PreparedProjections(w.db, next, w.objects, w.disk, after, plugin, session, batch, tags, builds);
    PreparedTables(w.db, next, w.objects, plugin, session, batch, tags, builds);
    PreparedGit(w, next, after, plugin, session, batch, tags, builds);
    PreparedSessions(w, next, after, plugin, session, batch, tags, builds);
  }
}
