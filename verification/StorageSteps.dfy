/** What happens to stored projections: collection, stray builds and damage. */
module StorageSteps {
  import opened Wrappers
  import opened Tables
  import opened Classification
  import opened Receive
  import opened Lifecycle
  import opened World
  import opened Invariant
  import opened SettlementSafety

  type Disk = map<StorageKey, Projection>

  /** Each stored projection that matters is still there, built from the same commit. */
  ghost predicate Keeps(disk: Disk, after: Disk, key: StorageKey) {
    key in disk ==> key in after && after[key].commit == disk[key].commit
  }

  /** The storage of everything a pointer names and of everything staged for an open transition. */
  ghost predicate KeepsAll(db: Db, disk: Disk, after: Disk) {
    (forall pid | pid in db.pointers && db.pointers[pid].artifact.Some? &&
        db.pointers[pid].artifact.value in db.artifacts ::
      Keeps(disk, after, db.artifacts[db.pointers[pid].artifact.value].storage)) &&
    forall t | t in db.transitions && TransitionOpen(db.transitions[t].state) && db.transitions[t].staged.Some? ::
        Keeps(disk, after, BuiltFor(t))
  }

  lemma KeptPointers(db: Db, disk: Disk, after: Disk)
    requires PointersOk(db, disk) && KeepsAll(db, disk, after)
    ensures PointersOk(db, after)
  {
    forall pid | pid in db.pointers && db.pointers[pid].artifact.Some?
        ensures PointedAt(db, after, pid, db.pointers[pid].artifact.value) {
      assert PointedAt(db, disk, pid, db.pointers[pid].artifact.value);
    }
  }

  lemma KeptStaged(db: Db, disk: Disk, after: Disk, t: TransitionId)
    requires KeepsAll(db, disk, after) && t in db.transitions && TransitionOpen(db.transitions[t].state) &&
             t.intent in db.intents
    requires StagedStored(db, disk, t)
    ensures StagedStored(db, after, t)
  {
  }

  lemma KeptStorage(db: Db, refs: map<TagKey, ObjectId>, disk: Disk, after: Disk)
    requires StorageOk(db, refs, disk) && KeepsAll(db, disk, after)
    ensures StorageOk(db, refs, after)
  {
    forall t | t in db.transitions && TransitionOpen(db.transitions[t].state)
      ensures t.intent in db.intents && (RefsOld(db, refs, t.intent.batch) || StagedStored(db, after, t))
    {
      if StagedStored(db, disk, t) { KeptStaged(db, disk, after, t); }
    }
  }

  lemma KeptSession(w: World, after: Disk, p: Uuid)
    requires RowsOk(w.db) && KeepsAll(w.db, w.disk, after) && p in w.sessions &&
             SessionOk(w.db, w.refs, w.disk, p, w.sessions[p])
    ensures SessionOk(w.db, w.refs, after, p, w.sessions[p])
  {
    if w.sessions[p].phase.Applying? && w.sessions[p].phase.prepared.Some? {
      var batch := w.sessions[p].phase.prepared.value;
      forall t | t in w.db.transitions && t.intent.batch == batch
          ensures t.intent in w.db.intents && StagedStored(w.db, after, t) {
        assert IsOpen(w.db.intents[t.intent].state);
        KeptStaged(w.db, w.disk, after, t);
      }
    }
  }

  lemma KeepingKeepsInvariant(w: World, after: Disk)
    requires Inv(w) && KeepsAll(w.db, w.disk, after)
    ensures Inv(w.(disk := after))
  {
    KeptPointers(w.db, w.disk, after);
    KeptStorage(w.db, w.refs, w.disk, after);
    forall p | p in w.sessions ensures SessionOk(w.db, w.refs, after, p, w.sessions[p]) {
      KeptSession(w, after, p);
    }
  }

  // ---- Collection

  /** A projection handed to the collector is not what a pointer names, nor staged for an open transition. */
  lemma CollectedUnused(db: Db, disk: Disk, artifact: ArtifactId)
    requires RowsOk(db) && ProjectionsOk(db, disk) && artifact in db.gc
    ensures artifact in db.artifacts
    ensures forall pid | pid in db.pointers :: db.pointers[pid].artifact != Some(artifact)
    ensures forall t | t in db.transitions && TransitionUnresolved(db.transitions[t].state) ::
              db.transitions[t].staged != Some(artifact) && db.transitions[t].current != Some(artifact)
  {
    forall pid | pid in db.pointers && db.pointers[pid].artifact.Some?
        ensures db.pointers[pid].artifact != Some(artifact) {
      assert PointedAt(db, disk, pid, db.pointers[pid].artifact.value);
    }
    forall t | t in db.transitions && TransitionUnresolved(db.transitions[t].state)
      ensures db.transitions[t].staged != Some(artifact) && db.transitions[t].current != Some(artifact)
    {
      assert PointerFrozen(db, db.transitions[t]);
      if db.transitions[t].staged.Some? { assert StagedRowOk(db, t); }
    }
  }

  lemma RemovalKeeps(db: Db, disk: Disk, artifact: ArtifactId)
    requires ArtifactsOk(db) && artifact in db.artifacts
    requires forall pid | pid in db.pointers :: db.pointers[pid].artifact != Some(artifact)
    requires forall t | t in db.transitions && TransitionOpen(db.transitions[t].state) &&
             db.transitions[t].staged.Some? ::
               BuiltFor(t) != db.artifacts[artifact].storage
    ensures KeepsAll(db, disk, disk - {db.artifacts[artifact].storage})
  {
  }

  lemma StagedApart(db: Db, disk: Disk, artifact: ArtifactId, t: TransitionId)
    requires TransitionRowsOk(db) && StagedOk(db) && ArtifactsOk(db) && artifact in db.gc && artifact in db.artifacts
    requires t in db.transitions && TransitionOpen(db.transitions[t].state) && db.transitions[t].staged.Some?
    ensures BuiltFor(t) != db.artifacts[artifact].storage
  {
    assert StagedRowOk(db, t);
  }

  lemma RemovingKeepsInvariant(w: World, artifact: ArtifactId)
    requires Inv(w) && artifact in w.db.gc
    ensures artifact in w.db.artifacts && Inv(w.(disk := w.disk - {w.db.artifacts[artifact].storage}))
  {
    CollectedUnused(w.db, w.disk, artifact);
    forall t | t in w.db.transitions && TransitionOpen(w.db.transitions[t].state) && w.db.transitions[t].staged.Some? {
      StagedApart(w.db, w.disk, artifact, t);
    }
    RemovalKeeps(w.db, w.disk, artifact);
    KeepingKeepsInvariant(w, w.disk - {w.db.artifacts[artifact].storage});
  }

  lemma RecordingKeepsProjections(db: Db, disk: Disk, gc: map<ArtifactId, GcState>)
    requires ProjectionsOk(db, disk) && gc.Keys == db.gc.Keys
    ensures ProjectionsOk(db.(gc := gc), disk)
  {
    var next := db.(gc := gc);
    forall pid | pid in next.pointers && next.pointers[pid].artifact.Some?
        ensures PointedAt(next, disk, pid, next.pointers[pid].artifact.value) {
      assert PointedAt(db, disk, pid, db.pointers[pid].artifact.value);
    }
    forall t | t in next.transitions && TransitionUnresolved(next.transitions[t].state) &&
        next.transitions[t].staged.Some?
      ensures t.intent in next.intents && StagedRowOk(next, t)
    {
      assert StagedRowOk(db, t);
    }
  }

  lemma RecordingKeepsTables(db: Db, gc: map<ArtifactId, GcState>)
    requires TablesOk(db)
    ensures TablesOk(db.(gc := gc))
  {
    var next := db.(gc := gc);
    forall key ensures Replay(next.history, key) == StandingOf(next.versions, key) {
      assert Replay(db.history, key) == StandingOf(db.versions, key);
    }
    forall id ensures RowsFor(next.history, id) == if Recorded(next, id) then 1 else 0 {
      assert RowsFor(db.history, id) == if Recorded(db, id) then 1 else 0;
    }
  }

  lemma RecordingKeepsGit(w: World, gc: map<ArtifactId, GcState>)
    requires GitOk(w)
    ensures GitOk(w.(db := w.db.(gc := gc)))
  {
    var next := w.db.(gc := gc);
    forall t | t in next.transitions && TransitionOpen(next.transitions[t].state)
      ensures t.intent in next.intents && (RefsOld(next, w.refs, t.intent.batch) || StagedStored(next, w.disk, t))
    {
      if StagedStored(w.db, w.disk, t) { assert StagedStored(next, w.disk, t); }
    }
  }

  lemma RecordingKeepsSessions(w: World, gc: map<ArtifactId, GcState>)
    requires SessionsOk(w)
    ensures SessionsOk(w.(db := w.db.(gc := gc)))
  {
    var next := w.db.(gc := gc);
    forall p | p in w.sessions ensures SessionOk(next, w.refs, w.disk, p, w.sessions[p]) {
      assert SessionOk(w.db, w.refs, w.disk, p, w.sessions[p]);
      if w.sessions[p].phase.Applying? && w.sessions[p].phase.prepared.Some? {
        assert RefsOld(next, w.refs, w.sessions[p].phase.prepared.value);
      }
    }
  }

  lemma RecordingKeepsRows(w: World, gc: map<ArtifactId, GcState>)
    requires RowsOk(w.db) && IntentsOk(w.db, w.objects)
    ensures RowsOk(w.db.(gc := gc)) && IntentsOk(w.db.(gc := gc), w.objects)
  {
  }

  lemma RecordingKeepsInvariant(w: World, artifact: ArtifactId, state: GcState)
    requires Inv(w) && artifact in w.db.gc
    ensures Inv(w.(db := w.db.(gc := w.db.gc[artifact := state])))
  {
    var gc := w.db.gc[artifact := state];
    assert gc.Keys == w.db.gc.Keys;
    RecordingKeepsRows(w, gc);
    RecordingKeepsProjections(w.db, w.disk, gc);
    RecordingKeepsTables(w.db, gc);
    RecordingKeepsGit(w, gc);
    RecordingKeepsSessions(w, gc);
  }

  // ---- Stray builds and damage

  lemma StrayLeaves(w: World, builds: map<TransitionId, Projection>, key: StorageKey)
    requires key.BuiltFor? ==> key.transition.intent.batch in w.db.batches
    ensures Keeps(w.disk, DoStrayBuild(w, builds).disk, key)
  {
  }

  lemma ReferencedIsOwned(db: Db, a: ArtifactId)
    requires RowsOk(db) && ArtifactsOk(db) && a in db.artifacts && db.artifacts[a].storage.BuiltFor?
    ensures db.artifacts[a].storage.transition.intent.batch in db.batches
  {
    var t := db.artifacts[a].storage.transition;
    assert t in db.transitions && t.intent in db.intents;
  }

  lemma StrayIs(w: World, builds: map<TransitionId, Projection>)
    ensures Do(w, StrayBuild(builds)) == w.(disk := DoStrayBuild(w, builds).disk)
  {
  }

  lemma StrayKeeps(w: World, builds: map<TransitionId, Projection>) returns (after: Disk)
    requires RowsOk(w.db) && ArtifactsOk(w.db)
    ensures Do(w, StrayBuild(builds)) == w.(disk := after) && KeepsAll(w.db, w.disk, after)
  {
    StrayIs(w, builds);
    after := DoStrayBuild(w, builds).disk;
    forall a | a in w.db.artifacts ensures Keeps(w.disk, after, w.db.artifacts[a].storage) {
      if w.db.artifacts[a].storage.BuiltFor? { ReferencedIsOwned(w.db, a); }
      StrayLeaves(w, builds, w.db.artifacts[a].storage);
    }
    forall t | t in w.db.transitions ensures Keeps(w.disk, after, BuiltFor(t)) {
      assert t.intent in w.db.intents;
      StrayLeaves(w, builds, BuiltFor(t));
    }
  }

  lemma StrayKeepsInvariant(w: World, builds: map<TransitionId, Projection>)
    requires Inv(w)
    ensures Inv(Do(w, StrayBuild(builds)))
  {
    var after := StrayKeeps(w, builds);
    KeepingKeepsInvariant(w, after);
  }

  lemma DamageKeeps(db: Db, disk: Disk, storage: StorageKey, digest: string)
    requires storage in disk
    ensures KeepsAll(db, disk, disk[storage := disk[storage].(digest := digest)])
  {
  }

  lemma DamageKeepsInvariant(w: World, storage: StorageKey, digest: string)
    requires Inv(w) && storage in w.disk
    ensures Inv(w.(disk := w.disk[storage := w.disk[storage].(digest := digest)]))
  {
    DamageKeeps(w.db, w.disk, storage, digest);
    KeepingKeepsInvariant(w, w.disk[storage := w.disk[storage].(digest := digest)]);
  }

  lemma StorageStep(w: World, event: Event)
    requires Inv(w) && (event.GcRecord? || event.GcRemove? || event.Damage?)
    ensures Inv(DoStorage(w, event))
  {
    match event
    case GcRecord(artifact, state) => if artifact in w.db.gc { RecordingKeepsInvariant(w, artifact, state); }
    case GcRemove(artifact) => if artifact in w.db.gc { RemovingKeepsInvariant(w, artifact); }
    case Damage(storage, digest) => if storage in w.disk { DamageKeepsInvariant(w, storage, digest); }
  }
}
