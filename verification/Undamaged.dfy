/** An operator is needed only after stored bytes were damaged; otherwise a push always completes or aborts. */
module Undamaged {
  import opened Wrappers
  import opened Tables
  import opened Classification
  import opened Receive
  import opened Lifecycle
  import opened World
  import opened Invariant
  import opened Settlement
  import opened SettlementSafety
  import opened SettlementInvariant
  import opened Holding
  import opened Marking
  import opened Resolution
  import opened ResolutionSafety
  import opened Persisting
  import opened PrepareSafety
  import opened PrepareStep
  import opened ApplyStep
  import opened Safety
  import opened Evolution
  import opened Permanence
  import opened Outcomes

  type Disk = map<StorageKey, Projection>

  /** Whatever of an artifact is stored has the digest its row records. */
  ghost predicate DigestsOk(artifacts: Artifacts, disk: Disk) {
    forall a | a in artifacts && artifacts[a].storage in disk ::
        disk[artifacts[a].storage].digest == artifacts[a].digest
  }

  ghost predicate NoneManual(db: Db) {
    forall b | b in db.batches :: !db.batches[b].state.ManualRequired?
  }

  /** No projection of an open batch was ever marked as failed. */
  ghost predicate NoneMarked(db: Db) {
    forall t | t in db.transitions && TransitionOpen(db.transitions[t].state) && db.transitions[t].staged.Some? ::
      db.transitions[t].staged.value in db.artifacts && db.artifacts[db.transitions[t].staged.value].state.Staged?
  }

  /** The storage of the rows there are: unchanged, or gone. */
  ghost predicate Shrinks(artifacts: Artifacts, before: Disk, after: Disk) {
    forall a | a in artifacts && artifacts[a].storage in after ::
        artifacts[a].storage in before && after[artifacts[a].storage] == before[artifacts[a].storage]
  }

  lemma KeptDigests(before: Artifacts, after: Artifacts, disk: Disk, remaining: Disk)
    requires DigestsOk(before, disk) && Shrinks(before, disk, remaining)
    requires after.Keys == before.Keys && forall a | a in before ::
             after[a].storage == before[a].storage && after[a].digest == before[a].digest
    ensures DigestsOk(after, remaining)
  {
  }

  /** The rows there were do not use the storage of the new batch. */
  lemma OldStorageApart(db: Db, batch: Uuid, a: ArtifactId)
    requires RowsOk(db) && ArtifactsOk(db) && batch !in db.batches && a in db.artifacts &&
             db.artifacts[a].storage.BuiltFor?
    ensures db.artifacts[a].storage.transition.intent.batch != batch
  {
    var t := db.artifacts[a].storage.transition;
    assert t in db.transitions && t.intent in db.intents;
  }

  lemma PreparedDigests(db: Db, next: Db, disk: Disk, batch: Uuid, plans: seq<Plan>, builds: Builds, loading: Loading)
    requires RowsOk(db) && ArtifactsOk(db) && batch !in db.batches && DigestsOk(db.artifacts, disk)
    requires ArtifactsGrown(next.intents, next.transitions, db.artifacts, next.artifacts, batch, builds)
    requires forall key | key in disk && key.BuiltFor? :: key.transition.intent.batch != batch
    ensures DigestsOk(next.artifacts, StoreBuilds(disk, batch, plans, Leftover(builds, loading)))
  {
    forall a | a in next.artifacts
      ensures var after, key := StoreBuilds(disk, batch, plans, Leftover(builds, loading)), next.artifacts[a].storage;
              key in after ==> after[key].digest == next.artifacts[a].digest
    {
      PreparedDigest(db, next, disk, batch, plans, builds, loading, a);
    }
  }

  lemma PreparedDigest(db: Db, next: Db, disk: Disk, batch: Uuid, plans: seq<Plan>, builds: Builds, loading: Loading,
          a: ArtifactId)
    requires RowsOk(db) && ArtifactsOk(db) && batch !in db.batches && DigestsOk(db.artifacts, disk)
    requires ArtifactsGrown(next.intents, next.transitions, db.artifacts, next.artifacts, batch, builds)
    requires forall key | key in disk && key.BuiltFor? :: key.transition.intent.batch != batch
    requires a in next.artifacts
    ensures var after, key := StoreBuilds(disk, batch, plans, Leftover(builds, loading)), next.artifacts[a].storage;
            key in after ==> after[key].digest == next.artifacts[a].digest
  {
    var key := next.artifacts[a].storage;
    StoredAt(disk, batch, plans, Leftover(builds, loading), key);
    if a in db.artifacts && key.BuiltFor? { OldStorageApart(db, batch, a); }
  }

  lemma PrepareDigests(w: World, plugin: Uuid, commands: seq<RefCommand>, batch: Uuid, builds: Builds, loading: Loading)
    requires Inv(w) && Preparable(w, plugin, commands, batch) && DigestsOk(w.db.artifacts, w.disk)
    ensures var next := DoPrepare(w, plugin, commands, batch, builds, loading); DigestsOk(next.db.artifacts, next.disk)
  {
    if PlansOf(w, plugin, commands, batch, builds) == [] {
      PreparesNothing(w, plugin, commands, batch, builds, loading);
    } else {
      var next := PreparationSucceeds(w, plugin, commands, batch, builds, loading);
      PreparedDigests(w.db, next, w.disk, batch, PlansOf(w, plugin, commands, batch, builds), builds, loading);
      var made := PersistedEffect(w, plugin, w.sessions[plugin].id, commands, batch, builds);
      PreparesPlans(w, plugin, commands, batch, builds, loading, made);
    }
  }

  lemma StrayShrinks(w: World, builds: Builds)
    requires RowsOk(w.db) && ArtifactsOk(w.db)
    ensures Shrinks(w.db.artifacts, w.disk, DoStrayBuild(w, builds).disk)
  {
    forall a | a in w.db.artifacts && w.db.artifacts[a].storage.BuiltFor?
      ensures w.db.artifacts[a].storage.transition.intent.batch in w.db.batches
    {
      var t := w.db.artifacts[a].storage.transition;
      assert t in w.db.transitions && t.intent in w.db.intents;
    }
  }

  lemma RemovalShrinks(w: World, event: Event)
    requires event.GcRecord? || event.GcRemove?
    ensures Shrinks(w.db.artifacts, w.disk, DoStorage(w, event).disk)
  {
  }

  lemma SessionsKeepDisk(w: World, event: Event)
    requires event.Open? || event.ApplyRefs? || event.Finalize? || event.Vanish?
    ensures Do(w, event).disk == w.disk
  {
  }

  lemma RecoveryKeepsDisk(w: World, event: Event)
    requires event.ResumeResolve? || event.Reconcile?
    ensures Do(w, event).disk == w.disk
  {
  }

  lemma ServiceKeepsDisk(w: World, event: Event)
    requires event.PublishVersion? || event.SetDefaultVersion? || event.ClearDefaultOf? || event.ArchivePlugin? ||
             event.RestorePlugin?
    ensures DoService(w, event).disk == w.disk
  {
  }

  lemma SameShrinks(artifacts: Artifacts, disk: Disk)
    ensures Shrinks(artifacts, disk, disk)
  {
  }

  lemma StorageDisk(w: World, event: Event)
    requires event.StrayBuild? || event.GcRecord? || event.GcRemove?
    ensures Do(w, event).disk == if event.StrayBuild? then DoStrayBuild(w, event.builds).disk
            else DoStorage(w, event).disk
  {
  }

  lemma StorageShrinks(w: World, event: Event)
    requires RowsOk(w.db) && ArtifactsOk(w.db) && (event.StrayBuild? || event.GcRecord? || event.GcRemove?)
    ensures Shrinks(w.db.artifacts, w.disk, Do(w, event).disk)
  {
    StorageDisk(w, event);
    if event.StrayBuild? {
      StrayShrinks(w, event.builds);
    } else {
      RemovalShrinks(w, event);
    }
  }

  lemma DiskAfter(w: World, event: Event)
    requires RowsOk(w.db) && ArtifactsOk(w.db) && !event.Damage? && !event.PrepareReceive?
    ensures Shrinks(w.db.artifacts, w.disk, Do(w, event).disk)
  {
    SameShrinks(w.db.artifacts, w.disk);
    if event.StrayBuild? || event.GcRecord? || event.GcRemove? {
      StorageShrinks(w, event);
    } else if event.ResumeResolve? || event.Reconcile? {
      RecoveryKeepsDisk(w, event);
    } else if event.Open? || event.ApplyRefs? || event.Finalize? || event.Vanish? {
      SessionsKeepDisk(w, event);
    } else {
      ServiceKeepsDisk(w, event);
    }
  }

  lemma ChangeDigests(w: World, next: Db, change: Change, disk: Disk)
    requires Explains(w, next, change) && !change.Prepares? && DigestsOk(w.db.artifacts, w.disk) &&
             Shrinks(w.db.artifacts, w.disk, disk)
    ensures DigestsOk(next.artifacts, disk)
  {
    KeptDigests(w.db.artifacts, next.artifacts, w.disk, disk);
  }

  lemma IntactWhenApplied(w: World, batch: Uuid)
    requires Inv(w) && OpenBatch(w.db, batch) && RefsNew(w.db, w.refs, batch) && DigestsOk(w.db.artifacts, w.disk)
    ensures StagedIntact(w.db, w.disk, batch)
  {
    NewRefsStored(w, batch);
    forall t | t in w.db.transitions && t.intent.batch == batch && w.db.transitions[t].staged.Some?
      ensures w.db.transitions[t].staged.value in w.db.artifacts &&
              Stored(w.disk, w.db.artifacts[w.db.transitions[t].staged.value])
    {
      StagedPresent(w, batch, t);
      assert StagedRowOk(w.db, t);
    }
  }

  lemma PreparedUnharmed(db: Db, next: Db, objects: Objects, plugin: Uuid, session: Uuid, batch: Uuid, tags: seq<Tag>,
          builds: Builds)
    requires PreparedEffect(db, next, objects, plugin, session, batch, tags, builds) && NoneManual(db) && NoneMarked(db)
    ensures NoneManual(next) && NoneMarked(next)
  {
    forall t | t in next.transitions && TransitionOpen(next.transitions[t].state) && next.transitions[t].staged.Some?
      ensures next.transitions[t].staged.value in next.artifacts &&
              next.artifacts[next.transitions[t].staged.value].state.Staged?
    {
      if t !in db.transitions { assert StagedFor(t) in next.artifacts && StagedFor(t) !in db.artifacts; }
    }
  }

  lemma SettledUnharmed(db: Db, next: Db, batch: Uuid, verdict: Disposition)
    requires TransitionRowsOk(db) && SettledEffect(db, next, batch, verdict) && NoneManual(db) && NoneMarked(db)
    ensures NoneManual(next) && NoneMarked(next)
  {
  }

  lemma OpenStillStaged(db: Db, batch: Uuid)
    requires RowsOk(db) && OpenBatch(db, batch) && NoneMarked(db)
    ensures StillStaged(db, batch)
  {
    assert forall t | t in db.transitions && t.intent.batch == batch :: TransitionOpen(db.transitions[t].state);
  }

  lemma NothingHarmed(w: World, next: Db, change: Change)
    requires Inv(w) && Explains(w, next, change) && DigestsOk(w.db.artifacts, w.disk) && NoneMarked(w.db)
    ensures !change.Holds? && !change.Marks?
  {
    if change.Holds? || change.Marks? {
      IntactWhenApplied(w, change.batch);
      OpenStillStaged(w.db, change.batch);
    }
  }

  lemma ChangeUnharmed(w: World, next: Db, change: Change)
    requires TransitionRowsOk(w.db) && Explains(w, next, change) && !change.Holds? && !change.Marks? &&
             NoneManual(w.db) && NoneMarked(w.db)
    ensures NoneManual(next) && NoneMarked(next)
  {
    match change
    case Prepares(plugin, session, batch, tags, builds) => PreparedUnharmed(w.db, next, w.objects, plugin, session,
        batch, tags, builds);
    case Settles(batch, verdict) => SettledUnharmed(w.db, next, batch, verdict);
    case Nothing =>
    case Serves =>
    case Collects =>
    case Holds(_) =>
    case Marks(_, _) =>
  }

  ghost predicate Healthy(w: World) { Inv(w) && NoneManual(w.db) && NoneMarked(w.db) &&
          DigestsOk(w.db.artifacts, w.disk) }

  lemma PrepareStaysHealthy(w: World, event: Event)
    requires Healthy(w) && event.PrepareReceive?
    ensures Healthy(Do(w, event))
  {
    StepKeepsInvariant(w, event);
    var change := StepExplained(w, event);
    NothingHarmed(w, Do(w, event).db, change);
    ChangeUnharmed(w, Do(w, event).db, change);
    if Preparable(w, event.plugin, event.commands, event.batch) {
      PrepareDigests(w, event.plugin, event.commands, event.batch, event.builds, event.loading);
    }
  }

  lemma StepStaysHealthy(w: World, event: Event)
    requires Healthy(w) && !event.Damage?
    ensures Healthy(Do(w, event))
  {
    if event.PrepareReceive? {
      PrepareStaysHealthy(w, event);
    } else {
      StepKeepsInvariant(w, event);
      var change := StepExplained(w, event);
      NothingHarmed(w, Do(w, event).db, change);
      ChangeUnharmed(w, Do(w, event).db, change);
      DiskAfter(w, event);
      ChangeDigests(w, Do(w, event).db, change, Do(w, event).disk);
    }
  }

  /** As long as no stored bytes are damaged, no run leaves a batch to an operator. */
  lemma {:induction false} UndamagedNeverManual(w: World, events: seq<Event>)
    requires Healthy(w) && forall event | event in events :: !event.Damage?
    ensures Healthy(Run(w, events))
    decreases |events|
  {
    if events != [] {
      assert events == [events[0]] + events[1..];
      StepStaysHealthy(w, events[0]);
      UndamagedNeverManual(Do(w, events[0]), events[1..]);
    }
  }
}
