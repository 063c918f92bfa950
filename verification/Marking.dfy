/** The write that comes before a damaged batch is handed over: one staged projection is marked as failed,
    while its batch stays open. The process may die right after it. */
module Marking {
  import opened Wrappers
  import opened Tables
  import opened Classification
  import opened Receive
  import opened Lifecycle
  import opened World
  import opened Invariant
  import opened Settlement
  import opened SettlementSafety
  import opened SettlementInvariant
  import opened Holding

  /** A projection that the batch staged. */
  ghost predicate StagedBy(db: Db, batch: Uuid, aid: ArtifactId) {
    aid in db.artifacts && aid.StagedFor? && aid.transition.intent.batch == batch
  }

  lemma MarkedRows(db: Db, aid: ArtifactId, objects: Objects)
    requires RowsOk(db) && IntentsOk(db, objects)
    ensures RowsOk(MarkFailed(db, aid)) && IntentsOk(MarkFailed(db, aid), objects)
  {
  }

  lemma MarkedStaged(db: Db, batch: Uuid, aid: ArtifactId)
    requires FrozenOk(db) && StagedOk(db) && ArtifactsOk(db) && StagedBy(db, batch, aid)
    ensures FrozenOk(MarkFailed(db, aid)) && StagedOk(MarkFailed(db, aid)) && ArtifactsOk(MarkFailed(db, aid))
  {
    var next := MarkFailed(db, aid);
    forall t | t in next.transitions && TransitionUnresolved(next.transitions[t].state) &&
        next.transitions[t].staged.Some?
      ensures t.intent in next.intents && StagedRowOk(next, t)
    {
      assert StagedRowOk(db, t);
    }
    assert forall a | a in next.artifacts :: next.artifacts[a].storage == db.artifacts[a].storage;
  }

  lemma MarkedPointers(db: Db, disk: map<StorageKey, Projection>, batch: Uuid, aid: ArtifactId)
    requires IntentRowsOk(db) && TransitionRowsOk(db) && PointersOk(db, disk) && OpenBatch(db, batch) &&
             StagedBy(db, batch, aid)
    ensures PointersOk(MarkFailed(db, aid), disk)
  {
    var next := MarkFailed(db, aid);
    forall pid | pid in next.pointers && next.pointers[pid].artifact.Some?
        ensures PointedAt(next, disk, pid, next.pointers[pid].artifact.value) {
      assert PointedAt(db, disk, pid, db.pointers[pid].artifact.value);
      CompletedElsewhere(db, disk, batch, pid, db.pointers[pid].artifact.value);
    }
  }

  lemma MarkedTables(db: Db, aid: ArtifactId)
    requires TablesOk(db)
    ensures TablesOk(MarkFailed(db, aid))
  {
    var next := MarkFailed(db, aid);
    forall key ensures Replay(next.history, key) == StandingOf(next.versions, key) {
      assert Replay(db.history, key) == StandingOf(db.versions, key);
    }
    forall id ensures RowsFor(next.history, id) == if Recorded(next, id) then 1 else 0 {
      assert RowsFor(db.history, id) == if Recorded(db, id) then 1 else 0;
    }
  }

  lemma MarkedGit(w: World, aid: ArtifactId)
    requires GitOk(w)
    ensures GitOk(w.(db := MarkFailed(w.db, aid)))
  {
    var next := MarkFailed(w.db, aid);
    forall t | t in next.transitions && TransitionOpen(next.transitions[t].state)
      ensures t.intent in next.intents && (RefsOld(next, w.refs, t.intent.batch) || StagedStored(next, w.disk, t))
    {
      if StagedStored(w.db, w.disk, t) { assert StagedStored(next, w.disk, t); }
    }
  }

  lemma MarkedSession(w: World, batch: Uuid, aid: ArtifactId, p: Uuid)
    requires TransitionRowsOk(w.db) && batch in w.db.batches && w.db.batches[batch].plugin != p &&
             StagedBy(w.db, batch, aid)
    requires p in w.sessions && SessionOk(w.db, w.refs, w.disk, p, w.sessions[p])
    ensures SessionOk(MarkFailed(w.db, aid), w.refs, w.disk, p, w.sessions[p])
  {
    var next := MarkFailed(w.db, aid);
    if w.sessions[p].phase.Applying? && w.sessions[p].phase.prepared.Some? {
      assert RefsOld(next, w.refs, w.sessions[p].phase.prepared.value);
      assert BatchStored(next, w.disk, w.sessions[p].phase.prepared.value);
    }
  }

  /** Marking a projection of an open batch that no session is working on keeps the invariant. */
  lemma MarkingKeepsInvariant(w: World, batch: Uuid, aid: ArtifactId)
    requires Inv(w) && OpenBatch(w.db, batch) && w.db.batches[batch].plugin !in w.sessions && StagedBy(w.db, batch, aid)
    ensures Inv(w.(db := MarkFailed(w.db, aid)))
  {
    MarkedRows(w.db, aid, w.objects);
    MarkedStaged(w.db, batch, aid);
    MarkedPointers(w.db, w.disk, batch, aid);
    MarkedTables(w.db, aid);
    MarkedGit(w, aid);
    forall p | p in w.sessions ensures SessionOk(MarkFailed(w.db, aid), w.refs, w.disk, p, w.sessions[p]) {
      MarkedSession(w, batch, aid, p);
    }
  }
}
