/** The recovery package: a second implementation of resolving a batch, written against the tables alone,
    and the collector that looks for references before it removes a projection. */
module Recovery {
  import opened Wrappers
  import opened Tables
  import opened Classification
  import opened Receive
  import opened World
  import opened Database

  /** The refs the package reads for a batch. */
  function ReadFor(db: Db, refs: map<TagKey, ObjectId>, batch: Uuid): seq<ObservedRef> {
    if batch in db.batches then ReadRefs(refs, db.batches[batch].plugin, db.batches[batch].tags) else []
  }

  /** What one pass over the listed batches leaves behind, how many it got through, and whether it got to the end. */
  function ReconcileAll(db: Db, disk: map<StorageKey, Projection>, refs: map<TagKey, ObjectId>, listed: seq<Uuid>):
          (Db, nat, bool)
    decreases |listed|, 2
  {
    if listed == [] then (db, 0, true) else ReconcileFirst(db, disk, refs, listed)
  }

  /** Reads the refs of the first of the listed batches. */
  function ReconcileFirst(db: Db, disk: map<StorageKey, Projection>, refs: map<TagKey, ObjectId>, listed: seq<Uuid>):
          (Db, nat, bool)
    requires listed != []
    decreases |listed|, 1
  {
    ReconcileRead(db, disk, refs, listed, ReadFor(db, refs, listed[0]))
  }

  /** Decides the first of the listed batches by the refs that were read, and goes on unless that failed. */
  function ReconcileRead(db: Db, disk: map<StorageKey, Projection>, refs: map<TagKey, ObjectId>, listed: seq<Uuid>,
          observed: seq<ObservedRef>): (Db, nat, bool)
    requires listed != []
    decreases |listed|, 0
  {
    var (next, status) := ReconcileBatch(db, disk, listed[0], observed);
    if status == ReconcileFailed then (next, 0, false) else Later(1, ReconcileAll(next, disk, refs, listed[1..]))
  }

  /** A pass that had got through some batches before. */
  function Later(processed: nat, pass: (Db, nat, bool)): (Db, nat, bool) { (pass.0, processed + pass.1, pass.2) }

  lemma PassNext(db: Db, disk: map<StorageKey, Projection>, refs: map<TagKey, ObjectId>, listed: seq<Uuid>, next: Db,
          status: ReconcileStatus)
    requires listed != [] && (next, status) == ReconcileBatch(db, disk, listed[0], ReadFor(db, refs, listed[0]))
    ensures ReconcileAll(db, disk, refs, listed) ==
            if status == ReconcileFailed then (next, 0, false)
            else Later(1, ReconcileAll(next, disk, refs, listed[1..]))
  {
    assert ReconcileAll(db, disk, refs, listed) == ReconcileFirst(db, disk, refs, listed);
    assert ReconcileFirst(db, disk, refs, listed) == ReconcileRead(db, disk, refs, listed,
           ReadFor(db, refs, listed[0]));
  }

  class Reconciler {
    const store: Store
    var refs: map<TagKey, ObjectId>

    constructor (store: Store, refs: map<TagKey, ObjectId>)
      ensures this.store == store && this.refs == refs
    {
      this.store, this.refs := store, refs;
    }

    // ---- Receives

    method CompleteTransition(operation: Operation, id: TransitionId) returns (ok: bool)
      modifies store
      ensures store.disk == old(store.disk)
      ensures Receive.CompleteTransition(old(store.Rows()), operation, id, false) == if ok then Some(store.Rows())
              else None
    {
      if id !in store.transitions {
        return false;
      }
      var transition := store.transitions[id];
      var artifact: Option<ArtifactId>, available := None, false;
      if operation == Move && transition.staged.Some? {
        artifact, available := transition.staged, true;
        var marked := MarkReady(store.artifacts, transition.staged.value);
        if marked.None? {
          return false;
        }
        store.artifacts := marked.value;
      } else if operation != Delete {
        return false;
      }
      if !PointerFrozen(store.Rows(), transition) {
        return false;
      }
      store.pointers := store.pointers[transition.pointer := Pointer(artifact, transition.generation + 1, available)];
      if transition.current.Some? && transition.current.value !in store.gc {
        store.gc := store.gc[transition.current.value := GcPending];
      }
      store.transitions := store.transitions[id := transition.(state := TransitionCompleted)];
      ok := true;
    }

    method AbortTransition(id: TransitionId) returns (ok: bool)
      modifies store
      ensures store.disk == old(store.disk)
      ensures Receive.AbortTransition(old(store.Rows()), id, false) == if ok then Some(store.Rows()) else None
    {
      if id !in store.transitions {
        return false;
      }
      var transition := store.transitions[id];
      if !PointerFrozen(store.Rows(), transition) {
        return false;
      }
      store.pointers := store.pointers[transition.pointer := store.pointers[transition.pointer].(available := true)];
      if transition.staged.Some? && transition.staged.value !in store.gc {
        store.gc := store.gc[transition.staged.value := GcPending];
      }
      store.transitions := store.transitions[id := transition.(state := TransitionAborted)];
      ok := true;
    }

    method WriteVersion(id: IntentId, intent: Intent) returns (ok: bool)
      modifies store
      ensures store.disk == old(store.disk)
      ensures Receive.WriteVersion(old(store.Rows()), id, intent) == if ok then Some(store.Rows()) else None
    {
      match intent.operation {
        case Move =>
          if intent.newObject.None? || intent.newCommit.None? || intent.manifest.None? ||
              |intent.manifest.value.snapshot| == 0
             || !VersionExpected(store.Rows(), intent) {
            return false;
          }
          store.versions := store.versions[intent.key := Version(Available, intent.newObject, intent.newCommit,
              intent.manifest)];
        case Delete =>
          if !VersionExpected(store.Rows(), intent) {
            return false;
          }
          store.versions := store.versions[intent.key := Version(Deleted, None, None, None)];
          if intent.key.plugin in store.plugins && store.plugins[intent.key.plugin].defaultTag == Some(intent.key.tag) {
            store.plugins := store.plugins[intent.key.plugin := store.plugins[intent.key.plugin].(defaultTag := None)];
          }
      }
      store.history := store.history + [HistoryAfter(id, intent)];
      ok := true;
    }

    method ApplyIntent(id: IntentId, verdict: Disposition) returns (ok: bool)
      modifies store
      ensures store.disk == old(store.disk)
      ensures SettleIntent(old(store.Rows()), id, verdict, false) == if ok then Some(store.Rows()) else None
    {
      if id !in store.intents {
        return false;
      }
      var intent := store.intents[id];
      if verdict == ReceiveCompleted {
        ok := WriteVersion(id, intent);
        if !ok {
          return false;
        }
      }
      ghost var written := store.Rows();
      var ids := Ids(id, intent.revisions);
      for n := 0 to |ids|
        invariant store.disk == old(store.disk)
        invariant SettleTransitions(written, verdict, intent.operation, ids, false) ==
                  SettleTransitions(store.Rows(), verdict, intent.operation, ids[n..], false)
      {
        assert ids[n..][1..] == ids[n + 1..];
        if verdict == ReceiveCompleted {
          ok := CompleteTransition(intent.operation, ids[n]);
        } else {
          ok := AbortTransition(ids[n]);
        }
        if !ok {
          return false;
        }
      }
      if id !in store.intents || !IsOpen(store.intents[id].state) {
        return false;
      }
      store.intents := store.intents[id := store.intents[id].(state := FinalState(verdict))];
      ok := true;
    }

    /** The settling transaction: nothing to do when the batch is decided already, and on any mismatch
        everything it wrote is undone. */
    method ApplyReceive(batch: Uuid, verdict: Disposition) returns (ok: bool)
      requires batch in store.batches && verdict != ReceiveManual
      modifies store
      ensures store.disk == old(store.disk)
      ensures var before := old(store.Rows());
              if before.batches[batch].state.Completed? || before.batches[batch].state.Aborted? then ok &&
                  store.Rows() == before
              else if SettleBatch(before, batch, verdict, false).Some? then ok &&
                  store.Rows() == SettleBatch(before, batch, verdict, false).value
              else !ok && store.Rows() == before
    {
      var before := store.Rows();
      if store.batches[batch].state.Completed? || store.batches[batch].state.Aborted? {
        return true;
      }
      var tags := store.batches[batch].tags;
      for n := 0 to |tags|
        invariant store.disk == old(store.disk)
        invariant SettleIntents(before, batch, tags, verdict, false) == SettleIntents(store.Rows(), batch, tags[n..],
                  verdict, false)
      {
        assert tags[n..][1..] == tags[n + 1..];
        ok := ApplyIntent(IntentId(batch, tags[n]), verdict);
        if !ok {
          store.Rollback(before);
          return false;
        }
      }
      if batch !in store.batches || !IsOpen(store.batches[batch].state) {
        store.Rollback(before);
        return false;
      }
      store.batches := store.batches[batch := store.batches[batch].(state := FinalState(verdict))];
      ok := true;
    }

    method HoldTransition(id: TransitionId)
      modifies store`pointers, store`transitions
      ensures store.Rows() == Receive.HoldTransition(old(store.Rows()), id)
    {
      if id in store.transitions {
        var transition := store.transitions[id];
        if transition.pointer in store.pointers {
          var pointer := store.pointers[transition.pointer];
          store.pointers := store.pointers[transition.pointer := pointer.(available := false)];
        }
        if !TransitionSettled(transition.state) {
          store.transitions := store.transitions[id := transition.(state := TransitionManual)];
        }
      }
    }

    method HoldTransitions(ids: seq<TransitionId>)
      modifies store`pointers, store`transitions
      ensures store.Rows() == Receive.HoldTransitions(old(store.Rows()), ids)
    {
      for n := 0 to |ids|
        invariant Receive.HoldTransitions(old(store.Rows()), ids) == Receive.HoldTransitions(store.Rows(), ids[n..])
      {
        assert ids[n..][1..] == ids[n + 1..];
        HoldTransition(ids[n]);
      }
    }

    /** Holds a batch for an operator, together with the transitions that are not settled yet. */
    method ManualBatch(batch: Uuid, ids: seq<TransitionId>)
      modifies store
      ensures store.disk == old(store.disk)
      ensures store.Rows() == MarkUnsettled(old(store.Rows()), batch, ids)
    {
      var unsettled := Unsettled(store.Rows(), ids);
      if batch in store.batches {
        store.batches := store.batches[batch := store.batches[batch].(state := Held(store.batches[batch].state))];
      }
      store.intents := map id | id in store.intents ::
        if id.batch == batch then store.intents[id].(state := Held(store.intents[id].state)) else store.intents[id];
      HoldTransitions(unsettled);
    }

    method VerifyProjections(ids: seq<TransitionId>) returns (ok: bool)
      ensures ok <==> StagedSound(store.Rows(), store.disk, ids)
    {
      for n := 0 to |ids|
        invariant StagedSound(store.Rows(), store.disk, ids[..n])
      {
        assert ids[..n + 1] == ids[..n] + [ids[n]];
        if ids[n] in store.transitions && store.transitions[ids[n]].staged.Some? {
          var aid := store.transitions[ids[n]].staged.value;
          if aid !in store.artifacts || !store.artifacts[aid].state.Staged? ||
              !Stored(store.disk, store.artifacts[aid]) {
            assert ids[n] in ids;
            return false;
          }
        }
      }
      assert ids[..|ids|] == ids;
      ok := true;
    }

    method ReadIntentRefs(plugin: Uuid, tags: seq<Tag>) returns (observed: seq<ObservedRef>)
      ensures observed == ReadRefs(refs, plugin, tags)
    {
      observed := [];
      for n := 0 to |tags|
        invariant observed == ReadRefs(refs, plugin, tags)[..n]
      {
        observed := observed + [ReadRef(refs, plugin, tags[n])];
      }
    }

    /** Decides one batch from its rows and from the refs it reads itself. */
    method ReconcileOne(batch: Uuid) returns (status: ReconcileStatus)
      modifies store
      ensures store.disk == old(store.disk)
      ensures (store.Rows(), status) ==
              ReconcileBatch(old(store.Rows()), old(store.disk), batch, ReadFor(old(store.Rows()), refs, batch))
    {
      if batch !in store.batches {
        return ReconcileFailed;
      }
      var row := store.batches[batch];
      var ids := BatchIds(store.Rows(), batch, row.tags);
      if row.plugin !in store.population.repositories {
        ManualBatch(batch, ids);
        return Reconciled;
      }
      var intents := IntentRefsOf(store.Rows(), batch, row.tags);
      if |intents| == 0 {
        ManualBatch(batch, ids);
        return Reconciled;
      }
      var observed := ReadIntentRefs(row.plugin, row.tags);
      var verdict := ClassifyIntents(intents, observed);
      if verdict == ReceiveManual {
        ManualBatch(batch, ids);
        return Reconciled;
      }
      if verdict == ReceiveCompleted {
        var intact := VerifyProjections(ids);
        if !intact {
          ManualBatch(batch, ids);
          return Reconciled;
        }
      }
      var ok := ApplyReceive(batch, verdict);
      status := if ok then Reconciled else ReconcileFailed;
    }

    /** Decides the first of the batches still to come. */
    method ReconcileNext(listed: seq<Uuid>) returns (failed: bool)
      requires listed != []
      modifies store
      ensures store.disk == old(store.disk)
      ensures ReconcileAll(old(store.Rows()), store.disk, refs, listed) ==
              if failed then (store.Rows(), 0, false)
              else Later(1, ReconcileAll(store.Rows(), store.disk, refs, listed[1..]))
    {
      var status := ReconcileOne(listed[0]);
      PassNext(old(store.Rows()), store.disk, refs, listed, store.Rows(), status);
      failed := status == ReconcileFailed;
    }

    /** One pass over the batches that were listed as open, stopping at the first that fails. */
    method ReconcileReceives(listed: seq<Uuid>) returns (processed: nat, ok: bool)
      modifies store
      ensures store.disk == old(store.disk)
      ensures (store.Rows(), processed, ok) == ReconcileAll(old(store.Rows()), old(store.disk), refs, listed)
    {
      processed := 0;
      for n := 0 to |listed|
        invariant processed == n && store.disk == old(store.disk)
        invariant ReconcileAll(old(store.Rows()), store.disk, refs, listed) == Later(n,
                  ReconcileAll(store.Rows(), store.disk, refs, listed[n..]))
      {
        assert listed[n..][1..] == listed[n + 1..];
        var failed := ReconcileNext(listed[n..]);
        if failed {
          return processed, false;
        }
        processed := processed + 1;
      }
      ok := true;
    }

    // ---- Collection

    /** Works on one job as it was listed: claims it, looks for references, removes the projection. */
    method CollectOne(artifact: ArtifactId, listed: GcState, removes: bool)
      requires artifact in store.gc
      modifies store`gc, store`disk
      ensures artifact in store.artifacts && old(store.gc)[artifact] != listed ==>
              store.gc == old(store.gc) && store.disk == old(store.disk)
      ensures artifact !in store.artifacts || old(store.gc)[artifact] == listed ==>
              if artifact in store.artifacts && removes &&
                 forall pid | pid in store.pointers :: store.pointers[pid].artifact != Some(artifact)
              then
                store.gc == old(store.gc)[artifact := GcCompleted] &&
                store.disk == old(store.disk) - {store.artifacts[artifact].storage}
              else store.gc == old(store.gc)[artifact := GcManual] && store.disk == old(store.disk)
    {
      if artifact !in store.artifacts {
        store.gc := store.gc[artifact := GcManual];
        return;
      }
      if store.gc[artifact] != listed {
        assert store.gc == store.gc[artifact := store.gc[artifact]];
        return;
      }
      store.gc := store.gc[artifact := GcRunning];
      if exists pid | pid in store.pointers :: store.pointers[pid].artifact == Some(artifact) {
        store.gc := store.gc[artifact := GcManual];
        assert exists pid | pid in store.pointers :: store.pointers[pid].artifact == Some(artifact);
        return;
      }
      if !removes {
        store.gc := store.gc[artifact := GcManual];
        return;
      }
      store.disk := store.disk - {store.artifacts[artifact].storage};
      store.gc := store.gc[artifact := GcCompleted];
    }
  }
}
