/** Handing a batch over to an operator: its rows are held, and nothing it froze is served. */
module Holding {
  import opened Wrappers
  import opened Tables
  import opened Classification
  import opened Receive
  import opened Lifecycle
  import opened World
  import opened Invariant
  import opened Settlement
  import opened SettlementSafety
  import opened SettlementInvariant

  // ---- Which transitions are read

  lemma {:induction false} BatchIdsCover(db: Db, batch: Uuid, tags: seq<Tag>, t: TransitionId)
    requires TransitionRowsOk(db) && IntentRowsOk(db)
    ensures t in BatchIds(db, batch, tags) <==> t in db.transitions && Covers(batch, tags, t.intent)
    decreases |tags|
  {
    if tags != [] {
      var id := IntentId(batch, tags[0]);
      BatchIdsCover(db, batch, tags[1..], t);
      CoversHead(batch, tags, t.intent);
      if id in db.intents && t in db.transitions { OwnIds(db, id, t); }
    }
  }

  lemma OwnBatchIds(db: Db, batch: Uuid, t: TransitionId)
    requires RowsOk(db) && batch in db.batches
    ensures t in BatchIds(db, batch, db.batches[batch].tags) <==> t in db.transitions && t.intent.batch == batch
  {
    BatchIdsCover(db, batch, db.batches[batch].tags, t);
  }

  lemma {:induction false} UnsettledMembers(db: Db, ids: seq<TransitionId>, t: TransitionId)
    ensures t in Unsettled(db, ids) <==> t in ids && t in db.transitions && !TransitionSettled(db.transitions[t].state)
  {
    if ids != [] {
      UnsettledMembers(db, ids[1..], t);
    }
  }

  // ---- Holding the rows

  ghost predicate Holdable(db: Db, id: TransitionId) {
    id in db.transitions && !TransitionSettled(db.transitions[id].state) && PointerFrozen(db, db.transitions[id])
  }

  ghost predicate TransitionsHeld(before: Transitions, after: Transitions, ids: seq<TransitionId>) {
    after.Keys == before.Keys &&
    forall t | t in before :: after[t] == if t in ids then before[t].(state := TransitionManual) else before[t]
  }

  lemma HoldOne(db: Db, id: TransitionId)
    requires Holdable(db, id)
    ensures HoldTransition(db, id) ==
            db.(transitions := db.transitions[id := db.transitions[id].(state := TransitionManual)])
  {
    var pid := db.transitions[id].pointer;
    assert db.pointers[pid := db.pointers[pid].(available := false)] == db.pointers;
  }

  lemma {:induction false} HoldAll(db: Db, ids: seq<TransitionId>)
    requires forall id | id in ids :: Holdable(db, id)
    ensures HoldTransitions(db, ids) == db.(transitions := HoldTransitions(db, ids).transitions)
    ensures TransitionsHeld(db.transitions, HoldTransitions(db, ids).transitions, ids)
    decreases |ids|
  {
    if ids != [] {
      HoldOne(db, ids[0]);
      var mid := HoldTransition(db, ids[0]);
      assert ids == [ids[0]] + ids[1..];
      forall id | id in ids[1..] ensures Holdable(mid, id) {
        assert Holdable(db, id);
      }
      HoldAll(mid, ids[1..]);
    }
  }

  ghost predicate ArtifactsHeld(before: map<ArtifactId, Artifact>, after: map<ArtifactId, Artifact>, batch: Uuid) {
    after.Keys == before.Keys &&
    forall a | a in before ::
      after[a] == before[a] || (a.StagedFor? && a.transition.intent.batch == batch &&
          after[a] == before[a].(state := Failed))
  }

  ghost predicate HeldEffect(db: Db, next: Db, batch: Uuid) {
    next == db.(batches := next.batches, intents := next.intents, transitions := next.transitions,
        artifacts := next.artifacts) &&
    BatchEffect(db.batches, next.batches, batch, ReceiveManual) &&
        IntentEffect(db.intents, next.intents, batch, ReceiveManual) &&
    TransitionEffect(db.transitions, next.transitions, batch, ReceiveManual) &&
        ArtifactsHeld(db.artifacts, next.artifacts, batch)
  }

  lemma AllHoldable(db: Db, batch: Uuid, t: TransitionId)
    requires RowsOk(db) && FrozenOk(db) && batch in db.batches && IsUnresolved(db.batches[batch].state)
    requires t in db.transitions && t.intent.batch == batch
    ensures Holdable(db, t)
  {
    assert db.intents[t.intent].state == db.batches[batch].state;
    assert TransitionUnresolved(db.transitions[t].state);
  }

  ghost predicate IdsOfBatch(db: Db, batch: Uuid, ids: seq<TransitionId>) {
    forall t :: t in ids <==> t in db.transitions && t.intent.batch == batch
  }

  /** The rows before any transition is held. */
  ghost function RowsHeld(db: Db, batch: Uuid): Db
    requires batch in db.batches
  {
    db.(batches := db.batches[batch := db.batches[batch].(state := Held(db.batches[batch].state))],
        intents := map id | id in db.intents ::
          if id.batch == batch then db.intents[id].(state := Held(db.intents[id].state)) else db.intents[id])
  }

  lemma HeldTransitions(db: Db, batch: Uuid, ids: seq<TransitionId>)
    requires RowsOk(db) && FrozenOk(db) && batch in db.batches && IsUnresolved(db.batches[batch].state) &&
             IdsOfBatch(db, batch, ids)
    ensures var next := MarkManual(db, batch, ids);
            next == RowsHeld(db, batch).(transitions := next.transitions) &&
            TransitionEffect(db.transitions, next.transitions, batch, ReceiveManual)
  {
    var rows := RowsHeld(db, batch);
    forall id | id in ids ensures Holdable(rows, id) {
      AllHoldable(db, batch, id);
    }
    HoldAll(rows, ids);
  }

  lemma MarkOpenManual(db: Db, batch: Uuid, ids: seq<TransitionId>)
    requires RowsOk(db) && FrozenOk(db) && OpenBatch(db, batch) && IdsOfBatch(db, batch, ids)
    ensures HeldEffect(db, MarkManual(db, batch, ids), batch) && MarkManual(db, batch, ids).artifacts == db.artifacts
  {
    HeldTransitions(db, batch, ids);
    assert forall id | id in db.intents && id.batch == batch :: Held(db.intents[id].state) == ManualRequired;
  }

  lemma ClosedRowsHeld(db: Db, batch: Uuid)
    requires IntentRowsOk(db) && batch in db.batches && !IsOpen(db.batches[batch].state)
    ensures RowsHeld(db, batch) == db
  {
    assert RowsHeld(db, batch).intents == db.intents;
  }

  /** What the recovery package still finds to hold. */
  lemma UnsettledOfBatch(db: Db, batch: Uuid, t: TransitionId)
    requires RowsOk(db) && batch in db.batches
    ensures t in Unsettled(db, BatchIds(db, batch, db.batches[batch].tags))
            <==> t in db.transitions && t.intent.batch == batch && IsUnresolved(db.batches[batch].state)
  {
    OwnBatchIds(db, batch, t);
    UnsettledMembers(db, BatchIds(db, batch, db.batches[batch].tags), t);
    if t in db.transitions && t.intent.batch == batch {
      assert StatesAgree(db.intents[t.intent].state, db.transitions[t].state);
    }
  }

  lemma EmptyOrInhabited<T>(s: seq<T>)
    ensures s == [] || exists x :: x in s
  {
    if s != [] {
      assert s[0] in s;
    }
  }

  /** Marking a batch that is no longer open, as a late reconciliation may, changes nothing. */
  lemma MarkClosedNothing(db: Db, batch: Uuid)
    requires RowsOk(db) && FrozenOk(db) && batch in db.batches && !IsOpen(db.batches[batch].state)
    ensures MarkUnsettled(db, batch, BatchIds(db, batch, db.batches[batch].tags)) == db
  {
    var unsettled := Unsettled(db, BatchIds(db, batch, db.batches[batch].tags));
    ClosedRowsHeld(db, batch);
    forall t { UnsettledOfBatch(db, batch, t); }
    if IsUnresolved(db.batches[batch].state) {
      ManualStaysManual(db, batch, unsettled);
    } else {
      EmptyOrInhabited(unsettled);
    }
  }

  lemma ManualStaysManual(db: Db, batch: Uuid, ids: seq<TransitionId>)
    requires RowsOk(db) && FrozenOk(db) && batch in db.batches && db.batches[batch].state.ManualRequired? &&
             IdsOfBatch(db, batch, ids)
    ensures MarkManual(db, batch, ids) == db
  {
    ClosedRowsHeld(db, batch);
    HeldTransitions(db, batch, ids);
    assert forall t | t in db.transitions && t.intent.batch == batch ::
           StatesAgree(db.intents[t.intent].state, db.transitions[t].state);
    assert MarkManual(db, batch, ids).transitions == db.transitions;
  }

  // ---- The invariant

  lemma HeldIntents(db: Db, next: Db, objects: Objects, batch: Uuid)
    requires IntentRowsOk(db) && IntentsOk(db, objects) && OpenBatch(db, batch) && HeldEffect(db, next, batch)
    ensures IntentsOk(next, objects)
  {
    SettledFacts(db, next, objects, batch, ReceiveManual);
    forall id | id in next.intents && IsUnresolved(next.intents[id].state)
      ensures IsUnresolved(db.intents[id].state) && VersionExpected(next, next.intents[id]) &&
              next.intents[id].revisions == db.intents[id].revisions
    {
      assert VersionExpected(db, db.intents[id]);
    }
  }

  lemma HeldUnresolved(db: Db, next: Db, batch: Uuid, t: TransitionId)
    requires RowsOk(db) && FrozenOk(db) && OpenBatch(db, batch) &&
             TransitionEffect(db.transitions, next.transitions, batch, ReceiveManual)
    requires t in next.transitions && TransitionUnresolved(next.transitions[t].state)
    ensures t in db.transitions && TransitionUnresolved(db.transitions[t].state)
    ensures next.transitions[t] == if t.intent.batch == batch then db.transitions[t].(state := TransitionManual)
            else db.transitions[t]
  {
    if t.intent.batch == batch { AllHoldable(db, batch, t); }
  }

  lemma HeldFrozen(db: Db, next: Db, batch: Uuid)
    requires RowsOk(db) && FrozenOk(db) && OpenBatch(db, batch) && HeldEffect(db, next, batch)
    ensures FrozenOk(next)
  {
    forall t | t in next.transitions && TransitionUnresolved(next.transitions[t].state)
        ensures PointerFrozen(next, next.transitions[t]) {
      HeldUnresolved(db, next, batch, t);
      assert PointerFrozen(db, db.transitions[t]);
    }
  }

  lemma HeldStagedRow(db: Db, next: Db, batch: Uuid, t: TransitionId)
    requires TransitionRowsOk(db) && HeldEffect(db, next, batch)
    requires t in db.transitions && t.intent in db.intents && StagedRowOk(db, t)
    ensures StagedRowOk(next, t)
  {
    assert next.intents[t.intent].key == db.intents[t.intent].key;
  }

  lemma HeldStaged(db: Db, next: Db, batch: Uuid)
    requires RowsOk(db) && FrozenOk(db) && StagedOk(db) && OpenBatch(db, batch) && HeldEffect(db, next, batch)
    ensures StagedOk(next)
  {
    forall t | t in next.transitions && TransitionUnresolved(next.transitions[t].state) &&
        next.transitions[t].staged.Some?
      ensures t.intent in next.intents && StagedRowOk(next, t)
    {
      HeldUnresolved(db, next, batch, t);
      HeldStagedRow(db, next, batch, t);
    }
  }

  lemma HeldArtifacts(db: Db, next: Db, batch: Uuid)
    requires ArtifactsOk(db) && HeldEffect(db, next, batch)
    ensures ArtifactsOk(next)
  {
    assert forall a | a in next.artifacts :: next.artifacts[a].storage == db.artifacts[a].storage;
  }

  lemma HeldPointer(db: Db, next: Db, disk: map<StorageKey, Projection>, batch: Uuid, pid: PointerId, aid: ArtifactId)
    requires IntentRowsOk(db) && TransitionRowsOk(db) && OpenBatch(db, batch) && HeldEffect(db, next, batch)
    requires PointedAt(db, disk, pid, aid)
    ensures PointedAt(next, disk, pid, aid)
  {
    CompletedElsewhere(db, disk, batch, pid, aid);
  }

  lemma HeldProjections(db: Db, next: Db, disk: map<StorageKey, Projection>, batch: Uuid)
    requires RowsOk(db) && ProjectionsOk(db, disk) && OpenBatch(db, batch) && HeldEffect(db, next, batch)
    ensures ProjectionsOk(next, disk)
  {
    HeldFrozen(db, next, batch);
    HeldStaged(db, next, batch);
    HeldArtifacts(db, next, batch);
    forall pid | pid in next.pointers && next.pointers[pid].artifact.Some?
        ensures PointedAt(next, disk, pid, next.pointers[pid].artifact.value) {
      HeldPointer(db, next, disk, batch, pid, db.pointers[pid].artifact.value);
    }
  }

  lemma HeldTables(db: Db, next: Db, batch: Uuid)
    requires IntentRowsOk(db) && TablesOk(db) && OpenBatch(db, batch) && HeldEffect(db, next, batch)
    ensures TablesOk(next)
  {
    forall key ensures Replay(next.history, key) == StandingOf(next.versions, key) {
      assert Replay(db.history, key) == StandingOf(db.versions, key);
    }
    forall id ensures RowsFor(next.history, id) == if Recorded(next, id) then 1 else 0 {
      assert RowsFor(db.history, id) == if Recorded(db, id) then 1 else 0;
    }
  }

  lemma HeldBlocked(db: Db, next: Db, batch: Uuid, key: TagKey)
    requires IntentRowsOk(db) && OpenBatch(db, batch) && HeldEffect(db, next, batch) && Blocked(db, key)
    ensures Blocked(next, key)
  {
    var id :| id in db.intents && db.intents[id].key == key && IsUnresolved(db.intents[id].state);
    assert next.intents[id].key == key && IsUnresolved(next.intents[id].state);
  }

  lemma HeldGit(w: World, next: Db, batch: Uuid)
    requires RowsOk(w.db) && GitOk(w) && OpenBatch(w.db, batch) && HeldEffect(w.db, next, batch)
    ensures GitOk(w.(db := next))
  {
    forall key | key in next.versions && next.versions[key].status == Available && !Blocked(next, key)
      ensures RefIs(w.refs, key, next.versions[key].raw)
    {
      if Blocked(w.db, key) { HeldBlocked(w.db, next, batch, key); }
    }
    SettledBatchRefs(w.db, next, w.refs, batch, ReceiveManual);
    SettledStorageOk(w.db, next, w.refs, w.disk, batch, ReceiveManual);
  }

  lemma HoldingKeepsInvariant(w: World, next: Db, batch: Uuid)
    requires Inv(w) && OpenBatch(w.db, batch) && w.db.batches[batch].plugin !in w.sessions &&
             HeldEffect(w.db, next, batch)
    ensures Inv(w.(db := next))
  {
    SettledBatchRows(w.db, next, batch, ReceiveManual);
    SettledIntentRows(w.db, next, batch, ReceiveManual);
    SettledTransitionRows(w.db, next, batch, ReceiveManual);
    HeldIntents(w.db, next, w.objects, batch);
    HeldProjections(w.db, next, w.disk, batch);
    HeldTables(w.db, next, batch);
    HeldGit(w, next, batch);
    SettledSessions(w, next, batch, ReceiveManual);
  }
}
