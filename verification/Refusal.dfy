/** When the settling transaction is undone: exactly when it would have to promote a projection that was
    marked as failed. */
module Refusal {
  import opened Wrappers
  import opened Tables
  import opened Classification
  import opened Receive
  import opened World
  import opened Invariant
  import opened Settlement
  import opened SettlementSafety

  /** A transition that cannot be completed, because what it staged is not staged any more. */
  ghost predicate Unready(db: Db, t: TransitionId) {
    t in db.transitions && db.transitions[t].staged == Some(StagedFor(t)) &&
    (StagedFor(t) in db.artifacts ==> !db.artifacts[StagedFor(t)].state.Staged?)
  }

  ghost predicate StagesOwn(transitions: Transitions) {
    forall t | t in transitions && transitions[t].staged.Some? :: transitions[t].staged.value == StagedFor(t)
  }

  lemma CompletingUnready(db: Db, operation: Operation, id: TransitionId, t: TransitionId, checked: bool)
    requires Unready(db, t) && StagesOwn(db.transitions)
    ensures id == t && operation == Move ==> CompleteTransition(db, operation, id, checked).None?
    ensures id != t && CompleteTransition(db, operation, id, checked).Some? ==>
              var next := CompleteTransition(db, operation, id, checked).value;
              Unready(next, t) && StagesOwn(next.transitions) && next.intents == db.intents
  {
  }

  /** Completing a list of transitions fails on the one that is not ready, and leaves it unready otherwise. */
  lemma {:induction false} SettlingUnready(db: Db, operation: Operation, ids: seq<TransitionId>, t: TransitionId,
          checked: bool)
    requires Unready(db, t) && StagesOwn(db.transitions)
    ensures t in ids && operation == Move ==> SettleTransitions(db, ReceiveCompleted, operation, ids, checked).None?
    ensures t !in ids && SettleTransitions(db, ReceiveCompleted, operation, ids, checked).Some? ==>
              var next := SettleTransitions(db, ReceiveCompleted, operation, ids, checked).value;
              Unready(next, t) && StagesOwn(next.transitions) && next.intents == db.intents
    decreases |ids|
  {
    if ids != [] {
      assert ids == [ids[0]] + ids[1..];
      CompletingUnready(db, operation, ids[0], t, checked);
      var one := CompleteTransition(db, operation, ids[0], checked);
      if one.Some? && ids[0] != t { SettlingUnready(one.value, operation, ids[1..], t, checked); }
    }
  }

  /** The intent of a transition that is not ready. */
  ghost predicate UnreadyMove(db: Db, t: TransitionId) {
    Unready(db, t) && StagesOwn(db.transitions) && t.intent in db.intents &&
    db.intents[t.intent].operation == Move && t.revision in db.intents[t.intent].revisions
  }

  lemma WritingKeepsUnready(db: Db, id: IntentId, intent: Intent, t: TransitionId)
    requires UnreadyMove(db, t) && WriteVersion(db, id, intent).Some?
    ensures UnreadyMove(WriteVersion(db, id, intent).value, t) &&
            WriteVersion(db, id, intent).value.intents == db.intents
  {
  }

  lemma NamedInIds(id: IntentId, revisions: seq<Uuid>, t: TransitionId)
    ensures t in Ids(id, revisions) <==> t.intent == id && t.revision in revisions
  {
    if t.intent == id && t.revision in revisions {
      var i :| 0 <= i < |revisions| && revisions[i] == t.revision;
      assert Ids(id, revisions)[i] == t;
    }
  }

  lemma SettlingUnreadyIntent(db: Db, id: IntentId, t: TransitionId, checked: bool)
    requires UnreadyMove(db, t)
    ensures id == t.intent ==> SettleIntent(db, id, ReceiveCompleted, checked).None?
    ensures id != t.intent && SettleIntent(db, id, ReceiveCompleted, checked).Some? ==>
              UnreadyMove(SettleIntent(db, id, ReceiveCompleted, checked).value, t)
  {
    if id in db.intents && WriteVersion(db, id, db.intents[id]).Some? {
      var written, intent := WriteVersion(db, id, db.intents[id]).value, db.intents[id];
      WritingKeepsUnready(db, id, intent, t);
      NamedInIds(id, intent.revisions, t);
      SettlingUnready(written, intent.operation, Ids(id, intent.revisions), t, checked);
    }
  }

  lemma {:induction false} SettlingUnreadyIntents(db: Db, batch: Uuid, tags: seq<Tag>, t: TransitionId, checked: bool)
    requires UnreadyMove(db, t) && t.intent.batch == batch && t.intent.tag in tags
    ensures SettleIntents(db, batch, tags, ReceiveCompleted, checked).None?
    decreases |tags|
  {
    assert tags == [tags[0]] + tags[1..];
    var id := IntentId(batch, tags[0]);
    SettlingUnreadyIntent(db, id, t, checked);
    if id != t.intent && SettleIntent(db, id, ReceiveCompleted, checked).Some? {
      SettlingUnreadyIntents(SettleIntent(db, id, ReceiveCompleted, checked).value, batch, tags[1..], t, checked);
    }
  }

  /** A projection that was marked as failed makes the transaction fail, in both implementations. */
  lemma SettleBatchFails(db: Db, batch: Uuid, checked: bool)
    requires RowsOk(db) && batch in db.batches && !StillStaged(db, batch)
    ensures SettleBatch(db, batch, ReceiveCompleted, checked).None?
  {
    var t :| t in db.transitions && t.intent.batch == batch && db.transitions[t].staged.Some? &&
             !(db.transitions[t].staged.value in db.artifacts &&
                 db.artifacts[db.transitions[t].staged.value].state.Staged?);
    assert t.intent in db.intents;
    SettlingUnreadyIntents(db, batch, db.batches[batch].tags, t, checked);
  }

  /** An open batch can be aborted always, and completed exactly while nothing it staged was marked as failed. */
  lemma SettlesExactly(w: World, batch: Uuid, verdict: Disposition, checked: bool)
    requires RowsOk(w.db) && IntentsOk(w.db, w.objects) && ProjectionsOk(w.db, w.disk) && OpenBatch(w.db, batch) &&
             verdict != ReceiveManual
    ensures SettleBatch(w.db, batch, verdict, checked).Some? <==>
            (verdict == ReceiveCompleted ==> StillStaged(w.db, batch))
  {
    if verdict == ReceiveCompleted && !StillStaged(w.db, batch) {
      SettleBatchFails(w.db, batch, checked);
    } else {
      var next := SettleBatchSucceeds(w, batch, verdict, checked);
    }
  }
}
