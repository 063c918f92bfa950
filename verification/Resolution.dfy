/** Resolving a batch: what the refs say about it, what each implementation then does, and that
    the two implementations do the same. */
module Resolution {
  import opened Wrappers
  import opened Tables
  import opened Classification
  import opened Receive
  import opened Lifecycle
  import opened World
  import opened Invariant
  import opened Settlement
  import opened SettlementSafety
  import opened SettlementInvariant
  import opened Holding
  import opened Marking

  // ---- What the refs say

  lemma {:induction false} IntentRefsAt(db: Db, batch: Uuid, tags: seq<Tag>, n: nat)
    requires forall tag | tag in tags :: IntentId(batch, tag) in db.intents
    ensures |IntentRefsOf(db, batch, tags)| == |tags|
    ensures n < |tags| ==>
      IntentRefsOf(db, batch, tags)[n] ==
        IntentRefs(tags[n], db.intents[IntentId(batch, tags[n])].oldObject,
            db.intents[IntentId(batch, tags[n])].newObject)
    decreases |tags|
  {
    if tags != [] {
      assert tags[0] in tags;
      IntentRefsAt(db, batch, tags[1..], if n == 0 then 0 else n - 1);
    }
  }

  /** The report a resolver reads for a batch, and the rows it compares the report with. */
  ghost function Observed(w: World, batch: Uuid): seq<ObservedRef>
    requires batch in w.db.batches
  {
    ReadRefs(w.refs, w.db.batches[batch].plugin, w.db.batches[batch].tags)
  }

  ghost function PreparedOf(db: Db, batch: Uuid): seq<PreparedTransition>
    requires batch in db.batches
  {
    PrepareAll(IntentRefsOf(db, batch, db.batches[batch].tags))
  }

  lemma PreparedAt(db: Db, objects: Objects, batch: Uuid, n: nat)
    requires BatchRowsOk(db) && IntentFactsOk(db, objects) && batch in db.batches
    ensures |PreparedOf(db, batch)| == |db.batches[batch].tags|
    ensures n < |db.batches[batch].tags| ==>
      var tag := db.batches[batch].tags[n];
      IntentId(batch, tag) in db.intents &&
      var intent := db.intents[IntentId(batch, tag)];
      PreparedOf(db, batch)[n] ==
        PreparedTransition(TagRef(tag), intent.oldObject, if intent.newObject.Some? then intent.newObject.value
            else Zero)
  {
    IntentRefsAt(db, batch, db.batches[batch].tags, n);
    if n < |db.batches[batch].tags| {
      var id := IntentId(batch, db.batches[batch].tags[n]);
      assert id.tag in db.batches[batch].tags;
      assert IntentFacts(db.intents[id], objects);
    }
  }

  /** No identifier of a batch is empty, so all classifiers read it alike. */
  lemma StrictlyPrepared(db: Db, objects: Objects, batch: Uuid)
    requires BatchRowsOk(db) && IntentFactsOk(db, objects) && batch in db.batches
    ensures LenientAll(PreparedOf(db, batch)) == PreparedOf(db, batch)
  {
    var intents := IntentRefsOf(db, batch, db.batches[batch].tags);
    forall n | 0 <= n < |db.batches[batch].tags|
        ensures n < |intents| && intents[n].expectedOld != Empty && intents[n].proposedNew != Some(Empty) {
      IntentRefsAt(db, batch, db.batches[batch].tags, n);
      var id := IntentId(batch, db.batches[batch].tags[n]);
      assert id.tag in db.batches[batch].tags && IntentFacts(db.intents[id], objects);
    }
    IntentRefsAt(db, batch, db.batches[batch].tags, 0);
    PresentIsStrict(intents);
  }

  lemma TagShown(w: World, batch: Uuid, n: nat)
    requires BatchRowsOk(w.db) && IntentRowsOk(w.db) && IntentFactsOk(w.db, w.objects) && batch in w.db.batches
    requires n < |w.db.batches[batch].tags| == |PreparedOf(w.db, batch)|
    ensures var id := IntentId(batch, w.db.batches[batch].tags[n]);
            id in w.db.intents &&
            (ShowsOld(PreparedOf(w.db, batch)[n], Observed(w, batch)) <==>
                RefIs(w.refs, w.db.intents[id].key, Some(w.db.intents[id].oldObject))) &&
            (ShowsNew(PreparedOf(w.db, batch)[n], Observed(w, batch)) <==>
                RefIs(w.refs, w.db.intents[id].key, w.db.intents[id].newObject))
  {
    PreparedAt(w.db, w.objects, batch, n);
    var id := IntentId(batch, w.db.batches[batch].tags[n]);
    assert IntentFacts(w.db.intents[id], w.objects);
    var observed := Observed(w, batch);
    assert observed[n] in observed;
    assert forall ref | ref in observed && ref.refName == TagRef(id.tag) :: ref == observed[n];
  }

  lemma IndexOfTag(tags: seq<Tag>, tag: Tag) returns (n: nat)
    requires tag in tags
    ensures n < |tags| && tags[n] == tag
  {
    n :| n < |tags| && tags[n] == tag;
  }

  lemma ShownOld(w: World, batch: Uuid)
    requires BatchRowsOk(w.db) && IntentRowsOk(w.db) && IntentFactsOk(w.db, w.objects) && batch in w.db.batches
    ensures AllOld(PreparedOf(w.db, batch), Observed(w, batch)) <==> RefsOld(w.db, w.refs, batch)
  {
    var prepared, observed := PreparedOf(w.db, batch), Observed(w, batch);
    PreparedAt(w.db, w.objects, batch, 0);
    if AllOld(prepared, observed) {
      forall id | id in w.db.intents && id.batch == batch
          ensures RefIs(w.refs, w.db.intents[id].key, Some(w.db.intents[id].oldObject)) {
        var n := IndexOfTag(w.db.batches[batch].tags, id.tag);
        assert ShowsOld(prepared[n], observed);
        TagShown(w, batch, n);
      }
    }
    if RefsOld(w.db, w.refs, batch) {
      forall transition | transition in prepared ensures ShowsOld(transition, observed) {
        var n :| 0 <= n < |prepared| && prepared[n] == transition;
        TagShown(w, batch, n);
      }
    }
  }

  lemma ShownNew(w: World, batch: Uuid)
    requires BatchRowsOk(w.db) && IntentRowsOk(w.db) && IntentFactsOk(w.db, w.objects) && batch in w.db.batches
    ensures AllNew(PreparedOf(w.db, batch), Observed(w, batch)) <==> RefsNew(w.db, w.refs, batch)
  {
    var prepared, observed := PreparedOf(w.db, batch), Observed(w, batch);
    PreparedAt(w.db, w.objects, batch, 0);
    if AllNew(prepared, observed) {
      forall id | id in w.db.intents && id.batch == batch
          ensures RefIs(w.refs, w.db.intents[id].key, w.db.intents[id].newObject) {
        var n := IndexOfTag(w.db.batches[batch].tags, id.tag);
        assert ShowsNew(prepared[n], observed);
        TagShown(w, batch, n);
      }
    }
    if RefsNew(w.db, w.refs, batch) {
      forall transition | transition in prepared ensures ShowsNew(transition, observed) {
        var n :| 0 <= n < |prepared| && prepared[n] == transition;
        TagShown(w, batch, n);
      }
    }
  }

  /** The classifiers read Git's answer exactly: applied, untouched, or neither. */
  lemma MeaningOfRefs(w: World, batch: Uuid)
    requires BatchRowsOk(w.db) && IntentRowsOk(w.db) && IntentFactsOk(w.db, w.objects) && batch in w.db.batches
    ensures Meaning(PreparedOf(w.db, batch), Observed(w, batch)) ==
            if RefsNew(w.db, w.refs, batch) then ReceiveCompleted
            else if RefsOld(w.db, w.refs, batch) then ReceiveAborted else ReceiveManual
  {
    PreparedAt(w.db, w.objects, batch, 0);
    ShownOld(w, batch);
    ShownNew(w, batch);
  }

  ghost function VerdictOf(w: World, batch: Uuid): Disposition {
    if RefsNew(w.db, w.refs, batch) then ReceiveCompleted else ReceiveAborted
  }

  lemma OpenVerdict(w: World, batch: Uuid)
    requires Inv(w) && OpenBatch(w.db, batch)
    ensures Meaning(PreparedOf(w.db, batch), Observed(w, batch)) == VerdictOf(w, batch)
    ensures VerdictFits(w.db, w.refs, batch, VerdictOf(w, batch))
  {
    MeaningOfRefs(w, batch);
  }

  // ---- What verification finds

  ghost predicate StagedIntact(db: Db, disk: map<StorageKey, Projection>, batch: Uuid) {
    forall t | t in db.transitions && t.intent.batch == batch && db.transitions[t].staged.Some? ::
      db.transitions[t].staged.value in db.artifacts &&
      var artifact := db.artifacts[db.transitions[t].staged.value];
      artifact.storage in disk && disk[artifact.storage].digest == artifact.digest
  }

  /** What a batch needs to be completed: its projections are intact, and none of them was marked as failed. */
  ghost predicate Completable(db: Db, disk: map<StorageKey, Projection>, batch: Uuid) {
    StagedIntact(db, disk, batch) && StillStaged(db, batch)
  }

  lemma StagedPresent(w: World, batch: Uuid, t: TransitionId)
    requires RowsOk(w.db) && ProjectionsOk(w.db, w.disk) && OpenBatch(w.db, batch)
    requires t in w.db.transitions && t.intent.batch == batch && w.db.transitions[t].staged.Some?
    ensures w.db.transitions[t].staged == Some(StagedFor(t)) && StagedFor(t) in w.db.artifacts &&
            !w.db.artifacts[StagedFor(t)].state.Ready?
  {
    assert TransitionOpen(w.db.transitions[t].state);
    assert StagedRowOk(w.db, t);
  }

  lemma RecoveryVerifies(w: World, batch: Uuid)
    requires RowsOk(w.db) && ProjectionsOk(w.db, w.disk) && OpenBatch(w.db, batch)
    ensures StagedSound(w.db, w.disk, BatchIds(w.db, batch, w.db.batches[batch].tags)) <==>
            Completable(w.db, w.disk, batch)
  {
    var ids := BatchIds(w.db, batch, w.db.batches[batch].tags);
    forall t { OwnBatchIds(w.db, batch, t); }
    forall t | t in w.db.transitions && t.intent.batch == batch && w.db.transitions[t].staged.Some?
      ensures w.db.transitions[t].staged == Some(StagedFor(t)) && StagedFor(t) in w.db.artifacts
    {
      StagedPresent(w, batch, t);
    }
  }

  /** The coordinator stops at the first projection that is not intact. */
  lemma {:induction false} CoordinatorVerifies(db: Db, disk: map<StorageKey, Projection>, ids: seq<TransitionId>)
    requires forall id | id in ids && id in db.transitions && db.transitions[id].staged.Some? ::
             db.transitions[id].staged.value in db.artifacts
    ensures VerifyStaged(db, disk, ids).Sound? <==>
            forall id | id in ids && id in db.transitions && db.transitions[id].staged.Some? ::
                Stored(disk, db.artifacts[db.transitions[id].staged.value])
    ensures !VerifyStaged(db, disk, ids).Missing?
    ensures VerifyStaged(db, disk, ids).Damaged? ==>
            exists id | id in ids :: id in db.transitions &&
                db.transitions[id].staged == Some(VerifyStaged(db, disk, ids).artifact)
  {
    if ids != [] {
      assert ids == [ids[0]] + ids[1..];
      CoordinatorVerifies(db, disk, ids[1..]);
      if VerifyStaged(db, disk, ids).Damaged? && VerifyStaged(db, disk, ids) == VerifyStaged(db, disk, ids[1..]) {
        var id :| id in ids[1..] && id in db.transitions &&
            db.transitions[id].staged == Some(VerifyStaged(db, disk, ids[1..]).artifact);
        assert id in ids;
      }
    }
  }

  lemma CoordinatorFinds(w: World, batch: Uuid)
    requires RowsOk(w.db) && ProjectionsOk(w.db, w.disk) && OpenBatch(w.db, batch)
    ensures var found := VerifyStaged(w.db, w.disk, BatchIds(w.db, batch, w.db.batches[batch].tags));
            (found.Sound? <==> StagedIntact(w.db, w.disk, batch)) && !found.Missing? &&
            (found.Damaged? ==> StagedBy(w.db, batch, found.artifact) && !w.db.artifacts[found.artifact].state.Ready?)
  {
    var ids := BatchIds(w.db, batch, w.db.batches[batch].tags);
    forall t { OwnBatchIds(w.db, batch, t); }
    forall t | t in w.db.transitions && t.intent.batch == batch && w.db.transitions[t].staged.Some?
      ensures w.db.transitions[t].staged == Some(StagedFor(t)) && StagedFor(t) in w.db.artifacts &&
              !w.db.artifacts[StagedFor(t)].state.Ready?
    {
      StagedPresent(w, batch, t);
    }
    CoordinatorVerifies(w.db, w.disk, ids);
  }
}
