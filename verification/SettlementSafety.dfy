/** Settling an open batch keeps the invariant, one conjunct at a time. */
module SettlementSafety {
  import opened Wrappers
  import opened Tables
  import opened Classification
  import opened Receive
  import opened Lifecycle
  import opened World
  import opened Invariant
  import opened Settlement

  ghost predicate BatchSettled(db: Db, next: Db, batch: Uuid, verdict: Disposition) {
    batch in db.batches && verdict != ReceiveManual &&
    next.batches == db.batches[batch := db.batches[batch].(state := FinalState(verdict))] &&
    TagsSettled(db, next.(batches := db.batches), batch, db.batches[batch].plugin, db.batches[batch].tags, verdict)
  }

  ghost predicate OpenBatch(db: Db, batch: Uuid) { batch in db.batches && IsOpen(db.batches[batch].state) }

  // ---- The effect of settling, row by row

  ghost predicate Owns(transitions: Transitions, batch: Uuid, pid: PointerId) {
    OwnerOf(batch, pid) in transitions && transitions[OwnerOf(batch, pid)].pointer == pid
  }

  ghost predicate OwnsKey(intents: Intents, batch: Uuid, key: TagKey) {
    IntentId(batch, key.tag) in intents && intents[IntentId(batch, key.tag)].key == key
  }

  ghost predicate IntentEffect(before: Intents, after: Intents, batch: Uuid, verdict: Disposition) {
    after.Keys == before.Keys &&
    forall id | id in before :: after[id] == if id.batch == batch then before[id].(state := FinalState(verdict))
        else before[id]
  }

  ghost predicate TransitionEffect(before: Transitions, after: Transitions, batch: Uuid, verdict: Disposition) {
    after.Keys == before.Keys &&
    forall t | t in before ::
      after[t] == if t.intent.batch == batch then before[t].(state := TransitionAfter(verdict)) else before[t]
  }

  ghost predicate PointerEffect(db: Db, after: map<PointerId, Pointer>, batch: Uuid, verdict: Disposition) {
    after.Keys == db.pointers.Keys &&
    forall pid | pid in db.pointers ::
      after[pid] == if Owns(db.transitions, batch, pid) && OwnerOf(batch, pid).intent in db.intents
                    then PointerAfter(verdict, db.intents[OwnerOf(batch, pid).intent].operation,
                        db.transitions[OwnerOf(batch, pid)])
                    else db.pointers[pid]
  }

  ghost predicate ArtifactEffect(db: Db, after: map<ArtifactId, Artifact>, batch: Uuid, verdict: Disposition) {
    after.Keys == db.artifacts.Keys &&
    forall aid | aid in db.artifacts ::
      after[aid] == if verdict == ReceiveCompleted && aid.StagedFor? && aid.transition.intent.batch == batch
                    then db.artifacts[aid].(state := Ready) else db.artifacts[aid]
  }

  ghost predicate Discards(transitions: Transitions, batch: Uuid, verdict: Disposition, t: TransitionId,
          aid: ArtifactId)
  {
    t in transitions && t.intent.batch == batch && Discarded(verdict, transitions[t]) == Some(aid)
  }

  ghost predicate GcEffect(db: Db, after: map<ArtifactId, GcState>, batch: Uuid, verdict: Disposition) {
    forall aid :: aid in after <==> aid in db.gc || exists t :: Discards(db.transitions, batch, verdict, t, aid)
  }

  ghost predicate VersionEffect(db: Db, after: map<TagKey, Version>, batch: Uuid, verdict: Disposition) {
    after.Keys == db.versions.Keys &&
    forall key | key in db.versions ::
      after[key] == if verdict == ReceiveCompleted && OwnsKey(db.intents, batch, key)
                    then VersionAfter(db.intents[IntentId(batch, key.tag)]) else db.versions[key]
  }

  ghost predicate PluginEffect(db: Db, after: map<Uuid, Plugin>, batch: Uuid, verdict: Disposition) {
    after.Keys == db.plugins.Keys &&
    forall p | p in db.plugins ::
      after[p] == if verdict == ReceiveCompleted && db.plugins[p].defaultTag.Some? &&
                     OwnsKey(db.intents, batch, TagKey(p, db.plugins[p].defaultTag.value)) &&
                     db.intents[IntentId(batch, db.plugins[p].defaultTag.value)].operation == Delete
                  then db.plugins[p].(defaultTag := None) else db.plugins[p]
  }

  ghost predicate BatchEffect(before: map<Uuid, Batch>, after: map<Uuid, Batch>, batch: Uuid, verdict: Disposition) {
    batch in before && after == before[batch := before[batch].(state := FinalState(verdict))]
  }

  ghost predicate SettledEffect(db: Db, next: Db, batch: Uuid, verdict: Disposition) {
    verdict != ReceiveManual && next.population == db.population &&
        BatchEffect(db.batches, next.batches, batch, verdict) &&
    IntentEffect(db.intents, next.intents, batch, verdict) &&
        TransitionEffect(db.transitions, next.transitions, batch, verdict) &&
    PointerEffect(db, next.pointers, batch, verdict) && ArtifactEffect(db, next.artifacts, batch, verdict) &&
    GcEffect(db, next.gc, batch, verdict) && VersionEffect(db, next.versions, batch, verdict) &&
    PluginEffect(db, next.plugins, batch, verdict) &&
    next.history == if verdict == ReceiveCompleted then
        db.history + HistoryRows(db.intents, batch, db.batches[batch].tags) else db.history
  }

  lemma IntentEffectOf(db: Db, after: Intents, batch: Uuid, verdict: Disposition)
    requires IntentRowsOk(db) && batch in db.batches &&
             IntentsSettled(db.intents, after, batch, db.batches[batch].tags, verdict)
    ensures IntentEffect(db.intents, after, batch, verdict)
  {
  }

  lemma TransitionEffectOf(db: Db, after: Transitions, batch: Uuid, verdict: Disposition)
    requires IntentRowsOk(db) && TransitionRowsOk(db) && batch in db.batches
    requires TransitionsSettled(db.transitions, after, batch, db.batches[batch].tags, verdict)
    ensures TransitionEffect(db.transitions, after, batch, verdict)
  {
  }

  lemma PointerEffectOf(db: Db, after: map<PointerId, Pointer>, batch: Uuid, verdict: Disposition)
    requires IntentRowsOk(db) && TransitionRowsOk(db) && batch in db.batches
    requires PointersSettled(db.intents, db.transitions, db.pointers, after, batch, db.batches[batch].plugin,
             db.batches[batch].tags, verdict)
    ensures PointerEffect(db, after, batch, verdict)
  {
    forall pid | pid in db.pointers && OwnerOf(batch, pid) in db.transitions
      ensures Owns(db.transitions, batch, pid) <==>
              Touches(db.intents, db.transitions, batch, db.batches[batch].plugin, db.batches[batch].tags, pid)
    {
      var t := OwnerOf(batch, pid);
      assert db.transitions[t].pointer == PointerId(t.revision, db.intents[t.intent].key);
    }
  }

  lemma ArtifactEffectOf(db: Db, after: map<ArtifactId, Artifact>, batch: Uuid, verdict: Disposition)
    requires IntentRowsOk(db) && TransitionRowsOk(db) && ArtifactsOk(db) && batch in db.batches
    requires ArtifactsSettled(db.transitions, db.artifacts, after, batch, db.batches[batch].tags, verdict)
    ensures ArtifactEffect(db, after, batch, verdict)
  {
    forall aid | aid in db.artifacts && aid.StagedFor?
      ensures Promoted(db.transitions, batch, db.batches[batch].tags, verdict, aid)
              <==> verdict == ReceiveCompleted && aid.transition.intent.batch == batch
    {
      assert aid.transition in db.transitions && aid.transition.intent in db.intents;
    }
  }

  lemma GcEffectOf(db: Db, after: map<ArtifactId, GcState>, batch: Uuid, verdict: Disposition)
    requires IntentRowsOk(db) && TransitionRowsOk(db) && batch in db.batches
    requires GcSettled(db.transitions, db.gc, after, batch, db.batches[batch].tags, verdict)
    ensures GcEffect(db, after, batch, verdict)
  {
    forall aid
      ensures DiscardedBy(db.transitions, batch, db.batches[batch].tags, verdict, aid)
              <==> exists t :: Discards(db.transitions, batch, verdict, t, aid)
    {
      if DiscardedBy(db.transitions, batch, db.batches[batch].tags, verdict, aid) {
        var t :| t in db.transitions && Covers(batch, db.batches[batch].tags, t.intent) &&
            Discarded(verdict, db.transitions[t]) == Some(aid);
        assert Discards(db.transitions, batch, verdict, t, aid);
      }
      if exists t :: Discards(db.transitions, batch, verdict, t, aid) {
        var t :| Discards(db.transitions, batch, verdict, t, aid);
        assert t.intent in db.intents;
        assert Covers(batch, db.batches[batch].tags, t.intent);
      }
    }
  }

  lemma OwnsKeyMeans(db: Db, batch: Uuid, key: TagKey)
    requires IntentRowsOk(db) && batch in db.batches
    ensures OwnsKey(db.intents, batch, key) <==>
            key.plugin == db.batches[batch].plugin && key.tag in db.batches[batch].tags &&
                IntentId(batch, key.tag) in db.intents
  {
  }

  lemma VersionEffectOf(db: Db, after: map<TagKey, Version>, batch: Uuid, verdict: Disposition)
    requires IntentRowsOk(db) && batch in db.batches
    requires VersionsSettled(db.intents, db.versions, after, batch, db.batches[batch].plugin, db.batches[batch].tags,
             verdict)
    ensures VersionEffect(db, after, batch, verdict)
  {
    forall key { OwnsKeyMeans(db, batch, key); }
  }

  lemma PluginEffectOf(db: Db, after: map<Uuid, Plugin>, batch: Uuid, verdict: Disposition)
    requires IntentRowsOk(db) && batch in db.batches
    requires PluginsSettled(db.intents, db.plugins, after, batch, db.batches[batch].plugin, db.batches[batch].tags,
             verdict)
    ensures PluginEffect(db, after, batch, verdict)
  {
    forall key { OwnsKeyMeans(db, batch, key); }
  }

  lemma SettledEffectOf(db: Db, next: Db, batch: Uuid, verdict: Disposition)
    requires IntentRowsOk(db) && TransitionRowsOk(db) && ArtifactsOk(db) && BatchSettled(db, next, batch, verdict)
    ensures SettledEffect(db, next, batch, verdict)
  {
    IntentEffectOf(db, next.intents, batch, verdict);
    TransitionEffectOf(db, next.transitions, batch, verdict);
    PointerEffectOf(db, next.pointers, batch, verdict);
    ArtifactEffectOf(db, next.artifacts, batch, verdict);
    GcEffectOf(db, next.gc, batch, verdict);
    VersionEffectOf(db, next.versions, batch, verdict);
    PluginEffectOf(db, next.plugins, batch, verdict);
  }

  // ---- Whose rows are whose

  /** Two unresolved transitions on one pointer are one transition. */
  lemma PointerOwnedOnce(db: Db, s: TransitionId, t: TransitionId)
    requires IntentRowsOk(db) && TransitionRowsOk(db) && UnresolvedUnique(db)
    requires s in db.transitions && t in db.transitions && db.transitions[s].pointer == db.transitions[t].pointer
    requires TransitionUnresolved(db.transitions[s].state) && TransitionUnresolved(db.transitions[t].state)
    ensures s == t
  {
    assert db.intents[s.intent].key == db.intents[t.intent].key;
  }

  // ---- The swaps succeed

  lemma OpenTransitionReady(db: Db, disk: map<StorageKey, Projection>, verdict: Disposition, t: TransitionId)
    requires RowsOk(db) && ProjectionsOk(db, disk)
    requires t in db.transitions && IsOpen(db.intents[t.intent].state)
    requires verdict == ReceiveCompleted ==> StillStaged(db, t.intent.batch)
    ensures TransitionReady(db, db.intents[t.intent].key, db.intents[t.intent].operation, verdict, t)
  {
    assert TransitionOpen(db.transitions[t].state);
    assert PointerFrozen(db, db.transitions[t]);
    assert PointedAt(db, disk, db.transitions[t].pointer, db.transitions[t].current.value);
  }

  lemma OpenBatchReady(w: World, batch: Uuid, verdict: Disposition)
    requires RowsOk(w.db) && IntentsOk(w.db, w.objects) && ProjectionsOk(w.db, w.disk) && OpenBatch(w.db, batch)
    requires verdict == ReceiveCompleted ==> StillStaged(w.db, batch)
    ensures TagsReady(w.db, batch, w.db.batches[batch].plugin, w.db.batches[batch].tags, verdict)
  {
    var db := w.db;
    forall tag | tag in db.batches[batch].tags
        ensures IntentReady(db, db.batches[batch].plugin, verdict, IntentId(batch, tag)) {
      var id := IntentId(batch, tag);
      assert IntentFacts(db.intents[id], w.objects);
      forall r | r in db.intents[id].revisions
        ensures TransitionReady(db, db.intents[id].key, db.intents[id].operation, verdict, TransitionId(id, r))
      {
        OpenTransitionReady(db, w.disk, verdict, TransitionId(id, r));
      }
    }
  }

  /** Under the invariant every compare-and-swap of the settling transaction finds what it expects, as long as
      no projection it has to promote was marked as failed. */
  lemma SettleBatchSucceeds(w: World, batch: Uuid, verdict: Disposition, checked: bool) returns (next: Db)
    requires RowsOk(w.db) && IntentsOk(w.db, w.objects) && ProjectionsOk(w.db, w.disk) && OpenBatch(w.db, batch)
    requires verdict != ReceiveManual && (verdict == ReceiveCompleted ==> StillStaged(w.db, batch))
    ensures SettleBatch(w.db, batch, verdict, checked) == Some(next)
    ensures SettledEffect(w.db, next, batch, verdict)
  {
    OpenBatchReady(w, batch, verdict);
    var tags := w.db.batches[batch].tags;
    var mid := SettleTagsSucceeds(w.db, batch, w.db.batches[batch].plugin, tags, verdict, checked);
    next := mid.(batches := mid.batches[batch := mid.batches[batch].(state := FinalState(verdict))]);
    assert next.(batches := w.db.batches) == mid;
    SettledEffectOf(w.db, next, batch, verdict);
  }

  // ---- Rows

  lemma SettledBatchRows(db: Db, next: Db, batch: Uuid, verdict: Disposition)
    requires BatchRowsOk(db) && BatchEffect(db.batches, next.batches, batch, verdict) &&
             next.population == db.population
    requires next.intents.Keys == db.intents.Keys && next.plugins.Keys == db.plugins.Keys
    ensures BatchRowsOk(next)
  {
  }

  lemma SettledIntentRows(db: Db, next: Db, batch: Uuid, verdict: Disposition)
    requires IntentRowsOk(db) && BatchEffect(db.batches, next.batches, batch, verdict)
    requires IntentEffect(db.intents, next.intents, batch, verdict) && next.transitions.Keys == db.transitions.Keys
    ensures IntentRowsOk(next)
  {
  }

  lemma SettledTransitionRows(db: Db, next: Db, batch: Uuid, verdict: Disposition)
    requires TransitionRowsOk(db)
    requires IntentEffect(db.intents, next.intents, batch, verdict) &&
             TransitionEffect(db.transitions, next.transitions, batch, verdict)
    requires next.pointers.Keys == db.pointers.Keys
    ensures TransitionRowsOk(next)
  {
  }

  lemma SettledRows(db: Db, next: Db, batch: Uuid, verdict: Disposition)
    requires RowsOk(db) && SettledEffect(db, next, batch, verdict)
    ensures RowsOk(next)
  {
    SettledBatchRows(db, next, batch, verdict);
    SettledIntentRows(db, next, batch, verdict);
    SettledTransitionRows(db, next, batch, verdict);
  }

  // ---- Intents

  lemma SettledFacts(db: Db, next: Db, objects: Objects, batch: Uuid, verdict: Disposition)
    requires IntentFactsOk(db, objects) && IntentEffect(db.intents, next.intents, batch, verdict)
    ensures IntentFactsOk(next, objects)
  {
  }

  /** An intent that stays unresolved is not the batch's, and no other key of the batch is its key. */
  lemma StillUnresolved(db: Db, next: Db, batch: Uuid, verdict: Disposition, id: IntentId)
    requires IntentRowsOk(db) && UnresolvedUnique(db) && OpenBatch(db, batch) && verdict != ReceiveManual
    requires IntentEffect(db.intents, next.intents, batch, verdict)
    requires id in next.intents && IsUnresolved(next.intents[id].state)
    ensures id in db.intents && id.batch != batch && next.intents[id] == db.intents[id] &&
            !OwnsKey(db.intents, batch, db.intents[id].key)
  {
  }

  lemma SettledExpected(db: Db, next: Db, batch: Uuid, verdict: Disposition)
    requires IntentRowsOk(db) && UnresolvedExpected(db) && UnresolvedUnique(db) && OpenBatch(db, batch) &&
             verdict != ReceiveManual
    requires IntentEffect(db.intents, next.intents, batch, verdict) && VersionEffect(db, next.versions, batch, verdict)
    ensures UnresolvedExpected(next) && UnresolvedUnique(next)
  {
    forall id | id in next.intents && IsUnresolved(next.intents[id].state)
      ensures VersionExpected(next, next.intents[id]) && id in db.intents && next.intents[id] == db.intents[id]
    {
      StillUnresolved(db, next, batch, verdict, id);
      assert VersionExpected(db, db.intents[id]);
    }
  }

  lemma SettledSelection(db: Db, next: Db, batch: Uuid, verdict: Disposition)
    requires SelectionOk(db) && IntentEffect(db.intents, next.intents, batch, verdict) && verdict != ReceiveManual
    requires next.pointers.Keys == db.pointers.Keys
    ensures SelectionOk(next)
  {
  }

  lemma SettledIntents(db: Db, next: Db, objects: Objects, batch: Uuid, verdict: Disposition)
    requires IntentRowsOk(db) && IntentsOk(db, objects) && OpenBatch(db, batch) &&
             SettledEffect(db, next, batch, verdict)
    ensures IntentsOk(next, objects)
  {
    SettledFacts(db, next, objects, batch, verdict);
    SettledExpected(db, next, batch, verdict);
    SettledSelection(db, next, batch, verdict);
  }

  // ---- Projections

  lemma StillUnresolvedTransition(db: Db, next: Db, batch: Uuid, verdict: Disposition, t: TransitionId)
    requires TransitionRowsOk(db) && verdict != ReceiveManual
    requires TransitionEffect(db.transitions, next.transitions, batch, verdict)
    requires t in next.transitions && TransitionUnresolved(next.transitions[t].state)
    ensures t in db.transitions && t.intent.batch != batch && next.transitions[t] == db.transitions[t]
  {
  }

  lemma SettledFrozen(db: Db, next: Db, batch: Uuid, verdict: Disposition)
    requires IntentRowsOk(db) && TransitionRowsOk(db) && UnresolvedUnique(db) && FrozenOk(db) && OpenBatch(db, batch) &&
             verdict != ReceiveManual
    requires TransitionEffect(db.transitions, next.transitions, batch, verdict) &&
             PointerEffect(db, next.pointers, batch, verdict)
    ensures FrozenOk(next)
  {
    forall t | t in next.transitions && TransitionUnresolved(next.transitions[t].state)
      ensures PointerFrozen(next, next.transitions[t])
    {
      StillUnresolvedTransition(db, next, batch, verdict, t);
      var pid := db.transitions[t].pointer;
      assert PointerFrozen(db, db.transitions[t]);
      if Owns(db.transitions, batch, pid) {
        PointerOwnedOnce(db, t, OwnerOf(batch, pid));
      }
    }
  }

  /** What a settled batch hands to the collector was pointed at by it, or staged for it. */
  lemma DiscardedFacts(db: Db, disk: map<StorageKey, Projection>, batch: Uuid, verdict: Disposition, t: TransitionId,
          aid: ArtifactId)
    requires IntentRowsOk(db) && TransitionRowsOk(db) && FrozenOk(db) && StagedOk(db) && PointersOk(db, disk) &&
             OpenBatch(db, batch)
    requires Discards(db.transitions, batch, verdict, t, aid)
    ensures TransitionOpen(db.transitions[t].state) && aid in db.artifacts && db.transitions[t].pointer in db.pointers
    ensures verdict == ReceiveCompleted ==> PointedAt(db, disk, db.transitions[t].pointer, aid)
    ensures verdict != ReceiveCompleted ==> aid == StagedFor(t)
  {
    assert t.intent in db.intents;
    assert PointerFrozen(db, db.transitions[t]);
  }

  /** What another transition staged is not discarded. */
  lemma StagedNotDiscarded(db: Db, disk: map<StorageKey, Projection>, batch: Uuid, verdict: Disposition,
          t: TransitionId)
    requires IntentRowsOk(db) && TransitionRowsOk(db) && ProjectionsOk(db, disk) && OpenBatch(db, batch)
    requires t in db.transitions && t.intent.batch != batch && TransitionUnresolved(db.transitions[t].state)
    ensures !exists d :: Discards(db.transitions, batch, verdict, d, StagedFor(t))
  {
    if exists d :: Discards(db.transitions, batch, verdict, d, StagedFor(t)) {
      var d :| Discards(db.transitions, batch, verdict, d, StagedFor(t));
      DiscardedFacts(db, disk, batch, verdict, d, StagedFor(t));
    }
  }

  lemma SettledStagedRow(db: Db, next: Db, disk: map<StorageKey, Projection>, batch: Uuid, verdict: Disposition,
          t: TransitionId)
    requires IntentRowsOk(db) && TransitionRowsOk(db) && ProjectionsOk(db, disk) && OpenBatch(db, batch) &&
             SettledEffect(db, next, batch, verdict)
    requires t in next.transitions && TransitionUnresolved(next.transitions[t].state) &&
             next.transitions[t].staged.Some?
    ensures t.intent in next.intents && StagedRowOk(next, t)
  {
    StillUnresolvedTransition(db, next, batch, verdict, t);
    assert StagedRowOk(db, t);
    StagedNotDiscarded(db, disk, batch, verdict, t);
  }

  lemma SettledStaged(db: Db, next: Db, disk: map<StorageKey, Projection>, batch: Uuid, verdict: Disposition)
    requires IntentRowsOk(db) && TransitionRowsOk(db) && ProjectionsOk(db, disk) && OpenBatch(db, batch) &&
             SettledEffect(db, next, batch, verdict)
    ensures StagedOk(next)
  {
    forall t | t in next.transitions && TransitionUnresolved(next.transitions[t].state) &&
        next.transitions[t].staged.Some?
      ensures t.intent in next.intents && StagedRowOk(next, t)
    {
      SettledStagedRow(db, next, disk, batch, verdict, t);
    }
  }

  lemma SettledArtifacts(db: Db, next: Db, disk: map<StorageKey, Projection>, batch: Uuid, verdict: Disposition)
    requires IntentRowsOk(db) && TransitionRowsOk(db) && ProjectionsOk(db, disk) && OpenBatch(db, batch) &&
             verdict != ReceiveManual
    requires TransitionEffect(db.transitions, next.transitions, batch, verdict)
    requires ArtifactEffect(db, next.artifacts, batch, verdict) && GcEffect(db, next.gc, batch, verdict)
    ensures ArtifactsOk(next)
  {
    forall a | a in next.gc ensures a in next.artifacts {
      CollectedIsStored(db, next, disk, batch, verdict, a);
    }
    SettledStorage(db, next, batch, verdict);
  }

  lemma CollectedIsStored(db: Db, next: Db, disk: map<StorageKey, Projection>, batch: Uuid, verdict: Disposition,
          a: ArtifactId)
    requires IntentRowsOk(db) && TransitionRowsOk(db) && ProjectionsOk(db, disk) && OpenBatch(db, batch)
    requires next.artifacts.Keys == db.artifacts.Keys && GcEffect(db, next.gc, batch, verdict) && a in next.gc
    ensures a in next.artifacts
  {
    if a !in db.gc {
      var d :| Discards(db.transitions, batch, verdict, d, a);
      DiscardedFacts(db, disk, batch, verdict, d, a);
    }
  }

  lemma SettledStorage(db: Db, next: Db, batch: Uuid, verdict: Disposition)
    requires ArtifactsOk(db) && TransitionEffect(db.transitions, next.transitions, batch, verdict)
    requires ArtifactEffect(db, next.artifacts, batch, verdict) && forall a | a in next.gc :: a in next.artifacts
    ensures ArtifactsOk(next)
  {
    assert forall a | a in next.artifacts :: next.artifacts[a].storage == db.artifacts[a].storage;
  }

  /** A projection that some pointer names is discarded only by the transition on that pointer. */
  lemma NamedNotDiscarded(db: Db, disk: map<StorageKey, Projection>, batch: Uuid, verdict: Disposition, pid: PointerId,
          aid: ArtifactId, d: TransitionId)
    requires IntentRowsOk(db) && TransitionRowsOk(db) && ProjectionsOk(db, disk) && OpenBatch(db, batch)
    requires PointedAt(db, disk, pid, aid) && Discards(db.transitions, batch, verdict, d, aid)
    ensures verdict == ReceiveCompleted && OwnerOf(batch, pid) == d && Owns(db.transitions, batch, pid)
  {
    DiscardedFacts(db, disk, batch, verdict, d, aid);
    assert d.intent in db.intents;
  }

  /** A pointer never names what an open batch has staged. */
  lemma CompletedElsewhere(db: Db, disk: map<StorageKey, Projection>, batch: Uuid, pid: PointerId, aid: ArtifactId)
    requires IntentRowsOk(db) && TransitionRowsOk(db) && OpenBatch(db, batch) && PointedAt(db, disk, pid, aid)
    ensures aid.StagedFor? ==> aid.transition.intent.batch != batch
  {
  }

  /** A pointer the batch leaves alone, or merely reopens, keeps a projection that is not collected. */
  lemma KeptPointer(db: Db, next: Db, disk: map<StorageKey, Projection>, batch: Uuid, verdict: Disposition,
          pid: PointerId, aid: ArtifactId)
    requires IntentRowsOk(db) && TransitionRowsOk(db) && ProjectionsOk(db, disk) && OpenBatch(db, batch)
    requires TransitionEffect(db.transitions, next.transitions, batch, verdict) && verdict != ReceiveManual
    requires ArtifactEffect(db, next.artifacts, batch, verdict) && GcEffect(db, next.gc, batch, verdict)
    requires PointedAt(db, disk, pid, aid) && (!Owns(db.transitions, batch, pid) || verdict == ReceiveAborted)
    ensures PointedAt(next, disk, pid, aid)
  {
    if exists d :: Discards(db.transitions, batch, verdict, d, aid) {
      var d :| Discards(db.transitions, batch, verdict, d, aid);
      NamedNotDiscarded(db, disk, batch, verdict, pid, aid, d);
    }
    CompletedElsewhere(db, disk, batch, pid, aid);
  }

  lemma PromotedPointer(db: Db, next: Db, disk: map<StorageKey, Projection>, batch: Uuid, t: TransitionId)
    requires IntentRowsOk(db) && TransitionRowsOk(db) && ProjectionsOk(db, disk) && OpenBatch(db, batch)
    requires TransitionEffect(db.transitions, next.transitions, batch, ReceiveCompleted)
    requires ArtifactEffect(db, next.artifacts, batch, ReceiveCompleted) &&
             GcEffect(db, next.gc, batch, ReceiveCompleted)
    requires t in db.transitions && t.intent.batch == batch && t.intent in db.intents
    requires db.transitions[t].staged.Some? && StagedStored(db, disk, t)
    ensures PointedAt(next, disk, db.transitions[t].pointer, StagedFor(t))
  {
    assert TransitionOpen(db.transitions[t].state) && StagedRowOk(db, t);
    if exists d :: Discards(db.transitions, batch, ReceiveCompleted, d, StagedFor(t)) {
      var d :| Discards(db.transitions, batch, ReceiveCompleted, d, StagedFor(t));
      DiscardedFacts(db, disk, batch, ReceiveCompleted, d, StagedFor(t));
    }
  }

  lemma SettledPointers(db: Db, next: Db, disk: map<StorageKey, Projection>, batch: Uuid, verdict: Disposition)
    requires IntentRowsOk(db) && TransitionRowsOk(db) && ProjectionsOk(db, disk) && OpenBatch(db, batch) &&
             SettledEffect(db, next, batch, verdict)
    requires verdict == ReceiveCompleted ==> BatchStored(db, disk, batch)
    ensures PointersOk(next, disk)
  {
    forall pid | pid in next.pointers
      ensures next.pointers[pid].available ==> next.pointers[pid].artifact.Some?
      ensures next.pointers[pid].artifact.Some? ==> PointedAt(next, disk, pid, next.pointers[pid].artifact.value)
    {
      SettledPointer(db, next, disk, batch, verdict, pid);
    }
  }

  lemma SettledPointer(db: Db, next: Db, disk: map<StorageKey, Projection>, batch: Uuid, verdict: Disposition,
          pid: PointerId)
    requires IntentRowsOk(db) && TransitionRowsOk(db) && ProjectionsOk(db, disk) && OpenBatch(db, batch) &&
             SettledEffect(db, next, batch, verdict)
    requires verdict == ReceiveCompleted ==> BatchStored(db, disk, batch)
    requires pid in next.pointers
    ensures next.pointers[pid].available ==> next.pointers[pid].artifact.Some?
    ensures next.pointers[pid].artifact.Some? ==> PointedAt(next, disk, pid, next.pointers[pid].artifact.value)
  {
    var t := OwnerOf(batch, pid);
    if Owns(db.transitions, batch, pid) {
      assert TransitionOpen(db.transitions[t].state) && PointerFrozen(db, db.transitions[t]);
      if verdict == ReceiveAborted {
        KeptPointer(db, next, disk, batch, verdict, pid, db.transitions[t].current.value);
      } else if db.intents[t.intent].operation == Move {
        PromotedPointer(db, next, disk, batch, t);
      }
    } else if db.pointers[pid].artifact.Some? {
      KeptPointer(db, next, disk, batch, verdict, pid, db.pointers[pid].artifact.value);
    }
  }

  lemma SettledProjections(db: Db, next: Db, disk: map<StorageKey, Projection>, batch: Uuid, verdict: Disposition)
    requires IntentRowsOk(db) && TransitionRowsOk(db) && UnresolvedUnique(db) && ProjectionsOk(db, disk)
    requires OpenBatch(db, batch) && SettledEffect(db, next, batch, verdict)
    requires verdict == ReceiveCompleted ==> BatchStored(db, disk, batch)
    ensures ProjectionsOk(next, disk)
  {
    SettledFrozen(db, next, batch, verdict);
    SettledStaged(db, next, disk, batch, verdict);
    SettledArtifacts(db, next, disk, batch, verdict);
    SettledPointers(db, next, disk, batch, verdict);
  }
}
