/** Settling an open batch keeps the rest of the invariant: Plugins, history, Git and sessions. */
module SettlementInvariant {
  import opened Wrappers
  import opened Tables
  import opened Classification
  import opened Receive
  import opened Lifecycle
  import opened World
  import opened Invariant
  import opened Settlement
  import opened SettlementSafety
  import opened HistoryReplay

  // ---- Plugins

  lemma SettledPlugin(db: Db, next: Db, batch: Uuid, verdict: Disposition, p: Uuid)
    requires p in db.plugins && PluginOk(db.versions, p, db.plugins[p])
    requires VersionEffect(db, next.versions, batch, verdict) && PluginEffect(db, next.plugins, batch, verdict)
    ensures PluginOk(next.versions, p, next.plugins[p])
  {
    assert HasVersion(next.versions, p) <==> HasVersion(db.versions, p);
  }

  lemma SettledPlugins(db: Db, next: Db, batch: Uuid, verdict: Disposition)
    requires PluginsOk(db) && next.population == db.population
    requires VersionEffect(db, next.versions, batch, verdict) && PluginEffect(db, next.plugins, batch, verdict)
    ensures PluginsOk(next)
  {
    forall p | p in next.plugins ensures PluginOk(next.versions, p, next.plugins[p]) {
      SettledPlugin(db, next, batch, verdict, p);
    }
  }

  // ---- History

  lemma BatchRowsReady(db: Db, objects: Objects, batch: Uuid)
    requires BatchRowsOk(db) && IntentRowsOk(db) && IntentsOk(db, objects) && HistoryOk(db) && OpenBatch(db, batch)
    ensures RowsReady(db.history, db.intents, batch, db.batches[batch].plugin, db.batches[batch].tags)
  {
    forall tag {:trigger IntentId(batch, tag)} | tag in db.batches[batch].tags
      ensures IntentId(batch, tag) in db.intents &&
              var intent := db.intents[IntentId(batch, tag)];
              intent.key == TagKey(db.batches[batch].plugin, tag) &&
                  Replay(db.history, intent.key) == At(intent.oldCommit) &&
              (intent.operation == Move <==> intent.newCommit.Some?)
    {
      var id := IntentId(batch, tag);
      assert id in db.intents && IntentFacts(db.intents[id], objects) && VersionExpected(db, db.intents[id]);
    }
  }

  lemma StandingOfOwned(db: Db, next: Db, objects: Objects, batch: Uuid, key: TagKey)
    requires IntentFactsOk(db, objects) && VersionEffect(db, next.versions, batch, ReceiveCompleted)
    requires OwnsKey(db.intents, batch, key) && key in db.versions
    ensures StandingOf(next.versions,
            key) == StandingAfter(HistoryAfter(IntentId(batch, key.tag), db.intents[IntentId(batch, key.tag)]))
  {
    assert IntentFacts(db.intents[IntentId(batch, key.tag)], objects);
  }

  lemma CompletedReplay(db: Db, next: Db, objects: Objects, batch: Uuid, key: TagKey)
    requires BatchRowsOk(db) && IntentRowsOk(db) && IntentsOk(db, objects) && HistoryOk(db) && OpenBatch(db, batch)
    requires VersionEffect(db, next.versions, batch, ReceiveCompleted)
    ensures ReplayAfter(db.history, db.intents, batch, db.batches[batch].plugin, db.batches[batch].tags,
            key) == StandingOf(next.versions, key)
  {
    OwnsKeyMeans(db, batch, key);
    if OwnsKey(db.intents, batch, key) {
      var id := IntentId(batch, key.tag);
      assert IsOpen(db.intents[id].state) && VersionExpected(db, db.intents[id]);
      StandingOfOwned(db, next, objects, batch, key);
    } else {
      assert Replay(db.history, key) == StandingOf(db.versions, key);
    }
  }

  lemma CompletedCounts(db: Db, next: Db, batch: Uuid, id: IntentId)
    requires BatchRowsOk(db) && IntentRowsOk(db) && HistoryOk(db) && OpenBatch(db, batch)
    requires IntentEffect(db.intents, next.intents, batch, ReceiveCompleted)
    requires Counts(db.history, next.history, batch, db.batches[batch].tags)
    ensures RowsFor(next.history, id) == if Recorded(next, id) then 1 else 0
  {
    assert RowsFor(db.history, id) == if Recorded(db, id) then 1 else 0;
    assert RowsFor(next.history, id) == RowsFor(db.history, id) + if Covers(batch, db.batches[batch].tags, id) then 1
           else 0;
    if Covers(batch, db.batches[batch].tags, id) {
      assert id == IntentId(batch, id.tag) && id in db.intents;
    }
  }

  lemma CompletedHistory(db: Db, next: Db, objects: Objects, batch: Uuid)
    requires BatchRowsOk(db) && IntentRowsOk(db) && IntentsOk(db, objects) && HistoryOk(db) && OpenBatch(db, batch)
    requires IntentEffect(db.intents, next.intents, batch, ReceiveCompleted) &&
             VersionEffect(db, next.versions, batch, ReceiveCompleted)
    requires next.history == db.history + HistoryRows(db.intents, batch, db.batches[batch].tags)
    ensures HistoryOk(next)
  {
    BatchRowsReady(db, objects, batch);
    AppendBatch(db.history, db.intents, batch, db.batches[batch].plugin, db.batches[batch].tags);
    forall key ensures Replay(next.history, key) == StandingOf(next.versions, key) {
      CompletedReplay(db, next, objects, batch, key);
    }
    forall id { CompletedCounts(db, next, batch, id); }
  }

  lemma AbortedHistory(db: Db, next: Db, batch: Uuid)
    requires IntentRowsOk(db) && HistoryOk(db) && OpenBatch(db, batch)
    requires IntentEffect(db.intents, next.intents, batch, ReceiveAborted) &&
             VersionEffect(db, next.versions, batch, ReceiveAborted)
    requires next.history == db.history
    ensures HistoryOk(next)
  {
    forall key ensures Replay(next.history, key) == StandingOf(next.versions, key) {
      assert Replay(db.history, key) == StandingOf(db.versions, key);
    }
    forall id ensures RowsFor(next.history, id) == if Recorded(next, id) then 1 else 0 {
      assert RowsFor(db.history, id) == if Recorded(db, id) then 1 else 0;
    }
  }

  lemma SettledTables(db: Db, next: Db, objects: Objects, batch: Uuid, verdict: Disposition)
    requires BatchRowsOk(db) && IntentRowsOk(db) && IntentsOk(db, objects) && TablesOk(db) && OpenBatch(db, batch)
    requires SettledEffect(db, next, batch, verdict)
    ensures TablesOk(next)
  {
    SettledPlugins(db, next, batch, verdict);
    if verdict == ReceiveCompleted {
      CompletedHistory(db, next, objects, batch);
    } else {
      AbortedHistory(db, next, batch);
    }
  }

  // ---- Git

  lemma SettledVersionFacts(db: Db, next: Db, objects: Objects, batch: Uuid, verdict: Disposition)
    requires VersionFactsOk(db.versions, objects) && IntentFactsOk(db, objects) &&
             VersionEffect(db, next.versions, batch, verdict)
    ensures VersionFactsOk(next.versions, objects)
  {
    forall key | key in next.versions ensures VersionFacts(next.versions[key], objects) {
      if OwnsKey(db.intents, batch, key) {
        assert IntentFacts(db.intents[IntentId(batch, key.tag)], objects);
      }
    }
  }

  /** Only the settled batch stops blocking its tags. */
  lemma StillBlocked(db: Db, next: Db, batch: Uuid, verdict: Disposition, key: TagKey)
    requires IntentRowsOk(db) && IntentEffect(db.intents, next.intents, batch, verdict)
    requires Blocked(db, key) && !OwnsKey(db.intents, batch, key)
    ensures Blocked(next, key)
  {
    var id :| id in db.intents && db.intents[id].key == key && IsUnresolved(db.intents[id].state);
    assert next.intents[id] == db.intents[id];
  }

  /** What Git shows for the verdict a batch is settled with. */
  ghost predicate VerdictFits(db: Db, refs: map<TagKey, ObjectId>, batch: Uuid, verdict: Disposition) {
    (verdict == ReceiveCompleted ==> RefsNew(db, refs, batch)) &&
        (verdict == ReceiveAborted ==> RefsOld(db, refs, batch))
  }

  lemma OwnedAgrees(db: Db, next: Db, refs: map<TagKey, ObjectId>, batch: Uuid, verdict: Disposition, key: TagKey)
    requires IntentRowsOk(db) && UnresolvedExpected(db) && OpenBatch(db, batch) &&
             VerdictFits(db, refs, batch, verdict) && verdict != ReceiveManual
    requires VersionEffect(db, next.versions, batch, verdict)
    requires OwnsKey(db.intents, batch, key) && key in next.versions && next.versions[key].status == Available
    ensures RefIs(refs, key, next.versions[key].raw)
  {
    var id := IntentId(batch, key.tag);
    assert IsOpen(db.intents[id].state) && VersionExpected(db, db.intents[id]);
  }

  lemma SettledAgreement(db: Db, next: Db, refs: map<TagKey, ObjectId>, batch: Uuid, verdict: Disposition)
    requires IntentRowsOk(db) && UnresolvedExpected(db) && OpenBatch(db, batch) &&
             VerdictFits(db, refs, batch, verdict) && verdict != ReceiveManual
    requires IntentEffect(db.intents, next.intents, batch, verdict) && VersionEffect(db, next.versions, batch, verdict)
    requires AgreementOk(db, refs)
    ensures AgreementOk(next, refs)
  {
    forall key | key in next.versions && next.versions[key].status == Available && !Blocked(next, key)
      ensures RefIs(refs, key, next.versions[key].raw)
    {
      if OwnsKey(db.intents, batch, key) {
        OwnedAgrees(db, next, refs, batch, verdict, key);
      } else if Blocked(db, key) {
        StillBlocked(db, next, batch, verdict, key);
      }
    }
  }

  /** Settling changes no ref value that an intent names, so every batch reads the refs as before. */
  lemma SameRefs(db: Db, next: Db, refs: map<TagKey, ObjectId>, batch: Uuid, verdict: Disposition, other: Uuid)
    requires IntentEffect(db.intents, next.intents, batch, verdict)
    ensures RefsOld(next, refs, other) <==> RefsOld(db, refs, other)
    ensures RefsNew(next, refs, other) <==> RefsNew(db, refs, other)
  {
    assert forall id | id in db.intents ::
      next.intents[id].key == db.intents[id].key && next.intents[id].oldObject == db.intents[id].oldObject &&
          next.intents[id].newObject == db.intents[id].newObject;
  }

  lemma SettledBatchRefs(db: Db, next: Db, refs: map<TagKey, ObjectId>, batch: Uuid, verdict: Disposition)
    requires BatchRefsOk(db, refs) && BatchEffect(db.batches, next.batches, batch, verdict) &&
             IntentEffect(db.intents, next.intents, batch, verdict)
    requires OpenBatch(db, batch)
    ensures BatchRefsOk(next, refs)
  {
    forall b | b in next.batches && IsUnresolved(next.batches[b].state)
        ensures RefsOld(next, refs, b) || RefsNew(next, refs, b) {
      SameRefs(db, next, refs, batch, verdict, b);
      assert b in db.batches;
    }
  }

  lemma SameStored(db: Db, next: Db, disk: map<StorageKey, Projection>, batch: Uuid, verdict: Disposition,
          t: TransitionId)
    requires IntentEffect(db.intents, next.intents, batch, verdict) &&
             TransitionEffect(db.transitions, next.transitions, batch, verdict)
    requires t in db.transitions && t.intent in db.intents
    ensures StagedStored(next, disk, t) <==> StagedStored(db, disk, t)
  {
    assert next.transitions[t].staged == db.transitions[t].staged;
    assert next.intents[t.intent].newCommit == db.intents[t.intent].newCommit;
  }

  lemma SettledStorageOk(db: Db, next: Db, refs: map<TagKey, ObjectId>, disk: map<StorageKey, Projection>, batch: Uuid,
          verdict: Disposition)
    requires TransitionRowsOk(db) && StorageOk(db, refs, disk)
    requires IntentEffect(db.intents, next.intents, batch, verdict) &&
             TransitionEffect(db.transitions, next.transitions, batch, verdict)
    ensures StorageOk(next, refs, disk)
  {
    forall t | t in next.transitions && TransitionOpen(next.transitions[t].state)
      ensures t.intent in next.intents && (RefsOld(next, refs, t.intent.batch) || StagedStored(next, disk, t))
    {
      assert t in db.transitions && TransitionOpen(db.transitions[t].state);
      SameRefs(db, next, refs, batch, verdict, t.intent.batch);
      SameStored(db, next, disk, batch, verdict, t);
    }
  }

  lemma SettledGit(w: World, next: Db, batch: Uuid, verdict: Disposition)
    requires RowsOk(w.db) && IntentsOk(w.db, w.objects) && GitOk(w) && OpenBatch(w.db, batch)
    requires SettledEffect(w.db, next, batch, verdict) && VerdictFits(w.db, w.refs, batch, verdict)
    ensures GitOk(w.(db := next))
  {
    SettledVersionFacts(w.db, next, w.objects, batch, verdict);
    SettledAgreement(w.db, next, w.refs, batch, verdict);
    SettledBatchRefs(w.db, next, w.refs, batch, verdict);
    SettledStorageOk(w.db, next, w.refs, w.disk, batch, verdict);
  }

  // ---- Sessions of other Plugins

  lemma SettledCovered(db: Db, next: Db, batch: Uuid, verdict: Disposition, p: Uuid, command: RefCommand,
          prepared: Option<Uuid>)
    requires IntentRowsOk(db) && batch in db.batches && db.batches[batch].plugin != p
    requires IntentEffect(db.intents, next.intents, batch, verdict) && VersionEffect(db, next.versions, batch, verdict)
    requires CommandCovered(db, p, command, prepared)
    ensures CommandCovered(next, p, command, prepared)
  {
    OwnsKeyMeans(db, batch, TagKey(p, command.tag));
  }

  lemma SettledPushed(db: Db, next: Db, batch: Uuid, verdict: Disposition, other: Uuid, commands: seq<RefCommand>)
    requires IntentEffect(db.intents, next.intents, batch, verdict) && BatchPushed(db, other, commands)
    ensures BatchPushed(next, other, commands)
  {
  }

  lemma SettledStoredBatch(db: Db, next: Db, disk: map<StorageKey, Projection>, batch: Uuid, verdict: Disposition,
          other: Uuid)
    requires IntentEffect(db.intents, next.intents, batch, verdict) &&
             TransitionEffect(db.transitions, next.transitions, batch, verdict)
    requires BatchStored(db, disk, other)
    ensures BatchStored(next, disk, other)
  {
    forall t | t in next.transitions && t.intent.batch == other
        ensures t.intent in next.intents && StagedStored(next, disk, t) {
      SameStored(db, next, disk, batch, verdict, t);
    }
  }

  /** The projections that other batches staged are as they were. */
  ghost predicate ArtifactsElsewhere(before: map<ArtifactId, Artifact>, after: map<ArtifactId, Artifact>, batch: Uuid) {
    forall a | a in before :: a in after &&
        (after[a] == before[a] || (a.StagedFor? && a.transition.intent.batch == batch))
  }

  lemma ElsewhereStaged(db: Db, next: Db, batch: Uuid, verdict: Disposition, other: Uuid)
    requires TransitionRowsOk(db) && StillStaged(db, other) && other != batch
    requires TransitionEffect(db.transitions, next.transitions, batch, verdict) &&
             ArtifactsElsewhere(db.artifacts, next.artifacts, batch)
    ensures StillStaged(next, other)
  {
  }

  lemma SettledSession(w: World, next: Db, batch: Uuid, verdict: Disposition, p: Uuid)
    requires IntentRowsOk(w.db) && TransitionRowsOk(w.db) && batch in w.db.batches && w.db.batches[batch].plugin != p
    requires ArtifactsElsewhere(w.db.artifacts, next.artifacts, batch)
    requires IntentEffect(w.db.intents, next.intents, batch, verdict) &&
             VersionEffect(w.db, next.versions, batch, verdict)
    requires TransitionEffect(w.db.transitions, next.transitions, batch, verdict) &&
             BatchEffect(w.db.batches, next.batches, batch, verdict)
    requires p in w.sessions && SessionOk(w.db, w.refs, w.disk, p, w.sessions[p])
    ensures SessionOk(next, w.refs, w.disk, p, w.sessions[p])
  {
    match w.sessions[p].phase
    case Opened =>
    case Applied(prepared) => if prepared.Some? { ElsewhereStaged(w.db, next, batch, verdict, prepared.value); }
    case Applying(commands, prepared) =>
      forall command | command in commands ensures CommandCovered(next, p, command, prepared) {
        SettledCovered(w.db, next, batch, verdict, p, command, prepared);
      }
      if prepared.Some? {
        SameRefs(w.db, next, w.refs, batch, verdict, prepared.value);
        SettledPushed(w.db, next, batch, verdict, prepared.value, commands);
        SettledStoredBatch(w.db, next, w.disk, batch, verdict, prepared.value);
        ElsewhereStaged(w.db, next, batch, verdict, prepared.value);
      }
  }

  lemma SettledSessions(w: World, next: Db, batch: Uuid, verdict: Disposition)
    requires IntentRowsOk(w.db) && TransitionRowsOk(w.db) && SessionsOk(w) &&
             ArtifactsElsewhere(w.db.artifacts, next.artifacts, batch)
    requires batch in w.db.batches && w.db.batches[batch].plugin !in w.sessions
    requires IntentEffect(w.db.intents, next.intents, batch, verdict) &&
             VersionEffect(w.db, next.versions, batch, verdict)
    requires TransitionEffect(w.db.transitions, next.transitions, batch, verdict) &&
             BatchEffect(w.db.batches, next.batches, batch, verdict)
    ensures SessionsOk(w.(db := next))
  {
    forall p | p in w.sessions ensures SessionOk(next, w.refs, w.disk, p, w.sessions[p]) {
      SettledSession(w, next, batch, verdict, p);
    }
  }

  // ---- The whole invariant

  /** An intent changes its ref, so a batch is never both applied and untouched. */
  lemma NewIsNotOld(db: Db, objects: Objects, refs: map<TagKey, ObjectId>, id: IntentId)
    requires IntentFactsOk(db, objects) && id in db.intents && RefsNew(db, refs, id.batch)
    ensures !RefsOld(db, refs, id.batch)
  {
    assert IntentFacts(db.intents[id], objects);
    assert RefIs(refs, db.intents[id].key, db.intents[id].newObject);
  }

  lemma NewRefsStored(w: World, batch: Uuid)
    requires RowsOk(w.db) && IntentsOk(w.db, w.objects) && GitOk(w) && OpenBatch(w.db, batch) &&
             RefsNew(w.db, w.refs, batch)
    ensures BatchStored(w.db, w.disk, batch)
  {
    forall t | t in w.db.transitions && t.intent.batch == batch
        ensures t.intent in w.db.intents && StagedStored(w.db, w.disk, t) {
      assert TransitionOpen(w.db.transitions[t].state);
      NewIsNotOld(w.db, w.objects, w.refs, t.intent);
    }
  }

  lemma SettlingKeepsInvariant(w: World, next: Db, batch: Uuid, verdict: Disposition)
    requires Inv(w) && OpenBatch(w.db, batch) && w.db.batches[batch].plugin !in w.sessions
    requires SettledEffect(w.db, next, batch, verdict) && VerdictFits(w.db, w.refs, batch, verdict)
    ensures Inv(w.(db := next))
  {
    if verdict == ReceiveCompleted { NewRefsStored(w, batch); }
    SettledRows(w.db, next, batch, verdict);
    SettledIntents(w.db, next, w.objects, batch, verdict);
    SettledProjections(w.db, next, w.disk, batch, verdict);
    SettledTables(w.db, next, w.objects, batch, verdict);
    SettledGit(w, next, batch, verdict);
    SettledSessions(w, next, batch, verdict);
  }
}
