/** What a user of the system can rely on: agreement between Git and the Versions, the lifecycle of a
    Plugin, and the effect of a push that goes through. */
module Guarantees {
  import opened Wrappers
  import opened Tables
  import opened Classification
  import opened Receive
  import opened Lifecycle
  import opened World
  import opened Invariant
  import opened Settlement
  import opened SettlementSafety
  import opened SettlementInvariant
  import opened Resolution
  import opened ResolutionSafety
  import opened ApplyStep
  import opened ServiceSteps
  import opened Safety
  import opened Evolution

  /** After any run, an available Version that no push is holding is the Version Git has, and the refs of
      a batch that is not decided are all at their old or all at their new values, never mixed. */
  lemma GitAgrees(start: World, events: seq<Event>, key: TagKey, batch: Uuid)
    requires Inv(start)
    ensures var w := Run(start, events);
            key in w.db.versions && w.db.versions[key].status == Available && !Blocked(w.db, key) ==>
              key in w.refs && w.db.versions[key].raw == Some(w.refs[key])
    ensures var w := Run(start, events);
            batch in w.db.batches && IsUnresolved(w.db.batches[batch].state) ==>
              RefsOld(w.db, w.refs, batch) || RefsNew(w.db, w.refs, batch)
  {
    RunKeepsInvariant(start, events);
  }

  /** After any run, the default names an available Version, a Plugin is archived exactly when it remembers
      what it was archived from, and it is a draft, or archived from one, exactly when it has no Version. */
  lemma LifecycleHolds(start: World, events: seq<Event>, plugin: Uuid)
    requires Inv(start)
    ensures var db := Run(start, events).db;
            plugin in db.plugins ==>
              var row := db.plugins[plugin];
              (row.defaultTag.Some? ==>
                TagKey(plugin, row.defaultTag.value) in db.versions &&
                    db.versions[TagKey(plugin, row.defaultTag.value)].status == Available) &&
              (row.status == Archived <==> row.archivedFrom.Some?) &&
              (row.status == Draft || row.archivedFrom == Some(Draft) <==>
                  !exists key | key in db.versions :: key.plugin == plugin)
  {
    RunKeepsInvariant(start, events);
    var db := Run(start, events).db;
    if plugin in db.plugins { assert PluginOk(db.versions, plugin, db.plugins[plugin]); }
  }

  /** Restoring undoes archiving, for every Plugin that was not archived already. */
  lemma RestoreUndoesArchive(db: Db, plugin: Uuid)
    requires plugin in db.plugins && (db.plugins[plugin].status == Archived <==> db.plugins[plugin].archivedFrom.Some?)
    ensures Restore(Archive(db, plugin).0, plugin) == (db, Done) <==> db.plugins[plugin].status != Archived
  {
    var archived := Archive(db, plugin).0;
    if db.plugins[plugin].status != Archived {
      var row := db.plugins[plugin];
      assert archived.plugins[plugin].(status := row.status, archivedFrom := None) == row;
      assert Restore(archived, plugin).0.plugins == db.plugins;
    }
  }

  /** Clearing the default undoes setting it, for a Plugin that had none, and setting it changes nothing else. */
  lemma DefaultRoundTrip(db: Db, key: TagKey)
    requires SetDefault(db, key).1.Done?
    ensures var next := SetDefault(db, key).0;
            key.plugin in db.plugins && key in db.versions && db.versions[key].status == Available &&
            next.plugins == db.plugins[key.plugin := db.plugins[key.plugin].(defaultTag := Some(key.tag))] &&
                next.(plugins := db.plugins) == db &&
            (ClearDefaultVersion(next, key.plugin) == (db, Done) <==> db.plugins[key.plugin].defaultTag.None?)
  {
    var next := SetDefault(db, key).0;
    var cleared := ClearDefaultVersion(next, key.plugin).0;
    assert PluginBlocked(next, key.plugin) <==> PluginBlocked(db, key.plugin);
    assert cleared.plugins[key.plugin] == db.plugins[key.plugin].(defaultTag := None);
    if db.plugins[key.plugin].defaultTag.None? { assert cleared.plugins == db.plugins; }
  }

  /** Publishing a tag again, while Git still has it, changes nothing and adds no history. */
  lemma RepublishChangesNothing(w: World, key: TagKey, makeDefault: bool)
    requires Publish(w.db, w.refs, w.objects, key, makeDefault).1.Done?
    ensures var next := Publish(w.db, w.refs, w.objects, key, makeDefault).0;
            Publish(next, w.refs, w.objects, key, makeDefault) == (next, Done)
  {
    PublishSucceeds(w, key, makeDefault);
    var next := Publish(w.db, w.refs, w.objects, key, makeDefault).0;
    assert PluginBlocked(next, key.plugin) <==> PluginBlocked(w.db, key.plugin);
    PublishesAgain(w.(db := next), key, Inspect(w.refs, w.objects, key).value, makeDefault);
  }

  lemma PublishesAgain(w: World, key: TagKey, inspection: Inspection, makeDefault: bool)
    requires key.plugin in w.db.plugins && w.db.plugins[key.plugin].status == Active &&
             RepositoryReadyFor(w.db, key.plugin)
    requires Inspect(w.refs, w.objects, key) == Some(inspection) && ValidInspection(inspection) &&
             !PluginBlocked(w.db, key.plugin)
    requires key in w.db.versions && w.db.versions[key] == PublishedVersion(inspection)
    requires makeDefault ==> w.db.plugins[key.plugin].defaultTag == Some(key.tag)
    ensures Publish(w.db, w.refs, w.objects, key, makeDefault) == (w.db, Done)
  {
    assert w.db.versions[key := PublishedVersion(inspection)] == w.db.versions;
    assert w.db.plugins[key.plugin := w.db.plugins[key.plugin]] == w.db.plugins;
  }

  // ---- A push that goes through

  /** After Git answered, the prepared batch classifies as completed when the transaction committed, and as
      aborted when it did not. */
  lemma VerdictFollowsGit(w: World, plugin: Uuid, commands: seq<RefCommand>, batch: Uuid, commits: bool)
    requires Inv(w) && plugin in w.sessions && w.sessions[plugin].phase == Applying(commands, Some(batch))
    ensures var after := DoApply(w, plugin, commits);
            batch in after.db.batches &&
            Meaning(PreparedOf(after.db, batch), Observed(after, batch)) ==
              if commits && CanSwap(w.refs, plugin, commands) then ReceiveCompleted else ReceiveAborted
  {
    AppliedRefs(w, plugin, commands, batch);
    OneVerdict(w, batch);
    MeaningOfRefs(DoApply(w, plugin, commits), batch);
    assert SessionOk(w.db, w.refs, w.disk, plugin, w.sessions[plugin]);
  }

  /** Git applies a push exactly when it commits and every ref has the value the push expects; then every pushed
      ref has its new value and every other ref is as it was, and otherwise no ref has changed. */
  lemma AppliesExactly(w: World, plugin: Uuid, commands: seq<RefCommand>, prepared: Option<Uuid>, commits: bool)
    requires plugin in w.sessions && w.sessions[plugin].phase == Applying(commands, prepared) && WellFormed(commands)
    ensures var after := DoApply(w, plugin, commits);
            after == w.(refs := after.refs,
                        sessions := w.sessions[plugin := Session(w.sessions[plugin].id, Applied(prepared))]) &&
            if commits && forall c | c in commands ::
                 var key := TagKey(plugin, c.tag);
                 if c.oldObject.Zero? then key !in w.refs else key in w.refs && w.refs[key] == c.oldObject
            then
              (forall c | c in commands ::
                 var key := TagKey(plugin, c.tag);
                 if c.newObject.Zero? then key !in after.refs
                 else key in after.refs && after.refs[key] == c.newObject) &&
              forall key: TagKey | key.plugin != plugin || forall c | c in commands :: c.tag != key.tag ::
                (key in after.refs <==> key in w.refs) && (key in w.refs ==> after.refs[key] == w.refs[key])
            else after.refs == w.refs
  {
    SwapEffect(w.refs, plugin, commands);
    assert CanSwap(w.refs, plugin, commands) <==> forall c | c in commands ::
        var key := TagKey(plugin, c.tag);
        if c.oldObject.Zero? then key !in w.refs else key in w.refs && w.refs[key] == c.oldObject;
  }

  lemma AppliedRefs(w: World, plugin: Uuid, commands: seq<RefCommand>, batch: Uuid)
    requires Inv(w) && plugin in w.sessions && w.sessions[plugin].phase == Applying(commands, Some(batch))
    ensures OpenBatch(w.db, batch) && RefsNew(w.db, Swap(w.refs, plugin, commands), batch)
    ensures Swapped(w.refs, Swap(w.refs, plugin, commands), plugin, commands)
  {
    assert SessionOk(w.db, w.refs, w.disk, plugin, w.sessions[plugin]);
    SwapEffect(w.refs, plugin, commands);
    SwappedOwn(w.db, w.refs, Swap(w.refs, plugin, commands), plugin, commands, batch);
  }

  lemma CompletedRows(w: World, batch: Uuid, holds: bool) returns (next: Db)
    requires Inv(w) && OpenBatch(w.db, batch) && RefsNew(w.db, w.refs, batch) && Completable(w.db, w.disk, batch)
    ensures Meaning(PreparedOf(w.db, batch), Observed(w, batch)) == ReceiveCompleted
    ensures ResolveRows(w.db, w.disk, batch, Some(ReceiveCompleted), Observed(w, batch), holds) == (next, Resolved)
    ensures SettledEffect(w.db, next, batch, ReceiveCompleted)
  {
    InvResolvable(w, batch);
    next := ResolveAccepted(w, batch, Some(ReceiveCompleted), holds);
  }

  lemma FinalizedSettles(w: World, plugin: Uuid, batch: Uuid, holds: bool)
    requires Inv(w) && plugin in w.sessions && w.sessions[plugin].phase == Applied(Some(batch))
    requires RefsNew(w.db, w.refs, batch) && StagedIntact(w.db, w.disk, batch)
    ensures Finishing(w, plugin, Some(batch), holds).1 == Resolved
    ensures SettledEffect(w.db, DoFinalize(w, plugin, Some(batch), holds).db, batch, ReceiveCompleted)
    ensures DoFinalize(w, plugin, Some(batch), holds).refs == w.refs
  {
    HeldOpen(w, plugin, batch);
    var next := CompletedRows(w, batch, holds);
    FinishesWith(w, plugin, batch, holds, ReceiveCompleted, next, Resolved);
  }

  lemma FinishesWith(w: World, plugin: Uuid, batch: Uuid, holds: bool, verdict: Disposition, next: Db,
          status: ResolveStatus)
    requires plugin in w.sessions && w.sessions[plugin].phase == Applied(Some(batch))
    requires OpenBatch(w.db, batch) && w.db.batches[batch].plugin == plugin &&
             w.db.batches[batch].session == w.sessions[plugin].id
    requires Meaning(PreparedOf(w.db, batch), Observed(w, batch)) == verdict
    requires ResolveRows(w.db, w.disk, batch, Some(verdict), Observed(w, batch), holds) == (next, status)
    ensures Finishing(w, plugin, Some(batch), holds) == (next, status)
    ensures DoFinalize(w, plugin, Some(batch), holds) == DropSession(w.(db := next), plugin)
  {
    FinalizeResolves(w, plugin, batch, holds);
  }

  lemma SettledVersions(db: Db, next: Db, batch: Uuid, id: IntentId)
    requires IntentRowsOk(db) && UnresolvedExpected(db) && OpenBatch(db, batch) && id in db.intents && id.batch == batch
    requires VersionEffect(db, next.versions, batch, ReceiveCompleted)
    ensures db.intents[id].key in next.versions && next.versions[db.intents[id].key] == VersionAfter(db.intents[id])
  {
    assert VersionExpected(db, db.intents[id]);
    assert OwnsKey(db.intents, batch, db.intents[id].key);
  }

  /** When Git commits a push whose projections are intact, the session ends resolved, with every pushed ref at
      its new value, the batch completed, and every Version the batch names available with what its intent
      proposed, or deleted with nothing, while every other Version is as it was. */
  lemma CommittedPush(w: World, plugin: Uuid, commands: seq<RefCommand>, batch: Uuid, holds: bool)
    requires Inv(w) && plugin in w.sessions && w.sessions[plugin].phase == Applying(commands, Some(batch))
    requires CanSwap(w.refs, plugin, commands) && StagedIntact(w.db, w.disk, batch)
    ensures var applied := DoApply(w, plugin, true);
            var after := DoFinalize(applied, plugin, Some(batch), holds);
            Finishing(applied, plugin, Some(batch), holds).1 == Resolved && plugin !in after.sessions &&
            (forall command | command in commands ::
                RefIs(after.refs, TagKey(plugin, command.tag), RefValue(command.newObject))) &&
            batch in after.db.batches && after.db.batches[batch].state.Completed? &&
            after.db.versions.Keys == w.db.versions.Keys &&
            (forall key | key in w.db.versions &&
                (forall id | id in w.db.intents && id.batch == batch :: w.db.intents[id].key != key) ::
              after.db.versions[key] == w.db.versions[key]) &&
            forall id | id in w.db.intents && id.batch == batch ::
              var intent := w.db.intents[id];
              intent.key in after.db.versions &&
              after.db.versions[intent.key] ==
                if intent.operation.Move? then Version(Available, intent.newObject, intent.newCommit, intent.manifest)
                else Version(Deleted, None, None, None)
  {
    var applied := DoApply(w, plugin, true);
    AppliedRefs(w, plugin, commands, batch);
    SwappingKeepsInvariant(w, plugin);
    FinalizedSettles(applied, plugin, batch, holds);
    var after := DoFinalize(applied, plugin, Some(batch), holds);
    forall id | id in w.db.intents && id.batch == batch
      ensures w.db.intents[id].key in after.db.versions &&
              after.db.versions[w.db.intents[id].key] == VersionAfter(w.db.intents[id])
    {
      SettledVersions(w.db, after.db, batch, id);
    }
  }
}
