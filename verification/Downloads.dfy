/** What a push does to downloads: a committed move serves the new projection, a committed deletion is gone
    for good, and a push that Git refused leaves every answer as it was. */
module Downloads {
  import opened Wrappers
  import opened Tables
  import opened Classification
  import opened Receive
  import opened Lifecycle
  import opened Answers
  import opened World
  import opened Invariant
  import opened Settlement
  import opened SettlementSafety
  import opened SettlementInvariant
  import opened Resolution
  import opened ResolutionSafety
  import opened Planning
  import opened Persisting
  import opened PrepareSafety
  import opened PrepareStep
  import opened ApplyStep
  import opened Safety
  import opened Evolution
  import opened Serving
  import opened Guarantees
  import Acceptance

  // ---- Answers that say the Version is gone

  /** Some Marketplace revision, active or not, lists the distribution under its tag. */
  ghost predicate Listed(db: Db, id: Uuid) {
    id in db.population.distributions &&
    exists item | item in db.population.items ::
        item.distribution == id && item.key == db.population.distributions[id].key
  }

  lemma DeletedIsTombstone(db: Db, objects: Objects, key: TagKey)
    requires VersionFactsOk(db.versions, objects) && HistoryOk(db)
    ensures Replay(db.history, key) == Tombstone <==> key in db.versions && db.versions[key].status == Deleted
  {
    if key in db.versions { assert VersionFacts(db.versions[key], objects); }
  }

  lemma GoneAt(db: Db, id: Uuid)
    ensures FindActivePlugin(db, id) == Gone <==>
            Visible(db, id) && Listed(db, id) &&
            var key := db.population.distributions[id].key; key in db.versions && db.versions[key].status.Deleted?
  {
    WithdrawnExactly(db, id);
  }

  /** After any run, a visible and listed download is answered as gone exactly when the history of its
      tag ends in a deletion. */
  lemma GoneExactly(start: World, events: seq<Event>, id: Uuid)
    requires Inv(start)
    ensures var db := Run(start, events).db;
            FindActivePlugin(db, id) == Gone <==>
              Visible(db, id) && Listed(db, id) &&
                  Replay(db.history, db.population.distributions[id].key) == Tombstone
  {
    RunKeepsInvariant(start, events);
    var w := Run(start, events);
    GoneAt(w.db, id);
    if Visible(w.db, id) { DeletedIsTombstone(w.db, w.objects, w.db.population.distributions[id].key); }
  }

  // ---- A push that Git committed

  /** The plugin rows of a download differ at most in their default. */
  ghost predicate SamePlugins(db: Db, next: Db) {
    next.population == db.population && next.plugins.Keys == db.plugins.Keys &&
    forall p | p in db.plugins :: next.plugins[p] == db.plugins[p].(defaultTag := next.plugins[p].defaultTag)
  }

  lemma SettledPlugins(db: Db, next: Db, batch: Uuid, verdict: Disposition)
    requires next.population == db.population && PluginEffect(db, next.plugins, batch, verdict)
    ensures SamePlugins(db, next)
  {
  }

  lemma StillVisible(db: Db, next: Db, id: Uuid)
    requires SamePlugins(db, next)
    ensures Visible(next, id) <==> Visible(db, id)
  {
  }

  /** The transition that a batch has opened for the published pointer of a tag. */
  lemma PublishedTransition(db: Db, batch: Uuid, key: TagKey, revision: Uuid)
    requires RowsOk(db) && SelectionOk(db) && StagedOk(db) && OpenBatch(db, batch)
    requires IntentId(batch, key.tag) in db.intents && db.intents[IntentId(batch, key.tag)].key == key
    requires PointerId(revision, key) in db.pointers
    ensures Owns(db.transitions, batch, PointerId(revision, key))
    ensures var id := IntentId(batch, key.tag);
            var t := TransitionId(id, revision);
            t in db.transitions && (db.intents[id].operation == Move ==>
                db.transitions[t].staged == Some(StagedFor(t)) && StagedRowOk(db, t))
  {
    var id := IntentId(batch, key.tag);
    assert IsUnresolved(db.intents[id].state) && revision in db.intents[id].revisions;
    assert TransitionId(id, revision) in db.transitions &&
           TransitionUnresolved(db.transitions[TransitionId(id, revision)].state);
  }

  lemma MovedArtifact(db: Db, next: Db, objects: Objects, batch: Uuid, key: TagKey, revision: Uuid)
    requires RowsOk(db) && SelectionOk(db) && StagedOk(db) && UnresolvedExpected(db) && OpenBatch(db, batch)
    requires IntentFactsOk(db, objects)
    requires IntentId(batch, key.tag) in db.intents && db.intents[IntentId(batch, key.tag)].key == key
    requires db.intents[IntentId(batch, key.tag)].operation == Move && PointerId(revision, key) in db.pointers
    requires PointerEffect(db, next.pointers, batch, ReceiveCompleted) &&
             ArtifactEffect(db, next.artifacts, batch, ReceiveCompleted)
    requires VersionEffect(db, next.versions, batch, ReceiveCompleted)
    ensures var t := TransitionId(IntentId(batch, key.tag), revision);
            ServedArtifact(next, key, revision) == Some(StagedFor(t)) && StagedFor(t) in next.artifacts &&
                next.artifacts[StagedFor(t)].storage == BuiltFor(t)
  {
    var id := IntentId(batch, key.tag);
    PublishedTransition(db, batch, key, revision);
    SettledVersions(db, next, batch, id);
    assert IntentFacts(db.intents[id], objects);
    assert next.artifacts[StagedFor(TransitionId(id, revision))] == db.artifacts[StagedFor(TransitionId(id,
           revision))].(state := Ready);
  }

  lemma ServedWhenOffered(db: Db, id: Uuid, revision: Uuid)
    requires Offered(db, id, revision) && ServedArtifact(db, db.population.distributions[id].key, revision).Some?
    ensures FindActivePlugin(db, id) == Granted(db.artifacts[ServedArtifact(db, db.population.distributions[id].key,
            revision).value].storage)
  {
    OfferedIsSelected(db, id, revision);
  }

  lemma StillOffered(db: Db, next: Db, id: Uuid, revision: Uuid)
    requires SamePlugins(db, next) && next.pointers.Keys == db.pointers.Keys && Offered(db, id, revision)
    ensures Offered(next, id, revision)
  {
    StillVisible(db, next, id);
  }

  lemma AppliedRight(w: World, plugin: Uuid, commands: seq<RefCommand>, batch: Uuid)
    requires Inv(w) && plugin in w.sessions && w.sessions[plugin].phase == Applying(commands, Some(batch)) &&
             CanSwap(w.refs, plugin, commands)
    ensures OpenBatch(w.db, batch) && BatchStored(w.db, w.disk, batch)
    ensures DoApply(w, plugin, true) == Enter(w.(refs := Swap(w.refs, plugin, commands)), plugin, Applied(Some(batch)))
    ensures Inv(DoApply(w, plugin, true)) && RefsNew(w.db, Swap(w.refs, plugin, commands), batch)
  {
    assert SessionOk(w.db, w.refs, w.disk, plugin, w.sessions[plugin]);
    AppliedRefs(w, plugin, commands, batch);
    SwappingKeepsInvariant(w, plugin);
  }

  lemma FinalizingKeepsDisk(w: World, plugin: Uuid, prepared: Option<Uuid>, holds: bool)
    requires plugin in w.sessions
    ensures DoFinalize(w, plugin, prepared, holds).disk == w.disk
  {
  }

  lemma CommittedSettles(w: World, plugin: Uuid, commands: seq<RefCommand>, batch: Uuid, holds: bool) returns (next: Db)
    requires Inv(w) && plugin in w.sessions && w.sessions[plugin].phase == Applying(commands, Some(batch))
    requires CanSwap(w.refs, plugin, commands) && StagedIntact(w.db, w.disk, batch)
    ensures OpenBatch(w.db, batch) && BatchStored(w.db, w.disk, batch) &&
            SettledEffect(w.db, next, batch, ReceiveCompleted)
    ensures var after := DoFinalize(DoApply(w, plugin, true), plugin, Some(batch), holds);
            after.db == next && after.disk == w.disk
  {
    AppliedRight(w, plugin, commands, batch);
    FinalizedSettles(DoApply(w, plugin, true), plugin, batch, holds);
    FinalizingKeepsDisk(DoApply(w, plugin, true), plugin, Some(batch), holds);
    next := DoFinalize(DoApply(w, plugin, true), plugin, Some(batch), holds).db;
  }

  /** When Git commits a move whose projections are intact, every offered download of the tag is granted the
      projection the push built for it, which is stored and of the new commit. */
  lemma MovedIsServed(w: World, plugin: Uuid, commands: seq<RefCommand>, batch: Uuid, id: Uuid, revision: Uuid,
          holds: bool)
    requires Inv(w) && plugin in w.sessions && w.sessions[plugin].phase == Applying(commands, Some(batch))
    requires CanSwap(w.refs, plugin, commands) && StagedIntact(w.db, w.disk, batch) && Offered(w.db, id, revision)
    requires var key := w.db.population.distributions[id].key;
             IntentId(batch, key.tag) in w.db.intents && w.db.intents[IntentId(batch, key.tag)].key == key &&
             w.db.intents[IntentId(batch, key.tag)].operation == Move
    ensures var after := DoFinalize(DoApply(w, plugin, true), plugin, Some(batch), holds);
            var intent := IntentId(batch, w.db.population.distributions[id].key.tag);
            var built := BuiltFor(TransitionId(intent, revision));
            FindActivePlugin(after.db, id) == Granted(built) && built in after.disk &&
                Some(after.disk[built].commit) == w.db.intents[intent].newCommit
  {
    var key := w.db.population.distributions[id].key;
    var next := CommittedSettles(w, plugin, commands, batch, holds);
    MovedArtifact(w.db, next, w.objects, batch, key, revision);
    SettledPlugins(w.db, next, batch, ReceiveCompleted);
    StillOffered(w.db, next, id, revision);
    ServedWhenOffered(next, id, revision);
    PublishedTransition(w.db, batch, key, revision);
    assert StagedStored(w.db, w.disk, TransitionId(IntentId(batch, key.tag), revision));
  }

  lemma DeletedAnswer(db: Db, next: Db, batch: Uuid, id: Uuid)
    requires IntentRowsOk(db) && UnresolvedExpected(db) && OpenBatch(db, batch) &&
             SettledEffect(db, next, batch, ReceiveCompleted)
    requires Visible(db, id) && Listed(db, id)
    requires var key := db.population.distributions[id].key;
             IntentId(batch, key.tag) in db.intents && db.intents[IntentId(batch, key.tag)].key == key &&
             db.intents[IntentId(batch, key.tag)].operation == Delete
    ensures FindActivePlugin(next, id) == Gone
  {
    SettledVersions(db, next, batch, IntentId(batch, db.population.distributions[id].key.tag));
    SettledPlugins(db, next, batch, ReceiveCompleted);
    StillVisible(db, next, id);
    GoneAt(next, id);
  }

  /** When Git commits a deletion, every visible and listed download of the tag is gone. */
  lemma DeletedIsGone(w: World, plugin: Uuid, commands: seq<RefCommand>, batch: Uuid, id: Uuid, holds: bool)
    requires Inv(w) && plugin in w.sessions && w.sessions[plugin].phase == Applying(commands, Some(batch))
    requires CanSwap(w.refs, plugin, commands) && StagedIntact(w.db, w.disk, batch) && Visible(w.db, id) &&
             Listed(w.db, id)
    requires var key := w.db.population.distributions[id].key;
             IntentId(batch, key.tag) in w.db.intents && w.db.intents[IntentId(batch, key.tag)].key == key &&
             w.db.intents[IntentId(batch, key.tag)].operation == Delete
    ensures FindActivePlugin(DoFinalize(DoApply(w, plugin, true), plugin, Some(batch), holds).db, id) == Gone
  {
    var next := CommittedSettles(w, plugin, commands, batch, holds);
    DeletedAnswer(w.db, next, batch, id);
  }

  // ---- A push that Git refused

  /** Only the rows that record the push are new. */
  ghost predicate OnlyRecorded(db: Db, next: Db) {
    next.population == db.population && next.plugins == db.plugins && next.versions == db.versions &&
        next.history == db.history &&
    next.pointers == db.pointers &&
        (forall a | a in db.artifacts :: a in next.artifacts && next.artifacts[a] == db.artifacts[a])
  }

  lemma AbortedPointer(db: Db, mid: Db, after: Pointers, objects: Objects, plugin: Uuid, batch: Uuid, tags: seq<Tag>,
          pid: PointerId)
    requires IntentsGrown(db, mid.intents, objects, plugin, batch, tags)
    requires TransitionsGrown(mid.intents, db.pointers, db.transitions, mid.transitions, batch)
    requires PointersGrown(mid.transitions, db.pointers, mid.pointers, batch) &&
             PointerEffect(mid, after, batch, ReceiveAborted)
    requires pid in db.pointers
    ensures pid in after && after[pid] == db.pointers[pid]
  {
    var t := OwnerOf(batch, pid);
    if Owns(mid.transitions, batch, pid) {
      assert t !in db.transitions && t.intent in mid.intents && t.intent !in db.intents;
      assert IntentSound(db, objects, plugin, t.intent.tag, mid.intents[t.intent]);
    }
  }

  lemma AbortedPointers(db: Db, mid: Db, after: Pointers, objects: Objects, plugin: Uuid, batch: Uuid, tags: seq<Tag>)
    requires IntentsGrown(db, mid.intents, objects, plugin, batch, tags)
    requires TransitionsGrown(mid.intents, db.pointers, db.transitions, mid.transitions, batch)
    requires PointersGrown(mid.transitions, db.pointers, mid.pointers, batch) &&
             PointerEffect(mid, after, batch, ReceiveAborted)
    ensures after == db.pointers
  {
    forall pid | pid in db.pointers ensures pid in after && after[pid] == db.pointers[pid] {
      AbortedPointer(db, mid, after, objects, plugin, batch, tags, pid);
    }
  }

  lemma AbortedRecords(db: Db, mid: Db, next: Db, objects: Objects, plugin: Uuid, session: Uuid, batch: Uuid,
          tags: seq<Tag>, builds: Builds)
    requires PreparedEffect(db, mid, objects, plugin, session, batch, tags, builds) &&
             SettledEffect(mid, next, batch, ReceiveAborted)
    ensures OnlyRecorded(db, next)
  {
    AbortedPointers(db, mid, next.pointers, objects, plugin, batch, tags);
    assert next.versions == db.versions && next.plugins == db.plugins;
  }

  lemma SameAnswer(db: Db, next: Db, disk: map<StorageKey, Projection>, id: Uuid)
    requires PointersOk(db, disk) && OnlyRecorded(db, next)
    ensures FindActivePlugin(next, id) == FindActivePlugin(db, id)
  {
    assert Disclosed(next, id) == Disclosed(db, id);
    if Disclosed(db, id) {
      var distribution := db.population.distributions[id];
      var published := db.population.templates[distribution.template].published;
      if published.Some? && PointerId(published.value, distribution.key) in db.pointers {
        var pointer := db.pointers[PointerId(published.value, distribution.key)];
        if pointer.artifact.Some? { assert PointedAt(db, disk, PointerId(published.value, distribution.key),
            pointer.artifact.value); }
      }
    }
  }

  lemma AbortedRows(w: World, batch: Uuid, holds: bool) returns (next: Db)
    requires Inv(w) && OpenBatch(w.db, batch) && !RefsNew(w.db, w.refs, batch)
    ensures Meaning(PreparedOf(w.db, batch), Observed(w, batch)) == ReceiveAborted
    ensures ResolveRows(w.db, w.disk, batch, Some(ReceiveAborted), Observed(w, batch), holds) == (next, Resolved)
    ensures SettledEffect(w.db, next, batch, ReceiveAborted)
  {
    InvResolvable(w, batch);
    next := ResolveAccepted(w, batch, Some(ReceiveAborted), holds);
  }

  lemma RefusedFinalizes(w: World, plugin: Uuid, batch: Uuid, holds: bool)
    requires Inv(w) && plugin in w.sessions && w.sessions[plugin].phase == Applied(Some(batch)) &&
             !RefsNew(w.db, w.refs, batch)
    ensures Finishing(w, plugin, Some(batch), holds).1 == Resolved
    ensures SettledEffect(w.db, DoFinalize(w, plugin, Some(batch), holds).db, batch, ReceiveAborted)
    ensures DoFinalize(w, plugin, Some(batch), holds).refs == w.refs
  {
    HeldOpen(w, plugin, batch);
    var next := AbortedRows(w, batch, holds);
    FinishesWith(w, plugin, batch, holds, ReceiveAborted, next, Resolved);
  }

  lemma RefusedSettles(w: World, plugin: Uuid, commands: seq<RefCommand>, batch: Uuid, holds: bool) returns (next: Db)
    requires Inv(w) && plugin in w.sessions && w.sessions[plugin].phase == Applying(commands, Some(batch))
    ensures SettledEffect(w.db, next, batch, ReceiveAborted)
    ensures plugin in DoApply(w, plugin, false).sessions
    ensures Finishing(DoApply(w, plugin, false), plugin, Some(batch), holds).1 == Resolved
    ensures var after := DoFinalize(DoApply(w, plugin, false), plugin, Some(batch), holds);
            after.db == next && after.refs == w.refs
  {
    assert SessionOk(w.db, w.refs, w.disk, plugin, w.sessions[plugin]);
    OneVerdict(w, batch);
    ApplyKeepsInvariant(w, plugin, false);
    RefusedFinalizes(DoApply(w, plugin, false), plugin, batch, holds);
    next := DoFinalize(DoApply(w, plugin, false), plugin, Some(batch), holds).db;
  }

  /** The state in which Git is asked to apply a prepared push. */
  lemma PreparedState(w: World, plugin: Uuid, commands: seq<RefCommand>, batch: Uuid, builds: Builds) returns (mid: Db)
    requires Inv(w) && Preparable(w, plugin, commands, batch) && PlansOf(w, plugin, commands, batch, builds) != []
    ensures PreparedEffect(w.db, mid, w.objects, plugin, w.sessions[plugin].id, batch,
            PlanTags(PlansOf(w, plugin, commands, batch, builds)), builds)
    ensures var prepared := DoPrepare(w, plugin, commands, batch, builds, Loads);
            prepared.db == mid && prepared.refs == w.refs && Inv(prepared) &&
            plugin in prepared.sessions && prepared.sessions[plugin].phase == Applying(commands, Some(batch))
  {
    mid := PersistedEffect(w, plugin, w.sessions[plugin].id, commands, batch, builds);
    PreparesPlans(w, plugin, commands, batch, builds, Loads, mid);
    PrepareKeepsInvariant(w, plugin, commands, batch, builds, Loads);
  }

  /** A push that Git refuses is resolved, and changes no ref, no Version, no pointer, no Plugin and no history,
      from before it was prepared to after it was resolved, and every download is answered as before. */
  lemma RefusedChangesNothing(w: World, plugin: Uuid, commands: seq<RefCommand>, batch: Uuid, builds: Builds, id: Uuid,
          holds: bool)
    requires Inv(w) && Preparable(w, plugin, commands, batch) &&
             Acceptance.Accepted(w, plugin, commands, batch, builds)
    ensures var prepared := DoPrepare(w, plugin, commands, batch, builds, Loads);
            plugin in prepared.sessions && plugin in DoApply(prepared, plugin, false).sessions &&
            var after := DoFinalize(DoApply(prepared, plugin, false), plugin, Some(batch), holds);
            Finishing(DoApply(prepared, plugin, false), plugin, Some(batch), holds).1 == Resolved &&
            OnlyRecorded(w.db, after.db) && after.refs == w.refs &&
                FindActivePlugin(after.db, id) == FindActivePlugin(w.db, id)
  {
    Acceptance.PlansExactly(w, plugin, commands, batch, builds);
    var mid := PreparedState(w, plugin, commands, batch, builds);
    var next := RefusedSettles(DoPrepare(w, plugin, commands, batch, builds, Loads), plugin, commands, batch, holds);
    AbortedRecords(w.db, mid, next, w.objects, plugin, w.sessions[plugin].id, batch,
        PlanTags(PlansOf(w, plugin, commands, batch, builds)), builds);
    SameAnswer(w.db, next, w.disk, id);
  }
}
