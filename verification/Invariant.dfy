/** The invariant of the machine in World, and the relation between two settled table states. */
module Invariant {
  import opened Wrappers
  import opened Tables
  import opened Classification
  import opened Receive
  import opened Lifecycle
  import opened World

  ghost predicate Distinct<T>(s: seq<T>) {
    forall i, j :: 0 <= i < j < |s| ==> s[i] != s[j]
  }

  // ---- Rows and their owners

  ghost predicate BatchRowsOk(db: Db) {
    forall b | b in db.batches ::
      db.batches[b].plugin in db.plugins && db.batches[b].plugin in db.population.repositories &&
      db.batches[b].tags != [] && Distinct(db.batches[b].tags) &&
      forall tag {:trigger IntentId(b, tag)} | tag in db.batches[b].tags :: IntentId(b, tag) in db.intents
  }

  ghost predicate IntentRowsOk(db: Db) {
    forall id | id in db.intents ::
      id.batch in db.batches && id.tag in db.batches[id.batch].tags &&
      db.intents[id].key == TagKey(db.batches[id.batch].plugin, id.tag) &&
      db.intents[id].state == db.batches[id.batch].state &&
      Distinct(db.intents[id].revisions) &&
      forall r {:trigger TransitionId(id, r)} | r in db.intents[id].revisions :: TransitionId(id, r) in db.transitions
  }

  ghost predicate StatesAgree(intent: ReceiveState, transition: TransitionState) {
    match intent
    case Completed => transition.TransitionCompleted?
    case Aborted => transition.TransitionAborted?
    case ManualRequired => transition.TransitionManual?
    case _ => TransitionOpen(transition)
  }

  ghost predicate TransitionRowsOk(db: Db) {
    forall id | id in db.transitions ::
      id.intent in db.intents && id.revision in db.intents[id.intent].revisions &&
      db.transitions[id].pointer == PointerId(id.revision, db.intents[id.intent].key) &&
      db.transitions[id].pointer in db.pointers &&
      StatesAgree(db.intents[id.intent].state, db.transitions[id].state) &&
      db.transitions[id].current.Some? &&
      db.transitions[id].staged == if db.intents[id.intent].operation == Move then Some(StagedFor(id)) else None
  }

  // ---- What an intent promises

  ghost predicate IntentFacts(intent: Intent, objects: Objects) {
    intent.oldObject.Object? &&
    match intent.operation
    case Move =>
      intent.newObject.Some? && intent.newObject.value.Object? &&
      intent.newObject.value != intent.oldObject && intent.newObject.value in objects.commits &&
      intent.newCommit == Some(objects.commits[intent.newObject.value]) &&
      intent.manifest.Some? && ManifestUsable(intent.manifest.value)
    case Delete => intent.newObject.None? && intent.newCommit.None? && intent.manifest.None?
  }

  ghost predicate IntentFactsOk(db: Db, objects: Objects) {
    forall id | id in db.intents :: IntentFacts(db.intents[id], objects)
  }

  ghost predicate UnresolvedExpected(db: Db) {
    forall id | id in db.intents && IsUnresolved(db.intents[id].state) :: VersionExpected(db, db.intents[id])
  }

  ghost predicate UnresolvedUnique(db: Db) {
    forall i, j | i in db.intents && j in db.intents && IsUnresolved(db.intents[i].state) &&
                  IsUnresolved(db.intents[j].state) && db.intents[i].key == db.intents[j].key :: i == j
  }

  /** An unresolved intent has a transition for every pointer on its tag. */
  ghost predicate SelectionOk(db: Db) {
    forall id, pid | id in db.intents && IsUnresolved(db.intents[id].state) && pid in db.pointers &&
        pid.key == db.intents[id].key ::
      pid.revision in db.intents[id].revisions
  }

  // ---- Projections: each is pointed at, staged, or collected

  ghost predicate FrozenOk(db: Db) {
    forall id | id in db.transitions && TransitionUnresolved(db.transitions[id].state) ::
      PointerFrozen(db, db.transitions[id])
  }

  ghost predicate StagedRowOk(db: Db, id: TransitionId)
    requires id in db.transitions && id.intent in db.intents
  {
    var aid := StagedFor(id);
    aid in db.artifacts && aid !in db.gc && db.artifacts[aid].kind.PluginKind? &&
    db.artifacts[aid].key == db.intents[id.intent].key && db.artifacts[aid].revision == id.revision &&
    Some(db.artifacts[aid].commit) == db.intents[id.intent].newCommit && db.artifacts[aid].storage == BuiltFor(id) &&
    (TransitionOpen(db.transitions[id].state) ==> !db.artifacts[aid].state.Ready?)
  }

  /** No projection that a batch staged was marked as failed. */
  ghost predicate StillStaged(db: Db, batch: Uuid) {
    forall id | id in db.transitions && id.intent.batch == batch && db.transitions[id].staged.Some? ::
      db.transitions[id].staged.value in db.artifacts && db.artifacts[db.transitions[id].staged.value].state.Staged?
  }

  ghost predicate StagedOk(db: Db) {
    forall id | id in db.transitions && TransitionUnresolved(db.transitions[id].state) &&
        db.transitions[id].staged.Some? ::
      id.intent in db.intents && StagedRowOk(db, id)
  }

  ghost predicate ArtifactsOk(db: Db) {
    (forall a | a in db.artifacts ::
        a.StagedFor? ==> a.transition in db.transitions && db.transitions[a.transition].staged == Some(a)) &&
    (forall a, c | a in db.artifacts && c in db.artifacts && db.artifacts[a].storage == db.artifacts[c].storage ::
        a == c) &&
    (forall a | a in db.artifacts :: db.artifacts[a].storage.BuiltFor? ==>
        db.artifacts[a].storage.transition in db.transitions) &&
    (forall a | a in db.gc :: a in db.artifacts)
  }

  ghost predicate PointedAt(db: Db, disk: map<StorageKey, Projection>, pid: PointerId, aid: ArtifactId) {
    aid in db.artifacts && aid !in db.gc && db.artifacts[aid].kind.PluginKind? && db.artifacts[aid].state.Ready? &&
    db.artifacts[aid].key == pid.key && db.artifacts[aid].revision == pid.revision &&
    db.artifacts[aid].storage in disk && disk[db.artifacts[aid].storage].commit == db.artifacts[aid].commit &&
    (aid.StagedFor? ==> aid.transition in db.transitions && db.transitions[aid.transition].state.TransitionCompleted?)
  }

  ghost predicate PointersOk(db: Db, disk: map<StorageKey, Projection>) {
    forall pid | pid in db.pointers ::
      (db.pointers[pid].available ==> db.pointers[pid].artifact.Some?) &&
      (db.pointers[pid].artifact.Some? ==> PointedAt(db, disk, pid, db.pointers[pid].artifact.value))
  }

  ghost predicate ItemsOk(population: Population, pointers: set<PointerId>) {
    (forall i, j :: 0 <= i < j < |population.items| ==>
      population.items[i].revision != population.items[j].revision ||
          population.items[i].key != population.items[j].key) &&
    forall pid | pid in pointers ::
      pid.revision in population.revisions &&
      exists i :: 0 <= i < |population.items| && population.items[i].revision == pid.revision &&
          population.items[i].key == pid.key
  }

  // ---- Versions against Git

  ghost predicate VersionFacts(version: Version, objects: Objects) {
    match version.status
    case Available =>
      version.raw.Some? && version.raw.value.Object? && version.raw.value in objects.commits &&
      version.commit == Some(objects.commits[version.raw.value]) && version.manifest.Some?
    case Deleted => version == DELETED_VERSION
  }

  ghost predicate VersionFactsOk(versions: map<TagKey, Version>, objects: Objects) {
    forall key | key in versions :: VersionFacts(versions[key], objects)
  }

  ghost predicate RefsOk(refs: map<TagKey, ObjectId>) {
    forall key | key in refs :: refs[key].Object?
  }

  ghost predicate AgreementOk(db: Db, refs: map<TagKey, ObjectId>) {
    forall key | key in db.versions && db.versions[key].status == Available && !Blocked(db, key) ::
      RefIs(refs, key, db.versions[key].raw)
  }

  ghost predicate RefsOld(db: Db, refs: map<TagKey, ObjectId>, batch: Uuid) {
    forall id | id in db.intents && id.batch == batch :: RefIs(refs, db.intents[id].key, Some(db.intents[id].oldObject))
  }

  ghost predicate RefsNew(db: Db, refs: map<TagKey, ObjectId>, batch: Uuid) {
    forall id | id in db.intents && id.batch == batch :: RefIs(refs, db.intents[id].key, db.intents[id].newObject)
  }

  ghost predicate BatchRefsOk(db: Db, refs: map<TagKey, ObjectId>) {
    forall b | b in db.batches && IsUnresolved(db.batches[b].state) :: RefsOld(db, refs, b) || RefsNew(db, refs, b)
  }

  ghost predicate StagedStored(db: Db, disk: map<StorageKey, Projection>, id: TransitionId)
    requires id in db.transitions && id.intent in db.intents
  {
    db.transitions[id].staged.Some? ==>
        BuiltFor(id) in disk && Some(disk[BuiltFor(id)].commit) == db.intents[id.intent].newCommit
  }

  /** Once Git may have applied a batch, everything it staged is stored. */
  ghost predicate StorageOk(db: Db, refs: map<TagKey, ObjectId>, disk: map<StorageKey, Projection>) {
    forall id | id in db.transitions && TransitionOpen(db.transitions[id].state) ::
      id.intent in db.intents && (RefsOld(db, refs, id.intent.batch) || StagedStored(db, disk, id))
  }

  // ---- Plugins

  ghost predicate HasVersion(versions: map<TagKey, Version>, plugin: Uuid) {
    exists key | key in versions :: key.plugin == plugin
  }

  ghost predicate PluginOk(versions: map<TagKey, Version>, plugin: Uuid, row: Plugin) {
    (row.defaultTag.Some? ==>
      TagKey(plugin, row.defaultTag.value) in versions &&
          versions[TagKey(plugin, row.defaultTag.value)].status == Available) &&
    (row.status == Archived <==> row.archivedFrom.Some?) && row.archivedFrom != Some(Archived) &&
    (row.status == Draft || row.archivedFrom == Some(Draft) <==> !HasVersion(versions, plugin))
  }

  ghost predicate PluginsOk(db: Db) {
    (forall plugin | plugin in db.plugins :: PluginOk(db.versions, plugin, db.plugins[plugin])) &&
    (forall key | key in db.versions :: key.plugin in db.plugins && key.plugin in db.population.repositories)
  }

  // ---- History

  /** The status and commit of a Version: absent, deleted, or available at a commit. */
  datatype Standing = Absent | Tombstone | At(commit: ObjectId)

  ghost function StandingOf(versions: map<TagKey, Version>, key: TagKey): Standing {
    if key !in versions then Absent
    else if versions[key].status == Deleted || versions[key].commit.None? then Tombstone
    else At(versions[key].commit.value)
  }

  ghost function StandingAfter(row: HistoryRow): Standing {
    if row.operation == Removed || row.newCommit.None? then Tombstone else At(row.newCommit.value)
  }

  /** Folds the rows of one tag, oldest first. */
  ghost function Replay(history: seq<HistoryRow>, key: TagKey): Standing {
    if history == [] then Absent else
    var last := history[|history| - 1];
    if last.key == key then StandingAfter(last) else Replay(history[..|history| - 1], key)
  }

  /** Whether a row continues from what stood just before it. */
  ghost predicate Continues(row: HistoryRow, before: Standing) {
    match row.operation
    case Published => before == Absent && row.oldCommit.None? && row.newCommit.Some?
    case Restored => before == Tombstone && row.oldCommit.None? && row.newCommit.Some?
    case Moved => row.oldCommit.Some? && before == At(row.oldCommit.value) && row.newCommit.Some?
    case Removed => row.oldCommit.Some? && before == At(row.oldCommit.value) && row.newCommit.None?
  }

  ghost predicate Chained(history: seq<HistoryRow>) {
    forall n :: 0 <= n < |history| ==> Continues(history[n], Replay(history[..n], history[n].key))
  }

  ghost function RowsFor(history: seq<HistoryRow>, id: IntentId): nat {
    if history == [] then 0
    else RowsFor(history[..|history| - 1], id) + if history[|history| - 1].intent == Some(id) then 1 else 0
  }

  ghost predicate Recorded(db: Db, id: IntentId) {
    id in db.intents && db.intents[id].state.Completed?
  }

  ghost predicate HistoryOk(db: Db) {
    Chained(db.history) &&
    (forall key :: Replay(db.history, key) == StandingOf(db.versions, key)) &&
    forall id :: RowsFor(db.history, id) == if Recorded(db, id) then 1 else 0
  }

  // ---- Sessions

  /** A pushed command on an available Version belongs to the session's own batch, with the same ref values. */
  ghost predicate CommandCovered(db: Db, plugin: Uuid, command: RefCommand, prepared: Option<Uuid>) {
    var key := TagKey(plugin, command.tag);
    key in db.versions && db.versions[key].status == Available ==>
      prepared.Some? && IntentId(prepared.value, command.tag) in db.intents &&
      var intent := db.intents[IntentId(prepared.value, command.tag)];
      intent.oldObject == command.oldObject && intent.newObject == RefValue(command.newObject)
  }

  ghost predicate BatchPushed(db: Db, batch: Uuid, commands: seq<RefCommand>) {
    forall id | id in db.intents && id.batch == batch :: exists command | command in commands :: command.tag == id.tag
  }

  ghost predicate PreparedHeld(db: Db, plugin: Uuid, session: Uuid, batch: Uuid) {
    batch in db.batches && db.batches[batch].plugin == plugin && IsOpen(db.batches[batch].state) &&
    db.batches[batch].session == session
  }

  ghost predicate BatchStored(db: Db, disk: map<StorageKey, Projection>, batch: Uuid) {
    forall id | id in db.transitions && id.intent.batch == batch ::
        id.intent in db.intents && StagedStored(db, disk, id)
  }

  ghost predicate SessionOk(db: Db, refs: map<TagKey, ObjectId>, disk: map<StorageKey, Projection>, plugin: Uuid,
          session: Session)
  {
    match session.phase
    case Opened => true
    case Applying(commands, prepared) =>
      WellFormed(commands) &&
      (forall command | command in commands :: CommandCovered(db, plugin, command, prepared)) &&
      (prepared.Some? ==>
        PreparedHeld(db, plugin, session.id, prepared.value) && RefsOld(db, refs, prepared.value) &&
        BatchPushed(db, prepared.value, commands) && BatchStored(db, disk, prepared.value) &&
            StillStaged(db, prepared.value))
    case Applied(prepared) => prepared.Some? ==>
        PreparedHeld(db, plugin, session.id, prepared.value) && StillStaged(db, prepared.value)
  }

  ghost predicate SessionsOk(w: World) {
    forall plugin | plugin in w.sessions :: SessionOk(w.db, w.refs, w.disk, plugin, w.sessions[plugin])
  }

  // ---- The invariant

  ghost predicate RowsOk(db: Db) { BatchRowsOk(db) && IntentRowsOk(db) && TransitionRowsOk(db) }

  ghost predicate IntentsOk(db: Db, objects: Objects) {
    IntentFactsOk(db, objects) && UnresolvedExpected(db) && UnresolvedUnique(db) && SelectionOk(db)
  }

  ghost predicate ProjectionsOk(db: Db, disk: map<StorageKey, Projection>) {
    FrozenOk(db) && StagedOk(db) && ArtifactsOk(db) && PointersOk(db, disk)
  }

  ghost predicate TablesOk(db: Db) {
    ItemsOk(db.population, db.pointers.Keys) && PluginsOk(db) && HistoryOk(db)
  }

  ghost predicate GitOk(w: World) {
    VersionFactsOk(w.db.versions, w.objects) && RefsOk(w.refs) && AgreementOk(w.db, w.refs) &&
    BatchRefsOk(w.db, w.refs) && StorageOk(w.db, w.refs, w.disk)
  }

  ghost predicate Inv(w: World) {
    RowsOk(w.db) && IntentsOk(w.db, w.objects) && ProjectionsOk(w.db, w.disk) && TablesOk(w.db) && GitOk(w) &&
        SessionsOk(w)
  }
}
