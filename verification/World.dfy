/** The whole system as a machine that reacts to events. An event that is not enabled changes
    nothing, so every sequence of events is a run. A crash is the event that makes a session
    vanish: its volatile state is lost and its effect lock is free again. */
module World {
  import opened Wrappers
  import opened Tables
  import opened Classification
  import opened Receive
  import opened Lifecycle

  /** How far a push has come. A session exists exactly while it holds its Plugin's effect lock. */
  datatype Phase =
    | Opened
    | Applying(commands: seq<RefCommand>, prepared: Option<Uuid>)
    | Applied(prepared: Option<Uuid>)
  datatype Session = Session(id: Uuid, phase: Phase)

  datatype World = World(
    db: Db, refs: map<TagKey, ObjectId>, objects: Objects, disk: map<StorageKey, Projection>,
    sessions: map<Uuid, Session>)

  datatype Event =
    | Open(plugin: Uuid, session: Uuid)
    | PrepareReceive(plugin: Uuid, commands: seq<RefCommand>, batch: Uuid, builds: map<TransitionId, Projection>,
        loading: Loading)
    | ApplyRefs(plugin: Uuid, commits: bool)
    | Finalize(plugin: Uuid, holds: bool)
    | Vanish(plugin: Uuid)
    | StrayBuild(builds: map<TransitionId, Projection>)
    | ResumeResolve(batch: Uuid, holds: bool)
    | Reconcile(batch: Uuid)
    | PublishVersion(key: TagKey, makeDefault: bool)
    | SetDefaultVersion(key: TagKey)
    | ClearDefaultOf(plugin: Uuid)
    | ArchivePlugin(plugin: Uuid)
    | RestorePlugin(plugin: Uuid)
    | GcRecord(artifact: ArtifactId, state: GcState)
    | GcRemove(artifact: ArtifactId)
    | Damage(storage: StorageKey, digest: string)

  // ---- Refs

  predicate RefIs(refs: map<TagKey, ObjectId>, key: TagKey, value: Option<ObjectId>) {
    if value.None? then key !in refs else key in refs && refs[key] == value.value
  }

  function RefValue(oid: ObjectId): Option<ObjectId> { if AllZero(oid) then None else Some(oid) }

  predicate CanSwap(refs: map<TagKey, ObjectId>, plugin: Uuid, commands: seq<RefCommand>) {
    forall command | command in commands :: RefIs(refs, TagKey(plugin, command.tag), RefValue(command.oldObject))
  }

  function SwapOne(refs: map<TagKey, ObjectId>, key: TagKey, newObject: ObjectId): map<TagKey, ObjectId> {
    if AllZero(newObject) then refs - {key} else refs[key := newObject]
  }

  function Swap(refs: map<TagKey, ObjectId>, plugin: Uuid, commands: seq<RefCommand>): map<TagKey, ObjectId>
    decreases |commands|
  {
    if commands == [] then refs
    else Swap(SwapOne(refs, TagKey(plugin, commands[0].tag), commands[0].newObject), plugin, commands[1..])
  }

  /** What the parser of the push guarantees, together with Git never sending a command that changes nothing. */
  predicate WellFormed(commands: seq<RefCommand>) {
    (forall i, j :: 0 <= i < j < |commands| ==> commands[i].tag != commands[j].tag) &&
    forall command | command in commands ::
      !command.oldObject.Empty? && !command.newObject.Empty? && command.oldObject != command.newObject
  }

  function ReadRef(refs: map<TagKey, ObjectId>, plugin: Uuid, tag: Tag): ObservedRef {
    var key := TagKey(plugin, tag);
    if key in refs then ObservedRef(TagRef(tag), refs[key], true) else ObservedRef(TagRef(tag), Empty, false)
  }

  function ReadRefs(refs: map<TagKey, ObjectId>, plugin: Uuid, tags: seq<Tag>): (observed: seq<ObservedRef>)
    ensures |observed| == |tags|
    ensures forall i :: 0 <= i < |tags| ==> observed[i] == ReadRef(refs, plugin, tags[i])
  {
    seq(|tags|, i requires 0 <= i < |tags| => ReadRef(refs, plugin, tags[i]))
  }

  // ---- Steps

  predicate FreshBatch(w: World, batch: Uuid) {
    batch !in w.db.batches &&
    forall key | key in w.disk :: key.BuiltFor? ==> key.transition.intent.batch != batch
  }

  predicate FreshSession(w: World, session: Uuid) {
    forall b | b in w.db.batches :: w.db.batches[b].session != session
  }

  /** Opening requires a Plugin that is not archived and whose repository is ready. */
  predicate Openable(db: Db, plugin: Uuid) {
    plugin in db.plugins && db.plugins[plugin].status != Archived && RepositoryReadyFor(db, plugin)
  }

  function DropSession(w: World, plugin: Uuid): World { w.(sessions := w.sessions - {plugin}) }

  function Enter(w: World, plugin: Uuid, phase: Phase): World
    requires plugin in w.sessions
  {
    w.(sessions := w.sessions[plugin := w.sessions[plugin].(phase := phase)])
  }

  function DoPrepare(w: World, plugin: Uuid, commands: seq<RefCommand>, batch: Uuid,
          builds: map<TransitionId, Projection>, loading: Loading): World
    requires plugin in w.sessions
  {
    match ClassifyTags(w.objects, commands)
    case None => DropSession(w, plugin)
    case Some(tagCommands) =>
      match PrepareOutcome(w.db, w.disk, plugin, w.sessions[plugin].id, batch, tagCommands, builds, loading)
      case (PrepareRejected, db, disk) => DropSession(w.(db := db, disk := disk), plugin)
      case (NothingToPrepare, db, disk) => Enter(w.(db := db, disk := disk), plugin, Applying(commands, None))
      case (BatchPrepared, db, disk) => Enter(w.(db := db, disk := disk), plugin, Applying(commands, Some(batch)))
  }

  /** The rows that finishing a session leaves, and its answer. A session without a batch has nothing to resolve. */
  function Finishing(w: World, plugin: Uuid, prepared: Option<Uuid>, holds: bool): (Db, ResolveStatus)
    requires plugin in w.sessions
  {
    if prepared.None? then (w.db, Resolved) else
    if prepared.value !in w.db.batches then (w.db, Rejected) else
    var batch := prepared.value;
    var tags := w.db.batches[batch].tags;
    var observed := ReadRefs(w.refs, plugin, tags);
    var declared := Some(Meaning(PrepareAll(IntentRefsOf(w.db, batch, tags)), observed));
    ResolveBatch(w.db, w.disk, plugin, w.sessions[plugin].id, batch, declared, observed, holds)
  }

  function DoFinalize(w: World, plugin: Uuid, prepared: Option<Uuid>, holds: bool): World
    requires plugin in w.sessions
  {
    DropSession(w.(db := Finishing(w, plugin, prepared, holds).0), plugin)
  }

  function DoOpen(w: World, plugin: Uuid, session: Uuid): World {
    if plugin !in w.sessions && Openable(w.db, plugin) && FreshSession(w, session)
    then w.(sessions := w.sessions[plugin := Session(session, Opened)]) else w
  }

  function DoApply(w: World, plugin: Uuid, commits: bool): World {
    if plugin in w.sessions && w.sessions[plugin].phase.Applying? then
      var phase := w.sessions[plugin].phase;
      var refs := if commits && CanSwap(w.refs, plugin, phase.commands) then Swap(w.refs, plugin, phase.commands)
          else w.refs;
      Enter(w.(refs := refs), plugin, Applied(phase.prepared))
    else w
  }

  function DoStrayBuild(w: World, builds: map<TransitionId, Projection>): World {
    w.(disk := w.disk + map id | id in builds && id.intent.batch !in w.db.batches :: BuiltFor(id) := builds[id])
  }

  function DoResume(w: World, batch: Uuid, holds: bool): World {
    if batch in w.db.batches && w.db.batches[batch].plugin !in w.sessions &&
        Openable(w.db, w.db.batches[batch].plugin) then
      var row := w.db.batches[batch];
      w.(db := ResolveBatch(w.db, w.disk, row.plugin, row.session, batch, None, ReadRefs(w.refs, row.plugin, row.tags),
          holds).0)
    else w
  }

  function DoReconcile(w: World, batch: Uuid): World {
    if batch in w.db.batches && w.db.batches[batch].plugin !in w.sessions then
      var row := w.db.batches[batch];
      w.(db := ReconcileBatch(w.db, w.disk, batch, ReadRefs(w.refs, row.plugin, row.tags)).0)
    else w
  }

  /** The Plugin service works under the Plugin's effect lock, so it waits while a session holds it. */
  function DoService(w: World, event: Event): World
    requires event.PublishVersion? || event.SetDefaultVersion? || event.ClearDefaultOf? || event.ArchivePlugin? ||
             event.RestorePlugin?
  {
    match event
    case PublishVersion(key, makeDefault) =>
      if key.plugin in w.sessions then w else w.(db := Publish(w.db, w.refs, w.objects, key, makeDefault).0)
    case SetDefaultVersion(key) =>
      if key.plugin in w.sessions then w else w.(db := SetDefault(w.db, key).0)
    case ClearDefaultOf(plugin) =>
      if plugin in w.sessions then w else w.(db := ClearDefaultVersion(w.db, plugin).0)
    case ArchivePlugin(plugin) =>
      if plugin in w.sessions then w else w.(db := Archive(w.db, plugin).0)
    case RestorePlugin(plugin) =>
      if plugin in w.sessions then w else w.(db := Restore(w.db, plugin).0)
  }

  /** The collectors take no effect lock, and remove a projection without looking for references. */
  function DoStorage(w: World, event: Event): World
    requires event.GcRecord? || event.GcRemove? || event.Damage?
  {
    match event
    case GcRecord(artifact, state) =>
      if artifact in w.db.gc then w.(db := w.db.(gc := w.db.gc[artifact := state])) else w
    case GcRemove(artifact) =>
      if artifact in w.db.gc && artifact in w.db.artifacts
      then w.(disk := w.disk - {w.db.artifacts[artifact].storage}) else w
    case Damage(storage, digest) =>
      if storage in w.disk then w.(disk := w.disk[storage := w.disk[storage].(digest := digest)]) else w
  }

  predicate Preparable(w: World, plugin: Uuid, commands: seq<RefCommand>, batch: Uuid) {
    plugin in w.sessions && w.sessions[plugin].phase.Opened? && WellFormed(commands) && FreshBatch(w, batch)
  }

  function Do(w: World, event: Event): World {
    match event
    case Open(plugin, session) => DoOpen(w, plugin, session)
    case PrepareReceive(plugin, commands, batch, builds, loading) =>
      if Preparable(w, plugin, commands, batch) then DoPrepare(w, plugin, commands, batch, builds, loading) else w
    case ApplyRefs(plugin, commits) => DoApply(w, plugin, commits)
    case Finalize(plugin, holds) =>
      if plugin in w.sessions && w.sessions[plugin].phase.Applied?
      then DoFinalize(w, plugin, w.sessions[plugin].phase.prepared, holds) else w
    case Vanish(plugin) => DropSession(w, plugin)
    case StrayBuild(builds) => DoStrayBuild(w, builds)
    case ResumeResolve(batch, holds) => DoResume(w, batch, holds)
    case Reconcile(batch) => DoReconcile(w, batch)
    case PublishVersion(_, _) | SetDefaultVersion(_) | ClearDefaultOf(_) | ArchivePlugin(_) | RestorePlugin(_) =>
      DoService(w, event)
    case GcRecord(_, _) | GcRemove(_) | Damage(_, _) => DoStorage(w, event)
  }

  function Run(w: World, events: seq<Event>): World
    decreases |events|
  {
    if events == [] then w else Run(Do(w, events[0]), events[1..])
  }
}
