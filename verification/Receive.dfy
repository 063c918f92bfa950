/** What the receive coordinator and the recovery package write, as functions on the tables.
    A statement that compares before it swaps yields `None` when it finds anything else, and a
    transaction whose result is `None` leaves the tables as they were. */
module Receive {
  import opened Wrappers
  import opened Tables
  import opened Classification

  // ---- Classifying the pushed tags

  datatype RefCommand = RefCommand(tag: Tag, oldObject: ObjectId, newObject: ObjectId)

  datatype TagOperation = TagCreate | TagMove | TagDelete
  datatype TagCommand = TagCommand(
    tag: Tag, operation: TagOperation, oldObject: ObjectId, newObject: ObjectId,
    oldCommit: Option<ObjectId>, newCommit: Option<ObjectId>, manifest: Option<Manifest>)

  datatype RevisionPlan = RevisionPlan(revision: Uuid, pointer: Pointer)
  datatype Plan = Plan(command: TagCommand, revisions: seq<RevisionPlan>)

  /** What the object store says: the commit each object peels to, and the manifest of each valid one. */
  datatype Objects = Objects(commits: map<ObjectId, ObjectId>, manifests: map<ObjectId, Manifest>)

  function Peel(objects: Objects, oid: ObjectId): Option<ObjectId> {
    if oid in objects.commits then Some(objects.commits[oid]) else None
  }

  predicate ManifestUsable(manifest: Manifest) {
    |manifest.digest| == 64 && manifest.snapshot != ""
  }

  /** Peels both sides of a tag command and inspects what it proposes. */
  function ClassifyTag(objects: Objects, command: RefCommand): Option<TagCommand> {
    var zeroOld, zeroNew := AllZero(command.oldObject), AllZero(command.newObject);
    if zeroOld && zeroNew then None else
    var operation := if zeroOld then TagCreate else if zeroNew then TagDelete else TagMove;
    var oldCommit := if zeroOld then None else Peel(objects, command.oldObject);
    var newCommit := if zeroNew then None else Peel(objects, command.newObject);
    if (!zeroOld && oldCommit.None?) || (!zeroNew && newCommit.None?) then None else
    if operation == TagDelete then
      Some(TagCommand(command.tag, operation, command.oldObject, command.newObject, oldCommit, None, None))
    else if newCommit.value !in objects.manifests then None
    else
      Some(TagCommand(command.tag, operation, command.oldObject, command.newObject, oldCommit, newCommit,
                      Some(objects.manifests[newCommit.value])))
  }

  function ClassifyTags(objects: Objects, commands: seq<RefCommand>): (r: Option<seq<TagCommand>>)
    ensures r.Some? ==> |r.value| == |commands|
    ensures r.Some? ==> forall i :: 0 <= i < |commands| ==> ClassifyTag(objects, commands[i]) == Some(r.value[i])
  {
    if commands == [] then Some([]) else
    match ClassifyTag(objects, commands[0])
    case None => None
    case Some(first) =>
      match ClassifyTags(objects, commands[1..])
      case None => None
      case Some(rest) => Some([first] + rest)
  }

  // ---- Planning: only an available Version makes a tag command effectful

  datatype Classified = Skipped | Refused | Effectful

  function ClassifyCommand(db: Db, plugin: Uuid, command: TagCommand): Classified {
    var key := TagKey(plugin, command.tag);
    if key !in db.versions || db.versions[key].status != Available then Skipped else
    var version := db.versions[key];
    if version.commit.None? || version.commit == Some(Empty) then Refused else
    if command.operation == TagCreate then Refused else
    if version.raw.None? || command.oldObject.Empty? || Some(command.oldObject) != version.raw
       || command.oldCommit != version.commit then Refused else
    if command.operation == TagMove
       && (command.newObject.Empty? || command.newCommit.None? || command.newCommit == Some(Empty)
           || command.manifest.None? || !ManifestUsable(command.manifest.value)) then Refused else
    if command.operation == TagDelete && (!AllZero(command.newObject) || command.newCommit.Some?) then Refused
    else Effectful
  }

  function Classify(db: Db, plugin: Uuid, commands: seq<TagCommand>, seen: set<Tag>): Option<seq<TagCommand>> {
    if commands == [] then Some([]) else
    var command := commands[0];
    if command.tag in seen then None else
    match ClassifyCommand(db, plugin, command)
    case Refused => None
    case Skipped => Classify(db, plugin, commands[1..], seen + {command.tag})
    case Effectful =>
      match Classify(db, plugin, commands[1..], seen + {command.tag})
      case None => None
      case Some(rest) => Some([command] + rest)
  }

  // ---- Preflight: every selecting revision must have a live projection of the old commit

  predicate ActivelyPublished(db: Db, key: TagKey) {
    exists item | item in db.population.items ::
      item.key == key && item.revision in db.population.revisions &&
      var revision := db.population.revisions[item.revision];
      revision.active && revision.template in db.population.templates &&
      var template := db.population.templates[revision.template];
      template.active && template.published == Some(item.revision)
  }

  predicate Live(db: Db, key: TagKey, revision: Uuid, oldCommit: Option<ObjectId>) {
    var pid := PointerId(revision, key);
    pid in db.pointers && db.pointers[pid].available && db.pointers[pid].artifact.Some? &&
    var aid := db.pointers[pid].artifact.value;
    aid in db.artifacts && db.artifacts[aid].key == key && db.artifacts[aid].revision == revision &&
    db.artifacts[aid].state.Ready? && Some(db.artifacts[aid].commit) == oldCommit
  }

  function SelectingRevisions(db: Db, key: TagKey, items: seq<Item>, oldCommit: Option<ObjectId>):
          Option<seq<RevisionPlan>>
  {
    if items == [] then Some([]) else
    if items[0].key != key || items[0].revision !in db.population.revisions then
      SelectingRevisions(db, key, items[1..], oldCommit)
    else if !Live(db, key, items[0].revision, oldCommit) then None
    else
      match SelectingRevisions(db, key, items[1..], oldCommit)
      case None => None
      case Some(rest) =>
        Some([RevisionPlan(items[0].revision, db.pointers[PointerId(items[0].revision, key)])] + rest)
  }

  function Preflight(db: Db, plugin: Uuid, command: TagCommand): Option<Plan> {
    var key := TagKey(plugin, command.tag);
    if Blocked(db, key) then None else
    if command.operation == TagDelete && ActivelyPublished(db, key) then None else
    match SelectingRevisions(db, key, db.population.items, command.oldCommit)
    case None => None
    case Some(revisions) => Some(Plan(command, revisions))
  }

  function PreflightAll(db: Db, plugin: Uuid, commands: seq<TagCommand>): Option<seq<Plan>> {
    if commands == [] then Some([]) else
    match Preflight(db, plugin, commands[0])
    case None => None
    case Some(plan) =>
      match PreflightAll(db, plugin, commands[1..])
      case None => None
      case Some(rest) => Some([plan] + rest)
  }

  function PlanBatch(db: Db, plugin: Uuid, commands: seq<TagCommand>): Option<seq<Plan>> {
    match Classify(db, plugin, commands, {})
    case None => None
    case Some(effectful) => PreflightAll(db, plugin, effectful)
  }

  // ---- Building: a moved tag gets one new projection for each selecting revision

  predicate BuildUsable(command: TagCommand, built: Projection) {
    Some(built.commit) == command.newCommit && |built.digest| == 64
  }

  predicate Built(batch: Uuid, plan: Plan, builds: map<TransitionId, Projection>) {
    plan.command.operation == TagMove ==>
      forall r | r in plan.revisions ::
        var tid := TransitionId(IntentId(batch, plan.command.tag), r.revision);
        tid in builds && BuildUsable(plan.command, builds[tid])
  }

  predicate AllBuilt(batch: Uuid, plans: seq<Plan>, builds: map<TransitionId, Projection>) {
    forall plan | plan in plans :: Built(batch, plan, builds)
  }

  /** Whether a plan calls for the projection of this transition: one for each revision that selects a moved tag. */
  predicate Calls(batch: Uuid, plan: Plan, id: TransitionId) {
    plan.command.operation == TagMove && id.intent == IntentId(batch, plan.command.tag) &&
        id.revision in RevisionIds(plan.revisions)
  }

  predicate Planned(batch: Uuid, plans: seq<Plan>, id: TransitionId) {
    exists plan | plan in plans :: Calls(batch, plan, id)
  }

  function StoreBuilds(disk: map<StorageKey, Projection>, batch: Uuid, plans: seq<Plan>,
          builds: map<TransitionId, Projection>): map<StorageKey, Projection> {
    disk + map id | id in builds && Planned(batch, plans, id) :: BuiltFor(id) := builds[id]
  }

  lemma StoredAt(disk: map<StorageKey, Projection>, batch: Uuid, plans: seq<Plan>,
          builds: map<TransitionId, Projection>, key: StorageKey)
    ensures var after := StoreBuilds(disk, batch, plans, builds);
            if key.BuiltFor? && key.transition in builds && Planned(batch, plans, key.transition) then
              key in after && after[key] == builds[key.transition]
            else (key in after <==> key in disk) && (key in disk ==> after[key] == disk[key])
  {
  }

  // ---- Persisting the batch

  function PlanTags(plans: seq<Plan>): (tags: seq<Tag>)
    ensures |tags| == |plans|
    ensures forall i :: 0 <= i < |plans| ==> tags[i] == plans[i].command.tag
  {
    seq(|plans|, i requires 0 <= i < |plans| => plans[i].command.tag)
  }

  function RevisionIds(plans: seq<RevisionPlan>): (revisions: seq<Uuid>)
    ensures |revisions| == |plans|
    ensures forall i :: 0 <= i < |revisions| ==> revisions[i] == plans[i].revision
  {
    seq(|plans|, i requires 0 <= i < |plans| => plans[i].revision)
  }

  function IntentFor(plugin: Uuid, plan: Plan): Intent {
    var command, moved := plan.command, plan.command.operation == TagMove;
    Intent(TagKey(plugin, command.tag), if moved then Move else Delete, command.oldObject,
           if moved then Some(command.newObject) else None,
           if command.oldCommit.Some? then command.oldCommit.value else Empty,
           if moved then command.newCommit else None,
           if moved then command.manifest else None, Prepared, RevisionIds(plan.revisions))
  }

  function StagedArtifact(key: TagKey, id: TransitionId, built: Projection): Artifact {
    Artifact(PluginKind, key, id.revision, built.commit, built.digest, BuiltFor(id), Staged)
  }

  function PersistRevision(db: Db, key: TagKey, intent: IntentId, operation: Operation, plan: RevisionPlan,
          builds: map<TransitionId, Projection>): Option<Db>
  {
    var id, pid, aid := TransitionId(intent, plan.revision), PointerId(plan.revision, key),
        StagedFor(TransitionId(intent, plan.revision));
    var stages := operation == Move && id in builds;
    if (stages && aid in db.artifacts) || id in db.transitions then None else
    var artifacts := if stages then db.artifacts[aid := StagedArtifact(key, id, builds[id])] else db.artifacts;
    var transition := Transition(pid, plan.pointer.generation, plan.pointer.artifact, if stages then Some(aid)
        else None, Pending);
    if pid !in db.pointers || db.pointers[pid] != plan.pointer || !db.pointers[pid].available then None else
    Some(db.(artifacts := artifacts, transitions := db.transitions[id := transition],
             pointers := db.pointers[pid := db.pointers[pid].(available := false)]))
  }

  function PersistRevisions(db: Db, key: TagKey, intent: IntentId, operation: Operation, plans: seq<RevisionPlan>,
          builds: map<TransitionId, Projection>): Option<Db>
    decreases |plans|
  {
    if plans == [] then Some(db) else
    match PersistRevision(db, key, intent, operation, plans[0], builds)
    case None => None
    case Some(next) => PersistRevisions(next, key, intent, operation, plans[1..], builds)
  }

  function PersistPlan(db: Db, plugin: Uuid, batch: Uuid, plan: Plan, builds: map<TransitionId, Projection>):
          Option<Db>
  {
    var id, intent := IntentId(batch, plan.command.tag), IntentFor(plugin, plan);
    if id in db.intents then None else
    PersistRevisions(db.(intents := db.intents[id := intent]), intent.key, id, intent.operation, plan.revisions, builds)
  }

  function PersistPlans(db: Db, plugin: Uuid, batch: Uuid, plans: seq<Plan>, builds: map<TransitionId, Projection>):
          Option<Db>
    decreases |plans|
  {
    if plans == [] then Some(db) else
    match PersistPlan(db, plugin, batch, plans[0], builds)
    case None => None
    case Some(next) => PersistPlans(next, plugin, batch, plans[1..], builds)
  }

  function Persist(db: Db, plugin: Uuid, session: Uuid, batch: Uuid, plans: seq<Plan>,
          builds: map<TransitionId, Projection>): Option<Db> {
    if batch in db.batches then None else
    PersistPlans(db.(batches := db.batches[batch := Batch(plugin, session, Prepared, PlanTags(plans))]),
                 plugin, batch, plans, builds)
  }

  datatype PrepareStatus = PrepareRejected | NothingToPrepare | BatchPrepared

  /** Whether a batch that was written could be read back. If not, its projections are removed again, except
      those whose removal fails or is never reached. */
  datatype Loading = Loads | LoadFails(stuck: set<TransitionId>)

  function Leftover(builds: map<TransitionId, Projection>, loading: Loading): map<TransitionId, Projection> {
    if loading.Loads? then builds else map id | id in builds && id in loading.stuck :: builds[id]
  }

  /** Writes the rows of the plans and stores their projections. */
  function WritePlans(db: Db, disk: map<StorageKey, Projection>, plugin: Uuid, session: Uuid, batch: Uuid,
          plans: seq<Plan>, builds: map<TransitionId, Projection>, loading: Loading):
          (PrepareStatus, Db, map<StorageKey, Projection>)
  {
    if !AllBuilt(batch, plans, builds) then (PrepareRejected, db, disk) else
    match Persist(db, plugin, session, batch, plans, builds)
    case None => (PrepareRejected, db, disk)
    case Some(next) =>
      var status := if loading.Loads? then BatchPrepared else PrepareRejected;
      (status, next, StoreBuilds(disk, batch, plans, Leftover(builds, loading)))
  }

  /** What preparing a push leaves behind. When the batch cannot be read back after it was written, the
      push is rejected and its projections are removed, but the batch stays. */
  function PrepareOutcome(db: Db, disk: map<StorageKey, Projection>, plugin: Uuid, session: Uuid, batch: Uuid,
          commands: seq<TagCommand>, builds: map<TransitionId, Projection>, loading: Loading):
          (PrepareStatus, Db, map<StorageKey, Projection>)
  {
    match PlanBatch(db, plugin, commands)
    case None => (PrepareRejected, db, disk)
    case Some(plans) =>
      if plans == [] then (NothingToPrepare, db, disk)
      else WritePlans(db, disk, plugin, session, batch, plans, builds, loading)
  }

  // ---- Applying a verdict

  predicate PointerFrozen(db: Db, transition: Transition) {
    transition.pointer in db.pointers &&
    var pointer := db.pointers[transition.pointer];
    !pointer.available && pointer.generation == transition.generation && pointer.artifact == transition.current
  }

  function EnqueueGc(gc: map<ArtifactId, GcState>, artifact: ArtifactId): map<ArtifactId, GcState> {
    if artifact in gc then gc else gc[artifact := GcPending]
  }

  /** The projection a completed transition leaves behind, as each of the two implementations sees it. */
  function Superseded(transition: Transition): Option<ArtifactId> {
    if transition.current.Some? && transition.current != transition.staged then transition.current else None
  }

  function EnqueueOptional(gc: map<ArtifactId, GcState>, artifact: Option<ArtifactId>): map<ArtifactId, GcState> {
    if artifact.Some? then EnqueueGc(gc, artifact.value) else gc
  }

  function MarkReady(artifacts: map<ArtifactId, Artifact>, aid: ArtifactId): Option<map<ArtifactId, Artifact>> {
    if aid in artifacts && artifacts[aid].state.Staged? then Some(artifacts[aid := artifacts[aid].(state := Ready)])
    else None
  }

  /** `checked` is the coordinator; the recovery package settles the transition row unconditionally
      and enqueues the current projection even when it is the staged one. */
  function CompleteTransition(db: Db, operation: Operation, id: TransitionId, checked: bool): Option<Db> {
    if id !in db.transitions then None else
    var transition := db.transitions[id];
    var target := if operation == Move then transition.staged else None;
    if operation == Move && target.None? then None else
    var artifacts := if operation == Move then MarkReady(db.artifacts, target.value) else Some(db.artifacts);
    if artifacts.None? || !PointerFrozen(db, transition) then None else
    if checked && !TransitionOpen(transition.state) then None else
    Some(db.(artifacts := artifacts.value,
             pointers := db.pointers[transition.pointer := Pointer(target, transition.generation + 1,
                 operation == Move)],
             gc := EnqueueOptional(db.gc, if checked then Superseded(transition) else transition.current),
             transitions := db.transitions[id := transition.(state := TransitionCompleted)]))
  }

  function AbortTransition(db: Db, id: TransitionId, checked: bool): Option<Db> {
    if id !in db.transitions then None else
    var transition := db.transitions[id];
    if !PointerFrozen(db, transition) || (checked && !TransitionOpen(transition.state)) then None else
    Some(db.(pointers := db.pointers[transition.pointer := db.pointers[transition.pointer].(available := true)],
             gc := EnqueueOptional(db.gc, transition.staged),
             transitions := db.transitions[id := transition.(state := TransitionAborted)]))
  }

  function SettleOne(db: Db, verdict: Disposition, operation: Operation, id: TransitionId, checked: bool): Option<Db> {
    if verdict == ReceiveCompleted then CompleteTransition(db, operation, id, checked)
    else AbortTransition(db, id, checked)
  }

  function SettleTransitions(db: Db, verdict: Disposition, operation: Operation, ids: seq<TransitionId>, checked: bool):
          Option<Db>
    decreases |ids|
  {
    if ids == [] then Some(db) else
    match SettleOne(db, verdict, operation, ids[0], checked)
    case None => None
    case Some(next) => SettleTransitions(next, verdict, operation, ids[1..], checked)
  }

  function MovedVersion(intent: Intent): Version {
    Version(Available, intent.newObject, intent.newCommit, intent.manifest)
  }

  const DELETED_VERSION := Version(Deleted, None, None, None)

  function VersionAfter(intent: Intent): Version {
    if intent.operation == Move then MovedVersion(intent) else DELETED_VERSION
  }

  function HistoryAfter(id: IntentId, intent: Intent): HistoryRow {
    HistoryRow(intent.key, if intent.operation == Move then Moved else Removed, Some(intent.oldCommit),
               if intent.operation == Move then intent.newCommit else None, Some(id))
  }

  predicate SourceFactsPresent(intent: Intent) {
    intent.operation == Move ==>
      intent.newObject.Some? && intent.newCommit.Some? && intent.manifest.Some? && intent.manifest.value.snapshot != ""
  }

  predicate VersionExpected(db: Db, intent: Intent) {
    intent.key in db.versions &&
    var version := db.versions[intent.key];
    version.status == Available && version.raw == Some(intent.oldObject) && version.commit == Some(intent.oldCommit)
  }

  function ClearDefault(plugins: map<Uuid, Plugin>, key: TagKey): map<Uuid, Plugin> {
    if key.plugin in plugins && plugins[key.plugin].defaultTag == Some(key.tag)
    then plugins[key.plugin := plugins[key.plugin].(defaultTag := None)] else plugins
  }

  function WriteVersion(db: Db, id: IntentId, intent: Intent): Option<Db> {
    if !SourceFactsPresent(intent) || !VersionExpected(db, intent) then None else
    Some(db.(versions := db.versions[intent.key := VersionAfter(intent)],
             plugins := if intent.operation == Delete then ClearDefault(db.plugins, intent.key) else db.plugins,
             history := db.history + [HistoryAfter(id, intent)]))
  }

  function FinalState(verdict: Disposition): ReceiveState {
    match verdict
    case ReceiveCompleted => Completed
    case ReceiveAborted => Aborted
    case ReceiveManual => ManualRequired
  }

  function SettleIntentRow(db: Db, id: IntentId, verdict: Disposition): Option<Db> {
    if id in db.intents && IsOpen(db.intents[id].state)
    then Some(db.(intents := db.intents[id := db.intents[id].(state := FinalState(verdict))])) else None
  }

  function SettleIntent(db: Db, id: IntentId, verdict: Disposition, checked: bool): Option<Db> {
    if id !in db.intents then None else
    var intent := db.intents[id];
    var written := if verdict == ReceiveCompleted then WriteVersion(db, id, intent) else Some(db);
    if written.None? then None else
    match SettleTransitions(written.value, verdict, intent.operation, Ids(id, intent.revisions), checked)
    case None => None
    case Some(next) => SettleIntentRow(next, id, verdict)
  }

  function SettleIntents(db: Db, batch: Uuid, tags: seq<Tag>, verdict: Disposition, checked: bool): Option<Db>
    decreases |tags|
  {
    if tags == [] then Some(db) else
    match SettleIntent(db, IntentId(batch, tags[0]), verdict, checked)
    case None => None
    case Some(next) => SettleIntents(next, batch, tags[1..], verdict, checked)
  }

  function SettleBatchRow(db: Db, batch: Uuid, verdict: Disposition): Option<Db> {
    if batch in db.batches && IsOpen(db.batches[batch].state)
    then Some(db.(batches := db.batches[batch := db.batches[batch].(state := FinalState(verdict))])) else None
  }

  /** The transaction that settles a batch: all of its rows, or none of them. */
  function SettleBatch(db: Db, batch: Uuid, verdict: Disposition, checked: bool): Option<Db>
    requires batch in db.batches
  {
    match SettleIntents(db, batch, db.batches[batch].tags, verdict, checked)
    case None => None
    case Some(next) => SettleBatchRow(next, batch, verdict)
  }

  // ---- Handing a batch over to an operator

  function BatchIds(db: Db, batch: Uuid, tags: seq<Tag>): seq<TransitionId> {
    if tags == [] then [] else
    var id := IntentId(batch, tags[0]);
    (if id in db.intents then Ids(id, db.intents[id].revisions) else []) + BatchIds(db, batch, tags[1..])
  }

  function HoldTransition(db: Db, id: TransitionId): Db {
    if id !in db.transitions then db else
    var transition := db.transitions[id];
    db.(pointers := if transition.pointer in db.pointers
                    then db.pointers[transition.pointer := db.pointers[transition.pointer].(available := false)]
                        else db.pointers,
        transitions := if TransitionSettled(transition.state) then db.transitions
                       else db.transitions[id := transition.(state := TransitionManual)])
  }

  function HoldTransitions(db: Db, ids: seq<TransitionId>): Db
    decreases |ids|
  {
    if ids == [] then db else HoldTransitions(HoldTransition(db, ids[0]), ids[1..])
  }

  function Held(state: ReceiveState): ReceiveState {
    if state.Completed? || state.Aborted? then state else ManualRequired
  }

  /** Marks the batch, its intents and the given transitions as needing an operator. */
  function MarkManual(db: Db, batch: Uuid, ids: seq<TransitionId>): Db {
    var rows := db.(
      batches := if batch in db.batches then
          db.batches[batch := db.batches[batch].(state := Held(db.batches[batch].state))] else db.batches,
      intents := map id | id in db.intents ::
        if id.batch == batch then db.intents[id].(state := Held(db.intents[id].state)) else db.intents[id]);
    HoldTransitions(rows, ids)
  }

  // ---- Verifying what is staged

  predicate Stored(disk: map<StorageKey, Projection>, artifact: Artifact) {
    artifact.storage in disk && disk[artifact.storage].digest == artifact.digest
  }

  /** The coordinator's verdict on one staged projection. */
  datatype Verified = Sound | Missing | Damaged(artifact: ArtifactId)

  function VerifyStaged(db: Db, disk: map<StorageKey, Projection>, ids: seq<TransitionId>): Verified {
    if ids == [] then Sound else
    if ids[0] !in db.transitions || db.transitions[ids[0]].staged.None? then VerifyStaged(db, disk, ids[1..]) else
    var aid := db.transitions[ids[0]].staged.value;
    if aid !in db.artifacts then Missing
    else if !Stored(disk, db.artifacts[aid]) then Damaged(aid)
    else VerifyStaged(db, disk, ids[1..])
  }

  /** The recovery package additionally insists that the projection is still staged. */
  predicate StagedSound(db: Db, disk: map<StorageKey, Projection>, ids: seq<TransitionId>) {
    forall id | id in ids :: id in db.transitions && db.transitions[id].staged.Some? ==>
      var aid := db.transitions[id].staged.value;
      aid in db.artifacts && db.artifacts[aid].state.Staged? && Stored(disk, db.artifacts[aid])
  }

  // ---- Resolving, in the two implementations

  function IntentRefsOf(db: Db, batch: Uuid, tags: seq<Tag>): (refs: seq<IntentRefs>) {
    if tags == [] then [] else
    var id := IntentId(batch, tags[0]);
    (if id in db.intents then [IntentRefs(tags[0], db.intents[id].oldObject, db.intents[id].newObject)] else [])
    + IntentRefsOf(db, batch, tags[1..])
  }

  datatype ResolveStatus = Resolved | Rejected | ManualRecovery

  function MarkFailed(db: Db, aid: ArtifactId): Db {
    if aid in db.artifacts then db.(artifacts := db.artifacts[aid := db.artifacts[aid].(state := Failed)]) else db
  }

  /** The coordinator hands a batch over in a transaction of its own. It does not get through when it fails,
      or when the process dies before it. */
  function HandOver(db: Db, batch: Uuid, ids: seq<TransitionId>, holds: bool): Db {
    if holds then MarkManual(db, batch, ids) else db
  }

  /** What the coordinator does with the rows of a batch it found open, given the ref report. */
  function ResolveRows(db: Db, disk: map<StorageKey, Projection>, batch: Uuid, declared: Option<Disposition>,
          observed: seq<ObservedRef>, holds: bool): (Db, ResolveStatus)
    requires batch in db.batches
  {
    var tags := db.batches[batch].tags;
    var ids := BatchIds(db, batch, tags);
    var verdict := Meaning(PrepareAll(IntentRefsOf(db, batch, tags)), observed);
    if declared == Some(ReceiveManual) || verdict == ReceiveManual || (declared.Some? && declared.value != verdict) then
      (HandOver(db, batch, ids, holds), if holds then Resolved else ManualRecovery)
    else
      match if verdict == ReceiveCompleted then VerifyStaged(db, disk, ids) else Sound
      case Missing => (HandOver(db, batch, ids, holds), ManualRecovery)
      case Damaged(aid) => (HandOver(MarkFailed(db, aid), batch, ids, holds), ManualRecovery)
      case Sound =>
        match SettleBatch(db, batch, verdict, true)
        case Some(settled) => (settled, Resolved)
        case None => (HandOver(db, batch, ids, holds), ManualRecovery)
  }

  function ResolveBatch(db: Db, disk: map<StorageKey, Projection>, plugin: Uuid, session: Uuid, batch: Uuid,
          declared: Option<Disposition>, observed: seq<ObservedRef>, holds: bool): (Db, ResolveStatus)
  {
    if batch !in db.batches || db.batches[batch].plugin != plugin || db.batches[batch].session != session
    then (db, Rejected)
    else if !IsOpen(db.batches[batch].state) then (db, Resolved)
    else ResolveRows(db, disk, batch, declared, observed, holds)
  }

  datatype ReconcileStatus = Reconciled | ReconcileFailed

  /** The recovery package: reads the refs itself, and rolls back without marking when a swap fails. */
  function ReconcileBatch(db: Db, disk: map<StorageKey, Projection>, batch: Uuid, observed: seq<ObservedRef>):
          (Db, ReconcileStatus)
  {
    if batch !in db.batches then (db, ReconcileFailed) else
    var tags := db.batches[batch].tags;
    var ids := BatchIds(db, batch, tags);
    var refs := IntentRefsOf(db, batch, tags);
    if db.batches[batch].plugin !in db.population.repositories ||
        refs == [] then (MarkUnsettled(db, batch, ids), Reconciled) else
    var verdict := Meaning(LenientAll(PrepareAll(refs)), observed);
    if verdict == ReceiveManual || (verdict == ReceiveCompleted && !StagedSound(db, disk, ids)) then
      (MarkUnsettled(db, batch, ids), Reconciled)
    else if db.batches[batch].state.Completed? || db.batches[batch].state.Aborted? then (db, Reconciled)
    else
      match SettleBatch(db, batch, verdict, false)
      case Some(settled) => (settled, Reconciled)
      case None => (db, ReconcileFailed)
  }

  /** The recovery package holds only the transitions that are not settled yet. */
  function Unsettled(db: Db, ids: seq<TransitionId>): seq<TransitionId> {
    if ids == [] then [] else
    (if ids[0] in db.transitions && !TransitionSettled(db.transitions[ids[0]].state) then [ids[0]]
        else []) + Unsettled(db, ids[1..])
  }

  function MarkUnsettled(db: Db, batch: Uuid, ids: seq<TransitionId>): Db {
    MarkManual(db, batch, Unsettled(db, ids))
  }
}
