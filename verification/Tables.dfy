/** The durable rows of the Plugin lifecycle and what surrounds them.

    A row that the database finds through a unique index is keyed here by the columns of
    that index: an intent by its batch and tag, a transition by its intent and revision, a
    pointer by its revision, Plugin and tag. The identifiers the program draws at random for
    a staged artifact and its storage are likewise named after the transition they were
    drawn for, so the only fresh identifier of a prepared batch is the batch's own. */
module Tables {

  import opened Wrappers

  // Names that are only ever compared: row identifiers, canonical tags and Git object names.
  type Uuid(==, !new)
  type Tag(==, !new)
  type ObjectName(==, !new)

  /** An object identifier is the empty string, the repository's all-zero identifier for an absent
      ref, or the name of an object. */
  datatype ObjectId = Empty | Zero | Object(name: ObjectName)

  datatype TagKey = TagKey(plugin: Uuid, tag: Tag)
  datatype Manifest = Manifest(digest: string, snapshot: string)

  datatype PluginStatus = Draft | Active | Archived
  datatype Plugin = Plugin(
    namespaceId: Uuid, public: bool, status: PluginStatus, archivedFrom: Option<PluginStatus>,
    defaultTag: Option<Tag>)
  datatype RepositoryStatus = RepositoryReady | RepositoryReadOnly | RepositoryError

  datatype VersionStatus = Available | Deleted
  datatype Version = Version(
    status: VersionStatus, raw: Option<ObjectId>, commit: Option<ObjectId>, manifest: Option<Manifest>)

  datatype HistoryOperation = Published | Moved | Removed | Restored
  datatype HistoryRow = HistoryRow(
    key: TagKey, operation: HistoryOperation, oldCommit: Option<ObjectId>, newCommit: Option<ObjectId>,
    intent: Option<IntentId>)

  datatype ReceiveState = Prepared | Finalizing | Completed | Aborted | ManualRequired
  datatype Operation = Move | Delete

  datatype IntentId = IntentId(batch: Uuid, tag: Tag)
  datatype TransitionId = TransitionId(intent: IntentId, revision: Uuid)
  datatype PointerId = PointerId(revision: Uuid, key: TagKey)
  datatype ArtifactId = Imported(id: Uuid) | StagedFor(transition: TransitionId)
  datatype StorageKey = Given(name: Uuid) | BuiltFor(transition: TransitionId)

  /** `tags` lists the batch's intents in the order in which both resolvers read them. */
  datatype Batch = Batch(plugin: Uuid, session: Uuid, state: ReceiveState, tags: seq<Tag>)

  /** `revisions` lists the intent's transitions in the order in which they are read. */
  datatype Intent = Intent(
    key: TagKey, operation: Operation, oldObject: ObjectId, newObject: Option<ObjectId>,
    oldCommit: ObjectId, newCommit: Option<ObjectId>, manifest: Option<Manifest>,
    state: ReceiveState, revisions: seq<Uuid>)

  datatype TransitionState =
    TransitionPrepared | Pending | TransitionCompleted | TransitionAborted | TransitionManual
  datatype Transition = Transition(
    pointer: PointerId, generation: nat, current: Option<ArtifactId>, staged: Option<ArtifactId>,
    state: TransitionState)

  datatype Pointer = Pointer(artifact: Option<ArtifactId>, generation: nat, available: bool)

  datatype ArtifactKind = PluginKind | MarketplaceKind
  datatype ArtifactState = Staged | Ready | Failed
  datatype Artifact = Artifact(
    kind: ArtifactKind, key: TagKey, revision: Uuid, commit: ObjectId, digest: string,
    storage: StorageKey, state: ArtifactState)

  datatype GcState = GcPending | GcRunning | GcCompleted | GcManual

  // The published Marketplace rows that select Plugin Versions. No step of this model writes them.
  datatype Template = Template(namespaceId: Uuid, public: bool, active: bool, published: Option<Uuid>)
  datatype Revision = Revision(template: Uuid, active: bool)
  datatype Item = Item(revision: Uuid, key: TagKey, distribution: Uuid)
  datatype Distribution = Distribution(template: Uuid, key: TagKey, repository: Uuid, active: bool, revoked: bool)

  datatype Population = Population(
    templates: map<Uuid, Template>, revisions: map<Uuid, Revision>, items: seq<Item>,
    distributions: map<Uuid, Distribution>, repositories: map<Uuid, RepositoryStatus>)

  datatype Db = Db(
    population: Population,
    plugins: map<Uuid, Plugin>, versions: map<TagKey, Version>, history: seq<HistoryRow>,
    batches: map<Uuid, Batch>, intents: map<IntentId, Intent>, transitions: map<TransitionId, Transition>,
    pointers: map<PointerId, Pointer>, artifacts: map<ArtifactId, Artifact>,
    gc: map<ArtifactId, GcState>)

  /** What a stored projection was built from, and the digest its bytes now have. */
  datatype Projection = Projection(commit: ObjectId, digest: string)

  predicate IsOpen(state: ReceiveState) { state.Prepared? || state.Finalizing? }

  predicate IsUnresolved(state: ReceiveState) { IsOpen(state) || state.ManualRequired? }

  predicate TransitionOpen(state: TransitionState) { state.TransitionPrepared? || state.Pending? }

  predicate TransitionUnresolved(state: TransitionState) { TransitionOpen(state) || state.TransitionManual? }

  predicate TransitionSettled(state: TransitionState) {
    state.TransitionCompleted? || state.TransitionAborted?
  }

  predicate AllZero(oid: ObjectId) { oid.Zero? }

  function Ids(intent: IntentId, revisions: seq<Uuid>): (ids: seq<TransitionId>)
    ensures |ids| == |revisions|
    ensures forall i :: 0 <= i < |ids| ==> ids[i] == TransitionId(intent, revisions[i])
  {
    seq(|revisions|, i requires 0 <= i < |revisions| => TransitionId(intent, revisions[i]))
  }

  /** An unresolved intent blocks a second change to the same tag. */
  predicate Blocked(db: Db, key: TagKey) {
    exists id | id in db.intents :: db.intents[id].key == key && IsUnresolved(db.intents[id].state)
  }

  /** An unresolved intent blocks every publication and default change of its Plugin. */
  predicate PluginBlocked(db: Db, plugin: Uuid) {
    exists id | id in db.intents :: db.intents[id].key.plugin == plugin && IsUnresolved(db.intents[id].state)
  }
}
