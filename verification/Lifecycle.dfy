/** The Plugin service's own changes, each made while it holds the Plugin's effect lock, and the
    read path that decides which stored projection a download is answered with. */
module Lifecycle {
  import opened Wrappers
  import opened Tables
  import opened Receive

  datatype ServiceStatus = Done | NotFound | Conflict | Unavailable

  predicate RepositoryReadyFor(db: Db, plugin: Uuid) {
    plugin in db.population.repositories && db.population.repositories[plugin] == RepositoryReady
  }

  // ---- Publishing a Version from its tag

  datatype Inspection = Inspection(raw: ObjectId, commit: ObjectId, manifest: Manifest)

  function Inspect(refs: map<TagKey, ObjectId>, objects: Objects, key: TagKey): Option<Inspection> {
    if key !in refs then None else
    match Peel(objects, refs[key])
    case None => None
    case Some(commit) =>
      if commit in objects.manifests then Some(Inspection(refs[key], commit, objects.manifests[commit])) else None
  }

  predicate ValidInspection(inspection: Inspection) {
    inspection.raw.Object? && inspection.commit.Object? && ManifestUsable(inspection.manifest)
  }

  function PublishedVersion(inspection: Inspection): Version {
    Version(Available, Some(inspection.raw), Some(inspection.commit), Some(inspection.manifest))
  }

  /** Which history row, if any, publishing the inspected tag writes; `None` is a conflict. */
  function PublishOperation(db: Db, key: TagKey, inspection: Inspection): Option<Option<HistoryOperation>> {
    if key !in db.versions then Some(Some(Published))
    else if db.versions[key].status == Deleted then Some(Some(Restored))
    else if db.versions[key] == PublishedVersion(inspection) then Some(None)
    else None
  }

  function PublishInspected(db: Db, key: TagKey, inspection: Inspection, makeDefault: bool): Option<Db>
    requires key.plugin in db.plugins
  {
    if PluginBlocked(db, key.plugin) then None else
    match PublishOperation(db, key, inspection)
    case None => None
    case Some(operation) =>
      var plugin := db.plugins[key.plugin];
      var activated := if plugin.status == Draft then plugin.(status := Active) else plugin;
      var defaulted := if makeDefault then activated.(defaultTag := Some(key.tag)) else activated;
      Some(db.(versions := db.versions[key := PublishedVersion(inspection)],
               history := if operation.None? then db.history
                          else db.history + [HistoryRow(key, operation.value, None, Some(inspection.commit), None)],
               plugins := db.plugins[key.plugin := defaulted]))
  }

  function Publish(db: Db, refs: map<TagKey, ObjectId>, objects: Objects, key: TagKey, makeDefault: bool):
          (Db, ServiceStatus)
  {
    if key.plugin !in db.plugins then (db, NotFound)
    else if db.plugins[key.plugin].status == Archived || !RepositoryReadyFor(db, key.plugin) then (db, Conflict)
    else
      match Inspect(refs, objects, key)
      case None => (db, Conflict)
      case Some(inspection) =>
        if !ValidInspection(inspection) then (db, Unavailable) else
        match PublishInspected(db, key, inspection, makeDefault)
        case None => (db, Conflict)
        case Some(next) => (next, Done)
  }

  // ---- The default Version

  function SetDefault(db: Db, key: TagKey): (Db, ServiceStatus) {
    if key.plugin !in db.plugins then (db, NotFound) else
    var plugin := db.plugins[key.plugin];
    if plugin.status == Archived || !RepositoryReadyFor(db, key.plugin) ||
        PluginBlocked(db, key.plugin) then (db, Conflict)
    else if key !in db.versions || db.versions[key].status != Available then (db, Conflict)
    else (db.(plugins := db.plugins[key.plugin := plugin.(defaultTag := Some(key.tag))]), Done)
  }

  function ClearDefaultVersion(db: Db, plugin: Uuid): (Db, ServiceStatus) {
    if plugin !in db.plugins then (db, NotFound) else
    var row := db.plugins[plugin];
    if row.status == Archived || !RepositoryReadyFor(db, plugin) || PluginBlocked(db, plugin) then (db, Conflict)
    else (db.(plugins := db.plugins[plugin := row.(defaultTag := None)]), Done)
  }

  // ---- Archiving

  function Archive(db: Db, plugin: Uuid): (Db, ServiceStatus) {
    if plugin !in db.plugins then (db, NotFound) else
    var row := db.plugins[plugin];
    if row.status == Archived then (db, Done)
    else (db.(plugins := db.plugins[plugin := row.(status := Archived, archivedFrom := Some(row.status))]), Done)
  }

  function Restore(db: Db, plugin: Uuid): (Db, ServiceStatus) {
    if plugin !in db.plugins then (db, NotFound) else
    var row := db.plugins[plugin];
    if row.status != Archived || row.archivedFrom.None? || row.archivedFrom == Some(Archived) then (db, Conflict)
    else (db.(plugins := db.plugins[plugin := row.(status := row.archivedFrom.value, archivedFrom := None)]), Done)
  }

  // ---- Answering a download

  datatype Found = Granted(storage: StorageKey) | Undisclosed | Gone | NotServable

  predicate Disclosed(db: Db, id: Uuid) {
    id in db.population.distributions &&
    var distribution := db.population.distributions[id];
    distribution.active && !distribution.revoked && distribution.template in db.population.templates &&
    var template := db.population.templates[distribution.template];
    template.active && template.public && distribution.key.plugin in db.plugins &&
    var plugin := db.plugins[distribution.key.plugin];
    plugin.namespaceId == template.namespaceId && plugin.status != Draft && plugin.public
  }

  predicate Selected(db: Db, id: Uuid, revision: Uuid)
    requires Disclosed(db, id)
  {
    var distribution := db.population.distributions[id];
    revision in db.population.revisions && db.population.revisions[revision].template == distribution.template &&
    db.population.revisions[revision].active && Item(revision, distribution.key, id) in db.population.items
  }

  /** The artifact the published pointer names, if every joined row agrees that it may be served. */
  function ServedArtifact(db: Db, key: TagKey, revision: Uuid): Option<ArtifactId> {
    var pid := PointerId(revision, key);
    if key !in db.versions || db.versions[key].status != Available then None else
    if pid !in db.pointers || !db.pointers[pid].available || db.pointers[pid].artifact.None? then None else
    var aid := db.pointers[pid].artifact.value;
    if aid !in db.artifacts then None else
    var artifact := db.artifacts[aid];
    if artifact.kind.PluginKind? && artifact.state.Ready? && artifact.key == key
       && artifact.revision == revision && Some(artifact.commit) == db.versions[key].commit
    then Some(aid) else None
  }

  predicate RepositoryReadable(db: Db, distribution: Distribution) {
    distribution.repository == distribution.key.plugin && distribution.repository in db.population.repositories &&
    db.population.repositories[distribution.repository] != RepositoryError
  }

  predicate VersionDeleted(db: Db, id: Uuid)
    requires id in db.population.distributions
  {
    var key := db.population.distributions[id].key;
    key in db.versions && db.versions[key].status == Deleted &&
    exists item | item in db.population.items :: item.distribution == id && item.key == key
  }

  function FindActivePlugin(db: Db, id: Uuid): Found {
    if !Disclosed(db, id) then Undisclosed else
    var distribution := db.population.distributions[id];
    var published := db.population.templates[distribution.template].published;
    var served :=
      if published.Some? && Selected(db, id, published.value) && RepositoryReadable(db, distribution)
      then ServedArtifact(db, distribution.key, published.value) else None;
    if served.Some? then Granted(db.artifacts[served.value].storage)
    else if VersionDeleted(db, id) then Gone else NotServable
  }
}
