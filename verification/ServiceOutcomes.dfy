/** When each change by the Plugin service succeeds, what it answers when it does not, and the rows it
    changes, told by columns. */
module ServiceOutcomes {
  import opened Wrappers
  import opened Tables
  import opened Receive
  import opened Lifecycle
  import opened World

  /** Every push to the Plugin has been completed or aborted. */
  ghost predicate Settled(db: Db, plugin: Uuid) {
    forall id | id in db.intents && db.intents[id].key.plugin == plugin ::
      db.intents[id].state.Completed? || db.intents[id].state.Aborted?
  }

  ghost predicate Pushable(db: Db, plugin: Uuid) {
    plugin in db.population.repositories && db.population.repositories[plugin].RepositoryReady?
  }

  /** The Plugin may be changed: it is there, not archived, its repository is ready and no push is undecided. */
  ghost predicate Changeable(db: Db, plugin: Uuid) {
    plugin in db.plugins && !db.plugins[plugin].status.Archived? && Pushable(db, plugin) && Settled(db, plugin)
  }

  /** Only the row of this Plugin differs. */
  ghost predicate RowWritten(db: Db, next: Db, plugin: Uuid, row: Plugin) {
    next == db.(plugins := next.plugins) && next.plugins.Keys == db.plugins.Keys && plugin in db.plugins &&
    next.plugins[plugin] == row && forall p | p in db.plugins && p != plugin :: next.plugins[p] == db.plugins[p]
  }

  lemma SettledExactly(db: Db, plugin: Uuid)
    ensures Settled(db, plugin) <==> !PluginBlocked(db, plugin)
  {
  }

  // ---- The default

  /** A default can be set exactly to an available Version of a Plugin that may be changed. */
  lemma SetsDefaultExactly(db: Db, key: TagKey)
    ensures var (next, status) := SetDefault(db, key);
            (status.NotFound? <==> key.plugin !in db.plugins) && !status.Unavailable? &&
            (status.Done? <==>
             Changeable(db, key.plugin) && key in db.versions && db.versions[key].status.Available?) &&
            if status.Done? then
              RowWritten(db, next, key.plugin, db.plugins[key.plugin].(defaultTag := Some(key.tag)))
            else next == db
  {
    SettledExactly(db, key.plugin);
  }

  lemma ClearsDefaultExactly(db: Db, plugin: Uuid)
    ensures var (next, status) := ClearDefaultVersion(db, plugin);
            (status.NotFound? <==> plugin !in db.plugins) && !status.Unavailable? &&
            (status.Done? <==> Changeable(db, plugin)) &&
            if status.Done? then RowWritten(db, next, plugin, db.plugins[plugin].(defaultTag := None))
            else next == db
  {
    SettledExactly(db, plugin);
  }

  // ---- Archiving

  /** Archiving always succeeds on a Plugin that is there, and remembers what it was, once. */
  lemma ArchivesExactly(db: Db, plugin: Uuid)
    ensures var (next, status) := Archive(db, plugin);
            (status.Done? <==> plugin in db.plugins) && (status.NotFound? <==> plugin !in db.plugins) &&
            if plugin in db.plugins && !db.plugins[plugin].status.Archived? then
              var row := db.plugins[plugin];
              RowWritten(db, next, plugin,
                  Plugin(row.namespaceId, row.public, Archived, Some(row.status), row.defaultTag))
            else next == db
  {
  }

  /** An archived Plugin that remembers what it was becomes that again, and any other conflicts. */
  lemma RestoresExactly(db: Db, plugin: Uuid)
    ensures var (next, status) := Restore(db, plugin);
            (status.NotFound? <==> plugin !in db.plugins) && !status.Unavailable? &&
            (status.Done? <==>
             plugin in db.plugins && db.plugins[plugin].status.Archived? && db.plugins[plugin].archivedFrom.Some? &&
             !db.plugins[plugin].archivedFrom.value.Archived?) &&
            if status.Done? then
              var row := db.plugins[plugin];
              RowWritten(db, next, plugin,
                  Plugin(row.namespaceId, row.public, row.archivedFrom.value, None, row.defaultTag))
            else next == db
  {
  }

  // ---- Publishing

  /** The tag is in Git, and peels to a commit with a manifest. */
  ghost predicate Inspectable(refs: map<TagKey, ObjectId>, objects: Objects, key: TagKey) {
    key in refs && refs[key] in objects.commits && objects.commits[refs[key]] in objects.manifests
  }

  /** What was read of the tag has the form that a Version is made of. */
  ghost predicate WellRead(refs: map<TagKey, ObjectId>, objects: Objects, key: TagKey)
    requires Inspectable(refs, objects, key)
  {
    var commit := objects.commits[refs[key]];
    refs[key].Object? && commit.Object? && |objects.manifests[commit].digest| == 64 &&
    objects.manifests[commit].snapshot != ""
  }

  ghost function Proposed(refs: map<TagKey, ObjectId>, objects: Objects, key: TagKey): Version
    requires Inspectable(refs, objects, key)
  {
    var commit := objects.commits[refs[key]];
    Version(Available, Some(refs[key]), Some(commit), Some(objects.manifests[commit]))
  }

  /** The Version is new, or deleted, or what the tag has already. */
  ghost predicate Publishable(db: Db, refs: map<TagKey, ObjectId>, objects: Objects, key: TagKey)
    requires Inspectable(refs, objects, key)
  {
    key !in db.versions || db.versions[key].status.Deleted? || db.versions[key] == Proposed(refs, objects, key)
  }

  /** What a publication writes: the Version, a row of history unless the Version was there as it is, and a Plugin
      that is no draft any more. */
  ghost predicate PublishedRows(db: Db, next: Db, refs: map<TagKey, ObjectId>, objects: Objects, key: TagKey,
          makeDefault: bool)
    requires Inspectable(refs, objects, key) && key.plugin in db.plugins
  {
    var commit, row := objects.commits[refs[key]], db.plugins[key.plugin];
    next == db.(versions := next.versions, history := next.history, plugins := next.plugins) &&
    (forall k :: k in next.versions <==> k == key || k in db.versions) &&
    next.versions[key] == Proposed(refs, objects, key) &&
    (forall k | k in db.versions && k != key :: next.versions[k] == db.versions[k]) &&
    next.history == (
      if key !in db.versions then db.history + [HistoryRow(key, Published, None, Some(commit), None)]
      else if db.versions[key].status.Deleted? then db.history + [HistoryRow(key, Restored, None, Some(commit), None)]
      else db.history) &&
    RowWritten(db.(versions := next.versions, history := next.history), next, key.plugin,
        Plugin(row.namespaceId, row.public, if row.status.Draft? then Active else row.status, row.archivedFrom,
               if makeDefault then Some(key.tag) else row.defaultTag))
  }

  lemma InspectsExactly(refs: map<TagKey, ObjectId>, objects: Objects, key: TagKey)
    ensures Inspect(refs, objects, key).Some? <==> Inspectable(refs, objects, key)
    ensures Inspectable(refs, objects, key) ==>
      var inspection := Inspect(refs, objects, key).value;
      (ValidInspection(inspection) <==> WellRead(refs, objects, key)) &&
      inspection == Inspection(refs[key], objects.commits[refs[key]], objects.manifests[objects.commits[refs[key]]])
  {
  }

  lemma PublishedWrites(db: Db, refs: map<TagKey, ObjectId>, objects: Objects, key: TagKey, makeDefault: bool)
    requires key.plugin in db.plugins && Inspectable(refs, objects, key) && Publish(db, refs, objects, key,
             makeDefault).1.Done?
    ensures PublishedRows(db, Publish(db, refs, objects, key, makeDefault).0, refs, objects, key, makeDefault)
  {
    InspectsExactly(refs, objects, key);
  }

  /** A tag is published exactly when its Plugin may be changed, Git has a readable commit and manifest of good form,
      and its Version is new, deleted, or the same; a malformed one is answered as unavailable, and everything else
      is a conflict that changes no row. */
  lemma PublishesExactly(db: Db, refs: map<TagKey, ObjectId>, objects: Objects, key: TagKey, makeDefault: bool)
    ensures var (next, status) := Publish(db, refs, objects, key, makeDefault);
            var open := key.plugin in db.plugins && !db.plugins[key.plugin].status.Archived? &&
                Pushable(db, key.plugin) && Inspectable(refs, objects, key);
            (status.NotFound? <==> key.plugin !in db.plugins) &&
            (status.Unavailable? <==> open && !WellRead(refs, objects, key)) &&
            (status.Done? <==>
             open && WellRead(refs, objects, key) && Settled(db, key.plugin) && Publishable(db, refs, objects, key)) &&
            if status.Done? then open && PublishedRows(db, next, refs, objects, key, makeDefault) else next == db
  {
    SettledExactly(db, key.plugin);
    InspectsExactly(refs, objects, key);
    if Publish(db, refs, objects, key, makeDefault).1.Done? { PublishedWrites(db, refs, objects, key, makeDefault); }
  }

  // ---- A session's steps

  /** A session opens exactly on a Plugin that no other session holds, that may be pushed to, and under a new
      identifier. */
  lemma OpensExactly(w: World, plugin: Uuid, session: Uuid)
    ensures DoOpen(w, plugin, session) ==
            if plugin !in w.sessions && plugin in w.db.plugins && !w.db.plugins[plugin].status.Archived? &&
               Pushable(w.db, plugin) && (forall b | b in w.db.batches :: w.db.batches[b].session != session)
            then w.(sessions := w.sessions[plugin := Session(session, Opened)]) else w
  {
  }

  /** A service call waits while a session holds its Plugin; otherwise it has the effect above, and on the tables
      only. */
  lemma WaitsForSession(w: World, key: TagKey, makeDefault: bool)
    ensures var calls := [PublishVersion(key, makeDefault), SetDefaultVersion(key), ClearDefaultOf(key.plugin),
                          ArchivePlugin(key.plugin), RestorePlugin(key.plugin)];
            var rows := [Publish(w.db, w.refs, w.objects, key, makeDefault).0, SetDefault(w.db, key).0,
                         ClearDefaultVersion(w.db, key.plugin).0, Archive(w.db, key.plugin).0,
                         Restore(w.db, key.plugin).0];
            forall i :: 0 <= i < 5 ==> Do(w, calls[i]) == if key.plugin in w.sessions then w else w.(db := rows[i])
  {
    assert Do(w, PublishVersion(key, makeDefault)) == DoService(w, PublishVersion(key, makeDefault));
  }
}
