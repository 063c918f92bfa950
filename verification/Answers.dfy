/** What a download is answered with, told by the columns of the rows it is looked up in. */
module Answers {
  import opened Wrappers
  import opened Tables
  import opened Lifecycle

  /** The distribution may be seen: it, its Marketplace and its Plugin are active or archived, and public. */
  ghost predicate Visible(db: Db, id: Uuid) {
    id in db.population.distributions &&
    var d := db.population.distributions[id];
    d.active && !d.revoked && d.template in db.population.templates && d.key.plugin in db.plugins &&
    var t, p := db.population.templates[d.template], db.plugins[d.key.plugin];
    t.active && t.public && p.namespaceId == t.namespaceId && (p.status.Active? || p.status.Archived?) && p.public
  }

  /** The published revision of its Marketplace is active and selects it, and its repository can be read. */
  ghost predicate Publishes(db: Db, id: Uuid, revision: Uuid)
    requires Visible(db, id)
  {
    var d := db.population.distributions[id];
    db.population.templates[d.template].published == Some(revision) &&
    revision in db.population.revisions && db.population.revisions[revision].active &&
    db.population.revisions[revision].template == d.template &&
    (exists item | item in db.population.items ::
      item.revision == revision && item.key == d.key && item.distribution == id) &&
    d.repository == d.key.plugin && d.repository in db.population.repositories &&
    (db.population.repositories[d.repository].RepositoryReady? ||
     db.population.repositories[d.repository].RepositoryReadOnly?)
  }

  /** The pointer of the revision on the tag names this artifact, and every joined column agrees. */
  ghost predicate Joins(db: Db, key: TagKey, revision: Uuid, aid: ArtifactId) {
    key in db.versions && db.versions[key].status.Available? &&
    PointerId(revision, key) in db.pointers && aid in db.artifacts &&
    var pointer, artifact := db.pointers[PointerId(revision, key)], db.artifacts[aid];
    pointer.available && pointer.artifact == Some(aid) &&
    artifact.kind.PluginKind? && artifact.state.Ready? && artifact.key == key && artifact.revision == revision &&
    db.versions[key].commit == Some(artifact.commit)
  }

  ghost predicate ServedFrom(db: Db, id: Uuid, storage: StorageKey) {
    Visible(db, id) &&
    exists revision, aid ::
      Publishes(db, id, revision) && Joins(db, db.population.distributions[id].key, revision, aid) &&
      db.artifacts[aid].storage == storage
  }

  /** The Version was deleted, and some revision, active or not, lists the distribution under its tag. */
  ghost predicate Withdrawn(db: Db, id: Uuid) {
    Visible(db, id) &&
    var d := db.population.distributions[id];
    d.key in db.versions && db.versions[d.key].status.Deleted? &&
    exists item | item in db.population.items :: item.distribution == id && item.key == d.key
  }

  lemma VisibleIsDisclosed(db: Db, id: Uuid)
    ensures Visible(db, id) <==> Disclosed(db, id)
  {
  }

  lemma JoinsIsServed(db: Db, key: TagKey, revision: Uuid, aid: ArtifactId)
    ensures Joins(db, key, revision, aid) <==> ServedArtifact(db, key, revision) == Some(aid)
  {
  }

  lemma PublishesIsSelected(db: Db, id: Uuid, revision: Uuid)
    requires Visible(db, id) && Disclosed(db, id)
    ensures Publishes(db, id, revision) <==>
            db.population.templates[db.population.distributions[id].template].published == Some(revision) &&
            Selected(db, id, revision) && RepositoryReadable(db, db.population.distributions[id])
  {
    if Publishes(db, id, revision) {
      var item :| item in db.population.items && item.revision == revision &&
                  item.key == db.population.distributions[id].key && item.distribution == id;
      assert item == Item(revision, db.population.distributions[id].key, id);
    }
  }

  /** Not found: exactly when some column of the distribution, its Marketplace or its Plugin hides it. */
  lemma UndisclosedExactly(db: Db, id: Uuid)
    ensures FindActivePlugin(db, id).Undisclosed? <==> !Visible(db, id)
  {
    VisibleIsDisclosed(db, id);
  }

  /** Granted, and from which storage: exactly when every joined row agrees. */
  lemma GrantedFromExactly(db: Db, id: Uuid, storage: StorageKey)
    ensures FindActivePlugin(db, id) == Granted(storage) <==> ServedFrom(db, id, storage)
  {
    VisibleIsDisclosed(db, id);
    if Disclosed(db, id) {
      var d := db.population.distributions[id];
      forall revision { PublishesIsSelected(db, id, revision); }
      forall revision, aid { JoinsIsServed(db, d.key, revision, aid); }
    }
  }

  lemma DeletedIsNotServed(db: Db, id: Uuid, storage: StorageKey)
    requires Withdrawn(db, id)
    ensures !ServedFrom(db, id, storage)
  {
  }

  /** Gone: exactly when it may be seen, its Version was deleted and it was listed. */
  lemma WithdrawnExactly(db: Db, id: Uuid)
    ensures FindActivePlugin(db, id).Gone? <==> Withdrawn(db, id)
  {
    VisibleIsDisclosed(db, id);
    if FindActivePlugin(db, id).Granted? {
      var storage := FindActivePlugin(db, id).storage;
      GrantedFromExactly(db, id, storage);
      if Withdrawn(db, id) { DeletedIsNotServed(db, id, storage); }
    }
  }

  /** Unavailable: exactly when it may be seen and neither of the other two holds. */
  lemma NotServableExactly(db: Db, id: Uuid)
    ensures FindActivePlugin(db, id).NotServable? <==>
            Visible(db, id) && !Withdrawn(db, id) && !exists storage :: ServedFrom(db, id, storage)
  {
    UndisclosedExactly(db, id);
    WithdrawnExactly(db, id);
    forall storage { GrantedFromExactly(db, id, storage); }
  }
}
