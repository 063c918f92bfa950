/** What downloads are answered with: only projections of the commit the tag has in Git now. */
module Serving {
  import opened Wrappers
  import opened Tables
  import opened Classification
  import opened Receive
  import opened Lifecycle
  import opened Answers
  import opened World
  import opened Invariant
  import opened Settlement
  import opened SettlementSafety
  import opened Safety

  /** While an intent on a tag is unresolved, no pointer on the tag is available. */
  lemma BlockedIsFrozen(w: World, pid: PointerId)
    requires RowsOk(w.db) && SelectionOk(w.db) && FrozenOk(w.db) && pid in w.db.pointers && Blocked(w.db, pid.key)
    ensures !w.db.pointers[pid].available
  {
    var id :| id in w.db.intents && w.db.intents[id].key == pid.key && IsUnresolved(w.db.intents[id].state);
    var t := TransitionId(id, pid.revision);
    assert pid.revision in w.db.intents[id].revisions;
    assert t in w.db.transitions && TransitionUnresolved(w.db.transitions[t].state);
    assert PointerFrozen(w.db, w.db.transitions[t]);
  }

  lemma ServedIsCurrent(w: World, key: TagKey, revision: Uuid)
    requires RowsOk(w.db) && SelectionOk(w.db) && ProjectionsOk(w.db, w.disk)
    requires VersionFactsOk(w.db.versions, w.objects) && AgreementOk(w.db, w.refs)
    requires ServedArtifact(w.db, key, revision).Some?
    ensures var aid := ServedArtifact(w.db, key, revision).value;
            aid !in w.db.gc && !Blocked(w.db, key) && w.db.artifacts[aid].storage in w.disk && key in w.refs &&
            w.refs[key] in w.objects.commits &&
                w.disk[w.db.artifacts[aid].storage].commit == w.objects.commits[w.refs[key]]
  {
    var pid := PointerId(revision, key);
    if Blocked(w.db, key) { BlockedIsFrozen(w, pid); }
    assert PointedAt(w.db, w.disk, pid, w.db.pointers[pid].artifact.value);
    assert VersionFacts(w.db.versions[key], w.objects);
  }

  /** The storage is there, and was built from the commit the Git tag peels to at this moment. */
  ghost predicate Current(w: World, key: TagKey, storage: StorageKey) {
    storage in w.disk && key in w.refs && w.refs[key] in w.objects.commits &&
        w.disk[storage].commit == w.objects.commits[w.refs[key]]
  }

  lemma GrantedAt(w: World, id: Uuid)
    requires RowsOk(w.db) && SelectionOk(w.db) && ProjectionsOk(w.db, w.disk)
    requires VersionFactsOk(w.db.versions, w.objects) && AgreementOk(w.db, w.refs) &&
             FindActivePlugin(w.db, id).Granted?
    ensures id in w.db.population.distributions
    ensures var key := w.db.population.distributions[id].key;
            Current(w, key, FindActivePlugin(w.db, id).storage) && !Blocked(w.db, key)
  {
    var distribution := w.db.population.distributions[id];
    ServedIsCurrent(w, distribution.key, w.db.population.templates[distribution.template].published.value);
  }

  /** After any run, a granted download names current storage of a tag no push is holding. */
  lemma GrantedIsCurrent(start: World, events: seq<Event>, id: Uuid)
    requires Inv(start) && FindActivePlugin(Run(start, events).db, id).Granted?
    ensures id in Run(start, events).db.population.distributions
    ensures var w := Run(start, events);
            var key := w.db.population.distributions[id].key;
            Current(w, key, FindActivePlugin(w.db, id).storage) && !Blocked(w.db, key)
  {
    RunKeepsInvariant(start, events);
    GrantedAt(Run(start, events), id);
  }

  // ---- When a download is granted

  /** Everything about a download of a revision that no push changes. */
  ghost predicate Offered(db: Db, id: Uuid, revision: Uuid) {
    Visible(db, id) && Publishes(db, id, revision) &&
    PointerId(revision, db.population.distributions[id].key) in db.pointers
  }

  lemma OfferedIsSelected(db: Db, id: Uuid, revision: Uuid)
    requires Offered(db, id, revision)
    ensures Disclosed(db, id) && Selected(db, id, revision) &&
            RepositoryReadable(db, db.population.distributions[id]) &&
            db.population.templates[db.population.distributions[id].template].published == Some(revision)
  {
    VisibleIsDisclosed(db, id);
    PublishesIsSelected(db, id, revision);
  }

  /** An offered download is granted exactly while its Version and its pointer are available and its
      projection is of the Version's commit, and then from the storage of that projection. */
  lemma GrantedExactly(w: World, id: Uuid, revision: Uuid)
    requires Inv(w) && Offered(w.db, id, revision)
    ensures var key := w.db.population.distributions[id].key;
            var pointer := w.db.pointers[PointerId(revision, key)];
            if key in w.db.versions && w.db.versions[key].status.Available? && pointer.available &&
               pointer.artifact.Some? && pointer.artifact.value in w.db.artifacts &&
               w.db.versions[key].commit == Some(w.db.artifacts[pointer.artifact.value].commit)
            then FindActivePlugin(w.db, id) == Granted(w.db.artifacts[pointer.artifact.value].storage)
            else !FindActivePlugin(w.db, id).Granted?
  {
    OfferedIsSelected(w.db, id, revision);
    var pid := PointerId(revision, w.db.population.distributions[id].key);
    if w.db.pointers[pid].artifact.Some? {
      assert PointedAt(w.db, w.disk, pid, w.db.pointers[pid].artifact.value);
    }
  }
}
