/** Where runs may start: published Marketplace revisions, and no push in progress. */
module Start {
  import opened Wrappers
  import opened Tables
  import opened Classification
  import opened Receive
  import opened Lifecycle
  import opened World
  import opened Invariant
  import opened HistoryReplay

  ghost predicate NoReceives(w: World) {
    w.db.batches == map[] && w.db.intents == map[] && w.db.transitions == map[] && w.db.gc == map[] &&
        w.sessions == map[]
  }

  /** Distinct pointers name distinct projections, each stored under its own key. */
  ghost predicate ProjectionsPublished(db: Db, disk: map<StorageKey, Projection>) {
    (forall a | a in db.artifacts :: a.Imported? && db.artifacts[a].storage.Given?) &&
    (forall a, c | a in db.artifacts && c in db.artifacts && db.artifacts[a].storage == db.artifacts[c].storage ::
        a == c) &&
    forall pid | pid in db.pointers ::
      (db.pointers[pid].available ==> db.pointers[pid].artifact.Some?) &&
      (db.pointers[pid].artifact.Some? ==> PointedAt(db, disk, pid, db.pointers[pid].artifact.value))
  }

  /** Every available Version was recorded and has its ref. */
  ghost predicate VersionsRecorded(w: World) {
    VersionFactsOk(w.db.versions, w.objects) && RefsOk(w.refs) && Chained(w.db.history) &&
    (forall key :: Replay(w.db.history, key) == StandingOf(w.db.versions, key)) &&
    (forall id :: RowsFor(w.db.history, id) == 0) &&
    forall key | key in w.db.versions && w.db.versions[key].status == Available ::
        RefIs(w.refs, key, w.db.versions[key].raw)
  }

  ghost predicate Quiet(w: World) {
    NoReceives(w) && ProjectionsPublished(w.db, w.disk) && VersionsRecorded(w) && PluginsOk(w.db) &&
        ItemsOk(w.db.population, w.db.pointers.Keys)
  }

  lemma QuietKeepsInvariant(w: World)
    requires Quiet(w)
    ensures Inv(w)
  {
  }

  // ---- A populated start

  datatype Names = Names(
    plugin: Uuid, namespaceId: Uuid, template: Uuid, revision: Uuid, distribution: Uuid, artifact: Uuid, storage: Uuid,
    tag: Tag, raw: ObjectName, commit: ObjectName, manifest: Manifest, digest: string)

  function SamplePopulation(n: Names): Population {
    Population(map[n.template := Template(n.namespaceId, true, true, Some(n.revision))],
        map[n.revision := Revision(n.template, true)],
               [Item(n.revision, TagKey(n.plugin, n.tag), n.distribution)],
               map[n.distribution := Distribution(n.template, TagKey(n.plugin, n.tag), n.plugin, true, false)],
               map[n.plugin := RepositoryReady])
  }

  /** One published Plugin tag, selected by one active Marketplace revision. */
  function Sample(n: Names): World {
    var key, source := TagKey(n.plugin, n.tag), Object(n.commit);
    World(
      Db(SamplePopulation(n), map[n.plugin := Plugin(n.namespaceId, true, Active, None, Some(n.tag))],
         map[key := Version(Available, Some(Object(n.raw)), Some(source), Some(n.manifest))],
         [HistoryRow(key, Published, None, Some(source), None)], map[], map[], map[],
         map[PointerId(n.revision, key) := Pointer(Some(Imported(n.artifact)), 1, true)],
         map[Imported(n.artifact) := Artifact(PluginKind, key, n.revision, source, n.digest, Given(n.storage), Ready)],
             map[]),
      map[key := Object(n.raw)], Objects(map[Object(n.raw) := source], map[source := n.manifest]),
      map[Given(n.storage) := Projection(source, n.digest)], map[])
  }

  lemma SampleRecorded(n: Names)
    ensures VersionsRecorded(Sample(n))
  {
    var w := Sample(n);
    var row := HistoryRow(TagKey(n.plugin, n.tag), Published, None, Some(Object(n.commit)), None);
    assert w.db.history == [] + [row];
    AppendRow([], row);
  }

  lemma SamplePublished(n: Names)
    ensures ProjectionsPublished(Sample(n).db, Sample(n).disk)
    ensures PluginsOk(Sample(n).db) && ItemsOk(Sample(n).db.population, Sample(n).db.pointers.Keys)
  {
    assert TagKey(n.plugin, n.tag) in Sample(n).db.versions;
    assert Sample(n).db.population.items[0].revision == n.revision;
  }

  lemma SampleGranted(n: Names)
    ensures FindActivePlugin(Sample(n).db, n.distribution) == Granted(Given(n.storage))
  {
    assert Sample(n).db.population.items[0] in Sample(n).db.population.items;
  }

  /** The invariant has populated states: this one serves the published projection. */
  lemma SampleServes(n: Names)
    ensures Inv(Sample(n)) && FindActivePlugin(Sample(n).db, n.distribution) == Granted(Given(n.storage))
  {
    SampleRecorded(n);
    SamplePublished(n);
    SampleGranted(n);
    QuietKeepsInvariant(Sample(n));
  }
}
