/** The tables and the projection storage as mutable state, with the transaction every change runs in. */
module Database {
  import opened Wrappers
  import opened Tables

  class Store {
    const population: Population
    var plugins: map<Uuid, Plugin>
    var versions: map<TagKey, Version>
    var history: seq<HistoryRow>
    var batches: map<Uuid, Batch>
    var intents: map<IntentId, Intent>
    var transitions: map<TransitionId, Transition>
    var pointers: map<PointerId, Pointer>
    var artifacts: map<ArtifactId, Artifact>
    var gc: map<ArtifactId, GcState>
    var disk: map<StorageKey, Projection>

    constructor (db: Db, disk: map<StorageKey, Projection>)
      ensures Rows() == db && this.disk == disk
    {
      population := db.population;
      plugins, versions, history := db.plugins, db.versions, db.history;
      batches, intents, transitions := db.batches, db.intents, db.transitions;
      pointers, artifacts, gc := db.pointers, db.artifacts, db.gc;
      this.disk := disk;
    }

    /** The tables as one value. */
    function Rows(): Db
      reads this
    {
      Db(population, plugins, versions, history, batches, intents, transitions, pointers, artifacts, gc)
    }

    /** Undoes everything a failed transaction wrote. */
    method Rollback(before: Db)
      requires before.population == population
      modifies this`plugins, this`versions, this`history, this`batches, this`intents, this`transitions, this`pointers,
          this`artifacts, this`gc
      ensures Rows() == before
    {
      plugins, versions, history := before.plugins, before.versions, before.history;
      batches, intents, transitions := before.batches, before.intents, before.transitions;
      pointers, artifacts, gc := before.pointers, before.artifacts, before.gc;
    }
  }
}
