/** The projection collector of the receive package, which removes a projection without looking for
    references to it. */
module Collector {
  import opened Wrappers
  import opened Tables
  import opened Database

  class GcRunner {
    const store: Store

    constructor (store: Store)
      ensures this.store == store
    {
      this.store := store;
    }

    /** A job that could not be finished waits to be tried again. */
    method FailJob(artifact: ArtifactId)
      modifies store`gc
      ensures store.gc == if artifact in old(store.gc) &&
              old(store.gc)[artifact].GcRunning? then old(store.gc)[artifact := GcPending] else old(store.gc)
    {
      if artifact in store.gc && store.gc[artifact].GcRunning? {
        store.gc := store.gc[artifact := GcPending];
      }
    }

    /** Works on the job that was found pending, if any, and says whether it claimed one. */
    method RunOnce(job: Option<ArtifactId>, removes: bool) returns (claimed: bool)
      modifies store
      ensures claimed <==> job.Some? && job.value in old(store.gc) && old(store.gc)[job.value].GcPending?
      ensures !claimed ==> store.Rows() == old(store.Rows()) && store.disk == old(store.disk)
      ensures claimed ==>
        var finished := job.value in old(store.artifacts) && removes;
        store.Rows() == old(store.Rows()).(gc := old(store.gc)[job.value := if finished then GcCompleted
            else GcPending]) &&
        store.disk == if finished then old(store.disk) - {old(store.artifacts)[job.value].storage} else old(store.disk)
    {
      if job.None? || job.value !in store.gc || !store.gc[job.value].GcPending? {
        return false;
      }
      store.gc := store.gc[job.value := GcRunning];
      claimed := true;
      if job.value !in store.artifacts || !removes {
        FailJob(job.value);
        return;
      }
      store.disk := store.disk - {store.artifacts[job.value].storage};
      store.gc := store.gc[job.value := GcCompleted];
    }
  }
}
