/** No projection is ever lost: each one is named by a pointer, or staged for an undecided push, or has a job for
    the collector, and never two of these at once. */
module Conservation {
  import opened Wrappers
  import opened Tables
  import opened Classification
  import opened Receive
  import opened World
  import opened Invariant
  import opened Settlement
  import opened SettlementSafety
  import opened Holding
  import opened Persisting
  import opened PrepareSafety
  import opened Safety
  import opened Evolution
  import Start

  /** A pointer names the projection. */
  ghost predicate Pointed(db: Db, a: ArtifactId) {
    exists pid | pid in db.pointers :: db.pointers[pid].artifact == Some(a)
  }

  /** A push that is not decided has staged it. */
  ghost predicate Awaited(db: Db, a: ArtifactId) {
    exists t | t in db.transitions ::
      db.transitions[t].staged == Some(a) && !db.transitions[t].state.TransitionCompleted? &&
      !db.transitions[t].state.TransitionAborted?
  }

  ghost predicate Placed(db: Db, a: ArtifactId) { Pointed(db, a) || Awaited(db, a) || a in db.gc }

  ghost predicate AllPlaced(db: Db) { forall a | a in db.artifacts :: Placed(db, a) }

  // ---- One step

  lemma SettlingKeepsPointed(db: Db, next: Db, batch: Uuid, verdict: Disposition, pid: PointerId, a: ArtifactId)
    requires TransitionRowsOk(db) && FrozenOk(db) && IntentRowsOk(db) && OpenBatch(db, batch)
    requires SettledEffect(db, next, batch, verdict) && pid in db.pointers && db.pointers[pid].artifact == Some(a)
    ensures Placed(next, a)
  {
    var t := OwnerOf(batch, pid);
    if Owns(db.transitions, batch, pid) && t.intent in db.intents {
      assert TransitionUnresolved(db.transitions[t].state) && PointerFrozen(db, db.transitions[t]);
      if verdict == ReceiveCompleted {
        assert Discards(db.transitions, batch, verdict, t, a);
      } else {
        assert next.pointers[pid].artifact == Some(a);
      }
    } else {
      assert next.pointers[pid].artifact == Some(a);
    }
  }

  lemma SettlingKeepsAwaited(db: Db, next: Db, batch: Uuid, verdict: Disposition, t: TransitionId, a: ArtifactId)
    requires TransitionRowsOk(db) && IntentRowsOk(db) && OpenBatch(db, batch)
    requires SettledEffect(db, next, batch, verdict) && t in db.transitions && db.transitions[t].staged == Some(a)
    requires !db.transitions[t].state.TransitionCompleted? && !db.transitions[t].state.TransitionAborted?
    ensures Placed(next, a)
  {
    if t.intent.batch != batch {
      assert next.transitions[t] == db.transitions[t];
    } else if verdict == ReceiveCompleted {
      var pid := db.transitions[t].pointer;
      assert OwnerOf(batch, pid) == t && Owns(db.transitions, batch, pid);
      assert next.pointers[pid].artifact == Some(a);
    } else {
      assert Discards(db.transitions, batch, verdict, t, a);
    }
  }

  lemma SettlingPlaces(db: Db, next: Db, batch: Uuid, verdict: Disposition, a: ArtifactId)
    requires IntentRowsOk(db) && TransitionRowsOk(db) && FrozenOk(db) && OpenBatch(db, batch)
    requires SettledEffect(db, next, batch, verdict)
    requires Placed(db, a)
    ensures Placed(next, a)
  {
    if pid :| pid in db.pointers && db.pointers[pid].artifact == Some(a) {
      SettlingKeepsPointed(db, next, batch, verdict, pid, a);
    } else if Awaited(db, a) {
      var t :| t in db.transitions && db.transitions[t].staged == Some(a) &&
               !db.transitions[t].state.TransitionCompleted? && !db.transitions[t].state.TransitionAborted?;
      SettlingKeepsAwaited(db, next, batch, verdict, t, a);
    }
  }

  lemma HoldingPlaces(db: Db, next: Db, batch: Uuid, a: ArtifactId)
    requires IntentRowsOk(db) && TransitionRowsOk(db) && OpenBatch(db, batch) && HeldEffect(db, next, batch)
    requires Placed(db, a)
    ensures Placed(next, a)
  {
    if Awaited(db, a) {
      var t :| t in db.transitions && db.transitions[t].staged == Some(a) &&
               !db.transitions[t].state.TransitionCompleted? && !db.transitions[t].state.TransitionAborted?;
      assert next.transitions[t].staged == Some(a) && !next.transitions[t].state.TransitionCompleted? &&
             !next.transitions[t].state.TransitionAborted?;
    }
  }

  lemma PreparingPlaces(db: Db, next: Db, objects: Objects, plugin: Uuid, session: Uuid, batch: Uuid, tags: seq<Tag>,
          builds: Builds, a: ArtifactId)
    requires PreparedEffect(db, next, objects, plugin, session, batch, tags, builds) && a in next.artifacts
    requires a in db.artifacts ==> Placed(db, a)
    ensures Placed(next, a)
  {
    if a !in db.artifacts {
      assert a.transition in next.transitions && next.transitions[a.transition].staged == Some(a);
      assert a.transition !in db.transitions;
    } else if pid :| pid in db.pointers && db.pointers[pid].artifact == Some(a) {
      assert pid in next.pointers && next.pointers[pid].artifact == Some(a);
    } else if Awaited(db, a) {
      var t :| t in db.transitions && db.transitions[t].staged == Some(a) &&
               !db.transitions[t].state.TransitionCompleted? && !db.transitions[t].state.TransitionAborted?;
      assert t in next.transitions && next.transitions[t] == db.transitions[t];
    }
  }

  lemma ChangePlaces(w: World, next: Db, change: Change)
    requires IntentRowsOk(w.db) && TransitionRowsOk(w.db) && FrozenOk(w.db)
    requires Explains(w, next, change) && AllPlaced(w.db)
    ensures AllPlaced(next)
  {
    forall a | a in next.artifacts ensures Placed(next, a) {
      match change
      case Prepares(plugin, session, batch, tags, builds) =>
        PreparingPlaces(w.db, next, w.objects, plugin, session, batch, tags, builds, a);
      case Settles(batch, verdict) => SettlingPlaces(w.db, next, batch, verdict, a);
      case Holds(batch) => HoldingPlaces(w.db, next, batch, a);
      case Nothing | Marks(_, _) | Serves | Collects => SameTablesPlace(w.db, next, a);
    }
  }

  lemma SameTablesPlace(db: Db, next: Db, a: ArtifactId)
    requires next.pointers == db.pointers && next.transitions == db.transitions && next.gc.Keys == db.gc.Keys
    requires Placed(db, a)
    ensures Placed(next, a)
  {
  }

  lemma {:induction false} RunPlaces(w: World, events: seq<Event>)
    requires Inv(w) && AllPlaced(w.db)
    ensures AllPlaced(Run(w, events).db)
    decreases |events|
  {
    if events != [] {
      StepKeepsInvariant(w, events[0]);
      var change := StepExplained(w, events[0]);
      ChangePlaces(w, Do(w, events[0]).db, change);
      RunPlaces(Do(w, events[0]), events[1..]);
    }
  }

  // ---- One place at a time

  lemma PointedAlone(db: Db, disk: map<StorageKey, Projection>, pid: PointerId, a: ArtifactId)
    requires PointersOk(db, disk) && pid in db.pointers && db.pointers[pid].artifact == Some(a)
    ensures a !in db.gc && (a.StagedFor? ==>
            a.transition in db.transitions && db.transitions[a.transition].state.TransitionCompleted?)
  {
    assert PointedAt(db, disk, pid, a);
  }

  lemma AwaitedAlone(db: Db, t: TransitionId, a: ArtifactId)
    requires TransitionRowsOk(db) && StagedOk(db) && t in db.transitions && db.transitions[t].staged == Some(a)
    requires !db.transitions[t].state.TransitionCompleted? && !db.transitions[t].state.TransitionAborted?
    ensures a == StagedFor(t) && a !in db.gc
  {
    assert TransitionUnresolved(db.transitions[t].state) && StagedRowOk(db, t);
  }

  lemma OnePlace(db: Db, disk: map<StorageKey, Projection>, a: ArtifactId)
    requires TransitionRowsOk(db) && StagedOk(db) && PointersOk(db, disk)
    ensures !(Pointed(db, a) && Awaited(db, a)) && !(Pointed(db, a) && a in db.gc) && !(Awaited(db, a) && a in db.gc)
  {
    if pid :| pid in db.pointers && db.pointers[pid].artifact == Some(a) { PointedAlone(db, disk, pid, a); }
    if t :| t in db.transitions && db.transitions[t].staged == Some(a) &&
            !db.transitions[t].state.TransitionCompleted? && !db.transitions[t].state.TransitionAborted? {
      AwaitedAlone(db, t, a);
    }
  }

  lemma PlacedOnce(w: World, a: ArtifactId)
    requires Inv(w) && AllPlaced(w.db) && a in w.db.artifacts
    ensures (Pointed(w.db, a) || Awaited(w.db, a) || a in w.db.gc) && !(Pointed(w.db, a) && Awaited(w.db, a)) &&
            !(Pointed(w.db, a) && a in w.db.gc) && !(Awaited(w.db, a) && a in w.db.gc)
  {
    assert Placed(w.db, a);
    OnePlace(w.db, w.disk, a);
  }

  /** From a start at which every projection has its place, every projection of every reachable state is in exactly
      one place: a pointer names it, or an undecided push has staged it, or the collector has a job for it. */
  lemma NothingLeaks(start: World, events: seq<Event>, a: ArtifactId)
    requires Inv(start) && AllPlaced(start.db) && a in Run(start, events).db.artifacts
    ensures var db := Run(start, events).db;
            (Pointed(db, a) || Awaited(db, a) || a in db.gc) && !(Pointed(db, a) && Awaited(db, a)) &&
            !(Pointed(db, a) && a in db.gc) && !(Awaited(db, a) && a in db.gc)
  {
    RunKeepsInvariant(start, events);
    RunPlaces(start, events);
    PlacedOnce(Run(start, events), a);
  }

  /** There are such starts. */
  lemma SamplePlaced(n: Start.Names)
    ensures Inv(Start.Sample(n)) && AllPlaced(Start.Sample(n).db)
  {
    Start.SampleServes(n);
    var db := Start.Sample(n).db;
    assert PointerId(n.revision, TagKey(n.plugin, n.tag)) in db.pointers;
  }
}
