/** One pass of the recovery package decides every open batch, and both collectors only do what the
    machine's collection steps allow. */
module RecoveryProgress {
  import opened Wrappers
  import opened Tables
  import opened Classification
  import opened Receive
  import opened World
  import opened Invariant
  import opened SettlementSafety
  import opened SettlementInvariant
  import opened Resolution
  import opened ResolutionSafety
  import opened Safety
  import opened StorageSteps
  import opened Recovery

  /** A page of listed batches, of any length: on each one's own Plugin no session is at work, and it was not
      handed over since it was listed, though it may have been settled. */
  ghost predicate Page(w: World, listed: seq<Uuid>) {
    Distinct(listed) &&
    forall b | b in listed :: b in w.db.batches && !w.db.batches[b].state.ManualRequired? &&
        w.db.batches[b].plugin !in w.sessions
  }

  lemma BatchesAfter(w: World, batch: Uuid)
    requires Inv(w) && OpenBatch(w.db, batch)
    ensures var next := ReconcileBatch(w.db, w.disk, batch, Observed(w, batch)).0;
            forall b | b in w.db.batches && b != batch :: b in next.batches && next.batches[b] == w.db.batches[b]
  {
    InvResolvable(w, batch);
    var next := ReconcileOpen(w, batch);
  }

  lemma SettledReconciles(db: Db, disk: map<StorageKey, Projection>, batch: Uuid, observed: seq<ObservedRef>)
    requires RowsOk(db) && FrozenOk(db) && batch in db.batches &&
             (db.batches[batch].state.Completed? || db.batches[batch].state.Aborted?)
    ensures ReconcileBatch(db, disk, batch, observed) == (db, Reconciled)
  {
    ReconcileClosed(db, disk, batch, observed);
  }

  ghost predicate OneDecided(db: Db, next: Db, batch: Uuid) {
    OpenBatches(next) == OpenBatches(db) - {batch} && forall b | b in db.batches && b != batch ::
        b in next.batches && next.batches[b] == db.batches[b]
  }

  lemma OpenPassStep(w: World, batch: Uuid)
    requires Inv(w) && OpenBatch(w.db, batch)
    ensures var (next, status) := ReconcileBatch(w.db, w.disk, batch, Observed(w, batch));
            status == Reconciled && OneDecided(w.db, next, batch)
  {
    ReconcileDecides(w, batch);
    BatchesAfter(w, batch);
  }

  lemma SettledPassStep(w: World, batch: Uuid)
    requires Inv(w) && batch in w.db.batches &&
             (w.db.batches[batch].state.Completed? || w.db.batches[batch].state.Aborted?)
    ensures var (next, status) := ReconcileBatch(w.db, w.disk, batch, Observed(w, batch));
            status == Reconciled && OneDecided(w.db, next, batch)
  {
    SettledReconciles(w.db, w.disk, batch, Observed(w, batch));
    assert batch !in OpenBatches(w.db);
  }

  /** The first batch of a page is decided, or was; the others are left as they are. */
  lemma PassStep(w: World, batch: Uuid) returns (next: Db)
    requires Inv(w) && batch in w.db.batches && !w.db.batches[batch].state.ManualRequired? &&
             w.db.batches[batch].plugin !in w.sessions
    ensures ReconcileBatch(w.db, w.disk, batch, Observed(w, batch)) == (next, Reconciled)
    ensures Inv(w.(db := next)) && OneDecided(w.db, next, batch)
  {
    next := ReconcileBatch(w.db, w.disk, batch, Observed(w, batch)).0;
    ReconcileKeepsInvariant(w, batch);
    if OpenBatch(w.db, batch) {
      OpenPassStep(w, batch);
    } else {
      SettledPassStep(w, batch);
    }
  }

  ghost predicate Passed(w: World, listed: seq<Uuid>, outcome: (Db, nat, bool)) {
    outcome.2 && outcome.1 == |listed| && OpenBatches(outcome.0) == OpenBatches(w.db) - (set b | b in listed) &&
        Inv(w.(db := outcome.0))
  }

  lemma RestOfPage(w: World, listed: seq<Uuid>, next: Db)
    requires listed != [] && Page(w, listed) && OneDecided(w.db, next, listed[0])
    ensures Page(w.(db := next), listed[1..])
  {
    assert listed == [listed[0]] + listed[1..];
  }

  lemma PassedOn(w: World, listed: seq<Uuid>, next: Db, rest: (Db, nat, bool))
    requires listed != [] && OneDecided(w.db, next, listed[0]) && Passed(w.(db := next), listed[1..], rest)
    ensures Passed(w, listed, Later(1, rest))
  {
    assert listed == [listed[0]] + listed[1..];
    assert (set b | b in listed) == {listed[0]} + (set b | b in listed[1..]);
  }

  /** One pass over a page gets through all of its batches without an error, decides exactly those that were
      open, and leaves every other open batch open. */
  lemma {:induction false} PassDecidesPage(w: World, listed: seq<Uuid>)
    requires Inv(w) && Page(w, listed)
    ensures Passed(w, listed, ReconcileAll(w.db, w.disk, w.refs, listed))
    decreases |listed|
  {
    if listed == [] {
      assert (set b | b in listed) == {};
    } else {
      assert listed[0] in listed;
      var next := PassStep(w, listed[0]);
      RestOfPage(w, listed, next);
      PassDecidesPage(w.(db := next), listed[1..]);
      assert ReadFor(w.db, w.refs, listed[0]) == Observed(w, listed[0]);
      PassNext(w.db, w.disk, w.refs, listed, next, Reconciled);
      PassedOn(w, listed, next, ReconcileAll(next, w.disk, w.refs, listed[1..]));
    }
  }

  lemma OpenPage(w: World, listed: seq<Uuid>)
    requires w.sessions == map[] && Distinct(listed) && forall b :: b in listed <==> b in OpenBatches(w.db)
    ensures Page(w, listed) && OpenBatches(w.db) == set b | b in listed
  {
  }

  lemma PassedEverything(w: World, listed: seq<Uuid>, outcome: (Db, nat, bool))
    requires Passed(w, listed, outcome) && OpenBatches(w.db) == set b | b in listed
    ensures OpenBatches(outcome.0) == {}
  {
  }

  /** With no session at work, one pass over all open batches leaves none open. */
  lemma PassDecidesAll(w: World, listed: seq<Uuid>)
    requires Inv(w) && w.sessions == map[] && Distinct(listed) && forall b :: b in listed <==> b in OpenBatches(w.db)
    ensures Passed(w, listed, ReconcileAll(w.db, w.disk, w.refs, listed)) &&
            OpenBatches(ReconcileAll(w.db, w.disk, w.refs, listed).0) == {}
  {
    OpenPage(w, listed);
    PassDecidesPage(w, listed);
    PassedEverything(w, listed, ReconcileAll(w.db, w.disk, w.refs, listed));
  }

  lemma StopsComputed(db: Db, disk: map<StorageKey, Projection>, batch: Uuid, observed: seq<ObservedRef>)
    requires batch in db.batches && db.batches[batch].state.ManualRequired? &&
             db.batches[batch].plugin in db.population.repositories
    requires PreparedOf(db, batch) != [] && LenientAll(PreparedOf(db, batch)) == PreparedOf(db, batch)
    requires Meaning(PreparedOf(db, batch), observed) != ReceiveManual &&
             SettleBatch(db, batch, Meaning(PreparedOf(db, batch), observed), false).None?
    ensures ReconcileBatch(db, disk, batch, observed).1 == ReconcileFailed <==>
            (Meaning(PreparedOf(db, batch), observed) == ReceiveCompleted ==>
                StagedSound(db, disk, OwnIdsOf(db, batch)))
  {
  }

  lemma HandedOverMeans(w: World, batch: Uuid)
    requires Inv(w) && batch in w.db.batches && w.db.batches[batch].state.ManualRequired?
    ensures PreparedOf(w.db, batch) != [] && LenientAll(PreparedOf(w.db, batch)) == PreparedOf(w.db, batch)
    ensures Meaning(PreparedOf(w.db, batch), Observed(w, batch)) == VerdictOf(w, batch)
    ensures RefsOld(w.db, w.refs, batch) <==> !RefsNew(w.db, w.refs, batch)
  {
    PreparedAt(w.db, w.objects, batch, 0);
    StrictlyPrepared(w.db, w.objects, batch);
    MeaningOfRefs(w, batch);
    var id := IntentId(batch, w.db.batches[batch].tags[0]);
    assert id.tag in w.db.batches[batch].tags;
    if RefsNew(w.db, w.refs, batch) { NewIsNotOld(w.db, w.objects, w.refs, id); }
  }

  lemma ClosedBatchFails(db: Db, batch: Uuid, verdict: Disposition, checked: bool)
    requires BatchRowsOk(db) && IntentRowsOk(db) && batch in db.batches && !IsOpen(db.batches[batch].state)
    ensures SettleBatch(db, batch, verdict, checked).None?
  {
    assert db.batches[batch].tags[0] in db.batches[batch].tags;
    ClosedIntentFails(db, IntentId(batch, db.batches[batch].tags[0]), verdict, checked);
  }

  /** A listed batch that was handed over before its turn: the pass changes nothing, and it stops there with an
      error exactly when the package would otherwise have settled the batch. */
  lemma HandedOverStops(w: World, batch: Uuid)
    requires Inv(w) && batch in w.db.batches && w.db.batches[batch].state.ManualRequired?
    ensures var (next, status) := ReconcileBatch(w.db, w.disk, batch, Observed(w, batch));
            next == w.db &&
            (status == ReconcileFailed <==>
                RefsOld(w.db, w.refs, batch) || StagedSound(w.db, w.disk, OwnIdsOf(w.db, batch)))
  {
    ReconcileClosed(w.db, w.disk, batch, Observed(w, batch));
    HandedOverMeans(w, batch);
    ClosedBatchFails(w.db, batch, VerdictOf(w, batch), false);
    StopsComputed(w.db, w.disk, batch, Observed(w, batch));
  }

  // ---- Collection

  /** In every reachable state no pointer references a projection that has a job, so the package's
      `projection_still_referenced` branch is never taken. */
  lemma NeverReferenced(start: World, events: seq<Event>, artifact: ArtifactId)
    requires Inv(start) && artifact in Run(start, events).db.gc
    ensures var db := Run(start, events).db;
            artifact in db.artifacts &&
            forall pid | pid in db.pointers :: db.pointers[pid].artifact != Some(artifact)
  {
    RunKeepsInvariant(start, events);
    var w := Run(start, events);
    CollectedUnused(w.db, w.disk, artifact);
  }

  /** A collector that claims a job and removes the projection takes these steps. */
  function CollectionSteps(artifact: ArtifactId): seq<Event> {
    [GcRecord(artifact, GcRunning), GcRemove(artifact), GcRecord(artifact, GcCompleted)]
  }

  lemma RunThree(w: World, a: Event, b: Event, c: Event)
    ensures Run(w, [a, b, c]) == Do(Do(Do(w, a), b), c)
  {
    assert [a, b, c][1..] == [b, c] && [b, c][1..] == [c] && [c][1..] == [];
    assert Run(w, [a, b, c]) == Run(Do(w, a), [b, c]);
    assert Run(Do(w, a), [b, c]) == Run(Do(Do(w, a), b), [c]);
    assert Run(Do(Do(w, a), b), [c]) == Run(Do(Do(Do(w, a), b), c), []);
  }

  lemma RecordDone(w: World, artifact: ArtifactId, state: GcState)
    requires artifact in w.db.gc
    ensures Do(w, GcRecord(artifact, state)) == w.(db := w.db.(gc := w.db.gc[artifact := state]))
  {
  }

  lemma RemoveDone(w: World, artifact: ArtifactId)
    requires artifact in w.db.gc && artifact in w.db.artifacts
    ensures Do(w, GcRemove(artifact)) == w.(disk := w.disk - {w.db.artifacts[artifact].storage})
  {
  }

  lemma CollectionDone(w: World, artifact: ArtifactId)
    requires artifact in w.db.gc && artifact in w.db.artifacts
    ensures Run(w, CollectionSteps(artifact)) ==
            w.(db := w.db.(gc := w.db.gc[artifact := GcCompleted]), disk := w.disk - {w.db.artifacts[artifact].storage})
  {
    RunThree(w, GcRecord(artifact, GcRunning), GcRemove(artifact), GcRecord(artifact, GcCompleted));
    var claimed := w.(db := w.db.(gc := w.db.gc[artifact := GcRunning]));
    RecordDone(w, artifact, GcRunning);
    RemoveDone(claimed, artifact);
    RecordDone(claimed.(disk := w.disk - {w.db.artifacts[artifact].storage}), artifact, GcCompleted);
    assert w.db.gc[artifact := GcRunning][artifact := GcCompleted] == w.db.gc[artifact := GcCompleted];
  }

  /** Collecting a pending job keeps the invariant, whichever collector does it: the one that looks for
      references finds none, and the one that does not look would have found none. */
  lemma CollectingIsSafe(w: World, artifact: ArtifactId)
    requires Inv(w) && artifact in w.db.gc && w.db.gc[artifact].GcPending?
    ensures artifact in w.db.artifacts && forall pid | pid in w.db.pointers ::
            w.db.pointers[pid].artifact != Some(artifact)
    ensures Inv(w.(db := w.db.(gc := w.db.gc[artifact := GcCompleted]),
            disk := w.disk - {w.db.artifacts[artifact].storage}))
  {
    CollectedUnused(w.db, w.disk, artifact);
    CollectionDone(w, artifact);
    RunKeepsInvariant(w, CollectionSteps(artifact));
  }
}
