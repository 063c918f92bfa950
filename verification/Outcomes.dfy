/** How a push ends, over whole runs: for its pointers, its history, its Versions and after a crash. */
module Outcomes {
  import opened Wrappers
  import opened Tables
  import opened Classification
  import opened Receive
  import opened Lifecycle
  import opened World
  import opened Invariant
  import opened Settlement
  import opened SettlementSafety
  import opened SettlementInvariant
  import opened Holding
  import opened Marking
  import opened Resolution
  import opened ResolutionSafety
  import opened Persisting
  import opened PrepareSafety
  import opened PrepareInvariant
  import opened PrepareStep
  import opened ApplyStep
  import opened Safety
  import opened Evolution
  import opened Permanence
  import StorageSteps

  // ---- Pointers

  /** A pointer never has two unresolved transitions, and while it has one it is unavailable, with
      the generation and projection the transition expects. */
  lemma PointerHeldOnce(start: World, events: seq<Event>, s: TransitionId, t: TransitionId)
    requires Inv(start)
    ensures var db := Run(start, events).db;
            s in db.transitions && TransitionUnresolved(db.transitions[s].state) ==>
              db.transitions[s].pointer in db.pointers &&
              var held := db.pointers[db.transitions[s].pointer];
              !held.available && held.generation == db.transitions[s].generation &&
              held.artifact == db.transitions[s].current &&
              ((t in db.transitions && TransitionUnresolved(db.transitions[t].state) &&
                db.transitions[t].pointer == db.transitions[s].pointer) ==>
                 s == t)
  {
    RunKeepsInvariant(start, events);
    var db := Run(start, events).db;
    if s in db.transitions && t in db.transitions && TransitionUnresolved(db.transitions[s].state) &&
        TransitionUnresolved(db.transitions[t].state)
       && db.transitions[t].pointer == db.transitions[s].pointer {
      PointerOwnedOnce(db, s, t);
    }
  }

  /** What a transition has done to its pointer when its batch is no longer open. */
  ghost function PointerEnd(state: ReceiveState, before: Pointer, t: TransitionId, operation: Operation): Pointer {
    match state
    case Aborted => before
    case Completed => Pointer(if operation == Move then Some(StagedFor(t)) else None, before.generation + 1,
        operation == Move)
    case _ => before.(available := false)
  }

  ghost predicate Closes(change: Change, batch: Uuid) {
    change == Holds(batch) || (change.Settles? && change.batch == batch)
  }

  lemma OthersKeepOpen(w: World, next: Db, change: Change, batch: Uuid)
    requires Explains(w, next, change) && !Closes(change, batch) && OpenBatch(w.db, batch)
    ensures OpenBatch(next, batch)
  {
  }

  /** The step that closes a batch settles it or holds it. */
  lemma ClosingChange(w: World, event: Event, batch: Uuid) returns (change: Change)
    requires Inv(w) && OpenBatch(w.db, batch) && !OpenBatch(Do(w, event).db, batch)
    ensures Explains(w, Do(w, event).db, change) && Closes(change, batch)
  {
    change := StepExplained(w, event);
    if !Closes(change, batch) { OthersKeepOpen(w, Do(w, event).db, change, batch); }
  }

  lemma OwnFrozen(db: Db, batch: Uuid, t: TransitionId)
    requires RowsOk(db) && FrozenOk(db) && OpenBatch(db, batch) && t in db.transitions && t.intent.batch == batch
    ensures t.intent in db.intents && OwnerOf(batch, db.transitions[t].pointer) == t
    ensures PointerFrozen(db, db.transitions[t])
  {
    assert TransitionOpen(db.transitions[t].state);
  }

  /** The pointer of a transition whose batch is closed, told from the rows that opened it. */
  ghost predicate PointerEnds(db: Db, next: Db, batch: Uuid, t: TransitionId)
    requires t in db.transitions
  {
    var row := db.transitions[t];
    t.intent in db.intents && batch in next.batches && row.pointer in next.pointers &&
    next.pointers[row.pointer] ==
      PointerEnd(next.batches[batch].state, Pointer(row.current, row.generation, true), t,
          db.intents[t.intent].operation)
  }

  lemma SettledPointerEnd(db: Db, next: Db, batch: Uuid, verdict: Disposition, t: TransitionId)
    requires t in db.transitions && t.intent.batch == batch && t.intent in db.intents &&
             OwnerOf(batch, db.transitions[t].pointer) == t
    requires db.transitions[t].pointer in db.pointers && verdict != ReceiveManual
    requires PointerEffect(db, next.pointers, batch, verdict) && BatchEffect(db.batches, next.batches, batch, verdict)
    requires db.transitions[t].staged == if db.intents[t.intent].operation == Move then Some(StagedFor(t)) else None
    ensures PointerEnds(db, next, batch, t)
  {
  }

  lemma HeldPointerEnd(db: Db, next: Db, batch: Uuid, t: TransitionId)
    requires t in db.transitions && t.intent in db.intents && PointerFrozen(db, db.transitions[t]) &&
             HeldEffect(db, next, batch)
    ensures PointerEnds(db, next, batch, t)
  {
  }

  lemma SettledPointer(db: Db, next: Db, batch: Uuid, verdict: Disposition, t: TransitionId)
    requires RowsOk(db) && FrozenOk(db) && OpenBatch(db, batch) && t in db.transitions && t.intent.batch == batch
    requires SettledEffect(db, next, batch, verdict)
    ensures PointerEnds(db, next, batch, t)
  {
    OwnFrozen(db, batch, t);
    SettledPointerEnd(db, next, batch, verdict, t);
  }

  lemma ClosedPointer(w: World, next: Db, change: Change, batch: Uuid, t: TransitionId)
    requires RowsOk(w.db) && FrozenOk(w.db) && OpenBatch(w.db, batch) && Explains(w, next, change) &&
             Closes(change, batch)
    requires t in w.db.transitions && t.intent.batch == batch
    ensures PointerEnds(w.db, next, batch, t)
  {
    if change.Settles? {
      SettledPointer(w.db, next, batch, change.verdict, t);
    } else {
      OwnFrozen(w.db, batch, t);
      HeldPointerEnd(w.db, next, batch, t);
    }
  }

  lemma PreparedPointer(db: Db, next: Db, objects: Objects, plugin: Uuid, session: Uuid, batch: Uuid, tags: seq<Tag>,
          builds: Builds, t: TransitionId)
    requires RowsOk(db) && PreparedEffect(db, next, objects, plugin, session, batch, tags, builds)
    requires t in next.transitions && t.intent.batch == batch
    ensures t !in db.transitions && t.intent in next.intents
    ensures var row := next.transitions[t];
            row.pointer in db.pointers && db.pointers[row.pointer] == Pointer(row.current, row.generation, true)
  {
    assert t !in db.transitions;
    AddedTransition(db, next, objects, plugin, session, batch, tags, builds, t);
  }

  /** From the push to the step that closes its batch, whatever happens in between: an abort gives each
      pointer back exactly as it was before the push, a completion raises its generation by one. */
  lemma PointerOutcome(w: World, plugin: Uuid, commands: seq<RefCommand>, batch: Uuid, builds: Builds, loading: Loading,
          events: seq<Event>, last: Event, t: TransitionId)
    requires Inv(w) && Preparable(w, plugin, commands, batch) && PlansOf(w, plugin, commands, batch, builds) != []
    requires var prepared := Do(w, PrepareReceive(plugin, commands, batch, builds, loading));
             t in prepared.db.transitions && t.intent.batch == batch && OpenBatch(Run(prepared, events).db, batch) &&
             !OpenBatch(Do(Run(prepared, events), last).db, batch)
    ensures var prepared := Do(w, PrepareReceive(plugin, commands, batch, builds, loading));
            var after := Do(Run(prepared, events), last).db;
            var pid := prepared.db.transitions[t].pointer;
            t.intent in prepared.db.intents && batch in after.batches && pid in w.db.pointers &&
                pid in after.pointers &&
            after.pointers[pid] == PointerEnd(after.batches[batch].state, w.db.pointers[pid], t,
                prepared.db.intents[t.intent].operation)
  {
    var prepared := Do(w, PrepareReceive(plugin, commands, batch, builds, loading));
    var made := PreparationSucceeds(w, plugin, commands, batch, builds, loading);
    PreparedPointer(w.db, made, w.objects, plugin, w.sessions[plugin].id, batch,
        PlanTags(PlansOf(w, plugin, commands, batch, builds)), builds, t);
    StepKeepsInvariant(w, PrepareReceive(plugin, commands, batch, builds, loading));
    RunKeepsInvariant(prepared, events);
    RunExtends(prepared, events);
    OpenPointerOutcome(prepared, Run(prepared, events), last, batch, t);
  }

  /** The same, from any two states of a run in which the batch is open. */
  lemma OpenPointerOutcome(w: World, mid: World, last: Event, batch: Uuid, t: TransitionId)
    requires Inv(w) && Inv(mid) && Extends(w.db, mid.db) && t in w.db.transitions && t.intent.batch == batch
    requires OpenBatch(mid.db, batch) && !OpenBatch(Do(mid, last).db, batch)
    ensures PointerEnds(w.db, Do(mid, last).db, batch, t)
  {
    ColumnsKept(w.db, mid.db, t);
    ClosingPointer(mid, last, batch, t);
    EarlierPointer(w.db, mid.db, Do(mid, last).db, batch, t);
  }

  lemma EarlierPointer(db: Db, mid: Db, next: Db, batch: Uuid, t: TransitionId)
    requires TransitionRowsOk(db) && Extends(db, mid) && t in db.transitions && t in mid.transitions &&
             PointerEnds(mid, next, batch, t)
    ensures PointerEnds(db, next, batch, t)
  {
    ColumnsKept(db, mid, t);
  }

  lemma ColumnsKept(db: Db, next: Db, t: TransitionId)
    requires TransitionRowsOk(db) && Extends(db, next) && t in db.transitions
    ensures t.intent in db.intents && t.intent in next.intents &&
            next.intents[t.intent].operation == db.intents[t.intent].operation
    ensures t in next.transitions && next.transitions[t] == db.transitions[t].(state := next.transitions[t].state)
  {
  }

  lemma ClosingPointer(w: World, last: Event, batch: Uuid, t: TransitionId)
    requires Inv(w) && OpenBatch(w.db, batch) && !OpenBatch(Do(w, last).db, batch)
    requires t in w.db.transitions && t.intent.batch == batch
    ensures PointerEnds(w.db, Do(w, last).db, batch, t)
  {
    var change := ClosingChange(w, last, batch);
    ClosedPointer(w, Do(w, last).db, change, batch, t);
  }

  // ---- History

  /** A batch that was decided stays decided, and its intents never gain another history row, however
      often it is resolved or reconciled again. */
  lemma DecidedOnce(w: World, events: seq<Event>, id: IntentId)
    requires Inv(w) && id in w.db.intents && !IsOpen(w.db.intents[id].state)
    ensures var after := Run(w, events).db;
            id in after.intents && after.intents[id] == w.db.intents[id] &&
            RowsFor(after.history, id) == RowsFor(w.db.history, id) == if w.db.intents[id].state.Completed? then 1
                else 0
  {
    RunKeepsInvariant(w, events);
    RunExtends(w, events);
    var after := Run(w, events).db;
    assert RowsFor(after.history, id) == if Recorded(after, id) then 1 else 0;
    assert RowsFor(w.db.history, id) == if Recorded(w.db, id) then 1 else 0;
  }

  /** Replaying the rows of a tag gives its Version, and every row continues from what stood before it. */
  lemma HistoryTellsVersions(start: World, events: seq<Event>, key: TagKey, n: nat)
    requires Inv(start)
    ensures var db := Run(start, events).db;
            Replay(db.history, key) == StandingOf(db.versions, key) && start.db.history <= db.history &&
            (n < |db.history| ==> Continues(db.history[n], Replay(db.history[..n], db.history[n].key)))
  {
    RunKeepsInvariant(start, events);
    RunExtends(start, events);
  }

  // ---- Collection

  /** A projection that was ever handed to a collector is never referenced again, so removing it
      without looking is safe, and a collector that looks finds no reference. */
  lemma CollectedForever(w: World, events: seq<Event>, artifact: ArtifactId)
    requires Inv(w) && artifact in w.db.gc
    ensures var db := Run(w, events).db;
            artifact in db.gc && artifact in db.artifacts &&
                (forall pid | pid in db.pointers :: db.pointers[pid].artifact != Some(artifact)) &&
            forall t | t in db.transitions && TransitionUnresolved(db.transitions[t].state) ::
              db.transitions[t].staged != Some(artifact) && db.transitions[t].current != Some(artifact)
  {
    RunKeepsInvariant(w, events);
    RunExtends(w, events);
    StorageSteps.CollectedUnused(Run(w, events).db, Run(w, events).disk, artifact);
  }

  // ---- Crashes

  lemma VanishedReconciles(w: World, plugin: Uuid, batch: Uuid)
    requires batch in w.db.batches && w.db.batches[batch].plugin == plugin
    ensures Do(Do(w, Vanish(plugin)), Reconcile(batch)) ==
            DropSession(w.(db := ReconcileBatch(w.db, w.disk, batch, Observed(w, batch)).0), plugin)
  {
    assert Do(w, Vanish(plugin)) == DropSession(w, plugin);
    assert DoReconcile(DropSession(w, plugin), batch) ==
           DropSession(w, plugin).(db := ReconcileBatch(w.db, w.disk, batch, Observed(w, batch)).0);
  }

  lemma FinalizeIs(w: World, plugin: Uuid, prepared: Option<Uuid>, holds: bool)
    requires plugin in w.sessions && w.sessions[plugin].phase == Applied(prepared)
    ensures Do(w, Finalize(plugin, holds)) == DoFinalize(w, plugin, prepared, holds)
  {
  }

  lemma FinalizeDoes(w: World, plugin: Uuid, batch: Uuid, holds: bool)
    requires Inv(w) && plugin in w.sessions && w.sessions[plugin].phase == Applied(Some(batch))
    ensures OpenBatch(w.db, batch) && w.db.batches[batch].plugin == plugin && StillStaged(w.db, batch)
    ensures Do(w, Finalize(plugin, holds)) ==
            DropSession(w.(db := ResolveRows(w.db, w.disk, batch, Some(VerdictOf(w, batch)), Observed(w, batch),
                holds).0), plugin)
  {
    HeldOpen(w, plugin, batch);
    OpenVerdict(w, batch);
    FinalizeResolves(w, plugin, batch, holds);
    FinalizeIs(w, plugin, Some(batch), holds);
  }

  lemma DeclaredAlike(w: World, batch: Uuid, holds: bool)
    requires Inv(w) && OpenBatch(w.db, batch) && (RefsNew(w.db, w.refs, batch) ==> Completable(w.db, w.disk, batch))
    ensures ResolveRows(w.db, w.disk, batch, Some(VerdictOf(w, batch)), Observed(w, batch), holds).0 ==
            ReconcileBatch(w.db, w.disk, batch, Observed(w, batch)).0
  {
    InvResolvable(w, batch);
    var resolved := ResolveOpen(w, batch, Some(VerdictOf(w, batch)), holds);
    var reconciled := ReconcileOpen(w, batch);
    SettleAlike(w, batch, VerdictOf(w, batch));
  }

  /** A session that dies after Git has answered loses nothing: reconciling its batch leads to the very
      state that finishing the session would have led to. */
  lemma CrashLosesNothing(w: World, plugin: Uuid, batch: Uuid, holds: bool)
    requires Inv(w) && plugin in w.sessions && w.sessions[plugin].phase == Applied(Some(batch))
    requires RefsNew(w.db, w.refs, batch) ==> StagedIntact(w.db, w.disk, batch)
    ensures Do(w, Finalize(plugin, holds)) == Do(Do(w, Vanish(plugin)), Reconcile(batch))
  {
    FinalizeDoes(w, plugin, batch, holds);
    VanishedReconciles(w, plugin, batch);
    DeclaredAlike(w, batch, holds);
  }

  lemma HeldAfterMark(db: Db, aid: ArtifactId, a: Db, b: Db, batch: Uuid)
    requires HeldEffect(db, a, batch) && HeldEffect(MarkFailed(db, aid), b, batch) && a.artifacts == b.artifacts
    ensures a == b
  {
    assert a.batches == b.batches && a.intents == b.intents && a.transitions == b.transitions;
  }

  lemma MarkLeavesOpen(w: World, batch: Uuid, aid: ArtifactId)
    requires Inv(w.(db := MarkFailed(w.db, aid))) && OpenBatch(w.db, batch) && StagedBy(w.db, batch, aid) &&
             RefsNew(w.db, w.refs, batch)
    requires aid.transition in w.db.transitions && w.db.transitions[aid.transition].staged == Some(aid)
    ensures var next := ReconcileBatch(MarkFailed(w.db, aid), w.disk, batch, Observed(w, batch)).0;
            HeldEffect(MarkFailed(w.db, aid), next, batch) && next.artifacts == MarkFailed(w.db, aid).artifacts
  {
    var marked := w.(db := MarkFailed(w.db, aid));
    assert RefsNew(marked.db, marked.refs, batch) && !StillStaged(marked.db, batch);
    InvResolvable(marked, batch);
    var next := ReconcileOpen(marked, batch);
  }

  /** Reconciling the rows that were left behind gives these rows. */
  ghost predicate Recovers(db: Db, disk: map<StorageKey, Projection>, batch: Uuid, observed: seq<ObservedRef>, left: Db,
          whole: Db)
  {
    batch in db.batches && batch in left.batches &&
        left.batches[batch] == db.batches[batch].(state := left.batches[batch].state) &&
    ReconcileBatch(left, disk, batch, observed).0 == whole
  }

  lemma MarkedRecovers(w: World, batch: Uuid) returns (left: Db, whole: Db)
    requires Inv(w) && OpenBatch(w.db, batch) && w.db.batches[batch].plugin !in w.sessions
    requires RefsNew(w.db, w.refs, batch) && !StagedIntact(w.db, w.disk, batch)
    ensures left == ResolveRows(w.db, w.disk, batch, Some(VerdictOf(w, batch)), Observed(w, batch), false).0
    ensures whole == ResolveRows(w.db, w.disk, batch, Some(VerdictOf(w, batch)), Observed(w, batch), true).0
    ensures Recovers(w.db, w.disk, batch, Observed(w, batch), left, whole)
  {
    InvResolvable(w, batch);
    left := ResolveOpen(w, batch, Some(VerdictOf(w, batch)), false);
    whole := ResolveOpen(w, batch, Some(VerdictOf(w, batch)), true);
    var aid := FirstDamage(w, batch).artifact;
    MarkingKeepsInvariant(w, batch, aid);
    MarkLeavesOpen(w, batch, aid);
    HeldAfterMark(w.db, aid, whole, ReconcileBatch(left, w.disk, batch, Observed(w, batch)).0, batch);
  }

  lemma ClosedRecovers(db: Db, next: Db, disk: map<StorageKey, Projection>, batch: Uuid, verdict: Disposition,
          observed: seq<ObservedRef>)
    requires SettledEffect(db, next, batch, verdict) && RowsOk(next) && FrozenOk(next)
    ensures Recovers(db, disk, batch, observed, next, next)
  {
    ReconcileClosed(next, disk, batch, observed);
  }

  lemma SettledRecovers(w: World, batch: Uuid) returns (left: Db, whole: Db)
    requires Inv(w) && OpenBatch(w.db, batch) && w.db.batches[batch].plugin !in w.sessions
    requires RefsNew(w.db, w.refs, batch) ==> Completable(w.db, w.disk, batch)
    ensures left == ResolveRows(w.db, w.disk, batch, Some(VerdictOf(w, batch)), Observed(w, batch), false).0
    ensures whole == ResolveRows(w.db, w.disk, batch, Some(VerdictOf(w, batch)), Observed(w, batch), true).0
    ensures Recovers(w.db, w.disk, batch, Observed(w, batch), left, whole)
  {
    InvResolvable(w, batch);
    left := ResolveOpen(w, batch, Some(VerdictOf(w, batch)), false);
    whole := ResolveOpen(w, batch, Some(VerdictOf(w, batch)), true);
    SettlingKeepsInvariant(w, left, batch, VerdictOf(w, batch));
    ClosedRecovers(w.db, left, w.disk, batch, VerdictOf(w, batch), Observed(w, batch));
  }

  lemma DroppedReconciles(w: World, plugin: Uuid, batch: Uuid, left: Db, whole: Db)
    requires batch in w.db.batches && w.db.batches[batch].plugin == plugin
    requires Recovers(w.db, w.disk, batch, Observed(w, batch), left, whole)
    ensures Do(DropSession(w.(db := left), plugin), Reconcile(batch)) == DropSession(w.(db := whole), plugin)
  {
    assert Do(DropSession(w.(db := left), plugin), Reconcile(batch)) == DoReconcile(DropSession(w.(db := left), plugin),
           batch);
  }

  /** A session that dies between marking a damaged projection and handing its batch over loses nothing either:
      whatever it finds, reconciling afterwards leads to the state that finishing the session leads to. */
  lemma DyingIsFinishing(w: World, plugin: Uuid, batch: Uuid)
    requires Inv(w) && plugin in w.sessions && w.sessions[plugin].phase == Applied(Some(batch))
    ensures Do(Do(w, Finalize(plugin, false)), Reconcile(batch)) == Do(w, Finalize(plugin, true))
  {
    FinalizeDoes(w, plugin, batch, false);
    FinalizeDoes(w, plugin, batch, true);
    var left, whole := Recovered(w, plugin, batch);
    DroppedReconciles(w, plugin, batch, left, whole);
  }

  lemma Recovered(w: World, plugin: Uuid, batch: Uuid) returns (left: Db, whole: Db)
    requires Inv(w) && OpenBatch(w.db, batch) && w.db.batches[batch].plugin == plugin && StillStaged(w.db, batch)
    ensures left == ResolveRows(w.db, w.disk, batch, Some(VerdictOf(w, batch)), Observed(w, batch), false).0
    ensures whole == ResolveRows(w.db, w.disk, batch, Some(VerdictOf(w, batch)), Observed(w, batch), true).0
    ensures Recovers(w.db, w.disk, batch, Observed(w, batch), left, whole)
  {
    var dropped := DropSession(w, plugin);
    DroppingKeepsInvariant(w, plugin);
    if RefsNew(w.db, w.refs, batch) && !StagedIntact(w.db, w.disk, batch) {
      left, whole := MarkedRecovers(dropped, batch);
    } else {
      left, whole := SettledRecovers(dropped, batch);
    }
  }

  lemma ApplyingIsOld(w: World, plugin: Uuid, batch: Uuid, commands: seq<RefCommand>)
    requires Inv(w) && plugin in w.sessions && w.sessions[plugin].phase == Applying(commands, Some(batch))
    ensures OpenBatch(w.db, batch) && w.db.batches[batch].plugin == plugin && RefsOld(w.db, w.refs, batch) &&
            !RefsNew(w.db, w.refs, batch)
  {
    assert SessionOk(w.db, w.refs, w.disk, plugin, w.sessions[plugin]);
    OneVerdict(w, batch);
  }

  /** A session that dies before Git applied anything: its batch is aborted. */
  lemma EarlyCrashAborts(w: World, plugin: Uuid, batch: Uuid, commands: seq<RefCommand>)
    requires Inv(w) && plugin in w.sessions && w.sessions[plugin].phase == Applying(commands, Some(batch))
    ensures var after := Do(Do(w, Vanish(plugin)), Reconcile(batch));
            batch in after.db.batches && after.db.batches[batch].state.Aborted?
  {
    ApplyingIsOld(w, plugin, batch, commands);
    ReconcileDecides(w, batch);
    VanishedReconciles(w, plugin, batch);
  }

  lemma RefusedSteps(w: World, plugin: Uuid, batch: Uuid, commands: seq<RefCommand>)
    requires plugin in w.sessions && w.sessions[plugin].phase == Applying(commands, Some(batch))
    ensures Do(w, ApplyRefs(plugin, false)) == Enter(w, plugin, Applied(Some(batch)))
    ensures Do(Enter(w, plugin, Applied(Some(batch))), Vanish(plugin)) == Do(w, Vanish(plugin))
  {
    assert DropSession(Enter(w, plugin, Applied(Some(batch))), plugin) == DropSession(w, plugin);
  }

  /** And it ends exactly as if Git had refused the push. */
  lemma EarlyCrashIsRefusal(w: World, plugin: Uuid, batch: Uuid, commands: seq<RefCommand>, holds: bool)
    requires Inv(w) && plugin in w.sessions && w.sessions[plugin].phase == Applying(commands, Some(batch))
    ensures Do(Do(w, ApplyRefs(plugin, false)), Finalize(plugin, holds)) == Do(Do(w, Vanish(plugin)), Reconcile(batch))
  {
    RefusedSteps(w, plugin, batch, commands);
    StepKeepsInvariant(w, ApplyRefs(plugin, false));
    ApplyingIsOld(w, plugin, batch, commands);
    CrashLosesNothing(Enter(w, plugin, Applied(Some(batch))), plugin, batch, holds);
  }
}
