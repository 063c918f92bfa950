/** What resolving and reconciling do to a batch in a reachable state. */
module ResolutionSafety {
  import opened Wrappers
  import opened Tables
  import opened Classification
  import opened Receive
  import opened Lifecycle
  import opened World
  import opened Invariant
  import opened Settlement
  import opened SettlementSafety
  import opened SettlementInvariant
  import opened Holding
  import opened Marking
  import opened Refusal
  import opened Resolution

  // ---- Both implementations settle alike

  lemma SameRows(db: Db, a: Db, b: Db, batch: Uuid, plugin: Uuid, tags: seq<Tag>, verdict: Disposition)
    requires IntentsSettled(db.intents, a.intents, batch, tags, verdict) &&
             IntentsSettled(db.intents, b.intents, batch, tags, verdict)
    requires TransitionsSettled(db.transitions, a.transitions, batch, tags, verdict)
    requires TransitionsSettled(db.transitions, b.transitions, batch, tags, verdict)
    requires VersionsSettled(db.intents, db.versions, a.versions, batch, plugin, tags, verdict)
    requires VersionsSettled(db.intents, db.versions, b.versions, batch, plugin, tags, verdict)
    requires PluginsSettled(db.intents, db.plugins, a.plugins, batch, plugin, tags, verdict)
    requires PluginsSettled(db.intents, db.plugins, b.plugins, batch, plugin, tags, verdict)
    ensures a.intents == b.intents && a.transitions == b.transitions && a.versions == b.versions &&
            a.plugins == b.plugins
  {
  }

  lemma SameProjections(db: Db, a: Db, b: Db, batch: Uuid, plugin: Uuid, tags: seq<Tag>, verdict: Disposition)
    requires PointersSettled(db.intents, db.transitions, db.pointers, a.pointers, batch, plugin, tags, verdict)
    requires PointersSettled(db.intents, db.transitions, db.pointers, b.pointers, batch, plugin, tags, verdict)
    requires ArtifactsSettled(db.transitions, db.artifacts, a.artifacts, batch, tags, verdict)
    requires ArtifactsSettled(db.transitions, db.artifacts, b.artifacts, batch, tags, verdict)
    requires GcSettled(db.transitions, db.gc, a.gc, batch, tags, verdict) &&
             GcSettled(db.transitions, db.gc, b.gc, batch, tags, verdict)
    ensures a.pointers == b.pointers && a.artifacts == b.artifacts && a.gc == b.gc
  {
    assert a.gc.Keys == b.gc.Keys;
  }

  /** The effect of settling determines every table. */
  lemma SettledOnce(db: Db, a: Db, b: Db, batch: Uuid, plugin: Uuid, tags: seq<Tag>, verdict: Disposition)
    requires TagsSettled(db, a, batch, plugin, tags, verdict) && TagsSettled(db, b, batch, plugin, tags, verdict)
    ensures a == b
  {
    SameRows(db, a, b, batch, plugin, tags, verdict);
    SameProjections(db, a, b, batch, plugin, tags, verdict);
  }

  /** Both implementations succeed alike and fail alike, and settle to the same tables. */
  lemma SettleAlike(w: World, batch: Uuid, verdict: Disposition)
    requires RowsOk(w.db) && IntentsOk(w.db, w.objects) && ProjectionsOk(w.db, w.disk) && OpenBatch(w.db, batch) &&
             verdict != ReceiveManual
    ensures SettleBatch(w.db, batch, verdict, true) == SettleBatch(w.db, batch, verdict, false)
    ensures SettleBatch(w.db, batch, verdict, true).Some? <==>
            (verdict == ReceiveCompleted ==> StillStaged(w.db, batch))
  {
    SettlesExactly(w, batch, verdict, true);
    SettlesExactly(w, batch, verdict, false);
    if verdict == ReceiveCompleted ==> StillStaged(w.db, batch) { SettledAlike(w, batch, verdict); }
  }

  lemma SettledAlike(w: World, batch: Uuid, verdict: Disposition)
    requires RowsOk(w.db) && IntentsOk(w.db, w.objects) && ProjectionsOk(w.db, w.disk) && OpenBatch(w.db, batch) &&
             verdict != ReceiveManual
    requires verdict == ReceiveCompleted ==> StillStaged(w.db, batch)
    ensures SettleBatch(w.db, batch, verdict, true) == SettleBatch(w.db, batch, verdict, false)
  {
    OpenBatchReady(w, batch, verdict);
    var plugin, tags := w.db.batches[batch].plugin, w.db.batches[batch].tags;
    var a := SettleTagsSucceeds(w.db, batch, plugin, tags, verdict, true);
    var b := SettleTagsSucceeds(w.db, batch, plugin, tags, verdict, false);
    SettledOnce(w.db, a, b, batch, plugin, tags, verdict);
  }

  // ---- The coordinator

  lemma OpenIds(db: Db, batch: Uuid)
    requires RowsOk(db) && OpenBatch(db, batch)
    ensures IdsOfBatch(db, batch, OwnIdsOf(db, batch))
  {
    forall t { OwnBatchIds(db, batch, t); }
  }

  lemma OpenUnsettled(db: Db, batch: Uuid)
    requires RowsOk(db) && OpenBatch(db, batch)
    ensures IdsOfBatch(db, batch, Unsettled(db, BatchIds(db, batch, db.batches[batch].tags)))
  {
    forall t { UnsettledOfBatch(db, batch, t); }
  }

  lemma HoldMarked(w: World, batch: Uuid, aid: ArtifactId, ids: seq<TransitionId>)
    requires RowsOk(w.db) && FrozenOk(w.db) && OpenBatch(w.db, batch) && IdsOfBatch(w.db, batch, ids) &&
             StagedBy(w.db, batch, aid)
    ensures var next := MarkManual(MarkFailed(w.db, aid), batch, ids);
            HeldEffect(w.db, next, batch) && next.artifacts == MarkFailed(w.db, aid).artifacts
  {
    var marked := MarkFailed(w.db, aid);
    assert RowsOk(marked) && FrozenOk(marked);
    MarkOpenManual(marked, batch, ids);
  }

  /** The rows and projections that a resolver relies on, and the verdict it will read. */
  ghost predicate Resolvable(w: World, batch: Uuid) {
    RowsOk(w.db) && IntentsOk(w.db, w.objects) && ProjectionsOk(w.db, w.disk) && OpenBatch(w.db, batch) &&
    Meaning(PreparedOf(w.db, batch), Observed(w, batch)) == VerdictOf(w, batch)
  }

  ghost predicate Consistent(w: World, batch: Uuid, declared: Option<Disposition>) {
    declared.None? || declared == Some(VerdictOf(w, batch))
  }

  ghost predicate Accepted(w: World, batch: Uuid, declared: Option<Disposition>) {
    Consistent(w, batch, declared) && (VerdictOf(w, batch) == ReceiveCompleted ==> Completable(w.db, w.disk, batch))
  }

  ghost function OwnIdsOf(db: Db, batch: Uuid): seq<TransitionId>
    requires batch in db.batches
  {
    BatchIds(db, batch, db.batches[batch].tags)
  }

  /** The projection that the coordinator finds damaged, if it is asked to complete the batch. */
  ghost function FirstDamage(w: World, batch: Uuid): Verified
    requires batch in w.db.batches
  {
    VerifyStaged(w.db, w.disk, OwnIdsOf(w.db, batch))
  }

  /** Whether the coordinator, asked to complete the batch, marks a projection as failed. */
  ghost predicate MarksOne(w: World, batch: Uuid, declared: Option<Disposition>) {
    Consistent(w, batch, declared) && VerdictOf(w, batch) == ReceiveCompleted && !StagedIntact(w.db, w.disk, batch)
  }

  lemma SettlesComputed(db: Db, disk: map<StorageKey, Projection>, batch: Uuid, declared: Option<Disposition>,
          observed: seq<ObservedRef>, holds: bool)
    requires batch in db.batches && Meaning(PreparedOf(db, batch), observed) != ReceiveManual
    requires declared.None? || declared == Some(Meaning(PreparedOf(db, batch), observed))
    requires Meaning(PreparedOf(db, batch), observed) == ReceiveCompleted ==>
             VerifyStaged(db, disk, OwnIdsOf(db, batch)).Sound?
    ensures var settled := SettleBatch(db, batch, Meaning(PreparedOf(db, batch), observed), true);
            ResolveRows(db, disk, batch, declared, observed, holds) ==
              if settled.Some? then (settled.value, Resolved)
              else (HandOver(db, batch, OwnIdsOf(db, batch), holds), ManualRecovery)
  {
  }

  lemma DamageComputed(db: Db, disk: map<StorageKey, Projection>, batch: Uuid, declared: Option<Disposition>,
          observed: seq<ObservedRef>, holds: bool, aid: ArtifactId)
    requires batch in db.batches && Meaning(PreparedOf(db, batch), observed) == ReceiveCompleted
    requires declared.None? || declared == Some(ReceiveCompleted)
    requires VerifyStaged(db, disk, OwnIdsOf(db, batch)) == Damaged(aid)
    ensures ResolveRows(db, disk, batch, declared, observed, holds) ==
            (HandOver(MarkFailed(db, aid), batch, OwnIdsOf(db, batch), holds), ManualRecovery)
  {
  }

  lemma ResolveAccepted(w: World, batch: Uuid, declared: Option<Disposition>, holds: bool) returns (next: Db)
    requires Resolvable(w, batch) && Accepted(w, batch, declared)
    ensures ResolveRows(w.db, w.disk, batch, declared, Observed(w, batch), holds) == (next, Resolved)
    ensures SettleBatch(w.db, batch, VerdictOf(w, batch), true) == Some(next) &&
            SettledEffect(w.db, next, batch, VerdictOf(w, batch))
  {
    CoordinatorFinds(w, batch);
    next := SettleBatchSucceeds(w, batch, VerdictOf(w, batch), true);
    SettlesComputed(w.db, w.disk, batch, declared, Observed(w, batch), holds);
  }

  lemma HandingOver(w: World, batch: Uuid, holds: bool) returns (next: Db)
    requires Resolvable(w, batch)
    ensures next == HandOver(w.db, batch, OwnIdsOf(w.db, batch), holds)
    ensures if holds then HeldEffect(w.db, next, batch) && next.artifacts == w.db.artifacts else next == w.db
  {
    OpenIds(w.db, batch);
    MarkOpenManual(w.db, batch, OwnIdsOf(w.db, batch));
    next := HandOver(w.db, batch, OwnIdsOf(w.db, batch), holds);
  }

  lemma ResolveInconsistent(w: World, batch: Uuid, declared: Option<Disposition>, holds: bool)
    requires Resolvable(w, batch) && !Consistent(w, batch, declared)
    ensures ResolveRows(w.db, w.disk, batch, declared, Observed(w, batch), holds) ==
            (HandOver(w.db, batch, OwnIdsOf(w.db, batch), holds), if holds then Resolved else ManualRecovery)
  {
  }

  /** Every projection is intact, but the settling transaction fails on one that was marked before. */
  lemma ResolveUndone(w: World, batch: Uuid, declared: Option<Disposition>, holds: bool)
    requires Resolvable(w, batch) && Consistent(w, batch, declared) && VerdictOf(w, batch) == ReceiveCompleted
    requires StagedIntact(w.db, w.disk, batch) && !StillStaged(w.db, batch)
    ensures ResolveRows(w.db, w.disk, batch, declared, Observed(w, batch), holds) ==
            (HandOver(w.db, batch, OwnIdsOf(w.db, batch), holds), ManualRecovery)
  {
    CoordinatorFinds(w, batch);
    SettleBatchFails(w.db, batch, true);
    SettlesComputed(w.db, w.disk, batch, declared, Observed(w, batch), holds);
  }

  /** The two ways in which a batch that is not accepted reaches an operator without a mark. */
  lemma ResolveRefused(w: World, batch: Uuid, declared: Option<Disposition>, holds: bool) returns (next: Db)
    requires Resolvable(w, batch) && !Accepted(w, batch, declared) && !MarksOne(w, batch, declared)
    ensures ResolveRows(w.db, w.disk, batch, declared, Observed(w, batch), holds) ==
            (next, if holds && !Consistent(w, batch, declared) then Resolved else ManualRecovery)
    ensures if holds then HeldEffect(w.db, next, batch) && next.artifacts == w.db.artifacts else next == w.db
  {
    next := HandingOver(w, batch, holds);
    if Consistent(w, batch, declared) {
      ResolveUndone(w, batch, declared, holds);
    } else {
      ResolveInconsistent(w, batch, declared, holds);
    }
  }

  lemma ResolveDamaged(w: World, batch: Uuid, declared: Option<Disposition>, holds: bool) returns (next: Db)
    requires Resolvable(w, batch) && Consistent(w, batch, declared) && VerdictOf(w, batch) == ReceiveCompleted &&
             !StagedIntact(w.db, w.disk, batch)
    ensures ResolveRows(w.db, w.disk, batch, declared, Observed(w, batch), holds) == (next, ManualRecovery)
    ensures FirstDamage(w, batch).Damaged? && StagedBy(w.db, batch, FirstDamage(w, batch).artifact)
    ensures var marked := MarkFailed(w.db, FirstDamage(w, batch).artifact);
            if holds then HeldEffect(w.db, next, batch) && next.artifacts == marked.artifacts else next == marked
  {
    var ids := OwnIdsOf(w.db, batch);
    OpenIds(w.db, batch);
    CoordinatorFinds(w, batch);
    var aid := FirstDamage(w, batch).artifact;
    HoldMarked(w, batch, aid, ids);
    DamageComputed(w.db, w.disk, batch, declared, Observed(w, batch), holds, aid);
    next := HandOver(MarkFailed(w.db, aid), batch, ids, holds);
  }

  lemma InvResolvable(w: World, batch: Uuid)
    requires Inv(w) && OpenBatch(w.db, batch)
    ensures Resolvable(w, batch) && VerdictFits(w.db, w.refs, batch, VerdictOf(w, batch))
  {
    OpenVerdict(w, batch);
  }

  /** The tables after the mark, when one is made. */
  ghost function MarkedFor(w: World, batch: Uuid, declared: Option<Disposition>): Db
    requires batch in w.db.batches
  {
    if MarksOne(w, batch, declared) &&
        FirstDamage(w, batch).Damaged? then MarkFailed(w.db, FirstDamage(w, batch).artifact) else w.db
  }

  lemma ResolveOpen(w: World, batch: Uuid, declared: Option<Disposition>, holds: bool) returns (next: Db)
    requires Resolvable(w, batch)
    ensures ResolveRows(w.db, w.disk, batch, declared, Observed(w, batch), holds) ==
            (next, if Accepted(w, batch, declared) || (holds && !Consistent(w, batch, declared)) then Resolved
                   else ManualRecovery)
    ensures Accepted(w, batch, declared) ==>
      SettleBatch(w.db, batch, VerdictOf(w, batch), true) == Some(next) &&
          SettledEffect(w.db, next, batch, VerdictOf(w, batch))
    ensures MarksOne(w, batch, declared) ==>
            FirstDamage(w, batch).Damaged? && StagedBy(w.db, batch, FirstDamage(w, batch).artifact)
    ensures !Accepted(w, batch, declared) ==>
      if holds then HeldEffect(w.db, next, batch) && next.artifacts == MarkedFor(w, batch, declared).artifacts
      else next == MarkedFor(w, batch, declared)
  {
    if Accepted(w, batch, declared) {
      next := ResolveAccepted(w, batch, declared, holds);
    } else if MarksOne(w, batch, declared) {
      next := ResolveDamaged(w, batch, declared, holds);
    } else {
      next := ResolveRefused(w, batch, declared, holds);
    }
  }

  lemma ResolvingKeepsInvariant(w: World, batch: Uuid, declared: Option<Disposition>, holds: bool) returns (next: Db)
    requires Inv(w) && OpenBatch(w.db, batch) && w.db.batches[batch].plugin !in w.sessions
    ensures next == ResolveRows(w.db, w.disk, batch, declared, Observed(w, batch), holds).0 && Inv(w.(db := next))
  {
    InvResolvable(w, batch);
    next := ResolveOpen(w, batch, declared, holds);
    if Accepted(w, batch, declared) {
      SettlingKeepsInvariant(w, next, batch, VerdictOf(w, batch));
    } else if holds {
      HoldingKeepsInvariant(w, next, batch);
    } else if MarksOne(w, batch, declared) {
      MarkingKeepsInvariant(w, batch, FirstDamage(w, batch).artifact);
    }
  }

  lemma ResolveKeepsInvariant(w: World, session: Uuid, batch: Uuid, declared: Option<Disposition>, holds: bool)
    requires Inv(w) && batch in w.db.batches && w.db.batches[batch].plugin !in w.sessions
    ensures Inv(w.(db := ResolveBatch(w.db, w.disk, w.db.batches[batch].plugin, session, batch, declared,
            Observed(w, batch), holds).0))
  {
    if w.db.batches[batch].session == session && OpenBatch(w.db, batch) {
      var next := ResolvingKeepsInvariant(w, batch, declared, holds);
    }
  }

  // ---- The recovery package

  lemma ReconcileComputes(db: Db, disk: map<StorageKey, Projection>, batch: Uuid, observed: seq<ObservedRef>, next: Db)
    requires batch in db.batches && db.batches[batch].plugin in db.population.repositories &&
             PreparedOf(db, batch) != []
    requires IsOpen(db.batches[batch].state) && Meaning(PreparedOf(db, batch), observed) != ReceiveManual
    requires Meaning(PreparedOf(db, batch), observed) == ReceiveCompleted ==> StagedSound(db, disk, OwnIdsOf(db, batch))
    requires LenientAll(PreparedOf(db, batch)) == PreparedOf(db, batch)
    requires SettleBatch(db, batch, Meaning(PreparedOf(db, batch), observed), false) == Some(next)
    ensures ReconcileBatch(db, disk, batch, observed) == (next, Reconciled)
  {
  }

  lemma ReconcileAccepted(w: World, batch: Uuid) returns (next: Db)
    requires Resolvable(w, batch) && Accepted(w, batch, None)
    ensures ReconcileBatch(w.db, w.disk, batch, Observed(w, batch)) == (next, Reconciled)
    ensures SettleBatch(w.db, batch, VerdictOf(w, batch), false) == Some(next) &&
            SettledEffect(w.db, next, batch, VerdictOf(w, batch))
  {
    PreparedAt(w.db, w.objects, batch, 0);
    StrictlyPrepared(w.db, w.objects, batch);
    RecoveryVerifies(w, batch);
    next := SettleBatchSucceeds(w, batch, VerdictOf(w, batch), false);
    ReconcileComputes(w.db, w.disk, batch, Observed(w, batch), next);
  }

  lemma ReconcileRefused(w: World, batch: Uuid) returns (next: Db)
    requires Resolvable(w, batch) && !Accepted(w, batch, None)
    ensures ReconcileBatch(w.db, w.disk, batch, Observed(w, batch)) == (next, Reconciled)
    ensures HeldEffect(w.db, next, batch) && next.artifacts == w.db.artifacts
  {
    PreparedAt(w.db, w.objects, batch, 0);
    StrictlyPrepared(w.db, w.objects, batch);
    RecoveryVerifies(w, batch);
    var ids := BatchIds(w.db, batch, w.db.batches[batch].tags);
    OpenUnsettled(w.db, batch);
    MarkOpenManual(w.db, batch, Unsettled(w.db, ids));
    next := MarkUnsettled(w.db, batch, ids);
  }

  lemma ReconcileOpen(w: World, batch: Uuid) returns (next: Db)
    requires Resolvable(w, batch)
    ensures ReconcileBatch(w.db, w.disk, batch, Observed(w, batch)) == (next, Reconciled)
    ensures Accepted(w, batch, None) ==>
      SettleBatch(w.db, batch, VerdictOf(w, batch), false) == Some(next) &&
          SettledEffect(w.db, next, batch, VerdictOf(w, batch))
    ensures !Accepted(w, batch, None) ==> HeldEffect(w.db, next, batch) && next.artifacts == w.db.artifacts
  {
    if Accepted(w, batch, None) {
      next := ReconcileAccepted(w, batch);
    } else {
      next := ReconcileRefused(w, batch);
    }
  }

  lemma {:induction false} SettlingKeepsIntents(db: Db, verdict: Disposition, operation: Operation,
          ids: seq<TransitionId>, checked: bool)
    ensures var r := SettleTransitions(db, verdict, operation, ids, checked); r.Some? ==> r.value.intents == db.intents
    decreases |ids|
  {
    if ids != [] && SettleOne(db, verdict, operation, ids[0], checked).Some? {
      SettlingKeepsIntents(SettleOne(db, verdict, operation, ids[0], checked).value, verdict, operation, ids[1..],
          checked);
    }
  }

  lemma ClosedIntentFails(db: Db, id: IntentId, verdict: Disposition, checked: bool)
    requires id in db.intents && !IsOpen(db.intents[id].state)
    ensures SettleIntent(db, id, verdict, checked).None?
  {
    var written := if verdict == ReceiveCompleted then WriteVersion(db, id, db.intents[id]) else Some(db);
    if written.Some? {
      SettlingKeepsIntents(written.value, verdict, db.intents[id].operation, Ids(id, db.intents[id].revisions),
          checked);
    }
  }

  /** A reconciliation that comes too late, whatever it read, changes nothing. */
  lemma ReconcileClosed(db: Db, disk: map<StorageKey, Projection>, batch: Uuid, observed: seq<ObservedRef>)
    requires RowsOk(db) && FrozenOk(db) && batch in db.batches && !IsOpen(db.batches[batch].state)
    ensures ReconcileBatch(db, disk, batch, observed).0 == db
  {
    var tags := db.batches[batch].tags;
    MarkClosedNothing(db, batch);
    assert tags[0] in tags;
    var verdict := Meaning(LenientAll(PrepareAll(IntentRefsOf(db, batch, tags))), observed);
    ClosedIntentFails(db, IntentId(batch, tags[0]), verdict, false);
  }

  lemma ReconcileKeepsInvariant(w: World, batch: Uuid)
    requires Inv(w) && batch in w.db.batches && w.db.batches[batch].plugin !in w.sessions
    ensures Inv(w.(db := ReconcileBatch(w.db, w.disk, batch, Observed(w, batch)).0))
  {
    if OpenBatch(w.db, batch) {
      InvResolvable(w, batch);
      var next := ReconcileOpen(w, batch);
      if Accepted(w, batch, None) {
        SettlingKeepsInvariant(w, next, batch, VerdictOf(w, batch));
      } else {
        HoldingKeepsInvariant(w, next, batch);
      }
    } else {
      ReconcileClosed(w.db, w.disk, batch, Observed(w, batch));
    }
  }

  // ---- Main results

  /** Holding a batch determines every table but the states of its projections. */
  lemma HeldOnce(db: Db, a: Db, b: Db, batch: Uuid)
    requires HeldEffect(db, a, batch) && HeldEffect(db, b, batch)
    ensures a == b <==> a.artifacts == b.artifacts
  {
    assert a.batches == b.batches && a.intents == b.intents && a.transitions == b.transitions;
  }

  lemma MarkChangesStaged(db: Db, aid: ArtifactId)
    requires aid in db.artifacts && !db.artifacts[aid].state.Ready?
    ensures MarkFailed(db, aid).artifacts == db.artifacts <==> !db.artifacts[aid].state.Staged?
  {
    assert MarkFailed(db, aid).artifacts[aid].state.Failed?;
    if db.artifacts[aid].state.Failed? {
      assert db.artifacts[aid := db.artifacts[aid].(state := Failed)] == db.artifacts;
    }
  }

  /** Git applied the batch, and the first projection that is not intact has not been marked as failed before. */
  ghost predicate FindsNewDamage(w: World, batch: Uuid)
    requires batch in w.db.batches
  {
    RefsNew(w.db, w.refs, batch) && FirstDamage(w, batch).Damaged? &&
        FirstDamage(w, batch).artifact in w.db.artifacts &&
    w.db.artifacts[FirstDamage(w, batch).artifact].state.Staged?
  }

  /** The coordinator and the recovery package leave the same tables behind, unless a projection the batch must
      promote is newly found to be damaged: only the coordinator records which one it was. */
  lemma ImplementationsAgree(w: World, batch: Uuid)
    requires Inv(w) && OpenBatch(w.db, batch)
    ensures ResolveBatch(w.db, w.disk, w.db.batches[batch].plugin, w.db.batches[batch].session, batch, None,
            Observed(w, batch), true).0
              == ReconcileBatch(w.db, w.disk, batch, Observed(w, batch)).0
            <==> !FindsNewDamage(w, batch)
  {
    InvResolvable(w, batch);
    var resolved := ResolveOpen(w, batch, None, true);
    var reconciled := ReconcileOpen(w, batch);
    SettleAlike(w, batch, VerdictOf(w, batch));
    CoordinatorFinds(w, batch);
    if !Accepted(w, batch, None) {
      HeldOnce(w.db, resolved, reconciled, batch);
      if MarksOne(w, batch, None) { MarkChangesStaged(w.db, FirstDamage(w, batch).artifact); }
    }
  }

  ghost function OpenBatches(db: Db): set<Uuid> { set b | b in db.batches && IsOpen(db.batches[b].state) }

  lemma OneVerdict(w: World, batch: Uuid)
    requires BatchRowsOk(w.db) && IntentFactsOk(w.db, w.objects) && OpenBatch(w.db, batch) && BatchRefsOk(w.db, w.refs)
    ensures RefsOld(w.db, w.refs, batch) <==> !RefsNew(w.db, w.refs, batch)
  {
    var id := IntentId(batch, w.db.batches[batch].tags[0]);
    assert id.tag in w.db.batches[batch].tags;
    if RefsNew(w.db, w.refs, batch) { NewIsNotOld(w.db, w.objects, w.refs, id); }
  }

  ghost predicate Decided(w: World, state: ReceiveState, batch: Uuid) {
    (state.Aborted? <==> RefsOld(w.db, w.refs, batch)) &&
    (state.Completed? <==> RefsNew(w.db, w.refs, batch) && Completable(w.db, w.disk, batch)) &&
    (state.ManualRequired? <==> RefsNew(w.db, w.refs, batch) && !Completable(w.db, w.disk, batch))
  }

  lemma BatchStateAfter(w: World, next: Db, batch: Uuid)
    requires OpenBatch(w.db, batch) && (RefsOld(w.db, w.refs, batch) <==> !RefsNew(w.db, w.refs, batch))
    requires BatchEffect(w.db.batches, next.batches, batch, if Accepted(w, batch, None) then VerdictOf(w, batch)
             else ReceiveManual)
    ensures batch in next.batches && Decided(w, next.batches[batch].state, batch)
    ensures OpenBatches(next) == OpenBatches(w.db) - {batch} && |OpenBatches(next)| < |OpenBatches(w.db)|
  {
    assert batch in OpenBatches(w.db);
    assert OpenBatches(next) == OpenBatches(w.db) - {batch};
  }

  /** One reconciliation decides an open batch: completed when Git applied it, aborted when Git did not, and an
      operator is asked for exactly when Git applied it and a projection is damaged or was marked as failed. */
  lemma ReconcileDecides(w: World, batch: Uuid)
    requires Inv(w) && OpenBatch(w.db, batch)
    ensures var (next, status) := ReconcileBatch(w.db, w.disk, batch, Observed(w, batch));
            status == Reconciled && batch in next.batches && Decided(w, next.batches[batch].state, batch) &&
            OpenBatches(next) == OpenBatches(w.db) - {batch} && |OpenBatches(next)| < |OpenBatches(w.db)|
  {
    InvResolvable(w, batch);
    var next := ReconcileOpen(w, batch);
    OneVerdict(w, batch);
    BatchStateAfter(w, next, batch);
  }

  // ---- What the coordinator answers

  /** The batch is the session's own. */
  ghost predicate Owned(db: Db, plugin: Uuid, session: Uuid, batch: Uuid) {
    batch in db.batches && db.batches[batch].plugin == plugin && db.batches[batch].session == session
  }

  /** Whether the declaration, if there is one, is what the refs say. */
  ghost predicate Fits(w: World, batch: Uuid, declared: Option<Disposition>) {
    declared.None? || declared == Some(if RefsNew(w.db, w.refs, batch) then ReceiveCompleted else ReceiveAborted)
  }

  lemma OpenAnswer(w: World, batch: Uuid, declared: Option<Disposition>, holds: bool)
    requires Inv(w) && OpenBatch(w.db, batch)
    ensures ResolveRows(w.db, w.disk, batch, declared, Observed(w, batch), holds).1 ==
            if (if Fits(w, batch, declared) then RefsNew(w.db, w.refs, batch) ==> Completable(w.db, w.disk, batch)
                else holds)
            then Resolved else ManualRecovery
    ensures RefsNew(w.db, w.refs, batch) <==> !RefsOld(w.db, w.refs, batch)
  {
    InvResolvable(w, batch);
    OneVerdict(w, batch);
    var next := ResolveOpen(w, batch, declared, holds);
  }

  lemma AnswerComputes(db: Db, disk: map<StorageKey, Projection>, plugin: Uuid, session: Uuid, batch: Uuid,
          declared: Option<Disposition>, observed: seq<ObservedRef>, holds: bool)
    ensures ResolveBatch(db, disk, plugin, session, batch, declared, observed, holds).1 ==
            if !Owned(db, plugin, session, batch) then Rejected
            else if !OpenBatch(db, batch) then Resolved
            else ResolveRows(db, disk, batch, declared, observed, holds).1
  {
  }

  /** The coordinator rejects a batch exactly when it is absent or not the session's own. It answers that its own
      batch is resolved exactly when it was closed before, or the declaration fits the refs and Git either left
      them alone or applied a push that can be completed, or the declaration does not fit them and the batch could
      be handed over. In every other case it answers that an operator is needed. */
  lemma AnswersExactly(w: World, plugin: Uuid, session: Uuid, batch: Uuid, declared: Option<Disposition>,
          observed: seq<ObservedRef>, holds: bool)
    requires Inv(w) && (batch in w.db.batches ==> observed == Observed(w, batch))
    ensures var status := ResolveBatch(w.db, w.disk, plugin, session, batch, declared, observed, holds).1;
            var own := Owned(w.db, plugin, session, batch);
            var closed := own && !w.db.batches[batch].state.Prepared? && !w.db.batches[batch].state.Finalizing?;
            var applied := RefsNew(w.db, w.refs, batch);
            (status.Rejected? <==> !own) &&
            (status.Resolved? <==>
             own && (closed ||
             if Fits(w, batch, declared) then applied ==> Completable(w.db, w.disk, batch) else holds)) &&
            (own && !closed ==> (applied <==> !RefsOld(w.db, w.refs, batch)))
  {
    AnswerComputes(w.db, w.disk, plugin, session, batch, declared, observed, holds);
    if Owned(w.db, plugin, session, batch) && OpenBatch(w.db, batch) {
      OpenAnswer(w, batch, declared, holds);
    }
  }

  /** What resolving makes of an open batch, when nothing is declared. */
  ghost predicate Resumed(w: World, before: Batch, after: Batch, batch: Uuid, holds: bool) {
    var applied := RefsNew(w.db, w.refs, batch);
    after == before.(state :=
      if !applied then Aborted
      else if Completable(w.db, w.disk, batch) then Completed
      else if holds then ManualRequired else before.state)
  }

  lemma EffectRow(before: map<Uuid, Batch>, after: map<Uuid, Batch>, batch: Uuid, verdict: Disposition)
    requires BatchEffect(before, after, batch, verdict)
    ensures batch in after && after[batch] == before[batch].(state := FinalState(verdict))
  {
  }

  lemma ResumedRow(w: World, batch: Uuid, holds: bool)
    requires Inv(w) && OpenBatch(w.db, batch)
    ensures var next := ResolveRows(w.db, w.disk, batch, None, Observed(w, batch), holds).0;
            batch in next.batches && Resumed(w, w.db.batches[batch], next.batches[batch], batch, holds)
  {
    InvResolvable(w, batch);
    var next := ResolveOpen(w, batch, None, holds);
    if Accepted(w, batch, None) {
      EffectRow(w.db.batches, next.batches, batch, VerdictOf(w, batch));
    } else if holds {
      EffectRow(w.db.batches, next.batches, batch, ReceiveManual);
    } else {
      assert next.batches == w.db.batches;
    }
  }

  /** A new process resumes an open batch exactly while its Plugin may be pushed to and no session holds it: what Git
      left alone is aborted, what Git applied is completed, and what cannot be completed waits for an operator if
      it could be handed over, and is as it was if not. */
  lemma ResumeDecides(w: World, batch: Uuid, holds: bool)
    requires Inv(w) && OpenBatch(w.db, batch)
    ensures var next, row := DoResume(w, batch, holds), w.db.batches[batch];
            if row.plugin !in w.sessions && row.plugin in w.db.plugins && !w.db.plugins[row.plugin].status.Archived? &&
               row.plugin in w.db.population.repositories &&
               w.db.population.repositories[row.plugin].RepositoryReady?
            then next == w.(db := next.db) && batch in next.db.batches &&
                 Resumed(w, row, next.db.batches[batch], batch, holds)
            else next == w
  {
    ResumedRow(w, batch, holds);
    ResumeComputes(w, batch, holds);
  }

  lemma ResumeComputes(w: World, batch: Uuid, holds: bool)
    requires OpenBatch(w.db, batch)
    ensures DoResume(w, batch, holds) ==
            if w.db.batches[batch].plugin !in w.sessions && Openable(w.db, w.db.batches[batch].plugin)
            then w.(db := ResolveRows(w.db, w.disk, batch, None, Observed(w, batch), holds).0) else w
  {
  }
}
