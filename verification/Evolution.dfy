/** What one step can do to the tables, and what no run ever undoes. */
module Evolution {
  import opened Wrappers
  import opened Tables
  import opened Classification
  import opened Receive
  import opened Lifecycle
  import opened World
  import opened Invariant
  import opened Settlement
  import opened SettlementSafety
  import opened SettlementInvariant
  import opened Holding
  import opened Marking
  import opened Resolution
  import opened ResolutionSafety
  import opened Planning
  import opened Persisting
  import opened PrepareSafety
  import opened PrepareStep
  import opened ServiceSteps
  import opened Safety

  /** The ways a step changes the tables. */
  datatype Change =
    | Nothing
    | Prepares(plugin: Uuid, session: Uuid, batch: Uuid, tags: seq<Tag>, builds: Builds)
    | Settles(batch: Uuid, verdict: Disposition)
    | Marks(batch: Uuid, artifact: ArtifactId)
    | Holds(batch: Uuid)
    | Serves
    | Collects

  /** A service call leaves the rows of pushes alone, adds to the history and the Versions, and keeps every
      Version available that was. */
  ghost predicate Serviced(db: Db, next: Db) {
    SameReceives(db, next) && db.history <= next.history && db.versions.Keys <= next.versions.Keys &&
    forall key | key in db.versions && db.versions[key].status == Available :: next.versions[key].status == Available
  }

  ghost predicate Explains(w: World, next: Db, change: Change) {
    match change
    case Nothing => next == w.db
    case Prepares(plugin, session, batch, tags, builds) => PreparedEffect(w.db, next, w.objects, plugin, session, batch,
        tags, builds)
    case Settles(batch, verdict) =>
      OpenBatch(w.db, batch) && SettledEffect(w.db, next, batch, verdict) && VerdictFits(w.db, w.refs, batch, verdict)
    case Marks(batch, artifact) =>
      OpenBatch(w.db, batch) && StagedBy(w.db, batch, artifact) && next == MarkFailed(w.db, artifact) &&
      RefsNew(w.db, w.refs, batch) && !StagedIntact(w.db, w.disk, batch)
    case Holds(batch) =>
      OpenBatch(w.db, batch) && HeldEffect(w.db, next, batch) && RefsNew(w.db, w.refs, batch) &&
          !Completable(w.db, w.disk, batch)
    case Serves => Serviced(w.db, next)
    case Collects => next == w.db.(gc := next.gc) && next.gc.Keys == w.db.gc.Keys
  }

  lemma ExplainResolve(w: World, batch: Uuid, declared: Option<Disposition>, holds: bool) returns (change: Change)
    requires Inv(w) && OpenBatch(w.db, batch) && Consistent(w, batch, declared)
    ensures Explains(w, ResolveRows(w.db, w.disk, batch, declared, Observed(w, batch), holds).0, change) &&
            !change.Prepares?
  {
    InvResolvable(w, batch);
    var next := ResolveOpen(w, batch, declared, holds);
    if Accepted(w, batch, declared) {
      change := Settles(batch, VerdictOf(w, batch));
    } else if holds {
      change := Holds(batch);
    } else if MarksOne(w, batch, declared) {
      change := Marks(batch, FirstDamage(w, batch).artifact);
    } else {
      change := Nothing;
    }
  }

  lemma ExplainReconcile(w: World, batch: Uuid) returns (change: Change)
    requires Inv(w) && batch in w.db.batches
    ensures Explains(w, ReconcileBatch(w.db, w.disk, batch, Observed(w, batch)).0, change) && !change.Prepares?
  {
    if OpenBatch(w.db, batch) {
      InvResolvable(w, batch);
      var next := ReconcileOpen(w, batch);
      change := if Accepted(w, batch, None) then Settles(batch, VerdictOf(w, batch)) else Holds(batch);
    } else {
      ReconcileClosed(w.db, w.disk, batch, Observed(w, batch));
      change := Nothing;
    }
  }

  /** Once the preflight has passed and the projections are built, preparing cannot fail any more. */
  lemma PreparationSucceeds(w: World, plugin: Uuid, commands: seq<RefCommand>, batch: Uuid, builds: Builds,
          loading: Loading) returns (next: Db)
    requires Inv(w) && Preparable(w, plugin, commands, batch) && PlansOf(w, plugin, commands, batch, builds) != []
    ensures next == DoPrepare(w, plugin, commands, batch, builds, loading).db
    ensures PreparedEffect(w.db, next, w.objects, plugin, w.sessions[plugin].id, batch,
            PlanTags(PlansOf(w, plugin, commands, batch, builds)), builds)
  {
    next := PersistedEffect(w, plugin, w.sessions[plugin].id, commands, batch, builds);
    PreparesPlans(w, plugin, commands, batch, builds, loading, next);
  }

  lemma ExplainPrepare(w: World, plugin: Uuid, commands: seq<RefCommand>, batch: Uuid, builds: Builds, loading: Loading)
          returns (change: Change)
    requires Inv(w) && Preparable(w, plugin, commands, batch)
    ensures Explains(w, DoPrepare(w, plugin, commands, batch, builds, loading).db, change)
  {
    var plans := PlansOf(w, plugin, commands, batch, builds);
    if plans == [] {
      PreparesNothing(w, plugin, commands, batch, builds, loading);
      change := Nothing;
    } else {
      var next := PreparationSucceeds(w, plugin, commands, batch, builds, loading);
      change := Prepares(plugin, w.sessions[plugin].id, batch, PlanTags(plans), builds);
    }
  }

  lemma HeldOpen(w: World, plugin: Uuid, batch: Uuid)
    requires SessionsOk(w) && plugin in w.sessions && w.sessions[plugin].phase == Applied(Some(batch))
    ensures OpenBatch(w.db, batch) && w.db.batches[batch].plugin == plugin &&
            w.db.batches[batch].session == w.sessions[plugin].id
    ensures StillStaged(w.db, batch)
  {
    assert SessionOk(w.db, w.refs, w.disk, plugin, w.sessions[plugin]);
  }

  lemma FinalizeResolves(w: World, plugin: Uuid, batch: Uuid, holds: bool)
    requires plugin in w.sessions && w.sessions[plugin].phase == Applied(Some(batch))
    requires OpenBatch(w.db, batch) && w.db.batches[batch].plugin == plugin &&
             w.db.batches[batch].session == w.sessions[plugin].id
    ensures var declared := Some(Meaning(PreparedOf(w.db, batch), Observed(w, batch)));
            Finishing(w, plugin, Some(batch), holds) ==
                ResolveRows(w.db, w.disk, batch, declared, Observed(w, batch), holds) &&
            DoFinalize(w, plugin, Some(batch), holds) ==
                DropSession(w.(db := Finishing(w, plugin, Some(batch), holds).0), plugin)
  {
  }

  lemma ExplainFinalize(w: World, plugin: Uuid, prepared: Option<Uuid>, holds: bool) returns (change: Change)
    requires Inv(w) && plugin in w.sessions && w.sessions[plugin].phase == Applied(prepared)
    ensures Explains(w, DoFinalize(w, plugin, prepared, holds).db, change) && !change.Prepares?
  {
    if prepared.None? {
      change := Nothing;
    } else {
      var batch := prepared.value;
      HeldOpen(w, plugin, batch);
      FinalizeResolves(w, plugin, batch, holds);
      OpenVerdict(w, batch);
      change := ExplainResolve(w, batch, Some(VerdictOf(w, batch)), holds);
    }
  }

  lemma ResumeResolves(w: World, batch: Uuid, holds: bool)
    requires DoResume(w, batch, holds).db != w.db
    ensures OpenBatch(w.db, batch) &&
            DoResume(w, batch, holds).db == ResolveRows(w.db, w.disk, batch, None, Observed(w, batch), holds).0
  {
  }

  lemma ExplainResume(w: World, batch: Uuid, holds: bool) returns (change: Change)
    requires Inv(w)
    ensures Explains(w, DoResume(w, batch, holds).db, change) && !change.Prepares?
  {
    change := Nothing;
    if DoResume(w, batch, holds).db != w.db {
      ResumeResolves(w, batch, holds);
      change := ExplainResolve(w, batch, None, holds);
    }
  }

  lemma PublishServes(w: World, key: TagKey, makeDefault: bool)
    ensures Serviced(w.db, Publish(w.db, w.refs, w.objects, key, makeDefault).0)
  {
    if Publish(w.db, w.refs, w.objects, key, makeDefault).1.Done? {
      PublishSucceeds(w, key, makeDefault);
    } else {
      PublishRefused(w, key, makeDefault);
    }
  }

  lemma RowServes(db: Db, plugin: Uuid, row: Plugin)
    requires plugin in db.plugins
    ensures Serviced(db, db.(plugins := db.plugins[plugin := row]))
  {
  }

  lemma DefaultServes(db: Db, key: TagKey)
    ensures Serviced(db, SetDefault(db, key).0)
  {
    if key.plugin in db.plugins { RowServes(db, key.plugin, db.plugins[key.plugin].(defaultTag := Some(key.tag))); }
  }

  lemma ClearServes(db: Db, plugin: Uuid)
    ensures Serviced(db, ClearDefaultVersion(db, plugin).0)
  {
    if plugin in db.plugins { RowServes(db, plugin, db.plugins[plugin].(defaultTag := None)); }
  }

  lemma ArchiveServes(db: Db, plugin: Uuid)
    ensures Serviced(db, Archive(db, plugin).0)
  {
    if plugin in db.plugins { RowServes(db, plugin, Archive(db, plugin).0.plugins[plugin]); }
  }

  lemma RestoreServes(db: Db, plugin: Uuid)
    ensures Serviced(db, Restore(db, plugin).0)
  {
    if plugin in db.plugins { RowServes(db, plugin, Restore(db, plugin).0.plugins[plugin]); }
  }

  lemma ServiceServes(w: World, event: Event)
    requires event.PublishVersion? || event.SetDefaultVersion? || event.ClearDefaultOf? || event.ArchivePlugin? ||
             event.RestorePlugin?
    ensures Serviced(w.db, DoService(w, event).db)
  {
    match event
    case PublishVersion(key, makeDefault) => PublishServes(w, key, makeDefault);
    case SetDefaultVersion(key) => DefaultServes(w.db, key);
    case ClearDefaultOf(plugin) => ClearServes(w.db, plugin);
    case ArchivePlugin(plugin) => ArchiveServes(w.db, plugin);
    case RestorePlugin(plugin) => RestoreServes(w.db, plugin);
  }

  lemma ExplainReceive(w: World, event: Event) returns (change: Change)
    requires Inv(w) && (event.PrepareReceive? || event.Finalize? || event.ResumeResolve? || event.Reconcile?)
    ensures Explains(w, Do(w, event).db, change) && (change.Prepares? ==> event.PrepareReceive?)
  {
    change := Nothing;
    match event
    case PrepareReceive(plugin, commands, batch, builds, loading) =>
      if Preparable(w, plugin, commands, batch) { change := ExplainPrepare(w, plugin, commands, batch, builds, loading);
          }
    case Finalize(plugin, holds) =>
      if plugin in w.sessions && w.sessions[plugin].phase.Applied? { change := ExplainFinalize(w, plugin,
          w.sessions[plugin].phase.prepared, holds); }
    case ResumeResolve(batch, holds) => change := ExplainResume(w, batch, holds);
    case Reconcile(batch) =>
      if batch in w.db.batches && w.db.batches[batch].plugin !in w.sessions { change := ExplainReconcile(w, batch); }
  }

  lemma ExplainStorage(w: World, event: Event)
    requires event.GcRecord? || event.GcRemove? || event.Damage?
    ensures Explains(w, DoStorage(w, event).db, Collects)
  {
  }

  lemma KeepsTables(w: World, event: Event)
    requires event.Open? || event.ApplyRefs? || event.Vanish? || event.StrayBuild?
    ensures Do(w, event).db == w.db
  {
  }

  lemma ExplainOther(w: World, event: Event)
    requires event.Open? || event.ApplyRefs? || event.Vanish? || event.StrayBuild? || event.GcRecord? ||
             event.GcRemove? || event.Damage?
    ensures Explains(w, Do(w, event).db, Collects)
  {
    if event.GcRecord? || event.GcRemove? || event.Damage? {
      ExplainStorage(w, event);
    } else {
      KeepsTables(w, event);
    }
  }

  /** Every step is one of the changes above, and each change is exactly the effect it names. */
  lemma StepExplained(w: World, event: Event) returns (change: Change)
    requires Inv(w)
    ensures Explains(w, Do(w, event).db, change) && (change.Prepares? ==> event.PrepareReceive?)
  {
    if event.PrepareReceive? || event.Finalize? || event.ResumeResolve? || event.Reconcile? {
      change := ExplainReceive(w, event);
    } else if event.PublishVersion? || event.SetDefaultVersion? || event.ClearDefaultOf? || event.ArchivePlugin? ||
        event.RestorePlugin? {
      ServiceServes(w, event);
      change := Serves;
    } else {
      ExplainOther(w, event);
      change := Collects;
    }
  }
}
