/** The invariant holds after every run, and what follows from it. */
module Safety {
  import opened Wrappers
  import opened Tables
  import opened Classification
  import opened Receive
  import opened Lifecycle
  import opened World
  import opened Invariant
  import opened Settlement
  import opened SettlementSafety
  import opened Resolution
  import opened ResolutionSafety
  import opened PrepareStep
  import opened ApplyStep
  import opened ServiceSteps
  import opened StorageSteps

  // ---- Every step

  lemma OpenKeepsInvariant(w: World, plugin: Uuid, session: Uuid)
    requires Inv(w)
    ensures Inv(DoOpen(w, plugin, session))
  {
  }

  lemma FinalizeKeepsInvariant(w: World, plugin: Uuid, prepared: Option<Uuid>, holds: bool)
    requires Inv(w) && plugin in w.sessions && w.sessions[plugin].phase == Applied(prepared)
    ensures Inv(DoFinalize(w, plugin, prepared, holds))
  {
    DroppingKeepsInvariant(w, plugin);
    if prepared.Some? && prepared.value in w.db.batches {
      var batch := prepared.value;
      assert SessionOk(w.db, w.refs, w.disk, plugin, w.sessions[plugin]);
      assert w.db.batches[batch].plugin == plugin;
      var dropped := DropSession(w, plugin);
      var declared := Some(Meaning(PreparedOf(w.db, batch), Observed(w, batch)));
      ResolveKeepsInvariant(dropped, w.sessions[plugin].id, batch, declared, holds);
    }
  }

  lemma ResumeKeepsInvariant(w: World, batch: Uuid, holds: bool)
    requires Inv(w)
    ensures Inv(DoResume(w, batch, holds))
  {
    if batch in w.db.batches && w.db.batches[batch].plugin !in w.sessions { ResolveKeepsInvariant(w,
        w.db.batches[batch].session, batch, None, holds); }
  }

  lemma ReconcilingKeepsInvariant(w: World, batch: Uuid)
    requires Inv(w)
    ensures Inv(DoReconcile(w, batch))
  {
    if batch in w.db.batches && w.db.batches[batch].plugin !in w.sessions { ReconcileKeepsInvariant(w, batch); }
  }

  lemma PushStep(w: World, event: Event)
    requires Inv(w) && (event.PrepareReceive? || event.ApplyRefs? || event.Finalize?)
    ensures Inv(Do(w, event))
  {
    match event
    case PrepareReceive(plugin, commands, batch, builds, loading) =>
      if Preparable(w, plugin, commands, batch) { PrepareKeepsInvariant(w, plugin, commands, batch, builds, loading); }
    case ApplyRefs(plugin, commits) => ApplyKeepsInvariant(w, plugin, commits);
    case Finalize(plugin, holds) =>
      if plugin in w.sessions && w.sessions[plugin].phase.Applied? { FinalizeKeepsInvariant(w, plugin,
          w.sessions[plugin].phase.prepared, holds); }
  }

  lemma LockStep(w: World, event: Event)
    requires Inv(w) && (event.Open? || event.Vanish? || event.ResumeResolve? || event.Reconcile?)
    ensures Inv(Do(w, event))
  {
    match event
    case Open(plugin, session) => OpenKeepsInvariant(w, plugin, session);
    case Vanish(plugin) => DroppingKeepsInvariant(w, plugin);
    case ResumeResolve(batch, holds) => ResumeKeepsInvariant(w, batch, holds);
    case Reconcile(batch) => ReconcilingKeepsInvariant(w, batch);
  }

  lemma PluginStep(w: World, event: Event)
    requires Inv(w)
    requires event.PublishVersion? || event.SetDefaultVersion? || event.ClearDefaultOf? || event.ArchivePlugin? ||
             event.RestorePlugin?
    ensures Inv(Do(w, event))
  {
    ServiceStep(w, event);
    assert Do(w, event) == DoService(w, event);
  }

  lemma DiskStep(w: World, event: Event)
    requires Inv(w) && (event.GcRecord? || event.GcRemove? || event.Damage?)
    ensures Inv(Do(w, event))
  {
    StorageStep(w, event);
    assert Do(w, event) == DoStorage(w, event);
  }

  lemma StepKeepsInvariant(w: World, event: Event)
    requires Inv(w)
    ensures Inv(Do(w, event))
  {
    if event.PrepareReceive? || event.ApplyRefs? || event.Finalize? {
      PushStep(w, event);
    } else if event.Open? || event.Vanish? || event.ResumeResolve? || event.Reconcile? {
      LockStep(w, event);
    } else if event.StrayBuild? {
      StrayKeepsInvariant(w, event.builds);
    } else if event.GcRecord? || event.GcRemove? || event.Damage? {
      DiskStep(w, event);
    } else {
      PluginStep(w, event);
    }
  }

  lemma {:induction false} RunKeepsInvariant(w: World, events: seq<Event>)
    requires Inv(w)
    ensures Inv(Run(w, events))
    decreases |events|
  {
    if events != [] {
      StepKeepsInvariant(w, events[0]);
      RunKeepsInvariant(Do(w, events[0]), events[1..]);
    }
  }
}
