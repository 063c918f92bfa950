/** The prepare step of a session, whichever way it ends. */
module PrepareStep {
  import opened Wrappers
  import opened Tables
  import opened Classification
  import opened Receive
  import opened Lifecycle
  import opened World
  import opened Invariant
  import opened Settlement
  import opened Planning
  import opened Persisting
  import opened PrepareSafety
  import opened PrepareInvariant

  lemma DroppingKeepsInvariant(w: World, plugin: Uuid)
    requires Inv(w)
    ensures Inv(DropSession(w, plugin))
  {
  }

  lemma EnteringKeepsInvariant(w: World, plugin: Uuid, phase: Phase)
    requires Inv(w) && plugin in w.sessions &&
             SessionOk(w.db, w.refs, w.disk, plugin, w.sessions[plugin].(phase := phase))
    ensures Inv(Enter(w, plugin, phase))
  {
  }

  // ---- What the classified commands say about the pushed ones

  lemma ClassifiedTag(objects: Objects, command: RefCommand)
    requires ClassifyTag(objects, command).Some?
    ensures ClassifyTag(objects, command).value.tag == command.tag
  {
  }

  /** Every plan answers one pushed command. */
  lemma CommandOfPlan(w: World, plugin: Uuid, commands: seq<RefCommand>, plan: Plan) returns (n: nat)
    requires ItemsOk(w.db.population, w.db.pointers.Keys) && VersionFactsOk(w.db.versions, w.objects) &&
             WellFormed(commands)
    requires ClassifyTags(w.objects, commands).Some? &&
             PlanBatch(w.db, plugin, ClassifyTags(w.objects, commands).value).Some?
    requires plan in PlanBatch(w.db, plugin, ClassifyTags(w.objects, commands).value).value
    ensures n < |commands| && commands[n].tag == plan.command.tag &&
            ClassifyTag(w.objects, commands[n]) == Some(plan.command)
    ensures IntentSound(w.db, w.objects, plugin, plan.command.tag, IntentFor(plugin, plan))
    ensures IntentFor(plugin, plan).oldObject == commands[n].oldObject
    ensures IntentFor(plugin, plan).newObject == RefValue(commands[n].newObject)
  {
    var tagCommands := ClassifyTags(w.objects, commands).value;
    PlannedAll(w.db, plugin, tagCommands);
    n :| n < |tagCommands| && tagCommands[n] == plan.command;
    assert commands[n] in commands;
    PlannedIntent(w, plugin, plan, commands[n]);
  }

  /** A command whose tag has an available Version was planned. */
  lemma PlanOfCommand(w: World, plugin: Uuid, commands: seq<RefCommand>, command: RefCommand) returns (plan: Plan)
    requires ItemsOk(w.db.population, w.db.pointers.Keys) && VersionFactsOk(w.db.versions, w.objects) &&
             WellFormed(commands)
    requires ClassifyTags(w.objects, commands).Some? &&
             PlanBatch(w.db, plugin, ClassifyTags(w.objects, commands).value).Some?
    requires command in commands && TagKey(plugin, command.tag) in w.db.versions &&
             w.db.versions[TagKey(plugin, command.tag)].status == Available
    ensures plan in PlanBatch(w.db, plugin, ClassifyTags(w.objects, commands).value).value &&
            plan.command.tag == command.tag
    ensures IntentFor(plugin, plan).oldObject == command.oldObject &&
            IntentFor(plugin, plan).newObject == RefValue(command.newObject)
  {
    var tagCommands := ClassifyTags(w.objects, commands).value;
    PlannedAll(w.db, plugin, tagCommands);
    var i :| 0 <= i < |commands| && commands[i] == command;
    ClassifiedTag(w.objects, command);
    assert tagCommands[i] in tagCommands && !ClassifyCommand(w.db, plugin, tagCommands[i]).Skipped?;
    plan := PlanOfTag(PlanBatch(w.db, plugin, tagCommands).value, command.tag);
    var n := CommandOfPlan(w, plugin, commands, plan);
    assert n == i;
  }

  // ---- The session that has prepared

  lemma PreparedCovered(w: World, next: Db, plugin: Uuid, commands: seq<RefCommand>, batch: Uuid, command: RefCommand)
    requires ItemsOk(w.db.population, w.db.pointers.Keys) && VersionFactsOk(w.db.versions, w.objects) &&
             WellFormed(commands)
    requires ClassifyTags(w.objects, commands).Some? &&
             PlanBatch(w.db, plugin, ClassifyTags(w.objects, commands).value).Some?
    requires next.versions == w.db.versions && command in commands
    requires IntentsAdded(w.db.intents, next.intents, plugin, batch,
             PlanBatch(w.db, plugin, ClassifyTags(w.objects, commands).value).value)
    ensures CommandCovered(next, plugin, command, Some(batch))
  {
    var key := TagKey(plugin, command.tag);
    if key in w.db.versions && w.db.versions[key].status == Available {
      var plan := PlanOfCommand(w, plugin, commands, command);
      assert next.intents[IntentId(batch, plan.command.tag)] == IntentFor(plugin, plan);
    }
  }

  lemma PreparedPushed(w: World, next: Db, plugin: Uuid, commands: seq<RefCommand>, batch: Uuid)
    requires ItemsOk(w.db.population, w.db.pointers.Keys) && VersionFactsOk(w.db.versions, w.objects) &&
             WellFormed(commands) && Unused(w.db, batch)
    requires ClassifyTags(w.objects, commands).Some? &&
             PlanBatch(w.db, plugin, ClassifyTags(w.objects, commands).value).Some?
    requires IntentsAdded(w.db.intents, next.intents, plugin, batch,
             PlanBatch(w.db, plugin, ClassifyTags(w.objects, commands).value).value)
    ensures BatchPushed(next, batch, commands)
  {
    forall id | id in next.intents && id.batch == batch
        ensures exists command | command in commands :: command.tag == id.tag {
      var plan := PlanOfTag(PlanBatch(w.db, plugin, ClassifyTags(w.objects, commands).value).value, id.tag);
      var n := CommandOfPlan(w, plugin, commands, plan);
      assert commands[n] in commands;
    }
  }

  lemma BuiltForStaged(db: Db, next: Db, batch: Uuid, builds: Builds, t: TransitionId)
    requires ArtifactsGrown(next.intents, next.transitions, db.artifacts, next.artifacts, batch, builds)
    requires t in next.transitions && t.intent.batch == batch && next.transitions[t].staged.Some?
    ensures t.intent in next.intents && t in builds && Some(builds[t].commit) == next.intents[t.intent].newCommit
  {
    var a := StagedFor(t);
    assert a in next.artifacts && a !in db.artifacts;
  }

  /** Every new staged transition is one the plans call for. */
  lemma StagedIsPlanned(db: Db, next: Db, plugin: Uuid, batch: Uuid, plans: seq<Plan>, builds: Builds, t: TransitionId)
    requires Unused(db, batch) && IntentsAdded(db.intents, next.intents, plugin, batch, plans)
    requires TransitionsGrown(next.intents, db.pointers, db.transitions, next.transitions, batch)
    requires t in next.transitions && t.intent.batch == batch && next.transitions[t].staged.Some?
    ensures Planned(batch, plans, t)
  {
    assert t !in db.transitions && t.intent !in db.intents;
    var plan := PlanOfTag(plans, t.intent.tag);
    assert next.intents[t.intent] == IntentFor(plugin, plan);
  }

  lemma PreparedStored(db: Db, next: Db, disk: map<StorageKey, Projection>, plugin: Uuid, batch: Uuid, plans: seq<Plan>,
          builds: Builds)
    requires Unused(db, batch) && IntentsAdded(db.intents, next.intents, plugin, batch, plans)
    requires TransitionsGrown(next.intents, db.pointers, db.transitions, next.transitions, batch)
    requires ArtifactsGrown(next.intents, next.transitions, db.artifacts, next.artifacts, batch, builds)
    requires forall t | t in next.transitions && t.intent.batch == batch :: t.intent in next.intents
    ensures BatchStored(next, StoreBuilds(disk, batch, plans, builds), batch)
  {
    var after := StoreBuilds(disk, batch, plans, builds);
    forall t | t in next.transitions && t.intent.batch == batch
        ensures t.intent in next.intents && StagedStored(next, after, t) {
      if next.transitions[t].staged.Some? {
        StagedIsPlanned(db, next, plugin, batch, plans, builds, t);
        BuiltForStaged(db, next, batch, builds, t);
        StoredAt(disk, batch, plans, builds, BuiltFor(t));
      }
    }
  }

  lemma StoringGrows(w: World, batch: Uuid, plans: seq<Plan>, builds: Builds)
    requires FreshBatch(w, batch)
    ensures DiskGrown(w.db, w.disk, StoreBuilds(w.disk, batch, plans, builds))
  {
    forall key | key in w.disk { StoredAt(w.disk, batch, plans, builds, key); }
  }

  lemma PreparedSession(w: World, next: Db, plugin: Uuid, session: Uuid, commands: seq<RefCommand>, batch: Uuid,
          tags: seq<Tag>, builds: Builds)
    requires RowsOk(w.db) && AgreementOk(w.db, w.refs) && ItemsOk(w.db.population, w.db.pointers.Keys) &&
             VersionFactsOk(w.db.versions, w.objects)
    requires WellFormed(commands) && Unused(w.db, batch)
    requires ClassifyTags(w.objects, commands).Some? &&
             PlanBatch(w.db, plugin, ClassifyTags(w.objects, commands).value).Some?
    requires IntentsAdded(w.db.intents, next.intents, plugin, batch,
             PlanBatch(w.db, plugin, ClassifyTags(w.objects, commands).value).value)
    requires PreparedEffect(w.db, next, w.objects, plugin, session, batch, tags, builds)
    ensures var plans := PlanBatch(w.db, plugin, ClassifyTags(w.objects, commands).value).value;
            SessionOk(next, w.refs, StoreBuilds(w.disk, batch, plans, builds), plugin,
                Session(session, Applying(commands, Some(batch))))
  {
    forall command | command in commands ensures CommandCovered(next, plugin, command, Some(batch)) {
      PreparedCovered(w, next, plugin, commands, batch, command);
    }
    PreparedFromOld(w.db, next, w.objects, w.refs, plugin, batch, tags);
    PreparedPushed(w, next, plugin, commands, batch);
    PreparedStored(w.db, next, w.disk, plugin, batch,
        PlanBatch(w.db, plugin, ClassifyTags(w.objects, commands).value).value, builds);
    PreparedStaged(w.db, next, w.objects, plugin, session, batch, tags, builds);
  }

  lemma PreparedStaged(db: Db, next: Db, objects: Objects, plugin: Uuid, session: Uuid, batch: Uuid, tags: seq<Tag>,
          builds: Builds)
    requires Unused(db, batch) && PreparedEffect(db, next, objects, plugin, session, batch, tags, builds)
    ensures StillStaged(next, batch)
  {
    forall t | t in next.transitions && t.intent.batch == batch && next.transitions[t].staged.Some?
      ensures next.transitions[t].staged.value in next.artifacts &&
              next.artifacts[next.transitions[t].staged.value].state.Staged?
    {
      assert t !in db.transitions;
      assert StagedFor(t) in next.artifacts && StagedFor(t) !in db.artifacts;
    }
  }

  /** A push that touches no available Version needs no batch. */
  lemma NothingPlanned(w: World, plugin: Uuid, commands: seq<RefCommand>)
    requires ItemsOk(w.db.population, w.db.pointers.Keys) && VersionFactsOk(w.db.versions, w.objects) &&
             WellFormed(commands)
    requires ClassifyTags(w.objects, commands).Some? &&
             PlanBatch(w.db, plugin, ClassifyTags(w.objects, commands).value) == Some([])
    ensures forall command | command in commands :: CommandCovered(w.db, plugin, command, None)
  {
    forall command | command in commands ensures CommandCovered(w.db, plugin, command, None) {
      var key := TagKey(plugin, command.tag);
      if key in w.db.versions && w.db.versions[key].status == Available {
        var plan := PlanOfCommand(w, plugin, commands, command);
        assert false;
      }
    }
  }

  // ---- The step

  /** After a preflight that passed and builds that succeeded, the batch is persisted. */
  lemma PersistedEffect(w: World, plugin: Uuid, session: Uuid, commands: seq<RefCommand>, batch: Uuid, builds: Builds)
          returns (next: Db)
    requires Inv(w) && WellFormed(commands) && batch !in w.db.batches
    requires ClassifyTags(w.objects, commands).Some? &&
             PlanBatch(w.db, plugin, ClassifyTags(w.objects, commands).value).Some?
    requires var plans := PlanBatch(w.db, plugin, ClassifyTags(w.objects, commands).value).value;
             plans != [] && AllBuilt(batch, plans, builds)
    ensures var plans := PlanBatch(w.db, plugin, ClassifyTags(w.objects, commands).value).value;
            Persist(w.db, plugin, session, batch, plans, builds) == Some(next) &&
            PreparedEffect(w.db, next, w.objects, plugin, session, batch, PlanTags(plans), builds) &&
            IntentsAdded(w.db.intents, next.intents, plugin, batch, plans)
    ensures Unused(w.db, batch)
  {
    var plans := PlanBatch(w.db, plugin, ClassifyTags(w.objects, commands).value).value;
    FreshUnused(w.db, batch);
    PlannedAll(w.db, plugin, ClassifyTags(w.objects, commands).value);
    next := PersistSucceeds(w.db, plugin, session, batch, plans, builds);
    forall plan | plan in plans ensures IntentSound(w.db, w.objects, plugin, plan.command.tag,
        IntentFor(plugin, plan)) {
      var n := CommandOfPlan(w, plugin, commands, plan);
    }
    PlansEffect(w.db, next, w.objects, plugin, session, batch, plans, builds);
  }

  /** The batch was written, but reading it back failed: whatever part of what was built is still there. */
  lemma UnloadedKeepsInvariant(w: World, next: Db, after: map<StorageKey, Projection>, plugin: Uuid, session: Uuid,
          batch: Uuid, tags: seq<Tag>, builds: Builds)
    requires Inv(w) && PreparedEffect(w.db, next, w.objects, plugin, session, batch, tags, builds) &&
             DiskGrown(w.db, w.disk, after)
    ensures Inv(DropSession(w.(db := next, disk := after), plugin))
  {
    PreparingKeepsInvariant(w, next, after, plugin, session, batch, tags, builds);
    DroppingKeepsInvariant(w.(db := next, disk := after), plugin);
  }

  lemma PersistingKeepsInvariant(w: World, plugin: Uuid, commands: seq<RefCommand>, batch: Uuid, builds: Builds,
          stuck: set<TransitionId>) returns (next: Db)
    requires Inv(w) && Preparable(w, plugin, commands, batch)
    requires ClassifyTags(w.objects, commands).Some? &&
             PlanBatch(w.db, plugin, ClassifyTags(w.objects, commands).value).Some?
    requires var plans := PlanBatch(w.db, plugin, ClassifyTags(w.objects, commands).value).value;
             plans != [] && AllBuilt(batch, plans, builds)
    ensures Persist(w.db, plugin, w.sessions[plugin].id, batch,
            PlanBatch(w.db, plugin, ClassifyTags(w.objects, commands).value).value, builds) == Some(next)
    ensures var plans := PlanBatch(w.db, plugin, ClassifyTags(w.objects, commands).value).value;
            Inv(DropSession(w.(db := next,
                disk := StoreBuilds(w.disk, batch, plans, Leftover(builds, LoadFails(stuck)))), plugin)) &&
            Inv(Enter(w.(db := next, disk := StoreBuilds(w.disk, batch, plans, builds)), plugin,
                Applying(commands, Some(batch))))
  {
    var session := w.sessions[plugin].id;
    var plans := PlanBatch(w.db, plugin, ClassifyTags(w.objects, commands).value).value;
    var tags := PlanTags(plans);
    next := PersistedEffect(w, plugin, session, commands, batch, builds);
    StoringGrows(w, batch, plans, Leftover(builds, LoadFails(stuck)));
    UnloadedKeepsInvariant(w, next, StoreBuilds(w.disk, batch, plans, Leftover(builds, LoadFails(stuck))), plugin,
        session, batch, tags, builds);
    var disk := StoreBuilds(w.disk, batch, plans, builds);
    StoringGrows(w, batch, plans, builds);
    PreparingKeepsInvariant(w, next, disk, plugin, session, batch, tags, builds);
    PreparedSession(w, next, plugin, session, commands, batch, tags, builds);
    EnteringKeepsInvariant(w.(db := next, disk := disk), plugin, Applying(commands, Some(batch)));
  }

  lemma NothingKeepsInvariant(w: World, plugin: Uuid, commands: seq<RefCommand>)
    requires Inv(w) && plugin in w.sessions && WellFormed(commands)
    requires ClassifyTags(w.objects, commands).Some? &&
             PlanBatch(w.db, plugin, ClassifyTags(w.objects, commands).value) == Some([])
    ensures Inv(Enter(w, plugin, Applying(commands, None)))
  {
    NothingPlanned(w, plugin, commands);
    EnteringKeepsInvariant(w, plugin, Applying(commands, None));
  }

  /** The plans a push arrives at, when it passes preflight and everything it needs was built. */
  ghost function PlansOf(w: World, plugin: Uuid, commands: seq<RefCommand>, batch: Uuid, builds: Builds): seq<Plan> {
    match ClassifyTags(w.objects, commands)
    case None => []
    case Some(tagCommands) =>
      match PlanBatch(w.db, plugin, tagCommands)
      case None => []
      case Some(plans) => if AllBuilt(batch, plans, builds) then plans else []
  }

  lemma PreparesNothing(w: World, plugin: Uuid, commands: seq<RefCommand>, batch: Uuid, builds: Builds,
          loading: Loading)
    requires plugin in w.sessions && PlansOf(w, plugin, commands, batch, builds) == []
    ensures var next := DoPrepare(w, plugin, commands, batch, builds, loading);
            next.db == w.db &&
            (next == DropSession(w, plugin) ||
             (next == Enter(w, plugin, Applying(commands, None)) && ClassifyTags(w.objects, commands).Some? &&
              PlanBatch(w.db, plugin, ClassifyTags(w.objects, commands).value) == Some([])))
  {
  }

  lemma PreparesPlans(w: World, plugin: Uuid, commands: seq<RefCommand>, batch: Uuid, builds: Builds, loading: Loading,
          next: Db)
    requires plugin in w.sessions && PlansOf(w, plugin, commands, batch, builds) != []
    requires Persist(w.db, plugin, w.sessions[plugin].id, batch, PlansOf(w, plugin, commands, batch, builds),
             builds) == Some(next)
    ensures DoPrepare(w, plugin, commands, batch, builds, loading) ==
            var plans := PlansOf(w, plugin, commands, batch, builds);
            if loading.LoadFails? then DropSession(w.(db := next,
                disk := StoreBuilds(w.disk, batch, plans, Leftover(builds, loading))), plugin)
            else Enter(w.(db := next, disk := StoreBuilds(w.disk, batch, plans, builds)), plugin,
                Applying(commands, Some(batch)))
  {
  }

  lemma SkippingKeepsInvariant(w: World, plugin: Uuid, commands: seq<RefCommand>, batch: Uuid, builds: Builds,
          loading: Loading)
    requires Inv(w) && Preparable(w, plugin, commands, batch) && PlansOf(w, plugin, commands, batch, builds) == []
    ensures Inv(DoPrepare(w, plugin, commands, batch, builds, loading))
  {
    PreparesNothing(w, plugin, commands, batch, builds, loading);
    if DoPrepare(w, plugin, commands, batch, builds, loading) == DropSession(w, plugin) {
      DroppingKeepsInvariant(w, plugin);
    } else {
      NothingKeepsInvariant(w, plugin, commands);
    }
  }

  lemma PrepareKeepsInvariant(w: World, plugin: Uuid, commands: seq<RefCommand>, batch: Uuid, builds: Builds,
          loading: Loading)
    requires Inv(w) && Preparable(w, plugin, commands, batch)
    ensures Inv(DoPrepare(w, plugin, commands, batch, builds, loading))
  {
    if PlansOf(w, plugin, commands, batch, builds) == [] {
      SkippingKeepsInvariant(w, plugin, commands, batch, builds, loading);
    } else {
      var next := PersistingKeepsInvariant(w, plugin, commands, batch, builds, if loading.LoadFails? then loading.stuck
          else {});
      PreparesPlans(w, plugin, commands, batch, builds, loading, next);
    }
  }
}
