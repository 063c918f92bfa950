/** The receive coordinator: what one session does to the tables and the projection storage, from the
    push it classifies to the batch it resolves. */
module Coordinator {
  import opened Wrappers
  import opened Tables
  import opened Classification
  import opened Receive
  import opened Database

  /** Puts what was collected so far in front of what is still to come. */
  function Prefixed<T>(done: seq<T>, rest: Option<seq<T>>): Option<seq<T>> {
    if rest.None? then None else Some(done + rest.value)
  }

  lemma PrefixedNothing<T>(rest: Option<seq<T>>)
    ensures Prefixed([], rest) == rest
  {
    if rest.Some? { assert [] + rest.value == rest.value; }
  }

  lemma PrefixedNext<T>(done: seq<T>, next: T, rest: Option<seq<T>>)
    ensures Prefixed(done + [next], rest) == Prefixed(done, Prefixed([next], rest))
  {
    if rest.Some? { assert done + [next] + rest.value == done + ([next] + rest.value); }
  }

  /** The projection storage while a batch is being built: what was there, and what was built so far. */
  ghost predicate Building(before: map<StorageKey, Projection>, disk: map<StorageKey, Projection>, batch: Uuid,
          builds: map<TransitionId, Projection>, built: seq<StorageKey>)
  {
    (forall key | key in before :: key in disk && disk[key] == before[key]) &&
    (forall key :: key in disk <==> key in before || key in built) &&
    forall key | key in built ::
      key.BuiltFor? && key.transition.intent.batch == batch && key !in before &&
      key.transition in builds && disk[key] == builds[key.transition]
  }

  /** What removing the built projections leaves: what was there, and those that are stuck. */
  ghost predicate Cleared(before: map<StorageKey, Projection>, disk: map<StorageKey, Projection>,
          builds: map<TransitionId, Projection>, built: seq<StorageKey>, stuck: set<TransitionId>)
  {
    (forall key | key in before :: key in disk && disk[key] == before[key]) &&
    (forall key | key in disk && key !in before ::
      key in built && key.BuiltFor? && key.transition in stuck && key.transition in builds &&
          disk[key] == builds[key.transition]) &&
    forall key | key in built && key.BuiltFor? && key.transition in stuck :: key in disk
  }

  lemma StoredAll(before: map<StorageKey, Projection>, disk: map<StorageKey, Projection>, batch: Uuid, plans: seq<Plan>,
          builds: map<TransitionId, Projection>, built: seq<StorageKey>)
    requires Building(before, disk, batch, builds, built)
    requires forall id :: BuiltFor(id) in built <==> id in builds && Planned(batch, plans, id)
    ensures disk == StoreBuilds(before, batch, plans, builds)
  {
    forall key { StoredAt(before, batch, plans, builds, key); }
    assert forall key | key in built :: BuiltFor(key.transition) == key;
  }

  lemma StoredLeft(before: map<StorageKey, Projection>, disk: map<StorageKey, Projection>, batch: Uuid,
          plans: seq<Plan>, builds: map<TransitionId, Projection>, built: seq<StorageKey>, stuck: set<TransitionId>)
    requires Cleared(before, disk, builds, built, stuck) && forall key | key in built :: key.BuiltFor? && key !in before
    requires forall id :: BuiltFor(id) in built <==> id in builds && Planned(batch, plans, id)
    ensures disk == StoreBuilds(before, batch, plans, Leftover(builds, LoadFails(stuck)))
  {
    forall key { StoredAt(before, batch, plans, Leftover(builds, LoadFails(stuck)), key); }
    assert forall key | key in built :: BuiltFor(key.transition) == key;
  }

  class Coordination {
    const store: Store
    const plugin: Uuid
    const session: Uuid

    constructor (store: Store, plugin: Uuid, session: Uuid)
      ensures this.store == store && this.plugin == plugin && this.session == session
    {
      this.store, this.plugin, this.session := store, plugin, session;
    }

    // ---- Prepare

    method ClassifyCommands(commands: seq<TagCommand>) returns (effectful: Option<seq<TagCommand>>)
      ensures effectful == Classify(store.Rows(), plugin, commands, {})
    {
      var seen: set<Tag> := {};
      var plans := [];
      assert commands[0..] == commands;
      PrefixedNothing(Classify(store.Rows(), plugin, commands, {}));
      for n := 0 to |commands|
        invariant Classify(store.Rows(), plugin, commands, {}) == Prefixed(plans,
                  Classify(store.Rows(), plugin, commands[n..], seen))
      {
        var command := commands[n];
        assert commands[n..][0] == command && commands[n..][1..] == commands[n + 1..];
        if command.tag in seen {
          return None;
        }
        seen := seen + {command.tag};
        var key := TagKey(plugin, command.tag);
        if key in store.versions && store.versions[key].status == Available {
          var version := store.versions[key];
          if version.commit.None? || version.commit == Some(Empty) {
            return None;
          }
          if command.operation != TagMove && command.operation != TagDelete {
            return None;
          }
          if version.raw.None? || command.oldObject.Empty? || Some(command.oldObject) != version.raw ||
              command.oldCommit != version.commit {
            return None;
          }
          if command.operation == TagMove
             && (command.newObject.Empty? || command.newCommit.None? || command.newCommit == Some(Empty)
                 || command.manifest.None? || |command.manifest.value.digest| != 64 ||
                     |command.manifest.value.snapshot| == 0) {
            return None;
          }
          if command.operation == TagDelete && (!AllZero(command.newObject) || command.newCommit.Some?) {
            return None;
          }
          PrefixedNext(plans, command, Classify(store.Rows(), plugin, commands[n + 1..], seen));
          plans := plans + [command];
        }
      }
      assert plans + [] == plans;
      effectful := Some(plans);
    }

    method PreflightCommand(command: TagCommand) returns (plan: Option<Plan>)
      ensures plan == Preflight(store.Rows(), plugin, command)
    {
      var key := TagKey(plugin, command.tag);
      if Blocked(store.Rows(), key) {
        return None;
      }
      if command.operation == TagDelete && ActivelyPublished(store.Rows(), key) {
        return None;
      }
      var items := store.population.items;
      var revisions := [];
      assert items[0..] == items;
      PrefixedNothing(SelectingRevisions(store.Rows(), key, items, command.oldCommit));
      for n := 0 to |items|
        invariant SelectingRevisions(store.Rows(), key, items, command.oldCommit) ==
                  Prefixed(revisions, SelectingRevisions(store.Rows(), key, items[n..], command.oldCommit))
      {
        assert items[n..][0] == items[n] && items[n..][1..] == items[n + 1..];
        if items[n].key == key && items[n].revision in store.population.revisions {
          var pid := PointerId(items[n].revision, key);
          if pid !in store.pointers || !store.pointers[pid].available || store.pointers[pid].artifact.None? {
            return None;
          }
          var aid := store.pointers[pid].artifact.value;
          if aid !in store.artifacts || store.artifacts[aid].key != key ||
              store.artifacts[aid].revision != items[n].revision
             || !store.artifacts[aid].state.Ready? || Some(store.artifacts[aid].commit) != command.oldCommit {
            return None;
          }
          PrefixedNext(revisions, RevisionPlan(items[n].revision, store.pointers[pid]),
                       SelectingRevisions(store.Rows(), key, items[n + 1..], command.oldCommit));
          revisions := revisions + [RevisionPlan(items[n].revision, store.pointers[pid])];
        }
      }
      assert revisions + [] == revisions;
      plan := Some(Plan(command, revisions));
    }

    method PreflightPlans(commands: seq<TagCommand>) returns (plans: Option<seq<Plan>>)
      ensures plans == PreflightAll(store.Rows(), plugin, commands)
    {
      var done := [];
      assert commands[0..] == commands;
      PrefixedNothing(PreflightAll(store.Rows(), plugin, commands));
      for n := 0 to |commands|
        invariant PreflightAll(store.Rows(), plugin, commands) == Prefixed(done,
                  PreflightAll(store.Rows(), plugin, commands[n..]))
      {
        assert commands[n..][0] == commands[n] && commands[n..][1..] == commands[n + 1..];
        var plan := PreflightCommand(commands[n]);
        if plan.None? {
          return None;
        }
        PrefixedNext(done, plan.value, PreflightAll(store.Rows(), plugin, commands[n + 1..]));
        done := done + [plan.value];
      }
      assert done + [] == done;
      plans := Some(done);
    }

    method PersistRevision(key: TagKey, intent: IntentId, operation: Operation, plan: RevisionPlan,
            builds: map<TransitionId, Projection>) returns (ok: bool)
      modifies store
      ensures store.disk == old(store.disk)
      ensures Receive.PersistRevision(old(store.Rows()), key, intent, operation, plan, builds) == if ok then
              Some(store.Rows()) else None
    {
      var id, pid := TransitionId(intent, plan.revision), PointerId(plan.revision, key);
      var staged: Option<ArtifactId> := None;
      if operation == Move && id in builds {
        staged := Some(StagedFor(id));
        if staged.value in store.artifacts {
          return false;
        }
        store.artifacts := store.artifacts[staged.value := StagedArtifact(key, id, builds[id])];
      }
      if id in store.transitions {
        return false;
      }
      store.transitions := store.transitions[id := Transition(pid, plan.pointer.generation, plan.pointer.artifact,
          staged, Pending)];
      if pid !in store.pointers || store.pointers[pid] != plan.pointer || !store.pointers[pid].available {
        return false;
      }
      store.pointers := store.pointers[pid := store.pointers[pid].(available := false)];
      ok := true;
    }

    method PersistPlan(batch: Uuid, plan: Plan, builds: map<TransitionId, Projection>) returns (ok: bool)
      modifies store
      ensures store.disk == old(store.disk)
      ensures Receive.PersistPlan(old(store.Rows()), plugin, batch, plan, builds) == if ok then Some(store.Rows())
              else None
    {
      var id, intent := IntentId(batch, plan.command.tag), IntentFor(plugin, plan);
      if id in store.intents {
        return false;
      }
      store.intents := store.intents[id := intent];
      ghost var created := store.Rows();
      for n := 0 to |plan.revisions|
        invariant store.disk == old(store.disk)
        invariant PersistRevisions(created, intent.key, id, intent.operation, plan.revisions, builds) ==
                  PersistRevisions(store.Rows(), intent.key, id, intent.operation, plan.revisions[n..], builds)
      {
        assert plan.revisions[n..][1..] == plan.revisions[n + 1..];
        ok := PersistRevision(intent.key, id, intent.operation, plan.revisions[n], builds);
        if !ok {
          return false;
        }
      }
      ok := true;
    }

    /** The transaction that writes a prepared batch: all of its rows, or none of them. */
    method PersistPrepared(batch: Uuid, plans: seq<Plan>, builds: map<TransitionId, Projection>) returns (ok: bool)
      modifies store
      ensures store.disk == old(store.disk)
      ensures ok <==> Persist(old(store.Rows()), plugin, session, batch, plans, builds).Some?
      ensures store.Rows() == if ok then Persist(old(store.Rows()), plugin, session, batch, plans, builds).value
              else old(store.Rows())
    {
      var before := store.Rows();
      if batch in store.batches {
        return false;
      }
      store.batches := store.batches[batch := Batch(plugin, session, Prepared, PlanTags(plans))];
      ghost var created := store.Rows();
      for n := 0 to |plans|
        invariant store.disk == old(store.disk)
        invariant PersistPlans(created, plugin, batch, plans, builds) == PersistPlans(store.Rows(), plugin, batch,
                  plans[n..], builds)
      {
        assert plans[n..][1..] == plans[n + 1..];
        ok := PersistPlan(batch, plans[n], builds);
        if !ok {
          store.Rollback(before);
          return false;
        }
      }
      ok := true;
    }

    /** Removes what was built, newest first, whether or not a removal succeeds. */
    method RemoveBuilt(ghost before: map<StorageKey, Projection>, batch: Uuid, builds: map<TransitionId, Projection>,
            built: seq<StorageKey>, stuck: set<TransitionId>)
      requires Building(before, store.disk, batch, builds, built)
      modifies store`disk
      ensures Cleared(before, store.disk, builds, built, stuck)
      ensures stuck == {} ==> store.disk == before
    {
      for n := |built| downto 0
        invariant forall key | key in before :: key in store.disk && store.disk[key] == before[key]
        invariant forall key | key in store.disk && key !in before ::
                    key in built && key.BuiltFor? && key.transition in builds &&
                        store.disk[key] == builds[key.transition]
        invariant forall key | key in store.disk && key !in before :: key in built[..n] || key.transition in stuck
        invariant forall key | key in built && key.transition in stuck :: key in store.disk
      {
        if built[n].transition !in stuck {
          store.disk := store.disk - {built[n]};
        }
      }
    }

    /** Builds and stores what one plan calls for, up to the first projection that fails or does not fit. */
    method BuildPlan(ghost before: map<StorageKey, Projection>, batch: Uuid, plan: Plan,
            builds: map<TransitionId, Projection>, earlier: seq<StorageKey>)
      returns (ok: bool, built: seq<StorageKey>)
      requires Building(before, store.disk, batch, builds, earlier)
      requires forall key | key in before && key.BuiltFor? :: key.transition.intent.batch != batch
      requires plan.command.operation == TagMove
      modifies store`disk
      ensures ok <==> Built(batch, plan, builds)
      ensures Building(before, store.disk, batch, builds, built)
      ensures ok ==> forall id :: BuiltFor(id) in built <==>
              BuiltFor(id) in earlier || (id in builds && Calls(batch, plan, id))
    {
      built := earlier;
      for m := 0 to |plan.revisions|
        invariant Building(before, store.disk, batch, builds, built)
        invariant Built(batch, plan.(revisions := plan.revisions[..m]), builds)
        invariant forall id :: BuiltFor(id) in built <==>
                    BuiltFor(id) in earlier || (id in builds &&
                        Calls(batch, plan.(revisions := plan.revisions[..m]), id))
      {
        var id := TransitionId(IntentId(batch, plan.command.tag), plan.revisions[m].revision);
        assert plan.revisions[..m + 1] == plan.revisions[..m] + [plan.revisions[m]];
        assert RevisionIds(plan.revisions[..m + 1]) == RevisionIds(plan.revisions[..m]) + [plan.revisions[m].revision];
        if id in builds {
          store.disk := store.disk[BuiltFor(id) := builds[id]];
          built := built + [BuiltFor(id)];
        }
        if id !in builds || !BuildUsable(plan.command, builds[id]) {
          assert plan.revisions[m] in plan.revisions;
          return false, built;
        }
      }
      assert plan.(revisions := plan.revisions[..|plan.revisions|]) == plan;
      ok := true;
    }

    /** Stores one projection for every revision that selects a moved tag, and removes them again as
        soon as one cannot be built or does not fit its plan. */
    method BuildProjections(batch: Uuid, plans: seq<Plan>, builds: map<TransitionId, Projection>)
            returns (ok: bool, built: seq<StorageKey>)
      requires forall key | key in store.disk && key.BuiltFor? :: key.transition.intent.batch != batch
      modifies store`disk
      ensures ok <==> AllBuilt(batch, plans, builds)
      ensures store.disk == if ok then StoreBuilds(old(store.disk), batch, plans, builds) else old(store.disk)
      ensures ok ==> Building(old(store.disk), store.disk, batch, builds, built)
      ensures ok ==> forall id :: BuiltFor(id) in built <==> id in builds && Planned(batch, plans, id)
    {
      built := [];
      ghost var before := store.disk;
      for n := 0 to |plans|
        invariant Building(before, store.disk, batch, builds, built) && AllBuilt(batch, plans[..n], builds)
        invariant forall id :: BuiltFor(id) in built <==> id in builds && Planned(batch, plans[..n], id)
      {
        assert plans[..n + 1] == plans[..n] + [plans[n]];
        if plans[n].command.operation == TagMove {
          ok, built := BuildPlan(before, batch, plans[n], builds, built);
          if !ok {
            RemoveBuilt(before, batch, builds, built, {});
            assert plans[n] in plans;
            return false, [];
          }
        }
      }
      assert plans[..|plans|] == plans;
      StoredAll(before, store.disk, batch, plans, builds, built);
      ok := true;
    }

    /** Stores the projections of the plans and writes the batch, or rejects it. */
    method BuildAndPersist(batch: Uuid, plans: seq<Plan>, builds: map<TransitionId, Projection>, loading: Loading)
            returns (status: PrepareStatus)
      requires forall key | key in store.disk && key.BuiltFor? :: key.transition.intent.batch != batch
      modifies store
      ensures (status, store.Rows(), store.disk) ==
              WritePlans(old(store.Rows()), old(store.disk), plugin, session, batch, plans, builds, loading)
    {
      var ok, built := BuildProjections(batch, plans, builds);
      if !ok {
        return PrepareRejected;
      }
      ghost var before := old(store.disk);
      ok := PersistPrepared(batch, plans, builds);
      if !ok {
        RemoveBuilt(before, batch, builds, built, {});
        return PrepareRejected;
      }
      if loading.LoadFails? {
        RemoveBuilt(before, batch, builds, built, loading.stuck);
        StoredLeft(before, store.disk, batch, plans, builds, built, loading.stuck);
        return PrepareRejected;
      }
      status := BatchPrepared;
    }

    /** Rejects the push and leaves everything as it was, or finds nothing to do, or writes the batch and
        stores its projections. When the batch cannot be read back after it was written, the push is
        rejected and the projections are removed, except those that are stuck, but the batch stays. */
    method Prepare(batch: Uuid, commands: seq<TagCommand>, builds: map<TransitionId, Projection>, loading: Loading)
            returns (status: PrepareStatus)
      requires forall key | key in store.disk && key.BuiltFor? :: key.transition.intent.batch != batch
      modifies store
      ensures (status, store.Rows(), store.disk) ==
              PrepareOutcome(old(store.Rows()), old(store.disk), plugin, session, batch, commands, builds, loading)
    {
      var effectful := ClassifyCommands(commands);
      if effectful.None? {
        return PrepareRejected;
      }
      var plans := PreflightPlans(effectful.value);
      if plans.None? {
        return PrepareRejected;
      }
      if plans.value == [] {
        return NothingToPrepare;
      }
      status := BuildAndPersist(batch, plans.value, builds, loading);
    }

    // ---- Resolve

    method CompleteTransition(operation: Operation, id: TransitionId) returns (ok: bool)
      modifies store
      ensures store.disk == old(store.disk)
      ensures Receive.CompleteTransition(old(store.Rows()), operation, id, true) == if ok then Some(store.Rows())
              else None
    {
      if id !in store.transitions {
        return false;
      }
      var transition := store.transitions[id];
      var target: Option<ArtifactId> := None;
      if operation == Move {
        if transition.staged.None? || transition.staged.value !in store.artifacts ||
            !store.artifacts[transition.staged.value].state.Staged? {
          return false;
        }
        target := transition.staged;
        store.artifacts := store.artifacts[target.value := store.artifacts[target.value].(state := Ready)];
      }
      if !PointerFrozen(store.Rows(), transition) {
        return false;
      }
      store.pointers := store.pointers[transition.pointer := Pointer(target, transition.generation + 1,
          operation == Move)];
      if transition.current.Some? && transition.current != transition.staged {
        store.gc := EnqueueGc(store.gc, transition.current.value);
      }
      if !TransitionOpen(transition.state) {
        return false;
      }
      store.transitions := store.transitions[id := transition.(state := TransitionCompleted)];
      ok := true;
    }

    method AbortTransition(id: TransitionId) returns (ok: bool)
      modifies store
      ensures store.disk == old(store.disk)
      ensures Receive.AbortTransition(old(store.Rows()), id, true) == if ok then Some(store.Rows()) else None
    {
      if id !in store.transitions {
        return false;
      }
      var transition := store.transitions[id];
      if !PointerFrozen(store.Rows(), transition) {
        return false;
      }
      store.pointers := store.pointers[transition.pointer := store.pointers[transition.pointer].(available := true)];
      if transition.staged.Some? {
        store.gc := EnqueueGc(store.gc, transition.staged.value);
      }
      if !TransitionOpen(transition.state) {
        return false;
      }
      store.transitions := store.transitions[id := transition.(state := TransitionAborted)];
      ok := true;
    }

    method WriteVersion(id: IntentId, intent: Intent) returns (ok: bool)
      modifies store
      ensures store.disk == old(store.disk)
      ensures Receive.WriteVersion(old(store.Rows()), id, intent) == if ok then Some(store.Rows()) else None
    {
      if !SourceFactsPresent(intent) || !VersionExpected(store.Rows(), intent) {
        return false;
      }
      if intent.operation == Move {
        store.versions := store.versions[intent.key := Version(Available, intent.newObject, intent.newCommit,
            intent.manifest)];
      } else {
        store.versions := store.versions[intent.key := Version(Deleted, None, None, None)];
        if intent.key.plugin in store.plugins && store.plugins[intent.key.plugin].defaultTag == Some(intent.key.tag) {
          store.plugins := store.plugins[intent.key.plugin := store.plugins[intent.key.plugin].(defaultTag := None)];
        }
      }
      store.history := store.history + [HistoryAfter(id, intent)];
      ok := true;
    }

    method CompleteIntent(id: IntentId) returns (ok: bool)
      modifies store
      ensures store.disk == old(store.disk)
      ensures SettleIntent(old(store.Rows()), id, ReceiveCompleted, true) == if ok then Some(store.Rows()) else None
    {
      if id !in store.intents {
        return false;
      }
      var intent := store.intents[id];
      ok := WriteVersion(id, intent);
      if !ok {
        return false;
      }
      ghost var written := store.Rows();
      var ids := Ids(id, intent.revisions);
      for n := 0 to |ids|
        invariant store.disk == old(store.disk)
        invariant SettleTransitions(written, ReceiveCompleted, intent.operation, ids, true) ==
                  SettleTransitions(store.Rows(), ReceiveCompleted, intent.operation, ids[n..], true)
      {
        assert ids[n..][1..] == ids[n + 1..];
        ok := CompleteTransition(intent.operation, ids[n]);
        if !ok {
          return false;
        }
      }
      if id !in store.intents || !IsOpen(store.intents[id].state) {
        return false;
      }
      store.intents := store.intents[id := store.intents[id].(state := Completed)];
      ok := true;
    }

    method AbortIntent(id: IntentId) returns (ok: bool)
      modifies store
      ensures store.disk == old(store.disk)
      ensures SettleIntent(old(store.Rows()), id, ReceiveAborted, true) == if ok then Some(store.Rows()) else None
    {
      if id !in store.intents {
        return false;
      }
      var intent := store.intents[id];
      var ids := Ids(id, intent.revisions);
      for n := 0 to |ids|
        invariant store.disk == old(store.disk)
        invariant SettleTransitions(old(store.Rows()), ReceiveAborted, intent.operation, ids, true) ==
                  SettleTransitions(store.Rows(), ReceiveAborted, intent.operation, ids[n..], true)
      {
        assert ids[n..][1..] == ids[n + 1..];
        ok := AbortTransition(ids[n]);
        if !ok {
          return false;
        }
      }
      if id !in store.intents || !IsOpen(store.intents[id].state) {
        return false;
      }
      store.intents := store.intents[id := store.intents[id].(state := Aborted)];
      ok := true;
    }

    /** The settling transaction: on any mismatch everything it wrote is undone. */
    method ApplyResolution(batch: Uuid, verdict: Disposition) returns (ok: bool)
      requires batch in store.batches && verdict != ReceiveManual
      modifies store
      ensures store.disk == old(store.disk)
      ensures ok <==> SettleBatch(old(store.Rows()), batch, verdict, true).Some?
      ensures store.Rows() == if ok then SettleBatch(old(store.Rows()), batch, verdict, true).value
              else old(store.Rows())
    {
      var before := store.Rows();
      var tags := store.batches[batch].tags;
      for n := 0 to |tags|
        invariant store.disk == old(store.disk)
        invariant SettleIntents(before, batch, tags, verdict, true) == SettleIntents(store.Rows(), batch, tags[n..],
                  verdict, true)
      {
        assert tags[n..][1..] == tags[n + 1..];
        if verdict == ReceiveCompleted {
          ok := CompleteIntent(IntentId(batch, tags[n]));
        } else {
          ok := AbortIntent(IntentId(batch, tags[n]));
        }
        if !ok {
          store.Rollback(before);
          return false;
        }
      }
      if batch !in store.batches || !IsOpen(store.batches[batch].state) {
        store.Rollback(before);
        return false;
      }
      store.batches := store.batches[batch := store.batches[batch].(state := FinalState(verdict))];
      ok := true;
    }

    /** Holds the rows of a batch, and every transition it was given, for an operator. */
    method MarkManual(batch: Uuid, ids: seq<TransitionId>)
      modifies store
      ensures store.disk == old(store.disk)
      ensures store.Rows() == Receive.MarkManual(old(store.Rows()), batch, ids)
    {
      if batch in store.batches {
        store.batches := store.batches[batch := store.batches[batch].(state := Held(store.batches[batch].state))];
      }
      store.intents := map id | id in store.intents ::
        if id.batch == batch then store.intents[id].(state := Held(store.intents[id].state)) else store.intents[id];
      ghost var rows := store.Rows();
      for n := 0 to |ids|
        invariant store.disk == old(store.disk)
        invariant HoldTransitions(rows, ids) == HoldTransitions(store.Rows(), ids[n..])
      {
        assert ids[n..][1..] == ids[n + 1..];
        if ids[n] in store.transitions {
          var transition := store.transitions[ids[n]];
          if transition.pointer in store.pointers {
            var pointer := store.pointers[transition.pointer];
            store.pointers := store.pointers[transition.pointer := pointer.(available := false)];
          }
          if !TransitionSettled(transition.state) {
            store.transitions := store.transitions[ids[n] := transition.(state := TransitionManual)];
          }
        }
      }
    }

    /** Looks at the staged projections in order and stops at the first that is missing or damaged. */
    method VerifyProjections(ids: seq<TransitionId>) returns (found: Verified)
      ensures found == VerifyStaged(store.Rows(), store.disk, ids)
    {
      for n := 0 to |ids|
        invariant VerifyStaged(store.Rows(), store.disk, ids) == VerifyStaged(store.Rows(), store.disk, ids[n..])
      {
        assert ids[n..][1..] == ids[n + 1..];
        if ids[n] in store.transitions && store.transitions[ids[n]].staged.Some? {
          var aid := store.transitions[ids[n]].staged.value;
          if aid !in store.artifacts {
            return Missing;
          }
          if !Stored(store.disk, store.artifacts[aid]) {
            return Damaged(aid);
          }
        }
      }
      found := Sound;
    }

    method MarkFailed(aid: ArtifactId)
      modifies store`artifacts
      ensures store.Rows() == Receive.MarkFailed(old(store.Rows()), aid)
    {
      if aid in store.artifacts {
        store.artifacts := store.artifacts[aid := store.artifacts[aid].(state := Failed)];
      }
    }

    method HandOver(batch: Uuid, ids: seq<TransitionId>, holds: bool)
      modifies store
      ensures store.disk == old(store.disk)
      ensures store.Rows() == Receive.HandOver(old(store.Rows()), batch, ids, holds)
    {
      if holds {
        MarkManual(batch, ids);
      }
    }

    /** Resolves a batch with what Git reported, unless the batch is another session's or already closed.
        `holds` says whether handing the batch over gets through. */
    method Resolve(batch: Uuid, declared: Option<Disposition>, observed: seq<ObservedRef>, holds: bool)
            returns (status: ResolveStatus)
      modifies store
      ensures store.disk == old(store.disk)
      ensures (store.Rows(), status) == ResolveBatch(old(store.Rows()), old(store.disk), plugin, session, batch,
              declared, observed, holds)
    {
      if batch !in store.batches || store.batches[batch].plugin != plugin || store.batches[batch].session != session {
        return Rejected;
      }
      if !IsOpen(store.batches[batch].state) {
        return Resolved;
      }
      var tags := store.batches[batch].tags;
      var ids := BatchIds(store.Rows(), batch, tags);
      var verdict := ClassifyResolution(Some(batch), IntentRefsOf(store.Rows(), batch, tags), observed);
      if declared == Some(ReceiveManual) || verdict == ReceiveManual || (declared.Some? && declared.value != verdict) {
        HandOver(batch, ids, holds);
        return if holds then Resolved else ManualRecovery;
      }
      if verdict == ReceiveCompleted {
        var found := VerifyProjections(ids);
        if found.Damaged? {
          MarkFailed(found.artifact);
        }
        if !found.Sound? {
          HandOver(batch, ids, holds);
          return ManualRecovery;
        }
      }
      var ok := ApplyResolution(batch, verdict);
      if !ok {
        HandOver(batch, ids, holds);
        return ManualRecovery;
      }
      status := Resolved;
    }
  }
}
