/** Which pushes are prepared, and what preparing one writes, told by the columns of the rows and by what
    the object store says of the pushed identifiers. */
module Acceptance {
  import opened Wrappers
  import opened Tables
  import opened Classification
  import opened Receive
  import opened Lifecycle
  import opened World
  import opened Invariant
  import opened Settlement
  import opened Planning
  import opened Persisting
  import opened PrepareSafety
  import opened PrepareStep

  // ---- The conditions, column by column

  /** Each side is absent or peels to a commit, and a proposed commit has a manifest. */
  ghost predicate Readable(objects: Objects, command: RefCommand) {
    (command.oldObject.Zero? || command.oldObject in objects.commits) &&
    (command.newObject.Zero? ||
     (command.newObject in objects.commits && objects.commits[command.newObject] in objects.manifests))
  }

  /** The pushed tag has an available Version. */
  ghost predicate Touched(db: Db, plugin: Uuid, command: RefCommand) {
    TagKey(plugin, command.tag) in db.versions && db.versions[TagKey(plugin, command.tag)].status.Available?
  }

  /** The push starts from the identifier and the commit that the Version records. */
  ghost predicate FromVersion(version: Version, objects: Objects, command: RefCommand) {
    version.raw == Some(command.oldObject) && command.oldObject in objects.commits &&
    version.commit == Some(objects.commits[command.oldObject]) && !objects.commits[command.oldObject].Empty?
  }

  /** Every push on the tag has been completed or aborted. */
  ghost predicate Unheld(db: Db, key: TagKey) {
    forall id | id in db.intents && db.intents[id].key == key ::
      db.intents[id].state.Completed? || db.intents[id].state.Aborted?
  }

  /** A Marketplace revision lists the tag. */
  ghost predicate Lists(db: Db, item: Item, key: TagKey) {
    item in db.population.items && item.key == key && item.revision in db.population.revisions
  }

  /** The pointer of the revision is available and names a ready projection of this commit. */
  ghost predicate Points(db: Db, key: TagKey, revision: Uuid, commit: ObjectId) {
    PointerId(revision, key) in db.pointers &&
    var pointer := db.pointers[PointerId(revision, key)];
    pointer.available && pointer.artifact.Some? && pointer.artifact.value in db.artifacts &&
    var artifact := db.artifacts[pointer.artifact.value];
    artifact.key == key && artifact.revision == revision && artifact.state.Ready? && artifact.commit == commit
  }

  /** An active revision that its active Marketplace has published lists the tag. */
  ghost predicate OnSale(db: Db, item: Item, key: TagKey) {
    Lists(db, item, key) &&
    var revision := db.population.revisions[item.revision];
    revision.active && revision.template in db.population.templates &&
    db.population.templates[revision.template].active &&
    db.population.templates[revision.template].published == Some(item.revision)
  }

  /** A move proposes a usable manifest. */
  ghost predicate Proposes(objects: Objects, command: RefCommand)
    requires command.newObject in objects.commits && objects.commits[command.newObject] in objects.manifests
  {
    var commit := objects.commits[command.newObject];
    !commit.Empty? && |objects.manifests[commit].digest| == 64 && objects.manifests[commit].snapshot != ""
  }

  ghost predicate Permitted(w: World, plugin: Uuid, command: RefCommand)
    requires Readable(w.objects, command) && Touched(w.db, plugin, command)
  {
    var key := TagKey(plugin, command.tag);
    FromVersion(w.db.versions[key], w.objects, command) && Unheld(w.db, key) &&
    (forall item | Lists(w.db, item, key) ::
      Points(w.db, key, item.revision, w.objects.commits[command.oldObject])) &&
    if command.newObject.Zero? then forall item :: !OnSale(w.db, item, key) else Proposes(w.objects, command)
  }

  /** A move has a new projection of its commit for every revision that lists the tag. */
  ghost predicate Projected(w: World, plugin: Uuid, command: RefCommand, batch: Uuid, builds: Builds)
    requires Readable(w.objects, command)
  {
    !command.newObject.Zero? ==>
      forall item | Lists(w.db, item, TagKey(plugin, command.tag)) ::
        var id := TransitionId(IntentId(batch, command.tag), item.revision);
        id in builds && builds[id].commit == w.objects.commits[command.newObject] && |builds[id].digest| == 64
  }

  ghost predicate AllReadable(objects: Objects, commands: seq<RefCommand>) {
    forall command | command in commands :: Readable(objects, command)
  }

  ghost predicate NoneTouched(db: Db, plugin: Uuid, commands: seq<RefCommand>) {
    forall command | command in commands :: !Touched(db, plugin, command)
  }

  ghost predicate AllPermitted(w: World, plugin: Uuid, commands: seq<RefCommand>)
    requires AllReadable(w.objects, commands)
  {
    forall command | command in commands && Touched(w.db, plugin, command) :: Permitted(w, plugin, command)
  }

  ghost predicate AllProjected(w: World, plugin: Uuid, commands: seq<RefCommand>, batch: Uuid, builds: Builds)
    requires AllReadable(w.objects, commands)
  {
    forall command | command in commands && Touched(w.db, plugin, command) ::
      Projected(w, plugin, command, batch, builds)
  }

  /** The push touches a Version, everything it names can be read, and nothing forbids any part of it. */
  ghost predicate Accepted(w: World, plugin: Uuid, commands: seq<RefCommand>, batch: Uuid, builds: Builds) {
    AllReadable(w.objects, commands) && !NoneTouched(w.db, plugin, commands) && AllPermitted(w, plugin, commands) &&
    AllProjected(w, plugin, commands, batch, builds)
  }

  // ---- Reading the push

  lemma ReadableExactly(objects: Objects, command: RefCommand)
    requires command.oldObject != command.newObject
    ensures ClassifyTag(objects, command).Some? <==> Readable(objects, command)
  {
  }

  lemma {:induction false} ReadExactly(objects: Objects, commands: seq<RefCommand>)
    requires WellFormed(commands)
    ensures ClassifyTags(objects, commands).Some? <==> AllReadable(objects, commands)
  {
    if commands != [] {
      assert commands == [commands[0]] + commands[1..];
      ReadableExactly(objects, commands[0]);
      ReadExactly(objects, commands[1..]);
    }
  }

  // ---- Classifying it

  lemma TouchedExactly(w: World, plugin: Uuid, command: RefCommand)
    requires VersionFactsOk(w.db.versions, w.objects) && command.oldObject != command.newObject
    requires Readable(w.objects, command) && ClassifyTag(w.objects, command).Some?
    ensures ClassifyCommand(w.db, plugin, ClassifyTag(w.objects, command).value).Skipped? <==>
            !Touched(w.db, plugin, command)
  {
    var key := TagKey(plugin, command.tag);
    if key in w.db.versions { assert VersionFacts(w.db.versions[key], w.objects); }
  }

  lemma EffectfulExactly(w: World, plugin: Uuid, command: RefCommand)
    requires !command.oldObject.Empty? && !command.newObject.Empty? && command.oldObject != command.newObject
    requires VersionFactsOk(w.db.versions, w.objects) && Readable(w.objects, command) &&
             Touched(w.db, plugin, command)
    requires ClassifyTag(w.objects, command).Some?
    ensures ClassifyCommand(w.db, plugin, ClassifyTag(w.objects, command).value).Effectful? <==>
            FromVersion(w.db.versions[TagKey(plugin, command.tag)], w.objects, command) &&
            (command.newObject.Zero? || Proposes(w.objects, command))
  {
    assert VersionFacts(w.db.versions[TagKey(plugin, command.tag)], w.objects);
  }

  lemma {:induction false} ClassifiedExactly(db: Db, plugin: Uuid, commands: seq<TagCommand>, seen: set<Tag>)
    requires TagsDistinct(commands) && forall c | c in commands :: c.tag !in seen
    ensures Classify(db, plugin, commands, seen).Some? <==>
            forall c | c in commands :: !ClassifyCommand(db, plugin, c).Refused?
    decreases |commands|
  {
    if commands != [] {
      assert commands == [commands[0]] + commands[1..];
      forall c | c in commands[1..] ensures c.tag != commands[0].tag {
        var j :| 0 <= j < |commands[1..]| && commands[1..][j] == c;
        assert commands[j + 1] == c;
      }
      ClassifiedExactly(db, plugin, commands[1..], seen + {commands[0].tag});
    }
  }

  // ---- Preflight

  lemma PointsIsLive(db: Db, key: TagKey, revision: Uuid, commit: ObjectId)
    ensures Points(db, key, revision, commit) <==> Live(db, key, revision, Some(commit))
  {
  }

  lemma {:induction false} LiveExactly(db: Db, key: TagKey, items: seq<Item>, oldCommit: Option<ObjectId>)
    ensures SelectingRevisions(db, key, items, oldCommit).Some? <==>
            forall item | item in items && item.key == key && item.revision in db.population.revisions ::
              Live(db, key, item.revision, oldCommit)
    decreases |items|
  {
    if items != [] {
      assert items == [items[0]] + items[1..];
      LiveExactly(db, key, items[1..], oldCommit);
    }
  }

  lemma UnheldExactly(db: Db, key: TagKey)
    ensures Unheld(db, key) <==> !Blocked(db, key)
  {
  }

  lemma OnSaleExactly(db: Db, key: TagKey)
    ensures (forall item :: !OnSale(db, item, key)) <==> !ActivelyPublished(db, key)
  {
    if ActivelyPublished(db, key) {
      var item :| item in db.population.items && item.key == key && item.revision in db.population.revisions &&
        var revision := db.population.revisions[item.revision];
        revision.active && revision.template in db.population.templates &&
        var template := db.population.templates[revision.template];
        template.active && template.published == Some(item.revision);
      assert OnSale(db, item, key);
    }
  }

  lemma PreflightExactly(w: World, plugin: Uuid, command: TagCommand, commit: ObjectId)
    requires command.oldCommit == Some(commit)
    ensures var key := TagKey(plugin, command.tag);
            Preflight(w.db, plugin, command).Some? <==>
              Unheld(w.db, key) && (command.operation == TagDelete ==> forall item :: !OnSale(w.db, item, key)) &&
              forall item | Lists(w.db, item, key) :: Points(w.db, key, item.revision, commit)
  {
    var key := TagKey(plugin, command.tag);
    UnheldExactly(w.db, key);
    OnSaleExactly(w.db, key);
    LiveExactly(w.db, key, w.db.population.items, Some(commit));
    forall item | Lists(w.db, item, key) { PointsIsLive(w.db, key, item.revision, commit); }
    if forall item | Lists(w.db, item, key) :: Points(w.db, key, item.revision, commit) {
      forall item | item in w.db.population.items && item.key == key && item.revision in w.db.population.revisions
        ensures Live(w.db, key, item.revision, Some(commit))
      {
        assert Lists(w.db, item, key);
      }
    }
  }

  lemma {:induction false} PreflightAllExactly(db: Db, plugin: Uuid, commands: seq<TagCommand>)
    ensures PreflightAll(db, plugin, commands).Some? <==>
            forall c | c in commands :: Preflight(db, plugin, c).Some?
  {
    if commands != [] {
      assert commands == [commands[0]] + commands[1..];
      PreflightAllExactly(db, plugin, commands[1..]);
    }
  }

  // ---- Planning

  /** The command is not refused, and if it is effectful it passes the preflight. */
  ghost predicate Passes(db: Db, plugin: Uuid, command: TagCommand) {
    ClassifyCommand(db, plugin, command).Skipped? ||
    (ClassifyCommand(db, plugin, command).Effectful? && Preflight(db, plugin, command).Some?)
  }

  lemma PlannedExactly(db: Db, plugin: Uuid, commands: seq<TagCommand>)
    requires TagsDistinct(commands)
    ensures PlanBatch(db, plugin, commands).Some? <==> forall c | c in commands :: Passes(db, plugin, c)
    ensures PlanBatch(db, plugin, commands).Some? ==>
            (PlanBatch(db, plugin, commands).value == [] <==>
             forall c | c in commands :: ClassifyCommand(db, plugin, c).Skipped?)
  {
    ClassifiedExactly(db, plugin, commands, {});
    if Classify(db, plugin, commands, {}).Some? {
      ClassifiedAll(db, plugin, commands, {});
      var effectful := Classify(db, plugin, commands, {}).value;
      PreflightAllExactly(db, plugin, effectful);
      if PreflightAll(db, plugin, effectful).Some? {
        PreflightedAll(db, plugin, effectful);
        if effectful != [] { assert effectful[0] in effectful; }
      }
    }
  }

  lemma PassesExactly(w: World, plugin: Uuid, command: RefCommand)
    requires !command.oldObject.Empty? && !command.newObject.Empty? && command.oldObject != command.newObject
    requires VersionFactsOk(w.db.versions, w.objects) && Readable(w.objects, command) &&
             ClassifyTag(w.objects, command).Some?
    ensures Passes(w.db, plugin, ClassifyTag(w.objects, command).value) <==>
            (Touched(w.db, plugin, command) ==> Permitted(w, plugin, command))
  {
    TouchedExactly(w, plugin, command);
    if Touched(w.db, plugin, command) {
      EffectfulExactly(w, plugin, command);
      if command.oldObject.Object? {
        PreflightExactly(w, plugin, ClassifyTag(w.objects, command).value, w.objects.commits[command.oldObject]);
      }
    }
  }

  /** The classified commands of a readable push, one for each pushed one. */
  lemma ReadTags(objects: Objects, commands: seq<RefCommand>) returns (tagCommands: seq<TagCommand>)
    requires WellFormed(commands) && AllReadable(objects, commands)
    ensures ClassifyTags(objects, commands) == Some(tagCommands) && |tagCommands| == |commands| &&
            TagsDistinct(tagCommands)
    ensures forall i :: 0 <= i < |commands| ==> ClassifyTag(objects, commands[i]) == Some(tagCommands[i])
  {
    ReadExactly(objects, commands);
    tagCommands := ClassifyTags(objects, commands).value;
    forall i | 0 <= i < |commands| ensures tagCommands[i].tag == commands[i].tag {
      ClassifiedTag(objects, commands[i]);
    }
  }

  lemma CommandPasses(w: World, plugin: Uuid, commands: seq<RefCommand>, tagCommands: seq<TagCommand>, i: nat)
    requires WellFormed(commands) && AllReadable(w.objects, commands) && VersionFactsOk(w.db.versions, w.objects)
    requires i < |commands| == |tagCommands| && ClassifyTag(w.objects, commands[i]) == Some(tagCommands[i])
    ensures Readable(w.objects, commands[i])
    ensures Passes(w.db, plugin, tagCommands[i]) <==>
            (Touched(w.db, plugin, commands[i]) ==> Permitted(w, plugin, commands[i]))
    ensures ClassifyCommand(w.db, plugin, tagCommands[i]).Skipped? <==> !Touched(w.db, plugin, commands[i])
  {
    assert commands[i] in commands;
    PassesExactly(w, plugin, commands[i]);
    TouchedExactly(w, plugin, commands[i]);
  }

  /** A readable push is planned exactly when every touched command is permitted. */
  lemma PermittedExactly(w: World, plugin: Uuid, commands: seq<RefCommand>)
    requires WellFormed(commands) && AllReadable(w.objects, commands) && VersionFactsOk(w.db.versions, w.objects)
    ensures ClassifyTags(w.objects, commands).Some?
    ensures var plans := PlanBatch(w.db, plugin, ClassifyTags(w.objects, commands).value);
            (plans.Some? <==> AllPermitted(w, plugin, commands)) &&
            (plans.Some? ==> (plans.value == [] <==> NoneTouched(w.db, plugin, commands)))
  {
    var tagCommands := ReadTags(w.objects, commands);
    PlannedExactly(w.db, plugin, tagCommands);
    forall i | 0 <= i < |commands|
      ensures Passes(w.db, plugin, tagCommands[i]) <==>
              (Touched(w.db, plugin, commands[i]) ==> Permitted(w, plugin, commands[i]))
      ensures ClassifyCommand(w.db, plugin, tagCommands[i]).Skipped? <==> !Touched(w.db, plugin, commands[i])
    {
      CommandPasses(w, plugin, commands, tagCommands, i);
    }
    forall i | 0 <= i < |commands| ensures tagCommands[i] in tagCommands && commands[i] in commands {
    }
  }

  // ---- What has to be built

  /** The plan of a touched command, and the revisions it has to serve. */
  lemma TouchedPlan(w: World, plugin: Uuid, commands: seq<RefCommand>, command: RefCommand) returns (plan: Plan)
    requires ItemsOk(w.db.population, w.db.pointers.Keys) && VersionFactsOk(w.db.versions, w.objects) &&
             WellFormed(commands)
    requires AllReadable(w.objects, commands) && command in commands && Touched(w.db, plugin, command)
    requires ClassifyTags(w.objects, commands).Some? &&
             PlanBatch(w.db, plugin, ClassifyTags(w.objects, commands).value).Some?
    ensures plan in PlanBatch(w.db, plugin, ClassifyTags(w.objects, commands).value).value
    ensures ClassifyTag(w.objects, command) == Some(plan.command) && plan.command.tag == command.tag
    ensures PlanSound(w.db, plugin, plan) && IntentSound(w.db, w.objects, plugin, command.tag, IntentFor(plugin, plan))
  {
    plan := PlanOfCommand(w, plugin, commands, command);
    var n := CommandOfPlan(w, plugin, commands, plan);
    var i :| 0 <= i < |commands| && commands[i] == command;
    assert n == i;
    PlannedAll(w.db, plugin, ClassifyTags(w.objects, commands).value);
  }

  lemma ListsIsSelected(db: Db, key: TagKey, revision: Uuid)
    ensures Selects(db.population, db.population.items, key, revision) <==>
            exists item :: Lists(db, item, key) && item.revision == revision
  {
    if Selects(db.population, db.population.items, key, revision) {
      var i :| 0 <= i < |db.population.items| && db.population.items[i].revision == revision &&
               db.population.items[i].key == key;
      assert Lists(db, db.population.items[i], key);
    }
    if item :| Lists(db, item, key) && item.revision == revision {
      var i :| 0 <= i < |db.population.items| && db.population.items[i] == item;
    }
  }

  /** One plan has what it needs exactly when its command does. */
  lemma BuiltExactly(w: World, plugin: Uuid, plan: Plan, command: RefCommand, batch: Uuid, builds: Builds)
    requires command.oldObject != command.newObject && !command.oldObject.Zero? && Readable(w.objects, command)
    requires ClassifyTag(w.objects, command) == Some(plan.command) && PlanSound(w.db, plugin, plan)
    ensures Built(batch, plan, builds) <==> Projected(w, plugin, command, batch, builds)
  {
    var key := TagKey(plugin, command.tag);
    forall r { ListsIsSelected(w.db, key, r); }
    if Built(batch, plan, builds) {
      forall item | Lists(w.db, item, key) ensures item.revision in RevisionIds(plan.revisions) {
      }
      forall item | Lists(w.db, item, key)
        ensures exists r | r in plan.revisions :: r.revision == item.revision
      {
        var i :| 0 <= i < |plan.revisions| && RevisionIds(plan.revisions)[i] == item.revision;
        assert plan.revisions[i] in plan.revisions;
      }
    }
    if Projected(w, plugin, command, batch, builds) {
      forall r | r in plan.revisions ensures exists item :: Lists(w.db, item, key) && item.revision == r.revision {
        var i :| 0 <= i < |plan.revisions| && plan.revisions[i] == r;
        assert RevisionIds(plan.revisions)[i] == r.revision;
        assert r.revision in RevisionIds(plan.revisions);
        assert Selects(w.db.population, w.db.population.items, key, r.revision);
      }
    }
  }

  lemma PlanBuilt(w: World, plugin: Uuid, commands: seq<RefCommand>, batch: Uuid, builds: Builds, plan: Plan)
    requires ItemsOk(w.db.population, w.db.pointers.Keys) && VersionFactsOk(w.db.versions, w.objects) &&
             WellFormed(commands)
    requires AllReadable(w.objects, commands) && AllProjected(w, plugin, commands, batch, builds)
    requires ClassifyTags(w.objects, commands).Some? &&
             PlanBatch(w.db, plugin, ClassifyTags(w.objects, commands).value).Some?
    requires plan in PlanBatch(w.db, plugin, ClassifyTags(w.objects, commands).value).value
    ensures Built(batch, plan, builds)
  {
    PlannedAll(w.db, plugin, ClassifyTags(w.objects, commands).value);
    var n := CommandOfPlan(w, plugin, commands, plan);
    assert commands[n] in commands;
    PlannedVersion(w, plugin, plan);
    TouchedExactly(w, plugin, commands[n]);
    BuiltExactly(w, plugin, plan, commands[n], batch, builds);
  }

  lemma CommandProjected(w: World, plugin: Uuid, commands: seq<RefCommand>, batch: Uuid, builds: Builds,
          command: RefCommand)
    requires ItemsOk(w.db.population, w.db.pointers.Keys) && VersionFactsOk(w.db.versions, w.objects) &&
             WellFormed(commands)
    requires AllReadable(w.objects, commands) && command in commands && Touched(w.db, plugin, command)
    requires ClassifyTags(w.objects, commands).Some? &&
             PlanBatch(w.db, plugin, ClassifyTags(w.objects, commands).value).Some?
    requires AllBuilt(batch, PlanBatch(w.db, plugin, ClassifyTags(w.objects, commands).value).value, builds)
    ensures Projected(w, plugin, command, batch, builds)
  {
    var plan := TouchedPlan(w, plugin, commands, command);
    PlannedVersion(w, plugin, plan);
    BuiltExactly(w, plugin, plan, command, batch, builds);
  }

  /** Everything a planned push needs was built exactly when every touched command has it. */
  lemma ProjectedExactly(w: World, plugin: Uuid, commands: seq<RefCommand>, batch: Uuid, builds: Builds)
    requires ItemsOk(w.db.population, w.db.pointers.Keys) && VersionFactsOk(w.db.versions, w.objects) &&
             WellFormed(commands) && AllReadable(w.objects, commands)
    requires ClassifyTags(w.objects, commands).Some? &&
             PlanBatch(w.db, plugin, ClassifyTags(w.objects, commands).value).Some?
    ensures AllBuilt(batch, PlanBatch(w.db, plugin, ClassifyTags(w.objects, commands).value).value, builds) <==>
            AllProjected(w, plugin, commands, batch, builds)
  {
    var plans := PlanBatch(w.db, plugin, ClassifyTags(w.objects, commands).value).value;
    if AllProjected(w, plugin, commands, batch, builds) {
      forall plan | plan in plans { PlanBuilt(w, plugin, commands, batch, builds, plan); }
    }
    if AllBuilt(batch, plans, builds) {
      forall command | command in commands && Touched(w.db, plugin, command) {
        CommandProjected(w, plugin, commands, batch, builds, command);
      }
    }
  }

  /** A push comes to a nonempty plan exactly when it is accepted. */
  lemma PlansExactly(w: World, plugin: Uuid, commands: seq<RefCommand>, batch: Uuid, builds: Builds)
    requires ItemsOk(w.db.population, w.db.pointers.Keys) && VersionFactsOk(w.db.versions, w.objects) &&
             WellFormed(commands)
    ensures PlansOf(w, plugin, commands, batch, builds) != [] <==> Accepted(w, plugin, commands, batch, builds)
  {
    ReadExactly(w.objects, commands);
    if AllReadable(w.objects, commands) {
      PermittedExactly(w, plugin, commands);
      if AllPermitted(w, plugin, commands) { ProjectedExactly(w, plugin, commands, batch, builds); }
    }
  }

  // ---- Main results

  /** A push is prepared exactly when it is accepted. A readable push that touches no Version goes on without a
      batch, and every other push is turned away with no row, ref or projection changed. */
  lemma PreparesExactly(w: World, plugin: Uuid, commands: seq<RefCommand>, batch: Uuid, builds: Builds)
    requires Inv(w) && Preparable(w, plugin, commands, batch)
    ensures var next := DoPrepare(w, plugin, commands, batch, builds, Loads);
            if Accepted(w, plugin, commands, batch, builds) then
              plugin in next.sessions && next.sessions[plugin].phase == Applying(commands, Some(batch))
            else if AllReadable(w.objects, commands) && NoneTouched(w.db, plugin, commands) then
              next == w.(sessions := w.sessions[plugin := Session(w.sessions[plugin].id, Applying(commands, None))])
            else next == w.(sessions := w.sessions - {plugin})
  {
    PlansExactly(w, plugin, commands, batch, builds);
    if Accepted(w, plugin, commands, batch, builds) {
      var mid := PersistedEffect(w, plugin, w.sessions[plugin].id, commands, batch, builds);
      PreparesPlans(w, plugin, commands, batch, builds, Loads, mid);
    } else {
      TurnedAway(w, plugin, commands, batch, builds, Loads);
    }
  }

  lemma TurnedAway(w: World, plugin: Uuid, commands: seq<RefCommand>, batch: Uuid, builds: Builds, loading: Loading)
    requires ItemsOk(w.db.population, w.db.pointers.Keys) && VersionFactsOk(w.db.versions, w.objects)
    requires plugin in w.sessions && WellFormed(commands) && !Accepted(w, plugin, commands, batch, builds)
    ensures DoPrepare(w, plugin, commands, batch, builds, loading) ==
            if AllReadable(w.objects, commands) && NoneTouched(w.db, plugin, commands)
            then Enter(w, plugin, Applying(commands, None)) else DropSession(w, plugin)
  {
    ReadExactly(w.objects, commands);
    if AllReadable(w.objects, commands) {
      PermittedExactly(w, plugin, commands);
      if AllPermitted(w, plugin, commands) { ProjectedExactly(w, plugin, commands, batch, builds); }
    }
  }

  /** When the batch cannot be read back, the same pushes leave the same rows, but the session is gone. */
  lemma UnloadedExactly(w: World, plugin: Uuid, commands: seq<RefCommand>, batch: Uuid, builds: Builds,
          stuck: set<TransitionId>)
    requires Inv(w) && Preparable(w, plugin, commands, batch) && Accepted(w, plugin, commands, batch, builds)
    ensures var loaded := DoPrepare(w, plugin, commands, batch, builds, Loads);
            var next := DoPrepare(w, plugin, commands, batch, builds, LoadFails(stuck));
            next.db == loaded.db && batch in next.db.batches && next.refs == w.refs &&
            next.sessions == w.sessions - {plugin}
  {
    PlansExactly(w, plugin, commands, batch, builds);
    var mid := PersistedEffect(w, plugin, w.sessions[plugin].id, commands, batch, builds);
    PreparesPlans(w, plugin, commands, batch, builds, Loads, mid);
    PreparesPlans(w, plugin, commands, batch, builds, LoadFails(stuck), mid);
  }

  // ---- What an accepted push leaves behind

  lemma AcceptedRows(w: World, plugin: Uuid, commands: seq<RefCommand>, batch: Uuid, builds: Builds) returns (next: Db)
    requires Inv(w) && Preparable(w, plugin, commands, batch) && Accepted(w, plugin, commands, batch, builds)
    ensures ClassifyTags(w.objects, commands).Some? &&
            PlanBatch(w.db, plugin, ClassifyTags(w.objects, commands).value).Some?
    ensures var plans := PlanBatch(w.db, plugin, ClassifyTags(w.objects, commands).value).value;
            DoPrepare(w, plugin, commands, batch, builds, Loads) ==
              Enter(w.(db := next, disk := StoreBuilds(w.disk, batch, plans, builds)), plugin,
                  Applying(commands, Some(batch))) &&
            PreparedEffect(w.db, next, w.objects, plugin, w.sessions[plugin].id, batch, PlanTags(plans), builds) &&
            IntentsAdded(w.db.intents, next.intents, plugin, batch, plans)
  {
    PlansExactly(w, plugin, commands, batch, builds);
    next := PersistedEffect(w, plugin, w.sessions[plugin].id, commands, batch, builds);
    PreparesPlans(w, plugin, commands, batch, builds, Loads, next);
  }

  lemma PlannedRow(w: World, plugin: Uuid, command: RefCommand, plan: Plan)
    requires command.oldObject != command.newObject && VersionFactsOk(w.db.versions, w.objects)
    requires Readable(w.objects, command) && PlanSound(w.db, plugin, plan)
    requires ClassifyTag(w.objects, command) == Some(plan.command)
    ensures command.oldObject in w.objects.commits
    ensures var moved := !command.newObject.Zero?;
            IntentFor(plugin, plan) ==
              Intent(TagKey(plugin, command.tag), if moved then Move else Delete, command.oldObject,
                     if moved then Some(command.newObject) else None, w.objects.commits[command.oldObject],
                     if moved then Some(w.objects.commits[command.newObject]) else None,
                     if moved then Some(w.objects.manifests[w.objects.commits[command.newObject]]) else None,
                     Prepared, RevisionIds(plan.revisions))
  {
    PlannedVersion(w, plugin, plan);
  }

  lemma PlannedRevisions(db: Db, plugin: Uuid, plan: Plan)
    requires PlanSound(db, plugin, plan)
    ensures forall r :: r in RevisionIds(plan.revisions) <==>
            exists item :: Lists(db, item, TagKey(plugin, plan.command.tag)) && item.revision == r
  {
    forall r { ListsIsSelected(db, TagKey(plugin, plan.command.tag), r); }
  }

  /** For every touched command there is an intent that says what was pushed, what it peels to, and which
      revisions list the tag. */
  lemma RecordsIntent(w: World, plugin: Uuid, commands: seq<RefCommand>, batch: Uuid, builds: Builds,
          command: RefCommand)
    requires Inv(w) && Preparable(w, plugin, commands, batch) && Accepted(w, plugin, commands, batch, builds)
    requires command in commands && Touched(w.db, plugin, command)
    ensures command.oldObject in w.objects.commits
    ensures var next := DoPrepare(w, plugin, commands, batch, builds, Loads).db;
            var id, moved := IntentId(batch, command.tag), !command.newObject.Zero?;
            id in next.intents && id !in w.db.intents &&
            next.intents[id] ==
              Intent(TagKey(plugin, command.tag), if moved then Move else Delete, command.oldObject,
                     if moved then Some(command.newObject) else None, w.objects.commits[command.oldObject],
                     if moved then Some(w.objects.commits[command.newObject]) else None,
                     if moved then Some(w.objects.manifests[w.objects.commits[command.newObject]]) else None,
                     Prepared, next.intents[id].revisions) &&
            Distinct(next.intents[id].revisions) &&
            forall r :: r in next.intents[id].revisions <==>
              exists item :: Lists(w.db, item, TagKey(plugin, command.tag)) && item.revision == r
  {
    var next := AcceptedRows(w, plugin, commands, batch, builds);
    var plan := TouchedPlan(w, plugin, commands, command);
    PlannedRow(w, plugin, command, plan);
    PlannedRevisions(w.db, plugin, plan);
  }

  lemma PlannedIsTouched(w: World, plugin: Uuid, commands: seq<RefCommand>, tag: Tag) returns (command: RefCommand)
    requires ItemsOk(w.db.population, w.db.pointers.Keys) && VersionFactsOk(w.db.versions, w.objects) &&
             WellFormed(commands)
    requires ClassifyTags(w.objects, commands).Some? &&
             PlanBatch(w.db, plugin, ClassifyTags(w.objects, commands).value).Some?
    requires tag in PlanTags(PlanBatch(w.db, plugin, ClassifyTags(w.objects, commands).value).value)
    ensures command in commands && command.tag == tag && Touched(w.db, plugin, command)
  {
    var plan := PlanOfTag(PlanBatch(w.db, plugin, ClassifyTags(w.objects, commands).value).value, tag);
    var n := CommandOfPlan(w, plugin, commands, plan);
    command := commands[n];
    PlannedAll(w.db, plugin, ClassifyTags(w.objects, commands).value);
    PlannedVersion(w, plugin, plan);
  }

  lemma TouchedIsPlanned(w: World, plugin: Uuid, commands: seq<RefCommand>, command: RefCommand)
    requires ItemsOk(w.db.population, w.db.pointers.Keys) && VersionFactsOk(w.db.versions, w.objects) &&
             WellFormed(commands)
    requires AllReadable(w.objects, commands) && command in commands && Touched(w.db, plugin, command)
    requires ClassifyTags(w.objects, commands).Some? &&
             PlanBatch(w.db, plugin, ClassifyTags(w.objects, commands).value).Some?
    ensures command.tag in PlanTags(PlanBatch(w.db, plugin, ClassifyTags(w.objects, commands).value).value)
  {
    var plans := PlanBatch(w.db, plugin, ClassifyTags(w.objects, commands).value).value;
    var plan := TouchedPlan(w, plugin, commands, command);
    var i :| 0 <= i < |plans| && plans[i] == plan;
    assert PlanTags(plans)[i] == command.tag;
  }

  lemma RowsRecorded(db: Db, next: Db, objects: Objects, plugin: Uuid, session: Uuid, batch: Uuid, tags: seq<Tag>,
          builds: Builds)
    requires PreparedEffect(db, next, objects, plugin, session, batch, tags, builds) && Unused(db, batch)
    ensures (forall id | id in next.intents && id.batch != batch :: id in db.intents) &&
            (forall id | id in db.intents :: id in next.intents && next.intents[id] == db.intents[id]) &&
            next.batches == db.batches[batch := Batch(plugin, session, Prepared, tags)] && Distinct(tags) &&
            forall tag :: tag in tags <==> IntentId(batch, tag) in next.intents
  {
  }

  /** No other row of an intent is written, and the batch lists each touched tag once. */
  lemma RecordsOnly(w: World, plugin: Uuid, commands: seq<RefCommand>, batch: Uuid, builds: Builds, tag: Tag)
    requires Inv(w) && Preparable(w, plugin, commands, batch) && Accepted(w, plugin, commands, batch, builds)
    ensures var next := DoPrepare(w, plugin, commands, batch, builds, Loads).db;
            (forall id | id in next.intents && id.batch != batch :: id in w.db.intents) &&
            (forall id | id in w.db.intents :: id in next.intents && next.intents[id] == w.db.intents[id]) &&
            batch in next.batches && Distinct(next.batches[batch].tags) &&
            next.batches ==
              w.db.batches[batch := Batch(plugin, w.sessions[plugin].id, Prepared, next.batches[batch].tags)] &&
            (tag in next.batches[batch].tags <==> IntentId(batch, tag) in next.intents) &&
            (tag in next.batches[batch].tags <==>
             exists command | command in commands :: command.tag == tag && Touched(w.db, plugin, command))
  {
    var next := AcceptedRows(w, plugin, commands, batch, builds);
    var tags := PlanTags(PlanBatch(w.db, plugin, ClassifyTags(w.objects, commands).value).value);
    FreshUnused(w.db, batch);
    RowsRecorded(w.db, next, w.objects, plugin, w.sessions[plugin].id, batch, tags, builds);
    if tag in tags {
      var command := PlannedIsTouched(w, plugin, commands, tag);
    }
    if command :| command in commands && command.tag == tag && Touched(w.db, plugin, command) {
      TouchedIsPlanned(w, plugin, commands, command);
    }
  }

  /** For every revision that lists a touched tag there is a transition from what its pointer names, the pointer
      is withdrawn, and a move has its projection staged and stored. */
  lemma RecordsRevision(w: World, plugin: Uuid, commands: seq<RefCommand>, batch: Uuid, builds: Builds,
          command: RefCommand, item: Item)
    requires Inv(w) && Preparable(w, plugin, commands, batch) && Accepted(w, plugin, commands, batch, builds)
    requires command in commands && Touched(w.db, plugin, command) && Lists(w.db, item, TagKey(plugin, command.tag))
    ensures var next := DoPrepare(w, plugin, commands, batch, builds, Loads);
            var pid := PointerId(item.revision, TagKey(plugin, command.tag));
            var t, moved := TransitionId(IntentId(batch, command.tag), item.revision), !command.newObject.Zero?;
            t in next.db.transitions && pid in w.db.pointers && pid in next.db.pointers &&
            next.db.transitions[t] == Transition(pid, w.db.pointers[pid].generation, w.db.pointers[pid].artifact,
                if moved then Some(StagedFor(t)) else None, Pending) &&
            next.db.pointers[pid] ==
                Pointer(w.db.pointers[pid].artifact, w.db.pointers[pid].generation, false) &&
            (moved ==>
              t in builds && StagedFor(t) in next.db.artifacts && BuiltFor(t) in next.disk &&
              next.disk[BuiltFor(t)] == builds[t] &&
              next.db.artifacts[StagedFor(t)] == Artifact(PluginKind, TagKey(plugin, command.tag), item.revision,
                  w.objects.commits[command.newObject], builds[t].digest, BuiltFor(t), Staged))
  {
    var next := AcceptedRows(w, plugin, commands, batch, builds);
    var plan := TouchedPlan(w, plugin, commands, command);
    PlannedRow(w, plugin, command, plan);
    PlannedRevisions(w.db, plugin, plan);
    var plans := PlanBatch(w.db, plugin, ClassifyTags(w.objects, commands).value).value;
    FreshUnused(w.db, batch);
    var t := TransitionId(IntentId(batch, command.tag), item.revision);
    assert next.intents[t.intent] == IntentFor(plugin, plan);
    assert t in next.transitions && t !in w.db.transitions;
    if !command.newObject.Zero? {
      assert Calls(batch, plan, t);
      StoredAt(w.disk, batch, plans, builds, BuiltFor(t));
    }
  }
}
