/** An accepted push from its opened session to its last answer, and two such pushes. */
module PushThrough {
  import opened Wrappers
  import opened Tables
  import opened Classification
  import opened Receive
  import opened Lifecycle
  import opened Answers
  import opened World
  import opened Invariant
  import opened Settlement
  import opened Resolution
  import opened Planning
  import opened Persisting
  import opened PrepareSafety
  import opened PrepareStep
  import opened Safety
  import opened Acceptance
  import Downloads
  import Guarantees
  import Serving
  import Start

  /** The refs that the push expects but that no Version speaks for are as it expects them. */
  ghost predicate OthersExpected(w: World, plugin: Uuid, commands: seq<RefCommand>) {
    forall command | command in commands && !Touched(w.db, plugin, command) ::
      var key := TagKey(plugin, command.tag);
      if command.oldObject.Zero? then key !in w.refs else key in w.refs && w.refs[key] == command.oldObject
  }

  // ---- After it was prepared

  /** The projections of a batch that was just prepared are the ones that were built. */
  lemma PreparedIntact(db: Db, next: Db, disk: map<StorageKey, Projection>, objects: Objects, plugin: Uuid,
          session: Uuid, batch: Uuid, plans: seq<Plan>, builds: Builds)
    requires Unused(db, batch) && PreparedEffect(db, next, objects, plugin, session, batch, PlanTags(plans), builds)
    requires IntentsAdded(db.intents, next.intents, plugin, batch, plans)
    ensures StagedIntact(next, StoreBuilds(disk, batch, plans, builds), batch)
  {
    var after := StoreBuilds(disk, batch, plans, builds);
    forall t | t in next.transitions && t.intent.batch == batch && next.transitions[t].staged.Some?
      ensures next.transitions[t].staged == Some(StagedFor(t)) && StagedFor(t) in next.artifacts &&
              next.artifacts[StagedFor(t)].storage == BuiltFor(t) && BuiltFor(t) in after &&
              after[BuiltFor(t)].digest == next.artifacts[StagedFor(t)].digest
    {
      assert t !in db.transitions;
      StagedIsPlanned(db, next, plugin, batch, plans, builds, t);
      StoredAt(disk, batch, plans, builds, BuiltFor(t));
    }
  }

  /** Every pushed ref is still as the push expects it. */
  lemma StillExpected(w: World, plugin: Uuid, commands: seq<RefCommand>)
    requires Inv(w) && AllReadable(w.objects, commands) && AllPermitted(w, plugin, commands) &&
             OthersExpected(w, plugin, commands)
    ensures CanSwap(w.refs, plugin, commands)
  {
    forall command | command in commands
      ensures RefIs(w.refs, TagKey(plugin, command.tag), RefValue(command.oldObject))
    {
      var key := TagKey(plugin, command.tag);
      if Touched(w.db, plugin, command) {
        assert Permitted(w, plugin, command);
        UnheldExactly(w.db, key);
        assert VersionFacts(w.db.versions[key], w.objects);
      }
    }
  }

  lemma Prepared(w: World, plugin: Uuid, commands: seq<RefCommand>, batch: Uuid, builds: Builds)
          returns (prepared: World)
    requires Inv(w) && Preparable(w, plugin, commands, batch) && Accepted(w, plugin, commands, batch, builds)
    requires OthersExpected(w, plugin, commands)
    ensures prepared == DoPrepare(w, plugin, commands, batch, builds, Loads) && Inv(prepared)
    ensures plugin in prepared.sessions && prepared.sessions[plugin].phase == Applying(commands, Some(batch))
    ensures CanSwap(prepared.refs, plugin, commands) && StagedIntact(prepared.db, prepared.disk, batch)
    ensures PreparedRows(w.db, prepared.db) && prepared.refs == w.refs
  {
    var next := AcceptedRows(w, plugin, commands, batch, builds);
    prepared := DoPrepare(w, plugin, commands, batch, builds, Loads);
    PrepareKeepsInvariant(w, plugin, commands, batch, builds, Loads);
    FreshUnused(w.db, batch);
    StillExpected(w, plugin, commands);
    PreparedIntact(w.db, next, w.disk, w.objects, plugin, w.sessions[plugin].id, batch,
        PlanBatch(w.db, plugin, ClassifyTags(w.objects, commands).value).value, builds);
  }

  /** Preparing leaves these tables alone, and the pointers where they are. */
  ghost predicate PreparedRows(db: Db, next: Db) {
    next.population == db.population && next.plugins == db.plugins && next.versions == db.versions &&
    next.history == db.history && next.pointers.Keys == db.pointers.Keys
  }

  // ---- Until the last answer

  /** What a session that Git committed has come to. */
  ghost function Committed(prepared: World, plugin: Uuid, batch: Uuid, holds: bool): World
    requires plugin in prepared.sessions && prepared.sessions[plugin].phase.Applying?
  {
    DoFinalize(DoApply(prepared, plugin, true), plugin, Some(batch), holds)
  }

  /** What the push makes of a Version. */
  ghost function Pushed(objects: Objects, command: RefCommand): Version
    requires Readable(objects, command)
  {
    if command.newObject.Zero? then Version(Deleted, None, None, None)
    else Version(Available, Some(command.newObject), Some(objects.commits[command.newObject]),
                 Some(objects.manifests[objects.commits[command.newObject]]))
  }

  /** An accepted push whose other refs are as it expects is prepared, can be applied, and when Git commits it, it
      is resolved: every pushed ref has its new value, and every Version it touches is the pushed commit with its
      manifest, or deleted. */
  lemma AcceptedGoesThrough(w: World, plugin: Uuid, commands: seq<RefCommand>, batch: Uuid, builds: Builds, holds: bool)
    requires Inv(w) && Preparable(w, plugin, commands, batch) && Accepted(w, plugin, commands, batch, builds)
    requires OthersExpected(w, plugin, commands)
    ensures var prepared := DoPrepare(w, plugin, commands, batch, builds, Loads);
            plugin in prepared.sessions && prepared.sessions[plugin].phase == Applying(commands, Some(batch)) &&
            var after := Committed(prepared, plugin, batch, holds);
            Finishing(DoApply(prepared, plugin, true), plugin, Some(batch), holds).1 == Resolved &&
            batch in after.db.batches && after.db.batches[batch].state.Completed? && plugin !in after.sessions &&
            forall command | command in commands ::
              RefIs(after.refs, TagKey(plugin, command.tag), RefValue(command.newObject)) &&
              (Touched(w.db, plugin, command) ==>
                TagKey(plugin, command.tag) in after.db.versions &&
                after.db.versions[TagKey(plugin, command.tag)] == Pushed(w.objects, command))
  {
    var prepared := Prepared(w, plugin, commands, batch, builds);
    Guarantees.CommittedPush(prepared, plugin, commands, batch, holds);
    var after := Committed(prepared, plugin, batch, holds);
    forall command | command in commands && Touched(w.db, plugin, command)
      ensures TagKey(plugin, command.tag) in after.db.versions &&
              after.db.versions[TagKey(plugin, command.tag)] == Pushed(w.objects, command)
    {
      RecordsIntent(w, plugin, commands, batch, builds, command);
      assert IntentId(batch, command.tag) in prepared.db.intents;
    }
  }

  /** A Version that the push does not touch stays as it is. */
  lemma OthersStay(w: World, plugin: Uuid, commands: seq<RefCommand>, batch: Uuid, builds: Builds, holds: bool,
          key: TagKey)
    requires Inv(w) && Preparable(w, plugin, commands, batch) && Accepted(w, plugin, commands, batch, builds)
    requires OthersExpected(w, plugin, commands) && key in w.db.versions
    requires forall command | command in commands && Touched(w.db, plugin, command) ::
             TagKey(plugin, command.tag) != key
    ensures var prepared := DoPrepare(w, plugin, commands, batch, builds, Loads);
            plugin in prepared.sessions && prepared.sessions[plugin].phase == Applying(commands, Some(batch)) &&
            var after := Committed(prepared, plugin, batch, holds);
            key in after.db.versions && after.db.versions[key] == w.db.versions[key]
  {
    var prepared := Prepared(w, plugin, commands, batch, builds);
    Guarantees.CommittedPush(prepared, plugin, commands, batch, holds);
    forall id | id in prepared.db.intents && id.batch == batch ensures prepared.db.intents[id].key != key {
      OwnKey(prepared.db, id);
      RecordsOnly(w, plugin, commands, batch, builds, id.tag);
    }
  }

  lemma OwnKey(db: Db, id: IntentId)
    requires IntentRowsOk(db) && id in db.intents
    ensures id.batch in db.batches && db.intents[id].key == TagKey(db.batches[id.batch].plugin, id.tag)
  {
  }

  /** A download that was offered before an accepted move is granted the projection that was built for it. */
  lemma MoveIsServed(w: World, plugin: Uuid, commands: seq<RefCommand>, batch: Uuid, builds: Builds, holds: bool,
          command: RefCommand, id: Uuid, revision: Uuid)
    requires Inv(w) && Preparable(w, plugin, commands, batch) && Accepted(w, plugin, commands, batch, builds)
    requires OthersExpected(w, plugin, commands) && Serving.Offered(w.db, id, revision)
    requires command in commands && Touched(w.db, plugin, command) && !command.newObject.Zero?
    requires w.db.population.distributions[id].key == TagKey(plugin, command.tag)
    ensures var prepared := DoPrepare(w, plugin, commands, batch, builds, Loads);
            plugin in prepared.sessions && prepared.sessions[plugin].phase == Applying(commands, Some(batch)) &&
            var after := Committed(prepared, plugin, batch, holds);
            var built := BuiltFor(TransitionId(IntentId(batch, command.tag), revision));
            FindActivePlugin(after.db, id) == Granted(built) && built in after.disk &&
            after.disk[built].commit == w.objects.commits[command.newObject]
  {
    var prepared := Prepared(w, plugin, commands, batch, builds);
    RecordsIntent(w, plugin, commands, batch, builds, command);
    StillOffered(w.db, prepared.db, id, revision);
    Downloads.MovedIsServed(prepared, plugin, commands, batch, id, revision, holds);
  }

  lemma StillOffered(db: Db, next: Db, id: Uuid, revision: Uuid)
    requires PreparedRows(db, next) && Serving.Offered(db, id, revision)
    ensures Serving.Offered(next, id, revision)
  {
  }

  /** A download that is listed and may be seen is gone after an accepted deletion. */
  lemma DeleteIsGone(w: World, plugin: Uuid, commands: seq<RefCommand>, batch: Uuid, builds: Builds, holds: bool,
          command: RefCommand, id: Uuid)
    requires Inv(w) && Preparable(w, plugin, commands, batch) && Accepted(w, plugin, commands, batch, builds)
    requires OthersExpected(w, plugin, commands) && Visible(w.db, id) && Downloads.Listed(w.db, id)
    requires command in commands && Touched(w.db, plugin, command) && command.newObject.Zero?
    requires w.db.population.distributions[id].key == TagKey(plugin, command.tag)
    ensures var prepared := DoPrepare(w, plugin, commands, batch, builds, Loads);
            plugin in prepared.sessions && prepared.sessions[plugin].phase == Applying(commands, Some(batch)) &&
            FindActivePlugin(Committed(prepared, plugin, batch, holds).db, id) == Gone
  {
    var prepared := Prepared(w, plugin, commands, batch, builds);
    RecordsIntent(w, plugin, commands, batch, builds, command);
    StillListed(w.db, prepared.db, id);
    Downloads.DeletedIsGone(prepared, plugin, commands, batch, id, holds);
  }

  lemma StillListed(db: Db, next: Db, id: Uuid)
    requires PreparedRows(db, next) && Visible(db, id) && Downloads.Listed(db, id)
    ensures Visible(next, id) && Downloads.Listed(next, id)
  {
  }

  // ---- Two pushes

  /** A start with a second commit, in which the Marketplace has or has not published its revision. */
  function SampleWith(n: Start.Names, raw: ObjectName, commit: ObjectName, manifest: Manifest, published: bool): World {
    var w := Start.Sample(n);
    var template := Template(n.namespaceId, true, true, if published then Some(n.revision) else None);
    w.(db := w.db.(population := w.db.population.(templates := map[n.template := template])),
       objects := Objects(map[Object(n.raw) := Object(n.commit), Object(raw) := Object(commit)],
                          map[Object(n.commit) := n.manifest, Object(commit) := manifest]))
  }

  lemma SampleWithRecorded(n: Start.Names, raw: ObjectName, commit: ObjectName, manifest: Manifest, published: bool)
    requires raw != n.raw
    ensures Start.VersionsRecorded(SampleWith(n, raw, commit, manifest, published))
  {
    Start.SampleRecorded(n);
  }

  lemma SampleQuiet(n: Start.Names, raw: ObjectName, commit: ObjectName, manifest: Manifest, published: bool)
    requires raw != n.raw
    ensures Inv(SampleWith(n, raw, commit, manifest, published))
  {
    SampleWithRecorded(n, raw, commit, manifest, published);
    Start.SamplePublished(n);
    var w := SampleWith(n, raw, commit, manifest, published);
    SamePopulated(Start.Sample(n), w);
    Start.QuietKeepsInvariant(w);
  }

  lemma SamePopulated(w: World, next: World)
    requires Start.ProjectionsPublished(w.db, w.disk) && PluginsOk(w.db) &&
             ItemsOk(w.db.population, w.db.pointers.Keys)
    requires next.disk == w.disk && next.db == w.db.(population := next.db.population)
    requires next.db.population == w.db.population.(templates := next.db.population.templates)
    ensures Start.ProjectionsPublished(next.db, next.disk) && PluginsOk(next.db) &&
            ItemsOk(next.db.population, next.db.pointers.Keys)
  {
  }

  /** The state in which a session has been opened on the sample. */
  function OpenedWith(n: Start.Names, raw: ObjectName, commit: ObjectName, manifest: Manifest, published: bool,
          session: Uuid): World {
    DoOpen(SampleWith(n, raw, commit, manifest, published), n.plugin, session)
  }

  lemma OpenedAs(n: Start.Names, raw: ObjectName, commit: ObjectName, manifest: Manifest, published: bool,
          session: Uuid)
    ensures var w := OpenedWith(n, raw, commit, manifest, published, session);
            w.sessions == map[n.plugin := Session(session, Opened)] &&
            w == SampleWith(n, raw, commit, manifest, published).(sessions := w.sessions)
  {
  }

  lemma OpenedOk(n: Start.Names, raw: ObjectName, commit: ObjectName, manifest: Manifest, published: bool,
          session: Uuid)
    requires raw != n.raw
    ensures Inv(OpenedWith(n, raw, commit, manifest, published, session))
  {
    SampleQuiet(n, raw, commit, manifest, published);
    OpenKeepsInvariant(SampleWith(n, raw, commit, manifest, published), n.plugin, session);
  }

  ghost predicate Admits(w: World, plugin: Uuid, commands: seq<RefCommand>, batch: Uuid, builds: Builds) {
    Preparable(w, plugin, commands, batch) && Accepted(w, plugin, commands, batch, builds) &&
    OthersExpected(w, plugin, commands)
  }

  lemma MoveAdmitted(n: Start.Names, raw: ObjectName, commit: ObjectName, manifest: Manifest, session: Uuid,
          batch: Uuid, digest: string)
    requires raw != n.raw && commit != n.commit && |manifest.digest| == 64 && manifest.snapshot != "" && |digest| == 64
    ensures Admits(OpenedWith(n, raw, commit, manifest, true, session), n.plugin,
                   [RefCommand(n.tag, Object(n.raw), Object(raw))], batch,
                   map[TransitionId(IntentId(batch, n.tag), n.revision) := Projection(Object(commit), digest)])
  {
    OpenedAs(n, raw, commit, manifest, true, session);
    var w := OpenedWith(n, raw, commit, manifest, true, session);
    var command := RefCommand(n.tag, Object(n.raw), Object(raw));
    assert command in [command];
    assert Readable(w.objects, command) && Touched(w.db, n.plugin, command);
    assert Permitted(w, n.plugin, command);
  }

  /** Moving the published tag to a usable commit is accepted. */
  lemma MoveAccepted(n: Start.Names, raw: ObjectName, commit: ObjectName, manifest: Manifest, session: Uuid,
          batch: Uuid, digest: string)
    requires raw != n.raw && commit != n.commit && |manifest.digest| == 64 && manifest.snapshot != "" && |digest| == 64
    ensures var w := OpenedWith(n, raw, commit, manifest, true, session);
            var commands := [RefCommand(n.tag, Object(n.raw), Object(raw))];
            var builds := map[TransitionId(IntentId(batch, n.tag), n.revision) := Projection(Object(commit), digest)];
            Inv(w) && Preparable(w, n.plugin, commands, batch) && Accepted(w, n.plugin, commands, batch, builds) &&
            OthersExpected(w, n.plugin, commands)
  {
    OpenedOk(n, raw, commit, manifest, true, session);
    MoveAdmitted(n, raw, commit, manifest, session, batch, digest);
  }

  lemma DeleteAdmitted(n: Start.Names, raw: ObjectName, commit: ObjectName, manifest: Manifest, session: Uuid,
          batch: Uuid)
    requires raw != n.raw
    ensures Admits(OpenedWith(n, raw, commit, manifest, false, session), n.plugin,
                   [RefCommand(n.tag, Object(n.raw), Zero)], batch, map[])
  {
    OpenedAs(n, raw, commit, manifest, false, session);
    var w := OpenedWith(n, raw, commit, manifest, false, session);
    var key, command := TagKey(n.plugin, n.tag), RefCommand(n.tag, Object(n.raw), Zero);
    assert command in [command];
    assert Readable(w.objects, command) && Touched(w.db, n.plugin, command);
    assert forall item | Lists(w.db, item, key) :: Points(w.db, key, item.revision, Object(n.commit));
    assert forall item :: !OnSale(w.db, item, key);
    assert Permitted(w, n.plugin, command);
  }

  /** Deleting a tag that no Marketplace has published is accepted. */
  lemma DeleteAccepted(n: Start.Names, raw: ObjectName, commit: ObjectName, manifest: Manifest, session: Uuid,
          batch: Uuid)
    requires raw != n.raw
    ensures var w := OpenedWith(n, raw, commit, manifest, false, session);
            var commands := [RefCommand(n.tag, Object(n.raw), Zero)];
            Inv(w) && Preparable(w, n.plugin, commands, batch) && Accepted(w, n.plugin, commands, batch, map[]) &&
            OthersExpected(w, n.plugin, commands)
  {
    OpenedOk(n, raw, commit, manifest, false, session);
    DeleteAdmitted(n, raw, commit, manifest, session, batch);
  }
}
