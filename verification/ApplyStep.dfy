/** Git applies a push in one ref transaction: the refs of its batch move together, and every
    other batch keeps the refs it had. */
module ApplyStep {
  import opened Wrappers
  import opened Tables
  import opened Classification
  import opened Receive
  import opened Lifecycle
  import opened World
  import opened Invariant
  import opened SettlementSafety

  type Refs = map<TagKey, ObjectId>

  ghost predicate Names(plugin: Uuid, commands: seq<RefCommand>, key: TagKey) {
    key.plugin == plugin && exists command | command in commands :: command.tag == key.tag
  }

  ghost predicate Swapped(refs: Refs, after: Refs, plugin: Uuid, commands: seq<RefCommand>) {
    (forall command | command in commands :: RefIs(after, TagKey(plugin, command.tag), RefValue(command.newObject))) &&
    forall key | !Names(plugin, commands, key) ::
        (key in after <==> key in refs) && (key in refs ==> after[key] == refs[key])
  }

  /** The swap writes each named ref to its new value and leaves every other ref alone. */
  lemma {:induction false} SwapEffect(refs: Refs, plugin: Uuid, commands: seq<RefCommand>)
    requires forall i, j :: 0 <= i < j < |commands| ==> commands[i].tag != commands[j].tag
    ensures Swapped(refs, Swap(refs, plugin, commands), plugin, commands)
    decreases |commands|
  {
    if commands != [] {
      var first, mid := commands[0], SwapOne(refs, TagKey(plugin, commands[0].tag), commands[0].newObject);
      SwapEffect(mid, plugin, commands[1..]);
      assert commands == [first] + commands[1..];
      forall key | Names(plugin, commands[1..], key) ensures Names(plugin, commands, key) {
        var command :| command in commands[1..] && command.tag == key.tag;
        assert command in commands;
      }
      assert Names(plugin, commands, TagKey(plugin, first.tag));
      assert !Names(plugin, commands[1..], TagKey(plugin, first.tag));
    }
  }

  ghost predicate Covered(db: Db, plugin: Uuid, commands: seq<RefCommand>, prepared: Option<Uuid>) {
    (forall command | command in commands :: CommandCovered(db, plugin, command, prepared)) &&
    (prepared.Some? ==> OpenBatch(db, prepared.value) && db.batches[prepared.value].plugin == plugin)
  }

  /** A pushed tag with an available Version is held by an intent of the session's own batch. */
  lemma NamedIsHeld(db: Db, plugin: Uuid, commands: seq<RefCommand>, prepared: Option<Uuid>, key: TagKey)
          returns (command: RefCommand)
    requires IntentRowsOk(db) && Covered(db, plugin, commands, prepared) && Names(plugin, commands, key)
    requires key in db.versions && db.versions[key].status == Available
    ensures command in commands && command.tag == key.tag && prepared.Some? &&
            IntentId(prepared.value, key.tag) in db.intents
    ensures var intent := db.intents[IntentId(prepared.value, key.tag)];
            intent.key == key && IsOpen(intent.state) && intent.newObject == RefValue(command.newObject)
  {
    command :| command in commands && command.tag == key.tag;
    assert CommandCovered(db, plugin, command, prepared);
  }

  lemma SwappedAgreement(db: Db, refs: Refs, after: Refs, plugin: Uuid, commands: seq<RefCommand>,
          prepared: Option<Uuid>)
    requires IntentRowsOk(db) && AgreementOk(db, refs) && Covered(db, plugin, commands, prepared) &&
             Swapped(refs, after, plugin, commands)
    ensures AgreementOk(db, after)
  {
    forall key | key in db.versions && db.versions[key].status == Available && !Blocked(db, key)
        ensures RefIs(after, key, db.versions[key].raw) {
      if Names(plugin, commands, key) {
        var command := NamedIsHeld(db, plugin, commands, prepared, key);
        assert Blocked(db, key);
      }
    }
  }

  /** The prepared batch ends up entirely at its proposed values. */
  lemma SwappedOwn(db: Db, refs: Refs, after: Refs, plugin: Uuid, commands: seq<RefCommand>, batch: Uuid)
    requires IntentRowsOk(db) && UnresolvedExpected(db) && Covered(db, plugin, commands, Some(batch)) &&
             BatchPushed(db, batch, commands)
    requires Swapped(refs, after, plugin, commands)
    ensures RefsNew(db, after, batch)
  {
    forall id | id in db.intents && id.batch == batch
        ensures RefIs(after, db.intents[id].key, db.intents[id].newObject) {
      assert IsOpen(db.intents[id].state) && VersionExpected(db, db.intents[id]);
      assert Names(plugin, commands, db.intents[id].key);
      var command := NamedIsHeld(db, plugin, commands, Some(batch), db.intents[id].key);
      assert RefIs(after, TagKey(plugin, command.tag), RefValue(command.newObject));
    }
  }

  /** A batch that is not the session's own names none of the pushed tags while it is unresolved. */
  lemma SwappedOther(db: Db, refs: Refs, after: Refs, plugin: Uuid, commands: seq<RefCommand>, prepared: Option<Uuid>,
          batch: Uuid)
    requires IntentRowsOk(db) && UnresolvedExpected(db) && UnresolvedUnique(db) &&
             Covered(db, plugin, commands, prepared)
    requires Swapped(refs, after, plugin, commands) && batch in db.batches && IsUnresolved(db.batches[batch].state) &&
             prepared != Some(batch)
    ensures RefsOld(db, after, batch) <==> RefsOld(db, refs, batch)
    ensures RefsNew(db, after, batch) <==> RefsNew(db, refs, batch)
  {
    forall id | id in db.intents && id.batch == batch ensures !Names(plugin, commands, db.intents[id].key) {
      assert IsUnresolved(db.intents[id].state) && VersionExpected(db, db.intents[id]);
      if Names(plugin, commands, db.intents[id].key) {
        var command := NamedIsHeld(db, plugin, commands, prepared, db.intents[id].key);
        assert false;
      }
    }
  }

  lemma SwappedBatches(db: Db, refs: Refs, after: Refs, plugin: Uuid, commands: seq<RefCommand>, prepared: Option<Uuid>)
    requires IntentRowsOk(db) && UnresolvedExpected(db) && UnresolvedUnique(db) && BatchRefsOk(db, refs)
    requires Covered(db, plugin, commands, prepared) && Swapped(refs, after, plugin, commands)
    requires prepared.Some? ==> BatchPushed(db, prepared.value, commands)
    ensures BatchRefsOk(db, after)
  {
    forall b | b in db.batches && IsUnresolved(db.batches[b].state)
        ensures RefsOld(db, after, b) || RefsNew(db, after, b) {
      if prepared == Some(b) {
        SwappedOwn(db, refs, after, plugin, commands, b);
      } else {
        SwappedOther(db, refs, after, plugin, commands, prepared, b);
      }
    }
  }

  lemma SwappedStorage(db: Db, refs: Refs, after: Refs, disk: map<StorageKey, Projection>, plugin: Uuid,
          commands: seq<RefCommand>, prepared: Option<Uuid>)
    requires RowsOk(db) && UnresolvedExpected(db) && UnresolvedUnique(db) && StorageOk(db, refs, disk)
    requires Covered(db, plugin, commands, prepared) && Swapped(refs, after, plugin, commands)
    requires prepared.Some? ==> BatchStored(db, disk, prepared.value)
    ensures StorageOk(db, after, disk)
  {
    forall t | t in db.transitions && TransitionOpen(db.transitions[t].state)
      ensures t.intent in db.intents && (RefsOld(db, after, t.intent.batch) || StagedStored(db, disk, t))
    {
      if prepared != Some(t.intent.batch) {
        assert IsUnresolved(db.intents[t.intent].state);
        SwappedOther(db, refs, after, plugin, commands, prepared, t.intent.batch);
      }
    }
  }

  lemma SwappedSession(w: World, after: Refs, plugin: Uuid, commands: seq<RefCommand>, p: Uuid)
    requires IntentRowsOk(w.db) && Swapped(w.refs, after, plugin, commands) && p != plugin
    requires p in w.sessions && SessionOk(w.db, w.refs, w.disk, p, w.sessions[p])
    ensures SessionOk(w.db, after, w.disk, p, w.sessions[p])
  {
    match w.sessions[p].phase
    case Opened =>
    case Applied(prepared) =>
    case Applying(_, prepared) =>
      if prepared.Some? {
        forall id | id in w.db.intents && id.batch == prepared.value
            ensures !Names(plugin, commands, w.db.intents[id].key) {
        }
      }
  }

  lemma SwappedRefsOk(refs: Refs, after: Refs, plugin: Uuid, commands: seq<RefCommand>)
    requires RefsOk(refs) && WellFormed(commands) && Swapped(refs, after, plugin, commands)
    ensures RefsOk(after)
  {
    forall key | key in after ensures after[key].Object? {
      if Names(plugin, commands, key) {
        var command :| command in commands && command.tag == key.tag;
        assert RefIs(after, TagKey(plugin, command.tag), RefValue(command.newObject));
      }
    }
  }

  lemma SwappingKeepsInvariant(w: World, plugin: Uuid)
    requires Inv(w) && plugin in w.sessions && w.sessions[plugin].phase.Applying?
    ensures var phase := w.sessions[plugin].phase;
            Inv(Enter(w.(refs := Swap(w.refs, plugin, phase.commands)), plugin, Applied(phase.prepared)))
  {
    var commands, prepared := w.sessions[plugin].phase.commands, w.sessions[plugin].phase.prepared;
    var after := Swap(w.refs, plugin, commands);
    var next := Enter(w.(refs := after), plugin, Applied(prepared));
    assert SessionOk(w.db, w.refs, w.disk, plugin, w.sessions[plugin]);
    SwapEffect(w.refs, plugin, commands);
    assert Covered(w.db, plugin, commands, prepared);
    SwappedRefsOk(w.refs, after, plugin, commands);
    SwappedAgreement(w.db, w.refs, after, plugin, commands, prepared);
    SwappedBatches(w.db, w.refs, after, plugin, commands, prepared);
    SwappedStorage(w.db, w.refs, after, w.disk, plugin, commands, prepared);
    forall p | p in next.sessions ensures SessionOk(next.db, next.refs, next.disk, p, next.sessions[p]) {
      if p != plugin { SwappedSession(w, after, plugin, commands, p); }
    }
  }

  lemma ApplyKeepsInvariant(w: World, plugin: Uuid, commits: bool)
    requires Inv(w)
    ensures Inv(DoApply(w, plugin, commits))
  {
    if plugin in w.sessions && w.sessions[plugin].phase.Applying? {
      assert SessionOk(w.db, w.refs, w.disk, plugin, w.sessions[plugin]);
      if commits && CanSwap(w.refs, plugin, w.sessions[plugin].phase.commands) {
        SwappingKeepsInvariant(w, plugin);
      }
    }
  }
}
