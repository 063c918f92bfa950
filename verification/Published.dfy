/** A tag that an active Marketplace revision publishes cannot be deleted by any run of pushes. */
module Published {
  import opened Wrappers
  import opened Tables
  import opened Classification
  import opened Receive
  import opened Lifecycle
  import opened World
  import opened Invariant
  import opened Settlement
  import opened SettlementSafety
  import opened Holding
  import opened Persisting
  import opened PrepareSafety
  import opened Safety
  import opened Evolution
  import opened Permanence
  import opened Serving
  import opened Downloads

  /** No open batch deletes a published tag. */
  ghost predicate DeletesUnpublished(db: Db) {
    forall id | id in db.intents && IsOpen(db.intents[id].state) && db.intents[id].operation == Delete ::
        !ActivelyPublished(db, db.intents[id].key)
  }

  ghost predicate IsAvailable(db: Db, key: TagKey) { key in db.versions && db.versions[key].status == Available }

  /** A tag that is published, and whose Version every open batch leaves available. */
  ghost predicate Stands(db: Db, key: TagKey) { DeletesUnpublished(db) && IsAvailable(db, key) &&
          ActivelyPublished(db, key) }

  lemma SamePublished(db: Db, next: Db, key: TagKey)
    requires next.population == db.population
    ensures ActivelyPublished(next, key) <==> ActivelyPublished(db, key)
  {
  }

  lemma PreparedStands(db: Db, next: Db, objects: Objects, plugin: Uuid, session: Uuid, batch: Uuid, tags: seq<Tag>,
          builds: Builds, key: TagKey)
    requires Stands(db, key) && PreparedEffect(db, next, objects, plugin, session, batch, tags, builds)
    ensures Stands(next, key)
  {
    SamePublished(db, next, key);
    forall id | id in next.intents && IsOpen(next.intents[id].state) && next.intents[id].operation == Delete
      ensures !ActivelyPublished(next, next.intents[id].key)
    {
      SamePublished(db, next, next.intents[id].key);
      if id !in db.intents { assert IntentSound(db, objects, plugin, id.tag, next.intents[id]); }
    }
  }

  /** Closing a batch opens nothing. */
  lemma ClosedIntents(db: Db, next: Db, batch: Uuid, verdict: Disposition)
    requires DeletesUnpublished(db) && next.population == db.population &&
             IntentEffect(db.intents, next.intents, batch, verdict)
    ensures DeletesUnpublished(next)
  {
    forall id | id in next.intents && IsOpen(next.intents[id].state) && next.intents[id].operation == Delete
      ensures !ActivelyPublished(next, next.intents[id].key)
    {
      SamePublished(db, next, next.intents[id].key);
    }
  }

  lemma SettledStands(db: Db, next: Db, batch: Uuid, verdict: Disposition, key: TagKey)
    requires IntentRowsOk(db) && OpenBatch(db, batch) && Stands(db, key) && SettledEffect(db, next, batch, verdict)
    ensures Stands(next, key)
  {
    SamePublished(db, next, key);
    ClosedIntents(db, next, batch, verdict);
  }

  lemma HeldStands(db: Db, next: Db, batch: Uuid, key: TagKey)
    requires Stands(db, key) && HeldEffect(db, next, batch)
    ensures Stands(next, key)
  {
    SamePublished(db, next, key);
    ClosedIntents(db, next, batch, ReceiveManual);
  }

  lemma ServedStands(db: Db, next: Db, key: TagKey)
    requires Stands(db, key) && next.population == db.population && next.intents == db.intents && IsAvailable(next, key)
    ensures Stands(next, key)
  {
    SamePublished(db, next, key);
    forall id | id in next.intents && IsOpen(next.intents[id].state) && next.intents[id].operation == Delete
      ensures !ActivelyPublished(next, next.intents[id].key)
    {
      SamePublished(db, next, next.intents[id].key);
    }
  }

  lemma ChangeStands(w: World, next: Db, change: Change, key: TagKey)
    requires IntentRowsOk(w.db) && Explains(w, next, change) && Stands(w.db, key)
    ensures Stands(next, key)
  {
    match change
    case Prepares(plugin, session, batch, tags, builds) => PreparedStands(w.db, next, w.objects, plugin, session, batch,
        tags, builds, key);
    case Settles(batch, verdict) => SettledStands(w.db, next, batch, verdict, key);
    case Holds(batch) => HeldStands(w.db, next, batch, key);
    case Serves => ServedStands(w.db, next, key);
    case Nothing => ServedStands(w.db, next, key);
    case Collects => ServedStands(w.db, next, key);
    case Marks(_, _) => ServedStands(w.db, next, key);
  }

  /** While an active revision publishes a tag, no run of pushes deletes its Version. */
  lemma {:induction false} PublishedStays(w: World, events: seq<Event>, key: TagKey)
    requires Inv(w) && Stands(w.db, key)
    ensures Stands(Run(w, events).db, key)
    decreases |events|
  {
    if events != [] {
      var change := StepExplained(w, events[0]);
      ChangeStands(w, Do(w, events[0]).db, change, key);
      StepKeepsInvariant(w, events[0]);
      PublishedStays(Do(w, events[0]), events[1..], key);
    }
  }

  /** So its downloads are never answered as gone. */
  lemma PublishedNeverGone(w: World, events: seq<Event>, id: Uuid)
    requires Inv(w) && id in w.db.population.distributions && Stands(w.db, w.db.population.distributions[id].key)
    ensures Run(w, events).db.population == w.db.population && FindActivePlugin(Run(w, events).db, id) != Gone
  {
    PublishedStays(w, events, w.db.population.distributions[id].key);
    RunExtends(w, events);
    GoneAt(Run(w, events).db, id);
  }
}
