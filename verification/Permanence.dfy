/** What no run undoes: a row keeps its columns, a closed batch its state, the history its rows. */
module Permanence {
  import opened Wrappers
  import opened Tables
  import opened Classification
  import opened Receive
  import opened World
  import opened Invariant
  import opened Settlement
  import opened SettlementSafety
  import opened Holding
  import opened Persisting
  import opened PrepareSafety
  import opened Safety
  import opened Evolution

  ghost predicate StateMoves(before: ReceiveState, after: ReceiveState) {
    after == before || (IsOpen(before) && !IsOpen(after))
  }

  ghost predicate BatchesKept(before: map<Uuid, Batch>, after: map<Uuid, Batch>) {
    forall b | b in before :: b in after && after[b] == before[b].(state := after[b].state) &&
        StateMoves(before[b].state, after[b].state)
  }

  ghost predicate IntentsKept(batches: map<Uuid, Batch>, before: Intents, after: Intents) {
    (forall id | id in before :: id in after && after[id] == before[id].(state := after[id].state) &&
        StateMoves(before[id].state, after[id].state)) &&
    forall id | id in after && id !in before :: id.batch !in batches
  }

  ghost predicate TransitionsKept(batches: map<Uuid, Batch>, before: Transitions, after: Transitions) {
    (forall t | t in before :: t in after && after[t] == before[t].(state := after[t].state)) &&
    forall t | t in after && t !in before :: t.intent.batch !in batches
  }

  ghost predicate ArtifactsKept(before: Artifacts, after: Artifacts) {
    forall a | a in before :: a in after && after[a] == before[a].(state := after[a].state)
  }

  ghost predicate Extends(db: Db, next: Db) {
    next.population == db.population && next.pointers.Keys == db.pointers.Keys && db.history <= next.history &&
    (forall a | a in db.gc :: a in next.gc) && BatchesKept(db.batches, next.batches) &&
    IntentsKept(db.batches, db.intents, next.intents) &&
        TransitionsKept(db.batches, db.transitions, next.transitions) &&
    ArtifactsKept(db.artifacts, next.artifacts)
  }

  lemma SettlingExtends(db: Db, next: Db, batch: Uuid, verdict: Disposition)
    requires IntentRowsOk(db) && OpenBatch(db, batch) && SettledEffect(db, next, batch, verdict)
    ensures Extends(db, next)
  {
  }

  lemma HoldingExtends(db: Db, next: Db, batch: Uuid)
    requires IntentRowsOk(db) && OpenBatch(db, batch) && HeldEffect(db, next, batch)
    ensures Extends(db, next)
  {
  }

  lemma PreparingExtends(db: Db, next: Db, objects: Objects, plugin: Uuid, session: Uuid, batch: Uuid, tags: seq<Tag>,
          builds: Builds)
    requires PreparedEffect(db, next, objects, plugin, session, batch, tags, builds)
    ensures Extends(db, next)
  {
  }

  lemma ChangeExtends(w: World, next: Db, change: Change)
    requires IntentRowsOk(w.db) && Explains(w, next, change)
    ensures Extends(w.db, next)
  {
    match change
    case Nothing =>
    case Serves =>
    case Collects =>
    case Marks(_, _) =>
    case Prepares(plugin, session, batch, tags, builds) => PreparingExtends(w.db, next, w.objects, plugin, session,
        batch, tags, builds);
    case Settles(batch, verdict) => SettlingExtends(w.db, next, batch, verdict);
    case Holds(batch) => HoldingExtends(w.db, next, batch);
  }

  lemma StepExtends(w: World, event: Event)
    requires Inv(w)
    ensures Extends(w.db, Do(w, event).db)
  {
    var change := StepExplained(w, event);
    ChangeExtends(w, Do(w, event).db, change);
  }

  lemma ExtendsTwice(a: Db, b: Db, c: Db)
    requires Extends(a, b) && Extends(b, c)
    ensures Extends(a, c)
  {
  }

  lemma {:induction false} RunExtends(w: World, events: seq<Event>)
    requires Inv(w)
    ensures Extends(w.db, Run(w, events).db)
    decreases |events|
  {
    if events != [] {
      StepKeepsInvariant(w, events[0]);
      StepExtends(w, events[0]);
      RunExtends(Do(w, events[0]), events[1..]);
      ExtendsTwice(w.db, Do(w, events[0]).db, Run(w, events).db);
    }
  }
}
