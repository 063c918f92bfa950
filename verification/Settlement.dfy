/** What settling a batch does to each table, and that the transaction which does it succeeds. */
module Settlement {
  import opened Wrappers
  import opened Tables
  import opened Classification
  import opened Receive
  import opened Invariant

  ghost predicate Covers(batch: Uuid, tags: seq<Tag>, id: IntentId) { id.batch == batch && id.tag in tags }

  ghost function OwnerOf(batch: Uuid, pid: PointerId): TransitionId {
    TransitionId(IntentId(batch, pid.key.tag), pid.revision)
  }

  ghost function TransitionAfter(verdict: Disposition): TransitionState {
    match verdict
    case ReceiveCompleted => TransitionCompleted
    case ReceiveAborted => TransitionAborted
    case ReceiveManual => TransitionManual
  }

  ghost function PointerAfter(verdict: Disposition, operation: Operation, transition: Transition): Pointer {
    if verdict == ReceiveCompleted
    then Pointer(if operation == Move then transition.staged else None, transition.generation + 1, operation == Move)
    else Pointer(transition.current, transition.generation, true)
  }

  /** The projection that a settled transition hands to the collector. */
  ghost function Discarded(verdict: Disposition, transition: Transition): Option<ArtifactId> {
    if verdict == ReceiveCompleted then transition.current else transition.staged
  }

  type Intents = map<IntentId, Intent>
  type Transitions = map<TransitionId, Transition>

  ghost function HistoryRows(intents: Intents, batch: Uuid, tags: seq<Tag>): seq<HistoryRow> {
    if tags == [] then [] else
    var id := IntentId(batch, tags[0]);
    (if id in intents then [HistoryAfter(id, intents[id])] else []) + HistoryRows(intents, batch, tags[1..])
  }

  // ---- Effects, table by table

  ghost predicate IntentsSettled(before: Intents, after: Intents, batch: Uuid, tags: seq<Tag>, verdict: Disposition) {
    after.Keys == before.Keys &&
    forall id | id in before ::
      after[id] == if Covers(batch, tags, id) then before[id].(state := FinalState(verdict)) else before[id]
  }

  ghost predicate TransitionsSettled(before: Transitions, after: Transitions, batch: Uuid, tags: seq<Tag>,
          verdict: Disposition)
  {
    after.Keys == before.Keys &&
    forall id | id in before ::
      after[id] == if Covers(batch, tags, id.intent) then before[id].(state := TransitionAfter(verdict)) else before[id]
  }

  ghost predicate Touches(intents: Intents, transitions: Transitions, batch: Uuid, plugin: Uuid, tags: seq<Tag>,
          pid: PointerId)
  {
    pid.key.plugin == plugin && pid.key.tag in tags && OwnerOf(batch, pid) in transitions &&
        OwnerOf(batch, pid).intent in intents
  }

  ghost predicate PointersSettled(intents: Intents, transitions: Transitions, before: map<PointerId, Pointer>,
          after: map<PointerId, Pointer>, batch: Uuid, plugin: Uuid, tags: seq<Tag>, verdict: Disposition)
  {
    after.Keys == before.Keys &&
    forall pid | pid in before ::
      after[pid] ==
        if Touches(intents, transitions, batch, plugin, tags, pid)
        then PointerAfter(verdict, intents[OwnerOf(batch, pid).intent].operation, transitions[OwnerOf(batch, pid)])
        else before[pid]
  }

  ghost predicate Promoted(transitions: Transitions, batch: Uuid, tags: seq<Tag>, verdict: Disposition, aid: ArtifactId)
  {
    verdict == ReceiveCompleted && aid.StagedFor? && Covers(batch, tags, aid.transition.intent) &&
    aid.transition in transitions && transitions[aid.transition].staged == Some(aid)
  }

  ghost predicate ArtifactsSettled(transitions: Transitions, before: map<ArtifactId, Artifact>,
          after: map<ArtifactId, Artifact>, batch: Uuid, tags: seq<Tag>, verdict: Disposition)
  {
    after.Keys == before.Keys &&
    forall aid | aid in before ::
      after[aid] == if Promoted(transitions, batch, tags, verdict, aid) then before[aid].(state := Ready)
          else before[aid]
  }

  ghost predicate DiscardedBy(transitions: Transitions, batch: Uuid, tags: seq<Tag>, verdict: Disposition,
          aid: ArtifactId)
  {
    exists id | id in transitions :: Covers(batch, tags, id.intent) && Discarded(verdict, transitions[id]) == Some(aid)
  }

  ghost predicate GcSettled(transitions: Transitions, before: map<ArtifactId, GcState>, after: map<ArtifactId, GcState>,
          batch: Uuid, tags: seq<Tag>, verdict: Disposition)
  {
    (forall aid :: aid in after <==> aid in before || DiscardedBy(transitions, batch, tags, verdict, aid)) &&
    forall aid | aid in after :: after[aid] == if aid in before then before[aid] else GcPending
  }

  ghost predicate VersionsSettled(intents: Intents, before: map<TagKey, Version>, after: map<TagKey, Version>,
          batch: Uuid, plugin: Uuid, tags: seq<Tag>, verdict: Disposition)
  {
    after.Keys == before.Keys &&
    forall key | key in before ::
      after[key] ==
        if verdict == ReceiveCompleted && key.plugin == plugin && key.tag in tags && IntentId(batch, key.tag) in intents
        then VersionAfter(intents[IntentId(batch, key.tag)]) else before[key]
  }

  ghost predicate DefaultRemoved(intents: Intents, batch: Uuid, tags: seq<Tag>, verdict: Disposition, row: Plugin) {
    verdict == ReceiveCompleted && row.defaultTag.Some? && row.defaultTag.value in tags &&
    IntentId(batch, row.defaultTag.value) in intents &&
    intents[IntentId(batch, row.defaultTag.value)].operation == Delete
  }

  ghost predicate PluginsSettled(intents: Intents, before: map<Uuid, Plugin>, after: map<Uuid, Plugin>, batch: Uuid,
          plugin: Uuid, tags: seq<Tag>, verdict: Disposition)
  {
    after.Keys == before.Keys &&
    forall p | p in before ::
      after[p] == if p == plugin && DefaultRemoved(intents, batch, tags, verdict, before[p])
                  then before[p].(defaultTag := None) else before[p]
  }

  ghost predicate HistorySettled(intents: Intents, before: seq<HistoryRow>, after: seq<HistoryRow>, batch: Uuid,
          tags: seq<Tag>, verdict: Disposition)
  {
    after == if verdict == ReceiveCompleted then before + HistoryRows(intents, batch, tags) else before
  }

  ghost predicate TagsSettled(db: Db, next: Db, batch: Uuid, plugin: Uuid, tags: seq<Tag>, verdict: Disposition) {
    next.population == db.population && next.batches == db.batches &&
    IntentsSettled(db.intents, next.intents, batch, tags, verdict) &&
    TransitionsSettled(db.transitions, next.transitions, batch, tags, verdict) &&
    PointersSettled(db.intents, db.transitions, db.pointers, next.pointers, batch, plugin, tags, verdict) &&
    ArtifactsSettled(db.transitions, db.artifacts, next.artifacts, batch, tags, verdict) &&
    GcSettled(db.transitions, db.gc, next.gc, batch, tags, verdict) &&
    VersionsSettled(db.intents, db.versions, next.versions, batch, plugin, tags, verdict) &&
    PluginsSettled(db.intents, db.plugins, next.plugins, batch, plugin, tags, verdict) &&
    HistorySettled(db.intents, db.history, next.history, batch, tags, verdict)
  }

  // ---- When every swap finds what it expects

  ghost predicate TransitionReady(db: Db, key: TagKey, operation: Operation, verdict: Disposition, id: TransitionId) {
    id in db.transitions &&
    var transition := db.transitions[id];
    transition.pointer == PointerId(id.revision, key) && PointerFrozen(db, transition) &&
        TransitionOpen(transition.state) &&
    transition.current.Some? && transition.current != Some(StagedFor(id)) &&
    transition.staged == (if operation == Move then Some(StagedFor(id)) else None) &&
    (verdict == ReceiveCompleted && operation == Move ==>
        StagedFor(id) in db.artifacts && db.artifacts[StagedFor(id)].state.Staged?)
  }

  ghost predicate IntentReady(db: Db, plugin: Uuid, verdict: Disposition, id: IntentId) {
    id in db.intents && db.intents[id].key == TagKey(plugin, id.tag) && IsOpen(db.intents[id].state) &&
        Distinct(db.intents[id].revisions) &&
    (verdict == ReceiveCompleted ==> SourceFactsPresent(db.intents[id]) && VersionExpected(db, db.intents[id])) &&
    (forall r | r in db.intents[id].revisions ::
        TransitionReady(db, db.intents[id].key, db.intents[id].operation, verdict, TransitionId(id, r))) &&
    forall t | t in db.transitions && t.intent == id :: t.revision in db.intents[id].revisions
  }

  ghost predicate TagsReady(db: Db, batch: Uuid, plugin: Uuid, tags: seq<Tag>, verdict: Disposition) {
    forall tag | tag in tags :: IntentReady(db, plugin, verdict, IntentId(batch, tag))
  }

  // ---- One list of transitions

  ghost predicate IdsReady(db: Db, key: TagKey, operation: Operation, verdict: Disposition, ids: seq<TransitionId>) {
    Distinct(ids) && (forall id | id in ids :: TransitionReady(db, key, operation, verdict, id)) &&
    forall i, j :: 0 <= i < j < |ids| ==> ids[i].revision != ids[j].revision
  }

  ghost predicate IdsTransitions(before: Transitions, after: Transitions, verdict: Disposition, ids: seq<TransitionId>)
  {
    after.Keys == before.Keys &&
    forall id | id in before ::
      after[id] == if id in ids then before[id].(state := TransitionAfter(verdict)) else before[id]
  }

  ghost predicate IdsPointers(transitions: Transitions, before: map<PointerId, Pointer>, after: map<PointerId, Pointer>,
          key: TagKey, operation: Operation, verdict: Disposition, ids: seq<TransitionId>)
  {
    after.Keys == before.Keys &&
    (forall id | id in ids :: id in transitions && PointerId(id.revision, key) in before &&
      after[PointerId(id.revision, key)] == PointerAfter(verdict, operation, transitions[id])) &&
    forall pid | pid in before && (pid.key != key || forall id | id in ids :: id.revision != pid.revision) ::
      after[pid] == before[pid]
  }

  ghost predicate IdsArtifacts(before: map<ArtifactId, Artifact>, after: map<ArtifactId, Artifact>,
          operation: Operation, verdict: Disposition, ids: seq<TransitionId>)
  {
    after.Keys == before.Keys &&
    forall aid | aid in before ::
      after[aid] == if verdict == ReceiveCompleted && operation == Move && aid.StagedFor? && aid.transition in ids
                    then before[aid].(state := Ready) else before[aid]
  }

  ghost predicate DiscardedIn(transitions: Transitions, verdict: Disposition, ids: seq<TransitionId>, aid: ArtifactId) {
    exists id | id in ids :: id in transitions && Discarded(verdict, transitions[id]) == Some(aid)
  }

  ghost predicate IdsGc(transitions: Transitions, before: map<ArtifactId, GcState>, after: map<ArtifactId, GcState>,
          verdict: Disposition, ids: seq<TransitionId>)
  {
    (forall aid :: aid in after <==> aid in before || DiscardedIn(transitions, verdict, ids, aid)) &&
    forall aid | aid in after :: after[aid] == if aid in before then before[aid] else GcPending
  }

  ghost predicate IdsSettled(db: Db, next: Db, key: TagKey, operation: Operation, verdict: Disposition,
          ids: seq<TransitionId>)
  {
    next == db.(pointers := next.pointers, artifacts := next.artifacts, gc := next.gc,
        transitions := next.transitions) &&
    IdsTransitions(db.transitions, next.transitions, verdict, ids) &&
        IdsPointers(db.transitions, db.pointers, next.pointers, key, operation, verdict, ids) &&
    IdsArtifacts(db.artifacts, next.artifacts, operation, verdict, ids) &&
        IdsGc(db.transitions, db.gc, next.gc, verdict, ids)
  }

  lemma DiscardedAlone(db: Db, verdict: Disposition, id: TransitionId, aid: ArtifactId)
    requires id in db.transitions
    ensures DiscardedIn(db.transitions, verdict, [id], aid) <==> Discarded(verdict, db.transitions[id]) == Some(aid)
  {
    assert id in [id];
  }

  ghost function CompletedRows(db: Db, operation: Operation, id: TransitionId): Db
    requires id in db.transitions && db.transitions[id].current.Some?
    requires operation == Move ==> StagedFor(id) in db.artifacts
  {
    var transition := db.transitions[id];
    db.(artifacts := if operation == Move then
        db.artifacts[StagedFor(id) := db.artifacts[StagedFor(id)].(state := Ready)] else db.artifacts,
        pointers := db.pointers[transition.pointer := PointerAfter(ReceiveCompleted, operation, transition)],
        gc := EnqueueGc(db.gc, transition.current.value),
        transitions := db.transitions[id := transition.(state := TransitionCompleted)])
  }

  lemma CompletedTransitions(db: Db, key: TagKey, operation: Operation, id: TransitionId)
    requires TransitionReady(db, key, operation, ReceiveCompleted, id)
    ensures IdsTransitions(db.transitions, CompletedRows(db, operation, id).transitions, ReceiveCompleted, [id])
  {
    assert CompletedRows(db, operation, id).transitions.Keys == db.transitions.Keys;
  }

  lemma CompletedPointers(db: Db, key: TagKey, operation: Operation, id: TransitionId)
    requires TransitionReady(db, key, operation, ReceiveCompleted, id)
    ensures IdsPointers(db.transitions, db.pointers, CompletedRows(db, operation, id).pointers, key, operation,
            ReceiveCompleted, [id])
  {
    assert CompletedRows(db, operation, id).pointers.Keys == db.pointers.Keys;
    assert id in [id];
  }

  lemma CompletedArtifacts(db: Db, key: TagKey, operation: Operation, id: TransitionId)
    requires TransitionReady(db, key, operation, ReceiveCompleted, id)
    ensures IdsArtifacts(db.artifacts, CompletedRows(db, operation, id).artifacts, operation, ReceiveCompleted, [id])
  {
    assert CompletedRows(db, operation, id).artifacts.Keys == db.artifacts.Keys;
  }

  lemma CompletedGc(db: Db, key: TagKey, operation: Operation, id: TransitionId)
    requires TransitionReady(db, key, operation, ReceiveCompleted, id)
    ensures IdsGc(db.transitions, db.gc, CompletedRows(db, operation, id).gc, ReceiveCompleted, [id])
  {
    forall aid { DiscardedAlone(db, ReceiveCompleted, id, aid); }
  }

  lemma CompleteOneValue(db: Db, key: TagKey, operation: Operation, id: TransitionId, checked: bool)
    requires TransitionReady(db, key, operation, ReceiveCompleted, id)
    ensures CompleteTransition(db, operation, id, checked) == Some(CompletedRows(db, operation, id))
  {
  }

  lemma CompleteOneSucceeds(db: Db, key: TagKey, operation: Operation, id: TransitionId, checked: bool)
    requires TransitionReady(db, key, operation, ReceiveCompleted, id)
    ensures CompleteTransition(db, operation, id, checked) == Some(CompletedRows(db, operation, id))
    ensures IdsSettled(db, CompletedRows(db, operation, id), key, operation, ReceiveCompleted, [id])
  {
    CompleteOneValue(db, key, operation, id, checked);
    CompletedTransitions(db, key, operation, id);
    CompletedPointers(db, key, operation, id);
    CompletedArtifacts(db, key, operation, id);
    CompletedGc(db, key, operation, id);
  }

  lemma AbortOneSucceeds(db: Db, key: TagKey, operation: Operation, id: TransitionId, checked: bool)
    requires TransitionReady(db, key, operation, ReceiveAborted, id)
    ensures var r := AbortTransition(db, id, checked);
            r.Some? && IdsSettled(db, r.value, key, operation, ReceiveAborted, [id])
  {
    forall aid { DiscardedAlone(db, ReceiveAborted, id, aid); }
  }

  lemma ReadyAfterOne(db: Db, mid: Db, key: TagKey, operation: Operation, verdict: Disposition, id: TransitionId,
          other: TransitionId)
    requires IdsSettled(db, mid, key, operation, verdict, [id]) && id.revision != other.revision
    requires TransitionReady(db, key, operation, verdict, other)
    ensures TransitionReady(mid, key, operation, verdict, other)
    ensures mid.transitions[other] == db.transitions[other]
  {
    assert other !in [id];
    assert mid.pointers[PointerId(other.revision, key)] == db.pointers[PointerId(other.revision, key)];
  }

  lemma JoinPointers(db: Db, mid: Db, next: Db, key: TagKey, operation: Operation, verdict: Disposition,
          ids: seq<TransitionId>)
    requires ids != [] && forall i, j :: 0 <= i < j < |ids| ==> ids[i].revision != ids[j].revision
    requires IdsTransitions(db.transitions, mid.transitions, verdict, [ids[0]])
    requires IdsPointers(db.transitions, db.pointers, mid.pointers, key, operation, verdict, [ids[0]])
    requires IdsPointers(mid.transitions, mid.pointers, next.pointers, key, operation, verdict, ids[1..])
    ensures IdsPointers(db.transitions, db.pointers, next.pointers, key, operation, verdict, ids)
  {
    assert ids == [ids[0]] + ids[1..];
    forall id | id in ids
      ensures id in db.transitions && PointerId(id.revision, key) in db.pointers
      ensures next.pointers[PointerId(id.revision, key)] == PointerAfter(verdict, operation, db.transitions[id])
    {
      if id == ids[0] {
        assert id in [ids[0]];
        assert next.pointers[PointerId(id.revision, key)] == mid.pointers[PointerId(id.revision, key)];
      } else {
        assert id in ids[1..] && id !in [ids[0]];
        assert mid.transitions[id] == db.transitions[id];
      }
    }
    forall pid | pid in db.pointers && (pid.key != key || forall id | id in ids :: id.revision != pid.revision)
      ensures next.pointers[pid] == db.pointers[pid]
    {
      assert pid.key == key ==> ids[0].revision != pid.revision;
      assert mid.pointers[pid] == db.pointers[pid];
      assert next.pointers[pid] == mid.pointers[pid];
    }
  }

  lemma JoinGc(db: Db, mid: Db, next: Db, verdict: Disposition, ids: seq<TransitionId>)
    requires ids != [] && Distinct(ids)
    requires forall id | id in ids :: id in db.transitions
    requires IdsTransitions(db.transitions, mid.transitions, verdict, [ids[0]])
    requires IdsGc(db.transitions, db.gc, mid.gc, verdict, [ids[0]]) &&
             IdsGc(mid.transitions, mid.gc, next.gc, verdict, ids[1..])
    ensures IdsGc(db.transitions, db.gc, next.gc, verdict, ids)
  {
    forall aid
      ensures DiscardedIn(db.transitions, verdict, ids, aid) <==>
              DiscardedIn(db.transitions, verdict, [ids[0]], aid) ||
                  DiscardedIn(mid.transitions, verdict, ids[1..], aid)
    {
      JoinDiscarded(db, mid, verdict, ids, aid);
    }
  }

  lemma JoinDiscarded(db: Db, mid: Db, verdict: Disposition, ids: seq<TransitionId>, aid: ArtifactId)
    requires ids != [] && Distinct(ids)
    requires forall id | id in ids :: id in db.transitions
    requires IdsTransitions(db.transitions, mid.transitions, verdict, [ids[0]])
    ensures DiscardedIn(db.transitions, verdict, ids, aid) <==>
            DiscardedIn(db.transitions, verdict, [ids[0]], aid) || DiscardedIn(mid.transitions, verdict, ids[1..], aid)
  {
    assert ids[0] in ids;
    DiscardedAlone(db, verdict, ids[0], aid);
    assert forall id | id in ids[1..] ::
           id in ids && id != ids[0] && Discarded(verdict, mid.transitions[id]) == Discarded(verdict,
               db.transitions[id]);
    if DiscardedIn(db.transitions, verdict, ids, aid) {
      var id :| id in ids && id in db.transitions && Discarded(verdict, db.transitions[id]) == Some(aid);
      assert id == ids[0] || id in ids[1..];
    }
  }

  lemma JoinTransitions(db: Db, mid: Db, next: Db, verdict: Disposition, ids: seq<TransitionId>)
    requires ids != [] && IdsTransitions(db.transitions, mid.transitions, verdict, [ids[0]]) &&
             IdsTransitions(mid.transitions, next.transitions, verdict, ids[1..])
    ensures IdsTransitions(db.transitions, next.transitions, verdict, ids)
  {
    forall id ensures id in ids <==> id in [ids[0]] || id in ids[1..] {
      assert ids == [ids[0]] + ids[1..];
    }
  }

  lemma JoinArtifacts(db: Db, mid: Db, next: Db, operation: Operation, verdict: Disposition, ids: seq<TransitionId>)
    requires ids != [] && IdsArtifacts(db.artifacts, mid.artifacts, operation, verdict, [ids[0]]) &&
             IdsArtifacts(mid.artifacts, next.artifacts, operation, verdict, ids[1..])
    ensures IdsArtifacts(db.artifacts, next.artifacts, operation, verdict, ids)
  {
    forall id ensures id in ids <==> id in [ids[0]] || id in ids[1..] {
      assert ids == [ids[0]] + ids[1..];
    }
  }

  lemma JoinIds(db: Db, mid: Db, next: Db, key: TagKey, operation: Operation, verdict: Disposition,
          ids: seq<TransitionId>)
    requires ids != [] && IdsReady(db, key, operation, verdict, ids)
    requires IdsSettled(db, mid, key, operation, verdict, [ids[0]])
    requires IdsSettled(mid, next, key, operation, verdict, ids[1..])
    ensures IdsSettled(db, next, key, operation, verdict, ids)
  {
    assert forall id | id in ids :: id in db.transitions;
    JoinTransitions(db, mid, next, verdict, ids);
    JoinPointers(db, mid, next, key, operation, verdict, ids);
    JoinArtifacts(db, mid, next, operation, verdict, ids);
    JoinGc(db, mid, next, verdict, ids);
  }

  lemma ReadyTail(db: Db, mid: Db, key: TagKey, operation: Operation, verdict: Disposition, ids: seq<TransitionId>)
    requires ids != [] && IdsReady(db, key, operation, verdict, ids)
    requires IdsSettled(db, mid, key, operation, verdict, [ids[0]])
    ensures IdsReady(mid, key, operation, verdict, ids[1..])
  {
    forall other | other in ids[1..] ensures TransitionReady(mid, key, operation, verdict, other) {
      assert other in ids;
      ReadyAfterOne(db, mid, key, operation, verdict, ids[0], other);
    }
  }

  lemma SettleOneSucceeds(db: Db, key: TagKey, operation: Operation, verdict: Disposition, id: TransitionId,
          checked: bool) returns (mid: Db)
    requires verdict != ReceiveManual && TransitionReady(db, key, operation, verdict, id)
    ensures SettleOne(db, verdict, operation, id, checked) == Some(mid)
    ensures IdsSettled(db, mid, key, operation, verdict, [id])
  {
    if verdict == ReceiveCompleted {
      CompleteOneSucceeds(db, key, operation, id, checked);
      mid := CompletedRows(db, operation, id);
    } else {
      AbortOneSucceeds(db, key, operation, id, checked);
      mid := AbortTransition(db, id, checked).value;
    }
  }

  lemma {:induction false} SettleIdsSucceeds(db: Db, key: TagKey, operation: Operation, verdict: Disposition,
          ids: seq<TransitionId>, checked: bool) returns (next: Db)
    requires verdict != ReceiveManual && IdsReady(db, key, operation, verdict, ids)
    ensures SettleTransitions(db, verdict, operation, ids, checked) == Some(next)
    ensures IdsSettled(db, next, key, operation, verdict, ids)
    decreases |ids|
  {
    if ids == [] {
      next := db;
      assert forall aid :: !DiscardedIn(db.transitions, verdict, ids, aid);
    } else {
      assert ids[0] in ids;
      var mid := SettleOneSucceeds(db, key, operation, verdict, ids[0], checked);
      ReadyTail(db, mid, key, operation, verdict, ids);
      next := SettleIdsSucceeds(mid, key, operation, verdict, ids[1..], checked);
      JoinIds(db, mid, next, key, operation, verdict, ids);
    }
  }

  // ---- One intent

  lemma OwnIds(db: Db, id: IntentId, t: TransitionId)
    requires id in db.intents && t in db.transitions
    requires forall u | u in db.transitions && u.intent == id :: u.revision in db.intents[id].revisions
    ensures t in Ids(id, db.intents[id].revisions) <==> t.intent == id
  {
    var ids := Ids(id, db.intents[id].revisions);
    if t.intent == id {
      var n :| 0 <= n < |db.intents[id].revisions| && db.intents[id].revisions[n] == t.revision;
      assert ids[n] == t;
    }
  }

  lemma IntentTransitions(db: Db, next: Db, id: IntentId, verdict: Disposition)
    requires id in db.intents && forall u | u in db.transitions && u.intent == id ::
             u.revision in db.intents[id].revisions
    requires IdsTransitions(db.transitions, next.transitions, verdict, Ids(id, db.intents[id].revisions))
    ensures TransitionsSettled(db.transitions, next.transitions, id.batch, [id.tag], verdict)
  {
    forall t | t in db.transitions ensures t in Ids(id, db.intents[id].revisions) <==>
        Covers(id.batch, [id.tag], t.intent) {
      OwnIds(db, id, t);
    }
  }

  lemma IntentPointers(db: Db, next: Db, plugin: Uuid, id: IntentId, verdict: Disposition)
    requires id in db.intents && forall u | u in db.transitions && u.intent == id ::
             u.revision in db.intents[id].revisions
    requires db.intents[id].key == TagKey(plugin, id.tag)
    requires IdsPointers(db.transitions, db.pointers, next.pointers, TagKey(plugin, id.tag), db.intents[id].operation,
             verdict, Ids(id, db.intents[id].revisions))
    ensures PointersSettled(db.intents, db.transitions, db.pointers, next.pointers, id.batch, plugin, [id.tag], verdict)
  {
    var ids := Ids(id, db.intents[id].revisions);
    forall pid | pid in db.pointers
      ensures next.pointers[pid] == if Touches(db.intents, db.transitions, id.batch, plugin, [id.tag], pid)
                                    then PointerAfter(verdict, db.intents[id].operation,
                                        db.transitions[OwnerOf(id.batch, pid)]) else db.pointers[pid]
    {
      var owner := OwnerOf(id.batch, pid);
      if Touches(db.intents, db.transitions, id.batch, plugin, [id.tag], pid) {
        assert owner.intent == id;
        OwnIds(db, id, owner);
        assert pid == PointerId(owner.revision, TagKey(plugin, id.tag));
      } else if pid.key == TagKey(plugin, id.tag) {
        forall t | t in ids ensures t.revision != pid.revision {
          assert t.intent == id;
        }
      }
    }
  }

  lemma IntentArtifacts(db: Db, next: Db, id: IntentId, verdict: Disposition)
    requires id in db.intents && forall u | u in db.transitions && u.intent == id ::
             u.revision in db.intents[id].revisions
    requires forall r | r in db.intents[id].revisions :: TransitionId(id, r) in db.transitions &&
               db.transitions[TransitionId(id, r)].staged == if db.intents[id].operation == Move then
                   Some(StagedFor(TransitionId(id, r))) else None
    requires IdsArtifacts(db.artifacts, next.artifacts, db.intents[id].operation, verdict,
             Ids(id, db.intents[id].revisions))
    ensures ArtifactsSettled(db.transitions, db.artifacts, next.artifacts, id.batch, [id.tag], verdict)
  {
    forall aid | aid in db.artifacts && aid.StagedFor?
      ensures verdict == ReceiveCompleted && db.intents[id].operation == Move &&
              aid.transition in Ids(id, db.intents[id].revisions)
              <==> Promoted(db.transitions, id.batch, [id.tag], verdict, aid)
    {
      if aid.transition in db.transitions {
        OwnIds(db, id, aid.transition);
      }
    }
  }

  lemma IntentGc(db: Db, next: Db, id: IntentId, verdict: Disposition)
    requires id in db.intents && forall u | u in db.transitions && u.intent == id ::
             u.revision in db.intents[id].revisions
    requires IdsGc(db.transitions, db.gc, next.gc, verdict, Ids(id, db.intents[id].revisions))
    ensures GcSettled(db.transitions, db.gc, next.gc, id.batch, [id.tag], verdict)
  {
    var ids := Ids(id, db.intents[id].revisions);
    forall aid ensures DiscardedIn(db.transitions, verdict, ids, aid) <==>
        DiscardedBy(db.transitions, id.batch, [id.tag], verdict, aid) {
      if DiscardedIn(db.transitions, verdict, ids, aid) {
        var t :| t in ids && t in db.transitions && Discarded(verdict, db.transitions[t]) == Some(aid);
        assert Covers(id.batch, [id.tag], t.intent);
      }
      if DiscardedBy(db.transitions, id.batch, [id.tag], verdict, aid) {
        var t :| t in db.transitions && Covers(id.batch, [id.tag], t.intent) &&
            Discarded(verdict, db.transitions[t]) == Some(aid);
        OwnIds(db, id, t);
      }
    }
  }

  lemma IntentIdsReady(db: Db, plugin: Uuid, verdict: Disposition, id: IntentId)
    requires IntentReady(db, plugin, verdict, id)
    ensures IdsReady(db, db.intents[id].key, db.intents[id].operation, verdict, Ids(id, db.intents[id].revisions))
  {
  }

  /** The Version, history and default written for a completed intent; nothing for an aborted one. */
  ghost function Written(db: Db, id: IntentId, verdict: Disposition): Db
    requires id in db.intents
  {
    var intent := db.intents[id];
    if verdict != ReceiveCompleted then db else
    db.(versions := db.versions[intent.key := VersionAfter(intent)],
        plugins := if intent.operation == Delete then ClearDefault(db.plugins, intent.key) else db.plugins,
        history := db.history + [HistoryAfter(id, intent)])
  }

  lemma WrittenSettles(db: Db, plugin: Uuid, id: IntentId, verdict: Disposition)
    requires IntentReady(db, plugin, verdict, id)
    ensures VersionsSettled(db.intents, db.versions, Written(db, id, verdict).versions, id.batch, plugin, [id.tag],
            verdict)
    ensures PluginsSettled(db.intents, db.plugins, Written(db, id, verdict).plugins, id.batch, plugin, [id.tag],
            verdict)
    ensures HistorySettled(db.intents, db.history, Written(db, id, verdict).history, id.batch, [id.tag], verdict)
  {
    assert HistoryRows(db.intents, id.batch, [id.tag]) == [HistoryAfter(id, db.intents[id])];
    assert Written(db, id, verdict).versions.Keys == db.versions.Keys;
  }

  lemma WrittenReady(db: Db, plugin: Uuid, id: IntentId, verdict: Disposition)
    requires IntentReady(db, plugin, verdict, id)
    ensures IdsReady(Written(db, id, verdict), db.intents[id].key, db.intents[id].operation, verdict,
            Ids(id, db.intents[id].revisions))
  {
    IntentIdsReady(db, plugin, verdict, id);
    forall t | t in Ids(id, db.intents[id].revisions)
      ensures TransitionReady(Written(db, id, verdict), db.intents[id].key, db.intents[id].operation, verdict, t)
    {
      assert TransitionReady(db, db.intents[id].key, db.intents[id].operation, verdict, t);
    }
  }

  lemma WriteVersionSucceeds(db: Db, plugin: Uuid, id: IntentId)
    requires IntentReady(db, plugin, ReceiveCompleted, id)
    ensures WriteVersion(db, id, db.intents[id]) == Some(Written(db, id, ReceiveCompleted))
  {
  }

  lemma SettleIntentSucceeds(db: Db, plugin: Uuid, id: IntentId, verdict: Disposition, checked: bool) returns (next: Db)
    requires verdict != ReceiveManual && IntentReady(db, plugin, verdict, id)
    ensures SettleIntent(db, id, verdict, checked) == Some(next)
    ensures TagsSettled(db, next, id.batch, plugin, [id.tag], verdict)
  {
    var intent, ids := db.intents[id], Ids(id, db.intents[id].revisions);
    var written := Written(db, id, verdict);
    if verdict == ReceiveCompleted { WriteVersionSucceeds(db, plugin, id); }
    WrittenReady(db, plugin, id, verdict);
    var mid := SettleIdsSucceeds(written, intent.key, intent.operation, verdict, ids, checked);
    next := mid.(intents := mid.intents[id := intent.(state := FinalState(verdict))]);
    WrittenSettles(db, plugin, id, verdict);
    SettledPieces(db, written, mid, next, plugin, id, verdict);
  }

  lemma SettledPieces(db: Db, written: Db, mid: Db, next: Db, plugin: Uuid, id: IntentId, verdict: Disposition)
    requires verdict != ReceiveManual && IntentReady(db, plugin, verdict, id) && written == Written(db, id, verdict)
    requires IdsSettled(written, mid, db.intents[id].key, db.intents[id].operation, verdict,
             Ids(id, db.intents[id].revisions))
    requires next == mid.(intents := mid.intents[id := db.intents[id].(state := FinalState(verdict))])
    requires VersionsSettled(db.intents, db.versions, written.versions, id.batch, plugin, [id.tag], verdict)
    requires PluginsSettled(db.intents, db.plugins, written.plugins, id.batch, plugin, [id.tag], verdict)
    requires HistorySettled(db.intents, db.history, written.history, id.batch, [id.tag], verdict)
    ensures TagsSettled(db, next, id.batch, plugin, [id.tag], verdict)
  {
    IntentTransitions(db, next, id, verdict);
    IntentPointers(db, next, plugin, id, verdict);
    IntentArtifacts(db, next, id, verdict);
    IntentGc(db, next, id, verdict);
    assert next.intents.Keys == db.intents.Keys;
  }

  // ---- A whole batch

  lemma ReadyAfterIntent(db: Db, mid: Db, batch: Uuid, plugin: Uuid, tag: Tag, verdict: Disposition, other: Tag)
    requires TagsSettled(db, mid, batch, plugin, [tag], verdict) && tag != other
    requires IntentReady(db, plugin, verdict, IntentId(batch, other))
    ensures IntentReady(mid, plugin, verdict, IntentId(batch, other))
    ensures mid.intents[IntentId(batch, other)] == db.intents[IntentId(batch, other)]
  {
    var id := IntentId(batch, other);
    assert !Covers(batch, [tag], id);
    forall r | r in db.intents[id].revisions
      ensures TransitionReady(mid, db.intents[id].key, db.intents[id].operation, verdict, TransitionId(id, r))
    {
      TransitionReadyAfterIntent(db, mid, batch, plugin, tag, verdict, TransitionId(id, r));
    }
  }

  lemma TransitionReadyAfterIntent(db: Db, mid: Db, batch: Uuid, plugin: Uuid, tag: Tag, verdict: Disposition,
          t: TransitionId)
    requires TagsSettled(db, mid, batch, plugin, [tag], verdict) && t.intent.tag != tag
    requires t.intent in db.intents && db.intents[t.intent].key == TagKey(plugin, t.intent.tag)
    requires TransitionReady(db, db.intents[t.intent].key, db.intents[t.intent].operation, verdict, t)
    ensures TransitionReady(mid, db.intents[t.intent].key, db.intents[t.intent].operation, verdict, t)
  {
    assert !Covers(batch, [tag], t.intent);
    assert mid.transitions[t] == db.transitions[t];
    var pid := PointerId(t.revision, db.intents[t.intent].key);
    assert pid.key.tag !in [tag];
    assert mid.pointers[pid] == db.pointers[pid];
    if StagedFor(t) in db.artifacts {
      assert !Promoted(db.transitions, batch, [tag], verdict, StagedFor(t));
    }
  }

  lemma CoversHead(batch: Uuid, tags: seq<Tag>, id: IntentId)
    requires tags != []
    ensures Covers(batch, tags, id) <==> Covers(batch, [tags[0]], id) || Covers(batch, tags[1..], id)
  {
    assert tags == [tags[0]] + tags[1..];
  }

  lemma {:induction false} HistoryRowsFrame(before: Intents, after: Intents, batch: Uuid, tag: Tag, tags: seq<Tag>,
          verdict: Disposition)
    requires IntentsSettled(before, after, batch, [tag], verdict) && tag !in tags
    ensures HistoryRows(after, batch, tags) == HistoryRows(before, batch, tags)
  {
    if tags != [] {
      assert !Covers(batch, [tag], IntentId(batch, tags[0]));
      HistoryRowsFrame(before, after, batch, tag, tags[1..], verdict);
    }
  }

  lemma JoinIntents(before: Intents, mid: Intents, after: Intents, batch: Uuid, tags: seq<Tag>, verdict: Disposition)
    requires tags != [] && IntentsSettled(before, mid, batch, [tags[0]], verdict) &&
             IntentsSettled(mid, after, batch, tags[1..], verdict)
    ensures IntentsSettled(before, after, batch, tags, verdict)
  {
    forall id { CoversHead(batch, tags, id); }
  }

  lemma JoinTransitionRows(before: Transitions, mid: Transitions, after: Transitions, batch: Uuid, tags: seq<Tag>,
          verdict: Disposition)
    requires tags != [] && TransitionsSettled(before, mid, batch, [tags[0]], verdict) &&
             TransitionsSettled(mid, after, batch, tags[1..], verdict)
    ensures TransitionsSettled(before, after, batch, tags, verdict)
  {
    forall id: TransitionId { CoversHead(batch, tags, id.intent); }
  }

  lemma JoinPointerRows(db: Db, mid: Db, next: Db, batch: Uuid, plugin: Uuid, tags: seq<Tag>, verdict: Disposition)
    requires tags != [] && tags[0] !in tags[1..]
    requires TagsSettled(db, mid, batch, plugin, [tags[0]], verdict) &&
             TagsSettled(mid, next, batch, plugin, tags[1..], verdict)
    ensures PointersSettled(db.intents, db.transitions, db.pointers, next.pointers, batch, plugin, tags, verdict)
  {
    forall pid | pid in db.pointers
      ensures next.pointers[pid] ==
                if Touches(db.intents, db.transitions, batch, plugin, tags, pid)
                then PointerAfter(verdict, db.intents[OwnerOf(batch, pid).intent].operation,
                    db.transitions[OwnerOf(batch, pid)])
                else db.pointers[pid]
    {
      assert tags == [tags[0]] + tags[1..];
      var owner := OwnerOf(batch, pid);
      if owner in db.transitions && owner.intent in db.intents && pid.key.tag != tags[0] {
        assert !Covers(batch, [tags[0]], owner.intent);
        assert mid.transitions[owner] == db.transitions[owner] && mid.intents[owner.intent] == db.intents[owner.intent];
      }
      assert pid.key.tag == tags[0] <==> pid.key.tag in [tags[0]];
    }
  }

  lemma JoinArtifactRows(db: Db, mid: Db, next: Db, batch: Uuid, plugin: Uuid, tags: seq<Tag>, verdict: Disposition)
    requires tags != []
    requires TagsSettled(db, mid, batch, plugin, [tags[0]], verdict) &&
             TagsSettled(mid, next, batch, plugin, tags[1..], verdict)
    ensures ArtifactsSettled(db.transitions, db.artifacts, next.artifacts, batch, tags, verdict)
  {
    forall aid | aid in db.artifacts
      ensures Promoted(db.transitions, batch, tags, verdict, aid)
              <==> Promoted(db.transitions, batch, [tags[0]], verdict, aid) ||
                   Promoted(mid.transitions, batch, tags[1..], verdict, aid)
    {
      if aid.StagedFor? {
        CoversHead(batch, tags, aid.transition.intent);
      }
    }
  }

  lemma JoinGcRows(db: Db, mid: Db, next: Db, batch: Uuid, plugin: Uuid, tags: seq<Tag>, verdict: Disposition)
    requires tags != []
    requires TransitionsSettled(db.transitions, mid.transitions, batch, [tags[0]], verdict)
    requires GcSettled(db.transitions, db.gc, mid.gc, batch, [tags[0]], verdict)
    requires GcSettled(mid.transitions, mid.gc, next.gc, batch, tags[1..], verdict)
    ensures GcSettled(db.transitions, db.gc, next.gc, batch, tags, verdict)
  {
    forall aid
      ensures DiscardedBy(db.transitions, batch, tags, verdict, aid)
              <==> DiscardedBy(db.transitions, batch, [tags[0]], verdict, aid) ||
                   DiscardedBy(mid.transitions, batch, tags[1..], verdict, aid)
    {
      DiscardedHead(db.transitions, mid.transitions, batch, tags, verdict, aid);
    }
  }

  lemma DiscardedHead(before: Transitions, mid: Transitions, batch: Uuid, tags: seq<Tag>, verdict: Disposition,
          aid: ArtifactId)
    requires tags != [] && TransitionsSettled(before, mid, batch, [tags[0]], verdict)
    ensures DiscardedBy(before, batch, tags, verdict, aid)
            <==> DiscardedBy(before, batch, [tags[0]], verdict, aid) || DiscardedBy(mid, batch, tags[1..], verdict, aid)
  {
    forall id: TransitionId { CoversHead(batch, tags, id.intent); }
    assert forall id | id in before :: Discarded(verdict, mid[id]) == Discarded(verdict, before[id]);
    if DiscardedBy(before, batch, tags, verdict, aid) {
      var id :| id in before && Covers(batch, tags, id.intent) && Discarded(verdict, before[id]) == Some(aid);
      assert Discarded(verdict, mid[id]) == Some(aid);
    }
  }

  lemma JoinVersionRows(db: Db, mid: Db, next: Db, batch: Uuid, plugin: Uuid, tags: seq<Tag>, verdict: Disposition)
    requires tags != [] && tags[0] !in tags[1..]
    requires IntentsSettled(db.intents, mid.intents, batch, [tags[0]], verdict)
    requires VersionsSettled(db.intents, db.versions, mid.versions, batch, plugin, [tags[0]], verdict)
    requires VersionsSettled(mid.intents, mid.versions, next.versions, batch, plugin, tags[1..], verdict)
    ensures VersionsSettled(db.intents, db.versions, next.versions, batch, plugin, tags, verdict)
  {
    forall tag ensures tag in tags <==> tag == tags[0] || tag in tags[1..] {
      assert tags == [tags[0]] + tags[1..];
    }
  }

  lemma JoinPluginRows(db: Db, mid: Db, next: Db, batch: Uuid, plugin: Uuid, tags: seq<Tag>, verdict: Disposition)
    requires tags != []
    requires IntentsSettled(db.intents, mid.intents, batch, [tags[0]], verdict)
    requires PluginsSettled(db.intents, db.plugins, mid.plugins, batch, plugin, [tags[0]], verdict)
    requires PluginsSettled(mid.intents, mid.plugins, next.plugins, batch, plugin, tags[1..], verdict)
    ensures PluginsSettled(db.intents, db.plugins, next.plugins, batch, plugin, tags, verdict)
  {
    forall tag ensures tag in tags <==> tag == tags[0] || tag in tags[1..] {
      assert tags == [tags[0]] + tags[1..];
    }
  }

  lemma JoinTags(db: Db, mid: Db, next: Db, batch: Uuid, plugin: Uuid, tags: seq<Tag>, verdict: Disposition)
    requires tags != [] && tags[0] !in tags[1..] && IntentId(batch, tags[0]) in db.intents
    requires TagsSettled(db, mid, batch, plugin, [tags[0]], verdict) &&
             TagsSettled(mid, next, batch, plugin, tags[1..], verdict)
    ensures TagsSettled(db, next, batch, plugin, tags, verdict)
  {
    JoinIntents(db.intents, mid.intents, next.intents, batch, tags, verdict);
    JoinTransitionRows(db.transitions, mid.transitions, next.transitions, batch, tags, verdict);
    JoinPointerRows(db, mid, next, batch, plugin, tags, verdict);
    JoinArtifactRows(db, mid, next, batch, plugin, tags, verdict);
    JoinGcRows(db, mid, next, batch, plugin, tags, verdict);
    JoinVersionRows(db, mid, next, batch, plugin, tags, verdict);
    JoinPluginRows(db, mid, next, batch, plugin, tags, verdict);
    HistoryRowsFrame(db.intents, mid.intents, batch, tags[0], tags[1..], verdict);
    assert HistoryRows(db.intents, batch,
           [tags[0]]) == [HistoryAfter(IntentId(batch, tags[0]), db.intents[IntentId(batch, tags[0])])];
  }

  lemma NothingSettled(db: Db, batch: Uuid, plugin: Uuid, verdict: Disposition)
    ensures TagsSettled(db, db, batch, plugin, [], verdict)
  {
    assert forall aid :: !DiscardedBy(db.transitions, batch, [], verdict, aid);
  }

  lemma {:induction false} SettleTagsSucceeds(db: Db, batch: Uuid, plugin: Uuid, tags: seq<Tag>, verdict: Disposition,
          checked: bool) returns (next: Db)
    requires verdict != ReceiveManual && Distinct(tags) && TagsReady(db, batch, plugin, tags, verdict)
    ensures SettleIntents(db, batch, tags, verdict, checked) == Some(next)
    ensures TagsSettled(db, next, batch, plugin, tags, verdict)
    decreases |tags|
  {
    if tags == [] {
      next := db;
      NothingSettled(db, batch, plugin, verdict);
    } else {
      var id := IntentId(batch, tags[0]);
      assert tags[0] in tags;
      var mid := SettleIntentSucceeds(db, plugin, id, verdict, checked);
      forall other | other in tags[1..] ensures IntentReady(mid, plugin, verdict, IntentId(batch, other)) {
        assert other in tags;
        ReadyAfterIntent(db, mid, batch, plugin, tags[0], verdict, other);
      }
      next := SettleTagsSucceeds(mid, batch, plugin, tags[1..], verdict, checked);
      JoinTags(db, mid, next, batch, plugin, tags, verdict);
    }
  }
}
