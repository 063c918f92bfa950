/** The reference-counted keyed locks, as a machine whose steps are the critical sections and channel
    operations of any number of threads in any order. */
module EffectLock {
  import opened Wrappers

  type Key(==, !new)
  type Thread(==, !new)

  /** One lock object. It keeps its identity after it left the table. */
  datatype Entry = Entry(key: Key, tokens: nat, users: nat)

  /** Where a thread is: `Leaving` and `GivenUp` have yet to drop their reference. */
  datatype Stage =
    | Waiting(entry: nat)
    | Holding(entry: nat)
    | Leaving(entry: nat)
    | GivenUp(entry: nat)

  datatype Locks = Locks(table: map<Key, nat>, entries: seq<Entry>, threads: map<Thread, Stage>)

  datatype Step =
    | Enter(thread: Thread, key: Key)
    | Acquire(thread: Thread)
    | Cancel(thread: Thread)
    | Release(thread: Thread)
    | Drop(thread: Thread)

  const CAPACITY := 1

  function SetStage(locks: Locks, thread: Thread, stage: Stage):
          Locks
  {
    locks.(threads := locks.threads[thread := stage])
  }

  function SetEntry(locks: Locks, e: nat, entry: Entry): Locks
    requires e < |locks.entries|
  {
    locks.(entries := locks.entries[e := entry])
  }

  /** Finds or makes the entry of the key and counts the thread as its user. */
  function EnterLock(locks: Locks, thread: Thread, key: Key): Locks {
    if key in locks.table then
      var e := locks.table[key];
      if e < |locks.entries| then SetStage(SetEntry(locks, e, locks.entries[e].(users := locks.entries[e].users + 1)),
          thread, Waiting(e)) else locks
    else
      var e := |locks.entries|;
      SetStage(locks.(table := locks.table[key := e], entries := locks.entries + [Entry(key, CAPACITY, 1)]), thread,
          Waiting(e))
  }

  /** Drops a reference; the last one takes whatever the table holds for the key with it. */
  function DropReference(locks: Locks, thread: Thread, e: nat): Locks
    requires e < |locks.entries| && locks.entries[e].users > 0
  {
    var entry := locks.entries[e].(users := locks.entries[e].users - 1);
    var next := SetEntry(locks, e, entry).(threads := locks.threads - {thread});
    if entry.users == 0 then next.(table := next.table - {entry.key}) else next
  }

  /** Whether a step can be taken. A receive needs a token, a send needs room. */
  predicate Enabled(locks: Locks, step: Step) {
    match step
    case Enter(thread, key) => thread !in locks.threads
    case Acquire(thread) =>
      thread in locks.threads && locks.threads[thread].Waiting? && locks.threads[thread].entry < |locks.entries| &&
      locks.entries[locks.threads[thread].entry].tokens > 0
    case Cancel(thread) => thread in locks.threads && locks.threads[thread].Waiting?
    case Release(thread) =>
      thread in locks.threads && locks.threads[thread].Holding? && locks.threads[thread].entry < |locks.entries| &&
      locks.entries[locks.threads[thread].entry].tokens < CAPACITY
    case Drop(thread) =>
      thread in locks.threads && (locks.threads[thread].Leaving? || locks.threads[thread].GivenUp?) &&
      locks.threads[thread].entry < |locks.entries| && locks.entries[locks.threads[thread].entry].users > 0
  }

  function Take(locks: Locks, step: Step): Locks {
    if !Enabled(locks, step) then locks else
    match step
    case Enter(thread, key) => EnterLock(locks, thread, key)
    case Acquire(thread) =>
      var e := locks.threads[thread].entry;
      SetStage(SetEntry(locks, e, locks.entries[e].(tokens := locks.entries[e].tokens - 1)), thread, Holding(e))
    case Cancel(thread) => SetStage(locks, thread, GivenUp(locks.threads[thread].entry))
    case Release(thread) =>
      var e := locks.threads[thread].entry;
      SetStage(SetEntry(locks, e, locks.entries[e].(tokens := locks.entries[e].tokens + 1)), thread, Leaving(e))
    case Drop(thread) => DropReference(locks, thread, locks.threads[thread].entry)
  }

  function TakeAll(locks: Locks, steps: seq<Step>): Locks
    decreases |steps|
  {
    if steps == [] then locks else TakeAll(Take(locks, steps[0]), steps[1..])
  }

  const UNUSED := Locks(map[], [], map[])

  // ---- The invariant

  function UsersOf(threads: map<Thread, Stage>, e: nat): set<Thread> { set t | t in threads && threads[t].entry == e }

  function HoldersOf(threads: map<Thread, Stage>, e: nat): set<Thread> { set t | t in threads &&
          threads[t] == Holding(e) }

  /** Counts are right, and there is one token, in the channel or with a holder. */
  ghost predicate EntryOk(locks: Locks, e: nat)
    requires e < |locks.entries|
  {
    locks.entries[e].users == |UsersOf(locks.threads, e)| &&
        locks.entries[e].tokens + |HoldersOf(locks.threads, e)| == 1
  }

  /** The table names exactly the entries in use. */
  ghost predicate TableOk(locks: Locks) {
    (forall key | key in locks.table ::
        locks.table[key] < |locks.entries| && locks.entries[locks.table[key]].key == key &&
            locks.entries[locks.table[key]].users > 0) &&
    forall e :: 0 <= e < |locks.entries| && locks.entries[e].users > 0 ==>
        locks.entries[e].key in locks.table && locks.table[locks.entries[e].key] == e
  }

  ghost predicate EntriesOk(locks: Locks) {
    forall e :: 0 <= e < |locks.entries| ==> EntryOk(locks, e)
  }

  ghost predicate LocksOk(locks: Locks) {
    TableOk(locks) && (forall t | t in locks.threads :: locks.threads[t].entry < |locks.entries|) && EntriesOk(locks)
  }

  lemma SetGrows<T>(s: set<T>, larger: set<T>, x: T)
    requires x !in s && larger == s + {x}
    ensures |larger| == |s| + 1
  {
  }

  /** Moving one thread changes only the counts of the entries it leaves and enters. */
  lemma StageCounts(before: map<Thread, Stage>, thread: Thread, stage: Stage, e: nat)
    ensures var after := before[thread := stage];
            (if stage.entry == e then UsersOf(after, e) == UsersOf(before, e) + {thread}
                else UsersOf(after, e) == UsersOf(before, e) - {thread}) &&
            (if stage == Holding(e) then HoldersOf(after, e) == HoldersOf(before, e) + {thread}
                else HoldersOf(after, e) == HoldersOf(before, e) - {thread})
  {
  }

  lemma DropCounts(before: map<Thread, Stage>, thread: Thread, e: nat)
    ensures UsersOf(before - {thread}, e) == UsersOf(before, e) - {thread} &&
            HoldersOf(before - {thread}, e) == HoldersOf(before, e) - {thread}
  {
  }

  lemma EnterEntry(locks: Locks, thread: Thread, key: Key, e: nat)
    requires LocksOk(locks) && thread !in locks.threads && e < |EnterLock(locks, thread, key).entries|
    ensures EntryOk(EnterLock(locks, thread, key), e)
  {
    var next := EnterLock(locks, thread, key);
    var entered := next.threads[thread].entry;
    StageCounts(locks.threads, thread, Waiting(entered), e);
    assert thread !in UsersOf(locks.threads, e) && thread !in HoldersOf(locks.threads, e);
    assert HoldersOf(next.threads, e) == HoldersOf(locks.threads, e);
    if e < |locks.entries| {
      assert EntryOk(locks, e);
      if e != entered { assert UsersOf(next.threads, e) == UsersOf(locks.threads, e); }
    } else {
      assert UsersOf(locks.threads, e) == {} && HoldersOf(locks.threads, e) == {};
    }
  }

  lemma EnterTable(locks: Locks, thread: Thread, key: Key)
    requires TableOk(locks)
    ensures TableOk(EnterLock(locks, thread, key))
  {
    var next := EnterLock(locks, thread, key);
    forall e | 0 <= e < |next.entries| && next.entries[e].users > 0
      ensures next.entries[e].key in next.table && next.table[next.entries[e].key] == e
    {
      if e < |locks.entries| { assert next.entries[e].key == locks.entries[e].key; }
    }
  }

  lemma EnterOk(locks: Locks, thread: Thread, key: Key)
    requires LocksOk(locks) && thread !in locks.threads
    ensures LocksOk(EnterLock(locks, thread, key))
  {
    forall e | 0 <= e < |EnterLock(locks, thread, key).entries| ensures EntryOk(EnterLock(locks, thread, key), e) {
      EnterEntry(locks, thread, key, e);
    }
    EnterTable(locks, thread, key);
    assert EntriesOk(EnterLock(locks, thread, key));
  }

  lemma AcquireEntries(locks: Locks, thread: Thread)
    requires EntriesOk(locks) && Enabled(locks, Acquire(thread))
    ensures EntriesOk(Take(locks, Acquire(thread)))
  {
    var next, held := Take(locks, Acquire(thread)), locks.threads[thread].entry;
    forall e | 0 <= e < |next.entries| ensures EntryOk(next, e) {
      StageCounts(locks.threads, thread, Holding(held), e);
      assert EntryOk(locks, e) && thread !in HoldersOf(locks.threads, e);
      if e == held {
        assert thread in UsersOf(locks.threads, e);
        assert UsersOf(next.threads, e) == UsersOf(locks.threads, e);
      }
    }
  }

  lemma AcquireOk(locks: Locks, thread: Thread)
    requires LocksOk(locks) && Enabled(locks, Acquire(thread))
    ensures LocksOk(Take(locks, Acquire(thread)))
  {
    AcquireEntries(locks, thread);
  }

  lemma CancelOk(locks: Locks, thread: Thread)
    requires LocksOk(locks) && Enabled(locks, Cancel(thread))
    ensures LocksOk(Take(locks, Cancel(thread)))
  {
    var next, left := Take(locks, Cancel(thread)), locks.threads[thread].entry;
    forall e | 0 <= e < |next.entries| ensures EntryOk(next, e) {
      StageCounts(locks.threads, thread, GivenUp(left), e);
      assert EntryOk(locks, e) && thread !in HoldersOf(locks.threads, e);
      assert thread in UsersOf(locks.threads, e) <==> e == left;
      assert UsersOf(next.threads, e) == UsersOf(locks.threads, e) &&
             HoldersOf(next.threads, e) == HoldersOf(locks.threads, e);
    }
  }

  lemma ReleaseEntries(locks: Locks, thread: Thread)
    requires EntriesOk(locks) && Enabled(locks, Release(thread))
    ensures EntriesOk(Take(locks, Release(thread)))
  {
    var next, left := Take(locks, Release(thread)), locks.threads[thread].entry;
    forall e | 0 <= e < |next.entries| ensures EntryOk(next, e) {
      StageCounts(locks.threads, thread, Leaving(left), e);
      assert EntryOk(locks, e);
      assert UsersOf(next.threads, e) == UsersOf(locks.threads, e);
      if e == left {
        SetGrows(HoldersOf(next.threads, e), HoldersOf(locks.threads, e), thread);
      } else {
        assert thread !in HoldersOf(locks.threads, e);
      }
    }
  }

  lemma ReleaseOk(locks: Locks, thread: Thread)
    requires LocksOk(locks) && Enabled(locks, Release(thread))
    ensures LocksOk(Take(locks, Release(thread)))
  {
    ReleaseEntries(locks, thread);
  }

  lemma DropEntries(locks: Locks, thread: Thread)
    requires EntriesOk(locks) && Enabled(locks, Drop(thread))
    ensures EntriesOk(Take(locks, Drop(thread)))
  {
    var next, left := Take(locks, Drop(thread)), locks.threads[thread].entry;
    forall e | 0 <= e < |next.entries| ensures EntryOk(next, e) {
      DropCounts(locks.threads, thread, e);
      assert EntryOk(locks, e) && thread !in HoldersOf(locks.threads, e);
      if e == left {
        SetGrows(UsersOf(next.threads, e), UsersOf(locks.threads, e), thread);
      } else {
        assert thread !in UsersOf(locks.threads, e);
      }
    }
  }

  lemma DropOk(locks: Locks, thread: Thread)
    requires LocksOk(locks) && Enabled(locks, Drop(thread))
    ensures LocksOk(Take(locks, Drop(thread)))
  {
    DropEntries(locks, thread);
  }

  lemma TakeOk(locks: Locks, step: Step)
    requires LocksOk(locks)
    ensures LocksOk(Take(locks, step))
  {
    if Enabled(locks, step) {
      match step
      case Enter(thread, key) => EnterOk(locks, thread, key);
      case Acquire(thread) => AcquireOk(locks, thread);
      case Cancel(thread) => CancelOk(locks, thread);
      case Release(thread) => ReleaseOk(locks, thread);
      case Drop(thread) => DropOk(locks, thread);
    }
  }

  lemma {:induction false} TakeAllOk(locks: Locks, steps: seq<Step>)
    requires LocksOk(locks)
    ensures LocksOk(TakeAll(locks, steps))
    decreases |steps|
  {
    if steps != [] {
      TakeOk(locks, steps[0]);
      TakeAllOk(Take(locks, steps[0]), steps[1..]);
    }
  }

  // ---- What it gives, after any interleaving

  lemma TwoHolders(locks: Locks, e: nat, s: Thread, t: Thread)
    requires e < |locks.entries| && EntryOk(locks, e) && s in HoldersOf(locks.threads, e) &&
             t in HoldersOf(locks.threads, e)
    ensures s == t
  {
    if s != t {
      assert {s, t} <= HoldersOf(locks.threads, e);
      SubsetSize({s, t}, HoldersOf(locks.threads, e));
    }
  }

  lemma InUse(locks: Locks, t: Thread)
    requires LocksOk(locks) && t in locks.threads
    ensures var entry := locks.entries[locks.threads[t].entry];
            entry.users > 0 && entry.key in locks.table && locks.table[entry.key] == locks.threads[t].entry
  {
    var e := locks.threads[t].entry;
    assert EntryOk(locks, e) && t in UsersOf(locks.threads, e);
    SubsetSize({t}, UsersOf(locks.threads, e));
  }

  function HoldsKey(locks: Locks, t: Thread): Option<Key> {
    if t in locks.threads && locks.threads[t].Holding? && locks.threads[t].entry < |locks.entries|
    then Some(locks.entries[locks.threads[t].entry].key) else None
  }

  /** Two threads that hold the same key are one thread, even when the entry of the key was deleted and made
      again in between. */
  lemma Exclusion(steps: seq<Step>, s: Thread, t: Thread)
    ensures var locks := TakeAll(UNUSED, steps);
            HoldsKey(locks, s).Some? && HoldsKey(locks, s) == HoldsKey(locks, t) ==> s == t
  {
    TakeAllOk(UNUSED, steps);
    var locks := TakeAll(UNUSED, steps);
    if HoldsKey(locks, s).Some? && HoldsKey(locks, s) == HoldsKey(locks, t) {
      InUse(locks, s);
      InUse(locks, t);
      var e := locks.threads[s].entry;
      assert EntryOk(locks, e);
      TwoHolders(locks, e, s, t);
    }
  }

  /** What a thread holds has room for its token, and what it uses counts it. */
  lemma NothingBlocks(locks: Locks, t: Thread)
    requires LocksOk(locks) && t in locks.threads
    ensures locks.threads[t].Holding? ==> Enabled(locks, Release(t))
    ensures locks.threads[t].Leaving? || locks.threads[t].GivenUp? ==> Enabled(locks, Drop(t))
  {
    InUse(locks, t);
    var e := locks.threads[t].entry;
    assert EntryOk(locks, e);
    if locks.threads[t].Holding? {
      assert t in HoldersOf(locks.threads, e);
      SubsetSize({t}, HoldersOf(locks.threads, e));
    }
  }

  /** A holder can always give the lock back without blocking, and a thread that has yet to drop its
      reference always can. */
  lemma NeverStuck(steps: seq<Step>, t: Thread)
    ensures var locks := TakeAll(UNUSED, steps);
            t in locks.threads ==>
              (locks.threads[t].Holding? ==> Enabled(locks, Release(t))) &&
              (locks.threads[t].Leaving? || locks.threads[t].GivenUp? ==> Enabled(locks, Drop(t)))
  {
    TakeAllOk(UNUSED, steps);
    var locks := TakeAll(UNUSED, steps);
    if t in locks.threads { NothingBlocks(locks, t); }
  }

  /** No wake-up is lost: a waiting thread can take its lock exactly while no thread holds it. */
  lemma FreeWhenUnheld(steps: seq<Step>, t: Thread)
    ensures var locks := TakeAll(UNUSED, steps);
            t in locks.threads && locks.threads[t].Waiting? ==>
              (Enabled(locks, Acquire(t)) <==> HoldersOf(locks.threads, locks.threads[t].entry) == {})
  {
    TakeAllOk(UNUSED, steps);
    var locks := TakeAll(UNUSED, steps);
    if t in locks.threads && locks.threads[t].Waiting? {
      assert EntryOk(locks, locks.threads[t].entry);
    }
  }

  /** The table holds an entry exactly while some thread uses it, so it is empty when no thread is left. */
  lemma TableIsExact(steps: seq<Step>, key: Key)
    ensures var locks := TakeAll(UNUSED, steps);
            key in locks.table <==>
            exists t | t in locks.threads ::
                locks.threads[t].entry < |locks.entries| && locks.entries[locks.threads[t].entry].key == key
  {
    TakeAllOk(UNUSED, steps);
    var locks := TakeAll(UNUSED, steps);
    if key in locks.table {
      var e := locks.table[key];
      assert EntryOk(locks, e) && UsersOf(locks.threads, e) != {};
      var t :| t in UsersOf(locks.threads, e);
      assert t in locks.threads;
    }
    forall t | t in locks.threads && locks.entries[locks.threads[t].entry].key == key ensures key in locks.table {
      InUse(locks, t);
    }
  }
}
