/** The Plugin service's own lock table. Its entries are mutexes, and nobody who waits gives up, but each of
    its steps is a step of the same machine: a locked mutex is one whose token is taken. */
module ServiceLocks {
  import opened Wrappers
  import opened EffectLock

  class KeyedMutex {
    const key: Key
    ghost const number: nat
    var locked: bool
    var refs: nat

    constructor (key: Key, ghost number: nat)
      ensures this.key == key && this.number == number && !locked && refs == 0
    {
      this.key, this.number := key, number;
      locked, refs := false, 0;
    }
  }

  class KeyedLockTable {
    var locks: map<Key, KeyedMutex>
    ghost var made: seq<KeyedMutex>
    ghost var threads: map<Thread, Stage>

    constructor ()
      ensures Valid() && Model() == UNUSED && fresh(made)
    {
      locks, made, threads := map[], [], map[];
    }

    /** Every entry in the table was made here, and no entry was made twice. */
    ghost predicate Made()
      reads this, made
    {
      (forall n :: 0 <= n < |made| ==> made[n].number == n) &&
      forall key | key in locks :: locks[key].number < |made| && made[locks[key].number] == locks[key]
    }

    ghost function Table(): map<Key, nat>
      reads this
    {
      map key | key in locks :: locks[key].number
    }

    static ghost function EntryOf(mutex: KeyedMutex): Entry
      reads mutex
    {
      Entry(mutex.key, if mutex.locked then 0 else CAPACITY, mutex.refs)
    }

    ghost function Entries(): seq<Entry>
      reads this, made
    {
      seq(|made|, n requires 0 <= n < |made| reads this, made => EntryOf(made[n]))
    }

    ghost function Model(): Locks
      reads this, made
    {
      Locks(Table(), Entries(), threads)
    }

    /** The entries are the program's, and in a state of the lock machine. */
    ghost predicate Valid()
      reads this, made
    {
      Made() && LocksOk(Model())
    }

    /** What Reference does, which needs the entries only to be the ones made here. */
    method Enroll(ghost thread: Thread, key: Key) returns (entry: KeyedMutex)
      requires Made() && thread !in threads
      modifies this, made
      ensures Made() && Model() == Take(old(Model()), Enter(thread, key))
      ensures entry in made && threads == old(threads)[thread := Waiting(entry.number)]
      ensures made == old(made) || (made == old(made) + [entry] && fresh(entry))
    {
      if key in locks {
        entry := locks[key];
      } else {
        entry := new KeyedMutex(key, |made|);
        locks := locks[key := entry];
        made := made + [entry];
      }
      entry.refs := entry.refs + 1;
      threads := threads[thread := Waiting(entry.number)];
      assert Table() == if key in old(locks) then old(Table()) else old(Table())[key := entry.number];
      assert Entries() == if key in old(locks) then old(Entries())[entry.number := EntryOf(entry)]
             else old(Entries()) + [Entry(key, CAPACITY, 1)];
    }

    /** Finds or makes the entry and counts the caller. */
    method Reference(ghost thread: Thread, key: Key) returns (entry: KeyedMutex)
      requires Valid() && thread !in threads
      modifies this, made
      ensures Valid() && Model() == Take(old(Model()), Enter(thread, key))
      ensures entry in made && threads == old(threads)[thread := Waiting(entry.number)]
      ensures made == old(made) || (made == old(made) + [entry] && fresh(entry))
    {
      entry := Enroll(thread, key);
      TakeOk(old(Model()), Enter(thread, key));
    }

    method Lock(ghost thread: Thread, entry: KeyedMutex)
      requires Valid() && thread in threads && threads[thread] == Waiting(entry.number) && entry in made &&
               !entry.locked
      modifies this`threads, entry
      ensures Valid() && Model() == Take(old(Model()), Acquire(thread)) && made == old(made)
    {
      entry.locked := true;
      threads := threads[thread := Holding(entry.number)];
      assert Table() == old(Table()) && Entries() == old(Entries())[entry.number := EntryOf(entry)];
      TakeOk(old(Model()), Acquire(thread));
    }

    method Unlock(ghost thread: Thread, entry: KeyedMutex)
      requires Valid() && thread in threads && threads[thread] == Holding(entry.number) && entry in made
      modifies this`threads, entry
      ensures Valid() && Model() == Take(old(Model()), Release(thread)) && made == old(made)
    {
      NothingBlocks(Model(), thread);
      entry.locked := false;
      threads := threads[thread := Leaving(entry.number)];
      assert Table() == old(Table()) && Entries() == old(Entries())[entry.number := EntryOf(entry)];
      TakeOk(old(Model()), Release(thread));
    }

    method ReleaseReference(ghost thread: Thread, key: Key, entry: KeyedMutex)
      requires Valid() && thread in threads && threads[thread] == Leaving(entry.number)
      requires entry in made && entry.key == key
      modifies this`threads, this`locks, entry
      ensures Valid() && Model() == Take(old(Model()), Drop(thread)) && made == old(made)
    {
      NothingBlocks(Model(), thread);
      entry.refs := entry.refs - 1;
      if entry.refs == 0 {
        locks := locks - {key};
      }
      threads := threads - {thread};
      assert Entries() == old(Entries())[entry.number := EntryOf(entry)];
      assert Table() == if entry.refs == 0 then old(Table()) - {key} else old(Table());
      TakeOk(old(Model()), Drop(thread));
    }
  }
}
