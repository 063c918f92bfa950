/** The lock table as the program keeps it: entries are objects, found through a map and counted by hand.
    Each method is one critical section or one channel operation; a caller runs them in this order, and other
    callers' may come in between. */
module KeyedLocks {
  import opened Wrappers
  import opened EffectLock

  class EffectKeyedLock {
    const key: Key
    ghost const number: nat
    var tokens: nat
    var users: nat

    constructor (key: Key, ghost number: nat)
      ensures this.key == key && this.number == number && tokens == CAPACITY && users == 0
    {
      this.key, this.number := key, number;
      tokens, users := CAPACITY, 0;
    }
  }

  class EffectKeyedLocks {
    var locks: map<Key, EffectKeyedLock>
    ghost var made: seq<EffectKeyedLock>
    ghost var threads: map<Thread, Stage>

    constructor ()
      ensures Valid() && Model() == UNUSED && fresh(made)
    {
      locks, made, threads := map[], [], map[];
    }

    /** Every entry in the table was made here, and no entry was made twice. */
    ghost predicate Made()
      reads this, made
    {
      (forall n :: 0 <= n < |made| ==> made[n].number == n) &&
      forall key | key in locks :: locks[key].number < |made| && made[locks[key].number] == locks[key]
    }

    ghost function Table(): map<Key, nat>
      reads this
    {
      map key | key in locks :: locks[key].number
    }

    ghost function Entries(): seq<Entry>
      reads this, made
    {
      seq(|made|, n requires 0 <= n < |made| reads this, made => Entry(made[n].key, made[n].tokens, made[n].users))
    }

    ghost function Model(): Locks
      reads this, made
    {
      Locks(Table(), Entries(), threads)
    }

    /** The entries are the program's, and in a state of the lock machine. */
    ghost predicate Valid()
      reads this, made
    {
      Made() && LocksOk(Model())
    }

    /** What Reference does, which needs the entries only to be the ones made here. */
    method Enroll(ghost thread: Thread, key: Key) returns (entry: EffectKeyedLock)
      requires Made() && thread !in threads
      modifies this, made
      ensures Made() && Model() == Take(old(Model()), Enter(thread, key))
      ensures entry in made && threads == old(threads)[thread := Waiting(entry.number)]
      ensures made == old(made) || (made == old(made) + [entry] && fresh(entry))
    {
      if key in locks {
        entry := locks[key];
      } else {
        entry := new EffectKeyedLock(key, |made|);
        locks := locks[key := entry];
        made := made + [entry];
      }
      entry.users := entry.users + 1;
      threads := threads[thread := Waiting(entry.number)];
      assert Table() == if key in old(locks) then old(Table()) else old(Table())[key := entry.number];
      assert Entries() == if key in old(locks) then
             old(Entries())[entry.number := Entry(entry.key, entry.tokens, entry.users)]
                          else old(Entries()) + [Entry(key, CAPACITY, 1)];
    }

    /** The first half of taking a lock: finds or makes the entry and counts the caller as its user. */
    method Reference(ghost thread: Thread, key: Key) returns (entry: EffectKeyedLock)
      requires Valid() && thread !in threads
      modifies this, made
      ensures Valid() && Model() == Take(old(Model()), Enter(thread, key))
      ensures entry in made && threads == old(threads)[thread := Waiting(entry.number)]
      ensures made == old(made) || (made == old(made) + [entry] && fresh(entry))
    {
      entry := Enroll(thread, key);
      TakeOk(old(Model()), Enter(thread, key));
    }

    /** Receiving the token. */
    method Receive(ghost thread: Thread, entry: EffectKeyedLock)
      requires Valid() && thread in threads && threads[thread] == Waiting(entry.number) && entry in made &&
               entry.tokens > 0
      modifies this`threads, entry
      ensures Valid() && Model() == Take(old(Model()), Acquire(thread)) && made == old(made)
    {
      entry.tokens := entry.tokens - 1;
      threads := threads[thread := Holding(entry.number)];
      assert Table() == old(Table()) &&
             Entries() == old(Entries())[entry.number := Entry(entry.key, entry.tokens, entry.users)];
      TakeOk(old(Model()), Acquire(thread));
    }

    /** The context ended before the token came. */
    ghost method GiveUp(thread: Thread)
      requires Valid() && thread in threads && threads[thread].Waiting?
      modifies this`threads
      ensures Valid() && Model() == Take(old(Model()), Cancel(thread)) && made == old(made)
    {
      threads := threads[thread := GivenUp(threads[thread].entry)];
      assert Table() == old(Table()) && Entries() == old(Entries());
      TakeOk(old(Model()), Cancel(thread));
    }

    /** Sending the token back; there is room for it. */
    method Send(ghost thread: Thread, entry: EffectKeyedLock)
      requires Valid() && thread in threads && threads[thread] == Holding(entry.number) && entry in made
      modifies this`threads, entry
      ensures Valid() && Model() == Take(old(Model()), Release(thread)) && made == old(made)
    {
      NothingBlocks(Model(), thread);
      entry.tokens := entry.tokens + 1;
      threads := threads[thread := Leaving(entry.number)];
      assert Table() == old(Table()) &&
             Entries() == old(Entries())[entry.number := Entry(entry.key, entry.tokens, entry.users)];
      TakeOk(old(Model()), Release(thread));
    }

    /** Dropping a reference; the last one takes the entry of the key out of the table. */
    method ReleaseReference(ghost thread: Thread, key: Key, entry: EffectKeyedLock)
      requires Valid() && thread in threads &&
               (threads[thread] == Leaving(entry.number) || threads[thread] == GivenUp(entry.number))
      requires entry in made && entry.key == key
      modifies this`threads, this`locks, entry
      ensures Valid() && Model() == Take(old(Model()), Drop(thread)) && made == old(made)
    {
      NothingBlocks(Model(), thread);
      entry.users := entry.users - 1;
      if entry.users == 0 {
        locks := locks - {key};
      }
      threads := threads - {thread};
      assert Entries() == old(Entries())[entry.number := Entry(key, entry.tokens, entry.users)];
      assert Table() == if entry.users == 0 then old(Table()) - {key} else old(Table());
      TakeOk(old(Model()), Drop(thread));
    }
  }
}
