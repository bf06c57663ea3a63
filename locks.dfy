/**
 * Locks.java: the locks of one transaction, taken through a cluster
 * member. Same discipline as a lock stack: a lock is taken when pushed,
 * freed when popped, and releasing frees them all, the most recent first.
 */
module LockTransactions {
  import opened Wrappers
  import opened DistributedLocks
  import opened LockOrder

  /** `LinkedList.pop` on an empty list throws. */
  datatype TransactionError = NoLockHeld

  class Locks {
    /** The cluster member whose "locks" map every lock is taken on. */
    const hazelcast: HazelcastInstance
    /** The held locks, the most recently pushed first. */
    var locks: seq<Lock>

    ghost predicate Valid()
      reads this
    {
      forall l | l in locks :: l.locksMap == hazelcast.locksMap
    }

    /** A new transaction holds no locks. */
    constructor (hazelcast: HazelcastInstance)
      ensures Valid() && this.hazelcast == hazelcast && locks == []
    {
      this.hazelcast := hazelcast;
      locks := [];
    }

    /** Takes the named lock, then puts it on top. */
    method PushLock(prefix: string, arguments: seq<string>)
      requires Valid()
      modifies this, hazelcast.locksMap
      ensures Valid()
      ensures |locks| == |old(locks)| + 1 && fresh(locks[0]) && locks[1..] == old(locks)
      ensures Names(locks) == [LockName(prefix, arguments)] + Names(old(locks))
      ensures hazelcast.locksMap.calls == old(hazelcast.locksMap.calls) + [LockCall(LockName(prefix, arguments))]
    {
      var lock := new Lock(hazelcast, prefix, arguments);
      lock.Lock();
      locks := [lock] + locks;
    }

    /** Takes the top lock off and frees it; with no lock held nothing happens but the error. */
    method PopLock() returns (r: Outcome<TransactionError>)
      requires Valid()
      modifies this, hazelcast.locksMap
      ensures Valid()
      ensures old(locks) == [] ==>
        r == Fail(NoLockHeld) && locks == [] && hazelcast.locksMap.calls == old(hazelcast.locksMap.calls)
      ensures old(locks) != [] ==>
        && r == Pass
        && locks == old(locks)[1..]
        && hazelcast.locksMap.calls == old(hazelcast.locksMap.calls) + UnlockCalls(old(locks)[0].name)
    {
      if locks == [] {
        return Fail(NoLockHeld);
      }
      var lock := locks[0];
      locks := locks[1..];
      lock.Unlock();
      return Pass;
    }

    /** Pops until no lock is held: every lock is freed, the most recent first. */
    method ReleaseLocks()
      requires Valid()
      modifies this, hazelcast.locksMap
      ensures Valid() && locks == []
      ensures hazelcast.locksMap.calls == old(hazelcast.locksMap.calls) + ReleaseTrace(Names(old(locks)))
    {
      ghost var popped := 0;
      while locks != []
        invariant Valid()
        invariant popped <= |old(locks)| && locks == old(locks)[popped..]
        invariant hazelcast.locksMap.calls ==
          old(hazelcast.locksMap.calls) + ReleaseTrace(Names(old(locks)[..popped]))
        decreases |locks|
      {
        ghost var top := locks[0];
        var r := PopLock();
        ReleaseTraceAppend(Names(old(locks)[..popped]), [top.name]);
        assert Names(old(locks)[..popped + 1]) == Names(old(locks)[..popped]) + [top.name];
        popped := popped + 1;
      }
      assert old(locks)[..popped] == old(locks);
    }
  }
}
