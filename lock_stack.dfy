/**
 * LockStack.java: a stack of distributed locks on one shared map. A lock
 * is taken when it is pushed and freed when it is popped; releasing the
 * stack pops every lock, the most recent first.
 */
module LockStacks {
  import opened Wrappers
  import opened DistributedLocks
  import opened LockOrder

  /** `LinkedList.pop` on an empty list throws. */
  datatype StackError = EmptyStack

  class LockStack {
    /** The shared map every lock of the stack is taken on. */
    const locksMap: LockMap
    /** The held locks, the most recently pushed first. */
    var locks: seq<Lock>

    ghost predicate Valid()
      reads this
    {
      forall l | l in locks :: l.locksMap == locksMap
    }

    /** A new stack holds no locks. */
    constructor (locksMap: LockMap)
      ensures Valid() && this.locksMap == locksMap && locks == []
    {
      this.locksMap := locksMap;
      locks := [];
    }

    /** Takes the named lock, then puts it on top. */
    method PushLock(prefix: string, arguments: seq<string>)
      requires Valid()
      modifies this, locksMap
      ensures Valid()
      ensures |locks| == |old(locks)| + 1 && fresh(locks[0]) && locks[1..] == old(locks)
      ensures Names(locks) == [LockName(prefix, arguments)] + Names(old(locks))
      ensures locksMap.calls == old(locksMap.calls) + [LockCall(LockName(prefix, arguments))]
    {
      var lock := new Lock.OnMap(locksMap, prefix, arguments);
      lock.Lock();
      locks := [lock] + locks;
    }

    /** Takes the top lock off and frees it; on an empty stack nothing happens but the error. */
    method PopLock() returns (r: Outcome<StackError>)
      requires Valid()
      modifies this, locksMap
      ensures Valid()
      ensures old(locks) == [] ==>
        r == Fail(EmptyStack) && locks == [] && locksMap.calls == old(locksMap.calls)
      ensures old(locks) != [] ==>
        && r == Pass
        && locks == old(locks)[1..]
        && locksMap.calls == old(locksMap.calls) + UnlockCalls(old(locks)[0].name)
    {
      if locks == [] {
        return Fail(EmptyStack);
      }
      var lock := locks[0];
      locks := locks[1..];
      lock.Unlock();
      return Pass;
    }

    /** Pops until the stack is empty: every held lock is freed, the top one first. */
    method ReleaseLocks()
      requires Valid()
      modifies this, locksMap
      ensures Valid() && locks == []
      ensures locksMap.calls == old(locksMap.calls) + ReleaseTrace(Names(old(locks)))
    {
      ghost var popped := 0;
      while locks != []
        invariant Valid()
        invariant popped <= |old(locks)| && locks == old(locks)[popped..]
        invariant locksMap.calls == old(locksMap.calls) + ReleaseTrace(Names(old(locks)[..popped]))
        decreases |locks|
      {
        ghost var top := locks[0];
        var r := PopLock();
        ReleaseTraceAppend(Names(old(locks)[..popped]), [top.name]);
        assert Names(old(locks)[..popped + 1]) == Names(old(locks)[..popped]) + [top.name];
        popped := popped + 1;
      }
      assert old(locks)[..popped] == old(locks);
    }
  }
}
