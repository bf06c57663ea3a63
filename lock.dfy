/**
 * Lock.java: a distributed lock, named by a prefix and arguments, taken and
 * released on the cluster's shared "locks" map.
 *
 * The map itself (Hazelcast's mutual exclusion) is not modelled: `LockMap`
 * only records, in a ghost trace, the calls made on it. Logging and the
 * timing of a lock are left out.
 */
module DistributedLocks {

  /** A call made on the shared map. */
  datatype MapCall =
    | LockCall(key: string)
    | TryLockCall(key: string, acquired: bool)
    | RemoveCall(key: string)
    | UnlockCall(key: string)

  /** The shared map of locks, as the sequence of calls made on it. */
  class LockMap {
    ghost var calls: seq<MapCall>

    constructor ()
      ensures calls == []
    {
      calls := [];
    }

    /** Blocks until `key` is locked by the caller. */
    method Lock(key: string)
      modifies this
      ensures calls == old(calls) + [LockCall(key)]
    {
      calls := calls + [LockCall(key)];
    }

    /** Locks `key` if it is free; the answer is the cluster's to give. */
    method TryLock(key: string) returns (acquired: bool)
      modifies this
      ensures calls == old(calls) + [TryLockCall(key, acquired)]
    {
      acquired := *;
      calls := calls + [TryLockCall(key, acquired)];
    }

    method Remove(key: string)
      modifies this
      ensures calls == old(calls) + [RemoveCall(key)]
    {
      calls := calls + [RemoveCall(key)];
    }

    method Unlock(key: string)
      modifies this
      ensures calls == old(calls) + [UnlockCall(key)]
    {
      calls := calls + [UnlockCall(key)];
    }
  }

  /** A cluster member; `locksMap` is the map it returns for the name "locks". */
  class HazelcastInstance {
    const locksMap: LockMap

    constructor (locksMap: LockMap)
      ensures this.locksMap == locksMap
    {
      this.locksMap := locksMap;
    }
  }

  // ---------------------------------------------------------------------
  // Lock names

  const NameSeparator: char := '_'

  /** What the arguments add to the prefix: each one, after a separator, in order. */
  function Joined(arguments: seq<string>): string
  {
    if arguments == [] then ""
    else Joined(arguments[..|arguments| - 1]) + [NameSeparator] + arguments[|arguments| - 1]
  }

  /** A lock's name: its prefix, then `_` and each argument's text in turn. */
  function LockName(prefix: string, arguments: seq<string>): (name: string)
    ensures prefix <= name
    ensures arguments == [] ==> name == prefix
  {
    prefix + Joined(arguments)
  }

  /** The length the arguments add: one separator and the argument's own text for each. */
  function ArgumentsLength(arguments: seq<string>): nat
  {
    if arguments == [] then 0 else 1 + |arguments[0]| + ArgumentsLength(arguments[1..])
  }

  lemma {:induction false} ArgumentsLengthAppend(a: seq<string>, b: seq<string>)
    ensures ArgumentsLength(a + b) == ArgumentsLength(a) + ArgumentsLength(b)
    decreases |a|
  {
    if a == [] {
      assert a + b == b;
    } else {
      assert (a + b)[0] == a[0] && (a + b)[1..] == a[1..] + b;
      ArgumentsLengthAppend(a[1..], b);
    }
  }

  /** The name is as long as the prefix plus one separator and one argument text per argument. */
  lemma {:induction false} LockNameLength(prefix: string, arguments: seq<string>)
    ensures |LockName(prefix, arguments)| == |prefix| + ArgumentsLength(arguments)
    decreases |arguments|
  {
    if arguments != [] {
      var n := |arguments| - 1;
      LockNameLength(prefix, arguments[..n]);
      ArgumentsLengthAppend(arguments[..n], [arguments[n]]);
      assert arguments[..n] + [arguments[n]] == arguments;
      assert ArgumentsLength([arguments[n]]) == 1 + |arguments[n]| + ArgumentsLength([]);
    }
  }

  /** The text the first `i` arguments add is the beginning of what they all add. */
  lemma {:induction false} JoinedPrefix(arguments: seq<string>, i: nat)
    requires i <= |arguments|
    ensures Joined(arguments[..i]) <= Joined(arguments)
    decreases |arguments| - i
  {
    if i < |arguments| {
      JoinedPrefix(arguments, i + 1);
      assert arguments[..i + 1][..i] == arguments[..i];
    } else {
      assert arguments[..i] == arguments;
    }
  }

  /**
   * The arguments appear in the name in order: argument `i` stands right
   * after a separator, at the offset the earlier arguments take up.
   */
  lemma ArgumentInName(prefix: string, arguments: seq<string>, i: nat)
    requires i < |arguments|
    ensures var name := LockName(prefix, arguments);
      var at := |prefix| + ArgumentsLength(arguments[..i]);
      && at + 1 + |arguments[i]| <= |name|
      && name[at] == NameSeparator
      && name[at + 1 .. at + 1 + |arguments[i]|] == arguments[i]
  {
    var upTo := arguments[..i + 1];
    assert upTo[..i] == arguments[..i];
    LockNameLength(prefix, arguments[..i]);
    JoinedPrefix(arguments, i + 1);
    var name := LockName(prefix, arguments);
    var head := LockName(prefix, upTo);
    assert head == LockName(prefix, arguments[..i]) + [NameSeparator] + arguments[i];
    assert head <= name;
  }

  /** The unlock sequence of `unlock`: remove the entry, then release the key. */
  function UnlockCalls(name: string): (cs: seq<MapCall>)
    ensures |cs| == 2 && cs[0].RemoveCall? && cs[1].UnlockCall?
    ensures cs[0].key == name && cs[1].key == name
  {
    [RemoveCall(name), UnlockCall(name)]
  }

  // ---------------------------------------------------------------------
  // The lock

  class Lock {
    /** The shared map the lock is taken on. */
    const locksMap: LockMap
    /** The name fixed at construction; every call on the map addresses it. */
    const name: string

    /** The constructor's naming loop: the prefix, then `_` and each argument. */
    static method BuildName(prefix: string, arguments: seq<string>) returns (name: string)
      ensures name == LockName(prefix, arguments)
    {
      name := prefix;
      for i := 0 to |arguments|
        invariant name == LockName(prefix, arguments[..i])
      {
        assert arguments[..i + 1][..i] == arguments[..i];
        name := name + [NameSeparator];
        name := name + arguments[i];
      }
      assert arguments[..|arguments|] == arguments;
    }

    /** A lock on the instance's "locks" map. */
    constructor (hazelcastInstance: HazelcastInstance, prefix: string, arguments: seq<string>)
      ensures locksMap == hazelcastInstance.locksMap
      ensures name == LockName(prefix, arguments)
    {
      var n := BuildName(prefix, arguments);
      name := n;
      locksMap := hazelcastInstance.locksMap;
    }

    /** A lock on a map the caller already holds. */
    constructor OnMap(locksMap: LockMap, prefix: string, arguments: seq<string>)
      ensures this.locksMap == locksMap
      ensures name == LockName(prefix, arguments)
    {
      var n := BuildName(prefix, arguments);
      name := n;
      this.locksMap := locksMap;
    }

    method Lock()
      modifies locksMap
      ensures locksMap.calls == old(locksMap.calls) + [LockCall(name)]
    {
      locksMap.Lock(name);
    }

    /** The map's answer, passed on unchanged. */
    method TryLock() returns (locked: bool)
      modifies locksMap
      ensures locksMap.calls == old(locksMap.calls) + [TryLockCall(name, locked)]
    {
      locked := locksMap.TryLock(name);
    }

    method Unlock()
      modifies locksMap
      ensures locksMap.calls == old(locksMap.calls) + UnlockCalls(name)
    {
      locksMap.Remove(name);
      locksMap.Unlock(name);
    }
  }
}
