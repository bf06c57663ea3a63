/**
 * The order in which LockStack.java and Locks.java take and free their
 * locks. Both keep a `LinkedList` used as a stack: `push` puts a lock on
 * top, `pop` takes the top one off, and releasing pops until empty.
 */
module LockOrder {
  import opened DistributedLocks

  /** The names of a stack of locks, top first. */
  function Names(locks: seq<Lock>): (ns: seq<string>)
    ensures |ns| == |locks|
    ensures forall i | 0 <= i < |locks| :: ns[i] == locks[i].name
  {
    seq(|locks|, i requires 0 <= i < |locks| => locks[i].name)
  }

  /** The calls made by unlocking the locks named `names`, first to last. */
  function ReleaseTrace(names: seq<string>): seq<MapCall>
  {
    if names == [] then [] else UnlockCalls(names[0]) + ReleaseTrace(names[1..])
  }

  lemma {:induction false} ReleaseTraceAppend(a: seq<string>, b: seq<string>)
    ensures ReleaseTrace(a + b) == ReleaseTrace(a) + ReleaseTrace(b)
    decreases |a|
  {
    if a == [] {
      assert a + b == b;
    } else {
      assert (a + b)[0] == a[0] && (a + b)[1..] == a[1..] + b;
      ReleaseTraceAppend(a[1..], b);
    }
  }

  /**
   * Releasing unlocks the names one at a time and in order: the `i`-th
   * pair of calls removes and then unlocks the `i`-th name, and nothing
   * else is called.
   */
  lemma {:induction false} ReleaseTraceShape(names: seq<string>, i: nat)
    requires i < |names|
    ensures |ReleaseTrace(names)| == 2 * |names|
    ensures ReleaseTrace(names)[2 * i] == RemoveCall(names[i])
    ensures ReleaseTrace(names)[2 * i + 1] == UnlockCall(names[i])
    decreases |names|
  {
    if i == 0 {
      if |names| > 1 {
        ReleaseTraceShape(names[1..], 0);
      }
    } else {
      ReleaseTraceShape(names[1..], i - 1);
    }
  }

  /** The reverse of a sequence. */
  function Reverse<T>(s: seq<T>): (r: seq<T>)
    ensures |r| == |s|
    ensures forall i | 0 <= i < |s| :: r[i] == s[|s| - 1 - i]
  {
    if s == [] then [] else Reverse(s[1..]) + [s[0]]
  }

  /** The names on a stack after pushing `pushed` onto it, first push first. */
  function PushAll(stack: seq<string>, pushed: seq<string>): seq<string>
    decreases |pushed|
  {
    if pushed == [] then stack else PushAll([pushed[0]] + stack, pushed[1..])
  }

  /** Pushing puts the names on top in reverse order: the last pushed is on top. */
  lemma {:induction false} PushAllReverses(stack: seq<string>, pushed: seq<string>)
    ensures PushAll(stack, pushed) == Reverse(pushed) + stack
    decreases |pushed|
  {
    if pushed != [] {
      PushAllReverses([pushed[0]] + stack, pushed[1..]);
      assert Reverse(pushed) == Reverse(pushed[1..]) + [pushed[0]];
    }
  }

  /**
   * Locks pushed onto an empty stack and then all released are unlocked in
   * the reverse order of their pushes: the last one taken is freed first.
   */
  lemma LastPushedFreedFirst(pushed: seq<string>, i: nat)
    requires i < |pushed|
    ensures var trace := ReleaseTrace(PushAll([], pushed));
      && |trace| == 2 * |pushed|
      && trace[2 * i] == RemoveCall(pushed[|pushed| - 1 - i])
      && trace[2 * i + 1] == UnlockCall(pushed[|pushed| - 1 - i])
  {
    PushAllReverses([], pushed);
    assert Reverse(pushed) + [] == Reverse(pushed);
    ReleaseTraceShape(Reverse(pushed), i);
  }
}
