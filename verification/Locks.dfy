/** Locks and condition variables (sync.c:318-543) on values, with a history of who asked and who
    was let through. */
module Locks {
  import opened Hardware

  datatype Lock = Lock(
    locked: bool,
    owner: Option<Pid>,
    waiters: seq<Pid>,
    asks: seq<Pid>,       // every SyncLockAcquire, in call order
    grants: seq<Pid>)     // everyone who was made owner, in order

  datatype Cvar = Cvar(
    waiters: seq<Pid>,
    waits: seq<Pid>,      // every SyncCvarWait, in call order
    wakes: seq<Pid>)      // everyone woken, in order

  const FREE := Lock(false, None, [], [], [])
  const QUIET := Cvar([], [], [])

  /** sync.c:334-349. */
  function Acquire(l: Lock, pid: Pid): Lock {
    var l := l.(asks := l.asks + [pid]);
    if !l.locked then l.(locked := true, owner := Some(pid), grants := l.grants + [pid])
    else l.(waiters := l.waiters + [pid])
  }

  /** sync.c:376-391 and, inlined, 454-466: the lock goes straight to the head waiter. */
  function HandOver(l: Lock): Lock {
    if l.waiters != [] then
      l.(owner := Some(l.waiters[0]), waiters := l.waiters[1..], grants := l.grants + [l.waiters[0]])
    else
      l.(locked := false, owner := None)
  }

  /** Grants follow requests first come first served, with nobody barging in; a lock is locked
      exactly when it has an owner, who is the latest to be granted it; and nobody waits for a
      lock that is free. */
  ghost predicate LockKept(l: Lock) {
    && l.grants + l.waiters == l.asks
    && (l.locked <==> l.owner.Some?)
    && (l.owner.Some? ==> l.grants != [] && l.owner.value == l.grants[|l.grants| - 1])
    && (l.waiters != [] ==> l.locked)
  }

  ghost predicate CvarKept(c: Cvar) {
    c.wakes + c.waiters == c.waits
  }

  lemma AcquireKeeps(l: Lock, pid: Pid)
    requires LockKept(l)
    ensures LockKept(Acquire(l, pid))
  {
    if l.locked {
      Assoc(l.grants, l.waiters, [pid]);
    } else {
      assert l.grants + [] == l.grants;
    }
  }

  lemma HandOverKeeps(l: Lock)
    requires LockKept(l) && l.locked
    ensures LockKept(HandOver(l))
  {
    if l.waiters != [] {
      HeadAcross(l.grants, l.waiters);
    }
  }

  /** sync.c:469. */
  function Await(c: Cvar, pid: Pid): Cvar {
    c.(waiters := c.waiters + [pid], waits := c.waits + [pid])
  }

  /** The first waiter leaves (sync.c:497, and each round of 530-539). */
  function WakeOne(c: Cvar): Cvar
    requires c.waiters != []
  {
    c.(waiters := c.waiters[1..], wakes := c.wakes + [c.waiters[0]])
  }

  lemma AwaitKeeps(c: Cvar, pid: Pid)
    requires CvarKept(c)
    ensures CvarKept(Await(c, pid))
  {
    Assoc(c.wakes, c.waiters, [pid]);
  }

  lemma WakeOneKeeps(c: Cvar)
    requires CvarKept(c) && c.waiters != []
    ensures CvarKept(WakeOne(c))
  {
    HeadAcross(c.wakes, c.waiters);
  }
}
