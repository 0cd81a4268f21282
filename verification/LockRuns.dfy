/** Mutual exclusion: whatever else happens, at most one process at a time has come back from acquiring
    a lock and not yet given it up. */
module LockRuns {
  import opened Hardware
  import opened Pipes
  import opened PipeWakes
  import opened Locks
  import opened KernelModel
  import opened KernelInvariant
  import opened KernelSteps
  import opened KernelRuns
  import opened KernelDrains
  import opened KernelObjects
  import opened KernelOutcomes
  import opened KernelAnswers

  // ---------------------------------------------------------------- who else leaves an object alone

  lemma {:induction false} BroadcastSpares(k: Kernel, c: int, id: int)
    requires Typed(k) && c in k.sync && k.sync[c].ACvar? && id in k.sync && id != c
    ensures id in WakeEveryone(k, c).sync && WakeEveryone(k, c).sync[id] == k.sync[id]
    decreases |k.sync[c].cvar.waiters|
  {
    if k.sync[c].cvar.waiters != [] { BroadcastSpares(WakeFirst(k, c), c, id); }
  }

  /** A trap changes the objects it names only. */
  lemma HandleSpares(g: Guard, requeue: bool, k: Kernel, t: Trap, id: int)
    requires Typed(k) && Possible(k, t) && id in k.sync && !Names(t, id)
    ensures var k' := Handle(g, requeue, k, t).0; id in k'.sync && k'.sync[id] == k.sync[id]
  {
    match t
    case Tick => TickSync(requeue, k);
    case SysPipeRead(_, _) => OtherPipesKept(g, k, t, id);
    case SysPipeWrite(_, _) => OtherPipesKept(g, k, t, id);
    case SysBroadcast(c, _) => if c in k.sync { BroadcastSpares(k, c, id); }
    case _ =>
  }

  lemma StepSpares(g: Guard, requeue: bool, k: Kernel, t: Trap, id: int)
    requires Typed(k) && Possible(k, t) && id in k.sync && !Names(t, id)
    ensures var k' := Step(g, requeue, k, t); id in k'.sync && k'.sync[id] == k.sync[id]
  {
    HandleSpares(g, requeue, k, t, id);
  }

  // ---------------------------------------------------------------- the owner

  /** p gives the lock up: it releases it, or waits on a condition variable with it. */
  ghost predicate GivesUp(k: Kernel, t: Trap, id: int, p: Pid) {
    k.cur == p && (t == SysLockRelease(id) || (t.SysCvarWait? && t.lock == id && t.cvar in k.sync))
  }

  ghost predicate IsLock(k: Kernel, id: int) {
    id in k.sync && k.sync[id].ALock?
  }

  ghost predicate OwnedBy(k: Kernel, id: int, p: Pid) {
    IsLock(k, id) && k.sync[id].lock.owner == Some(p)
  }

  /** p waits in the queue of the lock. */
  ghost predicate QueuedFor(k: Kernel, id: int, p: Pid) {
    IsLock(k, id) && p in k.sync[id].lock.waiters
  }

  /** A lock is locked exactly when somebody owns it. */
  ghost predicate Consistent(k: Kernel, id: int) {
    IsLock(k, id) ==> LockKept(k.sync[id].lock)
  }

  /** The lock has its owner and its queue, but for an acquire: that takes it when it is free and joins
      the queue when it is not. */
  ghost predicate Stays(k: Kernel, k': Kernel, t: Trap, id: int)
    requires IsLock(k, id)
  {
    && IsLock(k', id)
    && var l, l' := k.sync[id].lock, k'.sync[id].lock;
       if t != SysLockAcquire(id) then l'.owner == l.owner && l'.waiters == l.waiters
       else if l.locked then l'.owner == l.owner && l'.waiters == l.waiters + [k.cur] && k'.cur != k.cur
       else l'.owner == Some(k.cur) && l'.waiters == l.waiters && k'.cur == k.cur
  }

  /** Owner and queue of a lock across a trap that neither reclaims it nor gives it up. */
  lemma LockStays(g: Guard, requeue: bool, k: Kernel, lost: set<Pid>, t: Trap, id: int)
    requires Settled(k, lost) && Possible(k, t) && IsLock(k, id) && Consistent(k, id)
    requires t != SysReclaim(id) && !(k.sync[id].lock.owner == Some(k.cur) && GivesUp(k, t, id, k.cur))
    ensures Stays(k, Step(g, requeue, k, t), t, id)
  {
    if t == SysLockAcquire(id) {
      AcquireAnswers(g, requeue, k, lost, id);
    } else if !Names(t, id) {
      StepSpares(g, requeue, k, t, id);
    } else {
      RefusedKeeps(g, requeue, k, t, id);
    }
  }

  /** Who does not own a lock cannot give it up. */
  lemma RefusedKeeps(g: Guard, requeue: bool, k: Kernel, t: Trap, id: int)
    requires Typed(k) && Possible(k, t) && IsLock(k, id) && Names(t, id)
    requires t != SysReclaim(id) && t != SysLockAcquire(id)
             && !(k.sync[id].lock.owner == Some(k.cur) && GivesUp(k, t, id, k.cur))
    ensures Step(g, requeue, k, t).sync == k.sync
  {}

  /** Given up, a lock is the head waiter's, or nobody's. */
  lemma LockPasses(g: Guard, requeue: bool, k: Kernel, lost: set<Pid>, t: Trap, id: int)
    requires Settled(k, lost) && Possible(k, t) && IsLock(k, id) && Consistent(k, id)
    requires k.sync[id].lock.owner == Some(k.cur) && GivesUp(k, t, id, k.cur)
    ensures var k' := Step(g, requeue, k, t); IsLock(k', id) && PassedOn(k.sync[id].lock, k'.sync[id].lock)
  {
    if t == SysLockRelease(id) {
      ReleaseAnswers(g, requeue, k, lost, id);
    } else {
      WaitAnswers(g, requeue, k, lost, t.cvar, id);
    }
  }

  /** A lock stays its owner's exactly until the owner gives it up or it is reclaimed: nobody else's
      release, wait, acquire or anything takes it away. */
  lemma OwnerKeepsLock(g: Guard, requeue: bool, k: Kernel, lost: set<Pid>, t: Trap, id: int, p: Pid)
    requires Settled(k, lost) && Possible(k, t) && OwnedBy(k, id, p) && Consistent(k, id)
    ensures OwnedBy(Step(g, requeue, k, t), id, p) <==> !GivesUp(k, t, id, p) && t != SysReclaim(id)
  {
    if t == SysReclaim(id) {
      ReclaimAnswers(g, requeue, k, id);
    } else if GivesUp(k, t, id, p) {
      CallerAwake(k, lost, id);
      LockPasses(g, requeue, k, lost, t, id);
    } else {
      LockStays(g, requeue, k, lost, t, id);
    }
  }

  // ---------------------------------------------------------------- from outside

  /** Where a process is with a lock, told from the calls it makes and from when it runs again. */
  datatype Phase = Outside | Waiting | Inside

  /** An acquire has come back once its caller runs after it; a release, or a wait with the lock, is the
      end of it, and so is the end of the lock. */
  ghost function PhaseAfter(k: Kernel, t: Trap, k': Kernel, id: int, p: Pid, ph: Phase): Phase {
    if t == SysReclaim(id) || GivesUp(k, t, id, p) then Outside
    else if k.cur == p && t == SysLockAcquire(id) && id in k.sync then (if k'.cur == p then Inside else Waiting)
    else if ph == Waiting && k'.cur == p then Inside
    else ph
  }

  ghost function PhaseOf(g: Guard, requeue: bool, k: Kernel, ts: seq<Trap>, id: int, p: Pid, ph: Phase): Phase
    requires Typed(k) && PossibleRun(g, requeue, k, ts)
    decreases |ts|
  {
    if ts == [] then ph
    else
      var k' := Step(g, requeue, k, ts[0]);
      PhaseOf(g, requeue, k', ts[1..], id, p, PhaseAfter(k, ts[0], k', id, p, ph))
  }

  /** What the phase says of the lock: who is inside owns it; who waits is in the queue or has been given
      it and is yet to run; and nobody else owns it or queues for it. */
  ghost predicate Told(k: Kernel, id: int, p: Pid, ph: Phase) {
    match ph
    case Outside => !OwnedBy(k, id, p) && !QueuedFor(k, id, p)
    case Waiting => p != k.cur && (OwnedBy(k, id, p) || QueuedFor(k, id, p))
    case Inside => OwnedBy(k, id, p) && !QueuedFor(k, id, p)
  }

  /** What a step makes of owner and queue, seen from p. */
  lemma StepTells(g: Guard, requeue: bool, k: Kernel, lost: set<Pid>, t: Trap, id: int, p: Pid, ph: Phase)
    requires Settled(k, lost) && Possible(k, t) && Consistent(k, id) && Told(k, id, p, ph)
    ensures var k' := Step(g, requeue, k, t); Told(k', id, p, PhaseAfter(k, t, k', id, p, ph))
  {
    if !IsLock(k, id) {
      NewLock(g, requeue, k, t, id, p);
    } else if t == SysReclaim(id) {
      ReclaimAnswers(g, requeue, k, id);
    } else {
      var k' := Step(g, requeue, k, t);
      StepSettles(g, requeue, k, t, lost);
      RunningIsNotQueued(k', LostBy(requeue, k, t, lost), id);
      RunningIsNotQueued(k, lost, id);
      LockTells(g, requeue, k, lost, t, id, p, ph);
    }
  }

  lemma LockTells(g: Guard, requeue: bool, k: Kernel, lost: set<Pid>, t: Trap, id: int, p: Pid, ph: Phase)
    requires Settled(k, lost) && Possible(k, t) && Consistent(k, id) && Told(k, id, p, ph)
    requires IsLock(k, id) && t != SysReclaim(id)
    requires !QueuedFor(k, id, k.cur) && var k' := Step(g, requeue, k, t); !QueuedFor(k', id, k'.cur)
    ensures var k' := Step(g, requeue, k, t); Told(k', id, p, PhaseAfter(k, t, k', id, p, ph))
  {
    var k' := Step(g, requeue, k, t);
    if k.sync[id].lock.owner == Some(k.cur) && GivesUp(k, t, id, k.cur) {
      LockPasses(g, requeue, k, lost, t, id);
      PassedTells(k, k', t, id, p, ph);
    } else {
      LockStays(g, requeue, k, lost, t, id);
      StaysTells(k, k', t, id, p, ph);
    }
  }

  lemma StaysTells(k: Kernel, k': Kernel, t: Trap, id: int, p: Pid, ph: Phase)
    requires IsLock(k, id) && Stays(k, k', t, id) && Consistent(k, id) && Told(k, id, p, ph) && t != SysReclaim(id)
    requires !(k.sync[id].lock.owner == Some(k.cur) && GivesUp(k, t, id, k.cur))
    requires !QueuedFor(k, id, k.cur) && !QueuedFor(k', id, k'.cur)
    ensures Told(k', id, p, PhaseAfter(k, t, k', id, p, ph))
  {}

  lemma RunningIsNotQueued(k: Kernel, lost: set<Pid>, id: int)
    requires Settled(k, lost)
    ensures !QueuedFor(k, id, k.cur)
  {
    if IsLock(k, id) { CallerAwake(k, lost, id); }
  }

  /** Passed on, the lock is the head waiter's; everybody else stays where they were. */
  lemma PassedTells(k: Kernel, k': Kernel, t: Trap, id: int, p: Pid, ph: Phase)
    requires IsLock(k, id) && IsLock(k', id) && PassedOn(k.sync[id].lock, k'.sync[id].lock)
    requires OwnedBy(k, id, k.cur) && GivesUp(k, t, id, k.cur) && Told(k, id, p, ph)
    requires !QueuedFor(k, id, k.cur) && !QueuedFor(k', id, k'.cur)
    ensures Told(k', id, p, PhaseAfter(k, t, k', id, p, ph))
  {
    var ws := k.sync[id].lock.waiters;
    if ws != [] {
      assert ws == [ws[0]] + ws[1..];
      assert p in ws <==> p == ws[0] || p in ws[1..];
    }
  }

  // ---------------------------------------------------------------- objects come and go

  lemma {:induction false} BroadcastKeys(k: Kernel, c: int)
    requires Typed(k) && c in k.sync && k.sync[c].ACvar?
    ensures WakeEveryone(k, c).sync.Keys == k.sync.Keys && WakeEveryone(k, c).sync[c].ACvar?
    decreases |k.sync[c].cvar.waiters|
  {
    if k.sync[c].cvar.waiters != [] { BroadcastKeys(WakeFirst(k, c), c); }
  }

  lemma PipeKeys(g: Guard, k: Kernel, id: int, bytes: seq<Byte>)
    requires Typed(k) && id in k.sync && k.sync[id].APipe?
    ensures var k' := SyncReadPipe(g, k, id, bytes).0; k'.sync.Keys == k.sync.Keys && k'.sync[id].APipe?
    ensures var k' := SyncWritePipe(g, k, id, bytes).0; k'.sync.Keys == k.sync.Keys && k'.sync[id].APipe?
  {
    var p, f := k.sync[id].pipe, k.procs[k.cur];
    ReadCast(g, k, id, bytes);
    var (q, res) := Read(g, p, k.cur, |bytes|);
    if res.Got? { EffectsKeepSync(Put(Store(k, id, APipe(q)), k.cur, f.(reg0 := |res.bytes|)), News(p, q)); }
    WriteKeys(g, k, id, bytes);
  }

  lemma WriteKeys(g: Guard, k: Kernel, id: int, msg: seq<Byte>)
    requires Typed(k) && id in k.sync && k.sync[id].APipe?
    ensures var k' := SyncWritePipe(g, k, id, msg).0; k'.sync.Keys == k.sync.Keys && k'.sync[id].APipe?
  {
    var p, f := k.sync[id].pipe, k.procs[k.cur];
    WriteCast(g, k, id, msg);
    var q := Write(g, p, k.cur, msg);
    var f' := if WriteBlocks(p, msg) then f.(waitPipe := id, buf := msg, st := BLOCKED) else f.(reg0 := |msg|);
    EffectsKeepSync(Put(Store(k, id, APipe(q)), k.cur, f'), News(p, q));
  }

  /** No trap but an init makes an object. */
  lemma KeysStay(g: Guard, requeue: bool, k: Kernel, t: Trap)
    requires Typed(k) && Possible(k, t) && !t.SysInit?
    ensures Step(g, requeue, k, t).sync.Keys <= k.sync.Keys
  {
    match t
    case Tick => TickSync(requeue, k);
    case SysPipeRead(id, kbuf) => if id in k.sync { PipeKeys(g, k, id, kbuf); }
    case SysPipeWrite(id, msg) => if id in k.sync { PipeKeys(g, k, id, msg); }
    case SysBroadcast(c, _) => if c in k.sync { BroadcastKeys(k, c); }
    case SysLockAcquire(_) => LockKeys(g, requeue, k, t);
    case SysLockRelease(_) => LockKeys(g, requeue, k, t);
    case SysCvarWait(_, _) => LockKeys(g, requeue, k, t);
    case _ =>
  }

  lemma LockKeys(g: Guard, requeue: bool, k: Kernel, t: Trap)
    requires Typed(k) && Possible(k, t) && (t.SysLockAcquire? || t.SysLockRelease? || t.SysCvarWait?)
    ensures Step(g, requeue, k, t).sync.Keys <= k.sync.Keys
  {}

  /** What is no lock does not become one. */
  lemma NotALock(g: Guard, requeue: bool, k: Kernel, t: Trap, id: int)
    requires Typed(k) && Possible(k, t) && id in k.sync && !k.sync[id].ALock?
    ensures !IsLock(Step(g, requeue, k, t), id)
  {
    if !Names(t, id) {
      StepSpares(g, requeue, k, t, id);
    } else {
      match t
      case SysPipeRead(_, kbuf) => PipeKeys(g, k, id, kbuf);
      case SysPipeWrite(_, msg) => PipeKeys(g, k, id, msg);
      case SysBroadcast(_, _) => BroadcastKeys(k, id);
      case _ =>
    }
  }

  /** A lock that is new is nobody's. */
  lemma NewLock(g: Guard, requeue: bool, k: Kernel, t: Trap, id: int, p: Pid)
    requires Typed(k) && Possible(k, t) && !IsLock(k, id)
    ensures var k' := Step(g, requeue, k, t); !OwnedBy(k', id, p) && !QueuedFor(k', id, p)
  {
    if id in k.sync {
      NotALock(g, requeue, k, t, id);
    } else if t.SysInit? {
      InitAnswers(g, requeue, k, t.s);
    } else {
      KeysStay(g, requeue, k, t);
    }
  }

  // ---------------------------------------------------------------- every run

  lemma {:induction false} RunTells(g: Guard, requeue: bool, k: Kernel, lost: set<Pid>, ts: seq<Trap>, id: int,
                                    p: Pid, ph: Phase)
    requires Settled(k, lost) && PossibleRun(g, requeue, k, ts) && ObjectsKept(g, k) && Told(k, id, p, ph)
    ensures Told(Run(g, requeue, k, ts), id, p, PhaseOf(g, requeue, k, ts, id, p, ph))
    decreases |ts|
  {
    if ts != [] {
      var t, k' := ts[0], Step(g, requeue, k, ts[0]);
      assert id in k.sync ==> ObjectKept(g, k.sync[id]);
      StepTells(g, requeue, k, lost, t, id, p, ph);
      StepSettles(g, requeue, k, t, lost);
      HandleKept(g, requeue, k, t);
      RunTells(g, requeue, k', LostBy(requeue, k, t, lost), ts[1..], id, p, PhaseAfter(k, t, k', id, p, ph));
    }
  }

  /** In every run in which the lock is made, with either clock and either guard: no two processes are
      inside at once, and whoever is inside owns the lock. */
  lemma MutualExclusion(g: Guard, requeue: bool, k: Kernel, lost: set<Pid>, ts: seq<Trap>, id: int, p: Pid, q: Pid)
    requires Settled(k, lost) && PossibleRun(g, requeue, k, ts) && ObjectsKept(g, k) && id !in k.sync
    ensures var a, b := PhaseOf(g, requeue, k, ts, id, p, Outside), PhaseOf(g, requeue, k, ts, id, q, Outside);
            && (a.Inside? ==> OwnedBy(Run(g, requeue, k, ts), id, p))
            && (a.Inside? && b.Inside? ==> p == q)
  {
    RunTells(g, requeue, k, lost, ts, id, p, Outside);
    RunTells(g, requeue, k, lost, ts, id, q, Outside);
  }
}
