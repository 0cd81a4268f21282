/** With which frame a process returns that was waiting for something else than a pipe: with the one
    it was scheduled away with.  A lock acquire that blocks therefore returns with the lock's id. */
module KernelReturns {
  import opened Hardware
  import opened Pipes
  import opened PipeWakes
  import opened Locks
  import opened KernelModel
  import opened KernelInvariant
  import opened KernelSteps
  import opened SyncSteps
  import opened DelaySweep
  import opened KernelRuns
  import opened KernelDrains
  import opened KernelProgress
  import opened KernelOutcomes
  import opened KernelAnswers
  import KO = KernelObjects

  /** x is asleep at no pipe. */
  ghost predicate AtNoPipe(k: Kernel, x: Pid) {
    forall id <- k.sync :: k.sync[id].APipe? ==> x !in Sleepers(k.sync[id].pipe)
  }

  /** x does not run, has v in its registers, and is asleep at no pipe. */
  ghost predicate AtRest(k: Kernel, x: Pid, v: int) {
    x in k.procs && x != k.cur && k.procs[x].reg0 == v && AtNoPipe(k, x)
  }

  lemma NotAdded(p: Pipe, q: Pipe, added: multiset<Pid>, x: Pid)
    requires p.log <= q.log && x !in Sleepers(p) && x !in added
    requires multiset(Sleepers(p)) + added == multiset(WokenPids(News(p, q))) + multiset(Sleepers(q))
    ensures x !in Sleepers(q)
  {
    assert multiset(Sleepers(p))[x] == 0 && added[x] == 0;
    assert (multiset(Sleepers(p)) + added)[x] == 0;
    assert multiset(Sleepers(q))[x] == 0;
  }

  lemma ReadRests(g: Guard, k: Kernel, id: int, kbuf: seq<Byte>, x: Pid, v: int)
    requires Typed(k) && PipeOrNone(k, id) && AtRest(k, x, v)
    ensures AtRest(SyncReadPipe(g, k, id, kbuf).0, x, v)
  {
    if id in k.sync {
      var p := k.sync[id].pipe;
      var (q, res) := Read(g, p, k.cur, |kbuf|);
      ReadSpares(g, k, id, kbuf, x);
      ReadAccounted(g, p, k.cur, |kbuf|);
      NotAdded(p, q, if res == ReadBlocked then multiset{k.cur} else multiset{}, x);
      ReadCast(g, k, id, kbuf);
      if res.Got? {
        EffectsKeepSync(Put(Store(k, id, APipe(q)), k.cur, k.procs[k.cur].(reg0 := |res.bytes|)), News(p, q));
      }
    }
  }

  lemma WriteRests(g: Guard, k: Kernel, id: int, msg: seq<Byte>, x: Pid, v: int)
    requires Typed(k) && PipeOrNone(k, id) && AtRest(k, x, v)
    ensures AtRest(SyncWritePipe(g, k, id, msg).0, x, v)
  {
    if id in k.sync {
      var p, f := k.sync[id].pipe, k.procs[k.cur];
      var q := Write(g, p, k.cur, msg);
      WriteSpares(g, k, id, msg, x);
      WriteAccounted(g, p, k.cur, msg);
      NotAdded(p, q, if WriteBlocks(p, msg) then multiset{k.cur} else multiset{}, x);
      WriteCast(g, k, id, msg);
      var f' := if WriteBlocks(p, msg) then f.(waitPipe := id, buf := msg, st := BLOCKED) else f.(reg0 := |msg|);
      EffectsKeepSync(Put(Store(k, id, APipe(q)), k.cur, f'), News(p, q));
    }
  }

  lemma PassOnRests(k: Kernel, id: int, x: Pid, v: int)
    requires Typed(k) && id in k.sync && k.sync[id].ALock? && AtRest(k, x, v)
    ensures AtRest(PassOn(k, id), x, v)
  {}

  lemma CvarWaitRests(k: Kernel, cvar: int, lock: int, x: Pid, v: int)
    requires Typed(k) && CvarOrNone(k, cvar) && LockOrNone(k, lock) && AtRest(k, x, v)
    ensures AtRest(SyncCvarWait(k, cvar, lock).0, x, v)
  {
    if cvar in k.sync && lock in k.sync { PassOnRests(k, lock, x, v); }
  }

  lemma WakeFirstRests(k: Kernel, id: int, x: Pid, v: int)
    requires Typed(k) && id in k.sync && k.sync[id].ACvar? && k.sync[id].cvar.waiters != [] && AtRest(k, x, v)
    ensures AtRest(WakeFirst(k, id), x, v)
  {}

  lemma {:induction false} WakeEveryoneRests(k: Kernel, id: int, x: Pid, v: int)
    requires Typed(k) && id in k.sync && k.sync[id].ACvar? && AtRest(k, x, v)
    ensures AtRest(WakeEveryone(k, id), x, v)
    decreases |k.sync[id].cvar.waiters|
  {
    if k.sync[id].cvar.waiters != [] {
      WakeFirstRests(k, id, x, v);
      WakeEveryoneRests(WakeFirst(k, id), id, x, v);
    }
  }

  lemma TickRests(requeue: bool, k: Kernel, lost: set<Pid>, x: Pid, v: int)
    requires Settled(k, lost) && AtRest(k, x, v)
    ensures AtRest(Clock(requeue, k).0, x, v)
  {
    SweepIsPartition(k, lost);
    PreemptSpares(requeue, Charged(k), x);
    KO.TickSync(requeue, k);
  }

  lemma DelayRests(k: Kernel, ticks: int, x: Pid, v: int)
    requires Typed(k) && AtRest(k, x, v)
    ensures AtRest(Delay(k, ticks).0, x, v)
  {}

  lemma LockRests(k: Kernel, id: int, x: Pid, v: int)
    requires Typed(k) && LockOrNone(k, id) && AtRest(k, x, v)
    ensures AtRest(SyncLockAcquire(k, id).0, x, v) && AtRest(SyncLockRelease(k, id).0, x, v)
  {
    if id in k.sync { PassOnRests(k, id, x, v); }
  }

  lemma CvarRests(k: Kernel, id: int, noise: int, x: Pid, v: int)
    requires Typed(k) && CvarOrNone(k, id) && AtRest(k, x, v)
    ensures AtRest(SyncCvarSignal(k, id).0, x, v) && AtRest(SyncCvarBroadcast(k, id, noise).0, x, v)
  {
    if id in k.sync {
      if k.sync[id].cvar.waiters != [] { WakeFirstRests(k, id, x, v); }
      WakeEveryoneRests(k, id, x, v);
    }
  }

  lemma InitRests(k: Kernel, s: Sync, x: Pid, v: int)
    requires Typed(k) && (s == APipe(EMPTY) || s == ALock(FREE) || s == ACvar(QUIET)) && AtRest(k, x, v)
    ensures AtRest(SyncInit(k, s).0, x, v)
  {}

  lemma ReclaimRests(k: Kernel, id: int, x: Pid, v: int)
    requires Typed(k) && AtRest(k, x, v)
    ensures AtRest(KernelModel.SyncReclaim(k, id).0, x, v)
  {}

  lemma ForkRests(k: Kernel, child: Pid, x: Pid, v: int)
    requires Typed(k) && child !in k.procs && AtRest(k, x, v)
    ensures AtRest(Fork(k, child), x, v)
  {}

  lemma HandleRests(g: Guard, requeue: bool, k: Kernel, lost: set<Pid>, t: Trap, x: Pid, v: int)
    requires Settled(k, lost) && Possible(k, t) && AtRest(k, x, v)
    ensures AtRest(Handle(g, requeue, k, t).0, x, v)
  {
    match t
    case Tick => TickRests(requeue, k, lost, x, v);
    case SysDelay(ticks) => DelayRests(k, ticks, x, v);
    case SysPipeRead(id, kbuf) => ReadRests(g, k, id, kbuf, x, v);
    case SysPipeWrite(id, msg) => WriteRests(g, k, id, msg, x, v);
    case SysLockAcquire(id) => LockRests(k, id, x, v);
    case SysLockRelease(id) => LockRests(k, id, x, v);
    case SysCvarWait(c, l) => CvarWaitRests(k, c, l, x, v);
    case SysSignal(id) => CvarRests(k, id, 0, x, v);
    case SysBroadcast(id, noise) => CvarRests(k, id, noise, x, v);
    case SysInit(s) => InitRests(k, s, x, v);
    case SysReclaim(id) => ReclaimRests(k, id, x, v);
    case SysFork(child) => ForkRests(k, child, x, v);
  }

  lemma ScheduleRests(k: Kernel, x: Pid, v: int)
    requires Typed(k) && AtRest(k, x, v)
    ensures if Schedule(k).cur == x then Schedule(k).frame == v else AtRest(Schedule(k), x, v)
  {
    assert k.ready != [] ==> k.ready[0] in k.ready;
  }

  lemma {:induction false} RestReturns(g: Guard, requeue: bool, k: Kernel, lost: set<Pid>, x: Pid, v: int,
                                       ts: seq<Trap>)
    requires Settled(k, lost) && PossibleRun(g, requeue, k, ts) && RunsAgain(g, requeue, k, ts, x)
    requires if k.cur == x then k.frame == v else AtRest(k, x, v)
    ensures Run(g, requeue, k, ts).frame == v
    decreases |ts|
  {
    if ts != [] {
      HandleRests(g, requeue, k, lost, ts[0], x, v);
      StepSettles(g, requeue, k, ts[0], lost);
      var (k1, switch) := Handle(g, requeue, k, ts[0]);
      if switch { ScheduleRests(k1, x, v); }
      RestReturns(g, requeue, Step(g, requeue, k, ts[0]), LostBy(requeue, k, ts[0], lost), x, v, ts[1..]);
    }
  }

  /** The running process is asleep at no pipe, so what schedule saves for it stays. */
  lemma CallerRests(k: Kernel, lost: set<Pid>)
    requires Settled(k, lost)
    ensures AtNoPipe(k, k.cur)
  {
    forall id <- k.sync | k.sync[id].APipe?
      ensures k.cur !in Sleepers(k.sync[id].pipe)
    {
      CallerAwake(k, lost, id);
    }
  }

  /** The lock is free, or not: what a lock acquire returns with, over any run up to its return.  Its
      frame says SUCCESS exactly when the lock was free or the frame held that number already. */
  lemma AcquireReturnsWith(g: Guard, requeue: bool, k: Kernel, lost: set<Pid>, id: int, ts: seq<Trap>)
    requires Settled(k, lost) && Possible(k, SysLockAcquire(id)) && id in k.sync
    requires var k' := Step(g, requeue, k, SysLockAcquire(id));
             PossibleRun(g, requeue, k', ts) && RunsAgain(g, requeue, k', ts, k.cur)
    ensures var end := Run(g, requeue, Step(g, requeue, k, SysLockAcquire(id)), ts);
            && end.frame == (if k.sync[id].lock.locked then k.frame else SUCCESS)
            && (end.frame == SUCCESS <==> !k.sync[id].lock.locked || k.frame == SUCCESS)
  {
    AcquireStepIs(g, requeue, k, id);
    if k.sync[id].lock.locked {
      CallerRests(k, lost);
      LockedRests(k, id);
      StepSettles(g, requeue, k, SysLockAcquire(id), lost);
      RestReturns(g, requeue, Step(g, requeue, k, SysLockAcquire(id)), lost, k.cur, k.frame, ts);
    } else {
      assert ts == [];
    }
  }

  lemma AcquireStepIs(g: Guard, requeue: bool, k: Kernel, id: int)
    requires Typed(k) && Possible(k, SysLockAcquire(id)) && id in k.sync
    ensures var k' := Step(g, requeue, k, SysLockAcquire(id));
            if k.sync[id].lock.locked then k' == Schedule(SyncLockAcquire(k, id).0)
                else k'.cur == k.cur && k'.frame == SUCCESS
  {}

  /** Who has to wait for a lock rests with the frame it came with. */
  lemma LockedRests(k: Kernel, id: int)
    requires Typed(k) && id in k.sync && k.sync[id].ALock? && k.sync[id].lock.locked && AtNoPipe(k, k.cur)
    ensures var k' := Schedule(SyncLockAcquire(k, id).0);
            if k'.cur == k.cur then k'.frame == k.frame else AtRest(k', k.cur, k.frame)
  {
    SavedRests(SyncLockAcquire(k, id).0);
  }

  /** Who is scheduled away is at rest with its frame. */
  lemma SavedRests(k: Kernel)
    requires Typed(k) && AtNoPipe(k, k.cur)
    ensures if Schedule(k).cur == k.cur then Schedule(k).frame == k.frame else AtRest(Schedule(k), k.cur, k.frame)
  {
    assert k.ready != [] ==> k.ready[0] in k.ready;
  }

  /** A process that delays returns with 0. */
  lemma DelayReturnsWith(g: Guard, requeue: bool, k: Kernel, lost: set<Pid>, ticks: int, ts: seq<Trap>)
    requires Settled(k, lost) && Possible(k, SysDelay(ticks)) && ticks >= 0
    requires var k' := Step(g, requeue, k, SysDelay(ticks));
             PossibleRun(g, requeue, k', ts) && RunsAgain(g, requeue, k', ts, k.cur)
    ensures Run(g, requeue, Step(g, requeue, k, SysDelay(ticks)), ts).frame == 0
  {
    if ticks > 0 {
      var (k1, _) := Delay(k, ticks);
      CallerRests(k, lost);
      StepSettles(g, requeue, k, SysDelay(ticks), lost);
      SavedRests(k1);
      RestReturns(g, requeue, Schedule(k1), lost, k.cur, 0, ts);
    } else {
      assert ts == [];
    }
  }

  /** A process the clock interrupts goes on with the frame it was interrupted with, at once or over any
      run up to then (traps.c:40-70, syscalls.c:432-441). */
  lemma TickReturnsWith(g: Guard, requeue: bool, k: Kernel, lost: set<Pid>, ts: seq<Trap>)
    requires Settled(k, lost)
    requires var k' := Step(g, requeue, k, Tick);
             PossibleRun(g, requeue, k', ts) && RunsAgain(g, requeue, k', ts, k.cur)
    ensures Run(g, requeue, Step(g, requeue, k, Tick), ts).frame == k.frame
  {
    CallerRests(k, lost);
    KO.TickSync(requeue, k);
    StepSettles(g, requeue, k, Tick, lost);
    TickSaves(g, requeue, k);
    RestReturns(g, requeue, Step(g, requeue, k, Tick), LostBy(requeue, k, Tick, lost), k.cur, k.frame, ts);
  }

  lemma TickSaves(g: Guard, requeue: bool, k: Kernel)
    requires Typed(k) && AtNoPipe(k, k.cur) && Clock(requeue, k).0.sync == k.sync
    ensures var k' := Step(g, requeue, k, Tick);
            if k'.cur == k.cur then k'.frame == k.frame else AtRest(k', k.cur, k.frame)
  {
    var (k1, switch) := Clock(requeue, k);
    TickKeepsFrame(requeue, k);
    if switch { SavedRests(k1); }
  }

  lemma TickKeepsFrame(requeue: bool, k: Kernel)
    requires Typed(k)
    ensures Clock(requeue, k).0.frame == k.frame && Clock(requeue, k).0.cur == k.cur
  {
    SweepKeepsFrame(k, k.delayed);
  }

  lemma {:induction false} SweepKeepsFrame(k: Kernel, ps: seq<Pid>)
    requires Typed(k) && forall p <- ps :: p in k.procs
    ensures TickAll(k, ps).frame == k.frame
    decreases |ps|
  {
    if ps != [] {
      assert ps[0] in ps;
      SweepKeepsFrame(TickOne(k, ps[0]), ps[1..]);
    }
  }

  /** A child runs first with the frame its parent forked with, over any run up to then, and the parent
      has returned with the child's pid (syscalls.c:57-70). */
  lemma ForkReturnsWith(g: Guard, requeue: bool, k: Kernel, lost: set<Pid>, child: Pid, ts: seq<Trap>)
    requires Settled(k, lost) && Possible(k, SysFork(child))
    requires var k' := Step(g, requeue, k, SysFork(child));
             PossibleRun(g, requeue, k', ts) && RunsAgain(g, requeue, k', ts, child)
    ensures var k' := Step(g, requeue, k, SysFork(child));
            k'.cur == k.cur && k'.frame == child && Run(g, requeue, k', ts).cur == child
                && Run(g, requeue, k', ts).frame == k.frame
  {
    var k' := Step(g, requeue, k, SysFork(child));
    ForkAnswers(g, requeue, k, child);
    StepSettles(g, requeue, k, SysFork(child), lost);
    PaidBack(g, requeue, k', lost, child, ts);
    RunsAgainEnds(g, requeue, k', ts, child);
  }

  lemma {:induction false} RunsAgainEnds(g: Guard, requeue: bool, k: Kernel, ts: seq<Trap>, x: Pid)
    requires Typed(k) && PossibleRun(g, requeue, k, ts) && RunsAgain(g, requeue, k, ts, x)
    ensures Run(g, requeue, k, ts).cur == x
    decreases |ts|
  {
    if ts != [] { RunsAgainEnds(g, requeue, Step(g, requeue, k, ts[0]), ts[1..], x); }
  }
}
