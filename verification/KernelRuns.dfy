/** Whole runs of the kernel: no process is ever on two queues or on none. */
module KernelRuns {
  import opened Hardware
  import opened Pipes
  import opened PipeWakes
  import opened Locks
  import opened KernelModel
  import opened KernelInvariant
  import opened KernelSteps
  import opened SyncSteps
  import opened DelaySweep

  /** The processes lost after a trap: as written, the clock trap adds the process it preempts. */
  ghost function LostBy(requeue: bool, k: Kernel, t: Trap, lost: set<Pid>): set<Pid>
    requires Typed(k)
  {
    if t == Tick && !requeue && k.cur != k.idle && Preempts(Charged(k)) then lost + {k.cur} else lost
  }

  lemma LockHandled(g: Guard, requeue: bool, k: Kernel, t: Trap, lost: set<Pid>)
    requires Settled(k, lost) && Possible(k, t) && (t.SysLockAcquire? || t.SysLockRelease? || t.SysCvarWait?)
    ensures var (k', switch) := Handle(g, requeue, k, t);
            if switch then Parked(k', lost) else Settled(k', lost)
  {
    match t
    case SysLockAcquire(id) =>
      AcquireFiles(k, lost, id);
      var r := SyncLockAcquire(k, id);
      if r.1 != PCB_BLOCKED { Reframed(r.0, lost, r.1); }
    case SysLockRelease(id) =>
      var r := SyncLockRelease(k, id);
      if id in k.sync && k.sync[id].lock.owner == Some(k.cur) { PassOnFiles(k, lost, id); }
      Reframed(r.0, lost, r.1);
    case SysCvarWait(c, l) =>
      CvarWaitFiles(k, lost, c, l);
      var r := SyncCvarWait(k, c, l);
      if r.1 == ERROR { Reframed(r.0, lost, r.1); }
  }

  lemma SyncHandled(g: Guard, requeue: bool, k: Kernel, t: Trap, lost: set<Pid>)
    requires Settled(k, lost) && Possible(k, t)
             && !(t.Tick? || t.SysDelay? || t.SysFork? || t.SysPipeRead? || t.SysPipeWrite?)
    ensures var (k', switch) := Handle(g, requeue, k, t);
            if switch then Parked(k', lost) else Settled(k', lost)
  {
    match t
    case SysLockAcquire(_) => LockHandled(g, requeue, k, t, lost);
    case SysLockRelease(_) => LockHandled(g, requeue, k, t, lost);
    case SysCvarWait(_, _) => LockHandled(g, requeue, k, t, lost);
    case SysSignal(id) =>
      var r := SyncCvarSignal(k, id);
      if id in k.sync && k.sync[id].cvar.waiters != [] { WakeFirstFiles(k, lost, id); }
      Reframed(r.0, lost, r.1);
    case SysBroadcast(id, noise) =>
      var r := SyncCvarBroadcast(k, id, noise);
      if id in k.sync { WakeEveryoneFiles(k, lost, id); }
      Reframed(r.0, lost, r.1);
    case SysInit(s) =>
      var r := SyncInit(k, s);
      if r.1 != ERROR { NewObjectFiles(k, lost, FreeId(k, 0), s); }
      Reframed(r.0, lost, r.1);
    case SysReclaim(id) =>
      var r := KernelModel.SyncReclaim(k, id);
      if id in k.sync { ReclaimFiles(k, lost, id); }
      Reframed(r.0, lost, r.1);
  }

  lemma WriteHandled(g: Guard, requeue: bool, k: Kernel, id: int, msg: seq<Byte>, lost: set<Pid>)
    requires Settled(k, lost) && Possible(k, SysPipeWrite(id, msg))
    ensures var (k', switch) := Handle(g, requeue, k, SysPipeWrite(id, msg));
            if switch then Parked(k', lost) else Settled(k', lost)
  {
    if id in k.sync {
      if WriteBlocks(k.sync[id].pipe, msg) {
        WriteBlockedFiles(g, k, lost, id, msg);
      } else {
        WriteFitsFiles(g, k, lost, id, msg);
      }
    }
  }

  lemma Handled(g: Guard, requeue: bool, k: Kernel, t: Trap, lost: set<Pid>)
    requires Settled(k, lost) && Possible(k, t)
    ensures var (k', switch) := Handle(g, requeue, k, t);
            if switch then Parked(k', LostBy(requeue, k, t, lost)) else Settled(k', LostBy(requeue, k, t, lost))
  {
    match t
    case Tick => ClockKeeps(requeue, k, lost);
    case SysDelay(ticks) => DelayKeeps(k, lost, ticks);
    case SysFork(child) => ForkKeeps(k, lost, child);
    case SysPipeRead(id, kbuf) => ReadFiles(g, k, lost, id, kbuf);
    case SysPipeWrite(id, msg) => WriteHandled(g, requeue, k, id, msg, lost);
    case _ => SyncHandled(g, requeue, k, t, lost);
  }

  lemma StepSettles(g: Guard, requeue: bool, k: Kernel, t: Trap, lost: set<Pid>)
    requires Settled(k, lost) && Possible(k, t)
    ensures Settled(Step(g, requeue, k, t), LostBy(requeue, k, t, lost))
  {
    Handled(g, requeue, k, t, lost);
    var (k', switch) := Handle(g, requeue, k, t);
    if switch {
      ScheduleSettles(k', LostBy(requeue, k, t, lost));
    }
  }

  // ---------------------------------------------------------------- runs

  predicate PossibleRun(g: Guard, requeue: bool, k: Kernel, ts: seq<Trap>)
    requires Typed(k)
    decreases |ts|
  {
    ts == [] || (Possible(k, ts[0]) && PossibleRun(g, requeue, Step(g, requeue, k, ts[0]), ts[1..]))
  }

  function Run(g: Guard, requeue: bool, k: Kernel, ts: seq<Trap>): (k': Kernel)
    requires Typed(k) && PossibleRun(g, requeue, k, ts)
    ensures Typed(k')
    decreases |ts|
  {
    if ts == [] then k else Run(g, requeue, Step(g, requeue, k, ts[0]), ts[1..])
  }

  /** The state KernelStart leaves: idle runs, init is ready, nothing else exists (kernel.c:18-101). */
  function Boot(idle: Pid, init: Pid, frame: int): (k: Kernel)
    requires idle != init
    ensures Typed(k)
  {
    var runs := Proc(RUNNING, 0, 1, 0, frame, -1, -1, -1, []);
    var waits := Proc(READY, 0, DEFAULT_TIMESLICE, 0, frame, -1, -1, -1, []);
    Kernel(map[idle := runs, init := waits], idle, idle, [init], [], map[], frame)
  }

  lemma BootSettled(idle: Pid, init: Pid, frame: int)
    requires idle != init
    ensures Settled(Boot(idle, init, frame), {})
  {}

  /** With the preempted process put back, every run keeps every process on exactly the queue its
      tag says, and loses none. */
  lemma {:induction false} EveryRunSettles(g: Guard, k: Kernel, ts: seq<Trap>)
    requires Settled(k, {}) && PossibleRun(g, true, k, ts)
    ensures Settled(Run(g, true, k, ts), {})
    ensures k.procs.Keys <= Run(g, true, k, ts).procs.Keys
    decreases |ts|
  {
    if ts != [] {
      StepSettles(g, true, k, ts[0], {});
      StepKeepsProcesses(g, true, k, ts[0]);
      EveryRunSettles(g, Step(g, true, k, ts[0]), ts[1..]);
    }
  }

  /** A trap makes no process and drops none, but for the child of a fork. */
  lemma StepKeepsProcesses(g: Guard, requeue: bool, k: Kernel, t: Trap)
    requires Typed(k) && Possible(k, t)
    ensures Step(g, requeue, k, t).procs.Keys == k.procs.Keys + if t.SysFork? then {t.child} else {}
    ensures Step(g, requeue, k, t).idle == k.idle
  {}

  // ---------------------------------------------------------------- exactly one queue

  /** How often p occurs on the wait lists of the objects with ids below n. */
  ghost function Waiting(k: Kernel, p: Pid, n: nat): nat {
    if n == 0 then 0
    else Waiting(k, p, n - 1) + if n - 1 in k.sync then multiset(WaitList(k.sync[n - 1]))[p] else 0
  }

  /** How often the node of p is linked anywhere, counting current_process as one place. */
  ghost function Occurrences(k: Kernel, p: Pid): nat {
    (if p == k.cur then 1 else 0) + multiset(k.ready)[p] + multiset(k.delayed)[p] + Waiting(k, p, MAX_SYNCS)
  }

  lemma Once<T>(s: seq<T>, x: T)
    requires multiset(s)[x] <= 1
    ensures multiset(s)[x] == if x in s then 1 else 0
  {}

  lemma {:induction false} WaitsOnce(k: Kernel, lost: set<Pid>, p: Pid, n: nat)
    requires Filed(k, lost) && p in k.procs && p !in lost && n <= MAX_SYNCS
    ensures Waiting(k, p, n) == if k.procs[p].st == BLOCKED && SiteOf(k.procs[p]).id < n then 1 else 0
  {
    assert Placed(k, p);
    if k.procs[p].st == BLOCKED {
      assert QueueOk(k, lost, SiteOf(k.procs[p]).id);
    }
    if n > 0 {
      WaitsOnce(k, lost, p, n - 1);
      if n - 1 in k.sync {
        assert QueueOk(k, lost, n - 1);
        assert multiset(WaitList(k.sync[n - 1]))[p] <= 1;
        Once(WaitList(k.sync[n - 1]), p);
      }
    }
  }

  /** Every process but idle is in exactly one place: running, or linked once on one queue.  Idle
      runs or is nowhere. */
  lemma ExactlyOnePlace(k: Kernel, p: Pid)
    requires Settled(k, {}) && p in k.procs
    ensures Occurrences(k, p) == if p != k.idle || p == k.cur then 1 else 0
    ensures (k.procs[p].st == READY <==> p in k.ready) && (k.procs[p].st == DELAYED <==> p in k.delayed)
    ensures k.procs[p].st == RUNNING <==> p == k.cur
    ensures k.procs[p].st == BLOCKED <==> exists id <- k.sync :: p in WaitList(k.sync[id])
  {
    assert Placed(k, p);
    WaitsOnce(k, {}, p, MAX_SYNCS);
    if k.procs[p].st == BLOCKED { assert QueueOk(k, {}, SiteOf(k.procs[p]).id); }
    assert multiset(k.ready)[p] <= 1 && multiset(k.delayed)[p] <= 1;
    Once(k.ready, p);
    Once(k.delayed, p);
    forall id <- k.sync
      ensures p in WaitList(k.sync[id]) ==> k.procs[p].st == BLOCKED
    {
      assert QueueOk(k, {}, id);
    }
  }

  // ---------------------------------------------------------------- the clock trap as written

  /** Exactly when the clock trap as written loses the running process: when it preempts a process
      other than idle. */
  lemma ClockLosesExactly(g: Guard, k: Kernel)
    requires Settled(k, {})
    ensures Settled(Step(g, false, k, Tick), {}) <==> !(k.cur != k.idle && Preempts(Charged(k)))
  {
    StepSettles(g, false, k, Tick, {});
    if k.cur != k.idle && Preempts(Charged(k)) {
      assert k.cur in {} + {k.cur};
      var k' := Step(g, false, k, Tick);
      assert k'.procs[k.cur].st == DEFAULT && k.cur != k'.idle;
      assert !Placed(k', k.cur);
    }
  }

  /** And it stays lost: nothing as written ever puts it on a queue or runs it again. */
  lemma {:induction false} LostForever(g: Guard, k: Kernel, lost: set<Pid>, ts: seq<Trap>) returns (lost': set<Pid>)
    requires Settled(k, lost) && PossibleRun(g, false, k, ts)
    ensures lost <= lost' && Settled(Run(g, false, k, ts), lost')
    ensures forall p <- lost :: var k' := Run(g, false, k, ts);
              p != k'.cur && p !in k'.ready && p !in k'.delayed && forall id <- k'.sync :: p !in WaitList(k'.sync[id])
    decreases |ts|
  {
    if ts == [] {
      lost' := lost;
      forall p <- lost, id <- k.sync
        ensures p !in WaitList(k.sync[id])
      {
        assert QueueOk(k, lost, id);
      }
    } else {
      StepSettles(g, false, k, ts[0], lost);
      lost' := LostForever(g, Step(g, false, k, ts[0]), LostBy(false, k, ts[0], lost), ts[1..]);
    }
  }

  lemma LostIsNowhere(k: Kernel, lost: set<Pid>, p: Pid, n: nat)
    requires Settled(k, lost) && p in lost && n <= MAX_SYNCS
    ensures Waiting(k, p, n) == 0 && multiset(k.ready)[p] == 0 && multiset(k.delayed)[p] == 0 && p != k.cur
  {
    if n > 0 {
      LostIsNowhere(k, lost, p, n - 1);
      if n - 1 in k.sync { assert QueueOk(k, lost, n - 1); }
    }
  }
}
