/** What every run of the kernel keeps of the pipes, locks and condition variables in its table. */
module KernelObjects {
  import opened Hardware
  import opened Pipes
  import opened PipeHistory
  import opened PipeTheorems
  import opened Locks
  import opened KernelModel
  import PW = PipeWakes
  import KR = KernelRuns
  import opened KernelDrains

  /** What is promised of one object. */
  ghost predicate ObjectKept(g: Guard, s: Sync) {
    match s
    case APipe(p) => Steady(p) && (g == WritersCount ==> WritersWaitOnFull(p) && InOrder(p))
    case ALock(l) => LockKept(l)
    case ACvar(c) => CvarKept(c)
  }

  ghost predicate ObjectsKept(g: Guard, k: Kernel) {
    forall id <- k.sync :: ObjectKept(g, k.sync[id])
  }

  lemma EmptyPipeKept(g: Guard)
    ensures ObjectKept(g, APipe(EMPTY))
  {
    EveryRunIsSteady(g, []);
    EveryIntendedRunIsInOrder([]);
  }

  lemma ReadKept(g: Guard, p: Pipe, pid: Pid, want: nat)
    requires ObjectKept(g, APipe(p))
    ensures Sound(p) && ObjectKept(g, APipe(Read(g, p, pid, want).0))
  {
    ReadKeeps(g, p, pid, want);
  }

  lemma WriteKept(g: Guard, p: Pipe, pid: Pid, msg: seq<Byte>)
    requires ObjectKept(g, APipe(p))
    ensures Sound(p) && ObjectKept(g, APipe(Write(g, p, pid, msg)))
  {
    WriteKeeps(g, p, pid, msg);
    FlattenSnoc(p.calls, msg);
  }

  lemma PassOnKept(g: Guard, k: Kernel, id: int)
    requires Typed(k) && ObjectsKept(g, k) && id in k.sync && k.sync[id].ALock? && k.sync[id].lock.owner.Some?
    ensures ObjectsKept(g, PassOn(k, id))
  {
    assert ObjectKept(g, k.sync[id]);
    HandOverKeeps(k.sync[id].lock);
  }

  lemma {:induction false} BroadcastKept(g: Guard, k: Kernel, id: int)
    requires Typed(k) && ObjectsKept(g, k) && id in k.sync && k.sync[id].ACvar?
    ensures ObjectsKept(g, WakeEveryone(k, id))
    decreases |k.sync[id].cvar.waiters|
  {
    var c := k.sync[id].cvar;
    if c.waiters != [] {
      assert ObjectKept(g, k.sync[id]);
      WakeOneKeeps(c);
      BroadcastKept(g, WakeFirst(k, id), id);
    }
  }

  lemma PipeReadKept(g: Guard, k: Kernel, id: int, kbuf: seq<Byte>)
    requires Typed(k) && ObjectsKept(g, k) && PipeOrNone(k, id)
    ensures ObjectsKept(g, SyncReadPipe(g, k, id, kbuf).0)
  {
    if id in k.sync {
      var p := k.sync[id].pipe;
      assert ObjectKept(g, k.sync[id]);
      ReadCast(g, k, id, kbuf);
      ReadKept(g, p, k.cur, |kbuf|);
      var (q, res) := Read(g, p, k.cur, |kbuf|);
      if res.Got? {
        EffectsKeepSync(Put(Store(k, id, APipe(q)), k.cur, k.procs[k.cur].(reg0 := |res.bytes|)), PW.News(p, q));
      }
    }
  }

  lemma PipeWriteKept(g: Guard, k: Kernel, id: int, msg: seq<Byte>)
    requires Typed(k) && ObjectsKept(g, k) && PipeOrNone(k, id)
    ensures ObjectsKept(g, SyncWritePipe(g, k, id, msg).0)
  {
    if id in k.sync {
      var p, f := k.sync[id].pipe, k.procs[k.cur];
      assert ObjectKept(g, k.sync[id]);
      WriteCast(g, k, id, msg);
      WriteKept(g, p, k.cur, msg);
      var q := Write(g, p, k.cur, msg);
      var f' := if WriteBlocks(p, msg) then f.(waitPipe := id, buf := msg, st := BLOCKED) else f.(reg0 := |msg|);
      EffectsKeepSync(Put(Store(k, id, APipe(q)), k.cur, f'), PW.News(p, q));
    }
  }

  lemma AcquireKept(g: Guard, k: Kernel, id: int)
    requires Typed(k) && ObjectsKept(g, k) && LockOrNone(k, id)
    ensures ObjectsKept(g, SyncLockAcquire(k, id).0)
  {
    if id in k.sync {
      assert ObjectKept(g, k.sync[id]);
      AcquireKeeps(k.sync[id].lock, k.cur);
    }
  }

  lemma CvarWaitKept(g: Guard, k: Kernel, cvar: int, lock: int)
    requires Typed(k) && ObjectsKept(g, k) && CvarOrNone(k, cvar) && LockOrNone(k, lock)
    ensures ObjectsKept(g, SyncCvarWait(k, cvar, lock).0)
  {
    if cvar in k.sync && lock in k.sync && k.sync[lock].lock.owner == Some(k.cur) {
      PassOnKept(g, k, lock);
      assert ObjectKept(g, PassOn(k, lock).sync[cvar]);
      AwaitKeeps(PassOn(k, lock).sync[cvar].cvar, k.cur);
    }
  }

  lemma TickSync(requeue: bool, k: Kernel)
    requires Typed(k)
    ensures Clock(requeue, k).0.sync == k.sync
  {
    TickAllSync(k, k.delayed);
  }

  lemma {:induction false} TickAllSync(k: Kernel, ps: seq<Pid>)
    requires Typed(k) && forall p <- ps :: p in k.procs
    ensures TickAll(k, ps).sync == k.sync
    decreases |ps|
  {
    if ps != [] {
      assert ps[0] in ps;
      TickAllSync(TickOne(k, ps[0]), ps[1..]);
    }
  }

  lemma HandleKept(g: Guard, requeue: bool, k: Kernel, t: Trap)
    requires Typed(k) && Possible(k, t) && ObjectsKept(g, k)
    ensures ObjectsKept(g, Handle(g, requeue, k, t).0)
  {
    match t
    case Tick => TickSync(requeue, k);
    case SysSignal(id) =>
      if id in k.sync && k.sync[id].cvar.waiters != [] {
        assert ObjectKept(g, k.sync[id]);
        WakeOneKeeps(k.sync[id].cvar);
      }
    case SysBroadcast(id, noise) => if id in k.sync { BroadcastKept(g, k, id); }
    case SysInit(s) => EmptyPipeKept(g);
    case SysPipeRead(id, kbuf) => PipeReadKept(g, k, id, kbuf);
    case SysPipeWrite(id, msg) => PipeWriteKept(g, k, id, msg);
    case SysLockAcquire(id) => AcquireKept(g, k, id);
    case SysLockRelease(id) => if id in k.sync && k.sync[id].lock.owner == Some(k.cur) { PassOnKept(g, k, id); }
    case SysCvarWait(c, l) => CvarWaitKept(g, k, c, l);
    case _ =>
  }

  /** In every run of the kernel every pipe keeps its books, and with the guard that was meant its
      messages in order; every lock is granted in the order it was asked for; and every condition
      variable wakes its waiters in the order they came. */
  lemma {:induction false} EveryRunKeepsObjects(g: Guard, requeue: bool, k: Kernel, ts: seq<Trap>)
    requires Typed(k) && KR.PossibleRun(g, requeue, k, ts) && ObjectsKept(g, k)
    ensures ObjectsKept(g, KR.Run(g, requeue, k, ts))
    decreases |ts|
  {
    if ts != [] {
      HandleKept(g, requeue, k, ts[0]);
      EveryRunKeepsObjects(g, requeue, KernelModel.Step(g, requeue, k, ts[0]), ts[1..]);
    }
  }
}
