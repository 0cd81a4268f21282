/** The kernel on values: processes, the queues they can be on, the synchronization objects, and
    what one trap does to them.  A trap, with the schedule it may end in, is one atomic step. */
module KernelModel {
  import opened Hardware
  import opened Pipes
  import opened PipeWakes
  import opened Locks

  datatype PState = DEFAULT | RUNNING | READY | DELAYED | BLOCKED

  /** The fields of a PCB (pcb.h:33-88) the queues and the sync calls touch.  `reg0` is
      user_context.regs[0]; `buf` is what pipe_buffer points to, nothing when it is NULL. */
  datatype Proc = Proc(
    st: PState,
    runTime: nat,
    slice: nat,
    ticks: int,
    reg0: int,
    waitPipe: int,
    waitLock: int,
    waitCvar: int,
    buf: seq<Byte>)

  datatype Sync = APipe(pipe: Pipe) | ALock(lock: Lock) | ACvar(cvar: Cvar)

  /** `frame` is regs[0] of the user context the trap came with. */
  datatype Kernel = Kernel(
    procs: map<Pid, Proc>,
    cur: Pid,
    idle: Pid,
    ready: seq<Pid>,
    delayed: seq<Pid>,
    sync: map<int, Sync>,
    frame: int)

  const PCB_BLOCKED := 30
  const DEFAULT_TIMESLICE := 4
  const MAX_SYNCS := 128

  /** The model's types: the current and idle processes exist. */
  predicate Typed(k: Kernel) {
    && k.cur in k.procs && k.idle in k.procs
    && (forall p <- k.ready :: p in k.procs)
    && (forall p <- k.delayed :: p in k.procs)
    && forall i <- k.sync :: SyncTyped(k, k.sync[i])
  }

  predicate SyncTyped(k: Kernel, s: Sync) {
    && (forall p <- WaitList(s) :: p in k.procs)
    && (s.APipe? ==> Sound(s.pipe))
  }

  /** Everyone queued at a sync object. */
  function WaitList(s: Sync): seq<Pid> {
    match s
    case APipe(p) => Sleepers(p)
    case ALock(l) => l.waiters
    case ACvar(c) => c.waiters
  }

  function Put(k: Kernel, p: Pid, f: Proc): Kernel {
    k.(procs := k.procs[p := f])
  }

  // ---------------------------------------------------------------- pcb.c: queues

  /** pcb.c:95-110; a process in any other state is silently left alone. */
  function AddToReady(k: Kernel, p: Pid): Kernel
    requires p in k.procs
  {
    if k.procs[p].st != DEFAULT then k
    else Put(k, p, k.procs[p].(st := READY)).(ready := k.ready + [p])
  }

  /** pcb.c:127-143. */
  function AddToDelay(k: Kernel, p: Pid, ticks: int): Kernel
    requires p in k.procs
  {
    if k.procs[p].st != DEFAULT then k
    else Put(k, p, k.procs[p].(st := DELAYED, ticks := ticks)).(delayed := k.delayed + [p])
  }

  /** list_remove on a list that holds the node at most once. */
  function Without<T(==)>(s: seq<T>, x: T): seq<T> {
    if s == [] then [] else if s[0] == x then s[1..] else [s[0]] + Without(s[1..], x)
  }

  lemma WithoutIsWithin<T>(s: seq<T>, x: T)
    ensures forall y <- Without(s, x) :: y in s
  {}

  /** pcb.c:145-157. */
  function RemoveFromDelay(k: Kernel, p: Pid): Kernel
    requires p in k.procs
  {
    if k.procs[p].st != DELAYED then k
    else Put(k, p, k.procs[p].(st := DEFAULT)).(delayed := Without(k.delayed, p))
  }

  /** The operations below move processes about; they make none, lose none and switch none. */
  predicate SameCast(k: Kernel, k': Kernel) {
    Typed(k') && k'.procs.Keys == k.procs.Keys && k'.cur == k.cur && k'.idle == k.idle
  }

  /** One node of the delay sweep (pcb.c:268-275). */
  function TickOne(k: Kernel, p: Pid): (k': Kernel)
    requires Typed(k) && p in k.procs
    ensures SameCast(k, k')
  {
    WithoutIsWithin(k.delayed, p);
    var k := Put(k, p, k.procs[p].(ticks := k.procs[p].ticks - 1));
    if k.procs[p].ticks == 0 then AddToReady(RemoveFromDelay(k, p), p) else k
  }

  function TickAll(k: Kernel, ps: seq<Pid>): (k': Kernel)
    requires Typed(k) && forall p <- ps :: p in k.procs
    ensures SameCast(k, k')
    decreases |ps|
  {
    if ps == [] then k else TickAll(TickOne(k, ps[0]), ps[1..])
  }

  /** update_delayed_processes (pcb.c:255-279). */
  function UpdateDelayed(k: Kernel): (k': Kernel)
    requires Typed(k)
    ensures SameCast(k, k')
  {
    TickAll(k, k.delayed)
  }

  // ---------------------------------------------------------------- syscalls.c, traps.c

  /** The process to run next, taken off the ready queue (syscalls.c:429-431). */
  function Next(k: Kernel): Pid {
    if k.ready == [] then k.idle else k.ready[0]
  }

  function PopNext(k: Kernel): Kernel {
    k.(ready := if k.ready == [] then [] else k.ready[1..])
  }

  /** The trap frame is saved in the PCB of the current process (syscalls.c:432). */
  function SaveFrame(k: Kernel): Kernel
    requires k.cur in k.procs
  {
    Put(k, k.cur, k.procs[k.cur].(reg0 := k.frame))
  }

  /** The switch itself (syscalls.c:434, context_switch.c:27-28). */
  function Dispatch(k: Kernel, next: Pid): Kernel
    requires next in k.procs
  {
    Put(k, next, k.procs[next].(runTime := 0, st := RUNNING)).(cur := next)
  }

  /** The trap frame is taken from the PCB of the process switched to (syscalls.c:441). */
  function LoadFrame(k: Kernel): Kernel
    requires k.cur in k.procs
  {
    k.(frame := k.procs[k.cur].reg0)
  }

  /** schedule (syscalls.c:424-447). */
  function Schedule(k: Kernel): (k': Kernel)
    requires Typed(k)
    ensures Typed(k') && k'.procs.Keys == k.procs.Keys && k'.idle == k.idle
  {
    assert k.ready != [] ==> k.ready[0] in k.ready;
    LoadFrame(Dispatch(SaveFrame(PopNext(k)), Next(k)))
  }

  /** The clock trap charges the running process for the tick (traps.c:44-48). */
  function Charged(k: Kernel): (k': Kernel)
    requires Typed(k)
    ensures SameCast(k, k')
  {
    ChargeCurrent(UpdateDelayed(k))
  }

  function ChargeCurrent(k: Kernel): (k': Kernel)
    requires Typed(k)
    ensures SameCast(k, k')
  {
    Put(k, k.cur, k.procs[k.cur].(runTime := k.procs[k.cur].runTime + 1))
  }

  /** Its time is up and somebody else is ready (traps.c:52-54). */
  predicate Preempts(k: Kernel)
    requires k.cur in k.procs
  {
    k.procs[k.cur].runTime > k.procs[k.cur].slice && k.ready != []
  }

  /** The current process is set aside, to be scheduled away from (traps.c:56). */
  function SetAside(k: Kernel): Kernel
    requires k.cur in k.procs
  {
    Put(k, k.cur, k.procs[k.cur].(st := DEFAULT))
  }

  /** traps.c:52-63 before the schedule call.  `requeue` adds what is missing there: the preempted
      process goes back to the ready queue. */
  function Preempt(requeue: bool, k: Kernel): (r: (Kernel, bool))
    requires Typed(k)
    ensures SameCast(k, r.0)
  {
    if !Preempts(k) then (k, false)
    else if requeue && k.cur != k.idle then (AddToReady(SetAside(k), k.cur), true)
    else (SetAside(k), true)
  }

  /** clock_handler up to its schedule call (traps.c:40-70): the new state, and whether it goes on
      to schedule. */
  function Clock(requeue: bool, k: Kernel): (r: (Kernel, bool))
    requires Typed(k)
    ensures SameCast(k, r.0)
  {
    Preempt(requeue, Charged(k))
  }

  /** SysDelay up to its schedule call (syscalls.c:217-242). */
  function Delay(k: Kernel, ticks: int): (r: (Kernel, bool))
    requires Typed(k)
    ensures SameCast(k, r.0)
  {
    if ticks < 0 then (k.(frame := ERROR), false)
    else
      var k := k.(frame := 0);
      if ticks == 0 then (k, false)
      else (AddToDelay(Put(k, k.cur, k.procs[k.cur].(st := DEFAULT)), k.cur, ticks), true)
  }

  /** SysFork's effect on the queues: the child joins the ready queue (pcb.c:34-90,
      syscalls.c:53-73). */
  function Fork(k: Kernel, child: Pid): (k': Kernel)
    requires Typed(k)
    ensures Typed(k')
  {
    var born := Proc(DEFAULT, 0, DEFAULT_TIMESLICE, 0, k.frame, -1, -1, -1, []);
    AddToReady(Put(k, child, born), child).(frame := child)
  }

  // ---------------------------------------------------------------- sync.c: pipes

  /** A reader's buffer once its first bytes have been replaced. */
  function Delivered(was: seq<Byte>, bytes: seq<Byte>): seq<Byte> {
    if |bytes| <= |was| then bytes + was[|bytes|..] else bytes
  }

  /** What a drain does to the process it wakes (sync.c:194-201, 222-231). */
  function Effect(k: Kernel, e: Event): (k': Kernel)
    requires Typed(k) && forall p <- Woke(e) :: p in k.procs
    ensures SameCast(k, k')
  {
    match e
    case Accepted(_, _) => k
    case Taken(_, _, _) => k
    case Served(p, _, bytes) =>
      assert p in Woke(e);
      var f := k.procs[p];
      AddToReady(Put(k, p, f.(buf := Delivered(f.buf, bytes), reg0 := |bytes|, waitPipe := -1, st := DEFAULT)), p)
    case Finished(p, _, len) =>
      assert p in Woke(e);
      AddToReady(Put(k, p, k.procs[p].(buf := [], reg0 := len, waitPipe := -1, st := DEFAULT)), p)
  }

  function Effects(k: Kernel, es: seq<Event>): (k': Kernel)
    requires Typed(k) && forall p <- WokenPids(es) :: p in k.procs
    ensures SameCast(k, k')
    decreases |es|
  {
    if es == [] then k
    else
      assert forall p <- Woke(es[0]) :: p in WokenPids(es);
      assert forall p <- WokenPids(es[1..]) :: p in WokenPids(es);
      Effects(Effect(k, es[0]), es[1..])
  }

  predicate PipeOrNone(k: Kernel, id: int) { id in k.sync ==> k.sync[id].APipe? }
  predicate LockOrNone(k: Kernel, id: int) { id in k.sync ==> k.sync[id].ALock? }
  predicate CvarOrNone(k: Kernel, id: int) { id in k.sync ==> k.sync[id].ACvar? }

  function Store(k: Kernel, id: int, s: Sync): Kernel {
    k.(sync := k.sync[id := s])
  }

  /** SyncReadPipe into a buffer holding `kbuf` (sync.c:108-161). */
  function SyncReadPipe(g: Guard, k: Kernel, id: int, kbuf: seq<Byte>): (r: (Kernel, int))
    requires Typed(k) && PipeOrNone(k, id)
    ensures SameCast(k, r.0)
  {
    if id !in k.sync then (k, ERROR)
    else
      var p, f := k.sync[id].pipe, k.procs[k.cur];
      var (q, res) := Read(g, p, k.cur, |kbuf|);
      ReadCast(g, k, id, kbuf);
      var k := Store(k, id, APipe(q));
      match res
      case ReadBlocked =>
        (Put(k, k.cur, f.(waitPipe := id, buf := kbuf, st := BLOCKED)), PCB_BLOCKED)
      case Got(bytes) =>
        (Effects(Put(k, k.cur, f.(reg0 := |bytes|)), News(p, q)), SUCCESS)
  }

  /** SyncWritePipe (sync.c:240-288). */
  function SyncWritePipe(g: Guard, k: Kernel, id: int, msg: seq<Byte>): (r: (Kernel, int))
    requires Typed(k) && PipeOrNone(k, id)
    ensures SameCast(k, r.0)
  {
    if id !in k.sync then (k, ERROR)
    else
      var p, f := k.sync[id].pipe, k.procs[k.cur];
      var q := Write(g, p, k.cur, msg);
      WriteCast(g, k, id, msg);
      var k := Store(k, id, APipe(q));
      if WriteBlocks(p, msg) then
        (Effects(Put(k, k.cur, f.(waitPipe := id, buf := msg, st := BLOCKED)), News(p, q)), PCB_BLOCKED)
      else
        (Effects(Put(k, k.cur, f.(reg0 := |msg|)), News(p, q)), SUCCESS)
  }

  lemma ReadCast(g: Guard, k: Kernel, id: int, kbuf: seq<Byte>)
    requires Typed(k) && id in k.sync && k.sync[id].APipe?
    ensures var (q, res) := Read(g, k.sync[id].pipe, k.cur, |kbuf|);
            && k.sync[id].pipe.log <= q.log
            && (forall p <- WokenPids(News(k.sync[id].pipe, q)) :: p in k.procs)
            && Typed(Store(k, id, APipe(q)))
  {
    var p := k.sync[id].pipe;
    var q := Read(g, p, k.cur, |kbuf|).0;
    ReadAccounted(g, p, k.cur, |kbuf|);
    StillKnown(k, id, q);
  }

  lemma WriteCast(g: Guard, k: Kernel, id: int, msg: seq<Byte>)
    requires Typed(k) && id in k.sync && k.sync[id].APipe?
    ensures var q := Write(g, k.sync[id].pipe, k.cur, msg);
            && k.sync[id].pipe.log <= q.log
            && (forall p <- WokenPids(News(k.sync[id].pipe, q)) :: p in k.procs)
            && Typed(Store(k, id, APipe(q)))
  {
    var p := k.sync[id].pipe;
    WriteAccounted(g, p, k.cur, msg);
    StillKnown(k, id, Write(g, p, k.cur, msg));
  }

  lemma StillKnown(k: Kernel, id: int, q: Pipe)
    requires Typed(k) && id in k.sync && k.sync[id].APipe? && Sound(q)
    requires k.sync[id].pipe.log <= q.log
    requires multiset(WokenPids(News(k.sync[id].pipe, q)))
             + multiset(Sleepers(q)) <= multiset(Sleepers(k.sync[id].pipe)) + multiset{k.cur}
    ensures forall p <- WokenPids(News(k.sync[id].pipe, q)) :: p in k.procs
    ensures Typed(Store(k, id, APipe(q)))
  {
    var p := k.sync[id].pipe;
    assert SyncTyped(k, k.sync[id]);
    forall x | x in WokenPids(News(p, q)) || x in Sleepers(q)
      ensures x in k.procs
    {
      assert x in multiset(WokenPids(News(p, q))) + multiset(Sleepers(q));
      assert x in multiset(Sleepers(p)) + multiset{k.cur};
      if x != k.cur {
        assert x in Sleepers(p) && x in WaitList(k.sync[id]);
      }
    }
  }

  // ---------------------------------------------------------------- sync.c: locks, condition variables

  /** SyncLockAcquire (sync.c:318-351). */
  function SyncLockAcquire(k: Kernel, id: int): (r: (Kernel, int))
    requires Typed(k) && LockOrNone(k, id)
    ensures SameCast(k, r.0)
  {
    if id !in k.sync then (k, ERROR)
    else
      assert SyncTyped(k, k.sync[id]);
      var l := k.sync[id].lock;
      var k := Store(k, id, ALock(Locks.Acquire(l, k.cur)));
      if !l.locked then (k, SUCCESS)
      else (Put(k, k.cur, k.procs[k.cur].(st := BLOCKED, waitLock := id)), PCB_BLOCKED)
  }

  /** The lock goes to the head waiter, who becomes ready, or is freed (sync.c:376-390, 454-466). */
  function PassOn(k: Kernel, id: int): (k': Kernel)
    requires Typed(k) && id in k.sync && k.sync[id].ALock?
    ensures SameCast(k, k') && k'.sync.Keys == k.sync.Keys
  {
    assert SyncTyped(k, k.sync[id]);
    var l := k.sync[id].lock;
    var k := Store(k, id, ALock(HandOver(l)));
    if l.waiters == [] then k
    else
      var next := l.waiters[0];
      AddToReady(Put(k, next, k.procs[next].(st := DEFAULT, waitLock := -1)), next)
  }

  /** SyncLockRelease (sync.c:353-393). */
  function SyncLockRelease(k: Kernel, id: int): (r: (Kernel, int))
    requires Typed(k) && LockOrNone(k, id)
    ensures SameCast(k, r.0)
  {
    if id !in k.sync || k.sync[id].lock.owner != Some(k.cur) then (k, ERROR)
    else (PassOn(k, id), SUCCESS)
  }

  /** SyncCvarWait (sync.c:422-477). */
  function SyncCvarWait(k: Kernel, cvar: int, lock: int): (r: (Kernel, int))
    requires Typed(k) && CvarOrNone(k, cvar) && LockOrNone(k, lock)
    ensures SameCast(k, r.0)
  {
    if cvar !in k.sync || lock !in k.sync || k.sync[lock].lock.owner != Some(k.cur) then (k, ERROR)
    else
      var k := PassOn(k, lock);
      assert SyncTyped(k, k.sync[cvar]);
      var k := Store(k, cvar, ACvar(Await(k.sync[cvar].cvar, k.cur)));
      (Put(k, k.cur, k.procs[k.cur].(waitCvar := cvar, st := BLOCKED)), PCB_BLOCKED)
  }

  /** The first waiter of a condition variable becomes ready (sync.c:497-503, 531-537). */
  function WakeFirst(k: Kernel, id: int): (k': Kernel)
    requires Typed(k) && id in k.sync && k.sync[id].ACvar? && k.sync[id].cvar.waiters != []
    ensures SameCast(k, k') && k'.sync == k.sync[id := ACvar(WakeOne(k.sync[id].cvar))]
  {
    assert SyncTyped(k, k.sync[id]);
    var next := k.sync[id].cvar.waiters[0];
    var k := Store(k, id, ACvar(WakeOne(k.sync[id].cvar)));
    AddToReady(Put(k, next, k.procs[next].(waitCvar := -1, st := DEFAULT)), next)
  }

  /** SyncCvarSignal (sync.c:479-507). */
  function SyncCvarSignal(k: Kernel, id: int): (r: (Kernel, int))
    requires Typed(k) && CvarOrNone(k, id)
    ensures SameCast(k, r.0)
  {
    if id !in k.sync then (k, ERROR)
    else if k.sync[id].cvar.waiters == [] then (k, 0)
    else (WakeFirst(k, id), 0)
  }

  /** The loop of SyncCvarBroadcast (sync.c:530-539). */
  function WakeEveryone(k: Kernel, id: int): (k': Kernel)
    requires Typed(k) && id in k.sync && k.sync[id].ACvar?
    ensures SameCast(k, k')
    decreases |k.sync[id].cvar.waiters|
  {
    if k.sync[id].cvar.waiters == [] then k else WakeEveryone(WakeFirst(k, id), id)
  }

  /** SyncCvarBroadcast (sync.c:509-543).  It returns nothing when somebody was waiting; `noise` is
      what the caller then finds. */
  function SyncCvarBroadcast(k: Kernel, id: int, noise: int): (r: (Kernel, int))
    requires Typed(k) && CvarOrNone(k, id)
    ensures SameCast(k, r.0)
  {
    if id !in k.sync then (k, ERROR)
    else if k.sync[id].cvar.waiters == [] then (k, 0)
    else (WakeEveryone(k, id), noise)
  }

  // ---------------------------------------------------------------- sync.c: the table of objects

  /** The lowest id not in use, from i up (sync.c:597-605). */
  function FreeId(k: Kernel, i: nat): (id: int)
    requires i <= MAX_SYNCS
    ensures id == ERROR || (i <= id < MAX_SYNCS && id !in k.sync)
    decreases MAX_SYNCS - i
  {
    if i == MAX_SYNCS then ERROR else if i !in k.sync then i else FreeId(k, i + 1)
  }

  /** SyncInitPipe, SyncInitLock, SyncInitCvar: a new object under a new id (sync.c:12-99, 290-316,
      395-420). */
  function SyncInit(k: Kernel, s: Sync): (r: (Kernel, int))
    requires Typed(k) && (s == APipe(EMPTY) || s == ALock(FREE) || s == ACvar(QUIET))
    ensures SameCast(k, r.0)
  {
    var id := FreeId(k, 0);
    if |k.sync| >= MAX_SYNCS || id == ERROR then (k, ERROR) else (Store(k, id, s), SUCCESS)
  }

  /** SyncReclaim (sync.c:547-592). */
  function SyncReclaim(k: Kernel, id: int): (r: (Kernel, int))
    requires Typed(k)
    ensures SameCast(k, r.0)
  {
    if id !in k.sync then (k, ERROR) else (k.(sync := k.sync - {id}), SUCCESS)
  }

  // ---------------------------------------------------------------- traps

  datatype Trap =
    | Tick
    | SysDelay(ticks: int)
    | SysPipeRead(id: int, kbuf: seq<Byte>)     // kbuf: what malloc returned
    | SysPipeWrite(id: int, msg: seq<Byte>)
    | SysLockAcquire(id: int)
    | SysLockRelease(id: int)
    | SysCvarWait(cvar: int, lock: int)
    | SysSignal(id: int)
    | SysBroadcast(id: int, noise: int)
    | SysInit(s: Sync)
    | SysReclaim(id: int)
    | SysFork(child: Pid)

  /** What can happen next: the clock at any time, system calls only from a process other than
      idle, on objects of the kind the call is for, reclaiming only what nobody waits on, and a
      pid the hardware helper has not handed out before. */
  predicate Possible(k: Kernel, t: Trap) {
    && (t == Tick || k.cur != k.idle)
    && match t
       case Tick => true
       case SysDelay(_) => true
       case SysPipeRead(id, _) => PipeOrNone(k, id)
       case SysPipeWrite(id, _) => PipeOrNone(k, id)
       case SysLockAcquire(id) => LockOrNone(k, id)
       case SysLockRelease(id) => LockOrNone(k, id)
       case SysCvarWait(c, l) => CvarOrNone(k, c) && LockOrNone(k, l)
       case SysSignal(id) => CvarOrNone(k, id)
       case SysBroadcast(id, _) => CvarOrNone(k, id)
       case SysInit(s) => s == APipe(EMPTY) || s == ALock(FREE) || s == ACvar(QUIET)
       case SysReclaim(id) => id in k.sync ==> WaitList(k.sync[id]) == []
       case SysFork(child) => child !in k.procs
  }

  /** The system call puts the result in the frame it returns through. */
  function Return(r: (Kernel, int)): (Kernel, bool) {
    (r.0.(frame := r.1), false)
  }

  /** The system call schedules when the sync call blocked. */
  function Blockable(r: (Kernel, int)): (Kernel, bool) {
    (r.0, r.1 == PCB_BLOCKED)
  }

  /** A trap up to its schedule call, and whether it makes one. */
  function Handle(g: Guard, requeue: bool, k: Kernel, t: Trap): (r: (Kernel, bool))
    requires Typed(k) && Possible(k, t)
    ensures Typed(r.0)
  {
    match t
    case Tick => Clock(requeue, k)
    case SysDelay(ticks) => Delay(k, ticks)
    case SysPipeRead(id, kbuf) => Blockable(SyncReadPipe(g, k, id, kbuf))
    case SysPipeWrite(id, msg) => Blockable(SyncWritePipe(g, k, id, msg))
    case SysLockAcquire(id) =>
      var r := SyncLockAcquire(k, id);
      if r.1 == PCB_BLOCKED then (r.0, true) else Return(r)
    case SysLockRelease(id) => Return(SyncLockRelease(k, id))
    case SysCvarWait(c, l) =>
      var r := SyncCvarWait(k, c, l);
      if r.1 == ERROR then Return(r) else (r.0, true)
    case SysSignal(id) => Return(SyncCvarSignal(k, id))
    case SysBroadcast(id, noise) => Return(SyncCvarBroadcast(k, id, noise))
    case SysInit(s) => Return(SyncInit(k, s))
    case SysReclaim(id) => Return(SyncReclaim(k, id))
    case SysFork(child) => (Fork(k, child), false)
  }

  function Step(g: Guard, requeue: bool, k: Kernel, t: Trap): (k': Kernel)
    requires Typed(k) && Possible(k, t)
    ensures Typed(k')
  {
    var (k, switch) := Handle(g, requeue, k, t);
    if switch then Schedule(k) else k
  }
}
