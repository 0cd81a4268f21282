/** What every trap answers, and everything it changes: the frame it returns with, the object it is
    about, and the processes it wakes. */
module KernelAnswers {
  import opened Hardware
  import opened Pipes
  import opened Locks
  import opened KernelModel
  import opened KernelInvariant
  import opened KernelSteps
  import opened SyncSteps

  /** Of the objects only the one called id may have changed. */
  ghost predicate OnlyObject(k: Kernel, k': Kernel, id: int) {
    id in k.sync && k'.sync.Keys == k.sync.Keys && forall j <- k.sync :: j != id ==> k'.sync[j] == k.sync[j]
  }

  /** The processes xs join the ready queue, in this order; nobody else changes, and nobody starts to
      run. */
  ghost predicate Readies(k: Kernel, k': Kernel, xs: seq<Pid>) {
    && k'.ready == k.ready + xs && k'.delayed == k.delayed && k'.cur == k.cur && k'.idle == k.idle
    && k'.procs.Keys == k.procs.Keys
    && forall p <- k.procs ::
         k'.procs[p] == if p in xs then k.procs[p].(st := READY, waitLock := -1, waitCvar := -1) else k.procs[p]
  }

  // ---------------------------------------------------------------- locks

  /** Whose lock it is after the head waiter has been let in. */
  ghost function NextOwner(l: Lock): Option<Pid> {
    if l.waiters == [] then None else Some(l.waiters[0])
  }

  ghost function NextWaiters(l: Lock): seq<Pid> {
    if l.waiters == [] then [] else l.waiters[1..]
  }

  /** l' is l passed on: to the head waiter, or to nobody. */
  ghost predicate PassedOn(l: Lock, l': Lock) {
    && l'.owner == NextOwner(l) && l'.waiters == NextWaiters(l)
    && (l'.locked <==> l.waiters != [])
  }

  lemma PassOnAnswers(k: Kernel, lost: set<Pid>, id: int)
    requires Settled(k, lost) && id in k.sync && k.sync[id].ALock? && k.sync[id].lock.locked
    ensures var k' := PassOn(k, id);
            && OnlyObject(k, k', id) && k'.sync[id].ALock? && PassedOn(k.sync[id].lock, k'.sync[id].lock)
            && Readies(k, k', if k.sync[id].lock.waiters == [] then [] else [k.sync[id].lock.waiters[0]])
            && k'.frame == k.frame
  {
    assert k.ready + [] == k.ready;
    if k.sync[id].lock.waiters != [] {
      SleeperSite(k, lost, id, k.sync[id].lock.waiters[0]);
    }
  }

  /** A release is refused to everybody but the owner, and then leaves all as it was; from the owner the
      lock goes to the head waiter, who becomes ready, or is free (sync.c:353-393). */
  lemma ReleaseAnswers(g: Guard, requeue: bool, k: Kernel, lost: set<Pid>, id: int)
    requires Settled(k, lost) && Possible(k, SysLockRelease(id)) && id in k.sync && k.sync[id].lock.locked
    ensures var l, k' := k.sync[id].lock, Step(g, requeue, k, SysLockRelease(id));
            if l.owner != Some(k.cur) then k' == k.(frame := ERROR)
            else
              && k'.frame == SUCCESS && OnlyObject(k, k', id) && k'.sync[id].ALock? && PassedOn(l, k'.sync[id].lock)
              && Readies(k, k', if l.waiters == [] then [] else [l.waiters[0]])
  {
    if k.sync[id].lock.owner == Some(k.cur) { PassOnAnswers(k, lost, id); }
  }

  /** An acquire takes a free lock at once; of a held one it changes the end of the queue only, and its
      caller no longer runs (sync.c:318-351). */
  lemma AcquireAnswers(g: Guard, requeue: bool, k: Kernel, lost: set<Pid>, id: int)
    requires Settled(k, lost) && Possible(k, SysLockAcquire(id)) && id in k.sync
    ensures var l, k' := k.sync[id].lock, Step(g, requeue, k, SysLockAcquire(id));
            && OnlyObject(k, k', id) && k'.sync[id].ALock? && k'.sync[id].lock.locked
            && if !l.locked then
                 && k'.frame == SUCCESS && Readies(k, k', [])
                 && k'.sync[id].lock.owner == Some(k.cur) && k'.sync[id].lock.waiters == l.waiters
               else
                 && k'.cur != k.cur && k'.procs[k.cur].st == BLOCKED
                 && k'.sync[id].lock.owner == l.owner && k'.sync[id].lock.waiters == l.waiters + [k.cur]
  {
    if k.sync[id].lock.locked { AcquireWaits(g, requeue, k, lost, id); } else { AcquireTakes(g, requeue, k, id); }
  }

  lemma AcquireTakes(g: Guard, requeue: bool, k: Kernel, id: int)
    requires Typed(k) && Possible(k, SysLockAcquire(id)) && id in k.sync && !k.sync[id].lock.locked
    ensures var l, k' := k.sync[id].lock, Step(g, requeue, k, SysLockAcquire(id));
            && OnlyObject(k, k', id) && k'.sync[id].ALock? && k'.sync[id].lock.locked
            && k'.frame == SUCCESS && Readies(k, k', [])
            && k'.sync[id].lock.owner == Some(k.cur) && k'.sync[id].lock.waiters == l.waiters
  {
    assert k.ready + [] == k.ready;
  }

  lemma AcquireWaits(g: Guard, requeue: bool, k: Kernel, lost: set<Pid>, id: int)
    requires Settled(k, lost) && Possible(k, SysLockAcquire(id)) && id in k.sync && k.sync[id].lock.locked
    ensures var l, k' := k.sync[id].lock, Step(g, requeue, k, SysLockAcquire(id));
            && OnlyObject(k, k', id) && k'.sync[id].ALock? && k'.sync[id].lock.locked
            && k'.cur != k.cur && k'.procs[k.cur].st == BLOCKED
            && k'.sync[id].lock.owner == l.owner && k'.sync[id].lock.waiters == l.waiters + [k.cur]
  {
    AcquireFiles(k, lost, id);
    WaitsIs(g, requeue, k, id);
    Asleep(SyncLockAcquire(k, id).0, lost);
  }

  lemma WaitsIs(g: Guard, requeue: bool, k: Kernel, id: int)
    requires Typed(k) && Possible(k, SysLockAcquire(id)) && id in k.sync && k.sync[id].lock.locked
    ensures var (k1, rc) := SyncLockAcquire(k, id);
            && rc == PCB_BLOCKED && k1.cur == k.cur && k1.procs[k.cur].st == BLOCKED
            && Step(g, requeue, k, SysLockAcquire(id)) == Schedule(k1)
            && OnlyObject(k, k1, id) && k1.sync[id].ALock? && k1.sync[id].lock.locked
            && k1.sync[id].lock.owner == k.sync[id].lock.owner
            && k1.sync[id].lock.waiters == k.sync[id].lock.waiters + [k.cur]
  {}

  /** Who has fallen asleep is not the one schedule picks. */
  lemma Asleep(k: Kernel, lost: set<Pid>)
    requires Parked(k, lost) && k.procs[k.cur].st == BLOCKED
    ensures var k' := Schedule(k); k'.cur != k.cur && k'.procs[k.cur].st == BLOCKED && k'.sync == k.sync
  {
    assert k.cur !in lost;
    assert Placed(k, k.cur);
    assert k.ready != [] ==> k.ready[0] in k.ready;
  }

  // ---------------------------------------------------------------- condition variables

  /** A wait is refused to everybody but the owner of the lock; from the owner the lock is passed on, and
      the caller sleeps at the end of the queue (sync.c:422-477, syscalls.c:396-409). */
  lemma WaitAnswers(g: Guard, requeue: bool, k: Kernel, lost: set<Pid>, c: int, l: int)
    requires Settled(k, lost) && Possible(k, SysCvarWait(c, l)) && c in k.sync && l in k.sync && k.sync[l].lock.locked
    ensures var k' := Step(g, requeue, k, SysCvarWait(c, l));
            if k.sync[l].lock.owner != Some(k.cur) then k' == k.(frame := ERROR)
            else WaitDone(k, k', c, l) && k'.cur != k.cur && k'.procs[k.cur].st == BLOCKED
  {
    if k.sync[l].lock.owner == Some(k.cur) {
      PassOnAnswers(k, lost, l);
      CvarWaitFiles(k, lost, c, l);
      WaitIs(g, requeue, k, c, l);
      Asleep(SyncCvarWait(k, c, l).0, lost);
      WaitObjects(k, PassOn(k, l), Step(g, requeue, k, SysCvarWait(c, l)), c, l);
    } else {
      WaitRefused(g, requeue, k, c, l);
    }
  }

  lemma WaitRefused(g: Guard, requeue: bool, k: Kernel, c: int, l: int)
    requires Typed(k) && Possible(k, SysCvarWait(c, l)) && c in k.sync && l in k.sync
    requires k.sync[l].lock.owner != Some(k.cur)
    ensures Step(g, requeue, k, SysCvarWait(c, l)) == k.(frame := ERROR)
  {}

  /** Two objects have changed. */
  ghost predicate WaitDone(k: Kernel, k': Kernel, c: int, l: int)
    requires c in k.sync && k.sync[c].ACvar? && l in k.sync && k.sync[l].ALock?
  {
    && k'.sync.Keys == k.sync.Keys && (forall j <- k.sync :: j != c && j != l ==> k'.sync[j] == k.sync[j])
    && k'.sync[l].ALock? && PassedOn(k.sync[l].lock, k'.sync[l].lock)
    && k'.sync[c].ACvar? && k'.sync[c].cvar.waiters == k.sync[c].cvar.waiters + [k.cur]
  }

  lemma WaitObjects(k: Kernel, k1: Kernel, k': Kernel, c: int, l: int)
    requires c in k.sync && k.sync[c].ACvar? && l in k.sync && k.sync[l].ALock?
    requires OnlyObject(k, k1, l) && k1.sync[l].ALock? && PassedOn(k.sync[l].lock, k1.sync[l].lock)
    requires k'.sync == k1.sync[c := ACvar(Await(k.sync[c].cvar, k.cur))]
    ensures WaitDone(k, k', c, l)
  {}

  lemma WaitIs(g: Guard, requeue: bool, k: Kernel, c: int, l: int)
    requires Typed(k) && Possible(k, SysCvarWait(c, l)) && c in k.sync && l in k.sync
    requires k.sync[l].lock.owner == Some(k.cur)
    ensures var k1, (k2, rc) := PassOn(k, l), SyncCvarWait(k, c, l);
            && rc == PCB_BLOCKED && k2.cur == k.cur && k2.procs[k.cur].st == BLOCKED
            && c in k1.sync && k1.sync[c] == k.sync[c]
            && k2.sync == k1.sync[c := ACvar(Await(k.sync[c].cvar, k.cur))]
            && Step(g, requeue, k, SysCvarWait(c, l)) == Schedule(k2)
  {}

  /** A signal makes the first waiter ready, if there is one, and answers 0 either way
      (sync.c:479-507). */
  lemma SignalAnswers(g: Guard, requeue: bool, k: Kernel, lost: set<Pid>, id: int)
    requires Settled(k, lost) && Possible(k, SysSignal(id)) && id in k.sync
    ensures var ws, k' := k.sync[id].cvar.waiters, Step(g, requeue, k, SysSignal(id));
            && k'.frame == 0 && OnlyObject(k, k', id) && k'.sync[id].ACvar?
            && k'.sync[id].cvar.waiters == (if ws == [] then [] else ws[1..])
            && Readies(k, k', if ws == [] then [] else [ws[0]])
  {
    if k.sync[id].cvar.waiters == [] {
      assert k.ready + [] == k.ready;
    } else {
      FirstReadied(k, lost, id);
    }
  }

  lemma {:induction false} AllReadied(k: Kernel, lost: set<Pid>, id: int)
    requires Settled(k, lost) && id in k.sync && k.sync[id].ACvar?
    ensures var k' := WakeEveryone(k, id);
            && OnlyObject(k, k', id) && k'.sync[id].ACvar? && k'.sync[id].cvar.waiters == []
            && Readies(k, k', k.sync[id].cvar.waiters)
    decreases |k.sync[id].cvar.waiters|
  {
    var ws := k.sync[id].cvar.waiters;
    if ws == [] {
      assert k.ready + [] == k.ready;
    } else {
      var k1 := WakeFirst(k, id);
      WakeFirstFiles(k, lost, id);
      FirstReadied(k, lost, id);
      AllReadied(k1, lost, id);
      ReadiedTwice(k, k1, WakeEveryone(k1, id), ws);
    }
  }

  lemma FirstReadied(k: Kernel, lost: set<Pid>, id: int)
    requires Settled(k, lost) && id in k.sync && k.sync[id].ACvar? && k.sync[id].cvar.waiters != []
    ensures var ws, k' := k.sync[id].cvar.waiters, WakeFirst(k, id);
            && OnlyObject(k, k', id) && k'.sync[id].ACvar? && k'.sync[id].cvar.waiters == ws[1..]
            && Readies(k, k', [ws[0]])
  {
    SleeperSite(k, lost, id, k.sync[id].cvar.waiters[0]);
  }

  lemma ReadiedTwice(k: Kernel, k1: Kernel, k2: Kernel, ws: seq<Pid>)
    requires ws != [] && Readies(k, k1, [ws[0]]) && Readies(k1, k2, ws[1..])
    ensures Readies(k, k2, ws)
  {
    assert ws == [ws[0]] + ws[1..];
    assert k.ready + [ws[0]] + ws[1..] == k.ready + ws;
  }

  /** A broadcast makes every waiter ready, in the order they came; it answers 0 when nobody waits, and
      otherwise nothing in particular (sync.c:509-543). */
  lemma BroadcastAnswers(g: Guard, requeue: bool, k: Kernel, lost: set<Pid>, id: int, noise: int)
    requires Settled(k, lost) && Possible(k, SysBroadcast(id, noise)) && id in k.sync
    ensures var ws, k' := k.sync[id].cvar.waiters, Step(g, requeue, k, SysBroadcast(id, noise));
            && k'.frame == (if ws == [] then 0 else noise)
            && OnlyObject(k, k', id) && k'.sync[id].ACvar? && k'.sync[id].cvar.waiters == []
            && Readies(k, k', ws)
  {
    AllReadied(k, lost, id);
  }

  // ---------------------------------------------------------------- the table

  /** id is the lowest number no object has. */
  ghost predicate LowestFree(k: Kernel, id: int) {
    0 <= id < MAX_SYNCS && id !in k.sync && forall i :: 0 <= i < id ==> i in k.sync
  }

  lemma {:induction false} FreeIdIsLowest(k: Kernel, i: nat)
    requires i <= MAX_SYNCS && forall j :: 0 <= j < i ==> j in k.sync
    ensures var id := FreeId(k, i);
            if id == ERROR then forall j :: 0 <= j < MAX_SYNCS ==> j in k.sync else LowestFree(k, id)
    decreases MAX_SYNCS - i
  {
    if i < MAX_SYNCS && i in k.sync { FreeIdIsLowest(k, i + 1); }
  }

  lemma {:induction false} AtLeast(ids: set<int>, n: nat)
    requires forall j :: 0 <= j < n ==> j in ids
    ensures |ids| >= n
  {
    if n > 0 {
      AtLeast(ids - {n - 1}, n - 1);
      assert |ids - {n - 1}| == |ids| - 1;
    }
  }

  /** A table that holds every id there is is full. */
  lemma AllIds(k: Kernel)
    requires forall j :: 0 <= j < MAX_SYNCS ==> j in k.sync
    ensures |k.sync| >= MAX_SYNCS
  {
    AtLeast(k.sync.Keys, MAX_SYNCS);
    assert |k.sync| == |k.sync.Keys|;
  }

  /** A new object is blank, under the lowest free id, and nothing else changes; with the table full there
      is no new object and the answer is ERROR (sync.c:12-99, 290-316, 395-420). */
  lemma InitAnswers(g: Guard, requeue: bool, k: Kernel, s: Sync)
    requires Typed(k) && Possible(k, SysInit(s))
    ensures var k' := Step(g, requeue, k, SysInit(s));
            if |k.sync| >= MAX_SYNCS then k' == k.(frame := ERROR)
            else exists id :: LowestFree(k, id) && k' == k.(frame := SUCCESS, sync := k.sync[id := s])
  {
    FreeIdIsLowest(k, 0);
    if FreeId(k, 0) == ERROR { AllIds(k); }
  }

  /** A reclaimed object and its id are gone, and nothing else (sync.c:547-592). */
  lemma ReclaimAnswers(g: Guard, requeue: bool, k: Kernel, id: int)
    requires Typed(k) && Possible(k, SysReclaim(id)) && id in k.sync
    ensures var k' := Step(g, requeue, k, SysReclaim(id));
            && k'.frame == SUCCESS && k'.sync.Keys == k.sync.Keys - {id}
            && (forall j <- k'.sync :: k'.sync[j] == k.sync[j])
            && k' == k.(frame := SUCCESS, sync := k'.sync)
  {}

  /** Which object a call is about. */
  ghost predicate Names(t: Trap, id: int) {
    match t
    case SysPipeRead(i, _) => i == id
    case SysPipeWrite(i, _) => i == id
    case SysLockAcquire(i) => i == id
    case SysLockRelease(i) => i == id
    case SysCvarWait(c, l) => c == id || l == id
    case SysSignal(i) => i == id
    case SysBroadcast(i, _) => i == id
    case SysReclaim(i) => i == id
    case _ => false
  }

  /** A call on an id no object has changes nothing but the answer; a pipe call not even that
      (sync.c:54-60, syscalls.c:304-307, 331-334). */
  lemma MissingAnswers(g: Guard, requeue: bool, k: Kernel, t: Trap, id: int)
    requires Typed(k) && Possible(k, t) && Names(t, id) && id !in k.sync
    ensures Step(g, requeue, k, t) == if t.SysPipeRead? || t.SysPipeWrite? then k else k.(frame := ERROR)
  {}

  // ---------------------------------------------------------------- delays, forks, the clock

  /** A negative delay is an error and a delay of zero is over at once (syscalls.c:221-230). */
  lemma DelayAnswers(g: Guard, requeue: bool, k: Kernel, ticks: int)
    requires Typed(k) && Possible(k, SysDelay(ticks)) && ticks <= 0
    ensures Step(g, requeue, k, SysDelay(ticks)) == k.(frame := if ticks < 0 then ERROR else 0)
  {}

  /** A fork makes a ready process with the frame of this trap, and returns the child to the parent;
      everybody else is as they were (syscalls.c:53-70, pcb.c:34-90). */
  lemma ForkAnswers(g: Guard, requeue: bool, k: Kernel, child: Pid)
    requires Typed(k) && Possible(k, SysFork(child))
    ensures var k' := Step(g, requeue, k, SysFork(child));
            && k'.frame == child && k'.cur == k.cur && k'.sync == k.sync && k'.delayed == k.delayed
            && k'.procs.Keys == k.procs.Keys + {child} && (forall p <- k.procs :: k'.procs[p] == k.procs[p])
            && k'.ready == k.ready + [child]
            && var f := k'.procs[child];
               f.reg0 == k.frame && f.st == READY && f.runTime == 0 && f.slice == DEFAULT_TIMESLICE && f.ticks == 0
               && SiteOf(f) == Nowhere && f.buf == []
  {}
}
