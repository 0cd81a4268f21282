/** Progress: who waits on the ready queue runs within a bounded number of clock ticks, and who
    delays sleeps exactly as many ticks as it asked for. */
module KernelProgress {
  import opened Hardware
  import opened Pipes
  import opened PipeWakes
  import opened Locks
  import opened KernelModel
  import opened KernelInvariant
  import opened KernelSteps
  import opened SyncSteps
  import opened DelaySweep
  import opened KernelRuns

  // ---------------------------------------------------------------- what a trap does to the ready queue

  /** k' is k with processes appended to the ready queue and the running process still charged the
      same. */
  ghost predicate OnlyAppends(k: Kernel, k': Kernel) {
    && k.ready <= k'.ready && k'.cur == k.cur
    && k.cur in k.procs && k.cur in k'.procs
    && k'.procs[k.cur].runTime == k.procs[k.cur].runTime && k'.procs[k.cur].slice == k.procs[k.cur].slice
    && forall p <- k.procs :: p in k'.procs && k'.procs[p].slice == k.procs[p].slice
  }

  lemma EffectAppends(k: Kernel, e: Event)
    requires Typed(k) && forall p <- Woke(e) :: p in k.procs
    ensures OnlyAppends(k, Effect(k, e))
  {}

  lemma {:induction false} EffectsAppend(k: Kernel, es: seq<Event>)
    requires Typed(k) && forall p <- WokenPids(es) :: p in k.procs
    ensures OnlyAppends(k, Effects(k, es))
    decreases |es|
  {
    if es != [] {
      assert forall p <- Woke(es[0]) :: p in WokenPids(es);
      assert forall p <- WokenPids(es[1..]) :: p in WokenPids(es);
      EffectAppends(k, es[0]);
      EffectsAppend(Effect(k, es[0]), es[1..]);
    }
  }

  lemma {:induction false} WakeEveryoneAppends(k: Kernel, id: int)
    requires Typed(k) && id in k.sync && k.sync[id].ACvar?
    ensures OnlyAppends(k, WakeEveryone(k, id))
    decreases |k.sync[id].cvar.waiters|
  {
    if k.sync[id].cvar.waiters != [] {
      assert OnlyAppends(k, WakeFirst(k, id));
      WakeEveryoneAppends(WakeFirst(k, id), id);
    }
  }

  lemma ReadAppends(g: Guard, k: Kernel, id: int, bytes: seq<Byte>)
    requires Typed(k) && PipeOrNone(k, id)
    ensures OnlyAppends(k, SyncReadPipe(g, k, id, bytes).0)
  {
    if id in k.sync {
      ReadCast(g, k, id, bytes);
      var (q, res) := Read(g, k.sync[id].pipe, k.cur, |bytes|);
      if res.Got? {
        var k1 := Put(Store(k, id, APipe(q)), k.cur, k.procs[k.cur].(reg0 := |res.bytes|));
        EffectsAppend(k1, News(k.sync[id].pipe, q));
      }
    }
  }

  lemma WriteAppends(g: Guard, k: Kernel, id: int, bytes: seq<Byte>)
    requires Typed(k) && PipeOrNone(k, id)
    ensures OnlyAppends(k, SyncWritePipe(g, k, id, bytes).0)
  {
    if id in k.sync {
      WriteCast(g, k, id, bytes);
      var p, f := k.sync[id].pipe, k.procs[k.cur];
      var w := Write(g, p, k.cur, bytes);
      var f' := if WriteBlocks(p, bytes) then f.(waitPipe := id, buf := bytes, st := BLOCKED) else f.(reg0 := |bytes|);
      EffectsAppend(Put(Store(k, id, APipe(w)), k.cur, f'), News(p, w));
    }
  }

  lemma LocksAppend(k: Kernel, id: int, cvar: int)
    requires Typed(k) && LockOrNone(k, id)
    ensures OnlyAppends(k, SyncLockAcquire(k, id).0) && OnlyAppends(k, SyncLockRelease(k, id).0)
    ensures CvarOrNone(k, cvar) ==> OnlyAppends(k, SyncCvarWait(k, cvar, id).0)
  {
    if id in k.sync { assert OnlyAppends(k, PassOn(k, id)); }
  }

  lemma CvarsAppend(k: Kernel, id: int, noise: int)
    requires Typed(k) && CvarOrNone(k, id)
    ensures OnlyAppends(k, SyncCvarSignal(k, id).0) && OnlyAppends(k, SyncCvarBroadcast(k, id, noise).0)
  {
    if id in k.sync { WakeEveryoneAppends(k, id); }
  }

  lemma HandleAppends(g: Guard, requeue: bool, k: Kernel, t: Trap)
    requires Typed(k) && Possible(k, t) && t != Tick
    ensures OnlyAppends(k, Handle(g, requeue, k, t).0)
  {
    match t
    case SysDelay(ticks) => DelayAppends(k, ticks);
    case SysPipeRead(id, kbuf) => ReadAppends(g, k, id, kbuf);
    case SysPipeWrite(id, msg) => WriteAppends(g, k, id, msg);
    case SysLockAcquire(id) => LocksAppend(k, id, id);
    case SysLockRelease(id) => LocksAppend(k, id, id);
    case SysCvarWait(c, l) => LocksAppend(k, l, c);
    case SysSignal(id) => CvarsAppend(k, id, 0);
    case SysBroadcast(id, noise) => CvarsAppend(k, id, noise);
    case SysInit(s) => TableAppends(k, s, 0);
    case SysReclaim(id) => TableAppends(k, ALock(FREE), id);
    case SysFork(child) => ForkAppends(k, child);
  }

  lemma DelayAppends(k: Kernel, ticks: int)
    requires Typed(k)
    ensures OnlyAppends(k, Delay(k, ticks).0)
  {}

  lemma TableAppends(k: Kernel, s: Sync, id: int)
    requires Typed(k) && (s == APipe(EMPTY) || s == ALock(FREE) || s == ACvar(QUIET))
    ensures OnlyAppends(k, SyncInit(k, s).0) && OnlyAppends(k, KernelModel.SyncReclaim(k, id).0)
  {}

  lemma ForkAppends(k: Kernel, child: Pid)
    requires Typed(k) && child !in k.procs
    ensures OnlyAppends(k, Fork(k, child))
  {}

  // ---------------------------------------------------------------- bounded waiting

  /** No slice is longer than the default (pcb.c:50, kernel.c:51). */
  ghost predicate SlicesBounded(k: Kernel) {
    forall p <- k.procs :: k.procs[p].slice <= DEFAULT_TIMESLICE
  }

  /** Ticks the running process may still take while somebody is ready. */
  ghost function Budget(k: Kernel): nat
    requires k.cur in k.procs
  {
    var f := k.procs[k.cur];
    if f.runTime > f.slice then 1 else f.slice + 1 - f.runTime
  }

  /** Ticks within which the process at place i of the ready queue runs. */
  ghost function Deadline(k: Kernel, i: nat): nat
    requires k.cur in k.procs
  {
    Budget(k) + (DEFAULT_TIMESLICE + 1) * i
  }

  lemma SchedulePops(k: Kernel, i: nat)
    requires Typed(k) && SlicesBounded(k) && i < |k.ready|
    ensures var k' := Schedule(k);
            && SlicesBounded(k')
            && (i == 0 ==> k'.cur == k.ready[0])
            && (i > 0 ==>
                  && i - 1 < |k'.ready| && k'.ready[i - 1] == k.ready[i]
                  && Deadline(k', i - 1) <= (DEFAULT_TIMESLICE + 1) * i)
  {
    assert k.ready[0] in k.ready;
  }

  /** The sweep changes no slice. */
  lemma SweptSlices(k: Kernel, k': Kernel)
    requires Typed(k) && SlicesBounded(k) && Swept(k, k', [], k.delayed)
    ensures SlicesBounded(k')
  {
    forall p <- k'.procs
      ensures k'.procs[p].slice <= DEFAULT_TIMESLICE
    {
      assert p in k.procs;
    }
  }

  /** The running process is not in the delay queue; everybody in it stays the same or is ready. */
  lemma SweptCurrent(k: Kernel, lost: set<Pid>, k': Kernel)
    requires Settled(k, lost) && Swept(k, k', [], k.delayed)
    ensures k'.procs[k.cur] == k.procs[k.cur] && k.ready <= k'.ready
  {
    assert k.cur !in lost;
    assert Placed(k, k.cur);
  }

  lemma ChargedCounts(k: Kernel, lost: set<Pid>)
    requires Settled(k, lost) && SlicesBounded(k)
    ensures var k' := Charged(k);
            && k.ready <= k'.ready && k'.cur == k.cur && SlicesBounded(k')
            && k'.procs[k.cur] == k.procs[k.cur].(runTime := k.procs[k.cur].runTime + 1)
  {
    SweepIsPartition(k, lost);
    SweptSlices(k, UpdateDelayed(k));
    SweptCurrent(k, lost, UpdateDelayed(k));
  }

  lemma PreemptAppends(requeue: bool, k: Kernel)
    requires Typed(k) && SlicesBounded(k) && k.ready != []
    ensures var (k', switch) := Preempt(requeue, k);
            && SlicesBounded(k') && k.ready <= k'.ready
            && (!switch ==> k' == k && k.procs[k.cur].runTime <= k.procs[k.cur].slice)
  {}

  /** A step dispatches the process at place i, or leaves it at a place with an earlier deadline. */
  ghost predicate Advances(k: Kernel, k': Kernel, i: nat, i': nat, ticks: nat)
    requires Typed(k) && Typed(k') && i < |k.ready|
  {
    && SlicesBounded(k')
    && (k'.cur == k.ready[i]
        || (i' < |k'.ready| && k'.ready[i'] == k.ready[i] && Deadline(k', i') + ticks <= Deadline(k, i)))
  }

  lemma TickAdvances(g: Guard, requeue: bool, k: Kernel, lost: set<Pid>, i: nat) returns (i': nat)
    requires Settled(k, lost) && SlicesBounded(k) && i < |k.ready|
    ensures Advances(k, Step(g, requeue, k, Tick), i, i', 1)
  {
    ChargedCounts(k, lost);
    i' := PreemptAdvances(requeue, Charged(k), i);
    ChargeIsSpent(k, Charged(k), i);
    TickIs(g, requeue, k);
  }

  lemma TickIs(g: Guard, requeue: bool, k: Kernel)
    requires Typed(k)
    ensures var (k1, switch) := Preempt(requeue, Charged(k));
            Step(g, requeue, k, Tick) == if switch then Schedule(k1) else k1
  {}

  /** A tick is taken from the budget of the running process. */
  lemma ChargeIsSpent(k: Kernel, k': Kernel, i: nat)
    requires k'.cur == k.cur && k.cur in k.procs && k.cur in k'.procs
    requires k'.procs[k.cur] == k.procs[k.cur].(runTime := k.procs[k.cur].runTime + 1)
    ensures k'.procs[k.cur].runTime <= k'.procs[k.cur].slice ==> Deadline(k', i) + 1 == Deadline(k, i)
    ensures (DEFAULT_TIMESLICE + 1) * i + 1 <= Deadline(k, i)
  {}

  /** The end of the clock trap: the head of the ready queue runs, or the running process has some
      of its slice left. */
  lemma PreemptAdvances(requeue: bool, k: Kernel, i: nat) returns (i': nat)
    requires Typed(k) && SlicesBounded(k) && i < |k.ready|
    ensures var (k1, switch) := Preempt(requeue, k); var k' := if switch then Schedule(k1) else k1;
            && SlicesBounded(k')
            && (k'.cur == k.ready[i]
                || (i' < |k'.ready| && k'.ready[i'] == k.ready[i]
                    && if switch then Deadline(k', i') <= (DEFAULT_TIMESLICE + 1) * i
                       else k' == k && i' == i && k.procs[k.cur].runTime <= k.procs[k.cur].slice))
  {
    PreemptAppends(requeue, k);
    var (k1, switch) := Preempt(requeue, k);
    if switch {
      SchedulePops(k1, i);
      i' := if i == 0 then 0 else i - 1;
    } else {
      i' := i;
    }
  }

  lemma CallAdvances(g: Guard, requeue: bool, k: Kernel, t: Trap, i: nat) returns (i': nat)
    requires Typed(k) && Possible(k, t) && t != Tick && SlicesBounded(k) && i < |k.ready|
    ensures Advances(k, Step(g, requeue, k, t), i, i', 0)
  {
    HandleAppends(g, requeue, k, t);
    var (k1, switch) := Handle(g, requeue, k, t);
    HandleKeepsSlices(g, requeue, k, t);
    if switch {
      SchedulePops(k1, i);
      i' := if i == 0 then 0 else i - 1;
    } else {
      i' := i;
    }
  }

  lemma HandleKeepsSlices(g: Guard, requeue: bool, k: Kernel, t: Trap)
    requires Typed(k) && Possible(k, t) && t != Tick && SlicesBounded(k)
    ensures SlicesBounded(Handle(g, requeue, k, t).0)
  {
    HandleAppends(g, requeue, k, t);
    var k1 := Handle(g, requeue, k, t).0;
    forall p <- k1.procs
      ensures k1.procs[p].slice <= DEFAULT_TIMESLICE
    {
      if p in k.procs { assert k1.procs[p].slice == k.procs[p].slice; }
    }
  }

  function Ticks(ts: seq<Trap>): nat {
    if ts == [] then 0 else (if ts[0] == Tick then 1 else 0) + Ticks(ts[1..])
  }

  /** x runs after the first n traps, with at most d ticks among them. */
  ghost predicate RunsBy(g: Guard, requeue: bool, k: Kernel, ts: seq<Trap>, n: nat, x: Pid, d: nat)
    requires Typed(k)
  {
    0 < n <= |ts| && Ticks(ts[..n]) <= d && PossibleRun(g, requeue, k, ts[..n]) && Run(g, requeue, k, ts[..n]).cur == x
  }

  lemma RunsAtOnce(g: Guard, requeue: bool, k: Kernel, ts: seq<Trap>, x: Pid, d: nat)
    requires Typed(k) && ts != [] && Possible(k, ts[0]) && Step(g, requeue, k, ts[0]).cur == x && d > 0
    ensures RunsBy(g, requeue, k, ts, 1, x, d)
  {
    assert ts[..1] == [ts[0]] && ts[..1][1..] == [];
  }

  lemma RunsLater(g: Guard, requeue: bool, k: Kernel, ts: seq<Trap>, m: nat, x: Pid, d: nat)
    requires Typed(k) && ts != [] && Possible(k, ts[0]) && (ts[0] == Tick ==> d > 0)
    requires RunsBy(g, requeue, Step(g, requeue, k, ts[0]), ts[1..], m, x, if ts[0] == Tick then d - 1 else d)
    ensures RunsBy(g, requeue, k, ts, m + 1, x, d)
  {
    assert ts[..m + 1][0] == ts[0] && ts[..m + 1][1..] == ts[1..][..m];
  }

  lemma RunsSooner(g: Guard, requeue: bool, k: Kernel, ts: seq<Trap>, n: nat, x: Pid, d: nat, e: nat)
    requires Typed(k) && RunsBy(g, requeue, k, ts, n, x, d) && d <= e
    ensures RunsBy(g, requeue, k, ts, n, x, e)
  {}

  lemma StepAdvances(g: Guard, requeue: bool, k: Kernel, lost: set<Pid>, i: nat, t: Trap) returns (i': nat)
    requires Settled(k, lost) && SlicesBounded(k) && i < |k.ready| && Possible(k, t)
    ensures Advances(k, Step(g, requeue, k, t), i, i', if t == Tick then 1 else 0)
  {
    if t == Tick { i' := TickAdvances(g, requeue, k, lost, i); } else { i' := CallAdvances(g, requeue, k, t, i); }
  }

  lemma DeadlineIsNear(k: Kernel, i: nat)
    requires Typed(k) && SlicesBounded(k)
    ensures 0 < Deadline(k, i) <= (DEFAULT_TIMESLICE + 1) * (i + 1)
  {}

  /** In every run with enough ticks in it, whatever else blocks, wakes or expires, the process at
      place i of the ready queue runs before its deadline has passed. */
  lemma {:induction false} BoundedWaiting(g: Guard, requeue: bool, k: Kernel, lost: set<Pid>, i: nat, ts: seq<Trap>)
      returns (n: nat)
    requires Settled(k, lost) && SlicesBounded(k) && i < |k.ready|
    requires PossibleRun(g, requeue, k, ts) && Ticks(ts) >= Deadline(k, i)
    ensures RunsBy(g, requeue, k, ts, n, k.ready[i], Deadline(k, i))
            && Deadline(k, i) <= (DEFAULT_TIMESLICE + 1) * (i + 1)
    decreases |ts|
  {
    DeadlineIsNear(k, i);
    var k' := Step(g, requeue, k, ts[0]);
    var i' := StepAdvances(g, requeue, k, lost, i, ts[0]);
    if k'.cur == k.ready[i] {
      n := 1;
      RunsAtOnce(g, requeue, k, ts, k.ready[i], Deadline(k, i));
    } else {
      StepSettles(g, requeue, k, ts[0], lost);
      var m := BoundedWaiting(g, requeue, k', LostBy(requeue, k, ts[0], lost), i', ts[1..]);
      var d := if ts[0] == Tick then Deadline(k, i) - 1 else Deadline(k, i);
      RunsSooner(g, requeue, k', ts[1..], m, k.ready[i], Deadline(k', i'), d);
      RunsLater(g, requeue, k, ts, m, k.ready[i], Deadline(k, i));
      n := m + 1;
    }
  }

  // ---------------------------------------------------------------- a whole slice

  /** Whoever starts to run has none of its slice used up (syscalls.c:433). */
  lemma StartsAfresh(g: Guard, requeue: bool, k: Kernel, t: Trap)
    requires Typed(k) && Possible(k, t)
    ensures var k' := Step(g, requeue, k, t); k'.cur != k.cur ==> k'.procs[k'.cur].runTime == 0
  {
    HandleStaysAt(g, requeue, k, t);
    FreshFromSchedule(Handle(g, requeue, k, t).0);
  }

  lemma HandleStaysAt(g: Guard, requeue: bool, k: Kernel, t: Trap)
    requires Typed(k) && Possible(k, t)
    ensures Handle(g, requeue, k, t).0.cur == k.cur
  {}

  lemma FreshFromSchedule(k: Kernel)
    requires Typed(k)
    ensures Schedule(k).procs[Schedule(k).cur].runTime == 0
  {
    assert k.ready != [] ==> k.ready[0] in k.ready;
  }

  /** No call of the run ends in schedule. */
  ghost predicate NeverGivesWay(g: Guard, requeue: bool, k: Kernel, ts: seq<Trap>)
    requires Typed(k) && PossibleRun(g, requeue, k, ts)
    decreases |ts|
  {
    ts == [] || ((ts[0] == Tick || !Handle(g, requeue, k, ts[0]).1)
                 && NeverGivesWay(g, requeue, Step(g, requeue, k, ts[0]), ts[1..]))
  }

  lemma TickCharges(g: Guard, requeue: bool, k: Kernel, lost: set<Pid>)
    requires Settled(k, lost) && k.procs[k.cur].runTime < k.procs[k.cur].slice
    ensures var k' := Step(g, requeue, k, Tick);
            k'.cur == k.cur && k'.procs[k.cur] == k.procs[k.cur].(runTime := k.procs[k.cur].runTime + 1)
  {
    SweepIsPartition(k, lost);
    SweptCurrent(k, lost, UpdateDelayed(k));
  }

  /** As long as its ticks are within its slice, the running process goes on running, whoever becomes
      ready, until it gives way itself (traps.c:48-54). */
  lemma {:induction false} WithinItsSlice(g: Guard, requeue: bool, k: Kernel, lost: set<Pid>, ts: seq<Trap>)
    requires Settled(k, lost) && PossibleRun(g, requeue, k, ts) && NeverGivesWay(g, requeue, k, ts)
    requires k.procs[k.cur].runTime + Ticks(ts) <= k.procs[k.cur].slice
    ensures var k' := Run(g, requeue, k, ts);
            k'.cur == k.cur && k'.procs[k.cur].runTime == k.procs[k.cur].runTime + Ticks(ts)
                && k'.procs[k.cur].slice == k.procs[k.cur].slice
    decreases |ts|
  {
    if ts != [] {
      if ts[0] == Tick { TickCharges(g, requeue, k, lost); } else { HandleAppends(g, requeue, k, ts[0]); }
      StepSettles(g, requeue, k, ts[0], lost);
      WithinItsSlice(g, requeue, Step(g, requeue, k, ts[0]), LostBy(requeue, k, ts[0], lost), ts[1..]);
    }
  }

  // ---------------------------------------------------------------- who is left alone

  lemma {:induction false} EffectsSpare(k: Kernel, es: seq<Event>, x: Pid)
    requires Typed(k) && (forall p <- WokenPids(es) :: p in k.procs) && x in k.procs && x !in WokenPids(es)
    ensures Effects(k, es).procs[x] == k.procs[x]
    decreases |es|
  {
    if es != [] {
      assert forall p <- Woke(es[0]) :: p in WokenPids(es);
      assert forall p <- WokenPids(es[1..]) :: p in WokenPids(es);
      EffectsSpare(Effect(k, es[0]), es[1..], x);
    }
  }

  /** x is neither running nor asleep at any object. */
  ghost predicate Bystander(k: Kernel, x: Pid) {
    x in k.procs && x != k.cur && forall id <- k.sync :: x !in WaitList(k.sync[id])
  }

  /** x is neither running nor asleep at the object called id. */
  ghost predicate Aside(k: Kernel, x: Pid, id: int) {
    x in k.procs && x != k.cur && (id in k.sync ==> x !in WaitList(k.sync[id]))
  }

  /** The object whose sleepers a call may wake. */
  function Wakes(t: Trap): Option<int> {
    match t
    case SysPipeRead(id, _) => Some(id)
    case SysPipeWrite(id, _) => Some(id)
    case SysLockAcquire(id) => Some(id)
    case SysLockRelease(id) => Some(id)
    case SysCvarWait(_, lock) => Some(lock)
    case SysSignal(id) => Some(id)
    case SysBroadcast(id, _) => Some(id)
    case _ => None
  }

  lemma NotAsleep(k: Kernel, lost: set<Pid>, x: Pid)
    requires Settled(k, lost) && x in k.procs && x != k.cur && k.procs[x].st != BLOCKED && x !in lost
    ensures Bystander(k, x)
  {
    forall id <- k.sync
      ensures x !in WaitList(k.sync[id])
    {
      if x in WaitList(k.sync[id]) { SleeperSite(k, lost, id, x); }
    }
  }

  lemma NotWoken(p: Pipe, q: Pipe, added: multiset<Pid>, x: Pid)
    requires p.log <= q.log && x !in Sleepers(p) && x !in added
    requires multiset(Sleepers(p)) + added == multiset(WokenPids(News(p, q))) + multiset(Sleepers(q))
    ensures x !in WokenPids(News(p, q))
  {
    assert multiset(Sleepers(p))[x] == 0 && added[x] == 0;
    assert (multiset(Sleepers(p)) + added)[x] == 0;
    assert multiset(WokenPids(News(p, q)))[x] == 0;
  }

  lemma ReadSpares(g: Guard, k: Kernel, id: int, bytes: seq<Byte>, x: Pid)
    requires Typed(k) && PipeOrNone(k, id) && Aside(k, x, id)
    ensures SyncReadPipe(g, k, id, bytes).0.procs[x] == k.procs[x]
  {
    if id in k.sync {
      var p := k.sync[id].pipe;
      var (q, res) := Read(g, p, k.cur, |bytes|);
      assert x !in WaitList(k.sync[id]);
      ReadAccounted(g, p, k.cur, |bytes|);
      NotWoken(p, q, if res == ReadBlocked then multiset{k.cur} else multiset{}, x);
      ReadCast(g, k, id, bytes);
      if res.Got? {
        EffectsSpare(Put(Store(k, id, APipe(q)), k.cur, k.procs[k.cur].(reg0 := |res.bytes|)), News(p, q), x);
      }
    }
  }

  lemma WriteSpares(g: Guard, k: Kernel, id: int, bytes: seq<Byte>, x: Pid)
    requires Typed(k) && PipeOrNone(k, id) && Aside(k, x, id)
    ensures SyncWritePipe(g, k, id, bytes).0.procs[x] == k.procs[x]
  {
    if id in k.sync {
      var p, f := k.sync[id].pipe, k.procs[k.cur];
      var w := Write(g, p, k.cur, bytes);
      assert x !in WaitList(k.sync[id]);
      WriteAccounted(g, p, k.cur, bytes);
      NotWoken(p, w, if WriteBlocks(p, bytes) then multiset{k.cur} else multiset{}, x);
      WriteCast(g, k, id, bytes);
      var f' := if WriteBlocks(p, bytes) then f.(waitPipe := id, buf := bytes, st := BLOCKED) else f.(reg0 := |bytes|);
      EffectsSpare(Put(Store(k, id, APipe(w)), k.cur, f'), News(p, w), x);
    }
  }

  lemma LocksSpare(k: Kernel, id: int, cvar: int, x: Pid)
    requires Typed(k) && LockOrNone(k, id) && Aside(k, x, id)
    ensures SyncLockAcquire(k, id).0.procs[x] == k.procs[x] && SyncLockRelease(k, id).0.procs[x] == k.procs[x]
    ensures CvarOrNone(k, cvar) ==> SyncCvarWait(k, cvar, id).0.procs[x] == k.procs[x]
  {
    if id in k.sync {
      assert x !in WaitList(k.sync[id]);
      assert PassOn(k, id).procs[x] == k.procs[x];
    }
  }

  lemma {:induction false} WakeEveryoneSpares(k: Kernel, id: int, x: Pid)
    requires Typed(k) && id in k.sync && k.sync[id].ACvar? && x in k.procs && x !in k.sync[id].cvar.waiters
    ensures WakeEveryone(k, id).procs[x] == k.procs[x]
    decreases |k.sync[id].cvar.waiters|
  {
    if k.sync[id].cvar.waiters != [] {
      assert WakeFirst(k, id).procs[x] == k.procs[x];
      WakeEveryoneSpares(WakeFirst(k, id), id, x);
    }
  }

  lemma CvarsSpare(k: Kernel, id: int, noise: int, x: Pid)
    requires Typed(k) && CvarOrNone(k, id) && Aside(k, x, id)
    ensures SyncCvarSignal(k, id).0.procs[x] == k.procs[x] && SyncCvarBroadcast(k, id, noise).0.procs[x] == k.procs[x]
  {
    if id in k.sync {
      assert x !in WaitList(k.sync[id]);
      WakeEveryoneSpares(k, id, x);
    }
  }

  lemma CallSpares(g: Guard, requeue: bool, k: Kernel, t: Trap, x: Pid)
    requires Typed(k) && Possible(k, t) && t != Tick && x in k.procs && x != k.cur
    requires Wakes(t).Some? ==> Aside(k, x, Wakes(t).value)
    ensures Handle(g, requeue, k, t).0.procs[x] == k.procs[x]
  {
    match t
    case SysPipeRead(id, kbuf) => ReadSpares(g, k, id, kbuf, x);
    case SysPipeWrite(id, msg) => WriteSpares(g, k, id, msg, x);
    case SysLockAcquire(id) => LocksSpare(k, id, id, x);
    case SysLockRelease(id) => LocksSpare(k, id, id, x);
    case SysCvarWait(c, l) => LocksSpare(k, l, c, x);
    case SysSignal(id) => CvarsSpare(k, id, 0, x);
    case SysBroadcast(id, noise) => CvarsSpare(k, id, noise, x);
    case _ =>
  }

  // ---------------------------------------------------------------- delays

  /** x sleeps for d more ticks. */
  ghost predicate Sleeping(k: Kernel, x: Pid, d: nat) {
    x in k.procs && k.procs[x].st == DELAYED && k.procs[x].ticks == d
  }

  ghost predicate Awake(k: Kernel, x: Pid) {
    x in k.procs && (k.procs[x].st == READY || k.procs[x].st == RUNNING)
  }

  lemma ScheduleSpares(k: Kernel, x: Pid)
    requires Typed(k) && x in k.procs && x != k.cur && x !in k.ready && x != k.idle
    ensures Schedule(k).procs[x] == k.procs[x]
  {
    assert k.ready != [] ==> k.ready[0] in k.ready;
  }

  lemma StepDelays(g: Guard, requeue: bool, k: Kernel, t: Trap, lost: set<Pid>, x: Pid, d: nat)
    requires Settled(k, lost) && Possible(k, t) && Sleeping(k, x, d)
    ensures d > 0
    ensures t != Tick ==> Sleeping(Step(g, requeue, k, t), x, d)
    ensures t == Tick && d > 1 ==> Sleeping(Step(g, requeue, k, t), x, d - 1)
    ensures t == Tick && d == 1 ==> Awake(Step(g, requeue, k, t), x)
  {
    assert x !in lost;
    assert Placed(k, x);
    StepSettles(g, requeue, k, t, lost);
    if t == Tick {
      TickDelays(g, requeue, k, lost, x, d);
    } else {
      CallDelays(g, requeue, k, t, lost, x, d);
    }
  }

  /** No call touches a sleeper. */
  lemma CallDelays(g: Guard, requeue: bool, k: Kernel, t: Trap, lost: set<Pid>, x: Pid, d: nat)
    requires Settled(k, lost) && Possible(k, t) && Sleeping(k, x, d) && t != Tick
    ensures Sleeping(Step(g, requeue, k, t), x, d)
  {
    NotAsleep(k, lost, x);
    CallSpares(g, requeue, k, t, x);
    CallFiles(g, requeue, k, t, lost);
    StaysAside(Handle(g, requeue, k, t).0, lost, x);
    HandleKeepsCurrent(g, requeue, k, t);
  }

  lemma CallFiles(g: Guard, requeue: bool, k: Kernel, t: Trap, lost: set<Pid>)
    requires Settled(k, lost) && Possible(k, t) && t != Tick
    ensures Filed(Handle(g, requeue, k, t).0, lost)
  {
    Handled(g, requeue, k, t, lost);
  }

  lemma HandleKeepsCurrent(g: Guard, requeue: bool, k: Kernel, t: Trap)
    requires Typed(k) && Possible(k, t)
    ensures var k' := Handle(g, requeue, k, t).0; k'.cur == k.cur && k'.idle == k.idle
  {}

  lemma StaysAside(k: Kernel, lost: set<Pid>, x: Pid)
    requires Filed(k, lost) && x in k.procs && x !in lost && k.procs[x].st == DELAYED
    ensures x !in k.ready && x != k.idle && (x != k.cur ==> Schedule(k).procs[x] == k.procs[x])
  {
    assert Placed(k, x);
    if x != k.cur { ScheduleSpares(k, x); }
  }

  lemma SweepDelays(k: Kernel, lost: set<Pid>, x: Pid)
    requires Settled(k, lost) && x in k.delayed && x in k.procs && x != k.cur
    ensures Charged(k).procs[x] == Ticked(k.procs[x])
  {
    SweepIsPartition(k, lost);
  }

  lemma ClockDelays(requeue: bool, k: Kernel, lost: set<Pid>, x: Pid)
    requires Settled(k, lost) && x in k.delayed && x in k.procs && x != k.cur
    ensures Clock(requeue, k).0.procs[x] == Ticked(k.procs[x])
  {
    SweepDelays(k, lost, x);
    PreemptSpares(requeue, Charged(k), x);
  }

  /** A sleeper stays asleep, and a ready process awake, when schedule runs or does not. */
  lemma ScheduleOrNot(k: Kernel, lost: set<Pid>, x: Pid, switch: bool)
    requires Filed(k, lost) && x in k.procs && x !in lost && x != k.cur
    requires k.procs[x].st == DELAYED || k.procs[x].st == READY
    ensures var k' := if switch then Schedule(k) else k;
            if k.procs[x].st == DELAYED then k'.procs[x] == k.procs[x] else Awake(k', x)
  {
    if k.procs[x].st == DELAYED {
      StaysAside(k, lost, x);
    }
  }

  lemma TickDelays(g: Guard, requeue: bool, k: Kernel, lost: set<Pid>, x: Pid, d: nat)
    requires Settled(k, lost) && Sleeping(k, x, d) && d > 0 && x in k.delayed && x !in lost && x != k.idle
    ensures d > 1 ==> Sleeping(Step(g, requeue, k, Tick), x, d - 1)
    ensures d == 1 ==> Awake(Step(g, requeue, k, Tick), x)
  {
    ClockDelays(requeue, k, lost, x);
    ClockKeeps(requeue, k, lost);
    var (k1, switch) := Clock(requeue, k);
    ScheduleOrNot(k1, LostBy(requeue, k, Tick, lost), x, switch);
  }

  lemma PreemptSpares(requeue: bool, k: Kernel, x: Pid)
    requires Typed(k) && x in k.procs && x != k.cur
    ensures Preempt(requeue, k).0.procs[x] == k.procs[x]
  {}

  /** A process that delays d ticks is still asleep before the d-th tick, with the rest to go, in
      every run. */
  lemma {:induction false} SleepsUntil(g: Guard, requeue: bool, k: Kernel, lost: set<Pid>, x: Pid, d: nat,
                                       ts: seq<Trap>) returns (lost': set<Pid>)
    requires Settled(k, lost) && PossibleRun(g, requeue, k, ts) && Sleeping(k, x, d) && Ticks(ts) < d
    ensures Settled(Run(g, requeue, k, ts), lost') && Sleeping(Run(g, requeue, k, ts), x, d - Ticks(ts))
    decreases |ts|
  {
    lost' := lost;
    if ts != [] {
      StepDelays(g, requeue, k, ts[0], lost, x, d);
      StepSettles(g, requeue, k, ts[0], lost);
      var rest := if ts[0] == Tick then d - 1 else d;
      lost' := SleepsUntil(g, requeue, Step(g, requeue, k, ts[0]), LostBy(requeue, k, ts[0], lost), x, rest, ts[1..]);
    }
  }

  /** And at the d-th tick it is ready, or already running. */
  lemma WakesAtTheLastTick(g: Guard, requeue: bool, k: Kernel, lost: set<Pid>, x: Pid, d: nat, ts: seq<Trap>)
    requires Settled(k, lost) && PossibleRun(g, requeue, k, ts) && Sleeping(k, x, d) && Ticks(ts) == d - 1
    ensures Awake(Step(g, requeue, Run(g, requeue, k, ts), Tick), x)
  {
    var lost' := SleepsUntil(g, requeue, k, lost, x, d, ts);
    StepDelays(g, requeue, Run(g, requeue, k, ts), Tick, lost', x, 1);
  }

  /** SysDelay puts its caller to sleep for as long as it asked (syscalls.c:217-244). */
  lemma DelaySleeps(g: Guard, requeue: bool, k: Kernel, lost: set<Pid>, d: nat)
    requires Settled(k, lost) && k.cur != k.idle && d > 0
    ensures Sleeping(Step(g, requeue, k, SysDelay(d)), k.cur, d)
  {
    DelayKeeps(k, lost, d);
    var k1 := Delay(k, d).0;
    assert k1.procs[k.cur].st == DELAYED && k.cur !in lost;
    assert Placed(k1, k.cur);
    assert k1.ready != [] ==> k1.ready[0] in k1.ready;
  }

  // ---------------------------------------------------------------- results

  lemma TickSpares(requeue: bool, k: Kernel, lost: set<Pid>, x: Pid)
    requires Settled(k, lost) && x !in k.delayed && x in k.procs && x != k.cur
    ensures Clock(requeue, k).0.procs[x] == k.procs[x]
  {
    SweepIsPartition(k, lost);
    PreemptSpares(requeue, Charged(k), x);
  }

  /** What a sleeper was woken with reaches it: a ready process keeps its registers until it is
      dispatched, and then returns with them. */
  lemma ResultArrives(g: Guard, requeue: bool, k: Kernel, t: Trap, lost: set<Pid>, x: Pid)
    requires Settled(k, lost) && Possible(k, t) && x in k.procs && k.procs[x].st == READY
    ensures var k' := Step(g, requeue, k, t);
            if k'.cur == x then k'.frame == k.procs[x].reg0 && k'.procs[x].buf == k.procs[x].buf
            else k'.procs[x] == k.procs[x]
  {
    ReadyIsSpared(g, requeue, k, t, lost, x);
    HandleKeepsCurrent(g, requeue, k, t);
    var (k1, switch) := Handle(g, requeue, k, t);
    if switch { ScheduleArrives(k1, x); }
  }

  /** A trap up to its schedule leaves a ready process alone. */
  lemma ReadyIsSpared(g: Guard, requeue: bool, k: Kernel, t: Trap, lost: set<Pid>, x: Pid)
    requires Settled(k, lost) && Possible(k, t) && x in k.procs && k.procs[x].st == READY
    ensures x != k.cur && x in Handle(g, requeue, k, t).0.procs && Handle(g, requeue, k, t).0.procs[x] == k.procs[x]
  {
    assert x !in lost;
    assert Placed(k, x);
    if t == Tick {
      TickSpares(requeue, k, lost, x);
    } else {
      NotAsleep(k, lost, x);
      CallSpares(g, requeue, k, t, x);
    }
  }

  lemma ScheduleArrives(k: Kernel, x: Pid)
    requires Typed(k) && x in k.procs && x != k.cur
    ensures var k' := Schedule(k);
            if k'.cur == x then k'.frame == k.procs[x].reg0 && k'.procs[x].buf == k.procs[x].buf
            else k'.procs[x] == k.procs[x]
  {
    assert k.ready != [] ==> k.ready[0] in k.ready;
  }

  lemma EffectsKeepFrame(g: Guard, k: Kernel, id: int, msg: seq<Byte>)
    requires Typed(k) && id in k.sync && k.sync[id].APipe?
    ensures SyncWritePipe(g, k, id, msg).0.frame == k.frame
  {
    WriteCast(g, k, id, msg);
    var p, f := k.sync[id].pipe, k.procs[k.cur];
    var w := Write(g, p, k.cur, msg);
    var f' := if WriteBlocks(p, msg) then f.(waitPipe := id, buf := msg, st := BLOCKED) else f.(reg0 := |msg|);
    FrameKept(Put(Store(k, id, APipe(w)), k.cur, f'), News(p, w));
  }

  lemma {:induction false} FrameKept(k: Kernel, es: seq<Event>)
    requires Typed(k) && forall p <- WokenPids(es) :: p in k.procs
    ensures Effects(k, es).frame == k.frame
    decreases |es|
  {
    if es != [] {
      assert forall p <- Woke(es[0]) :: p in WokenPids(es);
      assert forall p <- WokenPids(es[1..]) :: p in WokenPids(es);
      FrameKept(Effect(k, es[0]), es[1..]);
    }
  }
}
