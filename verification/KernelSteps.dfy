/** Every trap keeps every process on exactly the queue its tag says. */
module KernelSteps {
  import opened Hardware
  import opened Pipes
  import opened PipeWakes
  import opened Locks
  import opened KernelModel
  import opened KernelInvariant
  import opened DelaySweep

  /** Processes lost: set aside in the default state, on no queue, and not idle. */
  ghost predicate AreLost(k: Kernel, lost: set<Pid>) {
    forall p <- lost :: p in k.procs && k.procs[p].st == DEFAULT && p != k.idle
  }

  /** Between traps: one process runs, the one current_process points to. */
  ghost predicate Settled(k: Kernel, lost: set<Pid>) {
    Filed(k, lost) && AreLost(k, lost) && forall p <- k.procs :: k.procs[p].st == RUNNING <==> p == k.cur
  }

  /** When schedule is called: nobody is marked as running. */
  ghost predicate Parked(k: Kernel, lost: set<Pid>) {
    Filed(k, lost) && AreLost(k, lost) && forall p <- k.procs :: k.procs[p].st != RUNNING
  }

  // ---------------------------------------------------------------- schedule

  lemma PopReady(k: Kernel, loose: set<Pid>)
    requires Filed(k, loose) && k.ready != []
    ensures var x := k.ready[0];
            x in k.procs && x !in loose && k.procs[x].st == READY && SiteOf(k.procs[x]) == Nowhere && x != k.idle
    ensures Filed(k.(ready := k.ready[1..]), loose + {k.ready[0]})
  {
    var x := k.ready[0];
    assert x in k.ready;
    assert Placed(k, x);
    var k' := k.(ready := k.ready[1..]);
    var more := loose + {x};
    assert k.ready == [x] + k'.ready;
    Members(k.ready, [x], k'.ready);
    forall p <- k'.procs
      ensures if p in more then p !in k'.ready && p !in k'.delayed else Placed(k', p)
    {
      if p !in loose { assert Placed(k, p); }
    }
    forall id <- k'.sync
      ensures QueueOk(k', more, id)
    {
      assert QueueOk(k, loose, id);
    }
  }

  lemma DispatchFiles(k: Kernel, lost: set<Pid>, x: Pid)
    requires Filed(k, lost + {x}) && x !in lost && x in k.procs && SiteOf(k.procs[x]) == Nowhere
    ensures Filed(Put(k, x, k.procs[x].(runTime := 0, st := RUNNING)), lost)
  {
    PutDown(k, lost + {x}, x, k.procs[x].(runTime := 0, st := RUNNING));
    assert lost + {x} - {x} == lost;
  }

  lemma ScheduleIdle(k: Kernel, lost: set<Pid>)
    requires Parked(k, lost) && k.ready == []
    ensures Filed(Schedule(k), lost)
  {
    var saved := k.procs[k.cur].(reg0 := k.frame);
    TouchUp(k, lost, k.cur, saved);
    var k1 := Put(k, k.cur, saved);
    TakeUp(k1, lost, k.idle);
    DispatchFiles(k1, lost, k.idle);
    assert k1.(ready := []) == k1;
  }

  lemma ScheduleHead(k: Kernel, lost: set<Pid>)
    requires Parked(k, lost) && k.ready != []
    ensures Filed(Schedule(k), lost)
  {
    TouchUp(k, lost, k.cur, k.procs[k.cur].(reg0 := k.frame));
    HeadRuns(SaveFrame(k), lost);
    ScheduleIs(k);
    Redirected(Put(SaveFrame(k).(ready := k.ready[1..]), k.ready[0],
                   SaveFrame(k).procs[k.ready[0]].(runTime := 0, st := RUNNING)), lost, k.ready[0]);
  }

  /** Who current_process is, and the frame, do not matter to the filing. */
  lemma Redirected(k: Kernel, lost: set<Pid>, x: Pid)
    requires Filed(k, lost) && x in k.procs
    ensures Filed(k.(cur := x, frame := k.procs[x].reg0), lost)
  {
    var k' := k.(cur := x, frame := k.procs[x].reg0);
    forall p <- k'.procs
      ensures if p in lost then p !in k'.ready && p !in k'.delayed else Placed(k', p)
    {
      if p !in lost { assert Placed(k, p); }
    }
    forall id <- k'.sync
      ensures QueueOk(k', lost, id)
    {
      assert QueueOk(k, lost, id);
    }
  }

  lemma HeadRuns(k: Kernel, lost: set<Pid>)
    requires Filed(k, lost) && k.ready != []
    ensures k.ready[0] in k.procs
    ensures Filed(Put(k.(ready := k.ready[1..]), k.ready[0], k.procs[k.ready[0]].(runTime := 0, st := RUNNING)), lost)
  {
    PopReady(k, lost);
    DispatchFiles(k.(ready := k.ready[1..]), lost, k.ready[0]);
  }

  lemma ScheduleIs(k: Kernel)
    requires Typed(k) && k.ready != []
    ensures var k1, x := SaveFrame(k), k.ready[0];
            && x in k1.procs
            && var k2 := Put(k1.(ready := k.ready[1..]), x, k1.procs[x].(runTime := 0, st := RUNNING));
               && Schedule(k) == k2.(cur := x, frame := k2.procs[x].reg0)
  {
    assert k.ready[0] in k.ready;
  }

  lemma ScheduleSettles(k: Kernel, lost: set<Pid>)
    requires Parked(k, lost)
    ensures Settled(Schedule(k), lost)
  {
    if k.ready == [] { ScheduleIdle(k, lost); } else { ScheduleHead(k, lost); }
    var k' := Schedule(k);
    forall p <- k'.procs
      ensures k'.procs[p].st == RUNNING <==> p == k'.cur
      ensures p in lost ==> k'.procs[p].st == DEFAULT
    {
      if k.ready != [] { PopReady(k, lost); }
    }
  }

  // ---------------------------------------------------------------- the clock and delays

  /** A process on no queue may be rewritten freely. */
  lemma Rewrite(k: Kernel, loose: set<Pid>, x: Pid, f: Proc)
    requires Filed(k, loose) && x in loose && x in k.procs
    ensures Filed(Put(k, x, f), loose)
  {
    var k' := Put(k, x, f);
    forall p <- k'.procs
      ensures if p in loose then p !in k'.ready && p !in k'.delayed else Placed(k', p)
    {
      if p !in loose { assert Placed(k, p); }
    }
    forall id <- k'.sync
      ensures QueueOk(k', loose, id)
    {
      assert QueueOk(k, loose, id);
    }
  }

  lemma SweepSettled(k: Kernel, lost: set<Pid>)
    requires Settled(k, lost)
    ensures Settled(UpdateDelayed(k), lost)
    ensures UpdateDelayed(k).procs[k.cur] == k.procs[k.cur]
  {
    SweepIsPartition(k, lost);
    var k' := UpdateDelayed(k);
    forall p <- k.delayed
      ensures k.procs[p].st == DELAYED && p !in lost
    {
      assert p !in lost;
      assert Placed(k, p);
    }
    forall p <- k'.procs
      ensures k'.procs[p].st == RUNNING <==> p == k.cur
      ensures p in lost ==> k'.procs[p] == k.procs[p]
    {}
  }

  lemma TouchCurrent(k: Kernel, lost: set<Pid>, f: Proc)
    requires Settled(k, lost)
    requires var was := k.procs[k.cur];
             f.st == was.st && f.waitPipe == was.waitPipe && f.waitLock == was.waitLock && f.waitCvar == was.waitCvar
    ensures Settled(Put(k, k.cur, f), lost)
  {
    TouchUp(k, lost, k.cur, f);
  }

  lemma ChargedSettled(k: Kernel, lost: set<Pid>)
    requires Settled(k, lost)
    ensures Settled(Charged(k), lost)
    ensures Charged(k).procs[k.cur] == k.procs[k.cur].(runTime := k.procs[k.cur].runTime + 1)
  {
    SweepSettled(k, lost);
    ChargeSettled(UpdateDelayed(k), lost);
  }

  lemma ChargeIs(k: Kernel)
    requires Typed(k)
    ensures ChargeCurrent(k) == Put(k, k.cur, k.procs[k.cur].(runTime := k.procs[k.cur].runTime + 1))
  {}

  lemma ChargeSettled(k: Kernel, lost: set<Pid>)
    requires Settled(k, lost)
    ensures Settled(ChargeCurrent(k), lost)
  {
    ChargeIs(k);
    TouchCurrent(k, lost, k.procs[k.cur].(runTime := k.procs[k.cur].runTime + 1));
  }

  /** The running process leaves; from here on nobody is marked as running. */
  lemma StopRunning(k: Kernel, lost: set<Pid>)
    requires Settled(k, lost)
    ensures Filed(k, lost + {k.cur}) && SiteOf(k.procs[k.cur]) == Nowhere && k.cur !in lost
            && lost + {k.cur} - {k.cur} == lost
  {
    TakeUp(k, lost, k.cur);
  }

  lemma IdleSetAside(k: Kernel, lost: set<Pid>)
    requires Settled(k, lost) && k.cur == k.idle
    ensures Parked(SetAside(k), lost)
  {
    StopRunning(k, lost);
    PutDown(k, lost + {k.cur}, k.cur, k.procs[k.cur].(st := DEFAULT));
  }

  lemma Requeued(k: Kernel, lost: set<Pid>)
    requires Settled(k, lost) && k.cur != k.idle
    ensures Parked(AddToReady(SetAside(k), k.cur), lost)
  {
    StopRunning(k, lost);
    JoinReady(k, lost + {k.cur}, k.cur, k.procs[k.cur].(st := DEFAULT));
  }

  lemma Forgotten(k: Kernel, lost: set<Pid>)
    requires Settled(k, lost) && k.cur != k.idle
    ensures Parked(SetAside(k), lost + {k.cur})
  {
    StopRunning(k, lost);
    Rewrite(k, lost + {k.cur}, k.cur, k.procs[k.cur].(st := DEFAULT));
  }

  lemma PreemptKeeps(requeue: bool, k: Kernel, lost: set<Pid>)
    requires Settled(k, lost)
    ensures var (k', switch) := Preempt(requeue, k);
            && switch == Preempts(k)
            && if !switch then Settled(k', lost)
               else Parked(k', if requeue || k.cur == k.idle then lost else lost + {k.cur})
  {
    if Preempts(k) {
      if k.cur == k.idle {
        IdleSetAside(k, lost);
      } else if requeue {
        Requeued(k, lost);
      } else {
        Forgotten(k, lost);
      }
    }
  }

  /** The clock trap loses exactly the process it preempts, unless it is idle or put back. */
  lemma ClockKeeps(requeue: bool, k: Kernel, lost: set<Pid>)
    requires Settled(k, lost)
    ensures var (k', switch) := Clock(requeue, k);
            && switch == Preempts(Charged(k))
            && if !switch then Settled(k', lost)
               else Parked(k', if requeue || k.cur == k.idle then lost else lost + {k.cur})
  {
    ChargedSettled(k, lost);
    PreemptKeeps(requeue, Charged(k), lost);
  }

  lemma DelayKeeps(k: Kernel, lost: set<Pid>, ticks: int)
    requires Settled(k, lost) && k.cur != k.idle
    ensures var (k', switch) := Delay(k, ticks);
            if switch then Parked(k', lost) else Settled(k', lost)
  {
    var x, f := k.cur, k.procs[k.cur].(st := DEFAULT);
    if ticks > 0 {
      var k1 := k.(frame := 0);
      assert Settled(k1, lost) by { Reframed(k, lost, 0); }
      assert x !in lost;
      TakeUp(k1, lost, x);
      assert lost + {x} - {x} == lost;
      JoinDelay(k1, lost + {x}, x, f, ticks);
    } else {
      Reframed(k, lost, if ticks < 0 then ERROR else 0);
    }
  }

  lemma Reframed(k: Kernel, lost: set<Pid>, v: int)
    requires Settled(k, lost)
    ensures Settled(k.(frame := v), lost)
  {
    var k' := k.(frame := v);
    forall p <- k'.procs
      ensures if p in lost then p !in k'.ready && p !in k'.delayed else Placed(k', p)
    {
      if p !in lost { assert Placed(k, p); }
    }
    forall id <- k'.sync
      ensures QueueOk(k', lost, id)
    {
      assert QueueOk(k, lost, id);
    }
  }

  /** A new process goes straight to the ready queue. */
  lemma ForkKeeps(k: Kernel, lost: set<Pid>, child: Pid)
    requires Settled(k, lost) && child !in k.procs
    ensures Settled(Fork(k, child), lost)
  {
    var f := Proc(DEFAULT, 0, DEFAULT_TIMESLICE, 0, k.frame, -1, -1, -1, []);
    var k1 := Put(k, child, f);
    NewProcess(k, lost, child, f);
    JoinReady(k1, lost + {child}, child, f);
    assert lost + {child} - {child} == lost;
    var k2 := AddToReady(k1, child);
    assert Put(k1, child, f) == k1;
    assert Settled(k2, lost);
    Reframed(k2, lost, child);
  }

  lemma NewProcess(k: Kernel, lost: set<Pid>, x: Pid, f: Proc)
    requires Filed(k, lost) && x !in k.procs
    ensures Filed(Put(k, x, f), lost + {x})
  {
    var k' := Put(k, x, f);
    forall p <- k'.procs
      ensures if p in lost + {x} then p !in k'.ready && p !in k'.delayed else Placed(k', p)
    {
      if p in k.procs && p !in lost { assert Placed(k, p); }
    }
    forall id <- k'.sync
      ensures QueueOk(k', lost + {x}, id)
    {
      assert QueueOk(k, lost, id);
    }
  }
}
