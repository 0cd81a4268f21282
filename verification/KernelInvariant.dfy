/** Where every process is: the state tag of each process agrees with the one queue it is on, in
    every run.  Processes are followed even while they are between queues. */
module KernelInvariant {
  import opened Hardware
  import opened Pipes
  import opened PipeWakes
  import opened Locks
  import opened KernelModel

  /** Where the waiting_* fields of a PCB say it sleeps. */
  datatype Site = Nowhere | AtPipe(id: int) | AtLock(id: int) | AtCvar(id: int)

  function SiteOf(f: Proc): Site {
    if f.waitPipe != -1 then AtPipe(f.waitPipe)
    else if f.waitLock != -1 then AtLock(f.waitLock)
    else if f.waitCvar != -1 then AtCvar(f.waitCvar)
    else Nowhere
  }

  predicate OneSite(f: Proc) {
    (f.waitPipe == -1 || (f.waitLock == -1 && f.waitCvar == -1)) && (f.waitLock == -1 || f.waitCvar == -1)
  }

  function SiteAt(s: Sync, id: int): Site {
    match s
    case APipe(_) => AtPipe(id)
    case ALock(_) => AtLock(id)
    case ACvar(_) => AtCvar(id)
  }

  /** The tag, the queues and the waiting_* fields of p agree. */
  ghost predicate Placed(k: Kernel, p: Pid)
    requires p in k.procs
  {
    var f := k.procs[p];
    && (f.st == READY <==> p in k.ready)
    && (f.st == DELAYED <==> p in k.delayed)
    && (f.st == BLOCKED <==> SiteOf(f) != Nowhere)
    && OneSite(f)
    && (SiteOf(f) != Nowhere ==>
          var i := SiteOf(f).id; i in k.sync && SiteAt(k.sync[i], i) == SiteOf(f) && p in WaitList(k.sync[i]))
    && (f.st == DEFAULT ==> p == k.idle)
    && (p == k.idle ==> f.st == DEFAULT || f.st == RUNNING)
    && (f.st == DELAYED ==> f.ticks > 0)
  }

  ghost predicate QueueOk(k: Kernel, loose: set<Pid>, id: int)
    requires id in k.sync
  {
    && 0 <= id < MAX_SYNCS
    && NoDup(WaitList(k.sync[id]))
    && forall p <- WaitList(k.sync[id]) ::
         p in k.procs && p !in loose && SiteOf(k.procs[p]) == SiteAt(k.sync[id], id)
  }

  /** Every process outside `loose` is where its tag says and nowhere else; those in `loose` are on
      no queue at all. */
  ghost predicate Filed(k: Kernel, loose: set<Pid>) {
    && Typed(k)
    && NoDup(k.ready) && NoDup(k.delayed)
    && (forall p <- k.procs :: if p in loose then p !in k.ready && p !in k.delayed else Placed(k, p))
    && forall id <- k.sync :: QueueOk(k, loose, id)
  }

  // ---------------------------------------------------------------- single moves

  /** A process on no queue joins the ready queue: the guard of add_to_ready_queue lets it pass. */
  lemma JoinReady(k: Kernel, loose: set<Pid>, x: Pid, f: Proc)
    requires Filed(k, loose) && x in loose && x in k.procs && x != k.idle
    requires f.st == DEFAULT && SiteOf(f) == Nowhere
    ensures var k' := AddToReady(Put(k, x, f), x);
            && Filed(k', loose - {x})
            && k' == Put(k, x, f.(st := READY)).(ready := k.ready + [x])
  {
    var k' := AddToReady(Put(k, x, f), x);
    var rest := loose - {x};
    forall p <- k'.procs
      ensures if p in rest then p !in k'.ready && p !in k'.delayed else Placed(k', p)
    {
      assert p in k'.ready <==> p in k.ready || p == x;
      if p != x && p !in loose { assert Placed(k, p); }
    }
    forall id <- k'.sync
      ensures QueueOk(k', rest, id)
    {
      assert QueueOk(k, loose, id);
    }
  }

  lemma JoinDelay(k: Kernel, loose: set<Pid>, x: Pid, f: Proc, ticks: int)
    requires Filed(k, loose) && x in loose && x in k.procs && x != k.idle && ticks > 0
    requires f.st == DEFAULT && SiteOf(f) == Nowhere
    ensures var k' := AddToDelay(Put(k, x, f), x, ticks);
            && Filed(k', loose - {x})
            && k' == Put(k, x, f.(st := DELAYED, ticks := ticks)).(delayed := k.delayed + [x])
  {
    var k' := AddToDelay(Put(k, x, f), x, ticks);
    var rest := loose - {x};
    forall p <- k'.procs
      ensures if p in rest then p !in k'.ready && p !in k'.delayed else Placed(k', p)
    {
      assert p in k'.delayed <==> p in k.delayed || p == x;
      if p != x && p !in loose { assert Placed(k, p); }
    }
    forall id <- k'.sync
      ensures QueueOk(k', rest, id)
    {
      assert QueueOk(k, loose, id);
    }
  }

  /** The two states differ in the object called id and in the process x only. */
  ghost predicate Slept(k: Kernel, loose: set<Pid>, x: Pid, f: Proc, id: int, s: Sync) {
    && Filed(k, loose) && x in loose && x in k.procs && x != k.idle && id in k.sync
    && SyncTyped(k, s) && SiteAt(s, id) == SiteAt(k.sync[id], id)
    && (forall p :: p in WaitList(s) <==> p in WaitList(k.sync[id]) || p == x) && NoDup(WaitList(s))
    && f.st == BLOCKED && SiteOf(f) == SiteAt(s, id) && OneSite(f)
  }

  lemma JoinPlaced(k: Kernel, loose: set<Pid>, x: Pid, f: Proc, id: int, s: Sync, p: Pid)
    requires Slept(k, loose, x, f, id, s) && p in k.procs
    ensures var k' := Put(Store(k, id, s), x, f);
            if p in loose - {x} then p !in k'.ready && p !in k'.delayed else Placed(k', p)
  {
    if p != x && p !in loose { assert Placed(k, p); }
  }

  lemma JoinQueue(k: Kernel, loose: set<Pid>, x: Pid, f: Proc, id: int, s: Sync, j: int)
    requires Slept(k, loose, x, f, id, s) && j in k.sync
    ensures QueueOk(Put(Store(k, id, s), x, f), loose - {x}, j)
  {
    assert QueueOk(k, loose, j);
    assert QueueOk(k, loose, id);
  }

  /** A process on no queue falls asleep at an object. */
  lemma JoinSleepers(k: Kernel, loose: set<Pid>, x: Pid, f: Proc, id: int, s: Sync)
    requires Filed(k, loose) && x in loose && x in k.procs && x != k.idle && id in k.sync
    requires SyncTyped(k, s) && SiteAt(s, id) == SiteAt(k.sync[id], id)
    requires multiset(WaitList(s)) == multiset(WaitList(k.sync[id])) + multiset([x])
    requires f.st == BLOCKED && SiteOf(f) == SiteAt(s, id) && OneSite(f)
    ensures Filed(Put(Store(k, id, s), x, f), loose - {x})
  {
    OneMoreWaits(k, loose, x, id, s);
    SleptFiles(k, loose, x, f, id, s);
  }

  lemma OneMoreWaits(k: Kernel, loose: set<Pid>, x: Pid, id: int, s: Sync)
    requires id in k.sync && QueueOk(k, loose, id) && x in loose
    requires multiset(WaitList(s)) == multiset(WaitList(k.sync[id])) + multiset([x])
    ensures (forall p :: p in WaitList(s) <==> p in WaitList(k.sync[id]) || p == x) && NoDup(WaitList(s))
  {
    Members(WaitList(s), WaitList(k.sync[id]), [x]);
  }

  lemma SleptFiles(k: Kernel, loose: set<Pid>, x: Pid, f: Proc, id: int, s: Sync)
    requires Slept(k, loose, x, f, id, s)
    ensures Filed(Put(Store(k, id, s), x, f), loose - {x})
  {
    var k' := Put(Store(k, id, s), x, f);
    forall p <- k'.procs
      ensures if p in loose - {x} then p !in k'.ready && p !in k'.delayed else Placed(k', p)
    {
      JoinPlaced(k, loose, x, f, id, s, p);
    }
    forall j <- k'.sync
      ensures QueueOk(k', loose - {x}, j)
    {
      JoinQueue(k, loose, x, f, id, s, j);
    }
  }

  /** Processes leave the queue of an object and are, for the moment, on none. */
  lemma LeaveSleepers(k: Kernel, loose: set<Pid>, id: int, s: Sync, gone: seq<Pid>)
    requires Filed(k, loose) && id in k.sync
    requires SyncTyped(k, s) && SiteAt(s, id) == SiteAt(k.sync[id], id)
    requires multiset(WaitList(k.sync[id])) == multiset(gone) + multiset(WaitList(s))
    ensures Filed(Store(k, id, s), loose + ToSet(gone))
    ensures NoDup(gone)
            && forall x <- gone ::
                x in k.procs && x !in loose && Placed(k, x) && x != k.idle && SiteOf(k.procs[x]) == SiteAt(s, id)
  {
    assert QueueOk(k, loose, id);
    Members(WaitList(k.sync[id]), gone, WaitList(s));
    Leavers(k, loose, id, gone);
    StayersFiled(k, loose, id, s, gone);
  }

  lemma Leavers(k: Kernel, loose: set<Pid>, id: int, gone: seq<Pid>)
    requires Filed(k, loose) && id in k.sync && forall x <- gone :: x in WaitList(k.sync[id])
    ensures forall x <- gone ::
            x in k.procs && x !in loose && Placed(k, x) && x != k.idle && SiteOf(k.procs[x]) == SiteAt(k.sync[id], id)
  {
    assert QueueOk(k, loose, id);
    forall x <- gone
      ensures x in k.procs && Placed(k, x)
    {}
  }

  lemma StayersFiled(k: Kernel, loose: set<Pid>, id: int, s: Sync, gone: seq<Pid>)
    requires Filed(k, loose) && id in k.sync && SyncTyped(k, s) && SiteAt(s, id) == SiteAt(k.sync[id], id)
    requires forall x :: x in WaitList(k.sync[id]) <==> x in gone || x in WaitList(s)
    requires NoDup(WaitList(s)) && forall x <- gone :: x !in WaitList(s)
    ensures Filed(Store(k, id, s), loose + ToSet(gone))
  {
    var k' := Store(k, id, s);
    var more := loose + ToSet(gone);
    forall p <- k'.procs
      ensures if p in more then p !in k'.ready && p !in k'.delayed else Placed(k', p)
    {
      LeavePlaced(k, loose, id, s, gone, p);
    }
    forall j <- k'.sync
      ensures QueueOk(k', more, j)
    {
      StayQueue(k, loose, id, s, gone, j);
    }
  }

  lemma StayQueue(k: Kernel, loose: set<Pid>, id: int, s: Sync, gone: seq<Pid>, j: int)
    requires Filed(k, loose) && id in k.sync && SiteAt(s, id) == SiteAt(k.sync[id], id) && j in k.sync
    requires forall x :: x in WaitList(k.sync[id]) <==> x in gone || x in WaitList(s)
    requires NoDup(WaitList(s)) && forall x <- gone :: x !in WaitList(s)
    ensures QueueOk(Store(k, id, s), loose + ToSet(gone), j)
  {
    assert QueueOk(k, loose, j) && QueueOk(k, loose, id);
  }

  lemma LeavePlaced(k: Kernel, loose: set<Pid>, id: int, s: Sync, gone: seq<Pid>, p: Pid)
    requires Filed(k, loose) && id in k.sync && SiteAt(s, id) == SiteAt(k.sync[id], id) && p in k.procs
    requires forall x :: x in WaitList(k.sync[id]) <==> x in gone || x in WaitList(s)
    ensures var k' := Store(k, id, s);
            if p in loose + ToSet(gone) then p !in k'.ready && p !in k'.delayed else Placed(k', p)
  {
    assert QueueOk(k, loose, id);
    if p !in loose { assert Placed(k, p); }
  }

  function ToSet(s: seq<Pid>): set<Pid> {
    set x | x in s
  }

  /** The running process is on no queue. */
  lemma TakeUp(k: Kernel, loose: set<Pid>, x: Pid)
    requires Filed(k, loose) && x in k.procs && x !in loose && (k.procs[x].st == RUNNING || k.procs[x].st == DEFAULT)
    ensures Filed(k, loose + {x}) && SiteOf(k.procs[x]) == Nowhere
  {
    assert Placed(k, x);
    var more := loose + {x};
    forall id <- k.sync
      ensures QueueOk(k, more, id)
    {
      assert QueueOk(k, loose, id);
    }
  }

  /** Fields the filing does not depend on may change freely. */
  lemma TouchUp(k: Kernel, loose: set<Pid>, x: Pid, f: Proc)
    requires Filed(k, loose) && x in k.procs
    requires var was := k.procs[x];
             f.st == was.st && f.waitPipe == was.waitPipe && f.waitLock == was.waitLock && f.waitCvar == was.waitCvar
                 && (f.st == DELAYED ==> f.ticks > 0)
    ensures Filed(Put(k, x, f), loose)
  {
    var k' := Put(k, x, f);
    forall p <- k'.procs
      ensures if p in loose then p !in k'.ready && p !in k'.delayed else Placed(k', p)
    {
      if p !in loose { assert Placed(k, p); }
    }
    forall id <- k'.sync
      ensures QueueOk(k', loose, id)
    {
      assert QueueOk(k, loose, id);
    }
  }

  /** A process on no queue starts to run, or is set aside if it is idle. */
  lemma PutDown(k: Kernel, loose: set<Pid>, x: Pid, f: Proc)
    requires Filed(k, loose) && x in loose && x in k.procs
    requires (f.st == RUNNING || (f.st == DEFAULT && x == k.idle)) && SiteOf(f) == Nowhere
    ensures Filed(Put(k, x, f), loose - {x})
  {
    var k' := Put(k, x, f);
    var rest := loose - {x};
    forall p <- k'.procs
      ensures if p in rest then p !in k'.ready && p !in k'.delayed else Placed(k', p)
    {
      if p !in loose { assert Placed(k, p); }
    }
    forall id <- k'.sync
      ensures QueueOk(k', rest, id)
    {
      assert QueueOk(k, loose, id);
    }
  }
}
