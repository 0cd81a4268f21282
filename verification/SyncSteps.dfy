/** Every sync call keeps every process on exactly the queue its tag says. */
module SyncSteps {
  import opened Hardware
  import opened Pipes
  import opened PipeWakes
  import opened Locks
  import opened KernelModel
  import opened KernelInvariant
  import opened KernelSteps

  // ---------------------------------------------------------------- waking

  /** k' is k after `ps` were made ready, in this order, and nobody else was touched. */
  ghost predicate MadeReady(k: Kernel, k': Kernel, ps: seq<Pid>) {
    && k'.procs.Keys == k.procs.Keys
    && k' == k.(procs := k'.procs, ready := k.ready + ps)
    && forall p <- k.procs :: if p in ps then k'.procs[p].st == READY else k'.procs[p] == k.procs[p]
  }

  /** Processes a drain may wake: on no queue, and waiting for nothing but the pipe. */
  ghost predicate Wakeable(k: Kernel, loose: set<Pid>, ps: seq<Pid>) {
    NoDup(ps) && forall p <- ps ::
        p in loose && p in k.procs && p != k.idle && k.procs[p].waitLock == -1 && k.procs[p].waitCvar == -1
  }

  lemma EffectWakes(k: Kernel, loose: set<Pid>, e: Event)
    requires Filed(k, loose) && Wakeable(k, loose, Woke(e))
    ensures Filed(Effect(k, e), loose - ToSet(Woke(e))) && MadeReady(k, Effect(k, e), Woke(e))
  {
    assert k.ready + [] == k.ready && loose - ToSet([]) == loose;
    if Woke(e) != [] {
      var p := Woke(e)[0];
      assert p in Woke(e) && ToSet(Woke(e)) == {p};
      var f := k.procs[p];
      var f' := if e.Served? then f.(buf := Delivered(f.buf, e.bytes), reg0 := |e.bytes|, waitPipe := -1, st := DEFAULT)
                else f.(buf := [], reg0 := e.len, waitPipe := -1, st := DEFAULT);
      JoinReady(k, loose, p, f');
    }
  }

  lemma {:induction false} EffectsWake(k: Kernel, loose: set<Pid>, es: seq<Event>)
    requires Filed(k, loose) && Wakeable(k, loose, WokenPids(es))
    ensures Filed(Effects(k, es), loose - ToSet(WokenPids(es))) && MadeReady(k, Effects(k, es), WokenPids(es))
    decreases |es|
  {
    if es == [] {
      assert k.ready + [] == k.ready && loose - ToSet([]) == loose;
    } else {
      var now, next := Woke(es[0]), WokenPids(es[1..]);
      Members(WokenPids(es), now, next);
      EffectWakes(k, loose, es[0]);
      var k1 := Effect(k, es[0]);
      EffectsWake(k1, loose - ToSet(now), es[1..]);
      assert loose - ToSet(now) - ToSet(next) == loose - ToSet(now + next);
      Assoc(k.ready, now, next);
    }
  }

  /** An object changes, its queue does not. */
  lemma SameSleepers(k: Kernel, lost: set<Pid>, id: int, s: Sync)
    requires Filed(k, lost) && id in k.sync
    requires SyncTyped(k, s) && SiteAt(s, id) == SiteAt(k.sync[id], id) && WaitList(s) == WaitList(k.sync[id])
    ensures Filed(Store(k, id, s), lost)
  {
    LeaveSleepers(k, lost, id, s, []);
    assert lost + ToSet([]) == lost;
  }

  /** One sleeper of an object is made ready. */
  lemma WakeOneSleeper(k: Kernel, lost: set<Pid>, id: int, s: Sync, x: Pid, f: Proc)
    requires Filed(k, lost) && id in k.sync && x in k.procs
    requires SyncTyped(k, s) && SiteAt(s, id) == SiteAt(k.sync[id], id)
    requires WaitList(k.sync[id]) == [x] + WaitList(s)
    requires f.st == DEFAULT && SiteOf(f) == Nowhere
    ensures k.procs[x].st == BLOCKED && x !in lost
    ensures var k' := AddToReady(Put(Store(k, id, s), x, f), x);
            Filed(k', lost) && MadeReady(Store(k, id, s), k', [x])
  {
    LeaveSleepers(k, lost, id, s, [x]);
    assert x in [x] && lost + ToSet([x]) - {x} == lost;
    JoinReady(Store(k, id, s), lost + ToSet([x]), x, f);
  }

  lemma ReadyStaysSettled(k: Kernel, k': Kernel, lost: set<Pid>, ps: seq<Pid>)
    requires Settled(k, lost) && Filed(k', lost) && k'.cur == k.cur && k'.idle == k.idle
    requires k'.procs.Keys == k.procs.Keys
    requires forall p <- k.procs :: if p in ps then k'.procs[p].st == READY else k'.procs[p].st == k.procs[p].st
    requires forall p <- ps :: p in k.procs && p !in lost && p != k.cur
    ensures Settled(k', lost)
  {}

  /** The current process falls asleep at an object. */
  lemma FallAsleep(k: Kernel, lost: set<Pid>, id: int, s: Sync, f: Proc)
    requires Settled(k, lost) && k.cur != k.idle && id in k.sync
    requires SyncTyped(k, s) && SiteAt(s, id) == SiteAt(k.sync[id], id)
    requires multiset(WaitList(s)) == multiset(WaitList(k.sync[id])) + multiset([k.cur])
    requires f.st == BLOCKED && SiteOf(f) == SiteAt(s, id) && OneSite(f)
    ensures Parked(Put(Store(k, id, s), k.cur, f), lost)
  {
    StopRunning(k, lost);
    JoinSleepers(k, lost + {k.cur}, k.cur, f, id, s);
  }

  // ---------------------------------------------------------------- locks and condition variables

  lemma CurrentSite(k: Kernel, lost: set<Pid>)
    requires Settled(k, lost)
    ensures var f := k.procs[k.cur]; f.waitPipe == -1 && f.waitLock == -1 && f.waitCvar == -1
  {
    StopRunning(k, lost);
  }

  lemma IdsAreNatural(k: Kernel, lost: set<Pid>, id: int)
    requires Filed(k, lost) && id in k.sync
    ensures 0 <= id < MAX_SYNCS && SyncTyped(k, k.sync[id])
  {
    assert QueueOk(k, lost, id);
  }

  lemma AcquireFiles(k: Kernel, lost: set<Pid>, id: int)
    requires Settled(k, lost) && k.cur != k.idle && LockOrNone(k, id)
    ensures var (k', rc) := SyncLockAcquire(k, id);
            if rc == PCB_BLOCKED then Parked(k', lost) else Settled(k', lost)
  {
    if id in k.sync {
      IdsAreNatural(k, lost, id);
      CurrentSite(k, lost);
      var s := ALock(Locks.Acquire(k.sync[id].lock, k.cur));
      if k.sync[id].lock.locked {
        FallAsleep(k, lost, id, s, k.procs[k.cur].(st := BLOCKED, waitLock := id));
      } else {
        SameSleepers(k, lost, id, s);
      }
    }
  }

  lemma PassOnFiles(k: Kernel, lost: set<Pid>, id: int)
    requires Settled(k, lost) && id in k.sync && k.sync[id].ALock?
    ensures Settled(PassOn(k, id), lost)
  {
    var l := k.sync[id].lock;
    var s := ALock(HandOver(l));
    IdsAreNatural(k, lost, id);
    if l.waiters == [] {
      SameSleepers(k, lost, id, s);
    } else {
      var x := l.waiters[0];
      assert l.waiters == [x] + l.waiters[1..] && x in WaitList(k.sync[id]);
      SleeperSite(k, lost, id, x);
      var f := k.procs[x].(st := DEFAULT, waitLock := -1);
      WakeOneSleeper(k, lost, id, s, x, f);
      ReadyStaysSettled(k, PassOn(k, id), lost, [x]);
    }
  }

  lemma SleeperSite(k: Kernel, lost: set<Pid>, id: int, x: Pid)
    requires Filed(k, lost) && id in k.sync && x in WaitList(k.sync[id])
    ensures x in k.procs && x !in lost && x != k.idle && k.procs[x].st == BLOCKED
    ensures SiteOf(k.procs[x]) == SiteAt(k.sync[id], id) && OneSite(k.procs[x])
  {
    assert QueueOk(k, lost, id);
    assert Placed(k, x);
  }

  lemma CvarWaitFiles(k: Kernel, lost: set<Pid>, cvar: int, lock: int)
    requires Settled(k, lost) && k.cur != k.idle && CvarOrNone(k, cvar) && LockOrNone(k, lock)
    ensures var (k', rc) := SyncCvarWait(k, cvar, lock);
            if rc == ERROR then Settled(k', lost) else Parked(k', lost)
  {
    if cvar in k.sync && lock in k.sync && k.sync[lock].lock.owner == Some(k.cur) {
      PassOnFiles(k, lost, lock);
      var k1 := PassOn(k, lock);
      assert k1.sync[cvar] == k.sync[cvar];
      IdsAreNatural(k1, lost, cvar);
      CurrentSite(k1, lost);
      FallAsleep(k1, lost, cvar, ACvar(Await(k1.sync[cvar].cvar, k1.cur)),
                 k1.procs[k1.cur].(waitCvar := cvar, st := BLOCKED));
    }
  }

  lemma WakeFirstFiles(k: Kernel, lost: set<Pid>, id: int)
    requires Settled(k, lost) && id in k.sync && k.sync[id].ACvar? && k.sync[id].cvar.waiters != []
    ensures Settled(WakeFirst(k, id), lost)
  {
    var c := k.sync[id].cvar;
    var x := c.waiters[0];
    IdsAreNatural(k, lost, id);
    assert c.waiters == [x] + c.waiters[1..] && x in WaitList(k.sync[id]);
    SleeperSite(k, lost, id, x);
    WakeOneSleeper(k, lost, id, ACvar(WakeOne(c)), x, k.procs[x].(waitCvar := -1, st := DEFAULT));
    ReadyStaysSettled(k, WakeFirst(k, id), lost, [x]);
  }

  lemma {:induction false} WakeEveryoneFiles(k: Kernel, lost: set<Pid>, id: int)
    requires Settled(k, lost) && id in k.sync && k.sync[id].ACvar?
    ensures Settled(WakeEveryone(k, id), lost)
    decreases |k.sync[id].cvar.waiters|
  {
    if k.sync[id].cvar.waiters != [] {
      WakeFirstFiles(k, lost, id);
      WakeEveryoneFiles(WakeFirst(k, id), lost, id);
    }
  }

  // ---------------------------------------------------------------- pipes

  lemma ReadFiles(g: Guard, k: Kernel, lost: set<Pid>, id: int, kbuf: seq<Byte>)
    requires Settled(k, lost) && k.cur != k.idle && PipeOrNone(k, id)
    ensures var (k', rc) := SyncReadPipe(g, k, id, kbuf);
            if rc == PCB_BLOCKED then Parked(k', lost) else Settled(k', lost)
  {
    if id in k.sync {
      if k.sync[id].pipe.ring == [] {
        ReadSleepsFiles(g, k, lost, id, kbuf);
      } else {
        ReadTakesFiles(g, k, lost, id, kbuf);
      }
    }
  }

  lemma ReadSleepsFiles(g: Guard, k: Kernel, lost: set<Pid>, id: int, kbuf: seq<Byte>)
    requires Settled(k, lost) && k.cur != k.idle && id in k.sync && k.sync[id].APipe? && k.sync[id].pipe.ring == []
    ensures SyncReadPipe(g, k, id, kbuf).1 == PCB_BLOCKED && Parked(SyncReadPipe(g, k, id, kbuf).0, lost)
  {
    var p, f := k.sync[id].pipe, k.procs[k.cur];
    var q := Read(g, p, k.cur, |kbuf|).0;
    IdsAreNatural(k, lost, id);
    CurrentSite(k, lost);
    ReadCast(g, k, id, kbuf);
    ReadAccounted(g, p, k.cur, |kbuf|);
    assert SyncTyped(k, APipe(q)) by { assert Store(k, id, APipe(q)).sync[id] == APipe(q); }
    assert News(p, q) == [];
    FallAsleep(k, lost, id, APipe(q), f.(waitPipe := id, buf := kbuf, st := BLOCKED));
  }

  lemma ReadTakesFiles(g: Guard, k: Kernel, lost: set<Pid>, id: int, kbuf: seq<Byte>)
    requires Settled(k, lost) && k.cur != k.idle && id in k.sync && k.sync[id].APipe? && k.sync[id].pipe.ring != []
    ensures SyncReadPipe(g, k, id, kbuf).1 == SUCCESS && Settled(SyncReadPipe(g, k, id, kbuf).0, lost)
  {
    var p, f := k.sync[id].pipe, k.procs[k.cur];
    var (q, res) := Read(g, p, k.cur, |kbuf|);
    var k1 := Put(k, k.cur, f.(reg0 := |res.bytes|));
    CurrentSite(k, lost);
    ReadCast(g, k, id, kbuf);
    ReadAccounted(g, p, k.cur, |kbuf|);
    assert SyncTyped(k, APipe(q)) by { assert Store(k, id, APipe(q)).sync[id] == APipe(q); }
    TouchCurrent(k, lost, f.(reg0 := |res.bytes|));
    DrainFiles(k1, lost, id, q);
    var k' := Effects(Store(k1, id, APipe(q)), News(p, q));
    assert SyncReadPipe(g, k, id, kbuf).0 == k';
    ReadyStaysSettled(k1, k', lost, WokenPids(News(p, q)));
  }

  /** The drain of a pipe wakes exactly those who leave its queues. */
  lemma DrainFiles(k: Kernel, lost: set<Pid>, id: int, q: Pipe)
    requires Filed(k, lost) && id in k.sync && k.sync[id].APipe?
    requires SyncTyped(k, APipe(q)) && Accounted(k.sync[id].pipe, q)
    ensures var gone := WokenPids(News(k.sync[id].pipe, q));
            && (forall x <- gone :: x in k.procs && x !in lost && k.procs[x].st == BLOCKED)
            && Typed(Store(k, id, APipe(q)))
            && var k' := Effects(Store(k, id, APipe(q)), News(k.sync[id].pipe, q));
               Filed(k', lost) && MadeReady(Store(k, id, APipe(q)), k', gone)
  {
    var p := k.sync[id].pipe;
    var gone, k1 := WokenPids(News(p, q)), Store(k, id, APipe(q));
    LeaveSleepers(k, lost, id, APipe(q), gone);
    assert Wakeable(k1, lost + ToSet(gone), gone);
    EffectsWake(k1, lost + ToSet(gone), News(p, q));
    assert lost + ToSet(gone) - ToSet(gone) == lost;
  }

  /** The copy a writer makes itself wakes nobody: the effects are those of the drain after it. */
  lemma EnterHasNoEffect(k: Kernel, p: Pipe, q: Pipe, pid: Pid, msg: seq<Byte>)
    requires Typed(k) && Sound(p) && Enter(p, pid, msg).log <= q.log
    requires forall x <- WokenPids(News(Enter(p, pid, msg), q)) :: x in k.procs
    ensures p.log <= q.log && WokenPids(News(p, q)) == WokenPids(News(Enter(p, pid, msg), q))
    ensures Effects(k, News(p, q)) == Effects(k, News(Enter(p, pid, msg), q))
  {
    var e := Enter(p, pid, msg);
    Suffixes(p.log, e.log, q.log);
    assert News(p, e) == [e.log[|p.log|]];
    assert News(p, q)[1..] == News(e, q);
  }

  /** The kernel when a writer that does not fit has queued itself, before the drain. */
  function WriterQueued(k: Kernel, id: int, msg: seq<Byte>): Kernel
    requires Typed(k) && id in k.sync && k.sync[id].APipe?
  {
    assert SyncTyped(k, k.sync[id]);
    Put(Store(k, id, APipe(Enter(k.sync[id].pipe, k.cur, msg))), k.cur,
        k.procs[k.cur].(waitPipe := id, buf := msg, st := BLOCKED))
  }

  lemma WriterFallsAsleep(k: Kernel, lost: set<Pid>, id: int, msg: seq<Byte>)
    requires Settled(k, lost) && k.cur != k.idle && id in k.sync && k.sync[id].APipe?
             && WriteBlocks(k.sync[id].pipe, msg)
    ensures Parked(WriterQueued(k, id, msg), lost)
  {
    IdsAreNatural(k, lost, id);
    CurrentSite(k, lost);
    EnterAccounted(k.sync[id].pipe, k.cur, msg);
    FallAsleep(k, lost, id, APipe(Enter(k.sync[id].pipe, k.cur, msg)),
               k.procs[k.cur].(waitPipe := id, buf := msg, st := BLOCKED));
  }

  lemma WriteIsQueueThenDrain(g: Guard, k: Kernel, id: int, msg: seq<Byte>)
    requires Typed(k) && id in k.sync && k.sync[id].APipe? && WriteBlocks(k.sync[id].pipe, msg)
    ensures var (k1, q) := (WriterQueued(k, id, msg), Write(g, k.sync[id].pipe, k.cur, msg));
            && k1.sync[id].pipe.log <= q.log
            && SyncTyped(k1, APipe(q)) && Typed(Store(k1, id, APipe(q)))
            && (forall x <- WokenPids(News(k1.sync[id].pipe, q)) :: x in k.procs)
            && SyncWritePipe(g, k, id, msg).0 == Effects(Store(k1, id, APipe(q)), News(k1.sync[id].pipe, q))
  {
    var p, k1 := k.sync[id].pipe, WriterQueued(k, id, msg);
    var e, q := Enter(p, k.cur, msg), Write(g, p, k.cur, msg);
    WriteCast(g, k, id, msg);
    DrainReadersAccounted(g, e);
    var k2 := Put(Store(k, id, APipe(q)), k.cur, k.procs[k.cur].(waitPipe := id, buf := msg, st := BLOCKED));
    assert k2.sync[id] == APipe(q) && SyncTyped(k2, k2.sync[id]);
    assert k2 == Store(k1, id, APipe(q));
    Suffixes(p.log, e.log, q.log);
    WokenPidsConcat(News(p, e), News(e, q));
    EnterHasNoEffect(k2, p, q, k.cur, msg);
  }

  lemma ReadyStaysParked(k: Kernel, k': Kernel, lost: set<Pid>, ps: seq<Pid>)
    requires Parked(k, lost) && Filed(k', lost) && k'.idle == k.idle
    requires k'.procs.Keys == k.procs.Keys
    requires forall p <- k.procs :: if p in ps then k'.procs[p].st == READY else k'.procs[p].st == k.procs[p].st
    requires forall p <- ps :: p in k.procs && p !in lost
    ensures Parked(k', lost)
  {}

  lemma WriteBlockedFiles(g: Guard, k: Kernel, lost: set<Pid>, id: int, msg: seq<Byte>)
    requires Settled(k, lost) && k.cur != k.idle && id in k.sync && k.sync[id].APipe?
             && WriteBlocks(k.sync[id].pipe, msg)
    ensures Parked(SyncWritePipe(g, k, id, msg).0, lost)
  {
    WriterFallsAsleep(k, lost, id, msg);
    WriteIsQueueThenDrain(g, k, id, msg);
    var k1, q := WriterQueued(k, id, msg), Write(g, k.sync[id].pipe, k.cur, msg);
    DrainReadersAccounted(g, Enter(k.sync[id].pipe, k.cur, msg));
    DrainFiles(k1, lost, id, q);
    ReadyStaysParked(k1, SyncWritePipe(g, k, id, msg).0, lost, WokenPids(News(k1.sync[id].pipe, q)));
  }

  lemma WriteFitsFiles(g: Guard, k: Kernel, lost: set<Pid>, id: int, msg: seq<Byte>)
    requires Settled(k, lost) && k.cur != k.idle && id in k.sync && k.sync[id].APipe?
             && !WriteBlocks(k.sync[id].pipe, msg)
    ensures Settled(SyncWritePipe(g, k, id, msg).0, lost)
  {
    var p := k.sync[id].pipe;
    var e, q := Enter(p, k.cur, msg), Write(g, p, k.cur, msg);
    var f := k.procs[k.cur].(reg0 := |msg|);
    IdsAreNatural(k, lost, id);
    EnterAccounted(p, k.cur, msg);
    TouchCurrent(k, lost, f);
    var k1 := Put(k, k.cur, f);
    WriteCast(g, k, id, msg);
    assert SyncTyped(k1, APipe(q)) by { assert Store(k, id, APipe(q)).sync[id] == APipe(q); }
    assert Sleepers(e) == Sleepers(p);
    DrainReadersAccounted(g, e);
    Suffixes(p.log, e.log, q.log);
    WokenPidsConcat(News(p, e), News(e, q));
    assert Accounted(p, q);
    DrainFiles(k1, lost, id, q);
    assert Store(k1, id, APipe(q)) == Put(Store(k, id, APipe(q)), k.cur, f);
    ReadyStaysSettled(k1, SyncWritePipe(g, k, id, msg).0, lost, WokenPids(News(p, q)));
  }

  // ---------------------------------------------------------------- the table of objects

  lemma NewObjectFiles(k: Kernel, lost: set<Pid>, id: int, s: Sync)
    requires Settled(k, lost) && id !in k.sync && 0 <= id < MAX_SYNCS && SyncTyped(k, s) && WaitList(s) == []
    ensures Settled(Store(k, id, s), lost)
  {
    var k' := Store(k, id, s);
    forall p <- k'.procs
      ensures if p in lost then p !in k'.ready && p !in k'.delayed else Placed(k', p)
    {
      if p !in lost { assert Placed(k, p); }
    }
    forall j <- k'.sync
      ensures QueueOk(k', lost, j)
    {
      if j != id { assert QueueOk(k, lost, j); }
    }
  }

  lemma ReclaimFiles(k: Kernel, lost: set<Pid>, id: int)
    requires Settled(k, lost) && id in k.sync && WaitList(k.sync[id]) == []
    ensures Settled(k.(sync := k.sync - {id}), lost)
  {
    var k' := k.(sync := k.sync - {id});
    forall p <- k'.procs
      ensures if p in lost then p !in k'.ready && p !in k'.delayed else Placed(k', p)
    {
      if p !in lost { assert Placed(k, p); }
    }
    forall j <- k'.sync
      ensures QueueOk(k', lost, j)
    {
      assert QueueOk(k, lost, j);
    }
  }
}
