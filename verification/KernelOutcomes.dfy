/** With which frame the caller of a write returns: it carries the result exactly when the write blocks
    and is completed by somebody else. */
module KernelOutcomes {
  import opened Hardware
  import opened Pipes
  import opened PipeHistory
  import opened PipeWakes
  import opened PipeOutcomes
  import opened KernelModel
  import opened KernelInvariant
  import opened KernelSteps
  import opened SyncSteps
  import opened KernelRuns
  import opened KernelDrains
  import opened KernelProgress
  import KO = KernelObjects

  // ---------------------------------------------------------------- calls that do not block

  /** The running process is asleep nowhere. */
  lemma CallerAwake(k: Kernel, lost: set<Pid>, id: int)
    requires Settled(k, lost) && id in k.sync
    ensures k.cur !in WaitList(k.sync[id])
  {
    CurrentSite(k, lost);
    assert QueueOk(k, lost, id);
  }

  /** A read that does not block leaves the frame it returns with as it was; its result is in the PCB
      only (sync.c:153, syscalls.c:300-312). */
  lemma DirectReadKeepsFrame(g: Guard, requeue: bool, k: Kernel, lost: set<Pid>, id: int, kbuf: seq<Byte>)
    requires Settled(k, lost) && Possible(k, SysPipeRead(id, kbuf)) && id in k.sync && k.sync[id].pipe.ring != []
    ensures var k' := Step(g, requeue, k, SysPipeRead(id, kbuf));
            k'.cur == k.cur && k'.frame == k.frame && k'.procs[k.cur].reg0 == Min(|kbuf|, |k.sync[id].pipe.ring|)
  {
    var p := k.sync[id].pipe;
    CallerAwake(k, lost, id);
    ReadAccounted(g, p, k.cur, |kbuf|);
    ReadCast(g, k, id, kbuf);
    var (q, res) := Read(g, p, k.cur, |kbuf|);
    var k1 := Put(Store(k, id, APipe(q)), k.cur, k.procs[k.cur].(reg0 := |res.bytes|));
    NotWoken(p, q, multiset{}, k.cur);
    EffectsSpare(k1, News(p, q), k.cur);
    FrameKept(k1, News(p, q));
  }

  /** The same of a write. */
  lemma DirectWriteKeepsFrame(g: Guard, requeue: bool, k: Kernel, lost: set<Pid>, id: int, msg: seq<Byte>)
    requires Settled(k, lost) && Possible(k, SysPipeWrite(id, msg)) && id in k.sync
             && !WriteBlocks(k.sync[id].pipe, msg)
    ensures var k' := Step(g, requeue, k, SysPipeWrite(id, msg));
            k'.cur == k.cur && k'.frame == k.frame && k'.procs[k.cur].reg0 == |msg|
  {
    var p := k.sync[id].pipe;
    CallerAwake(k, lost, id);
    WriteAccounted(g, p, k.cur, msg);
    WriteCast(g, k, id, msg);
    var q := Write(g, p, k.cur, msg);
    var k1 := Put(Store(k, id, APipe(q)), k.cur, k.procs[k.cur].(reg0 := |msg|));
    NotWoken(p, q, multiset{}, k.cur);
    EffectsSpare(k1, News(p, q), k.cur);
    FrameKept(k1, News(p, q));
  }

  // ---------------------------------------------------------------- events and their processes

  /** Somebody woken once with a length has it as result. */
  lemma {:induction false} EffectsDeliver(k: Kernel, es: seq<Event>, i: nat, x: Pid)
    requires Typed(k) && (forall p <- WokenPids(es) :: p in k.procs) && i < |es| && es[i].Finished? && es[i].pid == x
    requires multiset(WokenPids(es))[x] <= 1
    ensures x in k.procs && Effects(k, es).procs[x].st == READY && Effects(k, es).procs[x].reg0 == es[i].len
    decreases |es|
  {
    var now, later := Woke(es[0]), WokenPids(es[1..]);
    assert WokenPids(es) == now + later;
    assert forall p <- now :: p in WokenPids(es);
    assert forall p <- later :: p in WokenPids(es);
    var k1 := Effect(k, es[0]);
    if i == 0 {
      assert now[0] == x && multiset(now)[x] == 1;
      assert x !in later by { assert multiset(later)[x] == 0; }
      EffectsSpare(k1, es[1..], x);
    } else {
      EffectsDeliver(k1, es[1..], i - 1, x);
    }
  }

  // ---------------------------------------------------------------- a write that blocks

  /** The kernel after a write that does not fit, before the switch. */
  function AfterWrite(g: Guard, k: Kernel, id: int, msg: seq<Byte>): (k': Kernel)
    requires Typed(k) && id in k.sync && k.sync[id].APipe?
    ensures Typed(k')
  {
    SyncWritePipe(g, k, id, msg).0
  }

  lemma AfterWriteIs(g: Guard, k: Kernel, id: int, msg: seq<Byte>)
    requires Typed(k) && id in k.sync && k.sync[id].APipe? && WriteBlocks(k.sync[id].pipe, msg)
    ensures var p := k.sync[id].pipe; var q := Write(g, p, k.cur, msg);
            var k1 := Put(Store(k, id, APipe(q)), k.cur, k.procs[k.cur].(waitPipe := id, buf := msg, st := BLOCKED));
            && p.log <= q.log && Typed(k1) && (forall x <- WokenPids(News(p, q)) :: x in k1.procs)
            && SyncWritePipe(g, k, id, msg) == (Effects(k1, News(p, q)), PCB_BLOCKED)
            && AfterWrite(g, k, id, msg).sync == k.sync[id := APipe(q)]
  {
    WriteCast(g, k, id, msg);
    var p, q := k.sync[id].pipe, Write(g, k.sync[id].pipe, k.cur, msg);
    EffectsKeepSync(Put(Store(k, id, APipe(q)), k.cur, k.procs[k.cur].(waitPipe := id, buf := msg, st := BLOCKED)),
                    News(p, q));
  }

  /** The writer woken in its own call is ready, with its result; otherwise it is asleep. */
  lemma OwnCallEnds(g: Guard, k: Kernel, lost: set<Pid>, id: int, msg: seq<Byte>)
    requires Settled(k, lost) && k.cur != k.idle && id in k.sync && k.sync[id].APipe?
             && WriteBlocks(k.sync[id].pipe, msg)
    requires Unfinished(k.sync[id].pipe.writers)
    ensures Sound(k.sync[id].pipe)
    ensures var k1, f := AfterWrite(g, k, id, msg), AfterWrite(g, k, id, msg).procs[k.cur];
            if OwnCallCompletes(g, k.sync[id].pipe, msg) then f.st == READY && f.reg0 == |msg|
            else f.st == BLOCKED && Awaits(k1, k.cur, id, |msg|)
  {
    assert SyncTyped(k, k.sync[id]);
    CallerAwake(k, lost, id);
    AfterWriteIs(g, k, id, msg);
    var p, q := k.sync[id].pipe, Write(g, k.sync[id].pipe, k.cur, msg);
    OwnCallCompletesExactly(g, p, k.cur, msg);
    OwnFate(g, p, k.cur, msg);
    WokenOrAsleep(g, p, k.cur, msg);
    var k1 := Put(Store(k, id, APipe(q)), k.cur, k.procs[k.cur].(waitPipe := id, buf := msg, st := BLOCKED));
    FateIsOne(p, q, k.cur, msg);
    if k.cur in Sleepers(q) {
      EffectsSpare(k1, News(p, q), k.cur);
    } else {
      var i :| 0 <= i < |News(p, q)| && News(p, q)[i] == Finished(k.cur, |p.calls|, |msg|);
      EffectsDeliver(k1, News(p, q), i, k.cur);
    }
  }

  /** The caller is woken once or asleep once. */
  lemma WokenOrAsleep(g: Guard, p: Pipe, pid: Pid, msg: seq<Byte>)
    requires Sound(p) && WriteBlocks(p, msg) && pid !in Sleepers(p)
    ensures var q := Write(g, p, pid, msg);
            p.log <= q.log && multiset(WokenPids(News(p, q)))[pid] + multiset(Sleepers(q))[pid] == 1
  {
    WriteAccounted(g, p, pid, msg);
    var q := Write(g, p, pid, msg);
    assert multiset(Sleepers(p))[pid] == 0;
    assert (multiset(Sleepers(p)) + multiset{pid})[pid] == 1;
  }

  lemma {:induction false} FinishedIsWoken(es: seq<Event>, i: nat)
    requires i < |es| && es[i].Finished?
    ensures es[i].pid in WokenPids(es)
  {
    if i == 0 {
      assert Woke(es[0])[0] == es[0].pid;
    } else {
      FinishedIsWoken(es[1..], i - 1);
    }
  }

  lemma WriterSleeps(q: Pipe, v: Writer)
    requires v in q.writers
    ensures v.pid in Sleepers(q)
  {
    var i :| 0 <= i < |q.writers| && q.writers[i] == v;
    assert Sleepers(q)[|q.readers| + i] == v.pid;
  }

  /** So it is queued exactly when it is asleep, and woken as finished exactly when it is not. */
  lemma FateIsOne(p: Pipe, q: Pipe, pid: Pid, msg: seq<Byte>)
    requires p.log <= q.log && multiset(WokenPids(News(p, q)))[pid] + multiset(Sleepers(q))[pid] == 1
    requires (exists v <- q.writers :: v.pid == pid && v.msg == msg) || Finished(pid, |p.calls|, |msg|) in News(p, q)
    ensures if pid in Sleepers(q) then pid !in WokenPids(News(p, q)) && QueuedWith(q, pid, |msg|)
            else Finished(pid, |p.calls|, |msg|) in News(p, q)
  {
    if Finished(pid, |p.calls|, |msg|) in News(p, q) {
      var i :| 0 <= i < |News(p, q)| && News(p, q)[i] == Finished(pid, |p.calls|, |msg|);
      FinishedIsWoken(News(p, q), i);
    } else {
      var v :| v in q.writers && v.pid == pid && v.msg == msg;
      WriterSleeps(q, v);
    }
  }

  /** x sleeps as a writer of `len` bytes at the pipe called id. */
  ghost predicate Awaits(k: Kernel, x: Pid, id: int, len: nat) {
    id in k.sync && k.sync[id].APipe? && QueuedWith(k.sync[id].pipe, x, len)
  }

  ghost predicate QueuedWith(p: Pipe, x: Pid, len: nat) {
    exists v <- p.writers :: v.pid == x && |v.msg| == len
  }

  // ---------------------------------------------------------------- until it returns

  /** x does not run, and is owed v: it is ready with v as its result, or asleep as a writer of v bytes. */
  ghost predicate Owed(k: Kernel, x: Pid, v: nat) {
    x in k.procs && x != k.cur
        && ((k.procs[x].st == READY && k.procs[x].reg0 == v) || exists id <- k.sync :: Awaits(k, x, id, v))
  }

  /** x has what it is owed in the frame, or is still owed it. */
  ghost predicate PaidOrOwed(k: Kernel, x: Pid, v: nat) {
    if k.cur == x then k.frame == v else Owed(k, x, v)
  }

  lemma WriterIsAsleep(k: Kernel, lost: set<Pid>, x: Pid, id: int, v: nat)
    requires Filed(k, lost) && Awaits(k, x, id, v)
    ensures x in k.procs && x in Sleepers(k.sync[id].pipe) && x !in lost && k.procs[x].st == BLOCKED && x != k.idle
            && x !in k.ready
    ensures multiset(Sleepers(k.sync[id].pipe))[x] == 1
  {
    var p := k.sync[id].pipe;
    var w :| w in p.writers && w.pid == x && |w.msg| == v;
    WriterSleeps(p, w);
    assert QueueOk(k, lost, id);
    assert x in WaitList(k.sync[id]);
    assert Placed(k, x);
    assert multiset(WaitList(k.sync[id]))[x] <= 1;
  }

  /** What an operation on the pipe does for a writer queued there. */
  lemma PipeOwes(k: Kernel, p: Pipe, q: Pipe, x: Pid, id: int, v: nat)
    requires Typed(k) && p.log <= q.log && (forall y <- WokenPids(News(p, q)) :: y in k.procs)
    requires Fated(p, q) && QueuedWith(p, x, v) && multiset(WokenPids(News(p, q)))[x] <= 1
    requires id in k.sync && k.sync[id] == APipe(q)
    ensures var k' := Effects(k, News(p, q));
            Awaits(k', x, id, v) || (x in k'.procs && k'.procs[x].st == READY && k'.procs[x].reg0 == v)
  {
    var w :| w in p.writers && w.pid == x && |w.msg| == v;
    EffectsKeepSync(k, News(p, q));
    if StillQueued(q, w) {
      var u :| u in q.writers && u.pid == w.pid && u.call == w.call && u.msg == w.msg;
      assert QueuedWith(q, x, v);
    } else {
      var i :| 0 <= i < |News(p, q)| && News(p, q)[i] == Completion(w);
      EffectsDeliver(k, News(p, q), i, x);
    }
  }

  lemma AtMostOnce(p: Pipe, q: Pipe, added: multiset<Pid>, x: Pid)
    requires p.log <= q.log && multiset(Sleepers(p))[x] == 1 && x !in added
    requires multiset(Sleepers(p)) + added == multiset(WokenPids(News(p, q))) + multiset(Sleepers(q))
    ensures multiset(WokenPids(News(p, q)))[x] <= 1
  {
    assert added[x] == 0;
    assert (multiset(Sleepers(p)) + added)[x] == 1;
  }

  /** x is owed v when a call has been handled. */
  ghost predicate StillOwed(k: Kernel, x: Pid, id: int, v: nat) {
    Awaits(k, x, id, v) || (x in k.procs && k.procs[x].st == READY && k.procs[x].reg0 == v)
  }

  lemma ReadOwes(g: Guard, k: Kernel, lost: set<Pid>, x: Pid, id: int, v: nat, kbuf: seq<Byte>)
    requires Settled(k, lost) && x != k.cur && Awaits(k, x, id, v)
    ensures StillOwed(SyncReadPipe(g, k, id, kbuf).0, x, id, v)
  {
    var p := k.sync[id].pipe;
    WriterIsAsleep(k, lost, x, id, v);
    ReadAccounted(g, p, k.cur, |kbuf|);
    ReadFated(g, p, k.cur, |kbuf|);
    ReadCast(g, k, id, kbuf);
    var (q, res) := Read(g, p, k.cur, |kbuf|);
    if res == ReadBlocked {
      assert q.writers == p.writers;
    } else {
      AtMostOnce(p, q, multiset{}, x);
      PipeOwes(Put(Store(k, id, APipe(q)), k.cur, k.procs[k.cur].(reg0 := |res.bytes|)), p, q, x, id, v);
    }
  }

  lemma WriteOwes(g: Guard, k: Kernel, lost: set<Pid>, x: Pid, id: int, v: nat, msg: seq<Byte>)
    requires Settled(k, lost) && x != k.cur && Awaits(k, x, id, v)
    ensures StillOwed(SyncWritePipe(g, k, id, msg).0, x, id, v)
  {
    var p, f := k.sync[id].pipe, k.procs[k.cur];
    WriterIsAsleep(k, lost, x, id, v);
    WriteAccounted(g, p, k.cur, msg);
    WriteFated(g, p, k.cur, msg);
    WriteCast(g, k, id, msg);
    var q := Write(g, p, k.cur, msg);
    AtMostOnce(p, q, if WriteBlocks(p, msg) then multiset{k.cur} else multiset{}, x);
    var f' := if WriteBlocks(p, msg) then f.(waitPipe := id, buf := msg, st := BLOCKED) else f.(reg0 := |msg|);
    PipeOwes(Put(Store(k, id, APipe(q)), k.cur, f'), p, q, x, id, v);
  }

  lemma {:induction false} BroadcastKeepsPipe(k: Kernel, c: int, id: int)
    requires Typed(k) && c in k.sync && k.sync[c].ACvar? && id in k.sync && id != c
    ensures id in WakeEveryone(k, c).sync && WakeEveryone(k, c).sync[id] == k.sync[id]
    decreases |k.sync[c].cvar.waiters|
  {
    if k.sync[c].cvar.waiters != [] { BroadcastKeepsPipe(WakeFirst(k, c), c, id); }
  }

  lemma OtherPipesKept(g: Guard, k: Kernel, t: Trap, id: int)
    requires Typed(k) && Possible(k, t) && (t.SysPipeRead? || t.SysPipeWrite?) && t.id != id && id in k.sync
    ensures var k' := if t.SysPipeRead? then SyncReadPipe(g, k, t.id, t.kbuf).0 else SyncWritePipe(g, k, t.id, t.msg).0;
            id in k'.sync && k'.sync[id] == k.sync[id]
  {
    if t.id in k.sync {
      var p, f := k.sync[t.id].pipe, k.procs[k.cur];
      if t.SysPipeRead? {
        ReadCast(g, k, t.id, t.kbuf);
        var (q, res) := Read(g, p, k.cur, |t.kbuf|);
        if res.Got? { EffectsKeepSync(Put(Store(k, t.id, APipe(q)), k.cur, f.(reg0 := |res.bytes|)), News(p, q)); }
      } else {
        WriteCast(g, k, t.id, t.msg);
        var q := Write(g, p, k.cur, t.msg);
        var f' := if WriteBlocks(p, t.msg) then f.(waitPipe := t.id, buf := t.msg, st := BLOCKED)
            else f.(reg0 := |t.msg|);
        EffectsKeepSync(Put(Store(k, t.id, APipe(q)), k.cur, f'), News(p, q));
      }
    }
  }

  /** Only calls on the pipe itself change it while somebody sleeps there. */
  lemma HandleKeepsPipe(g: Guard, requeue: bool, k: Kernel, t: Trap, id: int)
    requires Typed(k) && Possible(k, t) && id in k.sync && k.sync[id].APipe? && WaitList(k.sync[id]) != []
    requires t.SysPipeRead? || t.SysPipeWrite? ==> t.id != id
    ensures var k' := Handle(g, requeue, k, t).0; id in k'.sync && k'.sync[id] == k.sync[id]
  {
    match t
    case Tick => KO.TickSync(requeue, k);
    case SysPipeRead(_, _) => OtherPipesKept(g, k, t, id);
    case SysPipeWrite(_, _) => OtherPipesKept(g, k, t, id);
    case SysBroadcast(c, _) => if c in k.sync { BroadcastKeepsPipe(k, c, id); }
    case _ =>
  }

  lemma HandleOwes(g: Guard, requeue: bool, k: Kernel, lost: set<Pid>, t: Trap, x: Pid, id: int, v: nat)
    requires Settled(k, lost) && Possible(k, t) && x != k.cur && Awaits(k, x, id, v)
    ensures StillOwed(Handle(g, requeue, k, t).0, x, id, v)
  {
    WriterIsAsleep(k, lost, x, id, v);
    if t.SysPipeRead? && t.id == id {
      ReadOwes(g, k, lost, x, id, v, t.kbuf);
    } else if t.SysPipeWrite? && t.id == id {
      WriteOwes(g, k, lost, x, id, v, t.msg);
    } else {
      assert x in WaitList(k.sync[id]);
      HandleKeepsPipe(g, requeue, k, t, id);
    }
  }

  /** The switch hands over what is owed, or leaves it owed. */
  lemma ScheduleOwes(k: Kernel, lost: set<Pid>, x: Pid, id: int, v: nat)
    requires Parked(k, lost) && x != k.cur && x in k.procs && x != k.idle && StillOwed(k, x, id, v)
    ensures PaidOrOwed(Schedule(k), x, v)
  {
    if Awaits(k, x, id, v) {
      WriterIsAsleep(k, lost, x, id, v);
      assert k.ready != [] ==> k.ready[0] in k.ready;
      assert Awaits(Schedule(k), x, id, v);
    }
  }

  /** A ready process keeps what it was woken with until it runs. */
  lemma StaysDue(g: Guard, requeue: bool, k: Kernel, t: Trap, lost: set<Pid>, x: Pid)
    requires Settled(k, lost) && Possible(k, t) && x in k.procs && k.procs[x].st == READY
    ensures var k' := Step(g, requeue, k, t);
            && x in k'.procs
            && if k'.cur == x then k'.frame == k.procs[x].reg0
                else k'.procs[x].st == READY && k'.procs[x].reg0 == k.procs[x].reg0
  {
    ResultArrives(g, requeue, k, t, lost, x);
    StepKeepsProcesses(g, requeue, k, t);
  }

  lemma StepOwes(g: Guard, requeue: bool, k: Kernel, lost: set<Pid>, t: Trap, x: Pid, v: nat)
    requires Settled(k, lost) && Possible(k, t) && Owed(k, x, v)
    ensures PaidOrOwed(Step(g, requeue, k, t), x, v)
  {
    if k.procs[x].st == READY && k.procs[x].reg0 == v {
      StaysDue(g, requeue, k, t, lost, x);
    } else {
      var id :| id in k.sync && Awaits(k, x, id, v);
      AwaitingIsOwed(g, requeue, k, lost, t, x, id, v);
    }
  }

  lemma AwaitingIsOwed(g: Guard, requeue: bool, k: Kernel, lost: set<Pid>, t: Trap, x: Pid, id: int, v: nat)
    requires Settled(k, lost) && Possible(k, t) && Awaits(k, x, id, v)
    ensures PaidOrOwed(Step(g, requeue, k, t), x, v)
  {
    WriterIsAsleep(k, lost, x, id, v);
    HandleOwes(g, requeue, k, lost, t, x, id, v);
    Handled(g, requeue, k, t, lost);
    HandleKeepsCurrent(g, requeue, k, t);
    HandleKeepsProcess(g, requeue, k, t, x);
    var (k1, switch) := Handle(g, requeue, k, t);
    EndOwes(k1, switch, LostBy(requeue, k, t, lost), x, id, v);
  }

  lemma EndOwes(k: Kernel, switch: bool, lost: set<Pid>, x: Pid, id: int, v: nat)
    requires Typed(k) && x != k.cur && x in k.procs && x != k.idle && StillOwed(k, x, id, v)
             && (switch ==> Parked(k, lost))
    ensures PaidOrOwed(if switch then Schedule(k) else k, x, v)
  {
    if switch { ScheduleOwes(k, lost, x, id, v); }
  }

  lemma HandleKeepsProcess(g: Guard, requeue: bool, k: Kernel, t: Trap, x: Pid)
    requires Typed(k) && Possible(k, t) && x in k.procs
    ensures x in Handle(g, requeue, k, t).0.procs
  {}

  /** The run ends when x runs again, and not before. */
  ghost predicate RunsAgain(g: Guard, requeue: bool, k: Kernel, ts: seq<Trap>, x: Pid)
    requires Typed(k) && PossibleRun(g, requeue, k, ts)
    decreases |ts|
  {
    if ts == [] then k.cur == x else k.cur != x && RunsAgain(g, requeue, Step(g, requeue, k, ts[0]), ts[1..], x)
  }

  lemma {:induction false} OwedIsPaid(g: Guard, requeue: bool, k: Kernel, lost: set<Pid>, x: Pid, v: nat, ts: seq<Trap>)
    requires Settled(k, lost) && PossibleRun(g, requeue, k, ts) && RunsAgain(g, requeue, k, ts, x)
    requires PaidOrOwed(k, x, v)
    ensures Run(g, requeue, k, ts).frame == v
    decreases |ts|
  {
    if ts != [] {
      StepOwes(g, requeue, k, lost, ts[0], x, v);
      StepSettles(g, requeue, k, ts[0], lost);
      OwedIsPaid(g, requeue, Step(g, requeue, k, ts[0]), LostBy(requeue, k, ts[0], lost), x, v, ts[1..]);
    }
  }

  /** schedule saves the frame of the call over a result the drain has already left
      (syscalls.c:432). */
  lemma OwnCallResultIsLost(g: Guard, requeue: bool, k: Kernel, lost: set<Pid>, id: int, msg: seq<Byte>)
    requires Settled(k, lost) && Possible(k, SysPipeWrite(id, msg)) && id in k.sync && WriteBlocks(k.sync[id].pipe, msg)
    requires Unfinished(k.sync[id].pipe.writers) && OwnCallCompletes(g, k.sync[id].pipe, msg)
    ensures AfterWrite(g, k, id, msg).procs[k.cur].reg0 == |msg|
    ensures var k' := Step(g, requeue, k, SysPipeWrite(id, msg));
            k'.procs[k.cur].reg0 == k.frame
                && if k'.cur == k.cur then k'.frame == k.frame else k'.procs[k.cur].st == READY
  {
    OwnCallEnds(g, k, lost, id, msg);
    AfterWriteIs(g, k, id, msg);
    EffectsKeepFrame(g, k, id, msg);
    ScheduleSaves(AfterWrite(g, k, id, msg));
  }

  lemma ScheduleSaves(k: Kernel)
    requires Typed(k)
    ensures var k' := Schedule(k);
            if k'.cur == k.cur then k'.frame == k.frame == k'.procs[k.cur].reg0
            else k'.procs[k.cur] == k.procs[k.cur].(reg0 := k.frame)
  {
    assert k.ready != [] ==> k.ready[0] in k.ready;
  }

  lemma OtherwiseOwed(g: Guard, requeue: bool, k: Kernel, lost: set<Pid>, id: int, msg: seq<Byte>)
    requires Settled(k, lost) && Possible(k, SysPipeWrite(id, msg)) && id in k.sync && WriteBlocks(k.sync[id].pipe, msg)
    requires Unfinished(k.sync[id].pipe.writers) && !OwnCallCompletes(g, k.sync[id].pipe, msg)
    ensures var k' := Step(g, requeue, k, SysPipeWrite(id, msg)); k'.cur != k.cur && Owed(k', k.cur, |msg|)
  {
    OwnCallEnds(g, k, lost, id, msg);
    AfterWriteIs(g, k, id, msg);
    WriteBlockedFiles(g, k, lost, id, msg);
    var k1 := AfterWrite(g, k, id, msg);
    WriterIsAsleep(k1, lost, k.cur, id, |msg|);
    assert k1.ready != [] ==> k1.ready[0] in k1.ready;
    assert Awaits(Schedule(k1), k.cur, id, |msg|);
  }

  /** Whenever a writer whose message did not fit runs again, it returns with the length of its
      message if somebody else completed it, and with the frame it came with if its own call did. */
  lemma WriterReturnsWith(g: Guard, requeue: bool, k: Kernel, lost: set<Pid>, id: int, msg: seq<Byte>, ts: seq<Trap>)
    requires Settled(k, lost) && Possible(k, SysPipeWrite(id, msg)) && id in k.sync && WriteBlocks(k.sync[id].pipe, msg)
    requires Unfinished(k.sync[id].pipe.writers)
    requires var k' := Step(g, requeue, k, SysPipeWrite(id, msg));
             PossibleRun(g, requeue, k', ts) && RunsAgain(g, requeue, k', ts, k.cur)
    ensures Sound(k.sync[id].pipe)
    ensures var end := Run(g, requeue, Step(g, requeue, k, SysPipeWrite(id, msg)), ts);
            && end.frame == (if OwnCallCompletes(g, k.sync[id].pipe, msg) then k.frame else |msg|)
            && (end.frame == |msg| <==> !OwnCallCompletes(g, k.sync[id].pipe, msg) || k.frame == |msg|)
  {
    var t := SysPipeWrite(id, msg);
    var k' := Step(g, requeue, k, t);
    StepSettles(g, requeue, k, t, lost);
    assert SyncTyped(k, k.sync[id]);
    if OwnCallCompletes(g, k.sync[id].pipe, msg) {
      OwnCallResultIsLost(g, requeue, k, lost, id, msg);
      PaidBack(g, requeue, k', LostBy(requeue, k, t, lost), k.cur, ts);
    } else {
      OtherwiseOwed(g, requeue, k, lost, id, msg);
      OwedIsPaid(g, requeue, k', LostBy(requeue, k, t, lost), k.cur, |msg|, ts);
    }
  }

  /** A ready process returns with its registers. */
  lemma {:induction false} PaidBack(g: Guard, requeue: bool, k: Kernel, lost: set<Pid>, x: Pid, ts: seq<Trap>)
    requires Settled(k, lost) && PossibleRun(g, requeue, k, ts) && RunsAgain(g, requeue, k, ts, x) && x in k.procs
    requires if k.cur == x then k.frame == k.procs[x].reg0 else k.procs[x].st == READY
    ensures Run(g, requeue, k, ts).frame == k.procs[x].reg0
    decreases |ts|
  {
    if ts != [] {
      StepSettles(g, requeue, k, ts[0], lost);
      StaysDue(g, requeue, k, ts[0], lost, x);
      if Step(g, requeue, k, ts[0]).cur == x {
        assert ts[1..] == [];
      } else {
        PaidBack(g, requeue, Step(g, requeue, k, ts[0]), LostBy(requeue, k, ts[0], lost), x, ts[1..]);
      }
    }
  }
}
