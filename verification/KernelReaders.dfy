/** With which frame and buffer the caller of a read returns, over any run up to its return: with
    what it was served when it had to wait, and with the frame it came with when it had not. */
module KernelReaders {
  import opened Hardware
  import opened Pipes
  import opened PipeWakes
  import opened PipeOutcomes
  import opened KernelModel
  import opened KernelInvariant
  import opened KernelSteps
  import opened SyncSteps
  import opened KernelRuns
  import opened KernelDrains
  import opened KernelProgress
  import opened KernelOutcomes

  /** x sleeps as a reader at the pipe called id, with a buffer that holds kbuf. */
  ghost predicate Reading(k: Kernel, x: Pid, id: int, kbuf: seq<Byte>) {
    id in k.sync && k.sync[id].APipe? && Reader(x, |kbuf|) in k.sync[id].pipe.readers && x in k.procs
        && k.procs[x].buf == kbuf
  }

  /** The bytes have replaced the first ones of the buffer. */
  ghost predicate Filled(was: seq<Byte>, bytes: seq<Byte>, now: seq<Byte>) {
    |bytes| <= |was| == |now| && now[..|bytes|] == bytes && now[|bytes|..] == was[|bytes|..]
  }

  /** x is ready, its buffer begins with the bytes it was given and its result is how many. */
  ghost predicate Given(k: Kernel, x: Pid, kbuf: seq<Byte>, bytes: seq<Byte>) {
    x in k.procs && k.procs[x].st == READY && k.procs[x].reg0 == |bytes|
        && Filled(kbuf, bytes, k.procs[x].buf)
  }

  /** Between k and k' the pipe called id served x these bytes. */
  ghost predicate Serves(k: Kernel, k': Kernel, id: int, x: Pid, want: nat, bytes: seq<Byte>) {
    && id in k.sync && k.sync[id].APipe? && id in k'.sync && k'.sync[id].APipe?
    && k.sync[id].pipe.log <= k'.sync[id].pipe.log
    && Served(x, want, bytes) in News(k.sync[id].pipe, k'.sync[id].pipe)
  }

  lemma ReaderSleeps(q: Pipe, r: Reader)
    requires r in q.readers
    ensures r.pid in Sleepers(q)
  {
    var i :| 0 <= i < |q.readers| && q.readers[i] == r;
    assert Sleepers(q)[i] == r.pid;
  }

  lemma ReaderIsAsleep(k: Kernel, lost: set<Pid>, x: Pid, id: int, kbuf: seq<Byte>)
    requires Filed(k, lost) && Reading(k, x, id, kbuf)
    ensures x in Sleepers(k.sync[id].pipe) && x !in lost && k.procs[x].st == BLOCKED && x != k.idle
    ensures x !in k.ready && x !in k.delayed && SiteOf(k.procs[x]) == AtPipe(id)
    ensures multiset(Sleepers(k.sync[id].pipe))[x] == 1
  {
    var p := k.sync[id].pipe;
    ReaderSleeps(p, Reader(x, |kbuf|));
    assert QueueOk(k, lost, id);
    assert x in WaitList(k.sync[id]);
    assert Placed(k, x);
    assert multiset(WaitList(k.sync[id]))[x] <= 1;
  }

  // ---------------------------------------------------------------- one event

  /** A reader woken once has what it was served. */
  lemma {:induction false} EffectsServe(k: Kernel, es: seq<Event>, i: nat, x: Pid)
    requires Typed(k) && (forall p <- WokenPids(es) :: p in k.procs) && i < |es| && es[i].Served? && es[i].pid == x
    requires multiset(WokenPids(es))[x] <= 1 && x in k.procs && |es[i].bytes| <= |k.procs[x].buf|
    ensures Given(Effects(k, es), x, k.procs[x].buf, es[i].bytes)
    decreases |es|
  {
    WokenParts(es, x);
    var k1 := Effect(k, es[0]);
    if i == 0 {
      assert Woke(es[0])[0] == x;
      EffectsSpare(k1, es[1..], x);
    } else {
      ServedIsWoken(es[1..], i - 1);
      assert k1.procs[x] == k.procs[x];
      EffectsServe(k1, es[1..], i - 1, x);
    }
  }

  /** Who is woken once is woken by the first event or by a later one, not by both. */
  lemma WokenParts(es: seq<Event>, x: Pid)
    requires es != [] && multiset(WokenPids(es))[x] <= 1
    ensures var now, later := Woke(es[0]), WokenPids(es[1..]);
            && (forall p <- now :: p in WokenPids(es)) && (forall p <- later :: p in WokenPids(es))
            && multiset(later)[x] <= 1 && !(x in now && x in later)
  {
    OneHalf(Woke(es[0]), WokenPids(es[1..]), x);
  }

  lemma OneHalf(a: seq<Pid>, b: seq<Pid>, x: Pid)
    requires multiset(a + b)[x] <= 1
    ensures multiset(b)[x] <= 1 && !(x in a && x in b)
    ensures (forall p <- a :: p in a + b) && forall p <- b :: p in a + b
  {
    assert multiset(a + b) == multiset(a) + multiset(b);
    assert x in a ==> multiset(a)[x] >= 1;
    assert x in b ==> multiset(b)[x] >= 1;
  }

  lemma {:induction false} ServedIsWoken(es: seq<Event>, i: nat)
    requires i < |es| && es[i].Served?
    ensures es[i].pid in WokenPids(es)
  {
    if i == 0 {
      assert Woke(es[0])[0] == es[0].pid;
    } else {
      ServedIsWoken(es[1..], i - 1);
    }
  }

  /** x still waits, or was served by the step from k to k'. */
  ghost predicate WaitsOrServed(k: Kernel, k': Kernel, x: Pid, id: int, kbuf: seq<Byte>) {
    Reading(k', x, id, kbuf) || exists bytes :: Serves(k, k', id, x, |kbuf|, bytes) && Given(k', x, kbuf, bytes)
  }

  /** What an operation on the pipe does for a reader queued there. */
  lemma PipeServes(k: Kernel, k1: Kernel, q: Pipe, x: Pid, id: int, kbuf: seq<Byte>)
    requires id in k.sync && k.sync[id].APipe? && Reader(x, |kbuf|) in k.sync[id].pipe.readers
    requires Typed(k1) && ReadersFated(k.sync[id].pipe, q) && id in k1.sync && k1.sync[id] == APipe(q)
    requires x in k1.procs && k1.procs[x].buf == kbuf
    requires forall y <- WokenPids(News(k.sync[id].pipe, q)) :: y in k1.procs
    requires multiset(WokenPids(News(k.sync[id].pipe, q)))[x] + multiset(Sleepers(q))[x] <= 1
    ensures WaitsOrServed(k, Effects(k1, News(k.sync[id].pipe, q)), x, id, kbuf)
  {
    var es, r := News(k.sync[id].pipe, q), Reader(x, |kbuf|);
    EffectsKeepSync(k1, es);
    if r in q.readers {
      ReaderSleeps(q, r);
      assert multiset(WokenPids(es))[x] == 0;
      EffectsSpare(k1, es, x);
    } else {
      var i :| 0 <= i < |es| && ServedAt(es[i], r);
      EffectsServe(k1, es, i, x);
      assert es[i] == Served(x, |kbuf|, es[i].bytes);
      assert Serves(k, Effects(k1, es), id, x, |kbuf|, es[i].bytes);
    }
  }

  lemma OneOf(p: Pipe, q: Pipe, added: multiset<Pid>, x: Pid)
    requires p.log <= q.log && multiset(Sleepers(p))[x] == 1 && x !in added
    requires multiset(Sleepers(p)) + added == multiset(WokenPids(News(p, q))) + multiset(Sleepers(q))
    ensures multiset(WokenPids(News(p, q)))[x] + multiset(Sleepers(q))[x] <= 1
  {
    assert added[x] == 0;
    assert (multiset(Sleepers(p)) + added)[x] == 1;
  }

  lemma ReadKeepsReader(g: Guard, k: Kernel, lost: set<Pid>, x: Pid, id: int, kbuf: seq<Byte>, other: seq<Byte>)
    requires Settled(k, lost) && x != k.cur && Reading(k, x, id, kbuf)
    ensures WaitsOrServed(k, SyncReadPipe(g, k, id, other).0, x, id, kbuf)
  {
    var p := k.sync[id].pipe;
    ReaderIsAsleep(k, lost, x, id, kbuf);
    ReadAccounted(g, p, k.cur, |other|);
    ReadServes(g, p, k.cur, |other|);
    ReadCast(g, k, id, other);
    var (q, res) := Read(g, p, k.cur, |other|);
    if res == ReadBlocked {
      assert Reader(x, |kbuf|) in q.readers;
    } else {
      OneOf(p, q, multiset{}, x);
      PipeServes(k, Put(Store(k, id, APipe(q)), k.cur, k.procs[k.cur].(reg0 := |res.bytes|)), q, x, id, kbuf);
    }
  }

  lemma WriteKeepsReader(g: Guard, k: Kernel, lost: set<Pid>, x: Pid, id: int, kbuf: seq<Byte>, msg: seq<Byte>)
    requires Settled(k, lost) && x != k.cur && Reading(k, x, id, kbuf)
    ensures WaitsOrServed(k, SyncWritePipe(g, k, id, msg).0, x, id, kbuf)
  {
    var p, f := k.sync[id].pipe, k.procs[k.cur];
    ReaderIsAsleep(k, lost, x, id, kbuf);
    WriteAccounted(g, p, k.cur, msg);
    WriteServes(g, p, k.cur, msg);
    WriteCast(g, k, id, msg);
    var q := Write(g, p, k.cur, msg);
    OneOf(p, q, if WriteBlocks(p, msg) then multiset{k.cur} else multiset{}, x);
    var f' := if WriteBlocks(p, msg) then f.(waitPipe := id, buf := msg, st := BLOCKED) else f.(reg0 := |msg|);
    PipeServes(k, Put(Store(k, id, APipe(q)), k.cur, f'), q, x, id, kbuf);
  }

  /** A sleeper at a pipe is on the queue of no other object. */
  lemma OnlyThere(k: Kernel, lost: set<Pid>, x: Pid, id: int, j: int)
    requires Filed(k, lost) && x in k.procs && SiteOf(k.procs[x]) == AtPipe(id) && x != k.cur && j != id
    ensures Aside(k, x, j)
  {
    if j in k.sync { assert QueueOk(k, lost, j); }
  }

  lemma HandleKeepsReader(g: Guard, requeue: bool, k: Kernel, lost: set<Pid>, t: Trap, x: Pid, id: int, kbuf: seq<Byte>)
    requires Settled(k, lost) && Possible(k, t) && x != k.cur && Reading(k, x, id, kbuf)
    ensures WaitsOrServed(k, Handle(g, requeue, k, t).0, x, id, kbuf)
  {
    ReaderIsAsleep(k, lost, x, id, kbuf);
    if t.SysPipeRead? && t.id == id {
      ReadKeepsReader(g, k, lost, x, id, kbuf, t.kbuf);
    } else if t.SysPipeWrite? && t.id == id {
      WriteKeepsReader(g, k, lost, x, id, kbuf, t.msg);
    } else {
      assert x in WaitList(k.sync[id]);
      HandleKeepsPipe(g, requeue, k, t, id);
      if t == Tick {
        TickSpares(requeue, k, lost, x);
      } else {
        if Wakes(t).Some? {
          assert Wakes(t).value != id;
          OnlyThere(k, lost, x, id, Wakes(t).value);
        }
        CallSpares(g, requeue, k, t, x);
      }
    }
  }

  // ---------------------------------------------------------------- steps and runs

  /** x runs with what it was given. */
  ghost predicate Returned(k: Kernel, x: Pid, kbuf: seq<Byte>, bytes: seq<Byte>) {
    x in k.procs && k.cur == x && k.frame == |bytes| && Filled(kbuf, bytes, k.procs[x].buf)
  }

  lemma ScheduleKeepsReader(k: Kernel, lost: set<Pid>, x: Pid, id: int, kbuf: seq<Byte>)
    requires Parked(k, lost) && x != k.cur && Reading(k, x, id, kbuf)
    ensures Schedule(k).cur != x && Reading(Schedule(k), x, id, kbuf)
  {
    ReaderIsAsleep(k, lost, x, id, kbuf);
    assert k.ready != [] ==> k.ready[0] in k.ready;
  }

  lemma ScheduleGives(k: Kernel, x: Pid, kbuf: seq<Byte>, bytes: seq<Byte>)
    requires Typed(k) && x != k.cur && x != k.idle && Given(k, x, kbuf, bytes)
    ensures if Schedule(k).cur == x then Returned(Schedule(k), x, kbuf, bytes) else Given(Schedule(k), x, kbuf, bytes)
  {
    assert k.ready != [] ==> k.ready[0] in k.ready;
  }

  /** A step leaves a reader waiting, or serves it: then it is ready with its bytes or runs with them. */
  lemma StepServes(g: Guard, requeue: bool, k: Kernel, lost: set<Pid>, t: Trap, x: Pid, id: int, kbuf: seq<Byte>)
    requires Settled(k, lost) && Possible(k, t) && x != k.cur && Reading(k, x, id, kbuf)
    ensures var k' := Step(g, requeue, k, t);
            || (k'.cur != x && Reading(k', x, id, kbuf))
            || exists bytes :: Serves(k, k', id, x, |kbuf|, bytes) &&
                 if k'.cur == x then Returned(k', x, kbuf, bytes) else Given(k', x, kbuf, bytes)
  {
    var (k1, switch) := Handle(g, requeue, k, t);
    ReaderIsAsleep(k, lost, x, id, kbuf);
    HandleKeepsReader(g, requeue, k, lost, t, x, id, kbuf);
    Handled(g, requeue, k, t, lost);
    HandleKeepsCurrent(g, requeue, k, t);
    if Reading(k1, x, id, kbuf) {
      if switch { ScheduleKeepsReader(k1, LostBy(requeue, k, t, lost), x, id, kbuf); }
    } else {
      var bytes :| Serves(k, k1, id, x, |kbuf|, bytes) && Given(k1, x, kbuf, bytes);
      if switch { ScheduleGives(k1, x, kbuf, bytes); }
      assert Serves(k, Step(g, requeue, k, t), id, x, |kbuf|, bytes);
    }
  }

  /** Some step of the run serves x these bytes. */
  ghost predicate ServedInRun(g: Guard, requeue: bool, k: Kernel, ts: seq<Trap>, id: int, x: Pid, want: nat,
                              bytes: seq<Byte>)
    requires Typed(k) && PossibleRun(g, requeue, k, ts)
    decreases |ts|
  {
    ts != [] && (Serves(k, Step(g, requeue, k, ts[0]), id, x, want, bytes)
                 || ServedInRun(g, requeue, Step(g, requeue, k, ts[0]), ts[1..], id, x, want, bytes))
  }

  /** Who was given its bytes returns with them. */
  lemma {:induction false} GivenReturns(g: Guard, requeue: bool, k: Kernel, lost: set<Pid>, x: Pid, kbuf: seq<Byte>,
                                        bytes: seq<Byte>, ts: seq<Trap>)
    requires Settled(k, lost) && PossibleRun(g, requeue, k, ts) && RunsAgain(g, requeue, k, ts, x)
    requires if k.cur == x then Returned(k, x, kbuf, bytes) else Given(k, x, kbuf, bytes)
    ensures Returned(Run(g, requeue, k, ts), x, kbuf, bytes)
    decreases |ts|
  {
    if ts != [] {
      ResultArrives(g, requeue, k, ts[0], lost, x);
      StepSettles(g, requeue, k, ts[0], lost);
      StepKeepsProcesses(g, requeue, k, ts[0]);
      GivenReturns(g, requeue, Step(g, requeue, k, ts[0]), LostBy(requeue, k, ts[0], lost), x, kbuf, bytes, ts[1..]);
    }
  }

  /** A waiting reader returns with what some step of the run has served it. */
  lemma {:induction false} WaitingReturns(g: Guard, requeue: bool, k: Kernel, lost: set<Pid>, x: Pid, id: int,
                                          kbuf: seq<Byte>, ts: seq<Trap>) returns (bytes: seq<Byte>)
    requires Settled(k, lost) && PossibleRun(g, requeue, k, ts) && RunsAgain(g, requeue, k, ts, x)
    requires k.cur != x && Reading(k, x, id, kbuf)
    ensures ServedInRun(g, requeue, k, ts, id, x, |kbuf|, bytes) && Returned(Run(g, requeue, k, ts), x, kbuf, bytes)
    decreases |ts|
  {
    var k' := Step(g, requeue, k, ts[0]);
    StepServes(g, requeue, k, lost, ts[0], x, id, kbuf);
    StepSettles(g, requeue, k, ts[0], lost);
    if k'.cur != x && Reading(k', x, id, kbuf) {
      bytes := WaitingReturns(g, requeue, k', LostBy(requeue, k, ts[0], lost), x, id, kbuf, ts[1..]);
    } else {
      bytes :| Serves(k, k', id, x, |kbuf|, bytes)
          && if k'.cur == x then Returned(k', x, kbuf, bytes) else Given(k', x, kbuf, bytes);
      GivenReturns(g, requeue, k', LostBy(requeue, k, ts[0], lost), x, kbuf, bytes, ts[1..]);
    }
  }

  lemma BlockedReads(g: Guard, requeue: bool, k: Kernel, lost: set<Pid>, id: int, kbuf: seq<Byte>)
    requires Settled(k, lost) && Possible(k, SysPipeRead(id, kbuf)) && id in k.sync && k.sync[id].pipe.ring == []
    ensures var k' := Step(g, requeue, k, SysPipeRead(id, kbuf)); k'.cur != k.cur && Reading(k', k.cur, id, kbuf)
  {
    var k1 := SyncReadPipe(g, k, id, kbuf).0;
    JoinsReaders(g, requeue, k, id, kbuf);
    ReadFiles(g, k, lost, id, kbuf);
    CallerSleeps(k1, lost, id, kbuf);
  }

  lemma JoinsReaders(g: Guard, requeue: bool, k: Kernel, id: int, kbuf: seq<Byte>)
    requires Typed(k) && Possible(k, SysPipeRead(id, kbuf)) && id in k.sync && k.sync[id].pipe.ring == []
    ensures var (k1, rc) := SyncReadPipe(g, k, id, kbuf);
            && rc == PCB_BLOCKED && k1.cur == k.cur && Reading(k1, k.cur, id, kbuf)
            && Step(g, requeue, k, SysPipeRead(id, kbuf)) == Schedule(k1)
  {
    assert SyncTyped(k, k.sync[id]);
    assert Reader(k.cur, |kbuf|) in SyncReadPipe(g, k, id, kbuf).0.sync[id].pipe.readers;
  }

  lemma CallerSleeps(k: Kernel, lost: set<Pid>, id: int, kbuf: seq<Byte>)
    requires Parked(k, lost) && Reading(k, k.cur, id, kbuf)
    ensures Schedule(k).cur != k.cur && Reading(Schedule(k), k.cur, id, kbuf)
  {
    ReaderIsAsleep(k, lost, k.cur, id, kbuf);
    assert k.ready != [] ==> k.ready[0] in k.ready;
  }

  /** Over any run up to its return, a reader that found the pipe empty returns with the count and the
      bytes it was served in the course of the run (sync.c:131-141, 207-231, syscalls.c:300-312). */
  lemma ReaderReturnsWith(g: Guard, requeue: bool, k: Kernel, lost: set<Pid>, id: int, kbuf: seq<Byte>, ts: seq<Trap>)
      returns (bytes: seq<Byte>)
    requires Settled(k, lost) && Possible(k, SysPipeRead(id, kbuf)) && id in k.sync && k.sync[id].pipe.ring == []
    requires var k' := Step(g, requeue, k, SysPipeRead(id, kbuf));
             PossibleRun(g, requeue, k', ts) && RunsAgain(g, requeue, k', ts, k.cur)
    ensures var k' := Step(g, requeue, k, SysPipeRead(id, kbuf));
            && ServedInRun(g, requeue, k', ts, id, k.cur, |kbuf|, bytes)
            && Returned(Run(g, requeue, k', ts), k.cur, kbuf, bytes)
  {
    BlockedReads(g, requeue, k, lost, id, kbuf);
    StepSettles(g, requeue, k, SysPipeRead(id, kbuf), lost);
    bytes := WaitingReturns(g, requeue, Step(g, requeue, k, SysPipeRead(id, kbuf)),
                            LostBy(requeue, k, SysPipeRead(id, kbuf), lost), k.cur, id, kbuf, ts);
  }

  /** How many bytes a read came to: what it took itself, or what it was served before it returned. */
  ghost predicate ReadCount(g: Guard, requeue: bool, k: Kernel, id: int, kbuf: seq<Byte>, ts: seq<Trap>, n: nat)
    requires Typed(k) && Possible(k, SysPipeRead(id, kbuf)) && id in k.sync
    requires PossibleRun(g, requeue, Step(g, requeue, k, SysPipeRead(id, kbuf)), ts)
  {
    if k.sync[id].pipe.ring != [] then n == Min(|kbuf|, |k.sync[id].pipe.ring|)
    else exists bytes ::
        |bytes| == n && ServedInRun(g, requeue, Step(g, requeue, k, SysPipeRead(id, kbuf)), ts, id, k.cur, |kbuf|,
                                    bytes)
  }

  /** A read returns with its count in the frame exactly when the pipe was empty before it or the frame
      held that number already. */
  lemma ReadResultExactly(g: Guard, requeue: bool, k: Kernel, lost: set<Pid>, id: int, kbuf: seq<Byte>, ts: seq<Trap>)
      returns (n: nat)
    requires Settled(k, lost) && Possible(k, SysPipeRead(id, kbuf)) && id in k.sync
    requires var k' := Step(g, requeue, k, SysPipeRead(id, kbuf));
             PossibleRun(g, requeue, k', ts) && RunsAgain(g, requeue, k', ts, k.cur)
    ensures ReadCount(g, requeue, k, id, kbuf, ts, n)
    ensures Run(g, requeue, Step(g, requeue, k, SysPipeRead(id, kbuf)), ts).frame == n <==>
            k.sync[id].pipe.ring == [] || k.frame == n
  {
    if k.sync[id].pipe.ring == [] {
      var bytes := ReaderReturnsWith(g, requeue, k, lost, id, kbuf, ts);
      n := |bytes|;
    } else {
      DirectReadKeepsFrame(g, requeue, k, lost, id, kbuf);
      assert ts == [];
      n := Min(|kbuf|, |k.sync[id].pipe.ring|);
    }
  }
}
