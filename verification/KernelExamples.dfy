/** Two runs from boot in which the kernel as written fails: a process is lost, and a writer's result
    is lost. */
module KernelExamples {
  import opened Hardware
  import opened Pipes
  import opened PipeWakes
  import opened PipeOutcomes
  import PT = PipeTheorems
  import opened KernelModel
  import opened KernelInvariant
  import opened KernelSteps
  import opened KernelRuns
  import opened KernelOutcomes

  // ---------------------------------------------------------------- runs put together

  /** The traps ts can happen from k on, and lead to k'. */
  ghost predicate Leads(g: Guard, requeue: bool, k: Kernel, ts: seq<Trap>, k': Kernel)
    decreases |ts|
  {
    Typed(k) && if ts == [] then k == k'
        else Possible(k, ts[0]) && Leads(g, requeue, Step(g, requeue, k, ts[0]), ts[1..], k')
  }

  lemma {:induction false} LeadsIsRun(g: Guard, requeue: bool, k: Kernel, ts: seq<Trap>, k': Kernel)
    requires Leads(g, requeue, k, ts, k')
    ensures PossibleRun(g, requeue, k, ts) && Run(g, requeue, k, ts) == k'
    decreases |ts|
  {
    if ts != [] { LeadsIsRun(g, requeue, Step(g, requeue, k, ts[0]), ts[1..], k'); }
  }

  lemma {:induction false} StepOn(g: Guard, requeue: bool, k: Kernel, ts: seq<Trap>, k1: Kernel, t: Trap, k2: Kernel)
    requires Leads(g, requeue, k, ts, k1) && Typed(k1) && Possible(k1, t) && Step(g, requeue, k1, t) == k2
    ensures Leads(g, requeue, k, ts + [t], k2)
    decreases |ts|
  {
    if ts == [] {
      LeadsFirst(g, requeue, k, t, [], k2);
      assert [t] + [] == [] + [t];
    } else {
      StepOn(g, requeue, Step(g, requeue, k, ts[0]), ts[1..], k1, t, k2);
      LeadsFirst(g, requeue, k, ts[0], ts[1..] + [t], k2);
      FirstAndLast(ts, t);
    }
  }

  lemma FirstAndLast(ts: seq<Trap>, t: Trap)
    requires ts != []
    ensures [ts[0]] + (ts[1..] + [t]) == ts + [t]
  {}

  lemma LeadsFirst(g: Guard, requeue: bool, k: Kernel, t: Trap, ts: seq<Trap>, k': Kernel)
    requires Typed(k) && Possible(k, t) && Leads(g, requeue, Step(g, requeue, k, t), ts, k')
    ensures Leads(g, requeue, k, [t] + ts, k')
  {
    assert ([t] + ts)[0] == t && ([t] + ts)[1..] == ts;
  }

  /** A tick that finds nobody asleep and does not preempt. */
  lemma PlainTick(g: Guard, requeue: bool, k: Kernel)
    requires Typed(k) && k.delayed == [] && !Preempts(ChargeCurrent(k))
    ensures Step(g, requeue, k, Tick) == ChargeCurrent(k)
  {}

  // ---------------------------------------------------------------- boot

  function AwakeProc(st: PState, runTime: nat, reg0: int): Proc {
    Proc(st, runTime, DEFAULT_TIMESLICE, 0, reg0, -1, -1, -1, [])
  }

  function IdleAside(): Proc {
    Proc(DEFAULT, 2, 1, 0, 0, -1, -1, -1, [])
  }

  /** Two ticks after boot init runs. */
  function InitRuns(): (k: Kernel)
    ensures Typed(k)
  {
    Kernel(map[0 := IdleAside(), 1 := AwakeProc(RUNNING, 0, 0)], 1, 0, [], [], map[], 0)
  }

  lemma InitRunsSoon(g: Guard, requeue: bool)
    ensures Leads(g, requeue, Boot(0, 1, 0), [Tick, Tick], InitRuns())
  {
    var k := Boot(0, 1, 0);
    var k1 := ChargeCurrent(k);
    PlainTick(g, requeue, k);
    StepOn(g, requeue, k, [], k, Tick, k1);
    IdleIsPreempted(g, requeue, k1);
    StepOn(g, requeue, k, [Tick], k1, Tick, InitRuns());
    assert [] + [Tick] == [Tick] && [Tick] + [Tick] == [Tick, Tick];
  }

  lemma IdleIsPreempted(g: Guard, requeue: bool, k: Kernel)
    requires k == ChargeCurrent(Boot(0, 1, 0))
    ensures Step(g, requeue, k, Tick) == InitRuns()
  {
    var k1 := ChargeCurrent(k);
    assert UpdateDelayed(k) == k && Charged(k) == k1;
    var k2 := SetAside(k1);
    assert Preempt(requeue, k1) == (k2, true);
    assert Schedule(k2).procs == InitRuns().procs;
  }

  // ---------------------------------------------------------------- a process is lost

  /** Init has run for r ticks since it was dispatched, and process 2 is ready. */
  function InitHasRun(r: nat): (k: Kernel)
    ensures Typed(k)
  {
    Kernel(map[0 := IdleAside(), 1 := AwakeProc(RUNNING, r, 0), 2 := AwakeProc(READY, 0, 0)], 1, 0, [2], [], map[], 2)
  }

  function OnlyTicks(n: nat): (ts: seq<Trap>)
    ensures |ts| == n
  {
    seq(n, i => Tick)
  }

  lemma ForkLeads(g: Guard, requeue: bool)
    ensures Leads(g, requeue, Boot(0, 1, 0), [Tick, Tick] + [SysFork(2)], InitHasRun(0))
  {
    InitRunsSoon(g, requeue);
    InitForks(g, requeue);
    StepOn(g, requeue, Boot(0, 1, 0), [Tick, Tick], InitRuns(), SysFork(2), InitHasRun(0));
  }

  lemma InitForks(g: Guard, requeue: bool)
    ensures Possible(InitRuns(), SysFork(2)) && Step(g, requeue, InitRuns(), SysFork(2)) == InitHasRun(0)
  {
    assert Fork(InitRuns(), 2).procs == InitHasRun(0).procs;
  }

  lemma {:induction false} TicksLead(g: Guard, requeue: bool, k: Kernel, before: seq<Trap>, r: nat)
    requires Leads(g, requeue, k, before, InitHasRun(0)) && r <= DEFAULT_TIMESLICE
    ensures Leads(g, requeue, k, before + OnlyTicks(r), InitHasRun(r))
  {
    if r == 0 {
      assert before + OnlyTicks(0) == before;
    } else {
      TicksLead(g, requeue, k, before, r - 1);
      InitRunsOn(g, requeue, r);
      StepOn(g, requeue, k, before + OnlyTicks(r - 1), InitHasRun(r - 1), Tick, InitHasRun(r));
      assert OnlyTicks(r - 1) + [Tick] == OnlyTicks(r);
      Assoc(before, OnlyTicks(r - 1), [Tick]);
    }
  }

  lemma InitRunsOn(g: Guard, requeue: bool, r: nat)
    requires 0 < r <= DEFAULT_TIMESLICE
    ensures Step(g, requeue, InitHasRun(r - 1), Tick) == InitHasRun(r)
  {
    assert ChargeCurrent(InitHasRun(r - 1)).procs == InitHasRun(r).procs;
    PlainTick(g, requeue, InitHasRun(r - 1));
  }

  lemma InitHasRunSettled(r: nat)
    ensures Settled(InitHasRun(r), {})
  {
    var k := InitHasRun(r);
    assert Placed(k, 0) && Placed(k, 1) && Placed(k, 2);
  }

  /** One tick more as written. */
  lemma InitIsLost(g: Guard)
    ensures Settled(Step(g, false, InitHasRun(DEFAULT_TIMESLICE), Tick), {1})
  {
    var k := InitHasRun(DEFAULT_TIMESLICE);
    InitHasRunSettled(DEFAULT_TIMESLICE);
    SliceIsUp(k);
    StepSettles(g, false, k, Tick, {});
  }

  lemma SliceIsUp(k: Kernel)
    requires k == InitHasRun(DEFAULT_TIMESLICE)
    ensures LostBy(false, k, Tick, {}) == {1}
  {
    assert UpdateDelayed(k) == k && Preempts(Charged(k));
    assert {} + {k.cur} == {1};
  }

  /** Seven traps after boot init has used up its slice; one tick more as written, and it is nowhere. */
  lemma AsWrittenLosesInit(g: Guard)
    ensures var ts := [Tick, Tick] + [SysFork(2)] + OnlyTicks(DEFAULT_TIMESLICE);
            PossibleRun(g, false, Boot(0, 1, 0), ts)
                && Run(g, false, Boot(0, 1, 0), ts) == InitHasRun(DEFAULT_TIMESLICE)
    ensures Occurrences(Step(g, false, InitHasRun(DEFAULT_TIMESLICE), Tick), 1) == 0
  {
    ForkLeads(g, false);
    TicksLead(g, false, Boot(0, 1, 0), [Tick, Tick] + [SysFork(2)], DEFAULT_TIMESLICE);
    LeadsIsRun(g, false, Boot(0, 1, 0), [Tick, Tick] + [SysFork(2)] + OnlyTicks(DEFAULT_TIMESLICE),
               InitHasRun(DEFAULT_TIMESLICE));
    InitIsLost(g);
    LostIsNowhere(Step(g, false, InitHasRun(DEFAULT_TIMESLICE), Tick), {1}, 1, MAX_SYNCS);
  }

  // ---------------------------------------------------------------- a result is lost

  /** Two readers sleep, asking for a bufferful and for one byte more. */
  function TwoAsk(): (p: Pipe)
    ensures Sound(p)
  {
    EMPTY.(readers := [Reader(1, PIPE_BUFFER_LEN), Reader(2, 1)], asks := [Reader(1, PIPE_BUFFER_LEN), Reader(2, 1)])
  }

  function OneAsks(): (p: Pipe)
    ensures Sound(p)
  {
    EMPTY.(readers := [Reader(1, PIPE_BUFFER_LEN)], asks := [Reader(1, PIPE_BUFFER_LEN)])
  }

  function AsleepReading(reg0: int, n: nat): Proc {
    Proc(BLOCKED, 0, DEFAULT_TIMESLICE, 0, reg0, 0, -1, -1, Zeros(n))
  }

  /** Init has made a pipe and two children. */
  function TwoChildren(): (k: Kernel)
    ensures Typed(k)
  {
    Kernel(map[0 := IdleAside(), 1 := AwakeProc(RUNNING, 0, 0), 2 := AwakeProc(READY, 0, 0),
               3 := AwakeProc(READY, 0, 0)],
           1, 0, [2, 3], [], map[0 := APipe(EMPTY)], 3)
  }

  /** Init sleeps, and its first child runs. */
  function FirstAsleep(): (k: Kernel)
    ensures Typed(k)
  {
    assert Sleepers(OneAsks()) == [1];
    Kernel(map[0 := IdleAside(), 1 := AsleepReading(3, PIPE_BUFFER_LEN), 2 := AwakeProc(RUNNING, 0, 0),
               3 := AwakeProc(READY, 0, 0)],
           2, 0, [3], [], map[0 := APipe(OneAsks())], 0)
  }

  /** Both sleep, and the second child is about to send exactly what they ask for. */
  function ThirdWrites(): (k: Kernel)
    ensures Typed(k)
  {
    assert Sleepers(TwoAsk()) == [1, 2];
    Kernel(map[0 := IdleAside(), 1 := AsleepReading(3, PIPE_BUFFER_LEN), 2 := AsleepReading(0, 1),
               3 := AwakeProc(RUNNING, 0, 0)],
           3, 0, [], [], map[0 := APipe(TwoAsk())], 0)
  }

  /** Eight traps. */
  function Setup(): seq<Trap> {
    [Tick, Tick] + [SysInit(APipe(EMPTY))] + [SysFork(2)] + [SysDelay(0)] + [SysFork(3)]
      + [SysPipeRead(0, Zeros(PIPE_BUFFER_LEN))] + [SysPipeRead(0, Zeros(1))]
  }

  /** Init with a pipe; with one child, the frame being v. */
  function WithPipe(): (k: Kernel)
    ensures Typed(k)
  {
    InitRuns().(sync := map[0 := APipe(EMPTY)], frame := SUCCESS)
  }

  function OneChild(v: int): (k: Kernel)
    ensures Typed(k)
  {
    Kernel(map[0 := IdleAside(), 1 := AwakeProc(RUNNING, 0, 0), 2 := AwakeProc(READY, 0, 0)], 1, 0, [2], [],
           map[0 := APipe(EMPTY)], v)
  }

  lemma MakesPipe(g: Guard, requeue: bool)
    ensures Possible(InitRuns(), SysInit(APipe(EMPTY)))
            && Step(g, requeue, InitRuns(), SysInit(APipe(EMPTY))) == WithPipe()
  {
    var k := InitRuns();
    assert FreeId(k, 0) == 0 && |k.sync| == 0;
  }

  lemma MakesFirst(g: Guard, requeue: bool)
    ensures Possible(WithPipe(), SysFork(2)) && Step(g, requeue, WithPipe(), SysFork(2)) == OneChild(2)
  {
    assert Fork(WithPipe(), 2).procs == OneChild(2).procs;
  }

  lemma MakesSecond(g: Guard, requeue: bool)
    ensures Possible(OneChild(0), SysFork(3)) && Step(g, requeue, OneChild(0), SysFork(3)) == TwoChildren()
  {
    assert Fork(OneChild(0), 3).procs == TwoChildren().procs;
  }

  lemma FirstReads(g: Guard, requeue: bool)
    ensures Possible(TwoChildren(), SysPipeRead(0, Zeros(PIPE_BUFFER_LEN)))
    ensures Step(g, requeue, TwoChildren(), SysPipeRead(0, Zeros(PIPE_BUFFER_LEN))) == FirstAsleep()
  {
    var k, kbuf := TwoChildren(), Zeros(PIPE_BUFFER_LEN);
    assert EMPTY.readers + [Reader(1, PIPE_BUFFER_LEN)] == OneAsks().readers
           && EMPTY.asks + [Reader(1, PIPE_BUFFER_LEN)] == OneAsks().asks;
    assert Read(g, EMPTY, 1, |kbuf|) == (OneAsks(), ReadBlocked);
    var k1 := SyncReadPipe(g, k, 0, kbuf).0;
    assert k1 == Put(Store(k, 0, APipe(OneAsks())), 1, k.procs[1].(waitPipe := 0, buf := kbuf, st := BLOCKED));
    assert k1.sync == FirstAsleep().sync;
    assert Schedule(k1).procs == FirstAsleep().procs;
  }

  lemma SecondReads(g: Guard, requeue: bool)
    ensures Possible(FirstAsleep(), SysPipeRead(0, Zeros(1)))
    ensures Step(g, requeue, FirstAsleep(), SysPipeRead(0, Zeros(1))) == ThirdWrites()
  {
    var k, kbuf := FirstAsleep(), Zeros(1);
    assert OneAsks().readers + [Reader(2, 1)] == TwoAsk().readers && OneAsks().asks + [Reader(2, 1)] == TwoAsk().asks;
    assert Read(g, OneAsks(), 2, |kbuf|) == (TwoAsk(), ReadBlocked);
    var k1 := SyncReadPipe(g, k, 0, kbuf).0;
    assert k1 == Put(Store(k, 0, APipe(TwoAsk())), 2, k.procs[2].(waitPipe := 0, buf := kbuf, st := BLOCKED));
    assert k1.sync == ThirdWrites().sync;
    assert Schedule(k1).procs == ThirdWrites().procs;
  }

  lemma SetupLeads(g: Guard, requeue: bool)
    ensures Leads(g, requeue, Boot(0, 1, 0), Setup(), ThirdWrites())
  {
    var b, ts := Boot(0, 1, 0), [Tick, Tick];
    InitRunsSoon(g, requeue);
    MakesPipe(g, requeue);
    StepOn(g, requeue, b, ts, InitRuns(), SysInit(APipe(EMPTY)), WithPipe());
    var ts1 := ts + [SysInit(APipe(EMPTY))];
    MakesFirst(g, requeue);
    MakesSecond(g, requeue);
    StepOn(g, requeue, b, ts1, WithPipe(), SysFork(2), OneChild(2));
    StepOn(g, requeue, b, ts1 + [SysFork(2)], OneChild(2), SysDelay(0), OneChild(0));
    var ts2 := ts1 + [SysFork(2)] + [SysDelay(0)];
    StepOn(g, requeue, b, ts2, OneChild(0), SysFork(3), TwoChildren());
    FirstReads(g, requeue);
    StepOn(g, requeue, b, ts2 + [SysFork(3)], TwoChildren(), SysPipeRead(0, Zeros(PIPE_BUFFER_LEN)), FirstAsleep());
    SecondReads(g, requeue);
    StepOn(g, requeue, b, ts2 + [SysFork(3)] + [SysPipeRead(0, Zeros(PIPE_BUFFER_LEN))], FirstAsleep(),
           SysPipeRead(0, Zeros(1)), ThirdWrites());
  }

  lemma ThirdWritesSettled()
    ensures Settled(ThirdWrites(), {}) && Sleepers(TwoAsk()) == [1, 2]
  {
    var k := ThirdWrites();
    assert Sleepers(TwoAsk()) == [1, 2];
    assert WaitList(k.sync[0]) == [1, 2];
    AllPlaced(k);
    BothWait(k);
  }

  lemma BothWait(k: Kernel)
    requires k == ThirdWrites() && WaitList(k.sync[0]) == [1, 2]
    ensures QueueOk(k, {}, 0)
  {
    assert WaitList(k.sync[0])[0] == 1 && WaitList(k.sync[0])[1] == 2;
  }

  lemma AllPlaced(k: Kernel)
    requires k == ThirdWrites() && WaitList(k.sync[0]) == [1, 2]
    ensures Placed(k, 0) && Placed(k, 1) && Placed(k, 2) && Placed(k, 3)
  {
    assert WaitList(k.sync[0])[0] == 1 && WaitList(k.sync[0])[1] == 2;
  }

  /** Both requests are met, so nothing is left to come. */
  lemma TwoAskAreEnough(g: Guard)
    ensures OwnCallCompletes(g, TwoAsk(), Zeros(PIPE_BUFFER_LEN + 1))
  {
    var n := PIPE_BUFFER_LEN;
    var wants := PT.Wants(TwoAsk().readers);
    assert wants == [n, 1] && wants[1..] == [1] && [1][1..] == [];
    assert LeftOver(g, [], 0, 0) == 0;
    assert LeftOver(g, [1], 1, 0) == LeftOver(g, [], 0, 0);
    assert LeftOver(g, [1], 0, 1) == LeftOver(g, [1], 1, 0);
    assert LeftOver(g, [n, 1], n, 1) == LeftOver(g, [1], 0, 1);
  }

  /** Eight traps after boot one write, with either guard: the drain leaves the result in the PCB, and
      schedule overwrites it. */
  lemma AResultIsLost(g: Guard, requeue: bool)
    ensures PossibleRun(g, requeue, Boot(0, 1, 0), Setup()) && Run(g, requeue, Boot(0, 1, 0), Setup()) == ThirdWrites()
    ensures Possible(ThirdWrites(), SysPipeWrite(0, Zeros(PIPE_BUFFER_LEN + 1)))
    ensures AfterWrite(g, ThirdWrites(), 0, Zeros(PIPE_BUFFER_LEN + 1)).procs[3].reg0 == PIPE_BUFFER_LEN + 1
    ensures Step(g, requeue, ThirdWrites(), SysPipeWrite(0, Zeros(PIPE_BUFFER_LEN + 1))).procs[3].reg0 == 0
  {
    SetupLeads(g, requeue);
    LeadsIsRun(g, requeue, Boot(0, 1, 0), Setup(), ThirdWrites());
    ThirdWritesSettled();
    TwoAskAreEnough(g);
    OwnCallResultIsLost(g, requeue, ThirdWrites(), {}, 0, Zeros(PIPE_BUFFER_LEN + 1));
  }
}
