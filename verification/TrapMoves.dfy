/** The list operations of every trap: legal one after the other, and leaving the queues as Step
    says (pcb.h:80, pcb.c:95-157, sync.c:108-592, syscalls.c:424-447, traps.c:40-70). */
module TrapMoves {
  import opened Hardware
  import opened Pipes
  import opened PipeWakes
  import opened Locks
  import opened KernelModel
  import opened KernelInvariant
  import opened KernelSteps
  import opened SyncSteps
  import opened DelaySweep
  import opened KernelRuns
  import opened KernelDrains
  import opened QueueMoves
  import KO = KernelObjects

  // ---------------------------------------------------------------- the queues of a kernel

  /** The queues one object has. */
  function QueuesAt(id: int, s: Sync): set<QueueId> {
    if s.APipe? then {ReadersOf(id), WritersOf(id)} else {WaitersOf(id)}
  }

  ghost predicate IsQueue(k: Kernel, q: QueueId) {
    match q
    case ReadyQueue => true
    case DelayQueue => true
    case _ => q.id in k.sync && q in QueuesAt(q.id, k.sync[q.id])
  }

  ghost function QueueOf(k: Kernel, q: QueueId): seq<Pid>
    requires IsQueue(k, q)
  {
    match q
    case ReadyQueue => k.ready
    case DelayQueue => k.delayed
    case ReadersOf(id) => ReaderPids(k.sync[id].pipe.readers)
    case WritersOf(id) => WriterPids(k.sync[id].pipe.writers)
    case WaitersOf(id) => WaitList(k.sync[id])
  }

  ghost function QueueIds(k: Kernel): (ids: set<QueueId>)
    ensures forall q :: q in ids <==> IsQueue(k, q)
  {
    {ReadyQueue, DelayQueue} + (set id <- k.sync, q <- QueuesAt(id, k.sync[id]) :: q)
  }

  ghost function QueuesOf(k: Kernel): (qs: Queues)
    ensures forall q :: q in qs <==> IsQueue(k, q)
    ensures forall q <- qs :: qs[q] == QueueOf(k, q)
  {
    map q <- QueueIds(k) :: QueueOf(k, q)
  }

  /** Who is on a queue of an object says so. */
  lemma OnAnObject(k: Kernel, loose: set<Pid>, q: QueueId, p: Pid)
    requires Filed(k, loose) && IsQueue(k, q) && p in QueueOf(k, q) && q != ReadyQueue && q != DelayQueue
    ensures p in k.procs && p !in loose && k.procs[p].st == BLOCKED && SiteOf(k.procs[p]) == SiteAt(k.sync[q.id], q.id)
  {
    assert QueueOk(k, loose, q.id);
    var i :| 0 <= i < |QueueOf(k, q)| && QueueOf(k, q)[i] == p;
    if q.WritersOf? {
      assert Sleepers(k.sync[q.id].pipe)[|k.sync[q.id].pipe.readers| + i] == p;
    } else if q.ReadersOf? {
      assert Sleepers(k.sync[q.id].pipe)[i] == p;
    }
    assert p in WaitList(k.sync[q.id]);
    assert Placed(k, p);
  }

  /** Nobody reads and writes a pipe at once. */
  lemma NotBothEnds(p: Pipe)
    requires NoDup(Sleepers(p))
    ensures NoDup(ReaderPids(p.readers)) && NoDup(WriterPids(p.writers))
    ensures forall x <- ReaderPids(p.readers) :: x !in WriterPids(p.writers)
  {
    Members(Sleepers(p), ReaderPids(p.readers), WriterPids(p.writers));
  }

  /** Who is on one of the two global queues is not BLOCKED, and says which. */
  lemma OnAGlobalOne(k: Kernel, loose: set<Pid>, p: Pid)
    requires Filed(k, loose) && (p in k.ready || p in k.delayed)
    ensures p in k.procs && k.procs[p].st == if p in k.ready then READY else DELAYED
    ensures !(p in k.ready && p in k.delayed)
  {
    assert p in k.procs;
    assert p !in loose;
    assert Placed(k, p);
  }

  lemma OneObjectOnly(k: Kernel, loose: set<Pid>, a: QueueId, b: QueueId, p: Pid)
    requires Filed(k, loose) && IsQueue(k, a) && IsQueue(k, b) && p in QueueOf(k, a) && p in QueueOf(k, b)
    requires !a.ReadyQueue? && !a.DelayQueue? && !b.ReadyQueue? && !b.DelayQueue?
    requires SiteAt(k.sync[a.id], a.id) == SiteAt(k.sync[b.id], b.id)
    ensures a == b
  {
    assert a.id == b.id;
    if k.sync[a.id].APipe? {
      OneEndOnly(k, loose, a.id);
    }
  }

  lemma OneEndOnly(k: Kernel, loose: set<Pid>, id: int)
    requires Filed(k, loose) && id in k.sync && k.sync[id].APipe?
    ensures forall x <- ReaderPids(k.sync[id].pipe.readers) :: x !in WriterPids(k.sync[id].pipe.writers)
  {
    assert QueueOk(k, loose, id);
    NotBothEnds(k.sync[id].pipe);
  }

  /** Nobody is on two queues. */
  lemma OneQueueOnly(k: Kernel, loose: set<Pid>, a: QueueId, b: QueueId, p: Pid)
    requires Filed(k, loose) && IsQueue(k, a) && IsQueue(k, b) && p in QueueOf(k, a) && p in QueueOf(k, b)
    ensures a == b
  {
    if !a.ReadyQueue? && !a.DelayQueue? { OnAnObject(k, loose, a, p); }
    if !b.ReadyQueue? && !b.DelayQueue? { OnAnObject(k, loose, b, p); }
    if p in k.ready || p in k.delayed {
      OnAGlobalOne(k, loose, p);
    } else {
      OneObjectOnly(k, loose, a, b, p);
    }
  }

  lemma NoDupOn(k: Kernel, loose: set<Pid>, q: QueueId)
    requires Filed(k, loose) && IsQueue(k, q)
    ensures NoDup(QueueOf(k, q))
  {
    if q != ReadyQueue && q != DelayQueue {
      assert QueueOk(k, loose, q.id);
      if q.ReadersOf? || q.WritersOf? { NotBothEnds(k.sync[q.id].pipe); }
    }
  }

  lemma FiledDisjoint(k: Kernel, loose: set<Pid>)
    requires Filed(k, loose)
    ensures Disjoint(k.procs.Keys, QueuesOf(k))
  {
    var qs := QueuesOf(k);
    forall q <- qs
      ensures NoDup(qs[q])
    {
      NoDupOn(k, loose, q);
    }
    forall q <- qs, r <- qs, p <- qs[q] | p in qs[r]
      ensures q == r
    {
      OneQueueOnly(k, loose, q, r, p);
    }
  }

  /** A process between queues is on none: what add_to_ready_queue and add_to_delay_queue need of
      every process they are given. */
  lemma LooseIsUnqueued(k: Kernel, loose: set<Pid>, p: Pid)
    requires Filed(k, loose) && p in loose && p in k.procs
    ensures Unqueued(QueuesOf(k), p)
  {
    forall q <- QueuesOf(k)
      ensures p !in QueuesOf(k)[q]
    {
      if q != ReadyQueue && q != DelayQueue && p in QueueOf(k, q) { OnAnObject(k, loose, q, p); }
    }
  }

  /** So is the running process. */
  lemma CurrentIsUnqueued(k: Kernel, lost: set<Pid>)
    requires Settled(k, lost)
    ensures Unqueued(QueuesOf(k), k.cur) && Disjoint(k.procs.Keys, QueuesOf(k))
  {
    FiledDisjoint(k, lost);
    assert k.cur !in lost;
    assert Placed(k, k.cur);
    forall q <- QueuesOf(k)
      ensures k.cur !in QueuesOf(k)[q]
    {
      if q != ReadyQueue && q != DelayQueue && k.cur in QueueOf(k, q) { OnAnObject(k, lost, q, k.cur); }
    }
  }

  // ---------------------------------------------------------------- the operations of each call

  /** insert_tail of a process that falls asleep; the ready queue when it is made ready. */
  function Sleep(q: QueueId, p: Pid): seq<Move> {
    [Append(q, p)]
  }

  function Wake(q: QueueId, p: Pid): seq<Move> {
    [PopHead(q), Append(ReadyQueue, p)]
  }

  /** SyncReadPipe (sync.c:137, 156). */
  function ReadMoves(g: Guard, k: Kernel, id: int, want: nat): seq<Move>
    requires Typed(k) && PipeOrNone(k, id)
  {
    if id !in k.sync then []
    else
      assert SyncTyped(k, k.sync[id]);
      var p := k.sync[id].pipe;
      if p.ring == [] then Sleep(ReadersOf(id), k.cur) else DrainWritersMoves(g, id, TakenFrom(p, k.cur, want))
  }

  /** The pipe after a reader's own copy. */
  function TakenFrom(p: Pipe, pid: Pid, want: nat): (t: Pipe)
    ensures Sound(p) ==> Sound(t)
  {
    var n := Min(want, |p.ring|);
    p.(ring := p.ring[n..], log := p.log + [Taken(pid, want, p.ring[..n])], asks := p.asks + [Reader(pid, want)])
  }

  /** insert_tail of the writer whose message does not fit. */
  function EnterMoves(id: int, p: Pipe, x: Pid, msg: seq<Byte>): seq<Move> {
    if WriteBlocks(p, msg) then Sleep(WritersOf(id), x) else []
  }

  /** SyncWritePipe (sync.c:277, 280, 286). */
  function WriteMoves(g: Guard, k: Kernel, id: int, msg: seq<Byte>): seq<Move>
    requires Typed(k) && PipeOrNone(k, id)
  {
    if id !in k.sync then []
    else
      assert SyncTyped(k, k.sync[id]);
      var p := k.sync[id].pipe;
      EnterMoves(id, p, k.cur, msg) + DrainReadersMoves(g, id, Enter(p, k.cur, msg))
  }

  /** The release of a lock (sync.c:376-382, 454-460). */
  function PassOnMoves(k: Kernel, id: int): seq<Move>
    requires id in k.sync && k.sync[id].ALock?
  {
    var ws := k.sync[id].lock.waiters;
    if ws == [] then [] else Wake(WaitersOf(id), ws[0])
  }

  /** The loop of SyncCvarBroadcast (sync.c:531-537). */
  function WakeAll(q: QueueId, ws: seq<Pid>): seq<Move> {
    if ws == [] then [] else Wake(q, ws[0]) + WakeAll(q, ws[1..])
  }

  /** The delay sweep (pcb.c:270-275). */
  function SweepMoves(procs: map<Pid, Proc>, ps: seq<Pid>): seq<Move>
    requires forall p <- ps :: p in procs
  {
    if ps == [] then []
    else (if procs[ps[0]].ticks == 1 then Expire(ps[0]) else []) + SweepMoves(procs, ps[1..])
  }

  function Expire(p: Pid): seq<Move> {
    [Cut(DelayQueue, p), Append(ReadyQueue, p)]
  }

  function TickMoves(requeue: bool, k: Kernel): seq<Move>
    requires Typed(k)
  {
    SweepMoves(k.procs, k.delayed) + PreemptMoves(requeue, Charged(k))
  }

  /** What is missing in traps.c:52-63, when it is put in. */
  function PreemptMoves(requeue: bool, k: Kernel): seq<Move>
    requires k.cur in k.procs
  {
    if requeue && k.cur != k.idle && Preempts(k) then [Append(ReadyQueue, k.cur)] else []
  }

  /** list_init of the queues of a new object, and their end (sync.c:84-85, 304, 407, 561-577). */
  function InitMoves(k: Kernel, s: Sync): seq<Move>
    requires Typed(k)
  {
    var id := FreeId(k, 0);
    if |k.sync| >= MAX_SYNCS || id == ERROR then []
    else if s.APipe? then [Open(ReadersOf(id)), Open(WritersOf(id))] else [Open(WaitersOf(id))]
  }

  function ReclaimMoves(k: Kernel, id: int): seq<Move> {
    if id !in k.sync then []
    else if k.sync[id].APipe? then [Close(ReadersOf(id)), Close(WritersOf(id))] else [Close(WaitersOf(id))]
  }

  function HandleMoves(g: Guard, requeue: bool, k: Kernel, t: Trap): seq<Move>
    requires Typed(k) && Possible(k, t)
  {
    match t
    case Tick => TickMoves(requeue, k)
    case SysDelay(ticks) => if ticks > 0 then Sleep(DelayQueue, k.cur) else []
    case SysPipeRead(id, kbuf) => ReadMoves(g, k, id, |kbuf|)
    case SysPipeWrite(id, msg) => WriteMoves(g, k, id, msg)
    case SysLockAcquire(id) => if id in k.sync && k.sync[id].lock.locked then Sleep(WaitersOf(id), k.cur) else []
    case SysLockRelease(id) => if id in k.sync && k.sync[id].lock.owner == Some(k.cur) then PassOnMoves(k, id) else []
    case SysCvarWait(c, l) =>
      if c in k.sync && l in k.sync && k.sync[l].lock.owner == Some(k.cur)
          then PassOnMoves(k, l) + Sleep(WaitersOf(c), k.cur) else []
    case SysSignal(id) =>
      if id in k.sync && k.sync[id].cvar.waiters != []
      then Wake(WaitersOf(id), k.sync[id].cvar.waiters[0]) else []
    case SysBroadcast(id, _) => if id in k.sync then WakeAll(WaitersOf(id), k.sync[id].cvar.waiters) else []
    case SysInit(s) => InitMoves(k, s)
    case SysReclaim(id) => ReclaimMoves(k, id)
    case SysFork(child) => [Append(ReadyQueue, child)]
  }

  /** schedule pops the ready queue (syscalls.c:429-431). */
  function ScheduleMoves(k: Kernel): seq<Move> {
    if k.ready == [] then [] else [PopHead(ReadyQueue)]
  }

  function StepMoves(g: Guard, requeue: bool, k: Kernel, t: Trap): seq<Move>
    requires Typed(k) && Possible(k, t)
  {
    var (k1, switch) := Handle(g, requeue, k, t);
    HandleMoves(g, requeue, k, t) + if switch then ScheduleMoves(k1) else []
  }

  // ---------------------------------------------------------------- what has become of the queues

  lemma SameObjects(k: Kernel, k': Kernel)
    requires k'.sync == k.sync
    ensures QueuesOf(k') == QueuesOf(k)[ReadyQueue := k'.ready][DelayQueue := k'.delayed]
  {
    assert forall q :: IsQueue(k', q) <==> IsQueue(k, q);
  }

  lemma SameQueues(k: Kernel, k': Kernel)
    requires k'.sync == k.sync && k'.ready == k.ready && k'.delayed == k.delayed
    ensures QueuesOf(k') == QueuesOf(k)
  {
    assert forall q :: IsQueue(k', q) <==> IsQueue(k, q);
  }

  lemma ReadyIs(k: Kernel, k': Kernel)
    requires k'.sync == k.sync && k'.delayed == k.delayed
    ensures QueuesOf(k') == QueuesOf(k)[ReadyQueue := k'.ready]
  {
    assert forall q :: IsQueue(k', q) <==> IsQueue(k, q);
  }

  lemma DelayedIs(k: Kernel, k': Kernel)
    requires k'.sync == k.sync && k'.ready == k.ready
    ensures QueuesOf(k') == QueuesOf(k)[DelayQueue := k'.delayed]
  {
    assert forall q :: IsQueue(k', q) <==> IsQueue(k, q);
  }

  /** An object that is no pipe has changed its waiters. */
  ghost predicate Rewaited(k: Kernel, k': Kernel, id: int, s: Sync) {
    id in k.sync && !k.sync[id].APipe? && !s.APipe? && k'.sync == k.sync[id := s] && k'.delayed == k.delayed
  }

  lemma WaitersAre(k: Kernel, k': Kernel, id: int, s: Sync)
    requires Rewaited(k, k', id, s) && k'.ready == k.ready
    ensures WaitersOf(id) in QueuesOf(k) && QueuesOf(k)[WaitersOf(id)] == WaitList(k.sync[id])
    ensures QueuesOf(k') == QueuesOf(k)[WaitersOf(id) := WaitList(s)]
  {
    assert IsQueue(k, WaitersOf(id));
    assert forall q :: IsQueue(k', q) <==> IsQueue(k, q);
  }

  lemma WokenIs(k: Kernel, k': Kernel, id: int, s: Sync, x: Pid)
    requires Rewaited(k, k', id, s) && k'.ready == k.ready + [x]
    ensures WaitersOf(id) in QueuesOf(k) && QueuesOf(k)[WaitersOf(id)] == WaitList(k.sync[id])
    ensures QueuesOf(k') == WokenTo(QueuesOf(k), WaitersOf(id), WaitList(s), x)
  {
    assert IsQueue(k, WaitersOf(id));
    assert forall q :: IsQueue(k', q) <==> IsQueue(k, q);
  }

  /** A pipe has become q, and these processes are ready. */
  lemma DrainedIs(k: Kernel, k': Kernel, id: int, q: Pipe, woken: seq<Pid>)
    requires id in k.sync && k.sync[id].APipe? && k'.sync == k.sync[id := APipe(q)]
    requires k'.delayed == k.delayed && k'.ready == k.ready + woken
    ensures QueuesOf(k') == QueuesDrained(QueuesOf(k), id, q, woken)
  {
    assert forall r :: IsQueue(k', r) <==> IsQueue(k, r);
  }

  // ---------------------------------------------------------------- single moves

  lemma AppendDoes(who: set<Pid>, qs: Queues, q: QueueId, p: Pid)
    requires Disjoint(who, qs) && q in qs && p in who && Unqueued(qs, p)
    ensures Does(who, qs, [Append(q, p)], qs[q := qs[q] + [p]]) && Disjoint(who, qs[q := qs[q] + [p]])
  {
    PutOn(who, qs, q, p, qs[q] + [p]);
    DoesOne(who, qs, Append(q, p));
  }

  /** The current process joins the queue q. */
  lemma SleepDoes(k: Kernel, lost: set<Pid>, q: QueueId, qs': Queues)
    requires Settled(k, lost) && q in QueuesOf(k) && qs' == QueuesOf(k)[q := QueuesOf(k)[q] + [k.cur]]
    ensures Does(k.procs.Keys, QueuesOf(k), Sleep(q, k.cur), qs') && Disjoint(k.procs.Keys, qs')
  {
    CurrentIsUnqueued(k, lost);
    AppendDoes(k.procs.Keys, QueuesOf(k), q, k.cur);
  }

  /** A process on no queue is on none when somebody else has moved. */
  lemma StillUnqueued(who: set<Pid>, qs: Queues, q: QueueId, p: Pid)
    requires Disjoint(who, qs) && q in qs && ReadyQueue in qs && qs[q] != [] && Unqueued(qs, p)
    ensures Unqueued(WokenTo(qs, q, qs[q][1..], qs[q][0]), p)
  {}

  // ---------------------------------------------------------------- effects on the queues

  lemma {:induction false} EffectsQueue(k: Kernel, es: seq<Event>)
    requires Typed(k) && forall p <- WokenPids(es) :: p in k.procs
    ensures Effects(k, es).ready == k.ready + WokenPids(es) && Effects(k, es).delayed == k.delayed
    decreases |es|
  {
    if es == [] {
      assert k.ready + [] == k.ready;
    } else {
      assert forall p <- Woke(es[0]) :: p in WokenPids(es);
      assert forall p <- WokenPids(es[1..]) :: p in WokenPids(es);
      EffectQueue(k, es[0]);
      EffectsQueue(Effect(k, es[0]), es[1..]);
      Assoc(k.ready, Woke(es[0]), WokenPids(es[1..]));
    }
  }

  lemma EffectQueue(k: Kernel, e: Event)
    requires Typed(k) && forall p <- Woke(e) :: p in k.procs
    ensures Effect(k, e).ready == k.ready + Woke(e) && Effect(k, e).delayed == k.delayed
  {
    assert k.ready + [] == k.ready;
  }

  /** The queues after the events of a pipe that has become q. */
  lemma EffectsDrained(k: Kernel, k1: Kernel, id: int, q: Pipe, es: seq<Event>)
    requires id in k.sync && k.sync[id].APipe? && Typed(k1) && forall p <- WokenPids(es) :: p in k1.procs
    requires k1.sync == k.sync[id := APipe(q)] && k1.ready == k.ready && k1.delayed == k.delayed
    ensures QueuesOf(Effects(k1, es)) == QueuesDrained(QueuesOf(k), id, q, WokenPids(es))
  {
    EffectsQueue(k1, es);
    EffectsKeepSync(k1, es);
    DrainedIs(k, Effects(k1, es), id, q, WokenPids(es));
  }

  // ---------------------------------------------------------------- pipes

  lemma ShowsPipe(k: Kernel, id: int)
    requires id in k.sync && k.sync[id].APipe?
    ensures ShowsPipeQueues(QueuesOf(k), id, k.sync[id].pipe)
  {
    assert IsQueue(k, ReadersOf(id)) && IsQueue(k, WritersOf(id)) && IsQueue(k, ReadyQueue);
  }

  /** One more reader, or one more writer. */
  lemma ReaderJoins(qs: Queues, id: int, p: Pipe, q: Pipe, x: Pid)
    requires ShowsPipeQueues(qs, id, p) && ReaderPids(q.readers) == ReaderPids(p.readers) + [x]
             && q.writers == p.writers
    ensures QueuesDrained(qs, id, q, []) == qs[ReadersOf(id) := qs[ReadersOf(id)] + [x]]
  {
    assert qs[ReadyQueue] + [] == qs[ReadyQueue];
  }

  lemma WriterJoins(qs: Queues, id: int, p: Pipe, q: Pipe, x: Pid)
    requires ShowsPipeQueues(qs, id, p) && WriterPids(q.writers) == WriterPids(p.writers) + [x]
             && q.readers == p.readers
    ensures QueuesDrained(qs, id, q, []) == qs[WritersOf(id) := qs[WritersOf(id)] + [x]]
  {
    assert qs[ReadyQueue] + [] == qs[ReadyQueue];
  }

  lemma NobodyJoins(qs: Queues, id: int, p: Pipe, q: Pipe)
    requires ShowsPipeQueues(qs, id, p) && q.readers == p.readers && q.writers == p.writers
    ensures QueuesDrained(qs, id, q, []) == qs
  {
    assert qs[ReadyQueue] + [] == qs[ReadyQueue];
  }

  /** The pipe and the queues when the ring is empty. */
  lemma BlockedReadIs(g: Guard, k: Kernel, id: int, kbuf: seq<Byte>)
    requires Typed(k) && id in k.sync && k.sync[id].APipe? && k.sync[id].pipe.ring == []
    ensures var p, q, k' := k.sync[id].pipe, Read(g, k.sync[id].pipe, k.cur, |kbuf|).0, SyncReadPipe(g, k, id, kbuf).0;
            && ReaderPids(q.readers) == ReaderPids(p.readers) + [k.cur] && q.writers == p.writers
            && k'.sync == k.sync[id := APipe(q)] && k'.delayed == k.delayed && k'.ready == k.ready + []
  {
    assert k.ready + [] == k.ready;
  }

  lemma ReadBlocksDoes(g: Guard, k: Kernel, lost: set<Pid>, id: int, kbuf: seq<Byte>)
    requires Settled(k, lost) && id in k.sync && k.sync[id].APipe? && k.sync[id].pipe.ring == []
    ensures Does(k.procs.Keys, QueuesOf(k), Sleep(ReadersOf(id), k.cur), QueuesOf(SyncReadPipe(g, k, id, kbuf).0))
  {
    var p, q, k' := k.sync[id].pipe, Read(g, k.sync[id].pipe, k.cur, |kbuf|).0, SyncReadPipe(g, k, id, kbuf).0;
    BlockedReadIs(g, k, id, kbuf);
    ShowsPipe(k, id);
    DrainedIs(k, k', id, q, []);
    ReaderJoins(QueuesOf(k), id, p, q, k.cur);
    SleepDoes(k, lost, ReadersOf(id), QueuesOf(k'));
  }

  /** The first event of a call that wakes nobody leaves the same processes to be woken. */
  lemma QuietEvent(p: Pipe, t: Pipe, q: Pipe, e: Event)
    requires t.log == p.log + [e] && Woke(e) == [] && t.log <= q.log
    ensures p.log <= q.log && WokenPids(News(p, q)) == WokenPids(News(t, q))
  {
    Suffixes(p.log, t.log, q.log);
    assert News(p, q) == [e] + News(t, q);
    WokenPidsConcat([e], News(t, q));
    assert WokenPids([e]) == [];
  }

  /** The queues after a read that took bytes. */
  lemma TakingReadIs(g: Guard, k: Kernel, id: int, kbuf: seq<Byte>)
    requires Typed(k) && id in k.sync && k.sync[id].APipe? && k.sync[id].pipe.ring != [] && Sound(k.sync[id].pipe)
    ensures var p := k.sync[id].pipe; var q := DrainWriters(g, TakenFrom(p, k.cur, |kbuf|));
            && p.log <= q.log
            && QueuesOf(SyncReadPipe(g, k, id, kbuf).0) == QueuesDrained(QueuesOf(k), id, q, WokenPids(News(p, q)))
  {
    var p, n := k.sync[id].pipe, Min(|kbuf|, |k.sync[id].pipe.ring|);
    var q := DrainWriters(g, TakenFrom(p, k.cur, |kbuf|));
    ReadCast(g, k, id, kbuf);
    EffectsDrained(k, Put(Store(k, id, APipe(q)), k.cur, k.procs[k.cur].(reg0 := n)), id, q, News(p, q));
  }

  lemma ReadTakesDoes(g: Guard, k: Kernel, lost: set<Pid>, id: int, kbuf: seq<Byte>)
    requires Settled(k, lost) && id in k.sync && k.sync[id].APipe? && k.sync[id].pipe.ring != []
             && Sound(k.sync[id].pipe)
    ensures Does(k.procs.Keys, QueuesOf(k), DrainWritersMoves(g, id, TakenFrom(k.sync[id].pipe, k.cur, |kbuf|)),
                 QueuesOf(SyncReadPipe(g, k, id, kbuf).0))
  {
    var p, t := k.sync[id].pipe, TakenFrom(k.sync[id].pipe, k.cur, |kbuf|);
    FiledDisjoint(k, lost);
    ShowsPipe(k, id);
    DrainWritersDoes(k.procs.Keys, g, QueuesOf(k), id, t);
    QuietEvent(p, t, DrainWriters(g, t), t.log[|p.log|]);
    TakingReadIs(g, k, id, kbuf);
  }

  lemma ReadDoes(g: Guard, k: Kernel, lost: set<Pid>, id: int, kbuf: seq<Byte>)
    requires Settled(k, lost) && PipeOrNone(k, id)
    ensures Does(k.procs.Keys, QueuesOf(k), ReadMoves(g, k, id, |kbuf|), QueuesOf(SyncReadPipe(g, k, id, kbuf).0))
  {
    if id in k.sync {
      assert SyncTyped(k, k.sync[id]);
      if k.sync[id].pipe.ring == [] {
        ReadBlocksDoes(g, k, lost, id, kbuf);
      } else {
        ReadTakesDoes(g, k, lost, id, kbuf);
      }
    }
  }

  lemma EnterIs(p: Pipe, x: Pid, msg: seq<Byte>)
    requires Sound(p)
    ensures var e := Enter(p, x, msg);
            && e.readers == p.readers && |e.log| == |p.log| + 1 && e.log == p.log + [e.log[|p.log|]]
                && Woke(e.log[|p.log|]) == []
            && if WriteBlocks(p, msg) then WriterPids(e.writers) == WriterPids(p.writers) + [x]
                else e.writers == p.writers
  {}

  lemma EnterDoes(k: Kernel, lost: set<Pid>, id: int, msg: seq<Byte>)
    requires Settled(k, lost) && id in k.sync && k.sync[id].APipe? && Sound(k.sync[id].pipe)
    ensures var p := k.sync[id].pipe; var e := Enter(p, k.cur, msg); var qs := QueuesOf(k);
            && ReadyQueue in qs
            && Does(k.procs.Keys, qs, EnterMoves(id, p, k.cur, msg), QueuesDrained(qs, id, e, []))
            && Disjoint(k.procs.Keys, QueuesDrained(qs, id, e, []))
                && ShowsPipeQueues(QueuesDrained(qs, id, e, []), id, e)
  {
    var p, qs := k.sync[id].pipe, QueuesOf(k);
    var e := Enter(p, k.cur, msg);
    EnterIs(p, k.cur, msg);
    ShowsPipe(k, id);
    if WriteBlocks(p, msg) {
      WriterJoins(qs, id, p, e, k.cur);
      SleepDoes(k, lost, WritersOf(id), QueuesDrained(qs, id, e, []));
    } else {
      NobodyJoins(qs, id, p, e);
      FiledDisjoint(k, lost);
    }
  }

  /** The queues after a write. */
  lemma WriteIs(g: Guard, k: Kernel, id: int, msg: seq<Byte>)
    requires Typed(k) && id in k.sync && k.sync[id].APipe? && Sound(k.sync[id].pipe)
    ensures var p := k.sync[id].pipe; var q := DrainReaders(g, Enter(p, k.cur, msg));
            && p.log <= q.log
            && QueuesOf(SyncWritePipe(g, k, id, msg).0) == QueuesDrained(QueuesOf(k), id, q, WokenPids(News(p, q)))
  {
    var p, f := k.sync[id].pipe, k.procs[k.cur];
    var q := DrainReaders(g, Enter(p, k.cur, msg));
    WriteCast(g, k, id, msg);
    var f' := if WriteBlocks(p, msg) then f.(waitPipe := id, buf := msg, st := BLOCKED) else f.(reg0 := |msg|);
    EffectsDrained(k, Put(Store(k, id, APipe(q)), k.cur, f'), id, q, News(p, q));
  }

  lemma WriteEntersDoes(g: Guard, k: Kernel, lost: set<Pid>, id: int, msg: seq<Byte>)
    requires Settled(k, lost) && id in k.sync && k.sync[id].APipe? && Sound(k.sync[id].pipe)
    ensures var p := k.sync[id].pipe; var e := Enter(p, k.cur, msg);
            Does(k.procs.Keys, QueuesOf(k), EnterMoves(id, p, k.cur, msg) + DrainReadersMoves(g, id, e),
                 QueuesOf(SyncWritePipe(g, k, id, msg).0))
  {
    var p, e, qs := k.sync[id].pipe, Enter(k.sync[id].pipe, k.cur, msg), QueuesOf(k);
    var q := DrainReaders(g, e);
    EnterIs(p, k.cur, msg);
    EnterDoes(k, lost, id, msg);
    DrainReadersDoes(k.procs.Keys, g, QueuesDrained(qs, id, e, []), id, e);
    QuietEvent(p, e, q, e.log[|p.log|]);
    WriteIs(g, k, id, msg);
    DrainedTwice(qs, id, e, q, [], WokenPids(News(e, q)));
    assert [] + WokenPids(News(e, q)) == WokenPids(News(e, q));
    DoesBoth(k.procs.Keys, qs, EnterMoves(id, p, k.cur, msg), QueuesDrained(qs, id, e, []),
             DrainReadersMoves(g, id, e), QueuesOf(SyncWritePipe(g, k, id, msg).0));
  }

  lemma WriteDoes(g: Guard, k: Kernel, lost: set<Pid>, id: int, msg: seq<Byte>)
    requires Settled(k, lost) && PipeOrNone(k, id)
    ensures Does(k.procs.Keys, QueuesOf(k), WriteMoves(g, k, id, msg), QueuesOf(SyncWritePipe(g, k, id, msg).0))
  {
    if id in k.sync {
      assert SyncTyped(k, k.sync[id]);
      WriteEntersDoes(g, k, lost, id, msg);
    }
  }

  // ---------------------------------------------------------------- locks, condition variables

  lemma AcquireIs(k: Kernel, id: int)
    requires Typed(k) && id in k.sync && k.sync[id].ALock?
    ensures var l, k' := k.sync[id].lock, SyncLockAcquire(k, id).0;
            && Rewaited(k, k', id, ALock(Locks.Acquire(l, k.cur))) && k'.ready == k.ready
            && Locks.Acquire(l, k.cur).waiters == if l.locked then l.waiters + [k.cur] else l.waiters
  {}

  /** The same waiters are the same queues. */
  lemma SameWaiters(k: Kernel, k': Kernel, id: int, s: Sync)
    requires Rewaited(k, k', id, s) && k'.ready == k.ready && WaitList(s) == WaitList(k.sync[id])
    ensures QueuesOf(k') == QueuesOf(k)
  {
    WaitersAre(k, k', id, s);
  }

  lemma AcquireDoes(k: Kernel, lost: set<Pid>, id: int)
    requires Settled(k, lost) && id in k.sync && k.sync[id].ALock?
    ensures Does(k.procs.Keys, QueuesOf(k), if k.sync[id].lock.locked then Sleep(WaitersOf(id), k.cur)
                 else [], QueuesOf(SyncLockAcquire(k, id).0))
  {
    var l, k' := k.sync[id].lock, SyncLockAcquire(k, id).0;
    AcquireIs(k, id);
    WaitersAre(k, k', id, ALock(Locks.Acquire(l, k.cur)));
    if l.locked {
      SleepDoes(k, lost, WaitersOf(id), QueuesOf(k'));
    } else {
      SameWaiters(k, k', id, ALock(Locks.Acquire(l, k.cur)));
    }
  }

  /** The head waiter of an object is made ready. */
  lemma WakeDoes(k: Kernel, k': Kernel, id: int, s: Sync)
    requires Disjoint(k.procs.Keys, QueuesOf(k)) && Rewaited(k, k', id, s)
    requires var ws := WaitList(k.sync[id]); ws != [] && WaitList(s) == ws[1..] && k'.ready == k.ready + [ws[0]]
    ensures var x := WaitList(k.sync[id])[0];
            && Does(k.procs.Keys, QueuesOf(k), Wake(WaitersOf(id), x), QueuesOf(k'))
                && Disjoint(k.procs.Keys, QueuesOf(k'))
            && forall p :: Unqueued(QueuesOf(k), p) ==> Unqueued(QueuesOf(k'), p)
  {
    var x := WaitList(k.sync[id])[0];
    WokenIs(k, k', id, s, x);
    HeadToReady(k.procs.Keys, QueuesOf(k), WaitersOf(id));
    forall p | Unqueued(QueuesOf(k), p)
      ensures Unqueued(QueuesOf(k'), p)
    {
      StillUnqueued(k.procs.Keys, QueuesOf(k), WaitersOf(id), p);
    }
  }

  lemma PassOnIs(k: Kernel, id: int)
    requires Typed(k) && id in k.sync && k.sync[id].ALock?
    requires k.sync[id].lock.waiters != [] ==> k.sync[id].lock.waiters[0] in k.procs
    ensures var l, k' := k.sync[id].lock, PassOn(k, id);
            && Rewaited(k, k', id, ALock(HandOver(l)))
            && HandOver(l).waiters == (if l.waiters == [] then [] else l.waiters[1..])
            && k'.ready == if l.waiters == [] then k.ready else k.ready + [l.waiters[0]]
  {}

  lemma PassOnDoes(k: Kernel, lost: set<Pid>, id: int)
    requires Settled(k, lost) && id in k.sync && k.sync[id].ALock?
    ensures Does(k.procs.Keys, QueuesOf(k), PassOnMoves(k, id), QueuesOf(PassOn(k, id)))
    ensures Disjoint(k.procs.Keys, QueuesOf(PassOn(k, id))) && Unqueued(QueuesOf(PassOn(k, id)), k.cur)
  {
    var l, k' := k.sync[id].lock, PassOn(k, id);
    assert SyncTyped(k, k.sync[id]);
    CurrentIsUnqueued(k, lost);
    PassOnIs(k, id);
    if l.waiters == [] {
      SameWaiters(k, k', id, ALock(HandOver(l)));
    } else {
      WakeDoes(k, k', id, ALock(HandOver(l)));
    }
  }

  lemma CvarWaitIs(k: Kernel, c: int, l: int)
    requires Typed(k) && c in k.sync && k.sync[c].ACvar? && l in k.sync && k.sync[l].ALock?
             && k.sync[l].lock.owner == Some(k.cur)
    ensures var k1, k' := PassOn(k, l), SyncCvarWait(k, c, l).0;
            && k1.cur == k.cur && c in k1.sync && k1.sync[c].ACvar? && k'.ready == k1.ready
            && Rewaited(k1, k', c, ACvar(Await(k1.sync[c].cvar, k.cur)))
  {}

  lemma CvarWaitDoes(k: Kernel, lost: set<Pid>, c: int, l: int)
    requires Settled(k, lost) && c in k.sync && k.sync[c].ACvar? && l in k.sync && k.sync[l].ALock?
             && k.sync[l].lock.owner == Some(k.cur)
    ensures Does(k.procs.Keys, QueuesOf(k), PassOnMoves(k, l) + Sleep(WaitersOf(c), k.cur),
                 QueuesOf(SyncCvarWait(k, c, l).0))
  {
    var k1, k' := PassOn(k, l), SyncCvarWait(k, c, l).0;
    PassOnDoes(k, lost, l);
    CvarWaitIs(k, c, l);
    WaitersAre(k1, k', c, ACvar(Await(k1.sync[c].cvar, k.cur)));
    AppendDoes(k.procs.Keys, QueuesOf(k1), WaitersOf(c), k.cur);
    DoesBoth(k.procs.Keys, QueuesOf(k), PassOnMoves(k, l), QueuesOf(k1), Sleep(WaitersOf(c), k.cur), QueuesOf(k'));
  }

  lemma WakeFirstIs(k: Kernel, id: int)
    requires Typed(k) && id in k.sync && k.sync[id].ACvar? && k.sync[id].cvar.waiters != []
    ensures var k' := WakeFirst(k, id);
            Rewaited(k, k', id, ACvar(WakeOne(k.sync[id].cvar))) && k'.ready == k.ready + [k.sync[id].cvar.waiters[0]]
  {
    assert SyncTyped(k, k.sync[id]);
  }

  lemma WakeFirstDoes(k: Kernel, id: int)
    requires Typed(k) && Disjoint(k.procs.Keys, QueuesOf(k)) && id in k.sync && k.sync[id].ACvar?
             && k.sync[id].cvar.waiters != []
    ensures Does(k.procs.Keys, QueuesOf(k), Wake(WaitersOf(id), k.sync[id].cvar.waiters[0]), QueuesOf(WakeFirst(k, id)))
    ensures Disjoint(k.procs.Keys, QueuesOf(WakeFirst(k, id)))
  {
    WakeFirstIs(k, id);
    WakeDoes(k, WakeFirst(k, id), id, ACvar(WakeOne(k.sync[id].cvar)));
  }

  lemma {:induction false} WakeAllDoes(k: Kernel, id: int)
    requires Typed(k) && Disjoint(k.procs.Keys, QueuesOf(k)) && id in k.sync && k.sync[id].ACvar?
    ensures Does(k.procs.Keys, QueuesOf(k), WakeAll(WaitersOf(id), k.sync[id].cvar.waiters),
                 QueuesOf(WakeEveryone(k, id)))
    decreases |k.sync[id].cvar.waiters|
  {
    var ws := k.sync[id].cvar.waiters;
    if ws != [] {
      var k1 := WakeFirst(k, id);
      WakeFirstDoes(k, id);
      WakeAllDoes(k1, id);
      DoesBoth(k.procs.Keys, QueuesOf(k), Wake(WaitersOf(id), ws[0]), QueuesOf(k1), WakeAll(WaitersOf(id), ws[1..]),
               QueuesOf(WakeEveryone(k1, id)));
    }
  }

  // ---------------------------------------------------------------- delays and the clock

  lemma DelayDoes(k: Kernel, lost: set<Pid>, ticks: int)
    requires Settled(k, lost) && ticks > 0
    ensures Does(k.procs.Keys, QueuesOf(k), Sleep(DelayQueue, k.cur), QueuesOf(Delay(k, ticks).0))
  {
    DelayedIs(k, Delay(k, ticks).0);
    SleepDoes(k, lost, DelayQueue, QueuesOf(Delay(k, ticks).0));
  }

  /** The delay queue d and the ready queue r. */
  ghost function Clocked(qs: Queues, d: seq<Pid>, r: seq<Pid>): Queues {
    qs[DelayQueue := d][ReadyQueue := r]
  }

  lemma ExpireDoes(who: set<Pid>, qs: Queues, kept: seq<Pid>, x: Pid, rest: seq<Pid>)
    requires Disjoint(who, qs) && DelayQueue in qs && ReadyQueue in qs && qs[DelayQueue] == kept + [x] + rest
    ensures var qs' := Clocked(qs, kept + rest, qs[ReadyQueue] + [x]);
            Does(who, qs, Expire(x), qs') && Disjoint(who, qs')
  {
    var d, qs1 := qs[DelayQueue], qs[DelayQueue := kept + rest];
    NotInRest(kept, x, rest);
    WithoutFirst(kept, x, rest);
    TakenOff(who, qs, DelayQueue, x, kept + rest);
    PutOn(who, qs1, ReadyQueue, x, qs1[ReadyQueue] + [x]);
    assert d[|kept|] == x;
    DoesTwo(who, qs, Cut(DelayQueue, x), Append(ReadyQueue, x));
  }

  lemma NotInRest(kept: seq<Pid>, x: Pid, rest: seq<Pid>)
    requires NoDup(kept + [x] + rest)
    ensures x !in kept && multiset(kept + [x] + rest) == multiset([x]) + multiset(kept + rest)
  {
    Members(kept + [x] + rest, [x], kept + rest);
    assert x in [x];
    assert forall y <- kept :: y in kept + rest;
  }

  /** The moves ms are those of the sweep from ps on, after which `kept` stay before them. */
  ghost predicate Sweeps(who: set<Pid>, qs: Queues, ms: seq<Move>, kept: seq<Pid>, later: seq<Pid>, due: seq<Pid>)
    requires ReadyQueue in qs
  {
    var qs' := Clocked(qs, kept + later, qs[ReadyQueue] + due);
    Does(who, qs, ms, qs') && Disjoint(who, qs')
  }

  lemma SweepsOn(who: set<Pid>, qs: Queues, qs1: Queues, kept: seq<Pid>, x: Pid, rest: seq<Pid>, ms: seq<Move>,
                 later: seq<Pid>, due: seq<Pid>)
    requires Disjoint(who, qs) && DelayQueue in qs && ReadyQueue in qs && qs[DelayQueue] == kept + [x] + rest
    requires qs1 == Clocked(qs, kept + rest, qs[ReadyQueue] + [x]) && Sweeps(who, qs1, ms, kept, later, due)
    ensures Sweeps(who, qs, Expire(x) + ms, kept, later, [x] + due)
  {
    ExpireDoes(who, qs, kept, x, rest);
    Assoc(qs[ReadyQueue], [x], due);
    assert Clocked(qs1, kept + later, qs1[ReadyQueue] + due) == Clocked(qs, kept + later, qs[ReadyQueue] + ([x] + due));
    DoesBoth(who, qs, Expire(x), qs1, ms, Clocked(qs, kept + later, qs[ReadyQueue] + ([x] + due)));
  }

  lemma SweepsPast(who: set<Pid>, qs: Queues, kept: seq<Pid>, x: Pid, ms: seq<Move>, later: seq<Pid>, due: seq<Pid>)
    requires ReadyQueue in qs && Sweeps(who, qs, ms, kept + [x], later, due)
    ensures Sweeps(who, qs, ms, kept, [x] + later, due)
  {
    Assoc(kept, [x], later);
  }

  lemma SweepsNothing(who: set<Pid>, qs: Queues, kept: seq<Pid>)
    requires Disjoint(who, qs) && DelayQueue in qs && ReadyQueue in qs && qs[DelayQueue] == kept
    ensures Sweeps(who, qs, [], kept, [], [])
  {
    assert kept + [] == kept && qs[ReadyQueue] + [] == qs[ReadyQueue];
    assert Clocked(qs, kept, qs[ReadyQueue]) == qs;
  }

  /** The moves, the stayers and the leavers, told from the first of them. */
  lemma SweepStep(procs: map<Pid, Proc>, ps: seq<Pid>)
    requires ps != [] && forall p <- ps :: p in procs
    ensures var x, rest := ps[0], ps[1..];
            if procs[x].ticks == 1 then
              && SweepMoves(procs, ps) == Expire(x) + SweepMoves(procs, rest)
              && Later(procs, ps) == Later(procs, rest) && Due(procs, ps) == [x] + Due(procs, rest)
            else
              && SweepMoves(procs, ps) == SweepMoves(procs, rest)
              && Later(procs, ps) == [x] + Later(procs, rest) && Due(procs, ps) == Due(procs, rest)
  {
    var x, rest := ps[0], ps[1..];
    if procs[x].ticks == 1 {
      assert [] + Later(procs, rest) == Later(procs, rest);
    } else {
      assert [] + SweepMoves(procs, rest) == SweepMoves(procs, rest);
      assert [] + Due(procs, rest) == Due(procs, rest);
    }
  }

  /** The sweep from a place in the queue on: those before it stay. */
  lemma {:induction false} SweepDoes(who: set<Pid>, qs: Queues, procs: map<Pid, Proc>, kept: seq<Pid>, ps: seq<Pid>)
    requires Disjoint(who, qs) && DelayQueue in qs && ReadyQueue in qs && qs[DelayQueue] == kept + ps
             && forall p <- ps :: p in procs
    ensures Sweeps(who, qs, SweepMoves(procs, ps), kept, Later(procs, ps), Due(procs, ps))
    decreases |ps|
  {
    if ps == [] {
      SweepsNothing(who, qs, kept);
    } else {
      var x, rest := ps[0], ps[1..];
      assert kept + ps == kept + [x] + rest;
      SweepStep(procs, ps);
      if procs[x].ticks == 1 {
        var qs1 := Clocked(qs, kept + rest, qs[ReadyQueue] + [x]);
        ExpireDoes(who, qs, kept, x, rest);
        SweepDoes(who, qs1, procs, kept, rest);
        SweepsOn(who, qs, qs1, kept, x, rest, SweepMoves(procs, rest), Later(procs, rest), Due(procs, rest));
      } else {
        SweepDoes(who, qs, procs, kept + [x], rest);
        SweepsPast(who, qs, kept, x, SweepMoves(procs, rest), Later(procs, rest), Due(procs, rest));
      }
    }
  }

  lemma ChargedIs(k: Kernel, lost: set<Pid>)
    requires Settled(k, lost)
    ensures QueuesOf(Charged(k)) == Clocked(QueuesOf(k), Later(k.procs, k.delayed), k.ready + Due(k.procs, k.delayed))
  {
    SweepIsPartition(k, lost);
    SameObjects(k, Charged(k));
  }

  lemma ChargedDoes(k: Kernel, lost: set<Pid>)
    requires Settled(k, lost)
    ensures Does(k.procs.Keys, QueuesOf(k), SweepMoves(k.procs, k.delayed), QueuesOf(Charged(k)))
  {
    FiledDisjoint(k, lost);
    assert [] + k.delayed == k.delayed && [] + Later(k.procs, k.delayed) == Later(k.procs, k.delayed);
    SweepDoes(k.procs.Keys, QueuesOf(k), k.procs, [], k.delayed);
    ChargedIs(k, lost);
  }

  /** The clock with its re-enqueue, or without. */
  lemma ClockIs(requeue: bool, k: Kernel)
    requires Typed(k) && k.procs[k.cur].st == RUNNING
    ensures var k1, k' := Charged(k), Clock(requeue, k).0;
            && k1.cur == k.cur && k'.sync == k1.sync && k'.delayed == k1.delayed
            && k'.ready == if requeue && k.cur != k.idle && Preempts(k1) then k1.ready + [k.cur] else k1.ready
  {}

  lemma PreemptDoes(requeue: bool, k: Kernel, lost: set<Pid>)
    requires Settled(k, lost)
    ensures Does(k.procs.Keys, QueuesOf(Charged(k)), PreemptMoves(requeue, Charged(k)), QueuesOf(Clock(requeue, k).0))
  {
    var k1, k' := Charged(k), Clock(requeue, k).0;
    ClockIs(requeue, k);
    ReadyIs(k1, k');
    if requeue && k.cur != k.idle && Preempts(k1) {
      ChargedSettled(k, lost);
      SleepDoes(k1, lost, ReadyQueue, QueuesOf(k'));
    } else {
      SameQueues(k1, k');
    }
  }

  lemma TickDoes(requeue: bool, k: Kernel, lost: set<Pid>)
    requires Settled(k, lost)
    ensures Does(k.procs.Keys, QueuesOf(k), TickMoves(requeue, k), QueuesOf(Clock(requeue, k).0))
  {
    ChargedDoes(k, lost);
    PreemptDoes(requeue, k, lost);
    DoesBoth(k.procs.Keys, QueuesOf(k), SweepMoves(k.procs, k.delayed), QueuesOf(Charged(k)),
             PreemptMoves(requeue, Charged(k)), QueuesOf(Clock(requeue, k).0));
  }

  // ---------------------------------------------------------------- objects and processes come and go

  /** A pipe more or less, or another object. */
  lemma PipeIsNew(k: Kernel, k': Kernel, id: int)
    requires id !in k.sync && k'.sync == k.sync[id := APipe(EMPTY)] && k'.ready == k.ready && k'.delayed == k.delayed
    ensures ReadersOf(id) !in QueuesOf(k) && WritersOf(id) !in QueuesOf(k)
    ensures QueuesOf(k') == QueuesOf(k)[ReadersOf(id) := []][WritersOf(id) := []]
  {
    assert !IsQueue(k, ReadersOf(id)) && !IsQueue(k, WritersOf(id)) && !IsQueue(k, WaitersOf(id));
    forall q
      ensures IsQueue(k', q) <==> IsQueue(k, q) || q == ReadersOf(id) || q == WritersOf(id)
    {}
  }

  lemma ObjectIsNew(k: Kernel, k': Kernel, id: int, s: Sync)
    requires id !in k.sync && !s.APipe? && WaitList(s) == [] && k'.sync == k.sync[id := s] && k'.ready == k.ready
             && k'.delayed == k.delayed
    ensures WaitersOf(id) !in QueuesOf(k) && QueuesOf(k') == QueuesOf(k)[WaitersOf(id) := []]
  {
    assert !IsQueue(k, ReadersOf(id)) && !IsQueue(k, WritersOf(id)) && !IsQueue(k, WaitersOf(id));
    forall q
      ensures IsQueue(k', q) <==> IsQueue(k, q) || q == WaitersOf(id)
    {}
  }

  lemma InitDoes(k: Kernel, s: Sync)
    requires Typed(k) && (s == APipe(EMPTY) || s == ALock(FREE) || s == ACvar(QUIET))
    ensures Does(k.procs.Keys, QueuesOf(k), InitMoves(k, s), QueuesOf(SyncInit(k, s).0))
  {
    var id, k' := FreeId(k, 0), SyncInit(k, s).0;
    if |k.sync| < MAX_SYNCS && id != ERROR {
      if s.APipe? {
        PipeIsNew(k, k', id);
        DoesTwo(k.procs.Keys, QueuesOf(k), Open(ReadersOf(id)), Open(WritersOf(id)));
      } else {
        ObjectIsNew(k, k', id, s);
        DoesOne(k.procs.Keys, QueuesOf(k), Open(WaitersOf(id)));
      }
    }
  }

  lemma PipeIsGone(k: Kernel, k': Kernel, id: int)
    requires id in k.sync && k.sync[id].APipe? && WaitList(k.sync[id]) == []
    requires k'.sync == k.sync - {id} && k'.ready == k.ready && k'.delayed == k.delayed
    ensures var qs := QueuesOf(k);
            && ReadersOf(id) in qs && qs[ReadersOf(id)] == [] && WritersOf(id) in qs && qs[WritersOf(id)] == []
            && QueuesOf(k') == qs - {ReadersOf(id)} - {WritersOf(id)}
  {
    assert |Sleepers(k.sync[id].pipe)| == 0;
    assert IsQueue(k, ReadersOf(id)) && IsQueue(k, WritersOf(id));
    forall q
      ensures IsQueue(k', q) <==> IsQueue(k, q) && q != ReadersOf(id) && q != WritersOf(id)
    {}
  }

  lemma ObjectIsGone(k: Kernel, k': Kernel, id: int)
    requires id in k.sync && !k.sync[id].APipe? && WaitList(k.sync[id]) == []
    requires k'.sync == k.sync - {id} && k'.ready == k.ready && k'.delayed == k.delayed
    ensures var qs := QueuesOf(k);
            WaitersOf(id) in qs && qs[WaitersOf(id)] == [] && QueuesOf(k') == qs - {WaitersOf(id)}
  {
    assert IsQueue(k, WaitersOf(id));
    forall q
      ensures IsQueue(k', q) <==> IsQueue(k, q) && q != WaitersOf(id)
    {}
  }

  lemma ReclaimDoes(k: Kernel, id: int)
    requires Typed(k) && (id in k.sync ==> WaitList(k.sync[id]) == [])
    ensures Does(k.procs.Keys, QueuesOf(k), ReclaimMoves(k, id), QueuesOf(KernelModel.SyncReclaim(k, id).0))
  {
    var k' := KernelModel.SyncReclaim(k, id).0;
    if id in k.sync {
      if k.sync[id].APipe? {
        PipeIsGone(k, k', id);
        DoesTwo(k.procs.Keys, QueuesOf(k), Close(ReadersOf(id)), Close(WritersOf(id)));
      } else {
        ObjectIsGone(k, k', id);
        DoesOne(k.procs.Keys, QueuesOf(k), Close(WaitersOf(id)));
      }
    }
  }

  /** Who has not been forked is on no queue. */
  lemma UnbornIsUnqueued(k: Kernel, loose: set<Pid>, child: Pid)
    requires Filed(k, loose) && child !in k.procs
    ensures Unqueued(QueuesOf(k), child)
  {
    forall q <- QueuesOf(k)
      ensures child !in QueuesOf(k)[q]
    {
      if q != ReadyQueue && q != DelayQueue && child in QueueOf(k, q) { OnAnObject(k, loose, q, child); }
    }
  }

  /** The child is a process from now on. */
  lemma MoreProcesses(who: set<Pid>, more: set<Pid>, qs: Queues)
    requires Disjoint(who, qs) && who <= more
    ensures Disjoint(more, qs)
  {}

  lemma ForkDoes(k: Kernel, lost: set<Pid>, child: Pid)
    requires Settled(k, lost) && child !in k.procs
    ensures Does(Fork(k, child).procs.Keys, QueuesOf(k), [Append(ReadyQueue, child)], QueuesOf(Fork(k, child)))
  {
    var k' := Fork(k, child);
    FiledDisjoint(k, lost);
    UnbornIsUnqueued(k, lost, child);
    ReadyIs(k, k');
    MoreProcesses(k.procs.Keys, k'.procs.Keys, QueuesOf(k));
    AppendDoes(k'.procs.Keys, QueuesOf(k), ReadyQueue, child);
  }

  // ---------------------------------------------------------------- every trap

  lemma Reframes(k: Kernel, v: int)
    ensures QueuesOf(k.(frame := v)) == QueuesOf(k)
  {
    SameQueues(k, k.(frame := v));
  }

  lemma CvarDoes(g: Guard, requeue: bool, k: Kernel, lost: set<Pid>, t: Trap)
    requires Settled(k, lost) && Possible(k, t) && (t.SysSignal? || t.SysBroadcast?)
    ensures Does(k.procs.Keys, QueuesOf(k), HandleMoves(g, requeue, k, t), QueuesOf(Handle(g, requeue, k, t).0))
  {
    FiledDisjoint(k, lost);
    match t
    case SysSignal(id) =>
      if id in k.sync && k.sync[id].cvar.waiters != [] { WakeFirstDoes(k, id); }
      Reframes(SyncCvarSignal(k, id).0, SyncCvarSignal(k, id).1);
    case SysBroadcast(id, noise) =>
      if id in k.sync { WakeAllDoes(k, id); }
      Reframes(SyncCvarBroadcast(k, id, noise).0, SyncCvarBroadcast(k, id, noise).1);
  }

  lemma AwaitDoes(g: Guard, requeue: bool, k: Kernel, lost: set<Pid>, c: int, l: int)
    requires Settled(k, lost) && Possible(k, SysCvarWait(c, l))
    ensures var t := SysCvarWait(c, l);
            Does(k.procs.Keys, QueuesOf(k), HandleMoves(g, requeue, k, t), QueuesOf(Handle(g, requeue, k, t).0))
  {
    if c in k.sync && l in k.sync && k.sync[l].lock.owner == Some(k.cur) { CvarWaitDoes(k, lost, c, l); }
    Reframes(SyncCvarWait(k, c, l).0, ERROR);
  }

  lemma LockDoes(g: Guard, requeue: bool, k: Kernel, lost: set<Pid>, t: Trap)
    requires Settled(k, lost) && Possible(k, t) && (t.SysLockAcquire? || t.SysLockRelease?)
    ensures Does(k.procs.Keys, QueuesOf(k), HandleMoves(g, requeue, k, t), QueuesOf(Handle(g, requeue, k, t).0))
  {
    match t
    case SysLockAcquire(id) =>
      if id in k.sync { AcquireDoes(k, lost, id); }
      Reframes(SyncLockAcquire(k, id).0, SyncLockAcquire(k, id).1);
    case SysLockRelease(id) =>
      if id in k.sync && k.sync[id].lock.owner == Some(k.cur) { PassOnDoes(k, lost, id); }
      Reframes(SyncLockRelease(k, id).0, SyncLockRelease(k, id).1);
  }

  lemma HandleDoes(g: Guard, requeue: bool, k: Kernel, lost: set<Pid>, t: Trap)
    requires Settled(k, lost) && Possible(k, t)
    ensures Does(Handle(g, requeue, k, t).0.procs.Keys, QueuesOf(k), HandleMoves(g, requeue, k, t),
                 QueuesOf(Handle(g, requeue, k, t).0))
  {
    match t
    case Tick => TickDoes(requeue, k, lost);
    case SysDelay(ticks) =>
      if ticks > 0 {
        DelayDoes(k, lost, ticks);
      } else {
        Reframes(k, if ticks < 0 then ERROR else 0);
      }
    case SysPipeRead(id, kbuf) => ReadDoes(g, k, lost, id, kbuf);
    case SysPipeWrite(id, msg) => WriteDoes(g, k, lost, id, msg);
    case SysInit(s) => InitDoes(k, s); Reframes(SyncInit(k, s).0, SyncInit(k, s).1);
    case SysReclaim(id) => ReclaimDoes(k, id);
        Reframes(KernelModel.SyncReclaim(k, id).0, KernelModel.SyncReclaim(k, id).1);
    case SysFork(child) => ForkDoes(k, lost, child);
    case SysCvarWait(c, l) => AwaitDoes(g, requeue, k, lost, c, l);
    case SysSignal(_) => CvarDoes(g, requeue, k, lost, t);
    case SysBroadcast(_, _) => CvarDoes(g, requeue, k, lost, t);
    case _ => LockDoes(g, requeue, k, lost, t);
  }

  lemma ScheduleDoes(k: Kernel)
    requires Typed(k)
    ensures Does(k.procs.Keys, QueuesOf(k), ScheduleMoves(k), QueuesOf(Schedule(k)))
  {
    ReadyIs(k, Schedule(k));
    if k.ready != [] { DoesOne(k.procs.Keys, QueuesOf(k), PopHead(ReadyQueue)); } else { SameQueues(k, Schedule(k)); }
  }

  lemma StepIs(g: Guard, requeue: bool, k: Kernel, t: Trap)
    requires Typed(k) && Possible(k, t)
    ensures var (k1, switch) := Handle(g, requeue, k, t);
            && Step(g, requeue, k, t) == (if switch then Schedule(k1) else k1)
            && StepMoves(g, requeue, k, t) == HandleMoves(g, requeue, k, t) + if switch then ScheduleMoves(k1) else []
  {}

  /** Every list operation of a trap, and of the schedule it may end in, is legal when it comes, and
      they leave the queues as the trap does. */
  lemma StepDoes(g: Guard, requeue: bool, k: Kernel, lost: set<Pid>, t: Trap)
    requires Settled(k, lost) && Possible(k, t)
    ensures Does(Step(g, requeue, k, t).procs.Keys, QueuesOf(k), StepMoves(g, requeue, k, t),
                 QueuesOf(Step(g, requeue, k, t)))
  {
    HandleDoes(g, requeue, k, lost, t);
    StepIs(g, requeue, k, t);
    var (k1, switch) := Handle(g, requeue, k, t);
    var ms := HandleMoves(g, requeue, k, t);
    if switch {
      ScheduleDoes(k1);
      DoesBoth(k1.procs.Keys, QueuesOf(k), ms, QueuesOf(k1), ScheduleMoves(k1), QueuesOf(Schedule(k1)));
    } else {
      assert ms + [] == ms;
    }
  }
}
