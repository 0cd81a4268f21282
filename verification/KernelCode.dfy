/** The kernel's own form: PCBs, queues and sync objects updated in place.  `model` is the value of
    the whole kernel; Valid() ties it to the fields. */
module KernelCode {
  import opened Hardware
  import P = Pipes
  import opened PipeWakes
  import L = Locks
  import M = KernelModel
  import opened KernelInvariant
  import opened DelaySweep
  import opened KernelSteps
  import opened KernelRuns
  import opened KernelDrains
  import opened KernelCalls

  class Pcb {
    const pid: Pid
    var state: M.PState
    var runTime: nat
    var timeSlice: nat
    var delayTicks: int
    var reg0: int
    var waitingPipe: int
    var waitingLock: int
    var waitingCvar: int
    var pipeBuffer: seq<Byte>
    var pipeLen: int
    var writeLoc: int

    function Val(): M.Proc
      reads this
    {
      M.Proc(state, runTime, timeSlice, delayTicks, reg0, waitingPipe, waitingLock, waitingCvar, pipeBuffer)
    }

    /** create_pcb (pcb.c:34-90), for a process whose user context carries `reg0`. */
    constructor (pid: Pid, reg0: int)
      ensures this.pid == pid && Val() == M.Proc(M.DEFAULT, 0, M.DEFAULT_TIMESLICE, 0, reg0, -1, -1, -1, [])
    {
      this.pid := pid;
      state := M.DEFAULT;
      timeSlice := M.DEFAULT_TIMESLICE;
      runTime, delayTicks, this.reg0 := 0, 0, reg0;
      waitingLock, waitingCvar, waitingPipe := -1, -1, -1;
      pipeBuffer, pipeLen, writeLoc := [], 0, 0;
    }
  }

  /** Index arithmetic of the ring (sync.c:150, 180, 224, 263). */
  function Wrap(x: nat): (r: nat)
    requires x < 2 * PIPE_BUFFER_LEN
    ensures r < PIPE_BUFFER_LEN && r == x % PIPE_BUFFER_LEN
  {
    WrapIsMod(x);
    if x < PIPE_BUFFER_LEN then x else x - PIPE_BUFFER_LEN
  }

  lemma WrapIsMod(x: nat)
    requires x < 2 * PIPE_BUFFER_LEN
    ensures x % PIPE_BUFFER_LEN == if x < PIPE_BUFFER_LEN then x else x - PIPE_BUFFER_LEN
  {
    if x >= PIPE_BUFFER_LEN {
      assert x == 1 * PIPE_BUFFER_LEN + (x - PIPE_BUFFER_LEN);
    }
  }

  lemma WrapNext(r: nat, i: nat)
    requires r < PIPE_BUFFER_LEN && i < PIPE_BUFFER_LEN
    ensures (Wrap(r + i) + 1) % PIPE_BUFFER_LEN == Wrap(r + i + 1)
  {
    WrapIsMod(Wrap(r + i) + 1);
  }

  class PipeObj {
    const buffer: array<Byte>
    var readPos: nat
    var writePos: nat
    var bytesInBuffer: nat
    var readers: seq<Pcb>
    var writers: seq<Pcb>
    var openForRead: bool
    var openForWrite: bool

    /** The ring holds `ring`, from readPos on, with wrap-around. */
    ghost predicate Holds(ring: seq<Byte>)
      reads this, buffer
    {
      && buffer.Length == PIPE_BUFFER_LEN
      && readPos < PIPE_BUFFER_LEN && bytesInBuffer <= PIPE_BUFFER_LEN
      && |ring| == bytesInBuffer && writePos == Wrap(readPos + bytesInBuffer)
      && forall i :: 0 <= i < bytesInBuffer ==> buffer[Wrap(readPos + i)] == ring[i]
    }

    /** The queues are no part of the ring. */
    twostate lemma RingStays(new ring: seq<Byte>)
      requires old(Holds(ring)) && unchanged(this`readPos, this`writePos, this`bytesInBuffer) && unchanged(buffer)
      ensures Holds(ring)
    {}

    /** SyncInitPipe's fields (sync.c:81-87). */
    constructor ()
      ensures Holds([]) && readers == [] && writers == [] && openForRead && openForWrite
      ensures fresh(buffer)
    {
      buffer := new Byte[PIPE_BUFFER_LEN];
      readPos, writePos, bytesInBuffer := 0, 0, 0;
      readers, writers := [], [];
      openForRead, openForWrite := true, true;
    }

    /** The copy loops out of the ring (sync.c:148-155 and, with the count kept inside the loop,
        222-226). */
    method CopyTo(n: nat, ghost ring: seq<Byte>) returns (dest: seq<Byte>)
      requires Holds(ring) && n <= |ring|
      modifies this`readPos, this`bytesInBuffer
      ensures Holds(ring[n..]) && dest == ring[..n]
    {
      dest := [];
      var i := 0;
      ghost var r := readPos;
      while i < n
        invariant i <= n && readPos == Wrap(r + i) && dest == ring[..i]
        invariant bytesInBuffer == |ring| && writePos == old(writePos)
      {
        assert buffer[Wrap(r + i)] == ring[i];
        dest := dest + [buffer[readPos]];
        WrapNext(r, i);
        readPos := (readPos + 1) % PIPE_BUFFER_LEN;
        i := i + 1;
      }
      bytesInBuffer := bytesInBuffer - n;
      Skipped(r, n, ring);
    }

    /** The ring from a later position on. */
    lemma Skipped(r: nat, n: nat, ring: seq<Byte>)
      requires buffer.Length == PIPE_BUFFER_LEN && r < PIPE_BUFFER_LEN && n <= |ring| <= PIPE_BUFFER_LEN
      requires readPos == Wrap(r + n) && bytesInBuffer == |ring| - n && writePos == Wrap(r + |ring|)
      requires forall i :: 0 <= i < |ring| ==> buffer[Wrap(r + i)] == ring[i]
      ensures Holds(ring[n..])
    {
      forall j | 0 <= j < bytesInBuffer
        ensures buffer[Wrap(readPos + j)] == ring[n..][j]
      {
        assert Wrap(readPos + j) == Wrap(r + (n + j));
        assert buffer[Wrap(r + (n + j))] == ring[n + j];
      }
      assert Wrap(readPos + bytesInBuffer) == Wrap(r + |ring|);
    }

    /** The copy loops into the ring (sync.c:178-184, 261-268): from src[loc] on, as far as it fits. */
    method CopyIn(src: seq<Byte>, loc: nat, ghost ring: seq<Byte>) returns (end: nat)
      requires Holds(ring) && loc <= |src|
      modifies this`writePos, this`bytesInBuffer, buffer
      ensures end == loc + Min(PIPE_BUFFER_LEN - |ring|, |src| - loc) && Holds(ring + src[loc..end])
    {
      end := loc;
      ghost var held := ring;
      while bytesInBuffer < PIPE_BUFFER_LEN && end < |src|
        invariant loc <= end <= |src| && Holds(held) && held == ring + src[loc..end]
      {
        Append(src[end], held);
        OneMore(ring, src, loc, end);
        held := held + [src[end]];
        end := end + 1;
      }
    }

    lemma OneMore(ring: seq<Byte>, src: seq<Byte>, loc: nat, end: nat)
      requires loc <= end < |src|
      ensures ring + src[loc..end] + [src[end]] == ring + src[loc..end + 1]
    {}

    /** One byte enters the ring (sync.c:179-181, 262-264). */
    method Append(b: Byte, ghost ring: seq<Byte>)
      requires Holds(ring) && |ring| < PIPE_BUFFER_LEN
      modifies this`writePos, this`bytesInBuffer, buffer
      ensures Holds(ring + [b])
    {
      buffer[writePos] := b;
      WrapIsMod(writePos + 1);
      writePos := (writePos + 1) % PIPE_BUFFER_LEN;
      bytesInBuffer := bytesInBuffer + 1;
    }
  }

  class LockObj {
    var locked: bool
    var owner: Pcb?
    var waiters: seq<Pcb>

    /** SyncInitLock's fields (sync.c:302-304). */
    constructor ()
      ensures !locked && owner == null && waiters == []
    {
      locked, owner, waiters := false, null, [];
    }
  }

  class CvarObj {
    var waiters: seq<Pcb>

    constructor ()
      ensures waiters == []
    {
      waiters := [];
    }
  }

  datatype Obj = PipeRef(pipe: PipeObj) | LockRef(lock: LockObj) | CvarRef(cvar: CvarObj) {
    function Ref(): object {
      match this
      case PipeRef(p) => p
      case LockRef(l) => l
      case CvarRef(c) => c
    }
  }

  class Kernel {
    var current: Pcb
    const idle: Pcb
    var readyQueue: seq<Pcb>
    var delayQueue: seq<Pcb>
    var table: map<int, Obj>
    var frame: int
    ghost var pcbs: map<Pid, Pcb>
    ghost var model: M.Kernel

    // -------------------------------------------------------------- the model and the fields

    ghost function Repr(): set<object>
      reads this
    {
      pcbs.Values + (set id | id in table :: table[id].Ref())
        + (set id | id in table && table[id].PipeRef? :: table[id].pipe.buffer as object)
    }

    ghost predicate Known(p: Pcb)
      reads this
    {
      p.pid in pcbs && pcbs[p.pid] == p
    }

    ghost predicate Queue(q: seq<Pcb>, s: seq<Pid>)
      reads this
    {
      |q| == |s| && forall i :: 0 <= i < |q| ==> Known(q[i]) && q[i].pid == s[i]
    }

    ghost predicate ProcsLinked()
      reads this, pcbs.Values
    {
      && pcbs.Keys == model.procs.Keys
      && forall pid <- pcbs :: pcbs[pid].pid == pid && pcbs[pid].Val() == model.procs[pid]
    }

    ghost predicate QueuesLinked()
      reads this
    {
      && Known(current) && current.pid == model.cur
      && Known(idle) && idle.pid == model.idle
      && Queue(readyQueue, model.ready) && Queue(delayQueue, model.delayed)
      && frame == model.frame
    }

    /** The sleeping readers and writers of a pipe: each sleeps at this pipe, no two are the same. */
    ghost predicate PipeQueues(p: PipeObj, m: P.Pipe, id: int)
      reads this, p, pcbs.Values
    {
      && |p.readers| == |m.readers| && |p.writers| == |m.writers|
      && (forall i :: 0 <= i < |p.readers| ==> var r := p.readers[i];
            && Known(r) && r.pid == m.readers[i].pid && r.waitingPipe == id
            && r.pipeLen == m.readers[i].want == |r.pipeBuffer|)
      && (forall i :: 0 <= i < |p.writers| ==> var w := p.writers[i];
            && Known(w) && w.pid == m.writers[i].pid && w.waitingPipe == id
            && w.pipeBuffer == m.writers[i].msg && w.pipeLen == |w.pipeBuffer|
                && w.writeLoc == m.writers[i].loc <= w.pipeLen)
      && NoDup(Sleepers(m))
    }

    ghost predicate ObjLinked(o: Obj, s: M.Sync, id: int)
      reads this, pcbs.Values, o.Ref(), if o.PipeRef? then {o.pipe.buffer} else {}
    {
      match o
      case PipeRef(p) =>
        s.APipe? && PipeQueues(p, s.pipe, id) && p.Holds(s.pipe.ring) && p.openForRead && p.openForWrite
      case LockRef(l) =>
        && s.ALock? && Queue(l.waiters, s.lock.waiters) && l.locked == s.lock.locked
        && (l.owner == null <==> s.lock.owner == None)
        && (l.owner != null ==> Known(l.owner) && s.lock.owner == Some(l.owner.pid))
      case CvarRef(c) => s.ACvar? && Queue(c.waiters, s.cvar.waiters)
    }

    ghost predicate TableLinked()
      reads this, Repr()
    {
      && table.Keys == model.sync.Keys
      && forall id <- table :: 0 <= id && ObjLinked(table[id], model.sync[id], id)
    }

    /** Different ids, different objects. */
    ghost predicate Apart()
      reads this
    {
      && (forall i <- table, j <- table :: table[i].Ref() == table[j].Ref() ==> i == j)
      && (forall i <- table, j <- table ::
          table[i].PipeRef? && table[j].PipeRef? && table[i].pipe.buffer == table[j].pipe.buffer ==> i == j)
    }

    ghost predicate Valid()
      reads this, Repr()
    {
      ProcsLinked() && QueuesLinked() && TableLinked() && Apart()
    }

    /** The fields the pipe queues depend on are as they were, for every process but x. */
    twostate predicate SleepersSame(x: set<Pcb>)
      reads this, pcbs.Values
    {
      && pcbs == old(pcbs)
      && forall pid <- pcbs :: (var p := pcbs[pid];
           p in x || (p.waitingPipe == old(p.waitingPipe) && p.pipeLen == old(p.pipeLen)
                      && p.pipeBuffer == old(p.pipeBuffer) && p.writeLoc == old(p.writeLoc)))
    }

    twostate predicate ObjectsSame()
      reads this, Repr()
    {
      && table == old(table)
      && (forall id <- table :: table[id].PipeRef? ==> unchanged(table[id].pipe) && unchanged(table[id].pipe.buffer))
      && (forall id <- table :: table[id].LockRef? ==> unchanged(table[id].lock))
      && (forall id <- table :: table[id].CvarRef? ==> unchanged(table[id].cvar))
    }

    twostate lemma ObjStays(id: int)
      requires old(TableLinked()) && SleepersSame({}) && ObjectsSame() && model.sync == old(model.sync) && id in table
      ensures ObjLinked(table[id], model.sync[id], id)
    {
      assert old(ObjLinked(table[id], model.sync[id], id));
    }

    twostate lemma TableStays()
      requires old(TableLinked()) && SleepersSame({}) && ObjectsSame() && model.sync == old(model.sync)
      ensures TableLinked()
    {
      forall id <- table
        ensures 0 <= id && ObjLinked(table[id], model.sync[id], id)
      {
        ObjStays(id);
      }
    }

    twostate lemma ProcChanged(p: Pcb)
      requires old(ProcsLinked()) && pcbs == old(pcbs) && Known(p)
      requires forall pid <- pcbs :: pcbs[pid] == p || unchanged(pcbs[pid])
      requires model.procs == old(model.procs)[p.pid := p.Val()]
      ensures ProcsLinked()
    {}

    /** After a change to the tag and registers of p alone, only the queues are left to check. */
    twostate lemma OnlyProc(p: Pcb)
      requires old(Valid()) && pcbs == old(pcbs) && table == old(table) && Known(p)
      requires SleepersSame({}) && ObjectsSame() && model.sync == old(model.sync)
      requires forall pid <- pcbs :: pcbs[pid] == p || unchanged(pcbs[pid])
      requires model.procs == old(model.procs)[p.pid := p.Val()]
      requires QueuesLinked()
      ensures Valid()
    {
      ProcChanged(p);
      TableStays();
    }

    twostate predicate OtherObjectsSame(but: int)
      reads this, Repr()
    {
      && table == old(table)
      && (forall id <- table :: id != but && table[id].PipeRef? ==>
          unchanged(table[id].pipe) && unchanged(table[id].pipe.buffer))
      && (forall id <- table :: id != but && table[id].LockRef? ==> unchanged(table[id].lock))
      && (forall id <- table :: id != but && table[id].CvarRef? ==> unchanged(table[id].cvar))
    }

    twostate lemma OtherObjStays(id: int, new but: int)
      requires old(TableLinked()) && SleepersSame({}) && OtherObjectsSame(but) && id in table && id != but
      requires id in model.sync && id in old(model.sync) && model.sync[id] == old(model.sync[id])
      ensures ObjLinked(table[id], model.sync[id], id)
    {
      assert old(ObjLinked(table[id], model.sync[id], id));
    }

    /** After a change to one object only its own link is left to check. */
    twostate lemma TableChanged(but: int)
      requires old(TableLinked()) && SleepersSame({}) && OtherObjectsSame(but)
      requires but in table && but in model.sync && ObjLinked(table[but], model.sync[but], but)
      requires model.sync == old(model.sync)[but := model.sync[but]]
      ensures TableLinked()
    {
      forall id | id in table && id != but
        ensures ObjLinked(table[id], model.sync[id], id)
      {
        OtherObjStays(id, but);
      }
    }

    /** The same when nothing but that object changed. */
    twostate lemma OnlyObj(id: int)
      requires old(Valid()) && pcbs == old(pcbs) && OtherObjectsSame(id)
      requires id in table && id in model.sync && model == old(model).(sync := old(model.sync)[id := model.sync[id]])
      requires ObjLinked(table[id], model.sync[id], id)
      requires forall pid <- pcbs :: unchanged(pcbs[pid])
      requires current == old(current) && readyQueue == old(readyQueue) && delayQueue == old(delayQueue)
               && frame == old(frame)
      ensures Valid()
    {
      TableChanged(id);
    }

    lemma QueueAppend(q: seq<Pcb>, s: seq<Pid>, p: Pcb)
      requires Queue(q, s) && Known(p)
      ensures Queue(q + [p], s + [p.pid])
    {}

    lemma QueueTail(q: seq<Pcb>, s: seq<Pid>)
      requires Queue(q, s) && q != []
      ensures s != [] && Known(q[0]) && q[0].pid == s[0] && Queue(q[1..], s[1..])
    {}

    /** What KernelStart leaves: idle running, init ready, no objects (kernel.c:18-101, 117-120). */
    constructor (idlePid: Pid, initPid: Pid, frame: int)
      requires idlePid != initPid
      ensures Valid() && model == Boot(idlePid, initPid, frame) && fresh(Repr())
    {
      var idlePcb := new Pcb(idlePid, frame);
      idlePcb.timeSlice := 1;
      var initPcb := new Pcb(initPid, frame);
      initPcb.state := M.READY;
      idlePcb.state := M.RUNNING;
      current, idle := idlePcb, idlePcb;
      readyQueue, delayQueue, table := [initPcb], [], map[];
      this.frame := frame;
      pcbs := map[idlePid := idlePcb, initPid := initPcb];
      model := Boot(idlePid, initPid, frame);
      new;
      assert idlePcb.Val() == model.procs[idlePid];
      assert initPcb.Val() == model.procs[initPid];
      Started(idlePcb, initPcb, frame);
    }

    lemma Started(idlePcb: Pcb, initPcb: Pcb, frame: int)
      requires idlePcb.pid != initPcb.pid && model == Boot(idlePcb.pid, initPcb.pid, frame) && this.frame == frame
      requires pcbs == map[idlePcb.pid := idlePcb, initPcb.pid := initPcb] && table == map[]
      requires current == idle == idlePcb && readyQueue == [initPcb] && delayQueue == []
      requires idlePcb.Val() == model.procs[idlePcb.pid] && initPcb.Val() == model.procs[initPcb.pid]
      ensures Valid() && Repr() == {idlePcb, initPcb}
    {
      assert pcbs.Values == {idlePcb, initPcb};
    }

    // -------------------------------------------------------------- pcb.c

    /** add_to_ready_queue (pcb.c:95-110). */
    method AddToReadyQueue(process: Pcb)
      requires Valid() && Known(process)
      modifies this`readyQueue, this`model, process`state
      ensures Valid() && model == M.AddToReady(old(model), process.pid)
    {
      if process.state != M.DEFAULT {
        return;
      }
      QueueAppend(readyQueue, model.ready, process);
      process.state := M.READY;
      readyQueue := readyQueue + [process];
      model := M.AddToReady(model, process.pid);
      OnlyProc(process);
    }

    /** add_to_delay_queue (pcb.c:127-143). */
    method AddToDelayQueue(process: Pcb, ticks: int)
      requires Valid() && Known(process)
      modifies this`delayQueue, this`model, process`state, process`delayTicks
      ensures Valid() && model == M.AddToDelay(old(model), process.pid, ticks)
    {
      if process.state != M.DEFAULT {
        return;
      }
      DelayedInThree(model, process.pid, ticks);
      SetState(process, M.DELAYED);
      SetTicks(process, ticks);
      JoinDelayQueue(process);
    }

    lemma DelayedInThree(m: M.Kernel, x: Pid, ticks: int)
      requires x in m.procs && m.procs[x].st == M.DEFAULT
      ensures var k := M.Put(m, x, m.procs[x].(st := M.DELAYED));
              var k := M.Put(k, x, k.procs[x].(ticks := ticks));
              k.(delayed := k.delayed + [x]) == M.AddToDelay(m, x, ticks)
    {}

    method JoinDelayQueue(process: Pcb)
      requires Valid() && Known(process)
      modifies this`delayQueue, this`model
      ensures Valid() && model == old(model).(delayed := old(model).delayed + [process.pid])
    {
      QueueAppend(delayQueue, model.delayed, process);
      SetDelayQueue(delayQueue + [process], model.delayed + [process.pid]);
    }

    method SetDelayQueue(q: seq<Pcb>, ghost s: seq<Pid>)
      requires Valid() && Queue(q, s)
      modifies this`delayQueue, this`model
      ensures Valid() && model == old(model).(delayed := s)
    {
      delayQueue := q;
      model := model.(delayed := s);
      TableStays();
    }

    method SetState(p: Pcb, st: M.PState)
      requires Valid() && Known(p)
      modifies this`model, p`state
      ensures Valid() && model == M.Put(old(model), p.pid, old(model).procs[p.pid].(st := st))
    {
      p.state := st;
      model := M.Put(model, p.pid, model.procs[p.pid].(st := st));
      OnlyProc(p);
    }

    method SetTicks(p: Pcb, ticks: int)
      requires Valid() && Known(p)
      modifies this`model, p`delayTicks
      ensures Valid() && p.delayTicks == ticks
              && model == M.Put(old(model), p.pid, old(model).procs[p.pid].(ticks := ticks))
    {
      p.delayTicks := ticks;
      model := M.Put(model, p.pid, model.procs[p.pid].(ticks := ticks));
      OnlyProc(p);
    }

    lemma {:induction false} QueueWithout(q: seq<Pcb>, s: seq<Pid>, p: Pcb)
      requires Queue(q, s) && Known(p)
      ensures Queue(M.Without(q, p), M.Without(s, p.pid))
    {
      if q != [] {
        assert q[0] == p <==> s[0] == p.pid;
        QueueWithout(q[1..], s[1..], p);
      }
    }

    /** remove_from_delay_queue (pcb.c:145-157). */
    method RemoveFromDelayQueue(process: Pcb)
      requires Valid() && Known(process)
      modifies this`delayQueue, this`model, process`state
      ensures Valid() && model == M.RemoveFromDelay(old(model), process.pid)
    {
      if process.state != M.DELAYED {
        return;
      }
      SetState(process, M.DEFAULT);
      QueueWithout(delayQueue, model.delayed, process);
      SetDelayQueue(M.Without(delayQueue, process), M.Without(model.delayed, process.pid));
    }

    method TakeNext() returns (next: Pcb)
      requires Valid()
      modifies this`readyQueue, this`model
      ensures Valid() && model == M.PopNext(old(model)) && Known(next) && next.pid == M.Next(old(model))
    {
      if |readyQueue| == 0 {
        next := idle;
      } else {
        next := readyQueue[0];
        readyQueue := readyQueue[1..];
      }
      model := M.PopNext(model);
      TableStays();
    }

    method SaveFrame()
      requires Valid()
      modifies this`model, current`reg0
      ensures Valid() && model == M.SaveFrame(old(model))
    {
      current.reg0 := frame;
      model := M.SaveFrame(model);
      OnlyProc(current);
    }

    method SetCurrent(next: Pcb)
      requires Valid() && Known(next)
      modifies this`current, this`model
      ensures Valid() && model == old(model).(cur := next.pid) && current == next
    {
      current := next;
      model := model.(cur := next.pid);
      TableStays();
    }

    method MarkRunning(next: Pcb)
      requires Valid() && Known(next)
      modifies this`model, next`runTime, next`state
      ensures Valid()
      ensures model == M.Put(old(model), next.pid, old(model).procs[next.pid].(runTime := 0, st := M.RUNNING))
    {
      next.runTime := 0;
      next.state := M.RUNNING;
      model := M.Put(model, next.pid, model.procs[next.pid].(runTime := 0, st := M.RUNNING));
      OnlyProc(next);
    }

    /** KCSwitch, after schedule has reset the run time (syscalls.c:434, context_switch.c:26-28). */
    method KCSwitch(next: Pcb)
      requires Valid() && Known(next)
      modifies this`current, this`model, next`runTime, next`state
      ensures Valid() && model == M.Dispatch(old(model), next.pid)
    {
      SetCurrent(next);
      MarkRunning(next);
    }

    method LoadFrame()
      requires Valid()
      modifies this`frame, this`model
      ensures Valid() && model == M.LoadFrame(old(model))
    {
      frame := current.reg0;
      model := M.LoadFrame(model);
      TableStays();
    }

    /** schedule (syscalls.c:424-447). */
    method Schedule()
      requires Valid() && M.Typed(model)
      modifies this`current, this`readyQueue, this`frame, this`model, pcbs.Values
      ensures Valid() && model == M.Schedule(old(model))
    {
      var next := TakeNext();
      SaveFrame();
      KCSwitch(next);
      LoadFrame();
    }

    // -------------------------------------------------------------- the clock

    /** One node of the delay sweep (pcb.c:270-275). */
    method TickDown(p: Pcb)
      requires Valid() && Known(p)
      modifies this`model, p`delayTicks
      ensures Valid()
              && model == M.Put(old(model), p.pid, old(model).procs[p.pid].(ticks := old(model).procs[p.pid].ticks - 1))
    {
      SetTicks(p, p.delayTicks - 1);
    }

    method TickNode(p: Pcb)
      requires Valid() && M.Typed(model) && Known(p)
      modifies this`readyQueue, this`delayQueue, this`model, p`delayTicks, p`state
      ensures Valid() && model == M.TickOne(old(model), p.pid)
    {
      TickDown(p);
      if p.delayTicks == 0 {
        RemoveFromDelayQueue(p);
        AddToReadyQueue(p);
      }
    }

    /** update_delayed_processes (pcb.c:255-279): a walk over the list it takes nodes off. */
    method UpdateDelayedProcesses(ghost lost: set<Pid>)
      requires Valid() && Filed(model, lost)
      modifies this`readyQueue, this`delayQueue, this`model, pcbs.Values
      ensures Valid() && model == M.UpdateDelayed(old(model))
    {
      if |delayQueue| == 0 {
        return;
      }
      var curr: nat := 0;
      ghost var todo := model.delayed;
      while curr != |delayQueue|
        invariant Valid() && Filed(model, lost)
        invariant curr <= |model.delayed| && todo == model.delayed[curr..]
        invariant M.TickAll(model, todo) == M.UpdateDelayed(old(model))
        decreases |todo|
      {
        assert Queue(delayQueue, model.delayed);
        SplitHead(model.delayed, curr);
        curr := SweepNode(curr, lost);
        todo := todo[1..];
      }
    }

    lemma SplitHead(s: seq<Pid>, i: nat)
      requires i < |s|
      ensures s[i..] != [] && s[i..][0] == s[i] && s[i..][1..] == s[i + 1..]
    {}

    method SweepNode(curr: nat, ghost lost: set<Pid>) returns (next: nat)
      requires Valid() && Filed(model, lost) && curr < |model.delayed|
      modifies this`readyQueue, this`delayQueue, this`model, pcbs.Values
      ensures Valid() && Filed(model, lost) && next <= |model.delayed|
      ensures model == M.TickOne(old(model), old(model).delayed[curr])
      ensures model.delayed[next..] == old(model).delayed[curr + 1..]
    {
      var currPcb := delayQueue[curr];
      ghost var m, d := model, model.delayed;
      assert d[curr] in d && d == d[..curr] + [d[curr]] + d[curr + 1..];
      var last := currPcb.delayTicks == 1;
      TickNode(currPcb);
      if last {
        next := curr;
        TickDue(m, lost, d[..curr], currPcb.pid, d[curr + 1..]);
        assert (d[..curr] + d[curr + 1..])[curr..] == d[curr + 1..];
      } else {
        next := curr + 1;
        TickLater(m, lost, currPcb.pid);
      }
    }

    // -------------------------------------------------------------- traps.c

    method ChargeCurrent()
      requires Valid() && M.Typed(model)
      modifies this`model, current`runTime
      ensures Valid() && model == M.ChargeCurrent(old(model))
    {
      current.runTime := current.runTime + 1;
      model := M.ChargeCurrent(model);
      OnlyProc(current);
    }

    method SetAside()
      requires Valid()
      modifies this`model, current`state
      ensures Valid() && model == M.SetAside(old(model))
    {
      SetState(current, M.DEFAULT);
    }

    /** The preempted process is set aside, or put back (traps.c:56). */
    method Preempt(requeue: bool)
      requires Valid() && M.Typed(model) && M.Preempts(model)
      modifies this`readyQueue, this`model, current`state
      ensures Valid() && model == M.Preempt(requeue, old(model)).0
    {
      SetAside();
      if requeue && current != idle {
        AddToReadyQueue(current);
      }
    }

    /** The clock trap up to its comparison (traps.c:44-48). */
    method Charge(ghost lost: set<Pid>)
      requires Valid() && Filed(model, lost)
      modifies this`readyQueue, this`delayQueue, this`model, pcbs.Values
      ensures Valid() && model == M.Charged(old(model))
    {
      UpdateDelayedProcesses(lost);
      ChargeCurrent();
    }

    /** clock_handler (traps.c:40-70); `requeue` adds the return of the preempted process to the
        ready queue that is missing there. */
    method ClockHandler(requeue: bool, ghost g: P.Guard, ghost lost: set<Pid>)
      requires Valid() && Filed(model, lost)
      modifies this`current, this`readyQueue, this`delayQueue, this`frame, this`model, pcbs.Values
      ensures Valid() && model == M.Step(g, requeue, old(model), M.Tick)
    {
      TickStep(g, requeue, model);
      Charge(lost);
      if current.runTime > current.timeSlice && |readyQueue| != 0 {
        PreemptAndSchedule(requeue);
      }
    }

    /** traps.c:52-63. */
    method PreemptAndSchedule(requeue: bool)
      requires Valid() && M.Typed(model) && M.Preempts(model)
      modifies this`current, this`readyQueue, this`frame, this`model, pcbs.Values
      ensures Valid() && model == M.Schedule(M.Preempt(requeue, old(model)).0)
    {
      Preempt(requeue);
      Schedule();
    }

    lemma TickStep(g: P.Guard, requeue: bool, k: M.Kernel)
      requires M.Typed(k)
      ensures var c := M.Charged(k);
              && M.Typed(c)
              && M.Step(g, requeue, k, M.Tick) == if M.Preempts(c) then M.Schedule(M.Preempt(requeue, c).0) else c
    {}

    // -------------------------------------------------------------- sync.c: locks

    ghost function ObjSet(id: int): set<object>
      reads this
    {
      if id in table then {table[id].Ref()} else {}
    }

    /** An unlocked lock is taken (sync.c:334-338). */
    method TakeLock(lock: LockObj, ghost id: int)
      requires Valid() && M.Typed(model) && id in table && table[id] == LockRef(lock) && !lock.locked
      modifies this`model, lock
      ensures Valid() && model == M.Store(old(model), id, M.ALock(L.Acquire(old(model).sync[id].lock, old(model).cur)))
    {
      assert ObjLinked(table[id], model.sync[id], id);
      lock.locked := true;
      lock.owner := current;
      model := M.Store(model, id, M.ALock(L.Acquire(model.sync[id].lock, model.cur)));
      OnlyObj(id);
    }

    /** The current process queues for a lock that is held (sync.c:345). */
    method QueueForLock(lock: LockObj, ghost id: int)
      requires Valid() && id in table && table[id] == LockRef(lock) && lock.locked
      modifies this`model, lock`waiters
      ensures Valid() && id in old(model).sync && old(model).sync[id].ALock?
      ensures model == M.Store(old(model), id, M.ALock(L.Acquire(old(model).sync[id].lock, old(model).cur)))
    {
      assert ObjLinked(table[id], model.sync[id], id);
      QueueAppend(lock.waiters, model.sync[id].lock.waiters, current);
      lock.waiters := lock.waiters + [current];
      model := M.Store(model, id, M.ALock(L.Acquire(model.sync[id].lock, model.cur)));
      OnlyObj(id);
    }

    /** sync.c:346-347. */
    method BlockOnLock(id: int)
      requires Valid()
      modifies this`model, current`state, current`waitingLock
      ensures Valid()
              && model == M.Put(old(model), old(model).cur,
                                old(model).procs[old(model).cur].(st := M.BLOCKED, waitLock := id))
    {
      current.state := M.BLOCKED;
      current.waitingLock := id;
      model := M.Put(model, model.cur, model.procs[model.cur].(st := M.BLOCKED, waitLock := id));
      OnlyProc(current);
    }

    /** SyncLockAcquire (sync.c:318-351). */
    method SyncLockAcquire(lockId: int) returns (rc: int)
      requires Valid() && M.Typed(model) && M.LockOrNone(model, lockId)
      modifies this`model, ObjSet(lockId), current`state, current`waitingLock
      ensures Valid() && (model, rc) == M.SyncLockAcquire(old(model), lockId)
    {
      if lockId !in table {
        return ERROR;
      }
      assert ObjLinked(table[lockId], model.sync[lockId], lockId);
      var lock := table[lockId].lock;
      if !lock.locked {
        TakeLock(lock, lockId);
        return SUCCESS;
      }
      QueueForLock(lock, lockId);
      BlockOnLock(lockId);
      return M.PCB_BLOCKED;
    }

    /** The head waiter of a lock becomes its owner (sync.c:377, 382, 455, 460). */
    method PopWaiter(lock: LockObj, ghost id: int) returns (next: Pcb)
      requires Valid() && id in table && table[id] == LockRef(lock) && lock.waiters != []
      modifies this`model, lock
      ensures Valid() && Known(next) && id in old(model).sync && old(model).sync[id].ALock?
      ensures old(model).sync[id].lock.waiters != [] && next.pid == old(model).sync[id].lock.waiters[0]
      ensures model == M.Store(old(model), id, M.ALock(L.HandOver(old(model).sync[id].lock)))
    {
      next := DropWaiter(lock, id);
      SetOwner(lock, id, next);
    }

    method DropWaiter(lock: LockObj, ghost id: int) returns (next: Pcb)
      requires Valid() && id in table && table[id] == LockRef(lock) && lock.waiters != []
      modifies this`model, lock`waiters
      ensures Valid() && Known(next) && id in old(model).sync && old(model).sync[id].ALock?
      ensures var l := old(model).sync[id].lock;
              && l.waiters != [] && next.pid == l.waiters[0]
              && model == M.Store(old(model), id, M.ALock(l.(waiters := l.waiters[1..])))
    {
      assert ObjLinked(table[id], model.sync[id], id);
      QueueTail(lock.waiters, model.sync[id].lock.waiters);
      next := lock.waiters[0];
      lock.waiters := lock.waiters[1..];
      ghost var l := model.sync[id].lock;
      model := M.Store(model, id, M.ALock(l.(waiters := l.waiters[1..])));
      OnlyObj(id);
    }

    method SetOwner(lock: LockObj, ghost id: int, next: Pcb)
      requires Valid() && id in table && table[id] == LockRef(lock) && Known(next)
      modifies this`model, lock`owner
      ensures Valid() && id in old(model).sync && old(model).sync[id].ALock?
      ensures var l := old(model).sync[id].lock;
              model == M.Store(old(model), id, M.ALock(l.(owner := Some(next.pid), grants := l.grants + [next.pid])))
    {
      assert ObjLinked(table[id], model.sync[id], id);
      lock.owner := next;
      ghost var l := model.sync[id].lock;
      model := M.Store(model, id, M.ALock(l.(owner := Some(next.pid), grants := l.grants + [next.pid])));
      OnlyObj(id);
    }

    /** sync.c:378-379, 456-457. */
    method UnblockFromLock(next: Pcb)
      requires Valid() && Known(next)
      modifies this`model, next`state, next`waitingLock
      ensures Valid()
              && model == M.Put(old(model), next.pid, old(model).procs[next.pid].(st := M.DEFAULT, waitLock := -1))
    {
      next.state := M.DEFAULT;
      next.waitingLock := -1;
      model := M.Put(model, next.pid, model.procs[next.pid].(st := M.DEFAULT, waitLock := -1));
      OnlyProc(next);
    }

    method FreeLock(lock: LockObj, ghost id: int)
      requires Valid() && id in table && table[id] == LockRef(lock) && lock.waiters == []
      modifies this`model, lock
      ensures Valid() && id in old(model).sync && old(model).sync[id].ALock?
      ensures model == M.Store(old(model), id, M.ALock(L.HandOver(old(model).sync[id].lock)))
    {
      assert ObjLinked(table[id], model.sync[id], id);
      lock.locked := false;
      lock.owner := null;
      model := M.Store(model, id, M.ALock(L.HandOver(model.sync[id].lock)));
      OnlyObj(id);
    }

    /** sync.c:376-383, 454-461. */
    method HandToNext(lock: LockObj, ghost id: int)
      requires Valid() && M.Typed(model) && id in table && table[id] == LockRef(lock) && lock.waiters != []
      modifies this`model, this`readyQueue, lock, pcbs.Values
      ensures Valid() && id in old(model).sync && old(model).sync[id].ALock?
      ensures model == M.PassOn(old(model), id)
    {
      assert ObjLinked(table[id], model.sync[id], id);
      var next := PopWaiter(lock, id);
      UnblockFromLock(next);
      AddToReadyQueue(next);
    }

    /** The release of a lock, as in SyncLockRelease and inlined in SyncCvarWait (sync.c:376-390,
        454-466). */
    method PassOn(lock: LockObj, ghost id: int)
      requires Valid() && M.Typed(model) && id in table && table[id] == LockRef(lock)
      modifies this`model, this`readyQueue, lock, pcbs.Values
      ensures Valid() && id in old(model).sync && old(model).sync[id].ALock?
      ensures model == M.PassOn(old(model), id)
    {
      assert ObjLinked(table[id], model.sync[id], id);
      if |lock.waiters| != 0 {
        HandToNext(lock, id);
      } else {
        FreeLock(lock, id);
      }
    }

    /** SyncLockRelease (sync.c:353-393). */
    method SyncLockRelease(lockId: int) returns (rc: int)
      requires Valid() && M.Typed(model) && M.LockOrNone(model, lockId)
      modifies this`model, this`readyQueue, ObjSet(lockId), pcbs.Values
      ensures Valid() && (model, rc) == M.SyncLockRelease(old(model), lockId)
    {
      if lockId !in table {
        return ERROR;
      }
      assert ObjLinked(table[lockId], model.sync[lockId], lockId);
      var lock := table[lockId].lock;
      if lock.owner != current {
        return ERROR;
      }
      PassOn(lock, lockId);
      return SUCCESS;
    }

    // -------------------------------------------------------------- sync.c: condition variables

    /** The current process queues for a condition variable (sync.c:469). */
    method QueueForCvar(cvar: CvarObj, ghost id: int)
      requires Valid() && id in table && table[id] == CvarRef(cvar)
      modifies this`model, cvar
      ensures Valid() && id in old(model).sync && old(model).sync[id].ACvar?
      ensures model == M.Store(old(model), id, M.ACvar(L.Await(old(model).sync[id].cvar, old(model).cur)))
    {
      assert ObjLinked(table[id], model.sync[id], id);
      QueueAppend(cvar.waiters, model.sync[id].cvar.waiters, current);
      cvar.waiters := cvar.waiters + [current];
      model := M.Store(model, id, M.ACvar(L.Await(model.sync[id].cvar, model.cur)));
      OnlyObj(id);
    }

    /** sync.c:471-472. */
    method BlockOnCvar(id: int)
      requires Valid()
      modifies this`model, current`state, current`waitingCvar
      ensures Valid()
              && model == M.Put(old(model), old(model).cur,
                                old(model).procs[old(model).cur].(waitCvar := id, st := M.BLOCKED))
    {
      current.waitingCvar := id;
      current.state := M.BLOCKED;
      model := M.Put(model, model.cur, model.procs[model.cur].(waitCvar := id, st := M.BLOCKED));
      OnlyProc(current);
    }

    /** SyncCvarWait (sync.c:422-477). */
    method SyncCvarWait(cvarId: int, lockId: int) returns (rc: int)
      requires Valid() && M.Typed(model) && M.CvarOrNone(model, cvarId) && M.LockOrNone(model, lockId)
      modifies this`model, this`readyQueue, ObjSet(cvarId), ObjSet(lockId), pcbs.Values
      ensures Valid() && (model, rc) == M.SyncCvarWait(old(model), cvarId, lockId)
    {
      if cvarId !in table || lockId !in table {
        return ERROR;
      }
      assert ObjLinked(table[cvarId], model.sync[cvarId], cvarId);
      assert ObjLinked(table[lockId], model.sync[lockId], lockId);
      var cvar, lock := table[cvarId].cvar, table[lockId].lock;
      rc := WaitOn(cvar, cvarId, lock, lockId);
    }

    /** SyncCvarWait once both objects are found (sync.c:449-476). */
    method WaitOn(cvar: CvarObj, cvarId: int, lock: LockObj, ghost lockId: int) returns (rc: int)
      requires Valid() && M.Typed(model)
      requires cvarId in table && table[cvarId] == CvarRef(cvar) && lockId in table && table[lockId] == LockRef(lock)
      modifies this`model, this`readyQueue, cvar, lock, pcbs.Values
      ensures Valid() && M.CvarOrNone(old(model), cvarId) && M.LockOrNone(old(model), lockId)
      ensures (model, rc) == M.SyncCvarWait(old(model), cvarId, lockId)
    {
      assert ObjLinked(table[cvarId], model.sync[cvarId], cvarId);
      assert ObjLinked(table[lockId], model.sync[lockId], lockId);
      if lock.owner != current {
        return ERROR;
      }
      PassOn(lock, lockId);
      QueueForCvar(cvar, cvarId);
      BlockOnCvar(cvarId);
      return M.PCB_BLOCKED;
    }

    /** The head waiter of a condition variable leaves (sync.c:497, 531). */
    method PopCvarWaiter(cvar: CvarObj, ghost id: int) returns (next: Pcb)
      requires Valid() && id in table && table[id] == CvarRef(cvar) && cvar.waiters != []
      modifies this`model, cvar
      ensures Valid() && Known(next) && id in old(model).sync && old(model).sync[id].ACvar?
      ensures old(model).sync[id].cvar.waiters != [] && next.pid == old(model).sync[id].cvar.waiters[0]
      ensures model == M.Store(old(model), id, M.ACvar(L.WakeOne(old(model).sync[id].cvar)))
    {
      assert ObjLinked(table[id], model.sync[id], id);
      QueueTail(cvar.waiters, model.sync[id].cvar.waiters);
      next := cvar.waiters[0];
      cvar.waiters := cvar.waiters[1..];
      model := M.Store(model, id, M.ACvar(L.WakeOne(model.sync[id].cvar)));
      OnlyObj(id);
    }

    /** sync.c:499-502, 533-536. */
    method UnblockFromCvar(next: Pcb)
      requires Valid() && Known(next)
      modifies this`model, next`state, next`waitingCvar
      ensures Valid()
              && model == M.Put(old(model), next.pid, old(model).procs[next.pid].(waitCvar := -1, st := M.DEFAULT))
    {
      next.waitingCvar := -1;
      next.state := M.DEFAULT;
      model := M.Put(model, next.pid, model.procs[next.pid].(waitCvar := -1, st := M.DEFAULT));
      OnlyProc(next);
    }

    method WakeFirst(cvar: CvarObj, ghost id: int)
      requires Valid() && M.Typed(model) && id in table && table[id] == CvarRef(cvar) && cvar.waiters != []
      modifies this`model, this`readyQueue, cvar, pcbs.Values
      ensures Valid() && id in old(model).sync && old(model).sync[id].ACvar? && old(model).sync[id].cvar.waiters != []
      ensures model == M.WakeFirst(old(model), id)
    {
      assert ObjLinked(table[id], model.sync[id], id);
      var next := PopCvarWaiter(cvar, id);
      UnblockFromCvar(next);
      AddToReadyQueue(next);
    }

    /** SyncCvarSignal (sync.c:479-507). */
    method SyncCvarSignal(cvarId: int) returns (rc: int)
      requires Valid() && M.Typed(model) && M.CvarOrNone(model, cvarId)
      modifies this`model, this`readyQueue, ObjSet(cvarId), pcbs.Values
      ensures Valid() && (model, rc) == M.SyncCvarSignal(old(model), cvarId)
    {
      if cvarId !in table {
        return ERROR;
      }
      assert ObjLinked(table[cvarId], model.sync[cvarId], cvarId);
      var cvar := table[cvarId].cvar;
      if |cvar.waiters| == 0 {
        return 0;
      }
      WakeFirst(cvar, cvarId);
      return 0;
    }

    lemma CvarIsModelled(cvar: CvarObj, id: int)
      requires Valid() && id in table && table[id] == CvarRef(cvar)
      ensures id in model.sync && model.sync[id].ACvar? && |model.sync[id].cvar.waiters| == |cvar.waiters|
    {
      assert ObjLinked(table[id], model.sync[id], id);
    }

    /** The loop of SyncCvarBroadcast (sync.c:530-539). */
    method WakeEveryone(cvar: CvarObj, ghost id: int)
      requires Valid() && M.Typed(model) && id in table && table[id] == CvarRef(cvar)
      modifies this`model, this`readyQueue, cvar, pcbs.Values
      ensures Valid() && id in old(model).sync && old(model).sync[id].ACvar?
      ensures model == M.WakeEveryone(old(model), id)
    {
      CvarIsModelled(cvar, id);
      while |cvar.waiters| != 0
        invariant Valid() && M.Typed(model) && id in model.sync && model.sync[id].ACvar?
        invariant |model.sync[id].cvar.waiters| == |cvar.waiters|
        invariant M.WakeEveryone(model, id) == M.WakeEveryone(old(model), id)
        decreases |cvar.waiters|
      {
        WakeFirst(cvar, id);
        CvarIsModelled(cvar, id);
      }
    }

    /** SyncCvarBroadcast (sync.c:509-543); `noise` is what the missing return leaves. */
    method SyncCvarBroadcast(cvarId: int, noise: int) returns (rc: int)
      requires Valid() && M.Typed(model) && M.CvarOrNone(model, cvarId)
      modifies this`model, this`readyQueue, ObjSet(cvarId), pcbs.Values
      ensures Valid() && (model, rc) == M.SyncCvarBroadcast(old(model), cvarId, noise)
    {
      if cvarId !in table {
        return ERROR;
      }
      assert ObjLinked(table[cvarId], model.sync[cvarId], cvarId);
      var cvar := table[cvarId].cvar;
      if |cvar.waiters| == 0 {
        return 0;
      }
      WakeEveryone(cvar, cvarId);
      return noise;
    }

    // -------------------------------------------------------------- sync.c: pipes

    /** x is on no queue of a pipe. */
    ghost predicate OffPipes(x: Pcb)
      reads this, Repr()
    {
      forall id <- table :: table[id].PipeRef? ==> x !in table[id].pipe.readers && x !in table[id].pipe.writers
    }

    lemma SleepsWhereItSays(x: Pcb, id: int)
      requires Valid() && id in table && id != x.waitingPipe && table[id].PipeRef?
      ensures x !in table[id].pipe.readers && x !in table[id].pipe.writers
    {
      assert ObjLinked(table[id], model.sync[id], id);
    }

    twostate lemma PipeStays(new id: int, x: Pcb)
      requires old(TableLinked()) && SleepersSame({x}) && ObjectsSame() && id in table
      requires old(OffPipes(x)) && model.sync == old(model.sync)
      ensures ObjLinked(table[id], model.sync[id], id)
    {
      assert old(ObjLinked(table[id], model.sync[id], id));
    }

    /** After any change to a process that sleeps at no pipe, only the queues are left to check. */
    twostate lemma OnlySleeper(x: Pcb)
      requires old(Valid()) && pcbs == old(pcbs) && Known(x) && ObjectsSame() && old(OffPipes(x))
      requires model.sync == old(model.sync)
      requires forall pid <- pcbs :: pcbs[pid] == x || unchanged(pcbs[pid])
      requires model.procs == old(model.procs)[x.pid := x.Val()]
      requires QueuesLinked()
      ensures Valid()
    {
      ProcChanged(x);
      forall id <- table
        ensures 0 <= id && ObjLinked(table[id], model.sync[id], id)
      {
        PipeStays(id, x);
      }
    }

    lemma PipeIsModelled(pipe: PipeObj, id: int)
      requires Valid() && id in table && table[id] == PipeRef(pipe)
      ensures id in model.sync && model.sync[id].APipe? && pipe.Holds(model.sync[id].pipe.ring)
      ensures PipeQueues(pipe, model.sync[id].pipe, id) && pipe.openForRead && pipe.openForWrite
    {
      assert ObjLinked(table[id], model.sync[id], id);
    }

    lemma AwayFromPipe(pipe: PipeObj, m: P.Pipe, id: int, x: Pcb)
      requires PipeQueues(pipe, m, id) && x.pid !in Sleepers(m)
      ensures x !in pipe.readers && x !in pipe.writers
    {
      forall i | 0 <= i < |pipe.readers|
        ensures pipe.readers[i] != x
      {
        assert Sleepers(m)[i] == pipe.readers[i].pid;
      }
      forall i | 0 <= i < |pipe.writers|
        ensures pipe.writers[i] != x
      {
        assert Sleepers(m)[|m.readers| + i] == pipe.writers[i].pid;
      }
    }

    lemma ReaderPopped(m: P.Pipe)
      requires NoDup(Sleepers(m)) && m.readers != []
      ensures var m' := m.(readers := m.readers[1..]); NoDup(Sleepers(m')) && m.readers[0].pid !in Sleepers(m')
    {
      var m' := m.(readers := m.readers[1..]);
      assert Sleepers(m) == [m.readers[0].pid] + Sleepers(m');
      Members(Sleepers(m), [m.readers[0].pid], Sleepers(m'));
      assert m.readers[0].pid in [m.readers[0].pid];
    }

    twostate lemma ReaderLeft(pipe: PipeObj, new id: int, new p: P.Pipe)
      requires old(PipeQueues(pipe, p, id)) && SleepersSame({}) && old(pipe.readers) != []
      requires pipe.readers == old(pipe.readers)[1..] && pipe.writers == old(pipe.writers)
      ensures p.readers != [] && PipeQueues(pipe, p.(readers := p.readers[1..]), id)
              && p.readers[0].pid !in Sleepers(p.(readers := p.readers[1..]))
      ensures var r := old(pipe.readers)[0];
              && Known(r) && r.pid == p.readers[0].pid && r.waitingPipe == id
                  && r.pipeLen == p.readers[0].want == |r.pipeBuffer|
    {
      ReaderPopped(p);
    }

    /** The head reader is popped (sync.c:208). */
    method PopReader(pipe: PipeObj, ghost id: int) returns (reader: Pcb)
      requires Valid() && id in table && table[id] == PipeRef(pipe) && |pipe.readers| != 0
      modifies this`model, pipe`readers
      ensures Valid() && id in old(model).sync && old(model).sync[id].APipe? && old(model).sync[id].pipe.readers != []
      ensures var p := old(model).sync[id].pipe;
              && model == Popped(old(model), id)
              && Known(reader) && reader.pid == p.readers[0].pid && reader.waitingPipe == id
              && reader.pipeLen == p.readers[0].want == |reader.pipeBuffer|
      ensures OffPipes(reader)
    {
      PipeIsModelled(pipe, id);
      reader := pipe.readers[0];
      ghost var p := model.sync[id].pipe;
      pipe.readers := pipe.readers[1..];
      model := Popped(model, id);
      ReaderLeft(pipe, id, p);
      pipe.RingStays(p.ring);
      OnlyObj(id);
      SleepsNowhere(reader, pipe, id);
    }

    /** A process that says it sleeps at this pipe but is on none of its queues sleeps nowhere. */
    lemma SleepsNowhere(x: Pcb, pipe: PipeObj, id: int)
      requires Valid() && id in table && table[id] == PipeRef(pipe) && x.waitingPipe == id
      requires id in model.sync && model.sync[id].APipe? && x.pid !in Sleepers(model.sync[id].pipe)
      ensures OffPipes(x)
    {
      PipeIsModelled(pipe, id);
      AwayFromPipe(pipe, model.sync[id].pipe, id, x);
      forall j <- table | table[j].PipeRef?
        ensures x !in table[j].pipe.readers && x !in table[j].pipe.writers
      {
        if j != id { SleepsWhereItSays(x, j); }
      }
    }

    /** A process that sleeps at no pipe according to its fields is on no queue of one. */
    lemma OffPipesByField(x: Pcb)
      requires Valid() && x.waitingPipe == -1
      ensures OffPipes(x)
    {
      forall j <- table | table[j].PipeRef?
        ensures x !in table[j].pipe.readers && x !in table[j].pipe.writers
      {
        SleepsWhereItSays(x, j);
      }
    }

    /** Bytes leave a pipe; `e` is how the history tells it. */
    method TakeRing(pipe: PipeObj, ghost id: int, n: nat, ghost e: P.Event, ghost x: Pcb) returns (bytes: seq<Byte>)
      requires Valid() && id in table && table[id] == PipeRef(pipe) && n <= pipe.bytesInBuffer
      modifies this`model, pipe`readPos, pipe`bytesInBuffer
      ensures Valid() && id in old(model).sync && old(model).sync[id].APipe? && n <= |old(model).sync[id].pipe.ring|
      ensures bytes == old(model).sync[id].pipe.ring[..n] && model == Drawn(old(model), id, n, e)
      ensures (old(OffPipes(x)) ==> OffPipes(x)) && (old(Known(x)) ==> Known(x))
    {
      PipeIsModelled(pipe, id);
      bytes := pipe.CopyTo(n, model.sync[id].pipe.ring);
      model := Drawn(model, id, n, e);
      OnlyObj(id);
      OffStays(x);
    }

    twostate lemma OffStays(x: Pcb)
      requires table == old(table)
      requires forall id <- table :: table[id].PipeRef? ==> unchanged(table[id].pipe`readers, table[id].pipe`writers)
      ensures old(OffPipes(x)) ==> OffPipes(x)
    {}

    ghost function Drawn(m: M.Kernel, id: int, n: nat, e: P.Event): M.Kernel
      requires id in m.sync && m.sync[id].APipe? && n <= |m.sync[id].pipe.ring|
    {
      var p := m.sync[id].pipe;
      M.Store(m, id, M.APipe(p.(ring := p.ring[n..], log := p.log + [e])))
    }

    /** The popped reader is handed its bytes and let go (sync.c:223, 228-230). */
    method ReleaseReader(reader: Pcb, bytes: seq<Byte>)
      requires Valid() && Known(reader) && OffPipes(reader)
      modifies this`model, reader
      ensures Valid() && reader.pid in old(model).procs && model == Released(old(model), reader.pid, bytes)
    {
      reader.pipeBuffer := M.Delivered(reader.pipeBuffer, bytes);
      reader.reg0 := |bytes|;
      reader.waitingPipe := -1;
      reader.state := M.DEFAULT;
      model := Released(model, reader.pid, bytes);
      OnlySleeper(reader);
    }

    ghost function Released(m: M.Kernel, x: Pid, bytes: seq<Byte>): M.Kernel
      requires x in m.procs
    {
      M.Put(m, x, m.procs[x].(buf := M.Delivered(m.procs[x].buf, bytes), reg0 := |bytes|, waitPipe := -1,
                              st := M.DEFAULT))
    }

    /** The model between the two halves of a round: the reader popped, then served and let go. */
    ghost function Popped(m: M.Kernel, id: int): M.Kernel
      requires id in m.sync && m.sync[id].APipe? && m.sync[id].pipe.readers != []
    {
      var p := m.sync[id].pipe;
      M.Store(m, id, M.APipe(p.(readers := p.readers[1..])))
    }

    /** Popped, served and let go: one round of the reader drain. */
    lemma ServedInThree(m: M.Kernel, id: int)
      requires M.Typed(m) && id in m.sync && m.sync[id].APipe? && m.sync[id].pipe.readers != []
      ensures var p := m.sync[id].pipe; var r, q := p.readers[0], P.ServeHead(p);
              var n := Min(r.want, |p.ring|);
              && r.pid in m.procs && CanDrain(m, id, q)
              && M.AddToReady(Released(Drawn(Popped(m, id), id, n, P.Served(r.pid, r.want, p.ring[..n])), r.pid,
                                       p.ring[..n]), r.pid)
                 == DrainTo(m, id, q)
    {
      ServedTyped(m, id);
      var p := m.sync[id].pipe;
      var r, q := p.readers[0], P.ServeHead(p);
      var n := Min(r.want, |p.ring|);
      ServeHeadAccounted(p);
      var k := M.Store(m, id, M.APipe(q));
      assert Drawn(Popped(m, id), id, n, P.Served(r.pid, r.want, p.ring[..n])) == k;
      OneEffect(k, q.log[|p.log|]);
      assert News(p, q) == [q.log[|p.log|]];
    }

    lemma OneEffect(k: M.Kernel, e: P.Event)
      requires M.Typed(k) && forall p <- Woke(e) :: p in k.procs
      ensures WokenPids([e]) == Woke(e) && M.Effects(k, [e]) == M.Effect(k, e)
    {
      assert [e][1..] == [];
      assert Woke(e) + [] == Woke(e);
    }

    /** One round of the reader drain (sync.c:208-233). */
    method ServeHead(pipe: PipeObj, ghost id: int)
      requires Valid() && M.Typed(model) && id in table && table[id] == PipeRef(pipe) && |pipe.readers| != 0
      modifies this`model, this`readyQueue, pipe`readers, pipe`readPos, pipe`bytesInBuffer, pcbs.Values
      ensures Valid() && id in old(model).sync && old(model).sync[id].APipe? && old(model).sync[id].pipe.readers != []
      ensures CanDrain(old(model), id, P.ServeHead(old(model).sync[id].pipe))
      ensures model == DrainTo(old(model), id, P.ServeHead(old(model).sync[id].pipe))
    {
      PipeIsModelled(pipe, id);
      ServedInThree(model, id);
      var reader := PopReader(pipe, id);
      var n := Min(reader.pipeLen, pipe.bytesInBuffer);
      PipeIsModelled(pipe, id);
      var bytes := TakeRing(pipe, id, n, P.Served(reader.pid, reader.pipeLen, model.sync[id].pipe.ring[..n]), reader);
      WakeReader(reader, bytes);
    }

    /** The served reader wakes up (sync.c:228-231). */
    method WakeReader(reader: Pcb, bytes: seq<Byte>)
      requires Valid() && Known(reader) && OffPipes(reader)
      modifies this`model, this`readyQueue, reader
      ensures Valid() && reader.pid in old(model).procs
      ensures model == M.AddToReady(Released(old(model), reader.pid, bytes), reader.pid)
    {
      ReleaseReader(reader, bytes);
      AddToReadyQueue(reader);
    }

    lemma ServedTyped(m: M.Kernel, id: int)
      requires M.Typed(m) && id in m.sync && m.sync[id].APipe? && m.sync[id].pipe.readers != []
      ensures M.Typed(M.Store(m, id, M.APipe(P.ServeHead(m.sync[id].pipe))))
      ensures m.sync[id].pipe.readers[0].pid in m.procs
    {
      var p := m.sync[id].pipe;
      assert M.SyncTyped(m, m.sync[id]);
      assert Sleepers(p)[0] == p.readers[0].pid;
      assert Sleepers(p) == [p.readers[0].pid] + Sleepers(P.ServeHead(p));
    }

    // ---- the writer drain

    lemma WriterPopped(m: P.Pipe)
      requires NoDup(Sleepers(m)) && m.writers != []
      ensures var m' := m.(writers := m.writers[1..]); NoDup(Sleepers(m')) && m.writers[0].pid !in Sleepers(m')
    {
      var m' := m.(writers := m.writers[1..]);
      assert WriterPids(m.writers) == [m.writers[0].pid] + WriterPids(m'.writers);
      assert multiset(Sleepers(m)) == multiset([m.writers[0].pid]) + multiset(Sleepers(m'));
      Members(Sleepers(m), [m.writers[0].pid], Sleepers(m'));
      assert m.writers[0].pid in [m.writers[0].pid];
    }

    ghost function PoppedWriter(m: M.Kernel, id: int): M.Kernel
      requires id in m.sync && m.sync[id].APipe? && m.sync[id].pipe.writers != []
    {
      var p := m.sync[id].pipe;
      M.Store(m, id, M.APipe(p.(writers := p.writers[1..])))
    }

    twostate lemma WriterLeft(pipe: PipeObj, new id: int, new p: P.Pipe)
      requires old(PipeQueues(pipe, p, id)) && SleepersSame({}) && old(pipe.writers) != []
      requires pipe.writers == old(pipe.writers)[1..] && pipe.readers == old(pipe.readers)
      ensures p.writers != [] && PipeQueues(pipe, p.(writers := p.writers[1..]), id)
              && p.writers[0].pid !in Sleepers(p.(writers := p.writers[1..]))
      ensures var w, v := old(pipe.writers)[0], p.writers[0];
              && Known(w) && w.pid == v.pid && w.waitingPipe == id
              && w.pipeBuffer == v.msg && w.pipeLen == |v.msg| && w.writeLoc == v.loc <= |v.msg|
    {
      WriterPopped(p);
    }

    /** The head writer is popped (sync.c:166). */
    method PopWriter(pipe: PipeObj, ghost id: int) returns (writer: Pcb)
      requires Valid() && id in table && table[id] == PipeRef(pipe) && |pipe.writers| != 0
      modifies this`model, pipe`writers
      ensures Valid() && id in old(model).sync && old(model).sync[id].APipe? && old(model).sync[id].pipe.writers != []
      ensures var w := old(model).sync[id].pipe.writers[0];
              && model == PoppedWriter(old(model), id)
              && Known(writer) && writer.pid == w.pid && writer.waitingPipe == id
              && writer.pipeBuffer == w.msg && writer.pipeLen == |w.msg| && writer.writeLoc == w.loc <= |w.msg|
      ensures OffPipes(writer)
    {
      PipeIsModelled(pipe, id);
      writer := pipe.writers[0];
      ghost var p := model.sync[id].pipe;
      pipe.writers := pipe.writers[1..];
      model := PoppedWriter(model, id);
      WriterLeft(pipe, id, p);
      pipe.RingStays(p.ring);
      OnlyObj(id);
      SleepsNowhere(writer, pipe, id);
    }

    ghost function Poured(m: M.Kernel, id: int, piece: seq<Byte>, e: P.Event): M.Kernel
      requires id in m.sync && m.sync[id].APipe?
    {
      var p := m.sync[id].pipe;
      M.Store(m, id, M.APipe(p.(ring := p.ring + piece, log := p.log + [e])))
    }

    /** Bytes enter a pipe from src[loc] on, as far as they fit; they belong to message `call`. */
    method PutRing(pipe: PipeObj, ghost id: int, src: seq<Byte>, loc: nat, ghost call: nat, ghost x: Pcb)
        returns (end: nat)
      requires Valid() && id in table && table[id] == PipeRef(pipe) && loc <= |src|
      modifies this`model, pipe`writePos, pipe`bytesInBuffer, pipe.buffer
      ensures Valid() && id in old(model).sync && old(model).sync[id].APipe?
              && |old(model).sync[id].pipe.ring| <= PIPE_BUFFER_LEN
      ensures end == loc + Min(PIPE_BUFFER_LEN - |old(model).sync[id].pipe.ring|, |src| - loc)
      ensures model == Poured(old(model), id, src[loc..end], P.Accepted(call, src[loc..end]))
      ensures old(OffPipes(x)) ==> OffPipes(x)
    {
      PipeIsModelled(pipe, id);
      end := pipe.CopyIn(src, loc, model.sync[id].pipe.ring);
      model := Poured(model, id, src[loc..end], P.Accepted(call, src[loc..end]));
      OnlyObj(id);
      OffStays(x);
    }

    /** The popped writer's mark moves on (sync.c:182). */
    method SetWriteLoc(writer: Pcb, loc: nat)
      requires Valid() && Known(writer) && OffPipes(writer)
      modifies writer`writeLoc
      ensures Valid() && writer.writeLoc == loc && OffPipes(writer)
    {
      writer.writeLoc := loc;
      OnlySleeper(writer);
    }

    ghost function PutBack(m: M.Kernel, id: int, w: P.Writer): M.Kernel
      requires id in m.sync && m.sync[id].APipe?
    {
      var p := m.sync[id].pipe;
      M.Store(m, id, M.APipe(p.(writers := [w] + p.writers)))
    }

    lemma WriterPushed(m: P.Pipe, w: P.Writer)
      requires NoDup(Sleepers(m)) && w.pid !in Sleepers(m)
      ensures NoDup(Sleepers(m.(writers := [w] + m.writers)))
    {
      var m' := m.(writers := [w] + m.writers);
      assert WriterPids(m'.writers) == [w.pid] + WriterPids(m.writers);
      assert multiset(Sleepers(m')) == multiset([w.pid]) + multiset(Sleepers(m));
      Members(Sleepers(m'), [w.pid], Sleepers(m));
    }

    /** A writer that did not finish goes back to the head (sync.c:188). */
    method PushWriter(pipe: PipeObj, ghost id: int, writer: Pcb, ghost w: P.Writer)
      requires Valid() && id in table && table[id] == PipeRef(pipe)
      requires Known(writer) && writer.pid == w.pid && writer.waitingPipe == id
      requires writer.pipeBuffer == w.msg && writer.pipeLen == |w.msg| && writer.writeLoc == w.loc <= |w.msg|
      requires id in model.sync && model.sync[id].APipe? && w.pid !in Sleepers(model.sync[id].pipe)
      modifies this`model, pipe`writers
      ensures Valid() && id in old(model).sync && old(model).sync[id].APipe? && model == PutBack(old(model), id, w)
    {
      PipeIsModelled(pipe, id);
      WriterPushed(model.sync[id].pipe, w);
      pipe.writers := [writer] + pipe.writers;
      model := PutBack(model, id, w);
      OnlyObj(id);
    }

    ghost function Completed(m: M.Kernel, x: Pid, len: nat): M.Kernel
      requires x in m.procs
    {
      M.Put(m, x, m.procs[x].(buf := [], reg0 := len, waitPipe := -1, st := M.DEFAULT))
    }

    /** A writer whose message is all in is let go (sync.c:194-199). */
    method ReleaseWriter(writer: Pcb, len: nat)
      requires Valid() && Known(writer) && OffPipes(writer)
      modifies this`model, writer
      ensures Valid() && writer.pid in old(model).procs && model == Completed(old(model), writer.pid, len)
    {
      CompletedInTwo(model, writer.pid, len);
      SetBuffer(writer, []);
      SetWriteLoc(writer, 0);
      LetGo(writer, len);
    }

    /** The buffer goes first, then the rest. */
    lemma CompletedInTwo(m: M.Kernel, x: Pid, len: nat)
      requires x in m.procs
      ensures var k := M.Put(m, x, m.procs[x].(buf := []));
              M.Put(k, x, k.procs[x].(reg0 := len, waitPipe := -1, st := M.DEFAULT)) == Completed(m, x, len)
    {}

    lemma SleptInTwo(m: M.Kernel, id: int, buf: seq<Byte>)
      requires m.cur in m.procs
      ensures var k := M.Put(m, m.cur, m.procs[m.cur].(buf := buf));
              M.Put(k, k.cur, k.procs[k.cur].(waitPipe := id, st := M.BLOCKED)) == AsleepAt(m, id, buf)
    {}

    /** pipe_buffer and pipe_len (sync.c:134-135, 194-196, 273-274). */
    method SetBuffer(p: Pcb, buf: seq<Byte>)
      requires Valid() && Known(p) && OffPipes(p)
      modifies this`model, p`pipeBuffer, p`pipeLen
      ensures Valid() && OffPipes(p) && p.pipeBuffer == buf && p.pipeLen == |buf|
      ensures p.pid in old(model).procs && model == M.Put(old(model), p.pid, old(model).procs[p.pid].(buf := buf))
    {
      p.pipeBuffer := buf;
      p.pipeLen := |buf|;
      model := M.Put(model, p.pid, model.procs[p.pid].(buf := buf));
      OnlySleeper(p);
    }

    /** sync.c:197-199. */
    method LetGo(writer: Pcb, len: nat)
      requires Valid() && Known(writer) && OffPipes(writer)
      modifies this`model, writer`waitingPipe, writer`state, writer`reg0
      ensures Valid() && writer.pid in old(model).procs
      ensures model == M.Put(old(model), writer.pid,
                             old(model).procs[writer.pid].(reg0 := len, waitPipe := -1, st := M.DEFAULT))
    {
      writer.waitingPipe := -1;
      writer.state := M.DEFAULT;
      writer.reg0 := len;
      model := M.Put(model, writer.pid, model.procs[writer.pid].(reg0 := len, waitPipe := -1, st := M.DEFAULT));
      OnlySleeper(writer);
    }

    ghost function Logged(m: M.Kernel, id: int, e: P.Event): M.Kernel
      requires id in m.sync && m.sync[id].APipe?
    {
      var p := m.sync[id].pipe;
      M.Store(m, id, M.APipe(p.(log := p.log + [e])))
    }

    /** Only the history is written. */
    ghost method Log(pipe: PipeObj, id: int, e: P.Event)
      requires Valid() && id in table && table[id] == PipeRef(pipe)
      modifies this`model
      ensures Valid() && id in old(model).sync && old(model).sync[id].APipe? && model == Logged(old(model), id, e)
    {
      PipeIsModelled(pipe, id);
      model := Logged(model, id, e);
      OnlyObj(id);
    }

    /** The head writer of m with `end` bytes of its message in. */
    ghost function FilledTo(m: M.Kernel, id: int, end: nat): M.Kernel
      requires id in m.sync && m.sync[id].APipe? && m.sync[id].pipe.writers != []
      requires m.sync[id].pipe.writers[0].loc <= end <= |m.sync[id].pipe.writers[0].msg|
    {
      var w := m.sync[id].pipe.writers[0];
      Poured(PoppedWriter(m, id), id, w.msg[w.loc..end], P.Accepted(w.call, w.msg[w.loc..end]))
    }

    lemma FillTyped(m: M.Kernel, id: int)
      requires M.Typed(m) && id in m.sync && m.sync[id].APipe? && m.sync[id].pipe.writers != []
      ensures var p := m.sync[id].pipe;
              P.Sound(p) && P.Sound(P.FillHead(p)) && CanDrain(m, id, P.FillHead(p)) && p.writers[0].pid in m.procs
    {
      assert M.SyncTyped(m, m.sync[id]);
      var p := m.sync[id].pipe;
      FillHeadAccounted(p);
      assert WriterPids(p.writers)[0] == p.writers[0].pid;
      assert p.writers[0].pid in Sleepers(p);
    }

    /** Popped, filled and put back. */
    lemma FilledInPart(m: M.Kernel, id: int, end: nat)
      requires M.Typed(m) && id in m.sync && m.sync[id].APipe? && m.sync[id].pipe.writers != []
               && P.Sound(m.sync[id].pipe)
      requires CanDrain(m, id, P.FillHead(m.sync[id].pipe))
      requires var p := m.sync[id].pipe; var w := p.writers[0];
               end == w.loc + Min(PIPE_BUFFER_LEN - |p.ring|, |w.msg| - w.loc) && end < |w.msg|
      ensures var w := m.sync[id].pipe.writers[0];
              PutBack(FilledTo(m, id, end), id, w.(loc := end)) == DrainTo(m, id, P.FillHead(m.sync[id].pipe))
    {
      var p := m.sync[id].pipe;
      var w, q := p.writers[0], P.FillHead(p);
      var k := M.Store(m, id, M.APipe(q));
      DrainKnown(m, id, q);
      assert News(p, q) == [P.Accepted(w.call, w.msg[w.loc..end])];
      OneEffect(k, P.Accepted(w.call, w.msg[w.loc..end]));
      assert PutBack(FilledTo(m, id, end), id, w.(loc := end)) == k;
    }

    /** Popped, filled, told in the history, let go and made ready. */
    lemma FilledInFull(m: M.Kernel, id: int)
      requires M.Typed(m) && id in m.sync && m.sync[id].APipe? && m.sync[id].pipe.writers != []
               && P.Sound(m.sync[id].pipe)
      requires CanDrain(m, id, P.FillHead(m.sync[id].pipe)) && m.sync[id].pipe.writers[0].pid in m.procs
      requires var p := m.sync[id].pipe; var w := p.writers[0]; |w.msg| - w.loc <= PIPE_BUFFER_LEN - |p.ring|
      ensures var p := m.sync[id].pipe; var w := p.writers[0];
              M.AddToReady(Completed(Logged(FilledTo(m, id, |w.msg|), id, P.Finished(w.pid, w.call, |w.msg|)), w.pid,
                                     |w.msg|), w.pid)
                == DrainTo(m, id, P.FillHead(p))
    {
      var p := m.sync[id].pipe;
      var w, q := p.writers[0], P.FillHead(p);
      var a, f := P.Accepted(w.call, w.msg[w.loc..]), P.Finished(w.pid, w.call, |w.msg|);
      assert w.msg[w.loc..|w.msg|] == w.msg[w.loc..];
      var k := M.Store(m, id, M.APipe(q));
      DrainKnown(m, id, q);
      assert News(p, q) == [a] + [f];
      assert q.log == p.log + [a] + [f];
      EffectsConcat(k, [a], [f]);
      OneEffect(k, a);
      OneEffect(k, f);
      LoggedIs(m, id);
    }

    lemma LoggedIs(m: M.Kernel, id: int)
      requires id in m.sync && m.sync[id].APipe? && m.sync[id].pipe.writers != [] && P.Sound(m.sync[id].pipe)
      requires var p := m.sync[id].pipe; var w := p.writers[0]; |w.msg| - w.loc <= PIPE_BUFFER_LEN - |p.ring|
      ensures var p := m.sync[id].pipe; var w := p.writers[0];
              Logged(FilledTo(m, id, |w.msg|), id, P.Finished(w.pid, w.call, |w.msg|))
                  == M.Store(m, id, M.APipe(P.FillHead(p)))
    {
      var w := m.sync[id].pipe.writers[0];
      assert w.msg[w.loc..|w.msg|] == w.msg[w.loc..];
    }

    /** The head writer is popped and the ring topped up from its message (sync.c:166, 173-184). */
    method FillFromHead(pipe: PipeObj, ghost id: int) returns (writer: Pcb, end: nat)
      requires Valid() && id in table && table[id] == PipeRef(pipe) && |pipe.writers| != 0
      modifies this`model, pipe`writers, pipe`writePos, pipe`bytesInBuffer, pipe.buffer, pcbs.Values
      ensures Valid() && HasWriter(old(model), id) && end == FillEnd(old(model), id)
      ensures model == FilledTo(old(model), id, end)
      ensures Known(writer) && writer.waitingPipe == id && OffPipes(writer)
      ensures writer.pid == HeadWriter(old(model), id).pid && writer.pipeBuffer == HeadWriter(old(model), id).msg
      ensures writer.pipeLen == |writer.pipeBuffer| && writer.writeLoc == end
    {
      HeadIsThere(pipe, id);
      ghost var w := HeadWriter(model, id);
      writer := PopWriter(pipe, id);
      end := Pour(pipe, id, writer, writer.pipeBuffer, writer.writeLoc, w.call);
    }

    lemma HeadIsThere(pipe: PipeObj, id: int)
      requires Valid() && id in table && table[id] == PipeRef(pipe) && |pipe.writers| != 0
      ensures HasWriter(model, id)
      ensures var m := PoppedWriter(model, id);
              id in m.sync && m.sync[id].APipe? && m.sync[id].pipe.ring == model.sync[id].pipe.ring
    {
      PipeIsModelled(pipe, id);
    }

    /** The ring is topped up from src[loc] on, and the writer's mark moves on (sync.c:173-184). */
    method Pour(pipe: PipeObj, ghost id: int, writer: Pcb, src: seq<Byte>, loc: nat, ghost call: nat) returns (end: nat)
      requires Valid() && id in table && table[id] == PipeRef(pipe) && Known(writer) && OffPipes(writer) && loc <= |src|
      modifies this`model, pipe`writePos, pipe`bytesInBuffer, pipe.buffer, writer`writeLoc
      ensures Valid() && id in old(model).sync && old(model).sync[id].APipe?
              && |old(model).sync[id].pipe.ring| <= PIPE_BUFFER_LEN
      ensures end == loc + Min(PIPE_BUFFER_LEN - |old(model).sync[id].pipe.ring|, |src| - loc) && writer.writeLoc == end
      ensures model == Poured(old(model), id, src[loc..end], P.Accepted(call, src[loc..end])) && OffPipes(writer)
              && Known(writer)
    {
      end := PutRing(pipe, id, src, loc, call, writer);
      SetWriteLoc(writer, end);
    }

    ghost predicate HasWriter(m: M.Kernel, id: int) {
      && id in m.sync && m.sync[id].APipe? && m.sync[id].pipe.writers != []
      && |m.sync[id].pipe.ring| <= PIPE_BUFFER_LEN && m.sync[id].pipe.writers[0].loc <= |m.sync[id].pipe.writers[0].msg|
    }

    ghost function HeadWriter(m: M.Kernel, id: int): P.Writer
      requires HasWriter(m, id)
    {
      m.sync[id].pipe.writers[0]
    }

    /** How far the head writer gets. */
    ghost function FillEnd(m: M.Kernel, id: int): (end: nat)
      requires HasWriter(m, id)
      ensures HeadWriter(m, id).loc <= end <= |HeadWriter(m, id).msg|
    {
      var w := HeadWriter(m, id);
      w.loc + Min(PIPE_BUFFER_LEN - |m.sync[id].pipe.ring|, |w.msg| - w.loc)
    }

    /** The writer whose message is all in wakes up (sync.c:194-201). */
    method WakeWriter(pipe: PipeObj, ghost id: int, writer: Pcb, len: nat, ghost call: nat)
      requires Valid() && id in table && table[id] == PipeRef(pipe) && Known(writer) && OffPipes(writer)
      modifies this`model, this`readyQueue, writer
      ensures Valid() && id in old(model).sync && old(model).sync[id].APipe? && writer.pid in old(model).procs
      ensures model == M.AddToReady(Completed(Logged(old(model), id, P.Finished(writer.pid, call, len)), writer.pid,
                                              len), writer.pid)
    {
      Log(pipe, id, P.Finished(writer.pid, call, len));
      ReleaseWriter(writer, len);
      AddToReadyQueue(writer);
    }

    lemma HeadIsOff(m: P.Pipe)
      requires NoDup(Sleepers(m)) && m.writers != []
      ensures m.writers[0].pid !in Sleepers(m.(writers := m.writers[1..]))
    {
      WriterPopped(m);
    }

    /** One round of the writer drain (sync.c:166, 173-201). */
    method FillHead(pipe: PipeObj, ghost id: int) returns (fits: bool)
      requires Valid() && M.Typed(model) && id in table && table[id] == PipeRef(pipe) && |pipe.writers| != 0
      modifies this`model, this`readyQueue, pipe`writers, pipe`writePos, pipe`bytesInBuffer, pipe.buffer, pcbs.Values
      ensures Valid() && id in old(model).sync && old(model).sync[id].APipe? && old(model).sync[id].pipe.writers != []
      ensures P.Sound(old(model).sync[id].pipe) && CanDrain(old(model), id, P.FillHead(old(model).sync[id].pipe))
      ensures model == DrainTo(old(model), id, P.FillHead(old(model).sync[id].pipe))
      ensures var p := old(model).sync[id].pipe; fits <==> |P.FillHead(p).writers| < |p.writers|
    {
      PipeIsModelled(pipe, id);
      ghost var m, w := model, model.sync[id].pipe.writers[0];
      FillTyped(m, id);
      HeadIsOff(m.sync[id].pipe);
      var writer, end := FillFromHead(pipe, id);
      fits := end == writer.pipeLen;
      if fits {
        FilledInFull(m, id);
        WakeWriter(pipe, id, writer, writer.pipeLen, w.call);
      } else {
        FilledInPart(m, id, end);
        PushWriter(pipe, id, writer, w.(loc := end));
      }
    }

    // ---- the drains

    /** The model is m with the pipe called id drained as far as q. */
    ghost predicate DrainedTo(m: M.Kernel, id: int, q: P.Pipe)
      reads this
    {
      && CanDrain(m, id, q) && model == DrainTo(m, id, q)
      && id in model.sync && model.sync[id] == M.APipe(q)
    }

    lemma StartDrain(pipe: PipeObj, id: int)
      requires Valid() && M.Typed(model) && id in table && table[id] == PipeRef(pipe)
      ensures id in model.sync && model.sync[id].APipe? && P.Sound(model.sync[id].pipe)
      ensures DrainedTo(model, id, model.sync[id].pipe)
      ensures |pipe.readers| == |model.sync[id].pipe.readers| && |pipe.writers| == |model.sync[id].pipe.writers|
      ensures pipe.bytesInBuffer == |model.sync[id].pipe.ring|
    {
      PipeIsModelled(pipe, id);
      assert M.SyncTyped(model, model.sync[id]);
      DrainNowhere(model, id);
    }

    /** A further stage of a drain. */
    lemma FurtherDrain(m: M.Kernel, k: M.Kernel, id: int, q: P.Pipe, r: P.Pipe)
      requires CanDrain(m, id, q) && k == DrainTo(m, id, q) && CanDrain(k, id, r) && model == DrainTo(k, id, r)
      ensures DrainedTo(m, id, r)
    {
      DrainSync(m, id, q);
      CanDrainOn(m, id, q, r);
      DrainTwice(m, id, q, r);
      DrainSync(m, id, r);
    }

    /** The loop of the writer drain (sync.c:165-202). */
    method FillAll(pipe: PipeObj, ghost id: int)
      requires Valid() && M.Typed(model) && id in table && table[id] == PipeRef(pipe)
      modifies this`model, this`readyQueue, pipe`writers, pipe`writePos, pipe`bytesInBuffer, pipe.buffer, pcbs.Values
      ensures Valid() && id in old(model).sync && old(model).sync[id].APipe? && P.Sound(old(model).sync[id].pipe)
      ensures DrainedTo(old(model), id, P.FillRing(old(model).sync[id].pipe))
    {
      StartDrain(pipe, id);
      ghost var m, p := model, model.sync[id].pipe;
      var fits := true;
      ghost var q := p;
      while fits && |pipe.writers| != 0
        invariant Valid() && P.Sound(q) && DrainedTo(m, id, q) && |pipe.writers| == |q.writers|
        invariant P.FillRing(p) == if fits then P.FillRing(q) else q
        decreases |pipe.writers|, fits
      {
        fits := FillOne(pipe, id, m, q);
        q := P.FillHead(q);
      }
    }

    method FillOne(pipe: PipeObj, ghost id: int, ghost m: M.Kernel, ghost q: P.Pipe) returns (fits: bool)
      requires Valid() && P.Sound(q) && DrainedTo(m, id, q) && id in table && table[id] == PipeRef(pipe)
               && |pipe.writers| != 0
      modifies this`model, this`readyQueue, pipe`writers, pipe`writePos, pipe`bytesInBuffer, pipe.buffer, pcbs.Values
      ensures Valid() && q.writers != [] && DrainedTo(m, id, P.FillHead(q)) && |pipe.writers| == |P.FillHead(q).writers|
      ensures P.FillRing(q) == if fits then P.FillRing(P.FillHead(q)) else P.FillHead(q)
      ensures |pipe.writers| == old(|pipe.writers|) - if fits then 1 else 0
    {
      PipeIsModelled(pipe, id);
      ghost var k := model;
      fits := FillHead(pipe, id);
      FurtherDrain(m, k, id, q, P.FillHead(q));
      PipeIsModelled(pipe, id);
    }

    /** The loop of the reader drain (sync.c:207-234). */
    method ServeAll(pipe: PipeObj, ghost id: int)
      requires Valid() && M.Typed(model) && id in table && table[id] == PipeRef(pipe)
      modifies this`model, this`readyQueue, pipe`readers, pipe`readPos, pipe`bytesInBuffer, pcbs.Values
      ensures Valid() && id in old(model).sync && old(model).sync[id].APipe? && P.Sound(old(model).sync[id].pipe)
      ensures DrainedTo(old(model), id, P.ServeReaders(old(model).sync[id].pipe))
    {
      StartDrain(pipe, id);
      ghost var m, p := model, model.sync[id].pipe;
      ghost var q := p;
      while pipe.bytesInBuffer > 0 && |pipe.readers| != 0
        invariant Valid() && P.Sound(q) && DrainedTo(m, id, q)
        invariant |pipe.readers| == |q.readers| && pipe.bytesInBuffer == |q.ring|
        invariant P.ServeReaders(p) == P.ServeReaders(q)
        decreases |pipe.readers|
      {
        ServeOne(pipe, id, m, q);
        q := P.ServeHead(q);
      }
    }

    method ServeOne(pipe: PipeObj, ghost id: int, ghost m: M.Kernel, ghost q: P.Pipe)
      requires Valid() && P.Sound(q) && DrainedTo(m, id, q) && id in table && table[id] == PipeRef(pipe)
               && |pipe.readers| != 0
      modifies this`model, this`readyQueue, pipe`readers, pipe`readPos, pipe`bytesInBuffer, pcbs.Values
      ensures Valid() && q.readers != [] && P.Sound(P.ServeHead(q)) && DrainedTo(m, id, P.ServeHead(q))
      ensures |pipe.readers| == |P.ServeHead(q).readers| == old(|pipe.readers|) - 1
              && pipe.bytesInBuffer == |P.ServeHead(q).ring|
    {
      PipeIsModelled(pipe, id);
      ghost var k := model;
      ServeHead(pipe, id);
      FurtherDrain(m, k, id, q, P.ServeHead(q));
      PipeIsModelled(pipe, id);
    }

    /** sync.c:211 and 236: as written the readers are counted, not the writers. */
    predicate CallsWriterDrain(g: P.Guard, pipe: PipeObj)
      reads pipe
    {
      pipe.bytesInBuffer < PIPE_BUFFER_LEN && if g == P.ReadersCount then |pipe.readers| != 0 else |pipe.writers| != 0
    }

    /** SyncDrainReaders (sync.c:205-237). */
    method SyncDrainReaders(g: P.Guard, pipe: PipeObj, ghost id: int)
      requires Valid() && M.Typed(model) && id in table && table[id] == PipeRef(pipe)
      modifies this`model, this`readyQueue, pipe, pipe.buffer, pcbs.Values
      ensures Valid() && id in old(model).sync && old(model).sync[id].APipe? && P.Sound(old(model).sync[id].pipe)
      ensures DrainedTo(old(model), id, P.DrainReaders(g, old(model).sync[id].pipe))
      decreases |pipe.readers|, if pipe.bytesInBuffer != 0 && pipe.readers != [] then 0 else 2
    {
      StartDrain(pipe, id);
      ghost var m, p := model, model.sync[id].pipe;
      P.ReadersInStages(g, p);
      ServeAll(pipe, id);
      ghost var k, q := model, P.ServeReaders(p);
      StartDrain(pipe, id);
      if CallsWriterDrain(g, pipe) {
        SyncDrainWriters(g, pipe, id);
        FurtherDrain(m, k, id, q, P.DrainWriters(g, q));
      }
    }

    /** SyncDrainWriters (sync.c:163-203). */
    method SyncDrainWriters(g: P.Guard, pipe: PipeObj, ghost id: int)
      requires Valid() && M.Typed(model) && id in table && table[id] == PipeRef(pipe)
      modifies this`model, this`readyQueue, pipe, pipe.buffer, pcbs.Values
      ensures Valid() && id in old(model).sync && old(model).sync[id].APipe? && P.Sound(old(model).sync[id].pipe)
      ensures DrainedTo(old(model), id, P.DrainWriters(g, old(model).sync[id].pipe))
      decreases |pipe.readers|, 1
    {
      StartDrain(pipe, id);
      ghost var m, p := model, model.sync[id].pipe;
      P.WritersInStages(g, p);
      FillAll(pipe, id);
      ghost var k, q := model, P.FillRing(p);
      StartDrain(pipe, id);
      if pipe.bytesInBuffer != 0 && |pipe.readers| != 0 {
        SyncDrainReaders(g, pipe, id);
        FurtherDrain(m, k, id, q, P.DrainReaders(g, q));
      }
    }

    // ---- the two calls

    /** user_context.regs[0] of the current process (sync.c:153, 285). */
    method SetResult(v: int)
      requires Valid()
      modifies this`model, current`reg0
      ensures Valid() && model == M.Put(old(model), old(model).cur, old(model).procs[old(model).cur].(reg0 := v))
    {
      current.reg0 := v;
      model := M.Put(model, model.cur, model.procs[model.cur].(reg0 := v));
      OnlyProc(current);
    }

    /** Only the history is written: the request of the current process. */
    ghost method NoteRequest(pipe: PipeObj, id: int, want: nat)
      requires Valid() && id in table && table[id] == PipeRef(pipe)
      modifies this`model
      ensures Valid() && id in old(model).sync && old(model).sync[id].APipe? && model == Requested(old(model), id, want)
    {
      PipeIsModelled(pipe, id);
      model := Requested(model, id, want);
      OnlyObj(id);
    }

    ghost function Requested(m: M.Kernel, id: int, want: nat): M.Kernel
      requires id in m.sync && m.sync[id].APipe?
    {
      var p := m.sync[id].pipe;
      M.Store(m, id, M.APipe(p.(asks := p.asks + [P.Reader(m.cur, want)])))
    }

    /** The fields of a process that is about to sleep at a pipe (sync.c:133-138, 272-276). */
    method BlockOnPipe(id: int, buf: seq<Byte>)
      requires Valid() && OffPipes(current)
      modifies this`model, current
      ensures Valid() && current.waitingPipe == id && current.pipeBuffer == buf && current.pipeLen == |buf|
      ensures current.writeLoc == old(current.writeLoc) && OffPipes(current)
      ensures old(model).cur in old(model).procs && model == AsleepAt(old(model), id, buf)
    {
      SleptInTwo(model, id, buf);
      SetBuffer(current, buf);
      SleepAtPipe(id);
    }

    method SleepAtPipe(id: int)
      requires Valid() && OffPipes(current)
      modifies this`model, current`waitingPipe, current`state
      ensures Valid() && current.waitingPipe == id && OffPipes(current) && old(model).cur in old(model).procs
      ensures model == M.Put(old(model), old(model).cur,
                             old(model).procs[old(model).cur].(waitPipe := id, st := M.BLOCKED))
    {
      current.waitingPipe := id;
      current.state := M.BLOCKED;
      model := M.Put(model, model.cur, model.procs[model.cur].(waitPipe := id, st := M.BLOCKED));
      OnlySleeper(current);
    }

    lemma SleepersJoin(s: seq<Pid>, t: seq<Pid>, x: Pid)
      requires NoDup(s) && x !in s && multiset(t) == multiset(s) + multiset([x])
      ensures NoDup(t)
    {
      Members(t, s, [x]);
    }

    ghost function ReaderQueued(m: M.Kernel, id: int, want: nat): M.Kernel
      requires id in m.sync && m.sync[id].APipe?
    {
      var p := m.sync[id].pipe;
      M.Store(m, id, M.APipe(p.(readers := p.readers + [P.Reader(m.cur, want)])))
    }

    twostate lemma ReaderJoined(pipe: PipeObj, new id: int, new p: P.Pipe)
      requires old(PipeQueues(pipe, p, id)) && SleepersSame({}) && Known(current)
      requires pipe.readers == old(pipe.readers) + [current] && pipe.writers == old(pipe.writers)
      requires current.waitingPipe == id && current.pipeLen == |current.pipeBuffer| && current.pid !in Sleepers(p)
      ensures PipeQueues(pipe, p.(readers := p.readers + [P.Reader(current.pid, current.pipeLen)]), id)
    {
      var q := p.(readers := p.readers + [P.Reader(current.pid, current.pipeLen)]);
      assert ReaderPids(q.readers) == ReaderPids(p.readers) + [current.pid];
      SleepersJoin(Sleepers(p), Sleepers(q), current.pid);
    }

    twostate lemma WriterIsQueued(pipe: PipeObj, new id: int, new p: P.Pipe, new w: P.Writer)
      requires old(PipeQueues(pipe, p, id)) && SleepersSame({}) && Known(current)
      requires pipe.writers == old(pipe.writers) + [current] && pipe.readers == old(pipe.readers)
      requires current.pid == w.pid && current.waitingPipe == id && w.pid !in Sleepers(p)
      requires current.pipeBuffer == w.msg && current.pipeLen == |w.msg| && current.writeLoc == w.loc <= |w.msg|
      ensures PipeQueues(pipe, p.(writers := p.writers + [w]), id)
    {
      var q := p.(writers := p.writers + [w]);
      assert WriterPids(q.writers) == WriterPids(p.writers) + [current.pid];
      SleepersJoin(Sleepers(p), Sleepers(q), current.pid);
    }

    /** The current process joins the readers (sync.c:137). */
    method QueueReader(pipe: PipeObj, ghost id: int)
      requires Valid() && id in table && table[id] == PipeRef(pipe)
      requires current.waitingPipe == id && current.pipeLen == |current.pipeBuffer|
      requires id in model.sync && model.sync[id].APipe? && current.pid !in Sleepers(model.sync[id].pipe)
      modifies this`model, pipe`readers
      ensures Valid() && id in old(model).sync && old(model).sync[id].APipe?
              && model == ReaderQueued(old(model), id, |current.pipeBuffer|)
    {
      PipeIsModelled(pipe, id);
      ghost var p := model.sync[id].pipe;
      pipe.readers := pipe.readers + [current];
      model := ReaderQueued(model, id, current.pipeLen);
      ReaderJoined(pipe, id, p);
      pipe.RingStays(p.ring);
      OnlyObj(id);
    }

    ghost function WriterJoined(m: M.Kernel, id: int, w: P.Writer): M.Kernel
      requires id in m.sync && m.sync[id].APipe?
    {
      var p := m.sync[id].pipe;
      M.Store(m, id, M.APipe(p.(writers := p.writers + [w])))
    }

    /** The current process joins the writers (sync.c:277). */
    method QueueWriter(pipe: PipeObj, ghost id: int, ghost w: P.Writer)
      requires Valid() && id in table && table[id] == PipeRef(pipe)
      requires current.pid == w.pid && current.waitingPipe == id
      requires current.pipeBuffer == w.msg && current.pipeLen == |w.msg| && current.writeLoc == w.loc <= |w.msg|
      requires id in model.sync && model.sync[id].APipe? && current.pid !in Sleepers(model.sync[id].pipe)
      modifies this`model, pipe`writers
      ensures Valid() && id in old(model).sync && old(model).sync[id].APipe? && model == WriterJoined(old(model), id, w)
    {
      PipeIsModelled(pipe, id);
      ghost var p := model.sync[id].pipe;
      pipe.writers := pipe.writers + [current];
      model := WriterJoined(model, id, w);
      WriterIsQueued(pipe, id, p, w);
      pipe.RingStays(p.ring);
      OnlyObj(id);
    }

    lemma AwakeIsOff(x: Pcb, pipe: PipeObj, id: int)
      requires Valid() && Known(x) && x.waitingPipe == -1 && id in table && table[id] == PipeRef(pipe)
      ensures OffPipes(x) && id in model.sync && model.sync[id].APipe? && x.pid !in Sleepers(model.sync[id].pipe)
    {
      OffPipesByField(x);
      PipeIsModelled(pipe, id);
      var m := model.sync[id].pipe;
      forall i | 0 <= i < |Sleepers(m)|
        ensures Sleepers(m)[i] != x.pid
      {
        var s := if i < |m.readers| then pipe.readers[i] else pipe.writers[i - |m.readers|];
        assert Known(s) && s.pid == Sleepers(m)[i] && s.waitingPipe == id;
      }
    }

    ghost function AsleepAt(m: M.Kernel, id: int, buf: seq<Byte>): M.Kernel
      requires m.cur in m.procs
    {
      M.Put(m, m.cur, m.procs[m.cur].(waitPipe := id, buf := buf, st := M.BLOCKED))
    }

    lemma ReadSleeps(g: P.Guard, k: M.Kernel, id: int, buf: seq<Byte>)
      requires M.Typed(k) && id in k.sync && k.sync[id].APipe? && k.sync[id].pipe.ring == []
      ensures (ReaderQueued(AsleepAt(Requested(k, id, |buf|), id, buf), id, |buf|), M.PCB_BLOCKED)
              == M.SyncReadPipe(g, k, id, buf)
    {
      assert M.SyncTyped(k, k.sync[id]);
      ReadAccounted(g, k.sync[id].pipe, k.cur, |buf|);
      var q := P.Read(g, k.sync[id].pipe, k.cur, |buf|).0;
      assert ReaderQueued(AsleepAt(Requested(k, id, |buf|), id, buf), id, |buf|).sync == k.sync[id := M.APipe(q)];
    }

    /** The reader finds nothing and sleeps (sync.c:131-142). */
    method ReadLater(g: P.Guard, pipe: PipeObj, id: int, buf: seq<Byte>)
      requires Valid() && M.Typed(model) && id in table && table[id] == PipeRef(pipe)
      requires pipe.bytesInBuffer == 0 && current.waitingPipe == -1
      modifies this`model, pipe, current
      ensures Valid() && M.PipeOrNone(old(model), id)
              && (model, M.PCB_BLOCKED) == M.SyncReadPipe(g, old(model), id, buf)
    {
      AwakeIsOff(current, pipe, id);
      PipeIsModelled(pipe, id);
      ReadSleeps(g, model, id, buf);
      NoteRequest(pipe, id, |buf|);
      BlockOnPipe(id, buf);
      QueueReader(pipe, id);
    }

    /** The reader takes what is there, and the writers move up (sync.c:144-156). */
    method ReadNow(g: P.Guard, pipe: PipeObj, ghost id: int, len: nat) returns (got: seq<Byte>)
      requires Valid() && M.Typed(model) && id in table && table[id] == PipeRef(pipe)
      modifies this`model, this`readyQueue, pipe, pipe.buffer, pcbs.Values
      ensures Valid() && id in old(model).sync && old(model).sync[id].APipe?
      ensures got == old(model).sync[id].pipe.ring[..Min(len, |old(model).sync[id].pipe.ring|)]
      ensures var k1 := AfterTake(old(model), id, len);
              && M.Typed(k1) && id in k1.sync && k1.sync[id].APipe? && P.Sound(k1.sync[id].pipe)
              && DrainedTo(k1, id, P.DrainWriters(g, k1.sync[id].pipe))
    {
      PipeIsModelled(pipe, id);
      TakeTyped(model, id, len);
      got := TakeOwn(pipe, id, len);
      SyncDrainWriters(g, pipe, id);
    }

    /** The reader's own copy (sync.c:144-155). */
    method TakeOwn(pipe: PipeObj, ghost id: int, len: nat) returns (got: seq<Byte>)
      requires Valid() && M.Typed(model) && id in table && table[id] == PipeRef(pipe)
      modifies this`model, pipe`readPos, pipe`bytesInBuffer, current`reg0
      ensures Valid() && id in old(model).sync && old(model).sync[id].APipe? && model == AfterTake(old(model), id, len)
      ensures got == old(model).sync[id].pipe.ring[..Min(len, |old(model).sync[id].pipe.ring|)]
    {
      PipeIsModelled(pipe, id);
      TakeInStages(model, id, len);
      var toRead := Min(len, pipe.bytesInBuffer);
      got := TakeRing(pipe, id, toRead, P.Taken(current.pid, len, model.sync[id].pipe.ring[..toRead]), current);
      NoteRequest(pipe, id, len);
      SetResult(toRead);
    }

    lemma TakeInStages(k: M.Kernel, id: int, len: nat)
      requires M.Typed(k) && id in k.sync && k.sync[id].APipe?
      ensures var n := Min(len, |k.sync[id].pipe.ring|);
              var m := Requested(Drawn(k, id, n, P.Taken(k.cur, len, k.sync[id].pipe.ring[..n])), id, len);
              M.Put(m, m.cur, m.procs[m.cur].(reg0 := n)) == AfterTake(k, id, len)
    {}

    lemma TakeTyped(k: M.Kernel, id: int, len: nat)
      requires M.Typed(k) && id in k.sync && k.sync[id].APipe?
      ensures M.Typed(AfterTake(k, id, len))
    {
      assert M.SyncTyped(k, k.sync[id]);
      var p, t := k.sync[id].pipe, AfterTake(k, id, len).sync[id].pipe;
      TakeAccounted(p, k.cur, len);
      assert Sleepers(t) == Sleepers(p);
    }

    ghost function PipeSet(id: int): set<object>
      reads this
    {
      if id in table && table[id].PipeRef? then {table[id].pipe, table[id].pipe.buffer} else {}
    }

    /** SyncReadPipe into a buffer `buf` (sync.c:108-161); `got` is what it holds when the call does
        not block. */
    method SyncReadPipe(g: P.Guard, pipeId: int, buf: seq<Byte>) returns (rc: int, got: seq<Byte>)
      requires Valid() && M.Typed(model) && M.PipeOrNone(model, pipeId) && current.waitingPipe == -1
      modifies this`model, this`readyQueue, PipeSet(pipeId), pcbs.Values
      ensures Valid() && (model, rc) == M.SyncReadPipe(g, old(model), pipeId, buf)
      ensures rc == SUCCESS ==> (
                && pipeId in old(model).sync
                && got == old(model).sync[pipeId].pipe.ring[..Min(|buf|, |old(model).sync[pipeId].pipe.ring|)])
    {
      got := [];
      if pipeId !in table {
        return ERROR, got;
      }
      assert ObjLinked(table[pipeId], model.sync[pipeId], pipeId);
      var pipe := table[pipeId].pipe;
      if !pipe.openForRead {
        return ERROR, got;
      }
      if pipe.bytesInBuffer == 0 {
        ReadLater(g, pipe, pipeId, buf);
        return M.PCB_BLOCKED, got;
      }
      ReadInStages(g, model, pipeId, buf);
      got := ReadNow(g, pipe, pipeId, |buf|);
      return SUCCESS, got;
    }

    /** Only the history is written: the message of the current process. */
    ghost method NoteMessage(pipe: PipeObj, id: int, msg: seq<Byte>)
      requires Valid() && id in table && table[id] == PipeRef(pipe)
      modifies this`model
      ensures Valid() && id in old(model).sync && old(model).sync[id].APipe? && model == Sent(old(model), id, msg)
    {
      PipeIsModelled(pipe, id);
      model := Sent(model, id, msg);
      OnlyObj(id);
    }

    ghost function Sent(m: M.Kernel, id: int, msg: seq<Byte>): M.Kernel
      requires id in m.sync && m.sync[id].APipe?
    {
      var p := m.sync[id].pipe;
      M.Store(m, id, M.APipe(p.(calls := p.calls + [msg])))
    }

    /** What the writer copies itself (sync.c:255-268). */
    ghost function OwnCopy(m: M.Kernel, id: int, msg: seq<Byte>, end: nat): M.Kernel
      requires id in m.sync && m.sync[id].APipe? && end <= |msg|
    {
      Sent(Poured(m, id, msg[..end], P.Accepted(|m.sync[id].pipe.calls|, msg[..end])), id, msg)
    }

    method EnterPipe(pipe: PipeObj, ghost id: int, buf: seq<Byte>) returns (end: nat)
      requires Valid() && id in table && table[id] == PipeRef(pipe) && OffPipes(current)
      modifies this`model, pipe`writePos, pipe`bytesInBuffer, pipe.buffer, current`writeLoc
      ensures Valid() && id in old(model).sync && old(model).sync[id].APipe?
              && |old(model).sync[id].pipe.ring| <= PIPE_BUFFER_LEN
      ensures end == Min(PIPE_BUFFER_LEN - |old(model).sync[id].pipe.ring|, |buf|) && current.writeLoc == end
      ensures model == OwnCopy(old(model), id, buf, end) && OffPipes(current)
    {
      PipeIsModelled(pipe, id);
      ghost var call := |model.sync[id].pipe.calls|;
      end := Pour(pipe, id, current, buf, 0, call);
      assert buf[0..end] == buf[..end];
      NoteMessage(pipe, id, buf);
    }

    lemma WriteFits(k: M.Kernel, id: int, msg: seq<Byte>)
      requires M.Typed(k) && id in k.sync && k.sync[id].APipe? && P.Sound(k.sync[id].pipe)
               && !P.WriteBlocks(k.sync[id].pipe, msg)
      ensures var m := OwnCopy(k, id, msg, |msg|);
              M.Put(m, m.cur, m.procs[m.cur].(reg0 := |msg|)) == AfterEnter(k, id, msg)
    {
      assert msg[..|msg|] == msg;
      assert OwnCopy(k, id, msg, |msg|).sync[id].pipe == P.Enter(k.sync[id].pipe, k.cur, msg);
    }

    lemma WriteSleeps(k: M.Kernel, id: int, msg: seq<Byte>, end: nat)
      requires M.Typed(k) && id in k.sync && k.sync[id].APipe? && P.Sound(k.sync[id].pipe)
               && P.WriteBlocks(k.sync[id].pipe, msg)
      requires end == PIPE_BUFFER_LEN - |k.sync[id].pipe.ring| < |msg|
      ensures WriterJoined(AsleepAt(OwnCopy(k, id, msg, end), id, msg), id,
                           P.Writer(k.cur, |k.sync[id].pipe.calls|, msg, end)) == AfterEnter(k, id, msg)
    {
      var m := WriterJoined(AsleepAt(OwnCopy(k, id, msg, end), id, msg), id,
                            P.Writer(k.cur, |k.sync[id].pipe.calls|, msg, end));
      assert m.sync[id].pipe == P.Enter(k.sync[id].pipe, k.cur, msg);
    }

    /** SyncWritePipe up to its drain (sync.c:255-278, 285). */
    method Enter(pipe: PipeObj, id: int, buf: seq<Byte>) returns (blocked: bool)
      requires Valid() && M.Typed(model) && id in table && table[id] == PipeRef(pipe) && current.waitingPipe == -1
      modifies this`model, pipe, pipe.buffer, current
      ensures Valid() && id in old(model).sync && old(model).sync[id].APipe? && P.Sound(old(model).sync[id].pipe)
      ensures blocked == P.WriteBlocks(old(model).sync[id].pipe, buf)
      ensures model == AfterEnter(old(model), id, buf)
    {
      StartDrain(pipe, id);
      AwakeIsOff(current, pipe, id);
      ghost var k := model;
      var end := EnterPipe(pipe, id, buf);
      blocked := end < |buf|;
      if blocked {
        WriteSleeps(k, id, buf, end);
        SleepAsWriter(pipe, id, buf, end, |k.sync[id].pipe.calls|);
      } else {
        WriteFits(k, id, buf);
        SetResult(|buf|);
      }
    }

    /** The writer blocks, `end` bytes of its message being in (sync.c:271-278). */
    method SleepAsWriter(pipe: PipeObj, id: int, buf: seq<Byte>, ghost end: nat, ghost call: nat)
      requires Valid() && id in table && table[id] == PipeRef(pipe) && OffPipes(current)
               && current.writeLoc == end <= |buf|
      requires id in model.sync && model.sync[id].APipe? && current.pid !in Sleepers(model.sync[id].pipe)
      modifies this`model, pipe`writers, current
      ensures Valid() && id in old(model).sync && old(model).sync[id].APipe? && old(model).cur in old(model).procs
      ensures model == WriterJoined(AsleepAt(old(model), id, buf), id, P.Writer(old(model).cur, call, buf, end))
    {
      ghost var w := P.Writer(model.cur, call, buf, end);
      BlockOnPipe(id, buf);
      QueueWriter(pipe, id, w);
    }

    /** SyncWritePipe once the pipe is found (sync.c:255-288). */
    method WriteTo(g: P.Guard, pipe: PipeObj, id: int, buf: seq<Byte>) returns (rc: int)
      requires Valid() && M.Typed(model) && id in table && table[id] == PipeRef(pipe) && current.waitingPipe == -1
      modifies this`model, this`readyQueue, pipe, pipe.buffer, pcbs.Values
      ensures Valid() && M.PipeOrNone(old(model), id) && (model, rc) == M.SyncWritePipe(g, old(model), id, buf)
    {
      PipeIsModelled(pipe, id);
      WriteInStages(g, model, id, buf);
      var blocked := Enter(pipe, id, buf);
      SyncDrainReaders(g, pipe, id);
      return if blocked then M.PCB_BLOCKED else SUCCESS;
    }

    /** SyncWritePipe of the bytes in `buf` (sync.c:240-288). */
    method SyncWritePipe(g: P.Guard, pipeId: int, buf: seq<Byte>) returns (rc: int)
      requires Valid() && M.Typed(model) && M.PipeOrNone(model, pipeId) && current.waitingPipe == -1
      modifies this`model, this`readyQueue, PipeSet(pipeId), pcbs.Values
      ensures Valid() && (model, rc) == M.SyncWritePipe(g, old(model), pipeId, buf)
    {
      if pipeId !in table {
        return ERROR;
      }
      assert ObjLinked(table[pipeId], model.sync[pipeId], pipeId);
      var pipe := table[pipeId].pipe;
      if !pipe.openForWrite {
        return ERROR;
      }
      rc := WriteTo(g, pipe, pipeId, buf);
    }

    // -------------------------------------------------------------- sync.c: the table

    /** GetNewID's search (sync.c:597-605). */
    method NewId() returns (id: int)
      requires Valid()
      ensures id == M.FreeId(model, 0) && (id != ERROR ==> id >= 0 && id !in table)
      ensures Valid() && Repr() == old(Repr())
    {
      var i := 0;
      while i < M.MAX_SYNCS
        invariant 0 <= i <= M.MAX_SYNCS && M.FreeId(model, 0) == M.FreeId(model, i)
      {
        if i !in table {
          return i;
        }
        i := i + 1;
      }
      return ERROR;
    }

    twostate predicate AllSame()
      reads *
    {
      && pcbs == old(pcbs) && current == old(current) && readyQueue == old(readyQueue)
      && delayQueue == old(delayQueue) && frame == old(frame)
      && forall x <- old(Repr()) :: unchanged(x)
    }

    twostate lemma KeptObj(o: Obj, new s: M.Sync, new j: int)
      requires old(ObjLinked(o, s, j)) && SleepersSame({}) && unchanged(o.Ref())
               && (o.PipeRef? ==> unchanged(o.pipe.buffer))
      ensures ObjLinked(o, s, j)
    {}

    twostate lemma SleepersStay()
      requires AllSame()
      ensures SleepersSame({})
    {
      forall pid <- pcbs
        ensures unchanged(pcbs[pid])
      {
        assert pcbs[pid] in old(Repr());
      }
    }

    twostate lemma OldObjStays(j: int)
      requires old(TableLinked()) && AllSame()
      requires j in old(table) && j in table && table[j] == old(table)[j]
      requires j in model.sync && j in old(model).sync && model.sync[j] == old(model).sync[j]
      ensures 0 <= j && ObjLinked(table[j], model.sync[j], j)
    {
      SleepersStay();
      assert old(table)[j].Ref() in old(Repr());
      if table[j].PipeRef? { assert old(table)[j].pipe.buffer in old(Repr()); }
      assert old(ObjLinked(table[j], model.sync[j], j));
      KeptObj(table[j], model.sync[j], j);
    }

    twostate lemma ProcsStay()
      requires old(ProcsLinked()) && AllSame() && model.procs == old(model).procs
      ensures ProcsLinked()
    {
      forall pid <- pcbs
        ensures pcbs[pid].pid == pid && pcbs[pid].Val() == model.procs[pid]
      {
        assert pcbs[pid] in old(Repr());
      }
    }

    twostate lemma OneMoreObject(id: int)
      requires old(Valid()) && AllSame() && id >= 0 && id !in old(table) && id in table
               && table == old(table)[id := table[id]]
      requires id in model.sync && model == old(model).(sync := old(model).sync[id := model.sync[id]])
      requires forall x <- old(Repr()) :: table[id].Ref() != x && (table[id].PipeRef? ==> table[id].pipe.buffer != x)
      requires ObjLinked(table[id], model.sync[id], id)
      ensures Valid()
    {
      ProcsStay();
      forall j <- table
        ensures 0 <= j && ObjLinked(table[j], model.sync[j], j)
      {
        if j != id { OldObjStays(j); }
      }
      OthersApart(id);
    }

    twostate lemma OthersApart(id: int)
      requires old(Apart()) && id !in old(table) && id in table && table == old(table)[id := table[id]]
      requires forall x <- old(Repr()) :: table[id].Ref() != x && (table[id].PipeRef? ==> table[id].pipe.buffer != x)
      ensures Apart()
    {
      forall j <- table
        ensures j != id ==> table[j].Ref() != table[id].Ref()
        ensures j != id && table[j].PipeRef? && table[id].PipeRef? ==> table[j].pipe.buffer != table[id].pipe.buffer
      {
        if j != id {
          assert old(table)[j].Ref() in old(Repr());
          if table[j].PipeRef? { assert table[j].pipe.buffer in old(Repr()); }
        }
      }
    }

    /** An object as the initializers leave it (sync.c:81-87, 302-304, 407). */
    ghost predicate JustMade(o: Obj, s: M.Sync)
      reads o.Ref(), if o.PipeRef? then {o.pipe.buffer} else {}
    {
      match o
      case PipeRef(p) =>
        && s == M.APipe(P.EMPTY) && p.Holds([]) && p.readers == [] && p.writers == []
        && p.openForRead && p.openForWrite
      case LockRef(l) => s == M.ALock(L.FREE) && !l.locked && l.owner == null && l.waiters == []
      case CvarRef(c) => s == M.ACvar(L.QUIET) && c.waiters == []
    }

    lemma BlankLinked(o: Obj, s: M.Sync, id: int)
      requires JustMade(o, s)
      ensures ObjLinked(o, s, id)
    {}

    /** The object goes into the table (sync.c:30-48). */
    method Register(o: Obj, ghost s: M.Sync, id: int)
      requires Valid() && JustMade(o, s) && id >= 0 && id !in table
      requires o.Ref() !in Repr() && (o.PipeRef? ==> o.pipe.buffer !in Repr())
      modifies this`table, this`model
      ensures Valid() && model == M.Store(old(model), id, s)
    {
      table := table[id := o];
      model := M.Store(model, id, s);
      BlankLinked(o, s, id);
      OneMoreObject(id);
    }

    lemma TableSize()
      requires Valid()
      ensures |table| == |model.sync|
    {
      assert |table| == |table.Keys| && |model.sync| == |model.sync.Keys|;
    }

    ghost predicate New(s: M.Sync) {
      s == M.APipe(P.EMPTY) || s == M.ALock(L.FREE) || s == M.ACvar(L.QUIET)
    }

    lemma InitIs(k: M.Kernel, s: M.Sync)
      requires M.Typed(k)
      requires New(s)
      ensures var id := M.FreeId(k, 0);
              M.SyncInit(k, s) == if |k.sync| >= M.MAX_SYNCS || id == ERROR then (k, ERROR)
                  else (M.Store(k, id, s), SUCCESS)
    {}

    /** InitSyncObject (sync.c:12-51), behind its callers' check of the counter. */
    method InitSyncObject(o: Obj, ghost s: M.Sync) returns (rc: int)
      requires Valid() && M.Typed(model) && JustMade(o, s)
      requires o.Ref() !in Repr() && (o.PipeRef? ==> o.pipe.buffer !in Repr())
      modifies this`table, this`model
      ensures Valid() && New(s) && (model, rc) == M.SyncInit(old(model), s)
    {
      InitIs(model, s);
      TableSize();
      if |table| >= M.MAX_SYNCS {
        rc := ERROR;
      } else {
        rc := TakeId(o, s);
      }
    }

    method TakeId(o: Obj, ghost s: M.Sync) returns (rc: int)
      requires Valid() && JustMade(o, s)
      requires o.Ref() !in Repr() && (o.PipeRef? ==> o.pipe.buffer !in Repr())
      modifies this`table, this`model
      ensures Valid()
      ensures var id := M.FreeId(old(model), 0);
              (model, rc) == if id == ERROR then (old(model), ERROR) else (M.Store(old(model), id, s), SUCCESS)
    {
      var id := NewId();
      if id == ERROR {
        return ERROR;
      }
      Register(o, s, id);
      return SUCCESS;
    }

    method SyncInitPipe() returns (rc: int)
      requires Valid() && M.Typed(model)
      modifies this`table, this`model
      ensures Valid() && (model, rc) == M.SyncInit(old(model), M.APipe(P.EMPTY))
    {
      var pipe := new PipeObj();
      UnchangedValid();
      rc := InitSyncObject(PipeRef(pipe), M.APipe(P.EMPTY));
    }

    method SyncInitLock() returns (rc: int)
      requires Valid() && M.Typed(model)
      modifies this`table, this`model
      ensures Valid() && (model, rc) == M.SyncInit(old(model), M.ALock(L.FREE))
    {
      var lock := new LockObj();
      UnchangedValid();
      rc := InitSyncObject(LockRef(lock), M.ALock(L.FREE));
    }

    method SyncInitCvar() returns (rc: int)
      requires Valid() && M.Typed(model)
      modifies this`table, this`model
      ensures Valid() && (model, rc) == M.SyncInit(old(model), M.ACvar(L.QUIET))
    {
      var cvar := new CvarObj();
      UnchangedValid();
      rc := InitSyncObject(CvarRef(cvar), M.ACvar(L.QUIET));
    }

    twostate lemma UnchangedValid()
      requires old(Valid()) && AllSame() && model == old(model) && table == old(table)
      ensures Valid() && Repr() == old(Repr())
    {
      ProcsStay();
      forall j <- table
        ensures 0 <= j && ObjLinked(table[j], model.sync[j], j)
      {
        OldObjStays(j);
      }
    }

    twostate lemma OneObjectLess(id: int)
      requires old(Valid()) && AllSame() && table == old(table) - {id} && model == M.SyncReclaim(old(model), id).0
      requires id in old(table) && M.Typed(old(model))
      ensures Valid()
    {
      ProcsStay();
      forall j <- table
        ensures 0 <= j && ObjLinked(table[j], model.sync[j], j)
      {
        assert j in old(table);
        OldObjStays(j);
      }
    }

    /** SyncReclaim (sync.c:547-592): whoever still waits on the object is forgotten with it. */
    method SyncReclaim(id: int) returns (rc: int)
      requires Valid() && M.Typed(model)
      modifies this`table, this`model
      ensures Valid() && (model, rc) == M.SyncReclaim(old(model), id)
    {
      if id !in table {
        return ERROR;
      }
      DropObject(id);
      return SUCCESS;
    }

    lemma NotOwnPart()
      ensures this !in Repr()
    {}

    method DropObject(id: int)
      requires Valid() && M.Typed(model) && id in table
      modifies this`table, this`model
      ensures Valid() && model == M.SyncReclaim(old(model), id).0
    {
      NotOwnPart();
      table := table - {id};
      model := M.SyncReclaim(model, id).0;
      OneObjectLess(id);
    }

    // -------------------------------------------------------------- syscalls.c

    /** uctxt->regs[0] := v. */
    method SetFrame(v: int)
      requires Valid()
      modifies this`frame, this`model
      ensures Valid() && model == old(model).(frame := v)
    {
      frame := v;
      model := model.(frame := v);
      TableStays();
    }

    lemma DelayStep(g: P.Guard, requeue: bool, k: M.Kernel, ticks: int)
      requires M.Typed(k) && M.Possible(k, M.SysDelay(ticks)) && ticks >= 0
      ensures var f := k.(frame := 0);
              M.Typed(f) &&
              if ticks == 0 then M.Step(g, requeue, k, M.SysDelay(ticks)) == f
              else M.Typed(M.AddToDelay(M.SetAside(f), k.cur, ticks)) &&
                   M.Step(g, requeue, k, M.SysDelay(ticks)) == M.Schedule(M.AddToDelay(M.SetAside(f), k.cur, ticks))
    {
      var f := M.Delay(k, ticks);
    }

    /** SysDelay (syscalls.c:217-244). */
    method SysDelay(delay: int, ghost g: P.Guard, ghost requeue: bool)
      requires Valid() && M.Typed(model) && M.Possible(model, M.SysDelay(delay))
      modifies this`current, this`readyQueue, this`delayQueue, this`frame, this`model, pcbs.Values
      ensures Valid() && model == M.Step(g, requeue, old(model), M.SysDelay(delay))
    {
      if delay < 0 {
        SetFrame(ERROR);
        return;
      }
      DelayStep(g, requeue, model, delay);
      SetFrame(0);
      if delay != 0 {
        SleepFor(delay);
      }
    }

    /** syscalls.c:237-243. */
    method SleepFor(delay: int)
      requires Valid() && M.Typed(model)
      modifies this`current, this`readyQueue, this`delayQueue, this`frame, this`model, pcbs.Values
      ensures Valid() && M.Typed(M.AddToDelay(M.SetAside(old(model)), old(model).cur, delay))
      ensures model == M.Schedule(M.AddToDelay(M.SetAside(old(model)), old(model).cur, delay))
    {
      DelayTyped(model, delay);
      SetAsideAndDelay(delay);
      Schedule();
    }

    lemma DelayTyped(k: M.Kernel, delay: int)
      requires M.Typed(k)
      ensures M.Typed(M.AddToDelay(M.SetAside(k), k.cur, delay))
    {}

    /** syscalls.c:237-240. */
    method SetAsideAndDelay(delay: int)
      requires Valid() && M.Typed(model)
      modifies this`delayQueue, this`model, current`state, current`delayTicks
      ensures Valid() && model == M.AddToDelay(M.SetAside(old(model)), old(model).cur, delay)
    {
      SetAside();
      AddToDelayQueue(current, delay);
    }

    twostate lemma OneMoreProcess(new p: Pcb)
      requires old(Valid()) && p.pid !in old(pcbs) && pcbs == old(pcbs)[p.pid := p]
      requires (forall x <- old(Repr()) :: unchanged(x)) && table == old(table)
      requires current == old(current) && readyQueue == old(readyQueue) && delayQueue == old(delayQueue)
               && frame == old(frame)
      requires model == M.Put(old(model), p.pid, p.Val())
      ensures Valid()
    {
      forall pid <- pcbs
        ensures pcbs[pid].pid == pid && pcbs[pid].Val() == model.procs[pid]
      {
        if pid != p.pid { assert old(pcbs)[pid] in old(Repr()); }
      }
      forall j <- table
        ensures 0 <= j && ObjLinked(table[j], model.sync[j], j)
      {
        ObjSeesMore(p, j);
      }
    }

    twostate lemma ObjSeesMore(new p: Pcb, j: int)
      requires old(TableLinked()) && p.pid !in old(pcbs) && pcbs == old(pcbs)[p.pid := p]
      requires (forall x <- old(Repr()) :: unchanged(x)) && table == old(table) && j in table
      requires j in model.sync && j in old(model).sync && model.sync[j] == old(model).sync[j]
      ensures ObjLinked(table[j], model.sync[j], j)
    {
      assert old(ObjLinked(table[j], model.sync[j], j));
      assert table[j].Ref() in old(Repr());
      if table[j].PipeRef? { assert table[j].pipe.buffer in old(Repr()); }
      forall pid <- old(pcbs)
        ensures unchanged(old(pcbs)[pid])
      {
        assert old(pcbs)[pid] in old(Repr());
      }
    }

    /** create_pcb for a pid of the hardware's choice (pcb.c:34-90). */
    method CreatePcb(pid: Pid) returns (p: Pcb)
      requires Valid() && pid !in model.procs
      modifies this`pcbs, this`model
      ensures Valid() && Known(p) && fresh(p) && p.pid == pid && pcbs == old(pcbs)[pid := p]
      ensures model == M.Put(old(model), pid,
                             M.Proc(M.DEFAULT, 0, M.DEFAULT_TIMESLICE, 0, old(model).frame, -1, -1, -1, []))
    {
      p := new Pcb(pid, frame);
      pcbs := pcbs[pid := p];
      model := M.Put(model, pid, p.Val());
      OneMoreProcess(p);
    }

    /** SysFork, as far as the queues go (syscalls.c:53-73). */
    method SysFork(child: Pid)
      requires Valid() && M.Typed(model) && child !in model.procs
      modifies this`pcbs, this`readyQueue, this`frame, this`model
      ensures Valid() && model == M.Fork(old(model), child)
    {
      var childPcb := CreatePcb(child);
      AddToReadyQueue(childPcb);
      SetFrame(child);
    }

    /** SysPipeRead with malloc's `kbuf` (syscalls.c:289-314): a blocked result schedules. */
    method SysPipeRead(g: P.Guard, id: int, kbuf: seq<Byte>, ghost requeue: bool, ghost lost: set<Pid>)
      requires Valid() && Settled(model, lost) && M.Possible(model, M.SysPipeRead(id, kbuf))
      modifies this`current, this`readyQueue, this`frame, this`model, PipeSet(id), pcbs.Values
      ensures Valid() && model == M.Step(g, requeue, old(model), M.SysPipeRead(id, kbuf))
    {
      RunsAwake(lost);
      KernelApart(id);
      var rc, got := SyncReadPipe(g, id, kbuf);
      if rc == M.PCB_BLOCKED {
        Schedule();
      }
    }

    lemma WriteStep(g: P.Guard, requeue: bool, k: M.Kernel, id: int, msg: seq<Byte>)
      requires M.Typed(k) && M.Possible(k, M.SysPipeWrite(id, msg))
      ensures M.PipeOrNone(k, id)
      ensures var r := M.SyncWritePipe(g, k, id, msg);
              M.Step(g, requeue, k, M.SysPipeWrite(id, msg)) == if r.1 == M.PCB_BLOCKED then M.Schedule(r.0) else r.0
    {}

    lemma WaitStep(g: P.Guard, requeue: bool, k: M.Kernel, cvar: int, lock: int)
      requires M.Typed(k) && M.Possible(k, M.SysCvarWait(cvar, lock))
      ensures M.CvarOrNone(k, cvar) && M.LockOrNone(k, lock)
      ensures var r := M.SyncCvarWait(k, cvar, lock);
              M.Step(g, requeue, k, M.SysCvarWait(cvar, lock)) == if r.1 == ERROR then r.0.(frame := ERROR)
                  else M.Schedule(r.0)
    {}

    /** SysPipeWrite of what memcpy put in `kbuf` (syscalls.c:316-340). */
    method SysPipeWrite(g: P.Guard, id: int, kbuf: seq<Byte>, ghost requeue: bool, ghost lost: set<Pid>)
      requires Valid() && Settled(model, lost) && M.Possible(model, M.SysPipeWrite(id, kbuf))
      modifies this`current, this`readyQueue, this`frame, this`model, PipeSet(id), pcbs.Values
      ensures Valid() && model == M.Step(g, requeue, old(model), M.SysPipeWrite(id, kbuf))
    {
      RunsAwake(lost);
      WriteStep(g, requeue, model, id, kbuf);
      KernelApart(id);
      var rc := SyncWritePipe(g, id, kbuf);
      if rc == M.PCB_BLOCKED {
        Schedule();
      }
    }

    lemma KernelApart(id: int)
      ensures this !in PipeSet(id) + ObjSet(id) + (set p <- pcbs.Values :: p as object)
    {}

    /** The running process sleeps at no pipe. */
    lemma RunsAwake(lost: set<Pid>)
      requires Valid() && Settled(model, lost)
      ensures M.Typed(model) && current.waitingPipe == -1
    {
      var p := model.cur;
      assert model.procs[p] == current.Val();
      assert p !in lost;
      assert Placed(model, p);
    }

    /** SysLockAcquire (syscalls.c:350-362). */
    method SysLockAcquire(id: int, ghost g: P.Guard, ghost requeue: bool)
      requires Valid() && M.Typed(model) && M.Possible(model, M.SysLockAcquire(id))
      modifies this`current, this`readyQueue, this`frame, this`model, ObjSet(id), pcbs.Values
      ensures Valid() && model == M.Step(g, requeue, old(model), M.SysLockAcquire(id))
    {
      AcquireStep(g, requeue, model, id);
      KernelApart(id);
      var rc := SyncLockAcquire(id);
      if rc == M.PCB_BLOCKED {
        Schedule();
      } else {
        SetFrame(rc);
      }
    }

    lemma AcquireStep(g: P.Guard, requeue: bool, k: M.Kernel, id: int)
      requires M.Typed(k) && M.Possible(k, M.SysLockAcquire(id))
      ensures M.LockOrNone(k, id)
      ensures var r := M.SyncLockAcquire(k, id);
              M.Step(g, requeue, k, M.SysLockAcquire(id)) == if r.1 == M.PCB_BLOCKED then M.Schedule(r.0)
                  else r.0.(frame := r.1)
    {}

    /** SysCvarWait up to its schedule (syscalls.c:396-409). */
    method SysCvarWait(cvar: int, lock: int, ghost g: P.Guard, ghost requeue: bool)
      requires Valid() && M.Typed(model) && M.Possible(model, M.SysCvarWait(cvar, lock))
      modifies this`current, this`readyQueue, this`frame, this`model, ObjSet(cvar), ObjSet(lock), pcbs.Values
      ensures Valid() && model == M.Step(g, requeue, old(model), M.SysCvarWait(cvar, lock))
    {
      WaitStep(g, requeue, model, cvar, lock);
      KernelApart(cvar);
      KernelApart(lock);
      var rc := SyncCvarWait(cvar, lock);
      if rc == ERROR {
        SetFrame(ERROR);
      } else {
        Schedule();
      }
    }

    /** SysPipeInit, SysLockInit, SysCvarInit (syscalls.c:281-287, 342-348, 372-378). */
    method SysInit(s: M.Sync)
      requires Valid() && M.Typed(model) && New(s)
      modifies this`table, this`frame, this`model
      ensures Valid() && (model, false) == M.Return(M.SyncInit(old(model), s))
    {
      var rc;
      match s {
        case APipe(_) => rc := SyncInitPipe();
        case ALock(_) => rc := SyncInitLock();
        case ACvar(_) => rc := SyncInitCvar();
      }
      SetFrame(rc);
    }

    /** The calls that never block (syscalls.c:364-394, 416-422, 50-73). */
    method Plain(t: M.Trap, ghost g: P.Guard, ghost requeue: bool)
      requires Valid() && M.Typed(model) && M.Possible(model, t)
      requires t.SysLockRelease? || t.SysSignal? || t.SysBroadcast? || t.SysInit? || t.SysReclaim? || t.SysFork?
      modifies this, Repr()
      ensures Valid() && model == M.Step(g, requeue, old(model), t)
    {
      match t {
        case SysLockRelease(id) => var rc := SyncLockRelease(id); SetFrame(rc);
        case SysSignal(id) => var rc := SyncCvarSignal(id); SetFrame(rc);
        case SysBroadcast(id, noise) => var rc := SyncCvarBroadcast(id, noise); SetFrame(rc);
        case SysInit(s) => SysInit(s);
        case SysReclaim(id) => var rc := SyncReclaim(id); SetFrame(rc);
        case SysFork(child) => SysFork(child);
      }
    }

    /** A trap, with the schedule it may end in, does to the fields what Step does to the model, and
        leaves every process where its tag says. */
    method Trap(g: P.Guard, requeue: bool, t: M.Trap, ghost lost: set<Pid>)
      requires Valid() && Settled(model, lost) && M.Possible(model, t)
      modifies this, Repr()
      ensures Valid() && model == M.Step(g, requeue, old(model), t)
      ensures Settled(model, LostBy(requeue, old(model), t, lost))
    {
      StepSettles(g, requeue, model, t, lost);
      Perform(g, requeue, t, lost);
    }

    /** By the kind of the trap. */
    method Perform(g: P.Guard, requeue: bool, t: M.Trap, ghost lost: set<Pid>)
      requires Valid() && Settled(model, lost) && M.Possible(model, t)
      modifies this, Repr()
      ensures Valid() && model == M.Step(g, requeue, old(model), t)
    {
      if t.Tick? {
        ClockHandler(requeue, g, lost);
      } else if t.SysPipeRead? {
        SysPipeRead(g, t.id, t.kbuf, requeue, lost);
      } else if t.SysPipeWrite? {
        SysPipeWrite(g, t.id, t.msg, requeue, lost);
      } else {
        OtherTrap(t, g, requeue);
      }
    }

    method OtherTrap(t: M.Trap, ghost g: P.Guard, ghost requeue: bool)
      requires Valid() && M.Typed(model) && M.Possible(model, t) && !(t.Tick? || t.SysPipeRead? || t.SysPipeWrite?)
      modifies this, Repr()
      ensures Valid() && model == M.Step(g, requeue, old(model), t)
    {
      if t.SysDelay? {
        SysDelay(t.ticks, g, requeue);
      } else if t.SysLockAcquire? {
        SysLockAcquire(t.id, g, requeue);
      } else if t.SysCvarWait? {
        SysCvarWait(t.cvar, t.lock, g, requeue);
      } else {
        Plain(t, g, requeue);
      }
    }
  }
}
