/** The pipe calls in the stages the code goes through: first its own copy, then the drain. */
module KernelCalls {
  import opened Hardware
  import opened Pipes
  import opened PipeWakes
  import opened KernelModel
  import opened KernelDrains

  /** SyncReadPipe after its own copy: the caller has its bytes and its result. */
  ghost function AfterTake(k: Kernel, id: int, want: nat): (k': Kernel)
    requires Typed(k) && id in k.sync && k.sync[id].APipe?
  {
    var p := k.sync[id].pipe;
    var n := Min(want, |p.ring|);
    var t := p.(ring := p.ring[n..], log := p.log + [Taken(k.cur, want, p.ring[..n])],
                asks := p.asks + [Reader(k.cur, want)]);
    Put(Store(k, id, APipe(t)), k.cur, k.procs[k.cur].(reg0 := n))
  }

  lemma TakeAccounted(p: Pipe, pid: Pid, want: nat)
    requires Sound(p)
    ensures var n := Min(want, |p.ring|);
            var t := p.(ring := p.ring[n..], log := p.log + [Taken(pid, want, p.ring[..n])],
                        asks := p.asks + [Reader(pid, want)]);
            Accounted(p, t) && Sound(t) && News(p, t) == [Taken(pid, want, p.ring[..n])]
  {
    var n := Min(want, |p.ring|);
    var t := p.(ring := p.ring[n..], log := p.log + [Taken(pid, want, p.ring[..n])],
                asks := p.asks + [Reader(pid, want)]);
    assert News(p, t) == [Taken(pid, want, p.ring[..n])];
    NobodyMoved(p, t);
  }

  /** The copy a caller makes itself wakes nobody. */
  lemma QuietFirst(k: Kernel, p: Pipe, t: Pipe, q: Pipe, e: Event)
    requires Typed(k) && Woke(e) == [] && t.log == p.log + [e] && t.log <= q.log
    requires forall x <- WokenPids(News(t, q)) :: x in k.procs
    ensures p.log <= q.log && WokenPids(News(p, q)) == WokenPids(News(t, q))
    ensures Effects(k, News(p, q)) == Effects(k, News(t, q))
  {
    Suffixes(p.log, t.log, q.log);
    assert News(p, q)[0] == e && News(p, q)[1..] == News(t, q);
    assert [] + WokenPids(News(t, q)) == WokenPids(News(t, q));
  }

  /** A later store in place of an earlier one. */
  lemma StoreOver(k: Kernel, id: int, a: Sync, b: Sync, x: Pid, f: Proc)
    ensures Store(Put(Store(k, id, a), x, f), id, b) == Put(Store(k, id, b), x, f)
  {
    assert k.sync[id := a][id := b] == k.sync[id := b];
  }

  /** After its own copy the caller drains the writers. */
  lemma TakeReady(g: Guard, k: Kernel, id: int, want: nat)
    requires Typed(k) && id in k.sync && k.sync[id].APipe?
    ensures var k1 := AfterTake(k, id, want);
            && Typed(k1) && id in k1.sync && k1.sync[id].APipe? && Sound(k1.sync[id].pipe)
            && CanDrain(k1, id, DrainWriters(g, k1.sync[id].pipe))
  {
    assert SyncTyped(k, k.sync[id]);
    var p, t := k.sync[id].pipe, AfterTake(k, id, want).sync[id].pipe;
    TakeAccounted(p, k.cur, want);
    DrainWritersAccounted(g, t);
    assert Sleepers(t) == Sleepers(p);
  }

  lemma ReadUnfolds(g: Guard, k: Kernel, id: int, kbuf: seq<Byte>)
    requires Typed(k) && id in k.sync && k.sync[id].APipe? && k.sync[id].pipe.ring != []
             && Sound(AfterTake(k, id, |kbuf|).sync[id].pipe)
    ensures var p, t := k.sync[id].pipe, AfterTake(k, id, |kbuf|).sync[id].pipe;
            var q := DrainWriters(g, t);
            var k2 := Put(Store(k, id, APipe(q)), k.cur, k.procs[k.cur].(reg0 := Min(|kbuf|, |p.ring|)));
            && p.log <= q.log && Typed(k2) && (forall x <- WokenPids(News(p, q)) :: x in k2.procs)
            && SyncReadPipe(g, k, id, kbuf) == (Effects(k2, News(p, q)), SUCCESS)
  {
    assert SyncTyped(k, k.sync[id]);
    ReadCast(g, k, id, kbuf);
  }

  lemma ReadInStages(g: Guard, k: Kernel, id: int, kbuf: seq<Byte>)
    requires Typed(k) && id in k.sync && k.sync[id].APipe? && k.sync[id].pipe.ring != []
    ensures var k1 := AfterTake(k, id, |kbuf|);
            && Typed(k1) && id in k1.sync && k1.sync[id].APipe? && Sound(k1.sync[id].pipe)
            && CanDrain(k1, id, DrainWriters(g, k1.sync[id].pipe))
            && SyncReadPipe(g, k, id, kbuf) == (DrainTo(k1, id, DrainWriters(g, k1.sync[id].pipe)), SUCCESS)
  {
    TakeReady(g, k, id, |kbuf|);
    ReadUnfolds(g, k, id, kbuf);
    var p, k1 := k.sync[id].pipe, AfterTake(k, id, |kbuf|);
    var n, t := Min(|kbuf|, |p.ring|), k1.sync[id].pipe;
    var q := DrainWriters(g, t);
    DrainKnown(k1, id, q);
    var k2 := Put(Store(k, id, APipe(q)), k.cur, k.procs[k.cur].(reg0 := n));
    StoreOver(k, id, k1.sync[id], APipe(q), k.cur, k1.procs[k.cur]);
    QuietFirst(k2, p, t, q, Taken(k.cur, |kbuf|, p.ring[..n]));
  }

  /** SyncWritePipe after its own copy, when the message fits and when it does not. */
  ghost function AfterEnter(k: Kernel, id: int, msg: seq<Byte>): (k': Kernel)
    requires Typed(k) && id in k.sync && k.sync[id].APipe? && Sound(k.sync[id].pipe)
  {
    var p, f := k.sync[id].pipe, k.procs[k.cur];
    Put(Store(k, id, APipe(Enter(p, k.cur, msg))), k.cur,
        if WriteBlocks(p, msg) then f.(waitPipe := id, buf := msg, st := BLOCKED) else f.(reg0 := |msg|))
  }

  lemma WriteInStages(g: Guard, k: Kernel, id: int, msg: seq<Byte>)
    requires Typed(k) && id in k.sync && k.sync[id].APipe?
    ensures Sound(k.sync[id].pipe)
    ensures var k1, e := AfterEnter(k, id, msg), Enter(k.sync[id].pipe, k.cur, msg);
            && Typed(k1) && id in k1.sync && k1.sync[id] == APipe(e)
            && CanDrain(k1, id, DrainReaders(g, e))
            && SyncWritePipe(g, k, id, msg) ==
                 (DrainTo(k1, id, DrainReaders(g, e)),
                  if WriteBlocks(k.sync[id].pipe, msg) then PCB_BLOCKED else SUCCESS)
  {
    assert SyncTyped(k, k.sync[id]);
    var p, k1 := k.sync[id].pipe, AfterEnter(k, id, msg);
    var e := Enter(p, k.cur, msg);
    var q := DrainReaders(g, e);
    EnterAccounted(p, k.cur, msg);
    DrainReadersAccounted(g, e);
    EnterTyped(k, id, msg);
    DrainKnown(k1, id, q);
    WriteCast(g, k, id, msg);
    var k2 := Put(Store(k, id, APipe(q)), k.cur, k1.procs[k.cur]);
    StoreOver(k, id, k1.sync[id], APipe(q), k.cur, k1.procs[k.cur]);
    QuietFirst(k2, p, e, q, e.log[|p.log|]);
  }

  lemma EnterTyped(k: Kernel, id: int, msg: seq<Byte>)
    requires Typed(k) && id in k.sync && k.sync[id].APipe? && Sound(k.sync[id].pipe)
    ensures Typed(AfterEnter(k, id, msg))
  {
    var p := k.sync[id].pipe;
    EnterAccounted(p, k.cur, msg);
    assert SyncTyped(k, k.sync[id]);
    forall x <- Sleepers(Enter(p, k.cur, msg))
      ensures x in k.procs
    {
      assert x in Sleepers(p) || x == k.cur;
    }
  }
}
