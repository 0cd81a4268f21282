/** A drain on the whole kernel: the pipe moves on and the processes it let go wake up.  Drains
    done in stages add up. */
module KernelDrains {
  import opened Hardware
  import opened Pipes
  import opened PipeWakes
  import opened KernelModel

  /** The pipe called id can move on to q. */
  ghost predicate CanDrain(k: Kernel, id: int, q: Pipe) {
    && Typed(k) && id in k.sync && k.sync[id].APipe?
    && Sound(q) && Accounted(k.sync[id].pipe, q)
  }

  lemma DrainKnown(k: Kernel, id: int, q: Pipe)
    requires CanDrain(k, id, q)
    ensures Typed(Store(k, id, APipe(q)))
    ensures forall x <- WokenPids(News(k.sync[id].pipe, q)) :: x in k.procs
  {
    StillKnown(k, id, q);
  }

  ghost function DrainTo(k: Kernel, id: int, q: Pipe): (k': Kernel)
    requires CanDrain(k, id, q)
    ensures SameCast(k, k')
  {
    DrainKnown(k, id, q);
    Effects(Store(k, id, APipe(q)), News(k.sync[id].pipe, q))
  }

  lemma {:induction false} EffectsConcat(k: Kernel, a: seq<Event>, b: seq<Event>)
    requires Typed(k) && forall p <- WokenPids(a + b) :: p in k.procs
    ensures (forall p <- WokenPids(a) :: p in k.procs) && (forall p <- WokenPids(b) :: p in k.procs)
    ensures Effects(k, a + b) == Effects(Effects(k, a), b)
    decreases |a|
  {
    WokenPidsConcat(a, b);
    if a == [] {
      assert a + b == b;
    } else {
      assert (a + b)[1..] == a[1..] + b && (a + b)[0] == a[0];
      assert forall p <- Woke(a[0]) :: p in WokenPids(a);
      assert forall p <- WokenPids(a[1..]) :: p in WokenPids(a);
      WokenPidsConcat(a[1..], b);
      EffectsConcat(Effect(k, a[0]), a[1..], b);
    }
  }

  lemma {:induction false} EffectsStore(k: Kernel, es: seq<Event>, id: int, s: Sync)
    requires Typed(k) && Typed(Store(k, id, s)) && forall p <- WokenPids(es) :: p in k.procs
    ensures Effects(Store(k, id, s), es) == Store(Effects(k, es), id, s)
    decreases |es|
  {
    if es != [] {
      assert forall p <- Woke(es[0]) :: p in WokenPids(es);
      assert forall p <- WokenPids(es[1..]) :: p in WokenPids(es);
      assert Effect(Store(k, id, s), es[0]) == Store(Effect(k, es[0]), id, s);
      EffectsStore(Effect(k, es[0]), es[1..], id, s);
    }
  }

  lemma {:induction false} EffectsKeepSync(k: Kernel, es: seq<Event>)
    requires Typed(k) && forall p <- WokenPids(es) :: p in k.procs
    ensures Effects(k, es).sync == k.sync
    decreases |es|
  {
    if es != [] {
      assert forall p <- Woke(es[0]) :: p in WokenPids(es);
      assert forall p <- WokenPids(es[1..]) :: p in WokenPids(es);
      EffectsKeepSync(Effect(k, es[0]), es[1..]);
    }
  }

  lemma DrainSync(k: Kernel, id: int, q: Pipe)
    requires CanDrain(k, id, q)
    ensures DrainTo(k, id, q).sync == k.sync[id := APipe(q)]
  {
    DrainKnown(k, id, q);
    EffectsKeepSync(Store(k, id, APipe(q)), News(k.sync[id].pipe, q));
  }

  lemma TwoStages(k1: Kernel, id: int, s: Sync, es: seq<Event>, fs: seq<Event>)
    requires Typed(k1) && Typed(Store(k1, id, s)) && forall p <- WokenPids(es + fs) :: p in k1.procs
    ensures (forall p <- WokenPids(es) :: p in k1.procs) && (forall p <- WokenPids(fs) :: p in k1.procs)
    ensures Typed(Store(Effects(k1, es), id, s))
    ensures Effects(Store(Effects(k1, es), id, s), fs) == Effects(Store(k1, id, s), es + fs)
  {
    EffectsConcat(Store(k1, id, s), es, fs);
    EffectsStore(k1, es, id, s);
  }

  lemma CanDrainOn(k: Kernel, id: int, q: Pipe, r: Pipe)
    requires CanDrain(k, id, q) && Accounted(q, r) && Sound(r)
    ensures CanDrain(k, id, r) && CanDrain(DrainTo(k, id, q), id, r)
  {
    AccountedTrans(k.sync[id].pipe, q, r);
    DrainSync(k, id, q);
  }

  /** Two stages of a drain are one. */
  lemma DrainTwice(k: Kernel, id: int, q: Pipe, r: Pipe)
    requires CanDrain(k, id, q) && CanDrain(k, id, r) && CanDrain(DrainTo(k, id, q), id, r) && Accounted(q, r)
    ensures DrainTo(DrainTo(k, id, q), id, r) == DrainTo(k, id, r)
  {
    var p := k.sync[id].pipe;
    var k1 := Store(k, id, APipe(q));
    DrainKnown(k, id, q);
    DrainKnown(k, id, r);
    DrainSync(k, id, q);
    AccountedTrans(p, q, r);
    assert Store(k1, id, APipe(r)) == Store(k, id, APipe(r));
    TwoStages(k1, id, APipe(r), News(p, q), News(q, r));
  }

  lemma DrainNowhere(k: Kernel, id: int)
    requires Typed(k) && id in k.sync && k.sync[id].APipe? && Sound(k.sync[id].pipe)
    ensures CanDrain(k, id, k.sync[id].pipe) && DrainTo(k, id, k.sync[id].pipe) == k
  {
    var p := k.sync[id].pipe;
    NobodyMoved(p, p);
    DrainKnown(k, id, p);
    assert News(p, p) == [] && Store(k, id, APipe(p)) == k;
  }
}
