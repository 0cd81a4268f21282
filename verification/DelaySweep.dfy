/** The delay sweep of the clock trap (pcb.c:255-279).  It takes nodes off the list it walks, and
    is a stable partition: those whose time is up move to the ready queue in order, the others
    stay in order with one tick less. */
module DelaySweep {
  import opened Hardware
  import opened KernelModel
  import opened KernelInvariant

  /** Those on their last tick, in order. */
  function Due(procs: map<Pid, Proc>, ps: seq<Pid>): seq<Pid>
    requires forall p <- ps :: p in procs
  {
    if ps == [] then [] else
    assert ps[0] in ps;
    (if procs[ps[0]].ticks == 1 then [ps[0]] else []) + Due(procs, ps[1..])
  }

  /** Those with more to go, in order. */
  function Later(procs: map<Pid, Proc>, ps: seq<Pid>): seq<Pid>
    requires forall p <- ps :: p in procs
  {
    if ps == [] then [] else
    assert ps[0] in ps;
    (if procs[ps[0]].ticks == 1 then [] else [ps[0]]) + Later(procs, ps[1..])
  }

  function Ticked(f: Proc): Proc {
    if f.ticks == 1 then f.(ticks := 0, st := READY) else f.(ticks := f.ticks - 1)
  }

  lemma SameTicks(a: map<Pid, Proc>, b: map<Pid, Proc>, ps: seq<Pid>)
    requires forall p <- ps :: p in a && p in b && a[p] == b[p]
    ensures Due(a, ps) == Due(b, ps) && Later(a, ps) == Later(b, ps)
  {}

  lemma {:induction false} WithoutFirst(a: seq<Pid>, x: Pid, b: seq<Pid>)
    requires x !in a
    ensures Without(a + [x] + b, x) == a + b
  {
    var s := a + [x] + b;
    if a == [] {
      assert s[1..] == b;
    } else {
      assert s[1..] == a[1..] + [x] + b;
      WithoutFirst(a[1..], x, b);
    }
  }

  /** A process whose time is up leaves the delay queue; the guards of remove_from_delay_queue and
      add_to_ready_queue let it pass. */
  lemma LeaveDelay(k: Kernel, loose: set<Pid>, kept: seq<Pid>, x: Pid, rest: seq<Pid>)
    requires Filed(k, loose) && k.delayed == kept + [x] + rest
    ensures x in k.procs && x !in loose && x != k.idle && k.procs[x].st == DELAYED && SiteOf(k.procs[x]) == Nowhere
    ensures Filed(k.(delayed := kept + rest), loose + {x})
  {
    assert k.delayed[|kept|] == x && x in k.delayed;
    assert Placed(k, x);
    var k' := k.(delayed := kept + rest);
    var more := loose + {x};
    assert multiset(k.delayed) == multiset([x]) + multiset(kept + rest);
    Members(k.delayed, [x], kept + rest);
    forall p <- k'.procs
      ensures if p in more then p !in k'.ready && p !in k'.delayed else Placed(k', p)
    {
      if p !in loose { assert Placed(k, p); }
    }
    forall id <- k'.sync
      ensures QueueOk(k', more, id)
    {
      assert QueueOk(k, loose, id);
    }
  }

  lemma TickDue(k: Kernel, lost: set<Pid>, kept: seq<Pid>, x: Pid, rest: seq<Pid>)
    requires Filed(k, lost) && k.delayed == kept + [x] + rest && x in k.procs && k.procs[x].ticks == 1
    ensures TickOne(k, x) == Put(k, x, Ticked(k.procs[x])).(delayed := kept + rest, ready := k.ready + [x])
    ensures Filed(TickOne(k, x), lost)
  {
    LeaveDelay(k, lost, kept, x, rest);
    var f := k.procs[x].(ticks := 0, st := DEFAULT);
    var k1 := k.(delayed := kept + rest);
    JoinReady(k1, lost + {x}, x, f);
    assert lost + {x} - {x} == lost;
    assert x !in kept by {
      Members(k.delayed, kept, [x] + rest) by { assert k.delayed == kept + ([x] + rest); }
    }
    WithoutFirst(kept, x, rest);
  }

  lemma TickLater(k: Kernel, lost: set<Pid>, x: Pid)
    requires Filed(k, lost) && x in k.delayed && x in k.procs && k.procs[x].ticks != 1
    ensures TickOne(k, x) == Put(k, x, Ticked(k.procs[x]))
    ensures Filed(TickOne(k, x), lost)
  {
    assert x !in lost;
    assert Placed(k, x);
    TouchUp(k, lost, x, Ticked(k.procs[x]));
  }

  /** k' is k after the sweep went over `ps`, having kept `kept` before. */
  ghost predicate Swept(k: Kernel, k': Kernel, kept: seq<Pid>, ps: seq<Pid>)
    requires forall p <- ps :: p in k.procs
  {
    && k'.procs.Keys == k.procs.Keys
    && k' == k.(procs := k'.procs, delayed := kept + Later(k.procs, ps), ready := k.ready + Due(k.procs, ps))
    && forall p <- k.procs :: k'.procs[p] == if p in ps then Ticked(k.procs[p]) else k.procs[p]
  }

  lemma SweptDue(k: Kernel, k1: Kernel, k2: Kernel, kept: seq<Pid>, x: Pid, rest: seq<Pid>)
    requires x in k.procs && x !in rest && (forall p <- rest :: p in k.procs) && k.procs[x].ticks == 1
    requires k1 == Put(k, x, Ticked(k.procs[x])).(delayed := k1.delayed, ready := k.ready + [x])
    requires Swept(k1, k2, kept, rest)
    ensures Swept(k, k2, kept, [x] + rest)
  {
    var ps := [x] + rest;
    assert ps[1..] == rest;
    SameTicks(k.procs, k1.procs, rest);
    Assoc(k.ready, [x], Due(k.procs, rest));
    assert Later(k.procs, ps) == [] + Later(k.procs, rest) == Later(k.procs, rest);
    assert k2.ready == k.ready + Due(k.procs, ps);
  }

  lemma SweptLater(k: Kernel, k1: Kernel, k2: Kernel, kept: seq<Pid>, x: Pid, rest: seq<Pid>)
    requires x in k.procs && x !in rest && (forall p <- rest :: p in k.procs) && k.procs[x].ticks != 1
    requires k1 == Put(k, x, Ticked(k.procs[x])) && Swept(k1, k2, kept + [x], rest)
    ensures Swept(k, k2, kept, [x] + rest)
  {
    var ps := [x] + rest;
    assert ps[1..] == rest;
    SameTicks(k.procs, k1.procs, rest);
    Assoc(kept, [x], Later(k.procs, rest));
    assert Due(k.procs, ps) == [] + Due(k.procs, rest) == Due(k.procs, rest);
  }

  lemma {:induction false} SweepFrom(k: Kernel, lost: set<Pid>, kept: seq<Pid>, ps: seq<Pid>)
    requires Filed(k, lost) && k.delayed == kept + ps && forall p <- ps :: p in k.procs
    ensures Filed(TickAll(k, ps), lost) && Swept(k, TickAll(k, ps), kept, ps)
    decreases |ps|
  {
    if ps == [] {
      assert kept + ps == kept && k.ready + [] == k.ready;
    } else {
      var x, rest := ps[0], ps[1..];
      HeadApart(k, kept, ps);
      var k1 := TickOne(k, x);
      if k.procs[x].ticks == 1 {
        TickDue(k, lost, kept, x, rest);
        SweepFrom(k1, lost, kept, rest);
        SweptDue(k, k1, TickAll(k1, rest), kept, x, rest);
      } else {
        TickLater(k, lost, x);
        SweepFrom(k1, lost, kept + [x], rest);
        SweptLater(k, k1, TickAll(k1, rest), kept, x, rest);
      }
    }
  }

  lemma HeadApart(k: Kernel, kept: seq<Pid>, ps: seq<Pid>)
    requires NoDup(k.delayed) && k.delayed == kept + ps && ps != []
    ensures ps[0] in k.delayed && ps == [ps[0]] + ps[1..] && k.delayed == kept + [ps[0]] + ps[1..] && ps[0] !in ps[1..]
  {
    Members(k.delayed, kept, ps);
    assert ps == [ps[0]] + ps[1..];
    Members(ps, [ps[0]], ps[1..]);
    assert ps[0] in ps;
  }

  lemma SweepIsPartition(k: Kernel, lost: set<Pid>)
    requires Filed(k, lost)
    ensures Filed(UpdateDelayed(k), lost) && Swept(k, UpdateDelayed(k), [], k.delayed)
    ensures UpdateDelayed(k).delayed == Later(k.procs, k.delayed)
  {
    assert [] + k.delayed == k.delayed;
    SweepFrom(k, lost, [], k.delayed);
  }
}
