/** Region 0 and the frames over whole runs of forks, switches, breaks and stores: nothing but a break
    changes the kernel's own mappings, and no frame is ever lost. */
module SpaceFrames {
  import opened Hardware
  import opened Frames
  import opened Memory
  import opened KernelBreak
  import opened ForkCopy
  import opened ContextSwitch
  import opened AddressSpaces

  // ---------------------------------------------------------------- the kernel's own pages

  /** Outside the kernel stack no fork, switch or store changes a mapping of region 0; of the page for
      temporary mappings a fork leaves an invalid entry as it found one. */
  lemma KernelPagesStay(s: Sys, t: Step, i: nat)
    requires Owned(s) && Possible(s, t) && !t.Brk? && i < MAX_PT_LEN && !OnStack(i)
    ensures |Next(s, t).r0| == MAX_PT_LEN
    ensures if t.Fork? && i == TEMP then !s.r0[TEMP].valid && !Next(s, t).r0[TEMP].valid
            else Next(s, t).r0[i] == s.r0[i]
  {
    if t.Switch? { OnlyTheStack(s.r0, s.procs[t.next].ks); }
  }

  /** A frame in use keeps its contents, but for the one a store goes to; and only a switch changes who
      runs. */
  lemma FramesStay(s: Sys, t: Step, f: nat)
    requires Owned(s) && Possible(s, t) && f < |s.used| && s.used[f]
    requires t.Store? ==> f != ParentTable(s)[t.page].pfn
    ensures |Next(s, t).pmem| == |s.pmem| && Next(s, t).pmem[f] == s.pmem[f]
    ensures Next(s, t).cur == if t.Switch? then t.next else s.cur
  {
    if t.Fork? { ForkHasFacts(s, t.child); }
  }

  /** The heap of the kernel, as the breaks see it. */
  ghost function KernelHeap(s: Sys): BrkState {
    BrkState(Heap(s.r0, s.used), s.brk)
  }

  /** Forks and switches and stores leave an exact heap exact. */
  lemma HeapStays(s: Sys, t: Step)
    requires Owned(s) && Possible(s, t) && !t.Brk? && HeapExact(KernelHeap(s))
    ensures HeapExact(KernelHeap(Next(s, t)))
  {
    var s' := Next(s, t);
    StepOwned(s, t);
    forall i | 0 <= i < MAX_PT_LEN && !OnStack(i)
      ensures if t.Fork? && i == TEMP then !s'.r0[TEMP].valid else s'.r0[i] == s.r0[i]
    {
      KernelPagesStay(s, t, i);
    }
    UsedStays(s, t);
  }

  /** None of them gives a frame back. */
  lemma UsedStays(s: Sys, t: Step)
    requires Owned(s) && Possible(s, t) && !t.Brk?
    ensures |Next(s, t).used| == |s.used| && Next(s, t).brk == s.brk
    ensures forall f :: 0 <= f < |s.used| && s.used[f] ==> Next(s, t).used[f]
  {
    if t.Fork? { ForkHasFacts(s, t.child); }
  }

  /** A break that stops half way: it is accepted, finds some free frames, but not enough. */
  ghost predicate HalfWay(s: Sys, t: Step)
    requires Typed(s)
  {
    t.Brk? && !Refused(t.addr) && 0 < FreeCount(s.used, 0) < t.addr / PAGESIZE - s.brk / PAGESIZE
  }

  lemma StepHeapExactly(s: Sys, t: Step)
    requires Owned(s) && Possible(s, t) && HeapExact(KernelHeap(s))
    ensures HeapExact(KernelHeap(Next(s, t))) <==> !HalfWay(s, t)
  {
    if t.Brk? { CallKeepsHeapExactly(KernelHeap(s), t.addr); } else { HeapStays(s, t); }
  }

  ghost predicate ExactThroughout(s: Sys, ts: seq<Step>)
    requires Owned(s) && PossibleRun(s, ts)
    decreases |ts|
  {
    HeapExact(KernelHeap(s)) && (ts == [] || (StepOwned(s, ts[0]); ExactThroughout(Next(s, ts[0]), ts[1..])))
  }

  ghost predicate NeverHalfWay(s: Sys, ts: seq<Step>)
    requires Owned(s) && PossibleRun(s, ts)
    decreases |ts|
  {
    ts == [] || (!HalfWay(s, ts[0]) && (StepOwned(s, ts[0]); NeverHalfWay(Next(s, ts[0]), ts[1..])))
  }

  /** Over whole runs the kernel heap ends at its break at every moment exactly when no break stops half
      way, whatever is forked, switched to and stored in between. */
  lemma {:induction false} RunHeapExactly(s: Sys, ts: seq<Step>)
    requires Owned(s) && PossibleRun(s, ts) && HeapExact(KernelHeap(s))
    ensures ExactThroughout(s, ts) <==> NeverHalfWay(s, ts)
    decreases |ts|
  {
    if ts != [] {
      StepOwned(s, ts[0]);
      StepHeapExactly(s, ts[0]);
      if !HalfWay(s, ts[0]) {
        RunHeapExactly(Next(s, ts[0]), ts[1..]);
      } else {
        var s' := Next(s, ts[0]);
        assert !HeapExact(KernelHeap(s'));
      }
    }
  }

  // ---------------------------------------------------------------- no frame is lost

  ghost predicate HeldAt(s: Sys, pl: Place, f: nat) {
    Holds(s, pl) && EntryAt(s, pl).pfn == f
  }

  ghost predicate Held(s: Sys, f: nat) {
    exists pl :: HeldAt(s, pl, f)
  }

  /** A frame is marked exactly when it is mapped somewhere or one of `kept`, which never are. */
  ghost predicate Accounted(s: Sys, kept: set<nat>) {
    forall f :: 0 <= f < |s.used| ==> AccountedAt(s, kept, f)
  }

  ghost predicate AccountedAt(s: Sys, kept: set<nat>, f: nat)
    requires f < |s.used|
  {
    (s.used[f] <==> f in kept || Held(s, f)) && !(f in kept && Held(s, f))
  }

  /** The place holds the same entry in both. */
  lemma HeldStill(s: Sys, s': Sys, pl: Place, f: nat)
    requires HeldAt(s, pl, f) && Exists(s', pl) && EntryAt(s', pl) == EntryAt(s, pl)
    ensures Held(s', f)
  {
    assert HeldAt(s', pl, f);
  }

  lemma SwitchAccounts(s: Sys, next: Pid, kept: set<nat>)
    requires Owned(s) && next in s.procs && Accounted(s, kept)
    ensures Accounted(DoSwitch(s, next), kept)
  {
    var s' := DoSwitch(s, next);
    OnlyTheStack(s.r0, s.procs[next].ks);
    SamePlaces(s, s', kept);
  }

  /** The same entries at the same places are the same accounts. */
  lemma SamePlaces(s: Sys, s': Sys, kept: set<nat>)
    requires Accounted(s, kept) && s'.used == s.used
    requires forall pl :: (Exists(s', pl) <==> Exists(s, pl)) && (Exists(s, pl) ==> EntryAt(s', pl) == EntryAt(s, pl))
    ensures Accounted(s', kept)
  {
    forall f | 0 <= f < |s'.used|
      ensures AccountedAt(s', kept, f)
    {
      assert AccountedAt(s, kept, f);
      assert forall pl :: HeldAt(s', pl, f) <==> HeldAt(s, pl, f);
    }
  }

  lemma StoreAccounts(s: Sys, page: nat, off: nat, b: Byte, kept: set<nat>)
    requires Owned(s) && page < MAX_PT_LEN && off < PAGESIZE && Accounted(s, kept)
    ensures Accounted(DoStore(s, page, off, b), kept)
  {
    SamePlaces(s, DoStore(s, page, off, b), kept);
  }

  // ---- forks

  /** f is the frame of a valid entry. */
  ghost predicate Names(pt: seq<Pte>, f: nat) {
    exists i :: 0 <= i < |pt| && pt[i].valid && pt[i].pfn == f
  }

  /** The frames a fork takes are those of the child. */
  lemma ForkTakes(s: Sys, child: Pid, f: nat)
    requires Owned(s) && Possible(s, Fork(child)) && f < |s.used|
    ensures var s', sp := DoFork(s, child), DoFork(s, child).procs[child];
            f < |s'.used| && (s'.used[f] <==> s.used[f] || Names(sp.r1, f) || Names(sp.ks, f))
  {
    PagesForked(s);
    ForkHasFacts(s, child);
    var s', parent, c, st := DoFork(s, child), ParentTable(s), ForkPages(s), ForkStack(s);
    assert StackOn(c.used, st);
    forall i | 0 <= i < MAX_PT_LEN
      ensures c.child[i].valid <==> parent[i].valid
    {
      assert PageForked(s, s', parent[i], s'.procs[child].r1[i]);
    }
  }

  /** The child's frames were free. */
  lemma ChildIsNew(s: Sys, child: Pid, pl: Place, f: nat)
    requires Owned(s) && Possible(s, Fork(child)) && HeldAt(DoFork(s, child), pl, f)
    ensures f < |s.used|
    ensures if !pl.Kernel? && pl.p == child then !s.used[f] && DoFork(s, child).used[f] else HeldAt(s, pl, f)
  {
    var s' := DoFork(s, child);
    ForkHasFacts(s, child);
    ForkTyped(s, s', child);
    HeldAfterFork(s, s', child, pl);
    assert HoldsUsed(s, pl);
  }

  lemma StaysHeld(s: Sys, child: Pid, f: nat)
    requires Owned(s) && Possible(s, Fork(child)) && Held(s, f)
    ensures Held(DoFork(s, child), f)
  {
    var pl :| HeldAt(s, pl, f);
    HeldStill(s, DoFork(s, child), pl, f);
  }

  lemma ForkAccountsAt(s: Sys, child: Pid, kept: set<nat>, f: nat)
    requires Owned(s) && Possible(s, Fork(child)) && f < |s.used| && AccountedAt(s, kept, f)
    ensures f < |DoFork(s, child).used| && AccountedAt(DoFork(s, child), kept, f)
  {
    var s' := DoFork(s, child);
    ForkTakes(s, child, f);
    if Held(s, f) { StaysHeld(s, child, f); }
    if pl :| HeldAt(s', pl, f) {
      ChildIsNew(s, child, pl, f);
    }
    TakenIsHeld(s', child, f);
  }

  lemma TakenIsHeld(s: Sys, p: Pid, f: nat)
    requires p in s.procs
    ensures Names(s.procs[p].r1, f) || Names(s.procs[p].ks, f) ==> Held(s, f)
  {
    var r1, ks := s.procs[p].r1, s.procs[p].ks;
    if i :| 0 <= i < |r1| && r1[i].valid && r1[i].pfn == f { assert HeldAt(s, User(p, i), f); }
    if i :| 0 <= i < |ks| && ks[i].valid && ks[i].pfn == f { assert HeldAt(s, Place.Stack(p, i), f); }
  }

  // ---- breaks

  /** Growing past a page that is mapped already -- left behind by a break that stopped half way --
      overwrites its entry. */
  ghost predicate Overwrites(s: Sys, t: Step)
    requires Typed(s)
  {
    t.Brk? && !Refused(t.addr)
    && exists j :: s.brk / PAGESIZE <= j < GrownTo(s, t.addr) && s.r0[j].valid
  }

  /** How far the growing loop gets. */
  ghost function GrownTo(s: Sys, addr: nat): (m: int)
    requires Typed(s)
  {
    var cur := s.brk / PAGESIZE;
    cur + Min(addr / PAGESIZE - cur, FreeCount(s.used, 0))
  }

  /** What was mapped beyond its break is overwritten by nothing but growth: the other places stay. */
  lemma GrownHolds(s: Sys, h: Heap, i: nat, m: nat, pl: Place, f: nat)
    requires Owned(s) && m <= TEMP && Grown(Heap(s.r0, s.used), h, i, m)
    ensures var s' := s.(r0 := h.r0, used := h.used);
            HeldAt(s', pl, f) <==>
              if pl.Kernel? && i <= pl.i < m then h.r0[pl.i].pfn == f else HeldAt(s, pl, f)
  {
    var s' := s.(r0 := h.r0, used := h.used);
    assert Exists(s', pl) <==> Exists(s, pl);
  }

  lemma GrowAccountsAt(s: Sys, h: Heap, i: nat, m: nat, kept: set<nat>, f: nat)
    requires Owned(s) && m <= TEMP && Grown(Heap(s.r0, s.used), h, i, m)
    requires (forall j :: i <= j < m ==> !s.r0[j].valid) && f < |s.used| && AccountedAt(s, kept, f)
    ensures AccountedAt(s.(r0 := h.r0, used := h.used), kept, f)
  {
    var s' := s.(r0 := h.r0, used := h.used);
    if pl :| HeldAt(s, pl, f) {
      GrownHolds(s, h, i, m, pl, f);
    }
    if pl :| HeldAt(s', pl, f) {
      GrownHolds(s, h, i, m, pl, f);
    }
    if j :| i <= j < m && h.r0[j].pfn == f {
      GrownHolds(s, h, i, m, Kernel(j), f);
      assert HeldAt(s', Kernel(j), f);
    }
  }

  /** The frame of an overwritten entry is marked for ever. */
  lemma GrowLoses(s: Sys, h: Heap, i: nat, m: nat, kept: set<nat>, j: nat)
    requires Owned(s) && Accounted(s, kept) && m <= TEMP && Grown(Heap(s.r0, s.used), h, i, m)
    requires i <= j < m && s.r0[j].valid
    ensures !Accounted(s.(r0 := h.r0, used := h.used), kept)
  {
    var s', f := s.(r0 := h.r0, used := h.used), s.r0[j].pfn;
    assert HeldAt(s, Kernel(j), f);
    assert HoldsUsed(s, Kernel(j));
    assert AccountedAt(s, kept, f);
    forall pl
      ensures !HeldAt(s', pl, f)
    {
      GrownHolds(s, h, i, m, pl, f);
      if HeldAt(s, pl, f) { assert HoldApart(s, pl, Kernel(j)); }
    }
    assert !AccountedAt(s', kept, f);
  }

  lemma ShrunkHolds(s: Sys, h: Heap, i: nat, n: nat, pl: Place, f: nat)
    requires Owned(s) && n <= KSTACK_START_PAGE && Shrunk(Heap(s.r0, s.used), h, i, n)
    ensures var s' := s.(r0 := h.r0, used := h.used);
            HeldAt(s', pl, f) <==> HeldAt(s, pl, f) && !(pl.Kernel? && i <= pl.i < n)
  {
    var s' := s.(r0 := h.r0, used := h.used);
    assert Exists(s', pl) <==> Exists(s, pl);
  }

  lemma ShrinkAccountsAt(s: Sys, h: Heap, i: nat, n: nat, kept: set<nat>, f: nat)
    requires Owned(s) && n <= KSTACK_START_PAGE && Shrunk(Heap(s.r0, s.used), h, i, n)
    requires f < |s.used| && AccountedAt(s, kept, f)
    ensures AccountedAt(s.(r0 := h.r0, used := h.used), kept, f)
  {
    var s' := s.(r0 := h.r0, used := h.used);
    if j :| i <= j < n && s.r0[j].valid && s.r0[j].pfn == f {
      assert HeldAt(s, Kernel(j), f);
      forall pl
        ensures !HeldAt(s', pl, f)
      {
        ShrunkHolds(s, h, i, n, pl, f);
        assert HoldApart(s, pl, Kernel(j));
      }
    } else {
      if pl :| HeldAt(s, pl, f) { ShrunkHolds(s, h, i, n, pl, f); }
      if pl :| HeldAt(s', pl, f) { ShrunkHolds(s, h, i, n, pl, f); }
    }
  }

  /** The break itself is no frame's affair. */
  lemma BreakAccounts(s: Sys, brk: nat, kept: set<nat>)
    ensures Accounted(s.(brk := brk), kept) <==> Accounted(s, kept)
  {
    var s' := s.(brk := brk);
    if Accounted(s, kept) { SamePlaces(s, s', kept); }
    if Accounted(s', kept) { SamePlaces(s', s, kept); }
  }

  /** The shrinking call. */
  lemma ShrinkCallAccounts(s: Sys, addr: nat, kept: set<nat>)
    requires Owned(s) && Accounted(s, kept) && !Refused(addr) && addr / PAGESIZE < s.brk / PAGESIZE
    ensures Accounted(DoBrk(s, addr), kept)
  {
    var cur, new_ := s.brk / PAGESIZE, addr / PAGESIZE;
    var h := Shrink(Heap(s.r0, s.used), new_, cur);
    ShrinkDrops(Heap(s.r0, s.used), new_, cur);
    var s' := s.(r0 := h.r0, used := h.used);
    forall f | 0 <= f < |s'.used|
      ensures AccountedAt(s', kept, f)
    {
      assert AccountedAt(s, kept, f);
      ShrinkAccountsAt(s, h, new_, cur, kept, f);
    }
    BreakAccounts(s', addr, kept);
  }

  /** The growing call, to page m. */
  lemma GrowCallAccounts(s: Sys, h: Heap, m: nat, brk: nat, kept: set<nat>)
    requires Owned(s) && Accounted(s, kept) && s.brk / PAGESIZE <= m <= TEMP
    requires Grown(Heap(s.r0, s.used), h, s.brk / PAGESIZE, m)
    ensures Accounted(s.(r0 := h.r0, used := h.used, brk := brk), kept)
       <==> (forall j :: s.brk / PAGESIZE <= j < m ==> !s.r0[j].valid)
  {
    var i, s' := s.brk / PAGESIZE, s.(r0 := h.r0, used := h.used);
    if j :| i <= j < m && s.r0[j].valid {
      GrowLoses(s, h, i, m, kept, j);
    } else {
      forall f | 0 <= f < |s'.used|
        ensures AccountedAt(s', kept, f)
      {
        assert AccountedAt(s, kept, f);
        GrowAccountsAt(s, h, i, m, kept, f);
      }
    }
    BreakAccounts(s', brk, kept);
  }

  lemma BrkAccountsExactly(s: Sys, addr: nat, kept: set<nat>)
    requires Owned(s) && Accounted(s, kept)
    ensures Accounted(DoBrk(s, addr), kept) <==> !Overwrites(s, Brk(addr))
  {
    var cur, new_ := s.brk / PAGESIZE, addr / PAGESIZE;
    if Refused(addr) {
    } else if new_ < cur {
      ShrinkCallAccounts(s, addr, kept);
    } else {
      var h := Grow(Heap(s.r0, s.used), cur, new_).0;
      var m := GrowReaches(Heap(s.r0, s.used), cur, new_);
      GrowCallAccounts(s, h, m, DoBrk(s, addr).brk, kept);
    }
  }

  // ---- every step, every run

  /** A step keeps the account of every frame exactly when it overwrites no mapping. */
  lemma StepAccountsExactly(s: Sys, t: Step, kept: set<nat>)
    requires Owned(s) && Possible(s, t) && Accounted(s, kept)
    ensures Accounted(Next(s, t), kept) <==> !Overwrites(s, t)
  {
    match t
    case Fork(child) =>
      forall f | 0 <= f < |DoFork(s, child).used|
        ensures AccountedAt(DoFork(s, child), kept, f)
      {
        ForkUsedLength(s, child);
        assert AccountedAt(s, kept, f);
        ForkAccountsAt(s, child, kept, f);
      }
    case Switch(next) => SwitchAccounts(s, next, kept);
    case Store(page, off, b) => StoreAccounts(s, page, off, b, kept);
    case Brk(addr) => BrkAccountsExactly(s, addr, kept);
  }

  lemma ForkUsedLength(s: Sys, child: Pid)
    requires Owned(s) && Possible(s, Fork(child))
    ensures |DoFork(s, child).used| == |s.used|
  {
    ForkHasFacts(s, child);
  }

  /** On an exact heap nothing is overwritten. */
  lemma ExactOverwritesNothing(s: Sys, t: Step)
    requires Owned(s) && HeapExact(KernelHeap(s))
    ensures !Overwrites(s, t)
  {}

  /** Every frame is accounted for at every moment of the run. */
  ghost predicate AccountedThroughout(s: Sys, ts: seq<Step>, kept: set<nat>)
    requires Owned(s) && PossibleRun(s, ts)
    decreases |ts|
  {
    Accounted(s, kept) && (ts == [] || (StepOwned(s, ts[0]); AccountedThroughout(Next(s, ts[0]), ts[1..], kept)))
  }

  ghost predicate OverwritesNever(s: Sys, ts: seq<Step>)
    requires Owned(s) && PossibleRun(s, ts)
    decreases |ts|
  {
    ts == [] || (!Overwrites(s, ts[0]) && (StepOwned(s, ts[0]); OverwritesNever(Next(s, ts[0]), ts[1..])))
  }

  /** A frame is marked exactly while it is mapped, at every moment of every run, exactly as long as no
      growing break runs over pages that are mapped already. */
  lemma {:induction false} RunAccountsExactly(s: Sys, ts: seq<Step>, kept: set<nat>)
    requires Owned(s) && PossibleRun(s, ts) && Accounted(s, kept)
    ensures AccountedThroughout(s, ts, kept) <==> OverwritesNever(s, ts)
    decreases |ts|
  {
    if ts != [] {
      StepOwned(s, ts[0]);
      StepAccountsExactly(s, ts[0], kept);
      if !Overwrites(s, ts[0]) { RunAccountsExactly(Next(s, ts[0]), ts[1..], kept); }
    }
  }

  /** So no frame is lost in a run in which no break stops half way. */
  lemma {:induction false} NoFrameIsLost(s: Sys, ts: seq<Step>, kept: set<nat>)
    requires Owned(s) && PossibleRun(s, ts) && Accounted(s, kept) && HeapExact(KernelHeap(s)) && NeverHalfWay(s, ts)
    ensures Accounted(Run(s, ts), kept)
    decreases |ts|
  {
    if ts != [] {
      StepOwned(s, ts[0]);
      ExactOverwritesNothing(s, ts[0]);
      StepAccountsExactly(s, ts[0], kept);
      StepHeapExactly(s, ts[0]);
      NoFrameIsLost(Next(s, ts[0]), ts[1..], kept);
    }
  }
}
