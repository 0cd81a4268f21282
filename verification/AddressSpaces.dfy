/** The memory of all processes over whole runs of forks, switches, breaks and user stores: every
    frame has one owner, and nobody's steps are seen by anybody else. */
module AddressSpaces {
  import opened Hardware
  import opened Frames
  import opened Memory
  import opened KernelBreak
  import opened ForkCopy
  import opened ContextSwitch

  /** The tables of one process: region 1 and its kernel stack. */
  datatype Space = Space(r1: seq<Pte>, ks: seq<Pte>)

  datatype Sys = Sys(pmem: seq<Page>, used: seq<bool>, r0: seq<Pte>, brk: nat, procs: map<Pid, Space>, cur: Pid)

  ghost predicate SpaceTyped(sp: Space, frames: nat) {
    |sp.r1| == MAX_PT_LEN && |sp.ks| == KSTACK_PAGES && FramesExist(sp.r1, frames)
        && forall e <- sp.ks :: e.valid && e.pfn < frames
  }

  ghost predicate Typed(s: Sys) {
    && NUM_VPN <= |s.used| == |s.pmem| && |s.r0| == MAX_PT_LEN && FramesExist(s.r0, |s.pmem|)
    && s.brk / PAGESIZE < KSTACK_START_PAGE
    && s.cur in s.procs && forall p <- s.procs :: SpaceTyped(s.procs[p], |s.pmem|)
  }

  // ---------------------------------------------------------------- ownership

  /** Where a frame can be mapped: a page of a process, a page of its kernel stack, or a page of
      region 0 outside the kernel stack. */
  datatype Place = User(p: Pid, i: nat) | Stack(p: Pid, i: nat) | Kernel(i: nat)

  ghost predicate Exists(s: Sys, pl: Place) {
    match pl
    case User(p, i) => p in s.procs && i < |s.procs[p].r1|
    case Stack(p, i) => p in s.procs && i < |s.procs[p].ks|
    case Kernel(i) => i < |s.r0| && !OnStack(i)
  }

  ghost function EntryAt(s: Sys, pl: Place): Pte
    requires Exists(s, pl)
  {
    match pl
    case User(p, i) => s.procs[p].r1[i]
    case Stack(p, i) => s.procs[p].ks[i]
    case Kernel(i) => s.r0[i]
  }

  ghost predicate Holds(s: Sys, pl: Place) {
    Exists(s, pl) && EntryAt(s, pl).valid
  }

  ghost predicate HoldsUsed(s: Sys, pl: Place) {
    Holds(s, pl) ==> EntryAt(s, pl).pfn < |s.used| && s.used[EntryAt(s, pl).pfn]
  }

  ghost predicate HoldApart(s: Sys, a: Place, b: Place) {
    Holds(s, a) && Holds(s, b) && EntryAt(s, a).pfn == EntryAt(s, b).pfn ==> a == b
  }

  /** Every mapped frame is marked as used and is mapped in one place only; region 0 shows the
      kernel stack of the running process. */
  ghost predicate Owned(s: Sys) {
    && Typed(s)
    && !s.r0[TEMP].valid
    && (forall pl :: HoldsUsed(s, pl))
    && (forall a, b :: HoldApart(s, a, b))
    && RunningStack(s.r0) == s.procs[s.cur].ks
  }

  // ---------------------------------------------------------------- the steps

  datatype Step =
    | Fork(child: Pid)
    | Switch(next: Pid)
    | Store(page: nat, off: nat, b: Byte)
    | Brk(addr: nat)

  ghost function ParentTable(s: Sys): seq<Pte>
    requires s.cur in s.procs
  {
    s.procs[s.cur].r1
  }

  /** Frames enough for a fork (unchecked in the code); other steps are always possible. */
  ghost predicate Possible(s: Sys, t: Step)
    requires Typed(s)
  {
    match t
    case Fork(child) => child !in s.procs && Need(ParentTable(s), 0) + KSTACK_PAGES <= FreeCount(s.used, 0)
    case Switch(next) => next in s.procs
    case Store(page, off, _) => page < MAX_PT_LEN && off < PAGESIZE
    case Brk(_) => true
  }

  ghost function ForkPages(s: Sys): Copy
    requires Typed(s) && Need(ParentTable(s), 0) <= FreeCount(s.used, 0)
  {
    CopyPages(ParentTable(s), Copy(NoPages(), s.pmem, s.used), 0)
  }

  lemma {:induction false} CopyTakes(parent: seq<Pte>, c: Copy, i: nat)
    requires Fits(parent, c, i)
    ensures FreeCount(CopyPages(parent, c, i).used, 0) == FreeCount(c.used, 0) - Need(parent, i)
    decreases |parent| - i
  {
    if i < |parent| {
      if parent[i].valid {
        NoneFree(c.used, 0);
        FreeCountTaken(c.used, FirstFree(c.used, 0), 0);
        CopyTakes(parent, CopyOne(parent, c, i), i + 1);
      } else {
        CopyTakes(parent, c, i + 1);
      }
    }
  }

  ghost function ForkStack(s: Sys): (st: ForkCopy.Stack)
    requires Typed(s) && Need(ParentTable(s), 0) + KSTACK_PAGES <= FreeCount(s.used, 0)
    ensures |st.used| == |s.used| && |st.ks| == KSTACK_PAGES && StackOn(ForkPages(s).used, st)
  {
    CopyTakes(ParentTable(s), Copy(NoPages(), s.pmem, s.used), 0);
    NewStackFits(ForkPages(s).used, KSTACK_PAGES);
    NewStack(ForkPages(s).used, KSTACK_PAGES).value
  }

  /** What the last temporary mapping of a fork leaves in its page table entry. */
  ghost function TempLeft(ks: seq<Pte>): Pte
    requires |ks| == KSTACK_PAGES
  {
    Pte(false, READ_WRITE, ks[KSTACK_PAGES - 1].pfn)
  }

  /** The memory side of SysFork (syscalls.c:60-70). */
  ghost function DoFork(s: Sys, child: Pid): Sys
    requires Typed(s) && Possible(s, Fork(child)) && RunningStack(s.r0) == s.procs[s.cur].ks
  {
    var c, st := ForkPages(s), ForkStack(s);
    StackExists(s);
    s.(pmem := CopyStack(RunningStack(s.r0), st.ks, c.pmem, KSTACK_PAGES),
       used := st.used,
       r0 := s.r0[TEMP := TempLeft(st.ks)],
       procs := s.procs[child := Space(c.child, st.ks)])
  }

  lemma StackExists(s: Sys)
    requires Typed(s) && RunningStack(s.r0) == s.procs[s.cur].ks
    ensures StackMappedWell(s)
  {}

  ghost predicate StackMappedWell(s: Sys)
    requires Typed(s)
  {
    FramesExist(RunningStack(s.r0), |s.pmem|) && forall e <- RunningStack(s.r0) :: e.valid
  }

  ghost function DoSwitch(s: Sys, next: Pid): Sys
    requires Typed(s) && next in s.procs
  {
    s.(r0 := StackMapped(s.r0, s.procs[next].ks), cur := next)
  }

  ghost function DoStore(s: Sys, page: nat, off: nat, b: Byte): Sys
    requires Typed(s) && page < MAX_PT_LEN && off < PAGESIZE
  {
    var e := ParentTable(s)[page];
    if e.valid && e.prot.write
    then assert e in ParentTable(s); s.(pmem := Stored(s.pmem, e.pfn, off, b))
    else s
  }

  ghost function DoBrk(s: Sys, addr: nat): Sys
    requires Typed(s)
  {
    var (b, rc) := SetBrk(true, BrkState(Heap(s.r0, s.used), s.brk), addr);
    s.(r0 := b.h.r0, used := b.h.used, brk := b.brk)
  }

  ghost function Next(s: Sys, t: Step): Sys
    requires Owned(s) && Possible(s, t)
  {
    match t
    case Fork(child) => DoFork(s, child)
    case Switch(next) => DoSwitch(s, next)
    case Store(page, off, b) => DoStore(s, page, off, b)
    case Brk(addr) => DoBrk(s, addr)
  }

  // ---------------------------------------------------------------- what a process sees

  /** What a process finds on a page of region 1: nothing, or protections and contents. */
  ghost function Sees(s: Sys, p: Pid, i: nat): Option<(Prot, Page)>
    requires Typed(s) && p in s.procs && i < MAX_PT_LEN
  {
    var e := s.procs[p].r1[i];
    if !e.valid then None else assert e in s.procs[p].r1; Some((e.prot, s.pmem[e.pfn]))
  }

  ghost predicate SeesSame(s: Sys, s': Sys, p: Pid, p': Pid)
    requires Typed(s) && Typed(s') && p in s.procs && p' in s'.procs
  {
    forall i :: 0 <= i < MAX_PT_LEN ==> Sees(s', p', i) == Sees(s, p, i)
  }

  // ---------------------------------------------------------------- switches and stores

  lemma SwitchOwned(s: Sys, next: Pid)
    requires Owned(s) && next in s.procs
    ensures Owned(DoSwitch(s, next))
  {
    var s' := DoSwitch(s, next);
    assert SpaceTyped(s.procs[next], |s.pmem|);
    MappedExist(s.r0, s.procs[next].ks, |s.pmem|);
    assert forall pl :: Exists(s', pl) <==> Exists(s, pl);
    forall pl
      ensures HoldsUsed(s', pl)
    {
      assert HoldsUsed(s, pl);
    }
    forall a, b
      ensures HoldApart(s', a, b)
    {
      assert HoldApart(s, a, b);
    }
  }

  /** Where the frame of a used place is concerned, the place decides. */
  lemma PlaceOf(s: Sys, a: Place, b: Place)
    requires Owned(s) && Holds(s, a) && Holds(s, b) && a != b
    ensures EntryAt(s, a).pfn != EntryAt(s, b).pfn
  {
    assert HoldApart(s, a, b);
  }

  lemma StoreOwned(s: Sys, page: nat, off: nat, b: Byte)
    requires Owned(s) && page < MAX_PT_LEN && off < PAGESIZE
    ensures Owned(DoStore(s, page, off, b))
  {
    var s' := DoStore(s, page, off, b);
    forall pl
      ensures HoldsUsed(s', pl)
    {
      assert HoldsUsed(s, pl);
    }
    forall x, y
      ensures HoldApart(s', x, y)
    {
      assert HoldApart(s, x, y);
    }
  }

  lemma StoreSeen(s: Sys, page: nat, off: nat, b: Byte, p: Pid, i: nat)
    requires Owned(s) && page < MAX_PT_LEN && off < PAGESIZE && p in s.procs && i < MAX_PT_LEN
             && (p != s.cur || i != page)
    ensures Typed(DoStore(s, page, off, b)) && Sees(DoStore(s, page, off, b), p, i) == Sees(s, p, i)
  {
    StoreOwned(s, page, off, b);
    assert SpaceTyped(s.procs[p], |s.pmem|);
    if Holds(s, User(s.cur, page)) && Holds(s, User(p, i)) {
      PlaceOf(s, User(s.cur, page), User(p, i));
    }
  }

  /** What the storing process itself finds: on a page it may write, the byte at the offset, and nothing
      else, is the new one; on any other page there is no change (Documentation/Yalnix Reqs.md:98-116). */
  lemma StoreFound(s: Sys, page: nat, off: nat, b: Byte)
    requires Owned(s) && page < MAX_PT_LEN && off < PAGESIZE
    ensures var s' := Next(s, Store(page, off, b)); Typed(s') && s'.cur == s.cur
    ensures var was, now := Sees(s, s.cur, page), Sees(Next(s, Store(page, off, b)), s.cur, page);
            if was.Some? && was.value.0.write
            then
              && now.Some? && now.value.0 == was.value.0
              && forall i :: 0 <= i < PAGESIZE ==> now.value.1[i] == if i == off then b else was.value.1[i]
            else Next(s, Store(page, off, b)) == s
  {
    StoreOwned(s, page, off, b);
  }

  // ---------------------------------------------------------------- the break

  lemma ShrinkOwned(s: Sys, h: Heap, i: nat, n: nat)
    requires Owned(s) && n <= KSTACK_START_PAGE && Shrunk(Heap(s.r0, s.used), h, i, n)
    ensures var s' := s.(r0 := h.r0, used := h.used); Owned(s')
  {
    var s' := s.(r0 := h.r0, used := h.used);
    assert forall e <- s'.r0 :: e in s.r0 || e == ZERO;
    forall pl
      ensures HoldsUsed(s', pl)
    {
      assert HoldsUsed(s, pl);
      if Holds(s', pl) {
        assert Holds(s, pl) && EntryAt(s', pl) == EntryAt(s, pl);
        forall j | i <= j < n && s.r0[j].valid
          ensures s.r0[j].pfn != EntryAt(s, pl).pfn
        {
          assert pl != Kernel(j);
          PlaceOf(s, Kernel(j), pl);
        }
      }
    }
    forall a, b
      ensures HoldApart(s', a, b)
    {
      assert HoldApart(s, a, b);
    }
  }

  lemma GrowOwned(s: Sys, h: Heap, i: nat, n: nat)
    requires Owned(s) && n <= TEMP && Grown(Heap(s.r0, s.used), h, i, n)
    ensures var s' := s.(r0 := h.r0, used := h.used); Owned(s')
  {
    var s' := s.(r0 := h.r0, used := h.used);
    assert forall e <- s'.r0 :: e in s.r0 || e.pfn < |s.used|;
    forall pl
      ensures HoldsUsed(s', pl)
    {
      assert HoldsUsed(s, pl);
      if Holds(s', pl) && !(pl.Kernel? && i <= pl.i < n) {
        assert EntryAt(s', pl) == EntryAt(s, pl);
      }
    }
    forall a, b
      ensures HoldApart(s', a, b)
    {
      GrowApart(s, h, i, n, a, b);
    }
  }

  lemma GrowApart(s: Sys, h: Heap, i: nat, n: nat, a: Place, b: Place)
    requires Owned(s) && n <= TEMP && Grown(Heap(s.r0, s.used), h, i, n)
    ensures var s' := s.(r0 := h.r0, used := h.used); HoldApart(s', a, b)
  {
    var s' := s.(r0 := h.r0, used := h.used);
    assert HoldApart(s, a, b) && HoldsUsed(s, a) && HoldsUsed(s, b);
    var na, nb := a.Kernel? && i <= a.i < n, b.Kernel? && i <= b.i < n;
    if Holds(s', a) && Holds(s', b) {
      if !na { assert EntryAt(s', a) == EntryAt(s, a); }
      if !nb { assert EntryAt(s', b) == EntryAt(s, b); }
    }
  }

  lemma BrkOwned(s: Sys, addr: nat)
    requires Owned(s)
    ensures Owned(DoBrk(s, addr))
  {
    var cur, new_ := s.brk / PAGESIZE, addr / PAGESIZE;
    if !Refused(addr) {
      if new_ < cur { ShrinkCall(s, addr); } else { GrowCall(s, addr); }
    }
  }

  lemma ShrinkCall(s: Sys, addr: nat)
    requires Owned(s) && !Refused(addr) && addr / PAGESIZE < s.brk / PAGESIZE
    ensures Owned(DoBrk(s, addr))
  {
    var cur, new_ := s.brk / PAGESIZE, addr / PAGESIZE;
    var h := Heap(s.r0, s.used);
    var h' := Shrink(h, new_, cur);
    ShrinkDrops(h, new_, cur);
    ShrinkOwned(s, h', new_, cur);
    BreakMoved(s.(r0 := h'.r0, used := h'.used), addr);
  }

  lemma GrowCall(s: Sys, addr: nat)
    requires Owned(s) && !Refused(addr) && addr / PAGESIZE >= s.brk / PAGESIZE
    ensures Owned(DoBrk(s, addr))
  {
    var cur, new_ := s.brk / PAGESIZE, addr / PAGESIZE;
    var h := Heap(s.r0, s.used);
    var h' := Grow(h, cur, new_).0;
    var m := GrowReaches(h, cur, new_);
    GrowOwned(s, h', cur, m);
    BreakMoved(s.(r0 := h'.r0, used := h'.used), addr);
  }

  lemma BreakMoved(s: Sys, brk: nat)
    requires Owned(s) && brk / PAGESIZE < KSTACK_START_PAGE
    ensures Owned(s.(brk := brk))
  {
    var s' := s.(brk := brk);
    assert forall pl :: Exists(s', pl) <==> Exists(s, pl);
    forall pl
      ensures HoldsUsed(s', pl)
    {
      assert HoldsUsed(s, pl);
    }
    forall x, y
      ensures HoldApart(s', x, y)
    {
      assert HoldApart(s, x, y);
    }
  }

  // ---------------------------------------------------------------- forks

  /** What the copies of a fork come to. */
  ghost predicate ForkFacts(s: Sys, s': Sys, child: Pid)
    requires Typed(s) && child in s'.procs
  {
    var parent, sp := ParentTable(s), s'.procs[child];
    && |sp.r1| == MAX_PT_LEN && |sp.ks| == KSTACK_PAGES && |s'.used| == |s'.pmem| == |s.used|
    && (forall f :: 0 <= f < |s.used| && s.used[f] ==> s'.used[f] && s'.pmem[f] == s.pmem[f])
    && (forall i :: 0 <= i < MAX_PT_LEN ==> PageForked(s, s', parent[i], sp.r1[i]))
    && (forall i :: 0 <= i < KSTACK_PAGES ==> FrameForked(s, s', s.procs[s.cur].ks[i], sp.ks[i]))
    && (forall i, j :: 0 <= i < j < MAX_PT_LEN && sp.r1[i].valid && sp.r1[j].valid ==> sp.r1[i].pfn != sp.r1[j].pfn)
    && (forall i, j :: 0 <= i < j < KSTACK_PAGES ==> sp.ks[i].pfn != sp.ks[j].pfn)
    && (forall i, j :: 0 <= i < MAX_PT_LEN && 0 <= j < KSTACK_PAGES && sp.r1[i].valid ==> sp.r1[i].pfn != sp.ks[j].pfn)
  }

  ghost predicate PageForked(s: Sys, s': Sys, e: Pte, e': Pte) {
    && (e'.valid <==> e.valid)
    && (e.valid ==> e'.prot == e.prot && FrameForked(s, s', e, e'))
  }

  /** On a frame that was free, with the contents of the original. */
  ghost predicate FrameForked(s: Sys, s': Sys, e: Pte, e': Pte) {
    && e'.valid && e'.pfn < |s.used| && !s.used[e'.pfn]
    && e'.pfn < |s'.used| && s'.used[e'.pfn]
    && e.pfn < |s.pmem| && e'.pfn < |s'.pmem| && s'.pmem[e'.pfn] == s.pmem[e.pfn]
  }

  lemma TablesInUse(s: Sys)
    requires Owned(s)
    ensures InUse(ParentTable(s), s.used) && InUse(RunningStack(s.r0), s.used)
  {
    forall e <- ParentTable(s) | e.valid
      ensures e.pfn < |s.used| && s.used[e.pfn]
    {
      var i :| 0 <= i < |ParentTable(s)| && ParentTable(s)[i] == e;
      assert HoldsUsed(s, User(s.cur, i));
    }
    forall e <- RunningStack(s.r0) | e.valid
      ensures e.pfn < |s.used| && s.used[e.pfn]
    {
      var i :| 0 <= i < |s.procs[s.cur].ks| && s.procs[s.cur].ks[i] == e;
      assert HoldsUsed(s, Place.Stack(s.cur, i));
    }
  }

  lemma PagesForked(s: Sys)
    requires Owned(s) && Need(ParentTable(s), 0) <= FreeCount(s.used, 0)
    ensures Copied(ParentTable(s), Copy(NoPages(), s.pmem, s.used), ForkPages(s), 0)
            && InUse(RunningStack(s.r0), ForkPages(s).used)
  {
    TablesInUse(s);
    CopyIsFaithful(ParentTable(s), Copy(NoPages(), s.pmem, s.used), 0);
  }

  lemma StacksApart(s: Sys)
    requires Owned(s) && Need(ParentTable(s), 0) + KSTACK_PAGES <= FreeCount(s.used, 0)
    ensures OwnStack(RunningStack(s.r0), ForkStack(s).ks)
  {
    PagesForked(s);
    var st, from := ForkStack(s), RunningStack(s.r0);
    StackExists(s);
    forall i, j | 0 <= i < |st.ks| && 0 <= j < |from|
      ensures st.ks[i].pfn != from[j].pfn
    {
      assert from[j] in from;
    }
  }

  /** The kernel stack: copied, and nothing that was in use before it disturbed. */
  lemma StackForked(s: Sys, m: seq<Page>)
    requires Owned(s) && Need(ParentTable(s), 0) + KSTACK_PAGES <= FreeCount(s.used, 0)
    requires StackMappedWell(s) && m == CopyStack(RunningStack(s.r0), ForkStack(s).ks, ForkPages(s).pmem, KSTACK_PAGES)
    ensures StackCopied(RunningStack(s.r0), ForkStack(s).ks, ForkPages(s).pmem, m, KSTACK_PAGES)
    ensures forall f :: 0 <= f < |s.used| && ForkPages(s).used[f] ==> m[f] == ForkPages(s).pmem[f]
  {
    StacksApart(s);
    StackIsCopied(RunningStack(s.r0), ForkStack(s).ks, ForkPages(s).pmem);
  }

  lemma StackUndisturbed(s: Sys)
    requires Owned(s) && Need(ParentTable(s), 0) <= FreeCount(s.used, 0)
    ensures var from := RunningStack(s.r0);
            forall i :: 0 <= i < KSTACK_PAGES ==>
                from[i].pfn < |s.pmem| && ForkPages(s).pmem[from[i].pfn] == s.pmem[from[i].pfn]
  {
    PagesForked(s);
    TablesInUse(s);
    StackExists(s);
    var from := RunningStack(s.r0);
    forall i | 0 <= i < KSTACK_PAGES
      ensures from[i].pfn < |s.pmem| && ForkPages(s).pmem[from[i].pfn] == s.pmem[from[i].pfn]
    {
      assert from[i] in from;
    }
  }

  lemma ForkHasFacts(s: Sys, child: Pid)
    requires Owned(s) && Possible(s, Fork(child))
    ensures ForkFacts(s, DoFork(s, child), child)
  {
    StackExists(s);
    PagesForked(s);
    StackForked(s, DoFork(s, child).pmem);
    ForkCopiesPages(s, child);
    ForkCopiesStack(s, child);
    ForkFramesDiffer(s);
  }

  /** The child's pages and its kernel stack are all on different frames. */
  lemma ForkFramesDiffer(s: Sys)
    requires Owned(s) && Need(ParentTable(s), 0) + KSTACK_PAGES <= FreeCount(s.used, 0) && StackMappedWell(s)
    ensures var r1, ks := ForkPages(s).child, ForkStack(s).ks;
            && |r1| == MAX_PT_LEN && |ks| == KSTACK_PAGES
            && (forall i, j :: 0 <= i < j < MAX_PT_LEN && r1[i].valid && r1[j].valid ==> r1[i].pfn != r1[j].pfn)
            && (forall i, j :: 0 <= i < j < KSTACK_PAGES ==> ks[i].pfn != ks[j].pfn)
            && forall i, j :: 0 <= i < MAX_PT_LEN && 0 <= j < KSTACK_PAGES && r1[i].valid ==> r1[i].pfn != ks[j].pfn
  {
    PagesForked(s);
    StackForked(s, CopyStack(RunningStack(s.r0), ForkStack(s).ks, ForkPages(s).pmem, KSTACK_PAGES));
  }

  lemma ForkCopiesPages(s: Sys, child: Pid)
    requires Owned(s) && Possible(s, Fork(child))
    ensures forall i :: 0 <= i < MAX_PT_LEN ==>
            PageForked(s, DoFork(s, child), ParentTable(s)[i], ForkPages(s).child[i])
  {
    StackExists(s);
    PagesForked(s);
    StackForked(s, DoFork(s, child).pmem);
    var s', c, parent := DoFork(s, child), ForkPages(s), ParentTable(s);
    forall i | 0 <= i < MAX_PT_LEN
      ensures PageForked(s, s', parent[i], c.child[i])
    {
      if parent[i].valid { assert PageCopied(parent[i], Copy(NoPages(), s.pmem, s.used), c, i); }
    }
  }

  lemma ForkCopiesStack(s: Sys, child: Pid)
    requires Owned(s) && Possible(s, Fork(child))
    ensures forall i :: 0 <= i < KSTACK_PAGES ==>
            FrameForked(s, DoFork(s, child), s.procs[s.cur].ks[i], ForkStack(s).ks[i])
  {
    StackExists(s);
    PagesForked(s);
    StackForked(s, DoFork(s, child).pmem);
    StackUndisturbed(s);
    forall i | 0 <= i < KSTACK_PAGES
      ensures FrameForked(s, DoFork(s, child), s.procs[s.cur].ks[i], ForkStack(s).ks[i])
    {
      assert s.procs[s.cur].ks[i] == RunningStack(s.r0)[i];
    }
  }

  ghost predicate ForkShape(s: Sys, s': Sys, child: Pid)
    requires Typed(s) && child in s'.procs && |s'.procs[child].ks| == KSTACK_PAGES
  {
    s' == s.(pmem := s'.pmem, used := s'.used, r0 := s.r0[TEMP := TempLeft(s'.procs[child].ks)],
             procs := s.procs[child := s'.procs[child]])
  }

  lemma ForkTyped(s: Sys, s': Sys, child: Pid)
    requires Owned(s) && child !in s.procs && child in s'.procs && ForkFacts(s, s', child)
    requires ForkShape(s, s', child)
    ensures Typed(s')
  {
    assert SpaceTyped(s'.procs[child], |s'.pmem|);
    forall p <- s'.procs
      ensures SpaceTyped(s'.procs[p], |s'.pmem|)
    {
      if p != child { assert SpaceTyped(s.procs[p], |s.pmem|); }
    }
  }

  /** A place of the child holds a frame that was free. */
  lemma ChildHolds(s: Sys, s': Sys, child: Pid, pl: Place)
    requires Typed(s) && child in s'.procs && ForkFacts(s, s', child) && Holds(s', pl) && !pl.Kernel? && pl.p == child
    ensures var f := EntryAt(s', pl).pfn; f < |s.used| == |s'.used| && !s.used[f] && s'.used[f]
  {
    if pl.User? {
      assert PageForked(s, s', ParentTable(s)[pl.i], s'.procs[child].r1[pl.i]);
    } else {
      assert FrameForked(s, s', s.procs[s.cur].ks[pl.i], s'.procs[child].ks[pl.i]);
    }
  }

  lemma ForkApart(s: Sys, s': Sys, child: Pid, a: Place, b: Place)
    requires Owned(s) && child !in s.procs && child in s'.procs && ForkFacts(s, s', child)
    requires ForkShape(s, s', child)
    ensures HoldsUsed(s', a) && HoldApart(s', a, b)
  {
    assert HoldsUsed(s, a) && HoldsUsed(s, b) && HoldApart(s, a, b);
    HeldAfterFork(s, s', child, a);
    HeldAfterFork(s, s', child, b);
  }

  /** A frame held after a fork is a new one of the child's, or was held at the same place before. */
  lemma HeldAfterFork(s: Sys, s': Sys, child: Pid, pl: Place)
    requires Owned(s) && child !in s.procs && child in s'.procs && ForkFacts(s, s', child)
    requires ForkShape(s, s', child)
    ensures Holds(s', pl) ==> if !pl.Kernel? && pl.p == child then
              var f := EntryAt(s', pl).pfn; f < |s.used| == |s'.used| && !s.used[f] && s'.used[f]
            else Holds(s, pl) && EntryAt(s, pl) == EntryAt(s', pl)
  {
    if Holds(s', pl) && !pl.Kernel? && pl.p == child { ChildHolds(s, s', child, pl); }
  }

  lemma ForkOwned(s: Sys, child: Pid)
    requires Owned(s) && Possible(s, Fork(child))
    ensures Owned(DoFork(s, child))
  {
    var s' := DoFork(s, child);
    ForkHasFacts(s, child);
    ForkTyped(s, s', child);
    forall a
      ensures HoldsUsed(s', a)
    {
      ForkApart(s, s', child, a, a);
    }
    forall a, b
      ensures HoldApart(s', a, b)
    {
      ForkApart(s, s', child, a, b);
    }
  }

  /** After a fork the child sees what the parent sees, page by page; its kernel stack holds what the
      parent's does; and the parent and everybody else see what they saw. */
  lemma ForkCopies(s: Sys, child: Pid)
    requires Owned(s) && Possible(s, Fork(child))
    ensures var s' := DoFork(s, child);
            && Typed(s') && child in s'.procs && SeesSame(s, s', s.cur, child)
            && (forall p <- s.procs :: p in s'.procs && SeesSame(s, s', p, p))
            && (forall i :: 0 <= i < KSTACK_PAGES ==> FrameForked(s, s', s.procs[s.cur].ks[i], s'.procs[child].ks[i]))
  {
    var s' := DoFork(s, child);
    ForkHasFacts(s, child);
    ForkTyped(s, s', child);
    forall i | 0 <= i < MAX_PT_LEN
      ensures Sees(s', child, i) == Sees(s, s.cur, i)
    {
      assert PageForked(s, s', ParentTable(s)[i], s'.procs[child].r1[i]);
    }
    forall p, i | p in s.procs && 0 <= i < MAX_PT_LEN
      ensures Sees(s', p, i) == Sees(s, p, i)
    {
      assert SpaceTyped(s.procs[p], |s.pmem|);
      assert HoldsUsed(s, User(p, i));
    }
  }

  // ---------------------------------------------------------------- every step, every run

  lemma StepOwned(s: Sys, t: Step)
    requires Owned(s) && Possible(s, t)
    ensures Owned(Next(s, t)) && s.procs.Keys <= Next(s, t).procs.Keys
  {
    match t
    case Fork(child) => ForkOwned(s, child);
    case Switch(next) => SwitchOwned(s, next);
    case Store(page, off, b) => StoreOwned(s, page, off, b);
    case Brk(addr) => BrkOwned(s, addr);
  }

  /** What a process sees changes only where it stores itself. */
  lemma StepIsolates(s: Sys, t: Step, p: Pid)
    requires Owned(s) && Possible(s, t) && p in s.procs && !(t.Store? && p == s.cur)
    ensures p in Next(s, t).procs && Typed(Next(s, t)) && SeesSame(s, Next(s, t), p, p)
  {
    StepOwned(s, t);
    assert SpaceTyped(s.procs[p], |s.pmem|);
    match t
    case Fork(child) => ForkCopies(s, child);
    case Store(page, off, b) =>
      forall i | 0 <= i < MAX_PT_LEN
        ensures Sees(Next(s, t), p, i) == Sees(s, p, i)
      {
        StoreSeen(s, page, off, b, p, i);
      }
    case _ =>
  }

  ghost predicate PossibleRun(s: Sys, ts: seq<Step>)
    requires Owned(s)
    decreases |ts|
  {
    ts == [] || (Possible(s, ts[0]) && (StepOwned(s, ts[0]); PossibleRun(Next(s, ts[0]), ts[1..])))
  }

  ghost function Run(s: Sys, ts: seq<Step>): (s': Sys)
    requires Owned(s) && PossibleRun(s, ts)
    ensures Owned(s') && s.procs.Keys <= s'.procs.Keys
    decreases |ts|
  {
    if ts == [] then s else StepOwned(s, ts[0]); Run(Next(s, ts[0]), ts[1..])
  }

  /** p stores nothing in the course of the run. */
  ghost predicate Silent(s: Sys, ts: seq<Step>, p: Pid)
    requires Owned(s) && PossibleRun(s, ts)
    decreases |ts|
  {
    ts == [] || (!(ts[0].Store? && p == s.cur) && (StepOwned(s, ts[0]); Silent(Next(s, ts[0]), ts[1..], p)))
  }

  /** However long the others run, fork, switch, store and move the break, a process that stores
      nothing finds every page of its own as it was. */
  lemma {:induction false} EveryRunIsolates(s: Sys, ts: seq<Step>, p: Pid)
    requires Owned(s) && PossibleRun(s, ts) && p in s.procs && Silent(s, ts, p)
    ensures p in Run(s, ts).procs && SeesSame(s, Run(s, ts), p, p)
    decreases |ts|
  {
    if ts != [] {
      StepOwned(s, ts[0]);
      StepIsolates(s, ts[0], p);
      EveryRunIsolates(Next(s, ts[0]), ts[1..], p);
    }
  }
}
