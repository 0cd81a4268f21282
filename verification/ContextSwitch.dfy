/** context_switch.c as it runs, every access through the TLB.  The entry of the temporary page is
    not flushed when its mapping is removed, so it may be stale between copies. */
module ContextSwitch {
  import opened Hardware
  import opened Frames
  import opened Memory
  import opened MemoryCode
  import opened ForkCopy

  ghost predicate Others(r: seq<Pte>, r': seq<Pte>) {
    |r| == |r'| == MAX_PT_LEN && (forall i :: 0 <= i < MAX_PT_LEN && i != TEMP ==> r'[i] == r[i]) && !r'[TEMP].valid
  }

  /** setup_temp_mapping (context_switch.c:137-144). */
  method SetupTempMapping(m: Machine, pfn: nat)
    requires Ready(m) && pfn < m.pmem.Length
    modifies m`tlb, m.region0
    ensures m.Valid() && m.StaleOnly({}) && m.region0[..] == old(m.region0[..])[TEMP := Pte(true, READ_WRITE, pfn)]
  {
    m.region0[TEMP] := Pte(true, READ_WRITE, pfn);
    assert m.region0[..] == old(m.region0[..])[TEMP := Pte(true, READ_WRITE, pfn)];
    m.FlushPage(TEMP, {});
  }

  /** remove_temp_mapping (context_switch.c:150-155): the page table forgets the mapping, the TLB
      may not. */
  method RemoveTempMapping(m: Machine)
    requires m.Valid() && m.StaleOnly({})
    modifies m.region0
    ensures Ready(m) && m.region0[..] == old(m.region0[..])[TEMP := old(m.region0[TEMP]).(valid := false)]
  {
    m.region0[TEMP] := m.region0[TEMP].(valid := false);
    assert m.region0[..] == old(m.region0[..])[TEMP := old(m.region0[TEMP]).(valid := false)];
  }

  /** A page copied into a frame through the temporary mapping (context_switch.c:80-86, 106-108).
      The setup flushes, so no stale entry is ever used. */
  method CopyThroughTemp(m: Machine, pfn: nat, src: nat)
    requires Ready(m) && pfn < m.pmem.Length && src < 2 * MAX_PT_LEN && src != TEMP && m.Lookup(src).valid
    modifies m`tlb, m.region0, m.pmem
    ensures Ready(m) && m.region0[..] == old(m.region0[..])[TEMP := Pte(false, READ_WRITE, pfn)]
    ensures m.Lookup(src) == old(m.Lookup(src)) && m.Lookup(src).pfn < m.pmem.Length
    ensures m.pmem[..] == old(m.pmem[..])[pfn := old(m.pmem[m.Lookup(src).pfn])]
  {
    ghost var r := m.region0[..];
    m.LookupExists(src);
    SetupTempMapping(m, pfn);
    assert forall i :: 0 <= i < MAX_PT_LEN && i != TEMP ==> m.region0[i] == m.region0[..][i] == r[i];
    assert m.region0[TEMP] == m.region0[..][TEMP];
    m.CopyPage(TEMP, src, {});
    RemoveTempMapping(m);
    assert forall i :: 0 <= i < MAX_PT_LEN ==> m.region0[i] == m.region0[..][i];
  }

  ghost function CopyOf(m: Machine, child: array<Pte>): Copy
    reads m, m.pmem, m.frameBitMap, child
  {
    Copy(child[..], m.pmem[..], m.frameBitMap[..])
  }

  /** Page i of the parent is copied to a new frame of the child (context_switch.c:101-112). */
  method CopyPageTo(m: Machine, child: array<Pte>, i: nat)
    requires Ready(m) && child != m.region0 && child != m.ptbr1 && i < MAX_PT_LEN && m.ptbr1[i].valid
    requires Fits(m.ptbr1[..], CopyOf(m, child), i)
    modifies m`tlb, m.region0, m.pmem, m.frameBitMap, child
    ensures Ready(m) && Others(old(m.region0[..]), m.region0[..])
    ensures CopyOf(m, child) == CopyOne(m.ptbr1[..], old(CopyOf(m, child)), i)
  {
    NoneFree(m.frameBitMap[..], 0);
    var childFrame := AllocateFrame(m.frameBitMap);
    child[i] := child[i].(pfn := childFrame);
    CopyThroughTemp(m, childFrame, i + MAX_PT_LEN);
    child[i] := child[i].(prot := m.ptbr1[i].prot, valid := true);
    assert child[..] == old(child[..])[i := Pte(true, m.ptbr1[i].prot, childFrame)];
  }

  /** CopyPageTable (context_switch.c:95-114), for the parent whose table the hardware walks. */
  method CopyPageTable(m: Machine, child: array<Pte>)
    requires Ready(m) && !m.region0[TEMP].valid && child != m.region0 && child != m.ptbr1
    requires Fits(m.ptbr1[..], CopyOf(m, child), 0)
    modifies m`tlb, m.region0, m.pmem, m.frameBitMap, child
    ensures Ready(m) && Others(old(m.region0[..]), m.region0[..])
    ensures CopyOf(m, child) == CopyPages(m.ptbr1[..], old(CopyOf(m, child)), 0)
  {
    ghost var parent, c := m.ptbr1[..], CopyOf(m, child);
    var i := 0;
    while i < MAX_PT_LEN
      invariant 0 <= i <= MAX_PT_LEN && Ready(m) && Others(old(m.region0[..]), m.region0[..])
      invariant Fits(parent, CopyOf(m, child), i) && CopyPages(parent, CopyOf(m, child), i) == CopyPages(parent, c, 0)
    {
      if m.ptbr1[i].valid {
        CopyPageTo(m, child, i);
      }
      i := i + 1;
    }
  }

  /** The next page of a kernel stack (memory.c:222-231). */
  method StackPage(m: Machine, ghost used: seq<bool>, ghost n: nat, ghost ks: seq<Pte>) returns (pfn: int)
    requires m.Valid() && StackSoFar(used, n, m.frameBitMap[..], ks)
    modifies m.frameBitMap
    ensures pfn == ERROR || pfn >= 0
    ensures if pfn == ERROR then NewStack(used, n + 1).None?
            else StackSoFar(used, n + 1, m.frameBitMap[..], ks + [Pte(true, READ_WRITE, pfn)])
  {
    StackFrameMore(used, n, m.frameBitMap[..], ks);
    pfn := AllocateFrame(m.frameBitMap);
  }

  /** The first n pages of the new stack are ks, and u the bitmap after them. */
  ghost predicate StackSoFar(used: seq<bool>, n: nat, u: seq<bool>, ks: seq<Pte>) {
    NUM_VPN <= |used| && NewStack(used, n) == Some(Stack(u, ks))
  }

  /** InitializeKernelStack with paging on (memory.c:220-232); None: the machine has halted. */
  method InitializeKernelStack(m: Machine) returns (r: Option<seq<Pte>>)
    requires m.Valid()
    modifies m.frameBitMap
    ensures var s := NewStack(old(m.frameBitMap[..]), KSTACK_PAGES);
            && (r.Some? <==> s.Some?)
            && (s.Some? ==> r.value == s.value.ks && m.frameBitMap[..] == s.value.used)
  {
    var ks: seq<Pte> := [];
    var vpn := 0;
    ghost var used := m.frameBitMap[..];
    while vpn < KSTACK_PAGES
      invariant 0 <= vpn <= KSTACK_PAGES && m.Valid()
      invariant StackSoFar(used, vpn, m.frameBitMap[..], ks)
    {
      var pfn := StackPage(m, used, vpn, ks);
      if pfn == ERROR {
        NoStack(used, vpn + 1, KSTACK_PAGES);
        return None;
      }
      ks := ks + [Pte(true, READ_WRITE, pfn)];
      vpn := vpn + 1;
    }
    return Some(ks);
  }

  lemma StackFrameMore(used: seq<bool>, n: nat, u: seq<bool>, ks: seq<Pte>)
    requires NUM_VPN <= |used| && NewStack(used, n) == Some(Stack(u, ks))
    ensures NewStack(used, n + 1) == var (u', f) := Allocate(u);
            if f == ERROR then None else Some(Stack(u', ks + [Pte(true, READ_WRITE, f)]))
  {}

  lemma {:induction false} NoStack(used: seq<bool>, n: nat, m: nat)
    requires NUM_VPN <= |used| && n <= m && NewStack(used, n).None?
    ensures NewStack(used, m).None?
  {
    if n < m { NoStack(used, n, m - 1); }
  }

  ghost function RunningStack(r0: seq<Pte>): seq<Pte>
    requires |r0| == MAX_PT_LEN
  {
    r0[KSTACK_START_PAGE..KSTACK_START_PAGE + KSTACK_PAGES]
  }

  /** KCCopy (context_switch.c:63-93): the running kernel stack is copied into the frames of the new
      one. */
  method KCCopy(m: Machine, kernelStack: seq<Pte>)
    requires Ready(m) && !m.region0[TEMP].valid && |kernelStack| == KSTACK_PAGES
             && FramesExist(kernelStack, m.pmem.Length)
    requires forall e <- kernelStack :: e.valid
    requires forall e <- RunningStack(m.region0[..]) :: e.valid && e.pfn < m.pmem.Length
    modifies m`tlb, m.region0, m.pmem
    ensures Ready(m)
            && m.region0[..] == old(m.region0[..])[TEMP := Pte(false, READ_WRITE, kernelStack[KSTACK_PAGES - 1].pfn)]
    ensures m.pmem[..] == CopyStack(RunningStack(old(m.region0[..])), kernelStack, old(m.pmem[..]), KSTACK_PAGES)
  {
    ghost var from := RunningStack(m.region0[..]);
    var i := 0;
    while i < KSTACK_PAGES
      invariant 0 <= i <= KSTACK_PAGES && Ready(m)
      invariant m.region0[..] == if i == 0 then old(m.region0[..])
                else old(m.region0[..])[TEMP := Pte(false, READ_WRITE, kernelStack[i - 1].pfn)]
      invariant m.pmem[..] == CopyStack(from, kernelStack, old(m.pmem[..]), i)
    {
      assert from[i] in from && from[i] == m.region0[..][KSTACK_START_PAGE + i];
      assert kernelStack[i] in kernelStack;
      CopyThroughTemp(m, kernelStack[i].pfn, KSTACK_START_PAGE + i);
      i := i + 1;
    }
    m.FlushStack({TEMP});
  }

  /** map_kernel_stack (context_switch.c:167-173). */
  method MapKernelStack(m: Machine, kernelStack: seq<Pte>)
    requires m.Valid() && |kernelStack| == KSTACK_PAGES && FramesExist(kernelStack, m.pmem.Length)
    modifies m.region0
    ensures m.Valid() && m.region0[..] == StackMapped(old(m.region0[..]), kernelStack)
    ensures forall i :: 0 <= i < MAX_PT_LEN && !OnStack(i) ==> m.region0[i] == old(m.region0[i])
    ensures forall i :: 0 <= i < KSTACK_PAGES ==> m.region0[KSTACK_START_PAGE + i] == kernelStack[i]
  {
    var i := 0;
    while i < KSTACK_PAGES
      invariant 0 <= i <= KSTACK_PAGES
      invariant m.region0[..]
                == old(m.region0[..])[..KSTACK_START_PAGE] + kernelStack[..i]
                    + old(m.region0[..])[KSTACK_START_PAGE + i..]
    {
      m.region0[KSTACK_START_PAGE + i] := kernelStack[i];
      i := i + 1;
    }
    assert kernelStack[..KSTACK_PAGES] == kernelStack;
    MappedExist(old(m.region0[..]), kernelStack, m.pmem.Length);
    OnlyTheStack(old(m.region0[..]), kernelStack);
    forall i | 0 <= i < MAX_PT_LEN
      ensures m.region0[i] == m.region0[..][i]
    {}
  }

  /** The pages of the kernel stack. */
  predicate OnStack(i: nat) {
    KSTACK_START_PAGE <= i < KSTACK_START_PAGE + KSTACK_PAGES
  }

  /** Page by page: the stack's entries are the given ones, the others are as they were. */
  lemma OnlyTheStack(r0: seq<Pte>, ks: seq<Pte>)
    requires |r0| == MAX_PT_LEN && |ks| == KSTACK_PAGES
    ensures forall i :: 0 <= i < MAX_PT_LEN && !OnStack(i) ==> StackMapped(r0, ks)[i] == r0[i]
    ensures forall i :: 0 <= i < KSTACK_PAGES ==> StackMapped(r0, ks)[KSTACK_START_PAGE + i] == ks[i]
  {}

  ghost function StackMapped(r0: seq<Pte>, ks: seq<Pte>): (r: seq<Pte>)
    requires |r0| == MAX_PT_LEN && |ks| == KSTACK_PAGES
    ensures |r| == MAX_PT_LEN
  {
    r0[..KSTACK_START_PAGE] + ks + r0[KSTACK_START_PAGE + KSTACK_PAGES..]
  }

  lemma MappedExist(r0: seq<Pte>, ks: seq<Pte>, frames: nat)
    requires |r0| == MAX_PT_LEN && |ks| == KSTACK_PAGES && FramesExist(r0, frames) && FramesExist(ks, frames)
    ensures FramesExist(StackMapped(r0, ks), frames)
  {}

  /** The memory side of KCSwitch (context_switch.c:16-60): afterwards translation through the TLB is
      the lookup in the next process's tables, on every page. */
  method KCSwitch(m: Machine, kernelStack: seq<Pte>, region1: array<Pte>)
    requires m.Valid() && |kernelStack| == KSTACK_PAGES && FramesExist(kernelStack, m.pmem.Length)
    requires region1.Length == MAX_PT_LEN && region1 != m.region0 && FramesExist(region1[..], m.pmem.Length)
    modifies m`tlb, m`ptbr1, m.region0
    ensures m.Valid() && m.StaleOnly({}) && m.ptbr1 == region1
    ensures m.region0[..] == StackMapped(old(m.region0[..]), kernelStack)
    ensures forall i :: 0 <= i < MAX_PT_LEN && !OnStack(i) ==> m.region0[i] == old(m.region0[i])
    ensures forall i :: 0 <= i < KSTACK_PAGES ==> m.region0[KSTACK_START_PAGE + i] == kernelStack[i]
  {
    MapKernelStack(m, kernelStack);
    m.ptbr1 := region1;
    m.FlushAll();
  }

  // ---------------------------------------------------------------- user accesses

  /** A byte stored by the running process at an offset of one of its pages. */
  method UserStore(m: Machine, page: nat, off: nat, b: Byte) returns (fault: bool)
    requires Ready(m) && page < MAX_PT_LEN && off < PAGESIZE
    modifies m`tlb, m.pmem
    ensures Ready(m) && (fault <==> !(m.ptbr1[page].valid && m.ptbr1[page].prot.write))
    ensures fault ==> m.pmem[..] == old(m.pmem[..])
    ensures !fault ==>
            m.ptbr1[page].pfn < m.pmem.Length && m.pmem[..] == Stored(old(m.pmem[..]), m.ptbr1[page].pfn, off, b)
    ensures !fault ==> forall f, i :: 0 <= f < m.pmem.Length && 0 <= i < PAGESIZE ==>
              m.pmem[f][i] == if f == m.ptbr1[page].pfn && i == off then b else old(m.pmem[f][i])
  {
    if !m.ptbr1[page].valid {
      return true;
    }
    m.LookupExists(page + MAX_PT_LEN);
    var pte := m.Translate(page + MAX_PT_LEN, {TEMP});
    if !pte.prot.write {
      return true;
    }
    m.pmem[pte.pfn] := m.pmem[pte.pfn][off := b];
    return false;
  }

  ghost function Stored(pmem: seq<Page>, pfn: nat, off: nat, b: Byte): (pmem': seq<Page>)
    requires pfn < |pmem| && off < PAGESIZE
    ensures |pmem'| == |pmem|
  {
    pmem[pfn := pmem[pfn][off := b]]
  }
}
