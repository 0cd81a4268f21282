/** memory.c as it runs: page tables and bitmap changed entry by entry, the TLB flushed as it goes. */
module MemoryCode {
  import opened Hardware
  import opened Frames
  import opened Memory
  import opened KernelBreak

  ghost function HeapOf(m: Machine): Heap
    reads m, m.region0, m.frameBitMap
  {
    Heap(m.region0[..], m.frameBitMap[..])
  }

  /** The two tables and the bitmap that a frame count is about, and nothing stale but the page for
      temporary mappings. */
  ghost predicate Ready(m: Machine)
    reads m, m.pmem, m.frameBitMap, m.region0, m.ptbr1
  {
    m.Valid() && m.StaleOnly({TEMP})
  }

  /** One page given back (memory.c:74-91). */
  method DropPage(m: Machine, i: nat)
    requires Ready(m) && i < MAX_PT_LEN
    modifies m`tlb, m.region0, m.frameBitMap
    ensures Ready(m) && HeapOf(m) == Drop(old(HeapOf(m)), i)
  {
    assert m.region0[i] in m.region0[..];
    if m.region0[i].valid {
      var pfnToFree := m.region0[i].pfn;
      FreeFrame(m.frameBitMap, pfnToFree);
      m.frameBitMap[pfnToFree] := false;
      m.region0[i] := ZERO;
      assert m.region0[..] == old(m.region0[..])[i := ZERO];
      assert m.frameBitMap[..] == old(m.frameBitMap[..])[pfnToFree := false];
    }
    m.FlushPage(i, {TEMP});
  }

  /** One page mapped to a frame (memory.c:108-124). */
  method GrowPage(m: Machine, i: nat) returns (ok: bool)
    requires Ready(m) && i < MAX_PT_LEN
    modifies m`tlb, m.region0, m.frameBitMap
    ensures Ready(m)
    ensures var (used, pfn) := Allocate(old(m.frameBitMap[..]));
            && (ok <==> pfn != ERROR)
            && HeapOf(m) == if ok then Heap(old(m.region0[..])[i := Pte(true, READ_WRITE, pfn)], used)
                else old(HeapOf(m))
  {
    var pfn := AllocateFrame(m.frameBitMap);
    if pfn == ERROR {
      return false;
    }
    m.frameBitMap[pfn] := true;
    m.region0[i] := Pte(true, READ_WRITE, pfn);
    assert m.region0[..] == old(m.region0[..])[i := Pte(true, READ_WRITE, pfn)];
    assert m.frameBitMap[..] == Allocate(old(m.frameBitMap[..])).0;
    m.FlushPage(i, {TEMP});
    return true;
  }

  /** memory.c:73-93. */
  method ShrinkTo(m: Machine, newPage: nat, currentPage: nat)
    requires Ready(m) && newPage <= currentPage <= MAX_PT_LEN
    modifies m`tlb, m.region0, m.frameBitMap
    ensures Ready(m) && HeapOf(m) == Shrink(old(HeapOf(m)), newPage, currentPage)
  {
    var i := newPage;
    while i < currentPage
      invariant newPage <= i <= currentPage && Ready(m)
      invariant Shrink(HeapOf(m), i, currentPage) == Shrink(old(HeapOf(m)), newPage, currentPage)
    {
      DropPage(m, i);
      i := i + 1;
    }
  }

  /** memory.c:99-126. */
  method GrowTo(m: Machine, currentPage: nat, newPage: nat) returns (ok: bool)
    requires Ready(m) && currentPage <= newPage <= MAX_PT_LEN
    modifies m`tlb, m.region0, m.frameBitMap
    ensures Ready(m) && (HeapOf(m), ok) == Grow(old(HeapOf(m)), currentPage, newPage)
  {
    var i := currentPage;
    ok := true;
    while i < newPage && ok
      invariant currentPage <= i <= newPage && Ready(m)
      invariant Grow(old(HeapOf(m)), currentPage, newPage) == if ok then Grow(HeapOf(m), i, newPage)
                else (HeapOf(m), false)
      decreases newPage - i, ok
    {
      GrowStep(HeapOf(m), i, newPage);
      ok := GrowPage(m, i);
      if ok {
        i := i + 1;
      }
    }
  }

  /** SetKernelBrk (memory.c:22-134). */
  method SetKernelBrk(m: Machine, addr: nat) returns (rc: int)
    requires Ready(m) && m.kernelBrk / PAGESIZE < KSTACK_START_PAGE
    modifies m`tlb, m`kernelBrk, m.region0, m.frameBitMap
    ensures Ready(m)
            && (BrkState(HeapOf(m), m.kernelBrk), rc)
                == SetBrk(m.vmEnabled, old(BrkState(HeapOf(m), m.kernelBrk)), addr)
  {
    var newPage, currentPage := addr / PAGESIZE, m.kernelBrk / PAGESIZE;
    if newPage < FIRST_DATA_PAGE {
      return ERROR;
    }
    if !m.vmEnabled {
      if newPage >= KSTACK_START_PAGE {
        return ERROR;
      }
      if addr < m.kernelBrk {
        return ERROR;
      }
      m.kernelBrk := addr;
      return 0;
    }
    if newPage >= KSTACK_START_PAGE {
      return ERROR;
    }
    if newPage < currentPage {
      ShrinkTo(m, newPage, currentPage);
    } else if newPage > currentPage {
      var ok := GrowTo(m, currentPage, newPage);
      if !ok {
        return ERROR;
      }
    }
    m.kernelBrk := addr;
    return 0;
  }

  /** map_page (memory.c:239-245), in a table the hardware does not walk. */
  method MapPage(m: Machine, table: array<Pte>, vpn: nat, pfn: nat, prot: Prot)
    requires m.Valid() && vpn < table.Length && pfn < m.frameBitMap.Length
    modifies table, m.frameBitMap
    ensures table[..] == old(table[..])[vpn := Pte(true, prot, pfn)]
    ensures m.frameBitMap[..] == old(m.frameBitMap[..])[pfn := true]
  {
    table[vpn] := Pte(true, prot, pfn);
    m.frameBitMap[pfn] := true;
  }

  /** unmap_page (memory.c:249-256). */
  method UnmapPage(m: Machine, table: array<Pte>, vpn: nat)
    requires m.Valid() && vpn < table.Length
    modifies table, m.frameBitMap
    ensures table[..] == old(table[..])[vpn := ZERO]
    ensures m.frameBitMap[..] == Free(old(m.frameBitMap[..]), old(table[vpn].pfn))
  {
    FreeFrame(m.frameBitMap, table[vpn].pfn);
    table[vpn] := ZERO;
  }
}
