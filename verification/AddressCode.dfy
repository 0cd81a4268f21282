/** The memory code of forks, switches, breaks and user stores, running through the TLB, takes the
    steps of AddressSpaces, which know of no TLB. */
module AddressCode {
  import opened Hardware
  import opened Frames
  import opened Memory
  import opened MemoryCode
  import opened KernelBreak
  import opened ForkCopy
  import opened ContextSwitch
  import opened AddressSpaces

  /** The machine, with the region 1 tables of the processes in `tables`, is in state s. */
  ghost predicate Shows(m: Machine, tables: map<Pid, array<Pte>>, s: Sys)
    reads m, m.pmem, m.frameBitMap, m.region0, m.ptbr1, tables.Values
  {
    && Ready(m) && m.vmEnabled && m.kernelBrk == s.brk
    && m.pmem[..] == s.pmem && m.frameBitMap[..] == s.used && m.region0[..] == s.r0
    && tables.Keys == s.procs.Keys && s.cur in tables && m.ptbr1 == tables[s.cur]
    && (forall p <- tables :: tables[p] != m.region0 && tables[p][..] == s.procs[p].r1)
    && (forall p <- tables, q <- tables :: p != q ==> tables[p] != tables[q])
  }

  /** The three copies of a fork, one after the other. */
  method CopyAll(m: Machine, ghost s: Sys, ghost child: Pid, childTable: array<Pte>) returns (ks: seq<Pte>)
    requires Ready(m) && Owned(s) && Possible(s, Step.Fork(child))
    requires m.pmem[..] == s.pmem && m.frameBitMap[..] == s.used && m.region0[..] == s.r0
             && m.ptbr1[..] == ParentTable(s)
    requires childTable[..] == NoPages() && childTable != m.region0 && childTable != m.ptbr1
    modifies m`tlb, m.region0, m.pmem, m.frameBitMap, childTable
    ensures Ready(m) && Owned(s) && Possible(s, Step.Fork(child)) && ks == DoFork(s, child).procs[child].ks
    ensures childTable[..] == DoFork(s, child).procs[child].r1
    ensures m.pmem[..] == DoFork(s, child).pmem && m.frameBitMap[..] == DoFork(s, child).used
            && m.region0[..] == DoFork(s, child).r0
  {
    PagesForked(s);
    StackExists(s);
    CopyTakes(ParentTable(s), Copy(NoPages(), s.pmem, s.used), 0);
    NewStackFits(ForkPages(s).used, KSTACK_PAGES);
    CopyPageTable(m, childTable);
    assert CopyOf(m, childTable) == ForkPages(s);
    var stack := InitializeKernelStack(m);
    ks := stack.value;
    StackStays(s.r0, m.region0[..], TempLeft(ks));
    NewStackExists(ForkPages(s).used, ForkStack(s));
    KCCopy(m, ks);
  }

  /** The memory side of SysFork (syscalls.c:60-70), frames permitting. */
  method Fork(m: Machine, ghost tables: map<Pid, array<Pte>>, ghost s: Sys, ghost child: Pid, childTable: array<Pte>)
      returns (ks: seq<Pte>)
    requires Shows(m, tables, s) && Owned(s) && Possible(s, Step.Fork(child))
    requires childTable[..] == NoPages() && childTable != m.region0 && childTable !in tables.Values
    modifies m`tlb, m.region0, m.pmem, m.frameBitMap, childTable
    ensures Owned(s) && Possible(s, Step.Fork(child)) && ks == DoFork(s, child).procs[child].ks
    ensures Shows(m, tables[child := childTable], DoFork(s, child))
  {
    ks := CopyAll(m, s, child, childTable);
  }

  lemma StackStays(r: seq<Pte>, r': seq<Pte>, e: Pte)
    requires Others(r, r')
    ensures RunningStack(r') == RunningStack(r) && !r'[TEMP].valid
    ensures r'[TEMP := e] == r[TEMP := e]
  {}

  lemma NewStackExists(used: seq<bool>, st: ForkCopy.Stack)
    requires StackOn(used, st)
    ensures FramesExist(st.ks, |used|) && forall e <- st.ks :: e.valid
  {}

  /** KCSwitch to a process whose tables are at hand. */
  method Switch(m: Machine, ghost tables: map<Pid, array<Pte>>, ghost s: Sys, ghost next: Pid, kernelStack: seq<Pte>,
                region1: array<Pte>)
    requires Shows(m, tables, s) && Owned(s) && next in s.procs && region1 == tables[next]
             && kernelStack == s.procs[next].ks
    modifies m`tlb, m`ptbr1, m.region0
    ensures Owned(s) && Shows(m, tables, DoSwitch(s, next)) && m.StaleOnly({})
  {
    assert SpaceTyped(s.procs[next], |s.pmem|);
    KCSwitch(m, kernelStack, region1);
  }

  /** A store by the running process; it faults exactly when its page is not there to be written. */
  method Store(m: Machine, ghost tables: map<Pid, array<Pte>>, ghost s: Sys, page: nat, off: nat, b: Byte)
      returns (fault: bool)
    requires Shows(m, tables, s) && Owned(s) && page < MAX_PT_LEN && off < PAGESIZE
    modifies m`tlb, m.pmem
    ensures Owned(s) && Shows(m, tables, DoStore(s, page, off, b))
    ensures fault <==> !(s.procs[s.cur].r1[page].valid && s.procs[s.cur].r1[page].prot.write)
  {
    assert m.ptbr1[..][page] == m.ptbr1[page];
    fault := UserStore(m, page, off, b);
  }

  /** SetKernelBrk with paging on. */
  method Break(m: Machine, ghost tables: map<Pid, array<Pte>>, ghost s: Sys, addr: nat) returns (rc: int)
    requires Shows(m, tables, s) && Owned(s)
    modifies m`tlb, m`kernelBrk, m.region0, m.frameBitMap
    ensures Owned(s) && Shows(m, tables, DoBrk(s, addr))
  {
    rc := SetKernelBrk(m, addr);
  }
}
