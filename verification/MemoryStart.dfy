/** Memory at the moment paging is enabled (memory.c:138-194, kernel.c:45-76): what is mapped then, and
    when the invariants of the heap and of the address spaces hold from there on. */
module MemoryStart {
  import opened Hardware
  import opened Frames
  import opened Memory
  import opened KernelBreak
  import opened ForkCopy
  import opened ContextSwitch
  import opened AddressSpaces
  import opened SpaceFrames

  /** The pages of the kernel as loaded: text from `text`, data from `data`, heap from `brk` on. */
  datatype KernelImage = KernelImage(text: nat, data: nat, brk: nat)

  /** Pages are mapped to the frames of the same number, as far as there are frames. */
  function StartEntry(im: KernelImage, frames: nat, i: nat): Pte {
    if i >= frames then ZERO
    else if OnStack(i) then Pte(true, READ_WRITE, i)
    else if im.text <= i < im.brk then Pte(true, if i < im.data then READ_EXEC else READ_WRITE, i)
    else ZERO
  }

  function StartTable(im: KernelImage, frames: nat): (pt: seq<Pte>)
    ensures |pt| == MAX_PT_LEN
  {
    seq(MAX_PT_LEN, i requires 0 <= i => StartEntry(im, frames, i))
  }

  function StartUsed(im: KernelImage, frames: nat): (used: seq<bool>)
    ensures |used| == frames
  {
    seq(frames, f requires 0 <= f => f == 0 || (f < MAX_PT_LEN && StartEntry(im, frames, f).valid))
  }

  /** One entry and its frame (memory.c:163-167, 185). */
  method MapIdentical(region0: array<Pte>, bitMap: array<bool>, i: nat, prot: Prot)
    requires i < region0.Length && i < bitMap.Length
    modifies region0, bitMap
    ensures region0[..] == old(region0[..])[i := Pte(true, prot, i)] && bitMap[..] == old(bitMap[..])[i := true]
  {
    region0[i] := Pte(true, prot, i);
    bitMap[i] := true;
  }

  /** init_region0_pageTable (memory.c:138-194), over a table and a bitmap of zeros. */
  method InitRegion0(region0: array<Pte>, bitMap: array<bool>, im: KernelImage)
    requires region0.Length == MAX_PT_LEN && bitMap.Length > 0
    requires (forall i :: 0 <= i < region0.Length ==> region0[i] == ZERO)
             && (forall f :: 0 <= f < bitMap.Length ==> !bitMap[f])
    modifies region0, bitMap
    ensures region0[..] == StartTable(im, bitMap.Length) && bitMap[..] == StartUsed(im, bitMap.Length)
  {
    bitMap[0] := true;
    MapImage(region0, bitMap, im);
    MapStack(region0, bitMap, im);
    assert region0[..] == StartTable(im, bitMap.Length);
    assert bitMap[..] == StartUsed(im, bitMap.Length);
  }

  /** With the image mapped, but not the stack. */
  function ImageEntry(im: KernelImage, frames: nat, i: nat): Pte {
    if im.text <= i < im.brk && i < frames then Pte(true, if i < im.data then READ_EXEC else READ_WRITE, i) else ZERO
  }

  /** The pages of the image (memory.c:149-169). */
  method MapImage(region0: array<Pte>, bitMap: array<bool>, im: KernelImage)
    requires region0.Length == MAX_PT_LEN && bitMap.Length > 0
    requires forall i :: 0 <= i < region0.Length ==> region0[i] == ZERO
    requires forall f :: 0 <= f < bitMap.Length ==> (bitMap[f] <==> f == 0)
    modifies region0, bitMap
    ensures forall i :: 0 <= i < MAX_PT_LEN ==> region0[i] == ImageEntry(im, bitMap.Length, i)
    ensures forall f :: 0 <= f < bitMap.Length ==> (bitMap[f] <==> f == 0 || (im.text <= f < im.brk && f < MAX_PT_LEN))
  {
    var vpn := im.text;
    while vpn < im.brk && vpn < MAX_PT_LEN && vpn < bitMap.Length
      invariant im.text <= vpn
      invariant forall i :: 0 <= i < MAX_PT_LEN ==>
                  region0[i] == if i < vpn then ImageEntry(im, bitMap.Length, i) else ZERO
      invariant forall f :: 0 <= f < bitMap.Length ==>
                (bitMap[f] <==> f == 0 || (im.text <= f < vpn && f < im.brk && f < MAX_PT_LEN))
    {
      MapIdentical(region0, bitMap, vpn, if vpn < im.data then READ_EXEC else READ_WRITE);
      assert forall i :: 0 <= i < MAX_PT_LEN ==> region0[i] == region0[..][i];
      assert forall f :: 0 <= f < bitMap.Length ==> bitMap[f] == bitMap[..][f];
      vpn := vpn + 1;
    }
  }

  /** The pages of the kernel stack (memory.c:173-188). */
  method MapStack(region0: array<Pte>, bitMap: array<bool>, im: KernelImage)
    requires region0.Length == MAX_PT_LEN && bitMap.Length > 0
    requires forall i :: 0 <= i < MAX_PT_LEN ==> region0[i] == ImageEntry(im, bitMap.Length, i)
    requires forall f :: 0 <= f < bitMap.Length ==> (bitMap[f] <==> f == 0 || (im.text <= f < im.brk && f < MAX_PT_LEN))
    modifies region0, bitMap
    ensures forall i :: 0 <= i < MAX_PT_LEN ==> region0[i] == StartEntry(im, bitMap.Length, i)
    ensures forall f :: 0 <= f < bitMap.Length ==>
              (bitMap[f] <==> f == 0 || (f < MAX_PT_LEN && (OnStack(f) || im.text <= f < im.brk)))
  {
    var vpn := KSTACK_START_PAGE;
    while vpn < KSTACK_START_PAGE + KSTACK_PAGES && vpn < bitMap.Length
      invariant KSTACK_START_PAGE <= vpn <= KSTACK_START_PAGE + KSTACK_PAGES
      invariant forall i :: 0 <= i < MAX_PT_LEN ==>
                  region0[i] == if OnStack(i) && i >= vpn then ImageEntry(im, bitMap.Length, i)
                      else StartEntry(im, bitMap.Length, i)
      invariant forall f :: 0 <= f < bitMap.Length ==>
                  (bitMap[f] <==> f == 0 || (f < MAX_PT_LEN && ((OnStack(f) && f < vpn) || im.text <= f < im.brk)))
    {
      MapIdentical(region0, bitMap, vpn, READ_WRITE);
      assert forall i :: 0 <= i < MAX_PT_LEN ==> region0[i] == region0[..][i];
      assert forall f :: 0 <= f < bitMap.Length ==> bitMap[f] == bitMap[..][f];
      vpn := vpn + 1;
    }
  }

  /** At the start a page is mapped exactly if it is of the kernel's image or stack and there is a frame of
      its number, which it is mapped to; text may be read and executed but not written, and all else
      read and written but not executed (memory.c:149-188). */
  lemma StartIsIdentity(im: KernelImage, frames: nat, i: nat)
    requires i < MAX_PT_LEN
    ensures var e := StartTable(im, frames)[i]; var text := im.text <= i < im.data && i < im.brk && !OnStack(i);
            && (e.valid <==> i < frames && (OnStack(i) || im.text <= i < im.brk))
            && (e.valid ==> e.pfn == i && e.prot.read && (e.prot.exec <==> text) && (e.prot.write <==> !text))
  {
    assert StartTable(im, frames)[i] == StartEntry(im, frames, i);
  }

  /** A frame is marked at the start exactly if it is frame 0 or mapped to. */
  lemma StartUsedExactly(im: KernelImage, frames: nat, f: nat)
    requires f < frames
    ensures StartUsed(im, frames)[f] <==>
            f == 0 || exists i :: 0 <= i < MAX_PT_LEN && MapsTo(StartTable(im, frames)[i], f)
  {
    forall i | 0 <= i < MAX_PT_LEN
      ensures MapsTo(StartTable(im, frames)[i], f) <==> i == f && StartEntry(im, frames, i).valid
    {
      StartIsIdentity(im, frames, i);
    }
    if f < MAX_PT_LEN && StartEntry(im, frames, f).valid { assert MapsTo(StartTable(im, frames)[f], f); }
  }

  ghost predicate MapsTo(e: Pte, f: nat) {
    e.valid && e.pfn == f
  }

  // ---------------------------------------------------------------- the heap

  /** The kernel's image ends below the page for temporary mappings, and there are frames for it. */
  ghost predicate ImageFits(im: KernelImage, frames: nat) {
    && im.brk <= TEMP && im.brk <= frames
    && NUM_VPN <= frames && KSTACK_START_PAGE + KSTACK_PAGES <= frames
  }

  ghost function StartHeap(im: KernelImage, frames: nat): Heap {
    Heap(StartTable(im, frames), StartUsed(im, frames))
  }

  lemma StartTyped(im: KernelImage, frames: nat)
    requires ImageFits(im, frames)
    ensures HeapTyped(StartHeap(im, frames))
  {}

  /** Before paging the break moves without a page being mapped (memory.c:41-58), so the heap is exact
      when paging is enabled exactly when the break is then in the page where the image ends. */
  lemma ExactAtStartExactly(im: KernelImage, frames: nat, brk: nat)
    requires ImageFits(im, frames) && im.text <= FIRST_DATA_PAGE <= im.brk && brk / PAGESIZE < KSTACK_START_PAGE
    ensures HeapExact(BrkState(StartHeap(im, frames), brk)) <==> brk / PAGESIZE == im.brk
  {
    StartTyped(im, frames);
    var pt, q := StartTable(im, frames), brk / PAGESIZE;
    if q < im.brk {
      assert pt[q] == StartEntry(im, frames, q);
      assert q >= FIRST_DATA_PAGE ==> pt[q].valid;
    } else if q > im.brk {
      assert pt[im.brk] == ZERO;
    } else {
      assert !pt[TEMP].valid;
    }
  }

  /** When paging is enabled with the break one byte into the page where the image ends, that byte is
      not mapped though it is below the break. */
  lemma AByteIsNotMapped(im: KernelImage, frames: nat)
    requires ImageFits(im, frames) && im.text <= FIRST_DATA_PAGE <= im.brk && PAGESIZE > 1
    ensures var a := im.brk * PAGESIZE;
            HeapExact(BrkState(StartHeap(im, frames), a + 1)) && !ByteMapped(StartHeap(im, frames), a)
  {
    PageOfStart(im.brk, 0);
    PageOfStart(im.brk, 1);
    ExactAtStartExactly(im, frames, im.brk * PAGESIZE + 1);
    assert StartTable(im, frames)[im.brk] == StartEntry(im, frames, im.brk);
  }

  /** And the first call after that, for one page more than there are frames, stops half way. */
  lemma TheFirstCallStopsHalfWay(im: KernelImage, frames: nat, page: nat)
    requires ImageFits(im, frames) && im.text <= FIRST_DATA_PAGE <= im.brk
    requires FreeCount(StartUsed(im, frames), 0) > 0
             && page == im.brk + FreeCount(StartUsed(im, frames), 0) + 1 < KSTACK_START_PAGE
    ensures StopsHalfWay(BrkState(StartHeap(im, frames), im.brk * PAGESIZE), page * PAGESIZE)
  {
    PageOfStart(im.brk, 0);
    ExactAtStartExactly(im, frames, im.brk * PAGESIZE);
    ACallStopsHalfWay(BrkState(StartHeap(im, frames), im.brk * PAGESIZE), page);
  }

  /** A call before paging leaves table and frames alone, and never lowers the break. */
  lemma CallBeforePaging(s: BrkState, addr: nat)
    requires |s.h.r0| == MAX_PT_LEN && NUM_VPN <= |s.h.used| && s.brk / PAGESIZE < KSTACK_START_PAGE
    ensures var (s', rc) := SetBrk(false, s, addr);
            && s'.h == s.h && s'.brk / PAGESIZE < KSTACK_START_PAGE
            && (rc == 0 <==> !Refused(addr) && addr >= s.brk) && s'.brk == (if rc == 0 then addr else s.brk)
  {}

  // ---------------------------------------------------------------- the address spaces

  /** The stack the idle process gets before paging: the one the kernel runs on (memory.c:212-218). */
  ghost function FirstStack(): (ks: seq<Pte>)
    ensures |ks| == KSTACK_PAGES
  {
    seq(KSTACK_PAGES, j requires 0 <= j => Pte(true, READ_WRITE, KSTACK_START_PAGE + j))
  }

  /** The idle process, with one page at the top of region 1 on the first free frame (kernel.c:48-73). */
  ghost function StartSys(im: KernelImage, pmem: seq<Page>, idle: Pid, brk: nat): Sys
    requires ImageFits(im, |pmem|) && FirstFree(StartUsed(im, |pmem|), 0) != ERROR
  {
    var (used, f) := Allocate(StartUsed(im, |pmem|));
    Sys(pmem, used, StartTable(im, |pmem|), brk,
        map[idle := Space(NoPages()[MAX_PT_LEN - 1 := Pte(true, READ_WRITE, f)], FirstStack())], idle)
  }

  /** What is mapped at the start is mapped to the frame of the same number, but for the idle process's
      one page. */
  lemma StartPlace(im: KernelImage, pmem: seq<Page>, idle: Pid, brk: nat, pl: Place)
    requires ImageFits(im, |pmem|) && FirstFree(StartUsed(im, |pmem|), 0) != ERROR
    ensures var s := StartSys(im, pmem, idle, brk);
            Holds(s, pl) ==>
              && HoldsUsed(s, pl)
              && EntryAt(s, pl).pfn
                  == (if pl.User? then FirstFree(StartUsed(im, |pmem|), 0)
                      else if pl.Stack? then KSTACK_START_PAGE + pl.i
                      else pl.i)
              && (pl.User? ==> pl == User(idle, MAX_PT_LEN - 1)) && (pl.Stack? ==> pl.p == idle && pl.i < KSTACK_PAGES)
              && (pl.Kernel? ==> !OnStack(pl.i) && StartUsed(im, |pmem|)[pl.i])
              && (pl.Stack? ==> StartUsed(im, |pmem|)[KSTACK_START_PAGE + pl.i])
  {
    var s := StartSys(im, pmem, idle, brk);
    if pl.Kernel? && Holds(s, pl) {
      assert s.r0[pl.i] == StartEntry(im, |pmem|, pl.i);
    } else if pl.Stack? && Holds(s, pl) {
      assert StartEntry(im, |pmem|, KSTACK_START_PAGE + pl.i).valid;
    }
  }

  lemma StartSysTyped(im: KernelImage, pmem: seq<Page>, idle: Pid, brk: nat)
    requires ImageFits(im, |pmem|) && FirstFree(StartUsed(im, |pmem|), 0) != ERROR && brk / PAGESIZE < KSTACK_START_PAGE
    ensures var s := StartSys(im, pmem, idle, brk);
            Typed(s) && !s.r0[TEMP].valid && RunningStack(s.r0) == s.procs[s.cur].ks
  {
    var s := StartSys(im, pmem, idle, brk);
    StartTyped(im, |pmem|);
    assert SpaceTyped(s.procs[idle], |s.pmem|);
    forall j | 0 <= j < KSTACK_PAGES
      ensures RunningStack(s.r0)[j] == FirstStack()[j]
    {
      assert s.r0[KSTACK_START_PAGE + j] == StartEntry(im, |pmem|, KSTACK_START_PAGE + j);
    }
  }

  /** When paging is enabled every mapped frame has one owner, wherever the break has got to. */
  lemma OwnedAtStart(im: KernelImage, pmem: seq<Page>, idle: Pid, brk: nat)
    requires ImageFits(im, |pmem|) && FirstFree(StartUsed(im, |pmem|), 0) != ERROR && brk / PAGESIZE < KSTACK_START_PAGE
    ensures Owned(StartSys(im, pmem, idle, brk))
  {
    var s := StartSys(im, pmem, idle, brk);
    StartSysTyped(im, pmem, idle, brk);
    forall pl
      ensures HoldsUsed(s, pl)
    {
      StartPlace(im, pmem, idle, brk, pl);
    }
    forall a, b
      ensures HoldApart(s, a, b)
    {
      StartPlace(im, pmem, idle, brk, a);
      StartPlace(im, pmem, idle, brk, b);
    }
  }

  /** Frame 0 is marked though nothing is mapped to it, unless the image starts there (memory.c:147). */
  ghost function KeptAtStart(im: KernelImage, frames: nat): set<nat> {
    if StartEntry(im, frames, 0).valid then {} else {0}
  }

  /** And every other frame is marked exactly when it is mapped. */
  lemma AccountedAtStart(im: KernelImage, pmem: seq<Page>, idle: Pid, brk: nat)
    requires ImageFits(im, |pmem|) && FirstFree(StartUsed(im, |pmem|), 0) != ERROR
    ensures Accounted(StartSys(im, pmem, idle, brk), KeptAtStart(im, |pmem|))
  {
    var s := StartSys(im, pmem, idle, brk);
    forall f | 0 <= f < |s.used|
      ensures AccountedAt(s, KeptAtStart(im, |pmem|), f)
    {
      HeldAtStart(im, pmem, idle, brk, f);
      FirstIsFree(StartUsed(im, |pmem|));
    }
  }

  lemma FirstIsFree(used: seq<bool>)
    requires NUM_VPN <= |used| && FirstFree(used, 0) != ERROR
    ensures var f := FirstFree(used, 0); 0 <= f < |used| && !used[f] && Allocate(used) == (used[f := true], f)
  {}

  lemma HeldAtStart(im: KernelImage, pmem: seq<Page>, idle: Pid, brk: nat, f: nat)
    requires ImageFits(im, |pmem|) && FirstFree(StartUsed(im, |pmem|), 0) != ERROR && f < |pmem|
    ensures Held(StartSys(im, pmem, idle, brk), f) <==>
              f == FirstFree(StartUsed(im, |pmem|), 0) || (f < MAX_PT_LEN && StartEntry(im, |pmem|, f).valid)
  {
    var s := StartSys(im, pmem, idle, brk);
    if pl :| HeldAt(s, pl, f) {
      StartPlace(im, pmem, idle, brk, pl);
    }
    if f == FirstFree(StartUsed(im, |pmem|), 0) {
      assert HeldAt(s, User(idle, MAX_PT_LEN - 1), f);
    }
    if f < MAX_PT_LEN && StartEntry(im, |pmem|, f).valid {
      if OnStack(f) {
        assert HeldAt(s, Place.Stack(idle, f - KSTACK_START_PAGE), f);
      } else {
        assert HeldAt(s, Kernel(f), f);
      }
    }
  }
}
