/** SetKernelBrk (memory.c:22-134): what it does to the page table of region 0 and to the frames. */
module KernelBreak {
  import opened Hardware
  import opened Frames
  import opened Memory

  /** The first page the break may be set to (memory.c:31). */
  const FIRST_DATA_PAGE: nat

  datatype Heap = Heap(r0: seq<Pte>, used: seq<bool>)

  ghost predicate HeapTyped(h: Heap) {
    |h.r0| == MAX_PT_LEN && NUM_VPN <= |h.used| && FramesExist(h.r0, |h.used|)
  }

  /** The growing loop from page i up to page n (memory.c:99-126). */
  function Grow(h: Heap, i: nat, n: nat): (r: (Heap, bool))
    requires n <= |h.r0| && NUM_VPN <= |h.used|
    ensures |r.0.r0| == |h.r0| && |r.0.used| == |h.used|
    decreases n - i
  {
    if i >= n then (h, true)
    else
      var (used, pfn) := Allocate(h.used);
      if pfn == ERROR then (h, false)
      else Grow(Heap(h.r0[i := Pte(true, READ_WRITE, pfn)], used), i + 1, n)
  }

  lemma GrowStep(h: Heap, i: nat, n: nat)
    requires i < n <= |h.r0| && NUM_VPN <= |h.used|
    ensures var (used, pfn) := Allocate(h.used);
            Grow(h, i, n) == if pfn == ERROR then (h, false)
                else Grow(Heap(h.r0[i := Pte(true, READ_WRITE, pfn)], used), i + 1, n)
  {}

  /** A page given back (memory.c:77-85). */
  function Drop(h: Heap, i: nat): (h': Heap)
    requires i < |h.r0|
    ensures |h'.r0| == |h.r0| && |h'.used| == |h.used|
  {
    if h.r0[i].valid && h.r0[i].pfn < |h.used|
    then Heap(h.r0[i := ZERO], h.used[h.r0[i].pfn := false])
    else h
  }

  /** The shrinking loop from page i up to page n (memory.c:73-93). */
  function Shrink(h: Heap, i: nat, n: nat): (h': Heap)
    requires n <= |h.r0|
    ensures |h'.r0| == |h.r0| && |h'.used| == |h.used|
    decreases n - i
  {
    if i >= n then h else Shrink(Drop(h, i), i + 1, n)
  }

  datatype BrkState = BrkState(h: Heap, brk: nat)

  predicate Refused(addr: nat) {
    addr / PAGESIZE < FIRST_DATA_PAGE || addr / PAGESIZE >= KSTACK_START_PAGE
  }

  /** A whole call. */
  function SetBrk(vm: bool, s: BrkState, addr: nat): (r: (BrkState, int))
    requires |s.h.r0| == MAX_PT_LEN && NUM_VPN <= |s.h.used| && s.brk / PAGESIZE < KSTACK_START_PAGE
  {
    var new_, cur := addr / PAGESIZE, s.brk / PAGESIZE;
    if Refused(addr) then (s, ERROR)
    else if !vm then (if addr < s.brk then (s, ERROR) else (s.(brk := addr), 0))
    else if new_ < cur then (BrkState(Shrink(s.h, new_, cur), addr), 0)
    else
      var (h, ok) := Grow(s.h, cur, new_);
      if ok then (BrkState(h, addr), 0) else (s.(h := h), ERROR)
  }

  // ---------------------------------------------------------------- what growing does

  /** Pages i to n of h' are mapped, each to a frame of its own that was free in h; nothing else
      is touched. */
  ghost predicate Grown(h: Heap, h': Heap, i: nat, n: nat) {
    && i <= n <= |h.r0| == |h'.r0| && |h'.used| == |h.used|
    && (forall j :: 0 <= j < |h.r0| && !(i <= j < n) ==> h'.r0[j] == h.r0[j])
    && (forall j :: i <= j < n ==>
        h'.r0[j].valid && h'.r0[j].prot == READ_WRITE && h'.r0[j].pfn < NUM_VPN <= |h.used| && !h.used[h'.r0[j].pfn])
    && (forall j, k :: i <= j < k < n ==> h'.r0[j].pfn != h'.r0[k].pfn)
    && (forall f :: 0 <= f < |h.used| ==> (h'.used[f] <==> h.used[f] || exists j :: i <= j < n && h'.r0[j].pfn == f))
  }

  /** Growing reaches page m: all of them exactly when there are frames enough, else as many as
      there are frames. */
  lemma {:induction false} GrowReaches(h: Heap, i: nat, n: nat) returns (m: nat)
    requires i <= n <= |h.r0| && NUM_VPN <= |h.used|
    ensures i <= m <= n && Grown(h, Grow(h, i, n).0, i, m)
    ensures m == i + Min(n - i, FreeCount(h.used, 0)) && (Grow(h, i, n).1 <==> m == n)
    ensures FreeCount(Grow(h, i, n).0.used, 0) == FreeCount(h.used, 0) - (m - i)
    decreases n - i
  {
    NoneFree(h.used, 0);
    var (used, pfn) := Allocate(h.used);
    if i == n || pfn == ERROR {
      m := i;
    } else {
      FreeCountTaken(h.used, pfn, 0);
      var h1 := Heap(h.r0[i := Pte(true, READ_WRITE, pfn)], used);
      m := GrowReaches(h1, i + 1, n);
      GrownOneMore(h, h1, Grow(h1, i + 1, n).0, i, m, pfn);
    }
  }

  lemma GrownOneMore(h: Heap, h1: Heap, h': Heap, i: nat, m: nat, pfn: nat)
    requires i < m <= |h.r0| && pfn < NUM_VPN <= |h.used| && !h.used[pfn]
    requires h1 == Heap(h.r0[i := Pte(true, READ_WRITE, pfn)], h.used[pfn := true]) && Grown(h1, h', i + 1, m)
    ensures Grown(h, h', i, m)
  {
    assert h'.r0[i] == h1.r0[i];
  }

  /** Pages i to n of h' are unmapped, their frames and no others given back. */
  ghost predicate Shrunk(h: Heap, h': Heap, i: nat, n: nat) {
    && i <= n <= |h.r0| == |h'.r0| && |h'.used| == |h.used|
    && (forall j :: 0 <= j < |h.r0| ==> h'.r0[j] == if i <= j < n && h.r0[j].valid then ZERO else h.r0[j])
    && (forall f :: 0 <= f < |h.used| ==>
          (h'.used[f] <==> h.used[f] && !exists j :: i <= j < n && h.r0[j].valid && h.r0[j].pfn == f))
  }

  lemma {:induction false} ShrinkDrops(h: Heap, i: nat, n: nat)
    requires i <= n <= |h.r0| && FramesExist(h.r0, |h.used|)
    ensures Shrunk(h, Shrink(h, i, n), i, n)
    decreases n - i
  {
    if i < n {
      assert h.r0[i] in h.r0;
      var h1 := Drop(h, i);
      ShrinkDrops(h1, i + 1, n);
      ShrunkOneMore(h, h1, Shrink(h, i, n), i, n);
    }
  }

  lemma ShrunkOneMore(h: Heap, h1: Heap, h': Heap, i: nat, n: nat)
    requires i < n <= |h.r0| && (h.r0[i].valid ==> h.r0[i].pfn < |h.used|) && h1 == Drop(h, i)
             && Shrunk(h1, h', i + 1, n)
    ensures Shrunk(h, h', i, n)
  {
    forall f | 0 <= f < |h.used|
      ensures h'.used[f] <==> h.used[f] && !exists j :: i <= j < n && h.r0[j].valid && h.r0[j].pfn == f
    {
      assert forall j :: i < j < n ==> h1.r0[j] == h.r0[j];
    }
  }

  /** Growing and then shrinking back restores the bitmap and the page table exactly. */
  lemma GrowThenShrink(h: Heap, i: nat, n: nat)
    requires HeapTyped(h) && i <= n <= MAX_PT_LEN && Grow(h, i, n).1
    requires forall j :: i <= j < n ==> h.r0[j] == ZERO
    ensures Shrink(Grow(h, i, n).0, i, n) == h
  {
    var g := Grow(h, i, n).0;
    var m := GrowReaches(h, i, n);
    GrownTyped(h, g, i, n);
    ShrinkDrops(g, i, n);
    var s := Shrink(g, i, n);
    assert forall j :: 0 <= j < |h.r0| ==> s.r0[j] == h.r0[j];
    assert forall f :: 0 <= f < |h.used| ==> s.used[f] == h.used[f];
  }

  lemma GrownTyped(h: Heap, g: Heap, i: nat, n: nat)
    requires HeapTyped(h) && Grown(h, g, i, n)
    ensures HeapTyped(g)
  {
    forall e <- g.r0 | e.valid
      ensures e.pfn < |g.used|
    {
      var j :| 0 <= j < |g.r0| && g.r0[j] == e;
      assert h.r0[j] in h.r0;
    }
  }

  // ---------------------------------------------------------------- what calls keep

  /** The heap ends at the break: its pages are mapped, each frame is marked as used and no two
      pages share one, and from the break's page up to the stack nothing is mapped. */
  ghost predicate HeapExact(s: BrkState) {
    && HeapTyped(s.h) && FIRST_DATA_PAGE <= s.brk / PAGESIZE < KSTACK_START_PAGE
    && (forall j :: FIRST_DATA_PAGE <= j < s.brk / PAGESIZE ==> s.h.r0[j].valid && s.h.used[s.h.r0[j].pfn])
    && (forall j, k :: FIRST_DATA_PAGE <= j < k < s.brk / PAGESIZE ==> s.h.r0[j].pfn != s.h.r0[k].pfn)
    && (forall j :: s.brk / PAGESIZE <= j < TEMP ==> s.h.r0[j] == ZERO)
    && !s.h.r0[TEMP].valid
  }

  /** No call maps the page for temporary mappings, whatever it is asked for. */
  lemma CallSparesTemp(vm: bool, s: BrkState, addr: nat)
    requires HeapTyped(s.h) && s.brk / PAGESIZE < KSTACK_START_PAGE
    ensures var (s', rc) := SetBrk(vm, s, addr); s'.h.r0[TEMP] == s.h.r0[TEMP] && s'.brk / PAGESIZE <= TEMP
  {
    var cur, new_ := s.brk / PAGESIZE, addr / PAGESIZE;
    if !Refused(addr) && vm {
      if new_ < cur {
        ShrinkDrops(s.h, new_, cur);
      } else {
        var m := GrowReaches(s.h, cur, new_);
      }
    }
  }

  /** So growing an exact heap and setting the break back restores everything, the break aside. */
  lemma GrowAndSetBack(s: BrkState, addr: nat, back: nat)
    requires HeapExact(s) && addr / PAGESIZE > s.brk / PAGESIZE == back / PAGESIZE && SetBrk(true, s, addr).1 == 0
    ensures SetBrk(true, SetBrk(true, s, addr).0, back) == (s.(brk := back), 0)
  {
    GrowThenShrink(s.h, s.brk / PAGESIZE, addr / PAGESIZE);
  }

  /** With paging on, a call keeps the heap exact exactly when it does not run out of frames after
      having mapped a page; the break moves exactly when the call succeeds. */
  lemma CallKeepsHeapExactly(s: BrkState, addr: nat)
    requires HeapExact(s)
    ensures var (s', rc) := SetBrk(true, s, addr);
            var free, more := FreeCount(s.h.used, 0), addr / PAGESIZE - s.brk / PAGESIZE;
            && (HeapExact(s') <==> Refused(addr) || more <= free || free == 0)
            && (rc == 0 <==> !Refused(addr) && more <= free)
            && s'.brk == (if rc == 0 then addr else s.brk)
  {
    var cur, new_ := s.brk / PAGESIZE, addr / PAGESIZE;
    if Refused(addr) {
    } else if new_ < cur {
      ShrinkDrops(s.h, new_, cur);
      ShrinkKeeps(s, addr);
    } else {
      var m := GrowReaches(s.h, cur, new_);
      GrowKeeps(s, addr, m);
    }
  }

  lemma ShrinkKeeps(s: BrkState, addr: nat)
    requires HeapExact(s) && !Refused(addr) && addr / PAGESIZE < s.brk / PAGESIZE
    requires Shrunk(s.h, Shrink(s.h, addr / PAGESIZE, s.brk / PAGESIZE), addr / PAGESIZE, s.brk / PAGESIZE)
    ensures HeapExact(SetBrk(true, s, addr).0)
  {
    var h' := SetBrk(true, s, addr).0.h;
    assert forall e <- h'.r0 :: e in s.h.r0 || e == ZERO;
  }

  lemma GrowKeeps(s: BrkState, addr: nat, m: nat)
    requires HeapExact(s) && !Refused(addr) && addr / PAGESIZE >= s.brk / PAGESIZE
    requires var cur, new_ := s.brk / PAGESIZE, addr / PAGESIZE; var (h, ok) := Grow(s.h, cur, new_);
             cur <= m <= new_ && Grown(s.h, h, cur, m) && (ok <==> m == new_)
    ensures HeapExact(SetBrk(true, s, addr).0) <==> m == addr / PAGESIZE || m == s.brk / PAGESIZE
  {
    var cur, new_ := s.brk / PAGESIZE, addr / PAGESIZE;
    var h := Grow(s.h, cur, new_).0;
    GrownTyped(s.h, h, cur, m);
    if m == new_ {
      forall j, k | FIRST_DATA_PAGE <= j < k < new_
        ensures h.r0[j].pfn != h.r0[k].pfn
      {
        if j < cur <= k { assert s.h.used[h.r0[j].pfn] && !s.h.used[h.r0[k].pfn]; }
      }
    } else if m > cur {
      assert h.r0[cur].valid;
    } else {
      assert h.r0 == s.h.r0;
      assert forall f :: 0 <= f < |h.used| ==> h.used[f] == s.h.used[f];
    }
  }

  // ---------------------------------------------------------------- the bytes below the break

  lemma PageBelow(a: nat, q: nat)
    ensures a / PAGESIZE < q <==> a < q * PAGESIZE
  {
    var d, r := a / PAGESIZE, a % PAGESIZE;
    assert a == d * PAGESIZE + r && 0 <= r < PAGESIZE;
    if d < q {
      assert d * PAGESIZE + PAGESIZE == (d + 1) * PAGESIZE <= q * PAGESIZE;
    } else {
      assert q * PAGESIZE <= d * PAGESIZE;
    }
  }

  lemma LastByteBelow(brk: nat)
    requires brk % PAGESIZE != 0
    ensures brk > 0 && (brk - 1) / PAGESIZE == brk / PAGESIZE
  {
    var q := brk / PAGESIZE;
    assert brk == q * PAGESIZE + brk % PAGESIZE;
    PageBelow(brk - 1, q);
    PageBelow(brk - 1, q + 1);
    PageBelow(brk, q + 1);
  }

  lemma BelowBoundary(a: nat, brk: nat)
    requires brk % PAGESIZE == 0 && FIRST_DATA_PAGE * PAGESIZE <= a < brk
    ensures FIRST_DATA_PAGE <= a / PAGESIZE < brk / PAGESIZE
  {
    var q := brk / PAGESIZE;
    assert brk == q * PAGESIZE;
    PageBelow(a, q);
    PageBelow(a, FIRST_DATA_PAGE);
  }

  ghost predicate ByteMapped(h: Heap, a: nat) {
    a / PAGESIZE < |h.r0| && h.r0[a / PAGESIZE].valid
  }

  /** Every byte of the heap below the break is mapped exactly when the break is at a page boundary:
      the page the break lies in is never mapped. */
  lemma MappedToTheBreakExactly(s: BrkState)
    requires HeapExact(s)
    ensures s.brk % PAGESIZE == 0 <==> forall a :: FIRST_DATA_PAGE * PAGESIZE <= a < s.brk ==> ByteMapped(s.h, a)
  {
    if s.brk % PAGESIZE == 0 {
      forall a | FIRST_DATA_PAGE * PAGESIZE <= a < s.brk
        ensures ByteMapped(s.h, a)
      {
        BelowBoundary(a, s.brk);
      }
    } else {
      LastByteBelow(s.brk);
      PageBelow(s.brk - 1, FIRST_DATA_PAGE);
      assert !ByteMapped(s.h, s.brk - 1);
    }
  }

  lemma PageOfStart(p: nat, r: nat)
    requires r < PAGESIZE
    ensures (p * PAGESIZE + r) / PAGESIZE == p
  {
    PageBelow(p * PAGESIZE + r, p);
    PageBelow(p * PAGESIZE + r, p + 1);
  }

  /** The call fails and leaves pages mapped beyond the break. */
  ghost predicate StopsHalfWay(s: BrkState, addr: nat) {
    && HeapExact(s)
    && var (s', rc) := SetBrk(true, s, addr);
       rc == ERROR && s'.brk == s.brk && !HeapExact(s')
  }

  /** Asked for one page more than there are frames, if there is any, a call stops half way. */
  lemma ACallStopsHalfWay(s: BrkState, page: nat)
    requires HeapExact(s) && FreeCount(s.h.used, 0) > 0
             && page == s.brk / PAGESIZE + FreeCount(s.h.used, 0) + 1 < KSTACK_START_PAGE
    ensures StopsHalfWay(s, page * PAGESIZE)
  {
    var addr := PageAt(page);
    CallKeepsHeapExactly(s, addr);
  }

  /** The first address of a page, and the page of that address. */
  lemma PageAt(page: nat) returns (addr: nat)
    ensures addr == page * PAGESIZE && addr / PAGESIZE == page
  {
    addr := page * PAGESIZE;
    PageOfStart(page, 0);
  }

  /** A call is refused exactly for addresses below the first data page and from the kernel stack on
      (memory.c:62-67). */
  lemma RefusedExactly(addr: nat)
    ensures Refused(addr) <==> addr < FIRST_DATA_PAGE * PAGESIZE || KSTACK_START_PAGE * PAGESIZE <= addr
  {
    PageBelow(addr, FIRST_DATA_PAGE);
    PageBelow(addr, KSTACK_START_PAGE);
  }
}
