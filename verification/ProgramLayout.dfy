/** The pages LoadProgram gives a new program (load_program.c:72-120, 171-234, 283-287). */
module ProgramLayout {
  import opened Hardware
  import opened Frames
  import opened Memory
  import opened KernelBreak
  import opened ArgStack

  /** What the executable's header says of its segments, in pages of region 1. */
  datatype LoadInfo = LoadInfo(textPage: nat, textPages: nat, dataPage: nat, dataPages: nat)

  function DataEnd(li: LoadInfo): nat {
    li.dataPage + li.dataPages
  }

  /** The pages from the one the stack pointer is in up to the end of the region. */
  function StackPages(args: seq<CString>): int {
    (VMEM_1_LIMIT - RoundDown(StackPointer(args), PAGESIZE)) / PAGESIZE
  }

  predicate TooBig(li: LoadInfo, args: seq<CString>) {
    StackPages(args) + DataEnd(li) >= MAX_PT_LEN
  }

  function StackStart(args: seq<CString>): int {
    MAX_PT_LEN - StackPages(args)
  }

  /** The page of region 1 an address lies in. */
  function PageOf(a: int): int {
    (a - VMEM_1_BASE) / PAGESIZE
  }

  lemma Multiples(d: int, q: int)
    requires d < q
    ensures d * PAGESIZE + PAGESIZE <= q * PAGESIZE
  {
    Product(q - d - 1);
    assert q * PAGESIZE == (q - d - 1) * PAGESIZE + d * PAGESIZE + PAGESIZE;
  }

  lemma Product(n: int)
    requires n >= 0
    ensures n * PAGESIZE >= 0
  {}

  lemma DivUnique(a: int, q: int, r: int)
    requires 0 <= r < PAGESIZE && a == q * PAGESIZE + r
    ensures a / PAGESIZE == q
  {
    var d := a / PAGESIZE;
    if d < q { Multiples(d, q); }
    if q < d { Multiples(q, d); }
  }

  lemma DivMonotone(a: int, b: int)
    requires a <= b
    ensures a / PAGESIZE <= b / PAGESIZE
  {
    if b / PAGESIZE < a / PAGESIZE { Multiples(b / PAGESIZE, a / PAGESIZE); }
  }

  lemma ShiftPages(a: int, n: int)
    ensures (a + n * PAGESIZE) / PAGESIZE == a / PAGESIZE + n
  {
    var d, m := a / PAGESIZE, a % PAGESIZE;
    assert a == d * PAGESIZE + m;
    assert a + n * PAGESIZE == (d + n) * PAGESIZE + m;
    DivUnique(a + n * PAGESIZE, d + n, m);
  }

  lemma PageOfIs(a: int)
    ensures PageOf(a) == a / PAGESIZE - MAX_PT_LEN
  {
    ShiftPages(a, 0 - MAX_PT_LEN);
    assert (0 - MAX_PT_LEN) * PAGESIZE == 0 - VMEM_1_BASE;
  }

  /** Rounding the stack pointer down and counting pages is the same as taking its page. */
  lemma StackStartsAtItsPage(args: seq<CString>)
    ensures StackStart(args) == PageOf(StackPointer(args))
  {
    var sp := StackPointer(args);
    var d := sp / PAGESIZE;
    assert VMEM_1_LIMIT - RoundDown(sp, PAGESIZE) == (2 * MAX_PT_LEN - d) * PAGESIZE;
    DivUnique((2 * MAX_PT_LEN - d) * PAGESIZE, 2 * MAX_PT_LEN - d, 0);
    PageOfIs(sp);
  }

  /** There is a page between the end of the data and the page of the stack pointer. */
  predicate LeavesAPage(li: LoadInfo, args: seq<CString>) {
    DataEnd(li) < PageOf(StackPointer(args))
  }

  /** The size check refuses exactly the programs that leave no such page: no program with at least one
      page between heap and stack is turned away (load_program.c:116-120). */
  lemma FitsExactly(li: LoadInfo, args: seq<CString>)
    ensures !TooBig(li, args) <==> LeavesAPage(li, args)
  {
    StackStartsAtItsPage(args);
  }

  /** In addresses: after the data there is room for a whole page below the stack pointer. */
  lemma LeavesAPageExactly(li: LoadInfo, args: seq<CString>)
    ensures LeavesAPage(li, args) <==> VMEM_1_BASE + (DataEnd(li) + 1) * PAGESIZE <= StackPointer(args)
  {
    var sp, n := StackPointer(args), MAX_PT_LEN + DataEnd(li) + 1;
    PageOfIs(sp);
    assert VMEM_1_BASE + (DataEnd(li) + 1) * PAGESIZE == n * PAGESIZE;
    FromThePage(sp, n);
  }

  lemma FromThePage(a: int, n: int)
    ensures n <= a / PAGESIZE <==> n * PAGESIZE <= a
  {
    assert a == a / PAGESIZE * PAGESIZE + a % PAGESIZE;
    if a / PAGESIZE < n { Multiples(a / PAGESIZE, n); }
    if n < a / PAGESIZE { Multiples(n, a / PAGESIZE); }
  }

  /** Whenever the size check passes, everything from the stack pointer up -- the argument block and
      the strings above it included -- lies on the stack's pages, at least one page stays unmapped
      below them, and all addresses are inside region 1. */
  lemma StackFits(li: LoadInfo, args: seq<CString>)
    requires !TooBig(li, args)
    ensures 0 < StackStart(args) && DataEnd(li) < StackStart(args) <= MAX_PT_LEN
    ensures VMEM_1_BASE <= StackPointer(args) <= Block(args) < Strings(args) <= VMEM_1_LIMIT
    ensures forall a :: StackPointer(args) <= a < VMEM_1_LIMIT ==> StackStart(args) <= PageOf(a) < MAX_PT_LEN
  {
    var sp := StackPointer(args);
    StackStartsAtItsPage(args);
    PageOfIs(sp);
    assert sp == sp / PAGESIZE * PAGESIZE + sp % PAGESIZE;
    assert sp / PAGESIZE * PAGESIZE >= MAX_PT_LEN * PAGESIZE by {
      assert (sp / PAGESIZE - MAX_PT_LEN) * PAGESIZE >= 0;
    }
    forall a | sp <= a < VMEM_1_LIMIT
      ensures StackStart(args) <= PageOf(a) < MAX_PT_LEN
    {
      PageOfIs(a);
      DivMonotone(sp, a);
      LastPage(a);
    }
  }

  lemma LastPage(a: int)
    requires a < VMEM_1_LIMIT
    ensures a / PAGESIZE < 2 * MAX_PT_LEN
  {
    var top := 2 * MAX_PT_LEN - 1;
    assert VMEM_1_LIMIT - 1 == top * PAGESIZE + (PAGESIZE - 1);
    DivUnique(VMEM_1_LIMIT - 1, top, PAGESIZE - 1);
    DivMonotone(a, VMEM_1_LIMIT - 1);
  }

  // ---------------------------------------------------------------- the pages

  /** free_userspace as far as n pages (pcb.c:392-406): the frames are freed, but the entries cleared
      are copies, so the table stays as it is. */
  function FreedUserspace(pt: seq<Pte>, used: seq<bool>, n: nat): (used': seq<bool>)
    requires n <= |pt| && NUM_VPN <= |used|
    ensures |used'| == |used|
  {
    if n == 0 then used
    else
      var u := FreedUserspace(pt, used, n - 1);
      if pt[n - 1].valid then Free(u, pt[n - 1].pfn) else u
  }

  /** Text pages may be read and executed, once they are loaded (load_program.c:283-287). */
  function Protected(pt: seq<Pte>, i: nat, n: nat): (pt': seq<Pte>)
    requires n <= |pt|
    ensures |pt'| == |pt|
    decreases n - i
  {
    if i >= n then pt else Protected(pt[i := pt[i].(prot := READ_EXEC)], i + 1, n)
  }

  /** One more segment, if the ones before it found their frames. */
  function Then(r: (Heap, bool), i: nat, n: nat): (r': (Heap, bool))
    requires |r.0.r0| == MAX_PT_LEN && NUM_VPN <= |r.0.used| && n <= MAX_PT_LEN
    ensures |r'.0.r0| == MAX_PT_LEN && |r'.0.used| == |r.0.used|
  {
    if r.1 then Grow(r.0, i, n) else r
  }

  /** Frames for text, data and stack in turn, in the table and bitmap h of a process whose old
      frames have been freed. */
  function LoadSegments(h: Heap, li: LoadInfo, stack: nat): (r: (Heap, bool))
    requires |h.r0| == MAX_PT_LEN && NUM_VPN <= |h.used|
    requires li.textPage + li.textPages <= li.dataPage && DataEnd(li) <= stack <= MAX_PT_LEN
    ensures |r.0.r0| == MAX_PT_LEN && |r.0.used| == |h.used|
  {
    Then(Then(Then((h, true), li.textPage, li.textPage + li.textPages), li.dataPage, DataEnd(li)), stack, MAX_PT_LEN)
  }

  /** Then the text is protected. */
  function LoadPages(h: Heap, li: LoadInfo, stack: nat): (r: (Heap, bool))
    requires |h.r0| == MAX_PT_LEN && NUM_VPN <= |h.used|
    requires li.textPage + li.textPages <= li.dataPage && DataEnd(li) <= stack <= MAX_PT_LEN
    ensures |r.0.r0| == MAX_PT_LEN && |r.0.used| == |h.used|
  {
    var r := LoadSegments(h, li, stack);
    if r.1 then (r.0.(r0 := Protected(r.0.r0, li.textPage, li.textPage + li.textPages)), true) else r
  }

  /** A segment reaches its end exactly when the frames last. */
  lemma ThenReaches(r: (Heap, bool), i: nat, n: nat)
    requires |r.0.r0| == MAX_PT_LEN && NUM_VPN <= |r.0.used| && i <= n <= MAX_PT_LEN && r.1
    ensures Then(r, i, n).1 <==> n - i <= FreeCount(r.0.used, 0)
    ensures Then(r, i, n).1 ==>
              && Grown(r.0, Then(r, i, n).0, i, n)
              && FreeCount(Then(r, i, n).0.used, 0) == FreeCount(r.0.used, 0) - (n - i)
  {
    var m := GrowReaches(r.0, i, n);
  }

  ghost predicate Between(i: nat, j: nat, n: nat) {
    i <= j < n
  }

  /** The pages of region 1 from i up to n. */
  ghost function Pages(i: nat, n: nat): set<nat> {
    set j: nat | j < MAX_PT_LEN && Between(i, j, n)
  }

  /** The pages ps, and no others, have been mapped to frames of their own that were free. */
  ghost predicate Mapped(h: Heap, h': Heap, ps: set<nat>) {
    && |h'.r0| == |h.r0| && |h'.used| == |h.used|
    && (forall j :: 0 <= j < |h.r0| && j !in ps ==> h'.r0[j] == h.r0[j])
    && (forall j <- ps ::
        j < |h.r0| && h'.r0[j].valid && h'.r0[j].prot == READ_WRITE && h'.r0[j].pfn < |h.used| && !h.used[h'.r0[j].pfn])
    && (forall j <- ps, k <- ps :: h'.r0[j].pfn == h'.r0[k].pfn ==> j == k)
    && (forall f :: 0 <= f < |h.used| ==> (h'.used[f] <==> h.used[f] || exists j <- ps :: h'.r0[j].pfn == f))
  }

  lemma GrownIsMapped(h: Heap, h': Heap, i: nat, n: nat)
    requires Grown(h, h', i, n) && |h.r0| == MAX_PT_LEN
    ensures Mapped(h, h', Pages(i, n))
  {
    forall f | 0 <= f < |h.used|
      ensures h'.used[f] <==> h.used[f] || exists j <- Pages(i, n) :: h'.r0[j].pfn == f
    {
      if j :| i <= j < n && h'.r0[j].pfn == f { assert j in Pages(i, n); }
    }
  }

  lemma MappedTwice(h: Heap, h1: Heap, h2: Heap, a: set<nat>, b: set<nat>)
    requires Mapped(h, h1, a) && Mapped(h1, h2, b) && a !! b
    ensures Mapped(h, h2, a + b)
  {
    forall j <- a
      ensures h2.r0[j] == h1.r0[j] && h1.used[h1.r0[j].pfn]
    {}
    forall j <- a + b, k <- a + b
      ensures h2.r0[j].pfn == h2.r0[k].pfn ==> j == k
    {
      if j in a && k in b { assert !h1.used[h2.r0[k].pfn]; }
      if j in b && k in a { assert !h1.used[h2.r0[j].pfn]; }
    }
    forall f | 0 <= f < |h.used|
      ensures h2.used[f] <==> h.used[f] || exists j <- a + b :: h2.r0[j].pfn == f
    {
      MappedFrames(h, h1, h2, a, b, f);
    }
  }

  lemma MappedFrames(h: Heap, h1: Heap, h2: Heap, a: set<nat>, b: set<nat>, f: nat)
    requires Mapped(h, h1, a) && Mapped(h1, h2, b) && a !! b && f < |h.used|
    ensures h2.used[f] <==> h.used[f] || exists j <- a + b :: h2.r0[j].pfn == f
  {
    if j :| j in a && h1.r0[j].pfn == f {
      assert j in a + b && h2.r0[j] == h1.r0[j];
    }
    if j :| j in b && h2.r0[j].pfn == f {
      assert j in a + b;
    }
    if j :| j in a + b && h2.r0[j].pfn == f {
      assert j in a ==> h2.r0[j] == h1.r0[j];
    }
  }

  ghost function TextPages(li: LoadInfo): set<nat> {
    Pages(li.textPage, li.textPage + li.textPages)
  }

  /** Every page of the program. */
  ghost function ProgramPages(li: LoadInfo, stack: nat): set<nat> {
    TextPages(li) + Pages(li.dataPage, DataEnd(li)) + Pages(stack, MAX_PT_LEN)
  }

  lemma {:induction false} ProtectedAt(pt: seq<Pte>, i: nat, n: nat)
    requires i <= n <= |pt|
    ensures forall j :: 0 <= j < |pt| ==>
            Protected(pt, i, n)[j] == if i <= j < n then pt[j].(prot := READ_EXEC) else pt[j]
    decreases n - i
  {
    if i < n { ProtectedAt(pt[i := pt[i].(prot := READ_EXEC)], i + 1, n); }
  }

  lemma PagesApart(i: nat, n: nat, j: nat, m: nat)
    requires n <= j
    ensures Pages(i, n) !! Pages(j, m)
  {
    forall k <- Pages(i, n)
      ensures k !in Pages(j, m)
    {
      assert Between(i, k, n) && !Between(j, k, m);
    }
  }

  lemma TwoRanges(h: Heap, h1: Heap, h2: Heap, li: LoadInfo)
    requires |h.r0| == MAX_PT_LEN && li.textPage + li.textPages <= li.dataPage
    requires Grown(h, h1, li.textPage, li.textPage + li.textPages) && Grown(h1, h2, li.dataPage, DataEnd(li))
    ensures Mapped(h, h2, TextPages(li) + Pages(li.dataPage, DataEnd(li)))
  {
    GrownIsMapped(h, h1, li.textPage, li.textPage + li.textPages);
    GrownIsMapped(h1, h2, li.dataPage, DataEnd(li));
    PagesApart(li.textPage, li.textPage + li.textPages, li.dataPage, DataEnd(li));
    MappedTwice(h, h1, h2, TextPages(li), Pages(li.dataPage, DataEnd(li)));
  }

  lemma ThreeRanges(h: Heap, h1: Heap, h2: Heap, g: Heap, li: LoadInfo, stack: nat)
    requires |h.r0| == MAX_PT_LEN && li.textPage + li.textPages <= li.dataPage && DataEnd(li) <= stack <= MAX_PT_LEN
    requires Grown(h, h1, li.textPage, li.textPage + li.textPages) && Grown(h1, h2, li.dataPage, DataEnd(li))
             && Grown(h2, g, stack, MAX_PT_LEN)
    ensures Mapped(h, g, ProgramPages(li, stack))
  {
    TwoRanges(h, h1, h2, li);
    GrownIsMapped(h2, g, stack, MAX_PT_LEN);
    PagesApart(li.textPage, li.textPage + li.textPages, stack, MAX_PT_LEN);
    PagesApart(li.dataPage, DataEnd(li), stack, MAX_PT_LEN);
    MappedTwice(h, h2, g, TextPages(li) + Pages(li.dataPage, DataEnd(li)), Pages(stack, MAX_PT_LEN));
  }

  /** The program's pages are mapped exactly when there are frames enough. */
  lemma SegmentsMapped(h: Heap, li: LoadInfo, stack: nat)
    requires |h.r0| == MAX_PT_LEN && NUM_VPN <= |h.used|
    requires li.textPage + li.textPages <= li.dataPage && DataEnd(li) <= stack <= MAX_PT_LEN
    ensures var (g, ok) := LoadSegments(h, li, stack);
            && (ok <==> li.textPages + li.dataPages + (MAX_PT_LEN - stack) <= FreeCount(h.used, 0))
            && (ok ==> Mapped(h, g, ProgramPages(li, stack)))
  {
    var t := li.textPage + li.textPages;
    var r1 := Then((h, true), li.textPage, t);
    var r2 := Then(r1, li.dataPage, DataEnd(li));
    ThenReaches((h, true), li.textPage, t);
    LastTwo(h, r1, r2, Then(r2, stack, MAX_PT_LEN), li, stack);
  }

  lemma LastTwo(h: Heap, r1: (Heap, bool), r2: (Heap, bool), r3: (Heap, bool), li: LoadInfo, stack: nat)
    requires |h.r0| == |r1.0.r0| == |r2.0.r0| == MAX_PT_LEN && NUM_VPN <= |h.used| == |r1.0.used| == |r2.0.used|
    requires li.textPage + li.textPages <= li.dataPage && DataEnd(li) <= stack <= MAX_PT_LEN
    requires r2 == Then(r1, li.dataPage, DataEnd(li)) && r3 == Then(r2, stack, MAX_PT_LEN)
    requires r1.1 <==> li.textPages <= FreeCount(h.used, 0)
    requires r1.1 ==>
             Grown(h, r1.0, li.textPage, li.textPage + li.textPages)
                 && FreeCount(r1.0.used, 0) == FreeCount(h.used, 0) - li.textPages
    ensures r3.1 <==> li.textPages + li.dataPages + (MAX_PT_LEN - stack) <= FreeCount(h.used, 0)
    ensures r3.1 ==> Mapped(h, r3.0, ProgramPages(li, stack))
  {
    if r1.1 { ThenReaches(r1, li.dataPage, DataEnd(li)); }
    if r2.1 { ThenReaches(r2, stack, MAX_PT_LEN); }
    if r3.1 { ThreeRanges(h, r1.0, r2.0, r3.0, li, stack); }
  }

  /** What the table of a loaded program looks like. */
  ghost predicate Laid(h: Heap, g: Heap, li: LoadInfo, stack: nat) {
    var ps := ProgramPages(li, stack);
    && |g.r0| == |h.r0| == MAX_PT_LEN && |g.used| == |h.used|
    && (forall i <- ps ::
        i < MAX_PT_LEN && g.r0[i].valid && g.r0[i].pfn < |h.used| && !h.used[g.r0[i].pfn] && g.used[g.r0[i].pfn])
    && (forall i <- ps :: g.r0[i].prot == if i in TextPages(li) then READ_EXEC else READ_WRITE)
    && (forall i <- ps, j <- ps :: g.r0[i].pfn == g.r0[j].pfn ==> i == j)
    && (forall i :: 0 <= i < MAX_PT_LEN && i !in ps ==> g.r0[i] == h.r0[i])
    && (forall f :: 0 <= f < |h.used| ==> (g.used[f] <==> h.used[f] || SomeFrame(g.r0, ps, f)))
  }

  /** f is the frame of one of the pages ps. */
  ghost predicate SomeFrame(pt: seq<Pte>, ps: set<nat>, f: nat) {
    exists j <- ps :: j < |pt| && pt[j].pfn == f
  }

  lemma LaidOut(h: Heap, g: Heap, r: Heap, li: LoadInfo, stack: nat)
    requires |h.r0| == MAX_PT_LEN && li.textPage + li.textPages <= MAX_PT_LEN && Mapped(h, g, ProgramPages(li, stack))
    requires r == g.(r0 := Protected(g.r0, li.textPage, li.textPage + li.textPages))
    ensures Laid(h, r, li, stack)
  {
    TextIsProtected(g.r0, li);
    SameFrames(h, g, r, ProgramPages(li, stack));
    OwnPages(h, g, r, li, stack);
  }

  lemma TextIsProtected(pt: seq<Pte>, li: LoadInfo)
    requires |pt| == MAX_PT_LEN && li.textPage + li.textPages <= MAX_PT_LEN
    ensures forall i :: 0 <= i < MAX_PT_LEN ==>
              Protected(pt, li.textPage, li.textPage + li.textPages)[i] == if i in TextPages(li)
                  then pt[i].(prot := READ_EXEC) else pt[i]
  {
    ProtectedAt(pt, li.textPage, li.textPage + li.textPages);
    forall i | 0 <= i < MAX_PT_LEN
      ensures i in TextPages(li) <==> li.textPage <= i < li.textPage + li.textPages
    {
      assert Between(li.textPage, i, li.textPage + li.textPages) <==> li.textPage <= i < li.textPage + li.textPages;
    }
  }

  lemma OwnPages(h: Heap, g: Heap, r: Heap, li: LoadInfo, stack: nat)
    requires |h.r0| == MAX_PT_LEN == |r.r0| && Mapped(h, g, ProgramPages(li, stack)) && r.used == g.used
    requires forall i :: 0 <= i < MAX_PT_LEN ==>
             r.r0[i] == if i in TextPages(li) then g.r0[i].(prot := READ_EXEC) else g.r0[i]
    ensures var ps := ProgramPages(li, stack);
            && (forall i <- ps ::
                i < MAX_PT_LEN && r.r0[i].valid && r.r0[i].pfn < |h.used| && !h.used[r.r0[i].pfn]
                    && r.used[r.r0[i].pfn])
            && (forall i <- ps, j <- ps :: r.r0[i].pfn == r.r0[j].pfn ==> i == j)
  {}

  lemma SameFrames(h: Heap, g: Heap, r: Heap, ps: set<nat>)
    requires Mapped(h, g, ps) && |r.r0| == |g.r0| && r.used == g.used && forall i :: 0 <= i < |g.r0| ==>
             r.r0[i].pfn == g.r0[i].pfn
    ensures forall f :: 0 <= f < |h.used| ==> (r.used[f] <==> h.used[f] || SomeFrame(r.r0, ps, f))
  {
    forall f | 0 <= f < |h.used|
      ensures r.used[f] <==> h.used[f] || SomeFrame(r.r0, ps, f)
    {
      if SomeFrame(r.r0, ps, f) {
        var j :| j in ps && j < |r.r0| && r.r0[j].pfn == f;
        assert g.r0[j].pfn == f;
      }
      if j :| j in ps && g.r0[j].pfn == f { assert r.r0[j].pfn == f; }
    }
  }

  lemma LaidAt(h: Heap, li: LoadInfo, stack: nat)
    requires |h.r0| == MAX_PT_LEN && NUM_VPN <= |h.used|
    requires li.textPage + li.textPages <= li.dataPage && DataEnd(li) < stack <= MAX_PT_LEN
    requires li.textPages + li.dataPages + (MAX_PT_LEN - stack) <= FreeCount(h.used, 0)
    ensures LoadPages(h, li, stack).1 && Laid(h, LoadPages(h, li, stack).0, li, stack)
    ensures DataEnd(li) !in ProgramPages(li, stack)
  {
    SegmentsMapped(h, li, stack);
    GapLeft(li, stack);
    LoadIs(h, li, stack);
    LaidOut(h, LoadSegments(h, li, stack).0, LoadPages(h, li, stack).0, li, stack);
  }

  lemma LoadIs(h: Heap, li: LoadInfo, stack: nat)
    requires |h.r0| == MAX_PT_LEN && NUM_VPN <= |h.used|
    requires li.textPage + li.textPages <= li.dataPage && DataEnd(li) <= stack <= MAX_PT_LEN
             && LoadSegments(h, li, stack).1
    ensures var g := LoadSegments(h, li, stack).0;
            LoadPages(h, li, stack) == (g.(r0 := Protected(g.r0, li.textPage, li.textPage + li.textPages)), true)
  {}

  lemma GapLeft(li: LoadInfo, stack: nat)
    requires li.textPage + li.textPages <= li.dataPage && DataEnd(li) < stack
    ensures DataEnd(li) !in ProgramPages(li, stack)
  {
    var d := DataEnd(li);
    assert !Between(li.textPage, d, li.textPage + li.textPages) && !Between(li.dataPage, d, d)
           && !Between(stack, d, MAX_PT_LEN);
  }

  /** A program that passes the size check and finds frames enough gets its text to read and execute,
      its data and stack to read and write, each page on a frame of its own, and a page left out
      between data and stack. */
  lemma ProgramIsLaid(h: Heap, li: LoadInfo, args: seq<CString>)
    requires |h.r0| == MAX_PT_LEN && NUM_VPN <= |h.used| && li.textPage + li.textPages <= li.dataPage
             && !TooBig(li, args)
    requires li.textPages + li.dataPages + StackPages(args) <= FreeCount(h.used, 0)
    ensures DataEnd(li) < StackStart(args) <= MAX_PT_LEN && LoadPages(h, li, StackStart(args)).1
    ensures Laid(h, LoadPages(h, li, StackStart(args)).0, li, StackStart(args))
    ensures DataEnd(li) !in ProgramPages(li, StackStart(args))
  {
    StackFits(li, args);
    var stack := StackStart(args);
    LaidAt(h, li, stack);
  }

  // ---------------------------------------------------------------- what the old program leaves behind

  /** The old pages' frames are free, their entries as they were. */
  function Freed(h: Heap): (h': Heap)
    requires |h.r0| == MAX_PT_LEN && NUM_VPN <= |h.used|
    ensures h'.r0 == h.r0 && |h'.used| == |h.used|
  {
    h.(used := FreedUserspace(h.r0, h.used, MAX_PT_LEN))
  }

  lemma {:induction false} FramesFreed(pt: seq<Pte>, used: seq<bool>, n: nat)
    requires n <= |pt| && NUM_VPN <= |used|
    ensures forall f :: 0 <= f < NUM_VPN && (exists i :: 0 <= i < n && pt[i].valid && pt[i].pfn == f) ==>
            !FreedUserspace(pt, used, n)[f]
  {
    if n > 0 { FramesFreed(pt, used, n - 1); }
  }

  /** A load in the place of whatever table and frames were there. */
  ghost predicate CanLoad(h: Heap, li: LoadInfo, args: seq<CString>) {
    && |h.r0| == MAX_PT_LEN && NUM_VPN <= |h.used| && FramesExist(h.r0, NUM_VPN)
    && li.textPage + li.textPages <= li.dataPage && !TooBig(li, args)
    && li.textPages + li.dataPages + StackPages(args) <= FreeCount(Freed(h).used, 0)
  }

  ghost function LoadedOver(h: Heap, li: LoadInfo, args: seq<CString>): (g: Heap)
    requires CanLoad(h, li, args)
    ensures |g.r0| == MAX_PT_LEN && |g.used| == |h.used| && StackStart(args) >= 0
  {
    StackFits(li, args);
    LoadPages(Freed(h), li, StackStart(args)).0
  }

  /** A page of the old program that is none of the new one's. */
  ghost predicate LeftBehind(h: Heap, li: LoadInfo, args: seq<CString>, i: nat)
    requires CanLoad(h, li, args) && StackStart(args) >= 0
  {
    i < MAX_PT_LEN && i !in ProgramPages(li, StackStart(args)) && h.r0[i].valid
  }

  lemma LoadedIsLaid(h: Heap, li: LoadInfo, args: seq<CString>)
    requires CanLoad(h, li, args)
    ensures 0 <= StackStart(args) && DataEnd(li) < StackStart(args) <= MAX_PT_LEN
    ensures Laid(Freed(h), LoadedOver(h, li, args), li, StackStart(args))
  {
    ProgramIsLaid(Freed(h), li, args);
  }

  /** The program's valid pages are exactly text, data and stack exactly when the old table had none
      outside them: what free_userspace leaves behind stays mapped. */
  lemma ValidPagesExactly(h: Heap, li: LoadInfo, args: seq<CString>)
    requires CanLoad(h, li, args)
    ensures 0 <= StackStart(args)
    ensures (forall i :: 0 <= i < MAX_PT_LEN ==>
             (LoadedOver(h, li, args).r0[i].valid <==> i in ProgramPages(li, StackStart(args))))
       <==> (forall i :: !LeftBehind(h, li, args, i))
  {
    LoadedIsLaid(h, li, args);
    var g, ps := LoadedOver(h, li, args), ProgramPages(li, StackStart(args));
    forall i | 0 <= i < MAX_PT_LEN && i !in ps
      ensures g.r0[i].valid <==> LeftBehind(h, li, args, i)
    {
      assert g.r0[i] == Freed(h).r0[i];
    }
    if forall i :: 0 <= i < MAX_PT_LEN ==> (g.r0[i].valid <==> i in ps) {
      forall i
        ensures !LeftBehind(h, li, args, i)
      {}
    }
  }

  /** Every mapped frame is marked as used, and mapped once. */
  ghost predicate OwnFrames(g: Heap) {
    && (forall i :: 0 <= i < |g.r0| && g.r0[i].valid ==> g.r0[i].pfn < |g.used| && g.used[g.r0[i].pfn])
    && (forall i, j ::
        0 <= i < |g.r0| && 0 <= j < |g.r0| && g.r0[i].valid && g.r0[j].valid && g.r0[i].pfn == g.r0[j].pfn ==> i == j)
  }

  /** The frame of a page left behind is marked free although it is mapped, and will be handed out
      again, or has already been handed to the new program. */
  lemma LeftBehindIsFreeOrShared(h: Heap, li: LoadInfo, args: seq<CString>, i: nat)
    requires CanLoad(h, li, args) && StackStart(args) >= 0 && LeftBehind(h, li, args, i)
    ensures var g := LoadedOver(h, li, args); var f := h.r0[i].pfn;
            && g.r0[i] == h.r0[i] && f < |g.used|
            && (!g.used[f] || SomeFrame(g.r0, ProgramPages(li, StackStart(args)), f))
  {
    LoadedIsLaid(h, li, args);
    FramesFreed(h.r0, h.used, MAX_PT_LEN);
    assert h.r0[i] in h.r0;
    assert LoadedOver(h, li, args).r0[i] == Freed(h).r0[i];
  }

  lemma LeftBehindIsNotOwn(h: Heap, li: LoadInfo, args: seq<CString>, i: nat)
    requires CanLoad(h, li, args) && StackStart(args) >= 0 && LeftBehind(h, li, args, i)
    ensures !OwnFrames(LoadedOver(h, li, args))
  {
    LoadedIsLaid(h, li, args);
    LeftBehindIsFreeOrShared(h, li, args, i);
    var g, ps := LoadedOver(h, li, args), ProgramPages(li, StackStart(args));
    if SomeFrame(g.r0, ps, h.r0[i].pfn) {
      var j :| j in ps && j < |g.r0| && g.r0[j].pfn == h.r0[i].pfn;
      assert i != j && g.r0[i].valid && g.r0[j].valid;
    }
  }

  lemma NothingLeftIsOwn(h: Heap, g: Heap, li: LoadInfo, stack: nat)
    requires Laid(h, g, li, stack) && forall i :: 0 <= i < MAX_PT_LEN && i !in ProgramPages(li, stack) ==>
             !h.r0[i].valid
    ensures OwnFrames(g)
  {
    forall i | 0 <= i < MAX_PT_LEN && g.r0[i].valid
      ensures i in ProgramPages(li, stack)
    {}
  }

  /** So the new program owns its frames exactly when nothing was left behind. */
  lemma FramesAreOwnExactly(h: Heap, li: LoadInfo, args: seq<CString>)
    requires CanLoad(h, li, args)
    ensures 0 <= StackStart(args)
    ensures OwnFrames(LoadedOver(h, li, args)) <==> forall i :: !LeftBehind(h, li, args, i)
  {
    LoadedIsLaid(h, li, args);
    if i :| LeftBehind(h, li, args, i) {
      LeftBehindIsNotOwn(h, li, args, i);
    } else {
      forall i | 0 <= i < MAX_PT_LEN && i !in ProgramPages(li, StackStart(args))
        ensures !h.r0[i].valid
      {
        assert !LeftBehind(h, li, args, i);
      }
      NothingLeftIsOwn(Freed(h), LoadedOver(h, li, args), li, StackStart(args));
    }
  }

  /** One page of the old program, where the new one leaves its gap, on the first frame there is to be
      had: frame 0 is marked at boot (memory.c:147). */
  function OnePageLeft(li: LoadInfo): (h: Heap)
    requires DataEnd(li) < MAX_PT_LEN
  {
    Heap(NoPages()[DataEnd(li) := Pte(true, READ_WRITE, 1)], seq(NUM_VPN, f => f <= 1))
  }

  /** Whatever is loaded over it does not own its frames. */
  lemma AFrameIsShared(li: LoadInfo, args: seq<CString>)
    requires DataEnd(li) < MAX_PT_LEN && CanLoad(OnePageLeft(li), li, args)
    ensures StackStart(args) >= 0 && LeftBehind(OnePageLeft(li), li, args, DataEnd(li))
    ensures LoadedOver(OnePageLeft(li), li, args).r0[DataEnd(li)].valid
            && !OwnFrames(LoadedOver(OnePageLeft(li), li, args))
  {
    var h := OnePageLeft(li);
    LoadedIsLaid(h, li, args);
    GapLeft(li, StackStart(args));
    FramesAreOwnExactly(h, li, args);
    LeftBehindIsFreeOrShared(h, li, args, DataEnd(li));
  }

  /** And everything that fits and finds the frames can be loaded over it. */
  lemma OnePageLeftCanBeLoadedOver(li: LoadInfo, args: seq<CString>)
    requires li.textPage + li.textPages <= li.dataPage && !TooBig(li, args)
             && li.textPages + li.dataPages + StackPages(args) < NUM_VPN
    ensures DataEnd(li) < MAX_PT_LEN && CanLoad(OnePageLeft(li), li, args)
  {
    StackFits(li, args);
    OneStackPage(args);
    OnePageFreed(li);
    AllButOneFree(Freed(OnePageLeft(li)).used, 0);
  }

  /** There is always a page of stack. */
  lemma OneStackPage(args: seq<CString>)
    ensures StackPages(args) > 0
  {
    StackStartsAtItsPage(args);
    PageOfIs(StackPointer(args));
    LastPage(StackPointer(args));
  }

  lemma OnePageFreed(li: LoadInfo)
    requires DataEnd(li) < MAX_PT_LEN && NUM_VPN > 1
    ensures var h := OnePageLeft(li); FramesExist(h.r0, NUM_VPN) && forall f :: 0 < f < NUM_VPN ==> !Freed(h).used[f]
  {
    var h := OnePageLeft(li);
    FramesFreed(h.r0, h.used, MAX_PT_LEN);
    assert h.r0[DataEnd(li)].valid && h.r0[DataEnd(li)].pfn == 1;
    FreedStayFree(h.r0, h.used, MAX_PT_LEN);
  }

  lemma {:induction false} FreedStayFree(pt: seq<Pte>, used: seq<bool>, n: nat)
    requires n <= |pt| && NUM_VPN <= |used|
    ensures forall f :: 0 <= f < |used| && !used[f] ==> !FreedUserspace(pt, used, n)[f]
  {
    if n > 0 { FreedStayFree(pt, used, n - 1); }
  }

  lemma {:induction false} AllButOneFree(used: seq<bool>, i: nat)
    requires i <= NUM_VPN <= |used| && forall f :: 0 < f < NUM_VPN ==> !used[f]
    ensures FreeCount(used, i) >= if i == 0 then NUM_VPN - 1 else NUM_VPN - i
    decreases NUM_VPN - i
  {
    if i < NUM_VPN { AllButOneFree(used, i + 1); }
  }

  // ---------------------------------------------------------------- one program after another

  /** A program loaded into a process without pages, and another one after it: the second owns its
      frames exactly when it has a page wherever the first had one. */
  lemma SecondLoadOwnsExactly(used: seq<bool>, li: LoadInfo, args: seq<CString>, li': LoadInfo, args': seq<CString>)
    requires CanLoad(Heap(NoPages(), used), li, args)
    requires var h := LoadedOver(Heap(NoPages(), used), li, args); CanLoad(h, li', args')
    ensures 0 <= StackStart(args) && 0 <= StackStart(args')
    ensures var h := LoadedOver(Heap(NoPages(), used), li, args);
            OwnFrames(LoadedOver(h, li', args')) <==>
                ProgramPages(li, StackStart(args)) <= ProgramPages(li', StackStart(args'))
  {
    var h0 := Heap(NoPages(), used);
    var h := LoadedOver(h0, li, args);
    LoadedIsLaid(h0, li, args);
    FramesAreOwnExactly(h, li', args');
    forall i | 0 <= i < MAX_PT_LEN
      ensures h.r0[i].valid <==> i in ProgramPages(li, StackStart(args))
    {
      if i !in ProgramPages(li, StackStart(args)) { assert h.r0[i] == Freed(h0).r0[i]; }
    }
    if ProgramPages(li, StackStart(args)) <= ProgramPages(li', StackStart(args')) {
      assert forall i :: !LeftBehind(h, li', args', i);
    } else {
      var i :| i in ProgramPages(li, StackStart(args)) && i !in ProgramPages(li', StackStart(args'));
      assert LeftBehind(h, li', args', i);
    }
  }
}
