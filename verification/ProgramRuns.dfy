/** Runs in which programs are loaded as well (load_program.c:141-234 among the steps of
    AddressSpaces): the frames stay owned, and the processes apart, exactly as long as no load leaves
    a page of the old program behind. */
module ProgramRuns {
  import opened Hardware
  import opened Frames
  import opened Memory
  import opened KernelBreak
  import ArgStack
  import opened ProgramLayout
  import opened AddressSpaces
  import SF = SpaceFrames

  /** A step of AddressSpaces, or the running process loads a program, after which memory is `pmem`. */
  datatype Act = Plain(t: Step) | Load(li: LoadInfo, args: seq<ArgStack.CString>, pmem: seq<Page>)

  ghost function OldHeap(s: Sys): Heap
    requires Typed(s)
  {
    Heap(ParentTable(s), s.used)
  }

  /** Only the program's own frames are written: the load stores through its pages
      (load_program.c:236-321). */
  ghost predicate WritesOwn(s: Sys, li: LoadInfo, args: seq<ArgStack.CString>, pmem: seq<Page>)
    requires Typed(s) && CanLoad(OldHeap(s), li, args)
  {
    && |pmem| == |s.pmem|
    && var pt := LoadedOver(OldHeap(s), li, args).r0;
       forall f :: 0 <= f < |pmem| && !SomeFrame(pt, ProgramPages(li, StackStart(args)), f) ==> pmem[f] == s.pmem[f]
  }

  ghost predicate CanAct(s: Sys, a: Act)
    requires Typed(s)
  {
    match a
    case Plain(t) => Possible(s, t)
    case Load(li, args, pmem) => CanLoad(OldHeap(s), li, args) && WritesOwn(s, li, args, pmem)
  }

  /** With the running process's table, the bitmap and memory replaced. */
  ghost function With(s: Sys, g: Heap, pmem: seq<Page>): Sys
    requires Typed(s)
  {
    s.(pmem := pmem, used := g.used, procs := s.procs[s.cur := Space(g.r0, s.procs[s.cur].ks)])
  }

  ghost function DoLoad(s: Sys, li: LoadInfo, args: seq<ArgStack.CString>, pmem: seq<Page>): Sys
    requires Typed(s) && CanLoad(OldHeap(s), li, args)
  {
    With(s, LoadedOver(OldHeap(s), li, args), pmem)
  }

  ghost function After(s: Sys, a: Act): Sys
    requires Owned(s) && CanAct(s, a)
  {
    match a
    case Plain(t) => Next(s, t)
    case Load(li, args, pmem) => DoLoad(s, li, args, pmem)
  }

  /** The load leaves a page of the old program mapped. */
  ghost predicate LeavesPage(s: Sys, a: Act)
    requires Typed(s) && CanAct(s, a)
  {
    a.Load? && exists i :: StackStart(a.args) >= 0 && LeftBehind(OldHeap(s), a.li, a.args, i)
  }

  // ---------------------------------------------------------------- one load

  /** Only the frames of the old pages are freed. */
  lemma {:induction false} OthersKept(pt: seq<Pte>, used: seq<bool>, n: nat, f: nat)
    requires n <= |pt| && NUM_VPN <= |used| && f < |used| && used[f]
    requires forall i :: 0 <= i < n && pt[i].valid ==> pt[i].pfn != f
    ensures FreedUserspace(pt, used, n)[f]
  {
    if n > 0 { OthersKept(pt, used, n - 1, f); }
  }

  /** What is mapped after the load: a page of the program, or what somebody else had mapped. */
  ghost predicate OwnPage(s: Sys, pl: Place) {
    pl.User? && pl.p == s.cur
  }

  /** The load leaves nothing: the table has only the program's pages. */
  ghost predicate CleanLoad(s: Sys, g: Heap, li: LoadInfo, stack: nat)
    requires Typed(s)
  {
    && Laid(Freed(OldHeap(s)), g, li, stack)
    && forall i :: 0 <= i < MAX_PT_LEN && g.r0[i].valid ==> i in ProgramPages(li, stack)
  }

  /** The program's frames were free once the old pages were given back. */
  lemma OwnAreNew(s: Sys, g: Heap, li: LoadInfo, stack: nat, pmem: seq<Page>, pl: Place)
    requires Owned(s) && CleanLoad(s, g, li, stack) && OwnPage(s, pl) && Holds(With(s, g, pmem), pl)
    ensures pl.i in ProgramPages(li, stack)
    ensures var f := EntryAt(With(s, g, pmem), pl).pfn;
            f < |s.used| == |g.used| && !Freed(OldHeap(s)).used[f] && g.used[f]
  {}

  /** The frames of everybody else stay marked. */
  lemma OthersAreOld(s: Sys, g: Heap, li: LoadInfo, stack: nat, pmem: seq<Page>, pl: Place)
    requires Owned(s) && CleanLoad(s, g, li, stack) && !OwnPage(s, pl) && Holds(With(s, g, pmem), pl)
    ensures Holds(s, pl) && EntryAt(s, pl) == EntryAt(With(s, g, pmem), pl)
    ensures var f := EntryAt(s, pl).pfn; f < |s.used| == |g.used| && Freed(OldHeap(s)).used[f] && g.used[f]
  {
    assert Holds(s, pl) && EntryAt(s, pl) == EntryAt(With(s, g, pmem), pl);
    assert HoldsUsed(s, pl);
    var f, pt := EntryAt(s, pl).pfn, ParentTable(s);
    forall i | 0 <= i < MAX_PT_LEN && pt[i].valid
      ensures pt[i].pfn != f
    {
      PlaceOf(s, User(s.cur, i), pl);
    }
    OthersKept(pt, s.used, MAX_PT_LEN, f);
  }

  lemma CleanApart(s: Sys, g: Heap, li: LoadInfo, stack: nat, pmem: seq<Page>, a: Place, b: Place)
    requires Owned(s) && CleanLoad(s, g, li, stack)
    ensures HoldsUsed(With(s, g, pmem), a) && HoldApart(With(s, g, pmem), a, b)
  {
    var s' := With(s, g, pmem);
    if Holds(s', a) {
      if OwnPage(s, a) { OwnAreNew(s, g, li, stack, pmem, a); } else { OthersAreOld(s, g, li, stack, pmem, a); }
    }
    if Holds(s', b) {
      if OwnPage(s, b) { OwnAreNew(s, g, li, stack, pmem, b); } else { OthersAreOld(s, g, li, stack, pmem, b); }
    }
    assert HoldApart(s, a, b);
  }

  lemma CleanTyped(s: Sys, g: Heap, li: LoadInfo, stack: nat, pmem: seq<Page>)
    requires Owned(s) && CleanLoad(s, g, li, stack) && |pmem| == |s.pmem|
    ensures Typed(With(s, g, pmem))
  {
    forall e <- g.r0 | e.valid
      ensures e.pfn < |pmem|
    {
      var i :| 0 <= i < MAX_PT_LEN && g.r0[i] == e;
      assert i in ProgramPages(li, stack);
    }
  }

  lemma CleanIsOwned(s: Sys, g: Heap, li: LoadInfo, stack: nat, pmem: seq<Page>)
    requires Owned(s) && CleanLoad(s, g, li, stack) && |pmem| == |s.pmem|
    ensures Owned(With(s, g, pmem))
  {
    var s' := With(s, g, pmem);
    CleanTyped(s, g, li, stack, pmem);
    forall a
      ensures HoldsUsed(s', a)
    {
      CleanApart(s, g, li, stack, pmem, a, a);
    }
    forall a, b
      ensures HoldApart(s', a, b)
    {
      CleanApart(s, g, li, stack, pmem, a, b);
    }
  }

  /** Frames that are owned by all are owned within each table. */
  lemma OwnedIsOwn(s: Sys, g: Heap)
    requires s.cur in s.procs && g == Heap(ParentTable(s), s.used)
    ensures Owned(s) ==> OwnFrames(g)
  {
    if Owned(s) {
      forall i | 0 <= i < |g.r0| && g.r0[i].valid
        ensures g.r0[i].pfn < |g.used| && g.used[g.r0[i].pfn]
      {
        assert HoldsUsed(s, User(s.cur, i));
      }
      forall i, j | 0 <= i < |g.r0| && 0 <= j < |g.r0| && g.r0[i].valid && g.r0[j].valid && g.r0[i].pfn == g.r0[j].pfn
        ensures i == j
      {
        assert HoldApart(s, User(s.cur, i), User(s.cur, j));
      }
    }
  }

  /** A load keeps every frame with one owner exactly when it leaves no page behind. */
  lemma LoadOwnedExactly(s: Sys, li: LoadInfo, args: seq<ArgStack.CString>, pmem: seq<Page>)
    requires Owned(s) && CanAct(s, Load(li, args, pmem))
    ensures Owned(DoLoad(s, li, args, pmem)) <==> !LeavesPage(s, Load(li, args, pmem))
  {
    var h, s' := OldHeap(s), DoLoad(s, li, args, pmem);
    var g := LoadedOver(h, li, args);
    LoadedIsLaid(h, li, args);
    if i :| LeftBehind(h, li, args, i) {
      LeftBehindIsNotOwn(h, li, args, i);
      OwnedIsOwn(s', g);
    } else {
      NothingButTheProgram(s, li, args);
      CleanIsOwned(s, g, li, StackStart(args), pmem);
    }
  }

  lemma NothingButTheProgram(s: Sys, li: LoadInfo, args: seq<ArgStack.CString>)
    requires Owned(s) && CanLoad(OldHeap(s), li, args) && StackStart(args) >= 0
    requires forall i :: !LeftBehind(OldHeap(s), li, args, i)
    ensures CleanLoad(s, LoadedOver(OldHeap(s), li, args), li, StackStart(args))
  {
    var h := OldHeap(s);
    var g, ps := LoadedOver(h, li, args), ProgramPages(li, StackStart(args));
    LoadedIsLaid(h, li, args);
    forall i | 0 <= i < MAX_PT_LEN && i !in ps
      ensures !g.r0[i].valid
    {
      assert g.r0[i] == Freed(h).r0[i] == h.r0[i];
      assert !LeftBehind(h, li, args, i);
    }
  }

  // ---------------------------------------------------------------- what the others see

  /** What somebody else sees does not change by a clean load. */
  lemma LoadIsolates(s: Sys, li: LoadInfo, args: seq<ArgStack.CString>, pmem: seq<Page>, p: Pid)
    requires Owned(s) && CanAct(s, Load(li, args, pmem)) && !LeavesPage(s, Load(li, args, pmem)) && p in s.procs
             && p != s.cur
    ensures var s' := DoLoad(s, li, args, pmem); Typed(s') && SeesSame(s, s', p, p)
  {
    var h, s' := OldHeap(s), DoLoad(s, li, args, pmem);
    var g, stack := LoadedOver(h, li, args), StackStart(args);
    LoadOwnedExactly(s, li, args, pmem);
    assert StackStart(args) >= 0;
    assert forall i :: !LeftBehind(h, li, args, i);
    NothingButTheProgram(s, li, args);
    assert SpaceTyped(s.procs[p], |s.pmem|);
    forall i | 0 <= i < MAX_PT_LEN
      ensures Sees(s', p, i) == Sees(s, p, i)
    {
      if Holds(s', User(p, i)) {
        OthersAreOld(s, g, li, stack, pmem, User(p, i));
        NotTheProgram(s, g, li, stack, s.procs[p].r1[i].pfn);
      }
    }
  }

  /** A frame marked before the program got its own is none of the program's. */
  lemma NotTheProgram(s: Sys, g: Heap, li: LoadInfo, stack: nat, f: nat)
    requires Typed(s) && CleanLoad(s, g, li, stack) && f < |s.used| && Freed(OldHeap(s)).used[f]
    ensures !SomeFrame(g.r0, ProgramPages(li, stack), f)
  {}

  // ---------------------------------------------------------------- no frame is lost

  /** A frame is marked after giving the old pages back exactly when it was and no old page is on it. */
  lemma FreedExactly(pt: seq<Pte>, used: seq<bool>, f: nat)
    requires NUM_VPN <= |used| && FramesExist(pt, NUM_VPN) && f < |used|
    ensures FreedUserspace(pt, used, |pt|)[f] <==> used[f] && !SF.Names(pt, f)
  {
    if SF.Names(pt, f) {
      var i :| 0 <= i < |pt| && pt[i].valid && pt[i].pfn == f;
      assert pt[i] in pt;
      FramesFreed(pt, used, |pt|);
    } else if used[f] {
      OthersKept(pt, used, |pt|, f);
    } else {
      FreedStayFree(pt, used, |pt|);
    }
  }

  /** Who holds a frame after a clean load. */
  lemma LoadHolds(s: Sys, g: Heap, li: LoadInfo, stack: nat, pmem: seq<Page>, pl: Place, f: nat)
    requires Owned(s) && CleanLoad(s, g, li, stack)
    ensures SF.HeldAt(With(s, g, pmem), pl, f) <==>
              if OwnPage(s, pl) then pl.i in ProgramPages(li, stack) && pl.i < MAX_PT_LEN && g.r0[pl.i].pfn == f
              else SF.HeldAt(s, pl, f)
  {
    var s' := With(s, g, pmem);
    if OwnPage(s, pl) {
      assert pl.i in ProgramPages(li, stack) ==> pl.i < MAX_PT_LEN && g.r0[pl.i].valid;
    } else {
      assert Exists(s', pl) <==> Exists(s, pl);
    }
  }

  /** Somebody else, or the kernel, has the frame mapped. */
  ghost predicate HeldByOthers(s: Sys, f: nat) {
    exists pl :: !OwnPage(s, pl) && SF.HeldAt(s, pl, f)
  }

  lemma HeldBefore(s: Sys, f: nat)
    requires Owned(s)
    ensures SF.Held(s, f) <==> SF.Names(ParentTable(s), f) || HeldByOthers(s, f)
    ensures !(SF.Names(ParentTable(s), f) && HeldByOthers(s, f))
  {
    var pt := ParentTable(s);
    if pl :| SF.HeldAt(s, pl, f) && OwnPage(s, pl) {
      assert pt[pl.i].valid && pt[pl.i].pfn == f;
    }
    if i :| 0 <= i < |pt| && pt[i].valid && pt[i].pfn == f {
      assert SF.HeldAt(s, User(s.cur, i), f);
      forall pl | !OwnPage(s, pl)
        ensures !SF.HeldAt(s, pl, f)
      {
        assert HoldApart(s, pl, User(s.cur, i));
      }
    }
  }

  lemma HeldAfter(s: Sys, g: Heap, li: LoadInfo, stack: nat, pmem: seq<Page>, f: nat)
    requires Owned(s) && CleanLoad(s, g, li, stack)
    ensures SF.Held(With(s, g, pmem), f) <==> SomeFrame(g.r0, ProgramPages(li, stack), f) || HeldByOthers(s, f)
  {
    var s', ps := With(s, g, pmem), ProgramPages(li, stack);
    if pl :| SF.HeldAt(s', pl, f) {
      LoadHolds(s, g, li, stack, pmem, pl, f);
    }
    if j :| j in ps && j < |g.r0| && g.r0[j].pfn == f {
      LoadHolds(s, g, li, stack, pmem, User(s.cur, j), f);
    }
    if pl :| !OwnPage(s, pl) && SF.HeldAt(s, pl, f) {
      LoadHolds(s, g, li, stack, pmem, pl, f);
    }
  }

  lemma LoadAccountsAt(s: Sys, g: Heap, li: LoadInfo, stack: nat, pmem: seq<Page>, kept: set<nat>, f: nat)
    requires Owned(s) && CleanLoad(s, g, li, stack) && FramesExist(ParentTable(s), NUM_VPN)
    requires f < |s.used| == |g.used| && SF.AccountedAt(s, kept, f)
    ensures SF.AccountedAt(With(s, g, pmem), kept, f)
  {
    FreedExactly(ParentTable(s), s.used, f);
    HeldBefore(s, f);
    HeldAfter(s, g, li, stack, pmem, f);
    TakenByLoad(s, g, li, stack, f);
  }

  /** The frames the load takes are those of the program, and were free. */
  lemma TakenByLoad(s: Sys, g: Heap, li: LoadInfo, stack: nat, f: nat)
    requires Owned(s) && CleanLoad(s, g, li, stack) && f < |s.used| == |g.used|
    ensures |Freed(OldHeap(s)).used| == |s.used|
    ensures g.used[f] <==> Freed(OldHeap(s)).used[f] || SomeFrame(g.r0, ProgramPages(li, stack), f)
    ensures !(Freed(OldHeap(s)).used[f] && SomeFrame(g.r0, ProgramPages(li, stack), f))
  {}

  /** A load that leaves nothing behind gives back exactly the frames of the old program and takes
      exactly those of the new one: no frame is lost. */
  lemma LoadAccounts(s: Sys, li: LoadInfo, args: seq<ArgStack.CString>, pmem: seq<Page>, kept: set<nat>)
    requires Owned(s) && CanAct(s, Load(li, args, pmem)) && !LeavesPage(s, Load(li, args, pmem))
             && SF.Accounted(s, kept)
    ensures SF.Accounted(DoLoad(s, li, args, pmem), kept)
  {
    var g := LoadedOver(OldHeap(s), li, args);
    assert StackStart(args) >= 0;
    assert forall i :: !LeftBehind(OldHeap(s), li, args, i);
    NothingButTheProgram(s, li, args);
    forall f | 0 <= f < |g.used|
      ensures SF.AccountedAt(With(s, g, pmem), kept, f)
    {
      assert SF.AccountedAt(s, kept, f);
      LoadAccountsAt(s, g, li, StackStart(args), pmem, kept, f);
    }
  }

  /** A break that stops half way, asked for again once a load has given frames back, loses a frame. */
  lemma RetryLosesAFrame(s: Sys, addr: nat, li: LoadInfo, args: seq<ArgStack.CString>, pmem: seq<Page>, kept: set<nat>)
    requires Owned(s) && SF.Accounted(s, kept) && HeapExact(SF.KernelHeap(s)) && SF.HalfWay(s, Brk(addr))
    requires var s1 := Next(s, Brk(addr));
             && Owned(s1) && CanAct(s1, Load(li, args, pmem)) && !LeavesPage(s1, Load(li, args, pmem))
             && FreeCount(DoLoad(s1, li, args, pmem).used, 0) > 0
    ensures var s2 := DoLoad(Next(s, Brk(addr)), li, args, pmem);
            Owned(s2) && SF.Accounted(s2, kept) && !SF.Accounted(Next(s2, Brk(addr)), kept)
  {
    var s1 := Next(s, Brk(addr));
    SF.ExactOverwritesNothing(s, Brk(addr));
    SF.StepAccountsExactly(s, Brk(addr), kept);
    LoadOwnedExactly(s1, li, args, pmem);
    LoadAccounts(s1, li, args, pmem, kept);
    var s2 := DoLoad(s1, li, args, pmem);
    var page := LeftMapped(s, addr);
    assert s2.r0 == s1.r0 && s2.brk == s1.brk;
    SF.StepAccountsExactly(s2, Brk(addr), kept);
  }

  /** It has left the page of its break mapped. */
  lemma LeftMapped(s: Sys, addr: nat) returns (page: nat)
    requires Owned(s) && SF.HalfWay(s, Brk(addr))
    ensures page == s.brk / PAGESIZE && page < |Next(s, Brk(addr)).r0|
    ensures Next(s, Brk(addr)).brk == s.brk && Next(s, Brk(addr)).r0[page].valid
  {
    page := s.brk / PAGESIZE;
    var m := GrowReaches(Heap(s.r0, s.used), page, addr / PAGESIZE);
  }

  // ---------------------------------------------------------------- runs

  lemma ActOwnedExactly(s: Sys, a: Act)
    requires Owned(s) && CanAct(s, a)
    ensures Owned(After(s, a)) <==> !LeavesPage(s, a)
  {
    match a
    case Plain(t) => StepOwned(s, t);
    case Load(li, args, pmem) => LoadOwnedExactly(s, li, args, pmem);
  }

  /** Every frame has one owner at every moment of the run. */
  ghost predicate OwnedThroughout(s: Sys, ts: seq<Act>)
    requires Owned(s)
    decreases |ts|
  {
    ts == [] || (CanAct(s, ts[0]) && Owned(After(s, ts[0])) && OwnedThroughout(After(s, ts[0]), ts[1..]))
  }

  /** No load of the run leaves a page behind. */
  ghost predicate CleanThroughout(s: Sys, ts: seq<Act>)
    requires Owned(s)
    decreases |ts|
  {
    ts == [] || (CanAct(s, ts[0]) && !LeavesPage(s, ts[0])
                 && (ActOwnedExactly(s, ts[0]); CleanThroughout(After(s, ts[0]), ts[1..])))
  }

  lemma {:induction false} RunOwnedExactly(s: Sys, ts: seq<Act>)
    requires Owned(s)
    ensures OwnedThroughout(s, ts) <==> CleanThroughout(s, ts)
    decreases |ts|
  {
    if ts != [] && CanAct(s, ts[0]) {
      ActOwnedExactly(s, ts[0]);
      if Owned(After(s, ts[0])) { RunOwnedExactly(After(s, ts[0]), ts[1..]); }
    }
  }

  ghost function RunActs(s: Sys, ts: seq<Act>): (s': Sys)
    requires Owned(s) && CleanThroughout(s, ts)
    ensures Owned(s')
    decreases |ts|
  {
    if ts == [] then s else ActOwnedExactly(s, ts[0]); RunActs(After(s, ts[0]), ts[1..])
  }

  /** p neither stores nor loads in the course of the run. */
  ghost predicate Idle(s: Sys, ts: seq<Act>, p: Pid)
    requires Owned(s) && CleanThroughout(s, ts)
    decreases |ts|
  {
    ts == [] || (!(p == s.cur && (ts[0].Load? || ts[0].t.Store?))
                 && (ActOwnedExactly(s, ts[0]); Idle(After(s, ts[0]), ts[1..], p)))
  }

  /** In a run whose loads leave nothing behind, a process that neither stores nor loads finds every
      page of its own as it was. */
  lemma {:induction false} RunWithLoadsIsolates(s: Sys, ts: seq<Act>, p: Pid)
    requires Owned(s) && CleanThroughout(s, ts) && p in s.procs && Idle(s, ts, p)
    ensures p in RunActs(s, ts).procs && SeesSame(s, RunActs(s, ts), p, p)
    decreases |ts|
  {
    if ts != [] {
      var a := ts[0];
      ActOwnedExactly(s, a);
      match a
      case Plain(t) =>
        StepOwned(s, t);
        StepIsolates(s, t, p);
        RunWithLoadsIsolates(After(s, a), ts[1..], p);
      case Load(li, args, pmem) =>
        LoadIsolates(s, li, args, pmem, p);
        RunWithLoadsIsolates(After(s, a), ts[1..], p);
    }
  }
}
