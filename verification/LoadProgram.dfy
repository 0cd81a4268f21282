/** load_program.c as it runs: sizes counted, arguments packed, pages mapped one by one, and the
    argument block built with moving pointers. */
module LoadProgram {
  import opened Hardware
  import opened Frames
  import opened Memory
  import opened MemoryCode
  import opened KernelBreak
  import opened ArgStack
  import opened ProgramLayout
  import opened UserMemory

  // ---------------------------------------------------------------- the arguments

  /** The first loop over args (load_program.c:80-85). */
  method CountArguments(args: seq<CString>) returns (size: nat, argcount: nat)
    ensures size == |Packed(args)| && argcount == |args|
  {
    size, argcount := 0, 0;
    while argcount < |args|
      invariant argcount <= |args| && size == |Packed(args[..argcount])|
    {
      PackedSnoc(args, argcount);
      size := size + |args[argcount]| + 1;
      argcount := argcount + 1;
    }
    assert args[..|args|] == args;
  }

  /** The arguments saved in a buffer of the kernel (load_program.c:143-158). */
  method SaveArguments(args: seq<CString>, size: nat) returns (argbuf: array<Byte>)
    requires size == |Packed(args)|
    ensures fresh(argbuf) && argbuf[..] == Packed(args)
  {
    argbuf := new Byte[size];
    var i, cp2 := 0, 0;
    while i < |args|
      invariant i <= |args| && cp2 == |Packed(args[..i])| && argbuf.Length == |Packed(args)|
      invariant cp2 <= argbuf.Length && argbuf[..cp2] == Packed(args[..i])
    {
      PackedSnoc(args, i);
      PackedSplits(args, i + 1);
      PutString(argbuf, cp2, args[i]);
      cp2 := cp2 + |args[i]| + 1;
      i := i + 1;
    }
    assert args[..|args|] == args;
  }

  /** strcpy of an argument. */
  method PutString(dst: array<Byte>, at: nat, s: CString)
    requires at + |s| + 1 <= dst.Length
    modifies dst
    ensures dst[..at + |s| + 1] == old(dst[..at]) + s + [0]
  {
    var k := 0;
    while k < |s|
      invariant k <= |s| && dst[..at + k] == old(dst[..at]) + s[..k]
    {
      dst[at + k] := s[k];
      k := k + 1;
    }
    dst[at + k] := 0;
  }

  // ---------------------------------------------------------------- the stack

  /** The top of memory with argc and i pointers stored and the first i strings copied. */
  ghost function StackAt(low: seq<Byte>, args: seq<CString>, i: nat, j: nat): seq<Byte>
    requires i <= |args| && j <= |args| && Block(args) >= 0
  {
    low + Head(args, i) + Zeros(Strings(args) - Block(args) - (i + 1) * WORD) + Packed(args[..j])
        + Zeros(VMEM_1_LIMIT - Address(args, j))
  }

  lemma ZerosSplit(n: nat, k: nat)
    requires k <= n
    ensures Zeros(n)[k..] == Zeros(n - k) && Zeros(n) == Zeros(k) + Zeros(n - k)
  {}

  /** Storing argc over zeros. */
  lemma StackStarts(low: seq<Byte>, args: seq<CString>)
    requires Block(args) >= 0 && |low| == Block(args) && |args| < 0x1_0000_0000
    ensures Overwrite(low + Zeros(VMEM_1_LIMIT - Block(args)), Block(args), Bytes(|args|)) == StackAt(low, args, 0, 0)
  {
    var n := VMEM_1_LIMIT - Block(args);
    ZerosSplit(n, WORD);
    ZerosSplit(n - WORD, Strings(args) - Block(args) - WORD);
    OverwriteMiddle(low, Zeros(n), [], Bytes(|args|));
    assert low + Zeros(n) + [] == low + Zeros(n);
    assert args[..0] == [];
    assert Packed(args[..0]) == [];
    assert Address(args, 0) == Strings(args);
  }

  /** Storing pointer i at its place. */
  lemma StackPointed(low: seq<Byte>, args: seq<CString>, i: nat)
    requires i < |args| && Block(args) >= 0 && |low| == Block(args)
    ensures Slot(args, i) + WORD <= |StackAt(low, args, i, i)|
    ensures Overwrite(StackAt(low, args, i, i), Slot(args, i), Bytes(Address(args, i))) == StackAt(low, args, i + 1, i)
  {
    var gap := Strings(args) - Block(args) - (i + 1) * WORD;
    var top := Packed(args[..i]) + Zeros(VMEM_1_LIMIT - Address(args, i));
    ZerosSplit(gap, WORD);
    assert StackAt(low, args, i, i) == (low + Head(args, i)) + Zeros(gap) + top;
    OverwriteMiddle(low + Head(args, i), Zeros(gap), top, Bytes(Address(args, i)));
    assert StackAt(low, args, i + 1, i) == (low + Head(args, i)) + Bytes(Address(args, i)) + Zeros(gap - WORD) + top;
  }

  /** Copying string i to its place. */
  lemma StackFilled(low: seq<Byte>, args: seq<CString>, i: nat)
    requires i < |args| && Block(args) >= 0 && |low| == Block(args)
    ensures Address(args, i) + |args[i]| + 1 == Address(args, i + 1) <= VMEM_1_LIMIT == |StackAt(low, args, i + 1, i)|
    ensures Overwrite(StackAt(low, args, i + 1, i), Address(args, i), args[i] + [0]) == StackAt(low, args, i + 1, i + 1)
  {
    PackedSnoc(args, i);
    assert Address(args, i + 1) == Address(args, i) + |args[i]| + 1;
    var rest := VMEM_1_LIMIT - Address(args, i);
    var below := low + Head(args, i + 1) + Zeros(Strings(args) - Block(args) - (i + 2) * WORD) + Packed(args[..i]);
    ZerosSplit(rest, |args[i]| + 1);
    assert StackAt(low, args, i + 1, i) == below + Zeros(rest) + [];
    OverwriteMiddle(below, Zeros(rest), [], args[i] + [0]);
    assert StackAt(low, args, i + 1, i + 1) == below + (args[i] + [0]) + Zeros(rest - |args[i]| - 1) + [];
  }

  lemma StackIsImage(low: seq<Byte>, args: seq<CString>)
    requires Block(args) >= 0 && |low| == Block(args)
    ensures StackAt(low, args, |args|, |args|) == low + Image(args)
  {
    assert args[..|args|] == args;
    assert Zeros(VMEM_1_LIMIT - Address(args, |args|)) == [];
  }

  /** Null words over zeros change nothing. */
  lemma StackEnds(low: seq<Byte>, args: seq<CString>)
    requires Block(args) >= 0 && |low| == Block(args)
    ensures 0 <= Slot(args, |args|) && Slot(args, |args|) + 2 * WORD <= |low + Image(args)|
    ensures Overwrite(low + Image(args), Slot(args, |args|), Bytes(0)) == low + Image(args)
    ensures Overwrite(low + Image(args), Slot(args, |args|) + WORD, Bytes(0)) == low + Image(args)
  {
    var gap := Strings(args) - Block(args) - (|args| + 1) * WORD;
    var below := low + Head(args, |args|);
    assert low + Image(args) == below + Zeros(gap) + Packed(args);
    NullOverZeros(below, gap, Packed(args), 0);
    NullOverZeros(below, gap, Packed(args), WORD);
  }

  lemma NullOverZeros(a: seq<Byte>, n: nat, c: seq<Byte>, k: nat)
    requires k + WORD <= n
    ensures Overwrite(a + Zeros(n) + c, |a| + k, Bytes(0)) == a + Zeros(n) + c
  {
    assert Bytes(0) == Zeros(WORD);
  }

  /** One turn of the loop: a pointer stored, a string copied (load_program.c:314-317). */
  method PlaceArgument(m: Machine, ghost first: nat, cpp: nat, cp: nat, argbuf: array<Byte>, cp2: nat,
                       ghost low: seq<Byte>, ghost args: seq<CString>, ghost i: nat)
    returns (len: nat)
    requires Writable(m, first) && first * PAGESIZE <= Block(args) == |low| && argbuf[..] == Packed(args)
    requires i < |args| && NoNul(args[i])
    requires Seen(m, first) == StackAt(low, args, i, i) && cpp == Slot(args, i) && cp == Address(args, i)
             && cp2 == |Packed(args[..i])|
    modifies m`tlb, m.pmem
    ensures Writable(m, first) && len == |args[i]| && Seen(m, first) == StackAt(low, args, i + 1, i + 1)
  {
    StackPointed(low, args, i);
    StackFilled(low, args, i);
    StoreWord(m, first, cpp, cp);
    StringSaved(argbuf[..], args, i);
    len := StrCpy(m, first, cp, argbuf, cp2, args[i]);
  }

  lemma StringSaved(b: seq<Byte>, args: seq<CString>, i: nat)
    requires b == Packed(args) && i < |args| && NoNul(args[i])
    ensures |Packed(args[..i])| <= |b| && StringIn(b[|Packed(args[..i])|..]) == Some(args[i])
  {
    PackedSplits(args, i);
    assert b[|Packed(args[..i])|..] == Packed(args[i..]);
    assert args[i..][0] == args[i];
    StringFound(args[i], Packed(args[i..][1..]));
  }

  /** The argument list built on the new stack (load_program.c:309-321), whose pages start at the
      page `first`. */
  method BuildArguments(m: Machine, ghost first: nat, start: nat, strings: nat, argbuf: array<Byte>, argcount: nat,
                        ghost args: seq<CString>)
    requires Writable(m, first) && argbuf[..] == Packed(args) && argcount == |args|
    requires first * PAGESIZE <= start == Block(args) && strings == Strings(args) && forall a <- args :: NoNul(a)
    modifies m`tlb, m.pmem
    ensures Writable(m, first) && Seen(m, first) == old(Seen(m, first))[..start] + Image(args)
  {
    ghost var low := Seen(m, first)[..start];
    Clear(m, first, start);
    StackStarts(low, args);
    StoreWord(m, first, start, argcount);
    var cpp := PlaceArguments(m, first, start + WORD, strings, argbuf, argcount, low, args);
    StackIsImage(low, args);
    StackEnds(low, args);
    StoreWord(m, first, cpp, 0);
    StoreWord(m, first, cpp + WORD, 0);
  }

  /** The loop over the arguments (load_program.c:312-318). */
  method PlaceArguments(m: Machine, ghost first: nat, start: nat, strings: nat, argbuf: array<Byte>, argcount: nat,
                        ghost low: seq<Byte>, ghost args: seq<CString>)
    returns (cpp: nat)
    requires Writable(m, first) && first * PAGESIZE <= Block(args) == |low| && argbuf[..] == Packed(args)
             && argcount == |args|
    requires start == Slot(args, 0) && strings == Strings(args) && Seen(m, first) == StackAt(low, args, 0, 0)
             && forall a <- args :: NoNul(a)
    modifies m`tlb, m.pmem
    ensures Writable(m, first) && Seen(m, first) == StackAt(low, args, |args|, |args|) && cpp == Slot(args, |args|)
  {
    var cp, cp2 := strings, 0;
    cpp := start;
    NoneSaved(args);
    var i := 0;
    while i < argcount
      invariant i <= argcount && argbuf[..] == Packed(args) && Writable(m, first)
                && Seen(m, first) == StackAt(low, args, i, i)
      invariant cpp == Slot(args, i) && cp == Address(args, i) && cp2 == |Packed(args[..i])|
    {
      assert args[i] in args;
      var len := PlaceArgument(m, first, cpp, cp, argbuf, cp2, low, args, i);
      OneSaved(args, i);
      cpp, cp, cp2 := cpp + WORD, cp + len + 1, cp2 + len + 1;
      i := i + 1;
    }
  }

  lemma NoneSaved(args: seq<CString>)
    ensures |Packed(args[..0])| == 0 && Address(args, 0) == Strings(args)
  {
    assert args[..0] == [];
  }

  lemma OneSaved(args: seq<CString>, i: nat)
    requires i < |args|
    ensures |Packed(args[..i + 1])| == |Packed(args[..i])| + |args[i]| + 1
    ensures Address(args, i + 1) == Address(args, i) + |args[i]| + 1 && Slot(args, i + 1) == Slot(args, i) + WORD
  {
    PackedSnoc(args, i);
  }

  // ---------------------------------------------------------------- the pages

  ghost function Region1(): set<nat> {
    set j: nat | j < 2 * MAX_PT_LEN && Between(MAX_PT_LEN, j, 2 * MAX_PT_LEN)
  }

  ghost function TableOf(m: Machine): Heap
    reads m, m.ptbr1, m.frameBitMap
  {
    Heap(m.ptbr1[..], m.frameBitMap[..])
  }

  /** While pages are mapped the TLB may hold anything for region 1. */
  ghost predicate Mapping(m: Machine)
    reads m, m.pmem, m.frameBitMap, m.region0, m.ptbr1
  {
    m.Valid() && m.StaleOnly({TEMP} + Region1())
  }

  /** free_userspace (pcb.c:380-408); the entries it clears are copies. */
  method FreeUserspace(m: Machine)
    requires m.Valid()
    modifies m.frameBitMap
    ensures m.frameBitMap[..] == FreedUserspace(m.ptbr1[..], old(m.frameBitMap[..]), MAX_PT_LEN)
  {
    var i := 0;
    while i < MAX_PT_LEN
      invariant 0 <= i <= MAX_PT_LEN && m.frameBitMap[..] == FreedUserspace(m.ptbr1[..], old(m.frameBitMap[..]), i)
    {
      var entry := m.ptbr1[i];
      if entry.valid {
        FreeFrame(m.frameBitMap, entry.pfn);
      }
      i := i + 1;
    }
  }

  /** One of the mapping loops (load_program.c:186-195, 204-213, 225-234). */
  method MapPages(m: Machine, from: nat, upTo: nat) returns (ok: bool)
    requires Mapping(m) && from <= upTo <= MAX_PT_LEN
    modifies m.ptbr1, m.frameBitMap
    ensures Mapping(m) && (TableOf(m), ok) == Grow(old(TableOf(m)), from, upTo)
  {
    var i := from;
    ok := true;
    while i < upTo && ok
      invariant from <= i <= upTo && Mapping(m) && StillToMap(old(TableOf(m)), from, upTo, TableOf(m), i, ok)
      decreases upTo - i, ok
    {
      ok := MapOn(m, i, upTo, old(TableOf(m)), from);
      if ok {
        i := i + 1;
      }
    }
  }

  /** What is left of the loop: from page i on, or nothing once the frames have run out. */
  ghost predicate StillToMap(h0: Heap, from: nat, upTo: nat, h: Heap, i: nat, ok: bool) {
    && |h0.r0| == |h.r0| == MAX_PT_LEN && NUM_VPN <= |h0.used| && NUM_VPN <= |h.used|
    && from <= upTo <= MAX_PT_LEN && i <= upTo
    && Grow(h0, from, upTo) == if ok then Grow(h, i, upTo) else (h, false)
  }

  method MapOn(m: Machine, i: nat, upTo: nat, ghost h0: Heap, ghost from: nat) returns (ok: bool)
    requires Mapping(m) && i < upTo && StillToMap(h0, from, upTo, TableOf(m), i, true)
    modifies m.ptbr1, m.frameBitMap
    ensures Mapping(m) && StillToMap(h0, from, upTo, TableOf(m), if ok then i + 1 else i, ok)
  {
    GrowStep(TableOf(m), i, upTo);
    ok := MapOne(m, i);
  }

  method MapOne(m: Machine, i: nat) returns (ok: bool)
    requires Mapping(m) && i < MAX_PT_LEN
    modifies m.ptbr1, m.frameBitMap
    ensures Mapping(m)
    ensures var (used, pfn) := Allocate(old(m.frameBitMap[..]));
            && (ok <==> pfn != ERROR)
            && TableOf(m) == if ok then Heap(old(m.ptbr1[..])[i := Pte(true, READ_WRITE, pfn)], used)
                else old(TableOf(m))
  {
    var nf := AllocateFrame(m.frameBitMap);
    if nf == ERROR {
      return false;
    }
    m.ptbr1[i] := Pte(true, READ_WRITE, nf);
    assert m.ptbr1[..] == old(m.ptbr1[..])[i := Pte(true, READ_WRITE, nf)];
    assert Between(MAX_PT_LEN, MAX_PT_LEN + i, 2 * MAX_PT_LEN);
    return true;
  }

  /** TLB_FLUSH_1 (load_program.c:239). */
  method FlushRegion1(m: Machine)
    requires Mapping(m)
    modifies m`tlb
    ensures Ready(m)
  {
    m.tlb := map vpn | vpn in m.tlb && vpn < MAX_PT_LEN :: m.tlb[vpn];
  }

  /** The text made executable, page by page, each flushed from the TLB (load_program.c:283-287). */
  method ProtectText(m: Machine, from: nat, upTo: nat)
    requires Ready(m) && from <= upTo <= MAX_PT_LEN
    modifies m`tlb, m.ptbr1
    ensures Ready(m) && m.ptbr1[..] == Protected(old(m.ptbr1[..]), from, upTo)
  {
    var i := from;
    while i < upTo
      invariant from <= i <= upTo && Ready(m)
                && Protected(m.ptbr1[..], i, upTo) == Protected(old(m.ptbr1[..]), from, upTo)
    {
      ProtectOne(m, i);
      i := i + 1;
    }
  }

  method ProtectOne(m: Machine, i: nat)
    requires Ready(m) && i < MAX_PT_LEN
    modifies m`tlb, m.ptbr1
    ensures Ready(m) && m.ptbr1[..] == old(m.ptbr1[..])[i := old(m.ptbr1[i]).(prot := READ_EXEC)]
  {
    assert m.ptbr1[i] in m.ptbr1[..];
    m.ptbr1[i] := m.ptbr1[i].(prot := READ_EXEC);
    assert m.ptbr1[..] == old(m.ptbr1[..])[i := old(m.ptbr1[i]).(prot := READ_EXEC)];
    m.FlushPage(MAX_PT_LEN + i, {TEMP});
  }

  /** The three mapping loops. */
  method MapSegments(m: Machine, li: LoadInfo, stack: nat) returns (ok: bool)
    requires Mapping(m) && li.textPage + li.textPages <= li.dataPage && DataEnd(li) <= stack <= MAX_PT_LEN
    modifies m.ptbr1, m.frameBitMap
    ensures Mapping(m) && (TableOf(m), ok) == LoadSegments(old(TableOf(m)), li, stack)
  {
    ok := MapNext(m, true, li.textPage, li.textPage + li.textPages);
    ok := MapNext(m, ok, li.dataPage, DataEnd(li));
    ok := MapNext(m, ok, stack, MAX_PT_LEN);
  }

  method MapNext(m: Machine, before: bool, from: nat, upTo: nat) returns (ok: bool)
    requires Mapping(m) && from <= upTo <= MAX_PT_LEN
    modifies m.ptbr1, m.frameBitMap
    ensures Mapping(m) && (TableOf(m), ok) == Then((old(TableOf(m)), before), from, upTo)
  {
    ok := false;
    if before {
      ok := MapPages(m, from, upTo);
    }
  }

  /** The new address space in place of the old one (load_program.c:171-239, 283-287).  When frames
      run out half way nothing is flushed. */
  method MapProgram(m: Machine, li: LoadInfo, stack: nat) returns (ok: bool)
    requires Ready(m) && li.textPage + li.textPages <= li.dataPage && DataEnd(li) <= stack <= MAX_PT_LEN
    modifies m`tlb, m.ptbr1, m.frameBitMap
    ensures m.Valid() && (ok ==> Ready(m))
    ensures (TableOf(m), ok) == LoadPages(Freed(old(TableOf(m))), li, stack)
  {
    FreeUserspace(m);
    ok := MapSegments(m, li, stack);
    if ok {
      FlushRegion1(m);
      ProtectText(m, li.textPage, li.textPage + li.textPages);
    }
  }

  // ---------------------------------------------------------------- the whole

  /** The program is in place: its pages laid out over what h was, and what is seen from the stack's
      first page up reads back, at the block, as exactly the arguments. */
  ghost predicate InPlace(m: Machine, h: Heap, li: LoadInfo, args: seq<CString>)
    reads m, m.pmem, m.frameBitMap, m.region0, m.ptbr1
  {
    StackStart(args) >= 0 && Laid(h, TableOf(m), li, StackStart(args))
        && Shown(Seen(m, MAX_PT_LEN + StackStart(args)), args)
  }

  ghost predicate Shown(seen: seq<Byte>, args: seq<CString>) {
    0 <= Block(args) <= |seen| && seen[Block(args)..] == Image(args) && ReadArgs(seen, Block(args)) == Some(args)
  }

  ghost predicate FramesSuffice(h: Heap, li: LoadInfo, args: seq<CString>)
    requires NUM_VPN <= |h.used|
  {
    li.textPages + li.dataPages + (MAX_PT_LEN - PageOf(StackPointer(args))) <= FreeCount(h.used, 0)
  }

  /** LoadProgram, the file aside.  It succeeds exactly when the program fits and the frames suffice;
      then the pages are the program's, and what main reads at the block -- through its own page
      table, INITIAL_STACK_FRAME_SIZE above the stack pointer -- is exactly the arguments. */
  method LoadProgram(m: Machine, args: seq<CString>, li: LoadInfo) returns (rc: int, sp: int)
    requires Ready(m) && li.textPage + li.textPages <= li.dataPage && forall a <- args :: NoNul(a)
    modifies m`tlb, m.ptbr1, m.frameBitMap, m.pmem
    ensures m.Valid() && (rc == SUCCESS || !LeavesAPage(li, args) ==> Ready(m))
    ensures rc == if LeavesAPage(li, args) && FramesSuffice(Freed(old(TableOf(m))), li, args) then SUCCESS else ERROR
    ensures if LeavesAPage(li, args) then sp == StackPointer(args)
            else TableOf(m) == old(TableOf(m)) && m.pmem[..] == old(m.pmem[..])
    ensures rc == SUCCESS ==> InPlace(m, Freed(old(TableOf(m))), li, args)
  {
    sp := 0;
    FitsExactly(li, args);
    var size, argcount, cp, cpp, cp2, stackNpg := Measure(args);
    if stackNpg + li.dataPage + li.dataPages >= MAX_PT_LEN {
      return ERROR, sp;
    }
    sp := cp2;
    StackFits(li, args);
    var argbuf := SaveArguments(args, size);
    var ok := PutInPlace(m, argbuf, argcount, cp, cpp, MAX_PT_LEN - stackNpg, li, args);
    rc := if ok then SUCCESS else ERROR;
  }

  /** Past the checks (load_program.c:160-321). */
  method PutInPlace(m: Machine, argbuf: array<Byte>, argcount: nat, cp: nat, cpp: nat, stack: nat, li: LoadInfo,
                    ghost args: seq<CString>)
    returns (ok: bool)
    requires Ready(m) && argbuf[..] == Packed(args) && argcount == |args|
    requires li.textPage + li.textPages <= li.dataPage && !TooBig(li, args) && forall a <- args :: NoNul(a)
    requires cp == Strings(args) && cpp == Block(args) && stack == StackStart(args)
    modifies m`tlb, m.ptbr1, m.frameBitMap, m.pmem
    ensures m.Valid() && (ok ==> Ready(m)) && (ok <==> FramesSuffice(Freed(old(TableOf(m))), li, args))
    ensures ok ==> InPlace(m, Freed(old(TableOf(m))), li, args)
  {
    StackFits(li, args);
    StackStartsAtItsPage(args);
    MapsExactly(Freed(TableOf(m)), li, args);
    ghost var h := Freed(TableOf(m));
    ok := MapProgram(m, li, stack);
    if ok {
      StackIsWritable(m, h, li, StackStart(args));
      ShowArguments(m, argbuf, argcount, cp, cpp, args);
    }
  }

  method ShowArguments(m: Machine, argbuf: array<Byte>, argcount: nat, cp: nat, cpp: nat, ghost args: seq<CString>)
    requires StackStart(args) >= 0 && Writable(m, MAX_PT_LEN + StackStart(args))
    requires argbuf[..] == Packed(args) && argcount == |args| && forall a <- args :: NoNul(a)
    requires cp == Strings(args) && cpp == Block(args) && StackPointer(args) >= 0
    modifies m`tlb, m.pmem
    ensures Ready(m) && TableOf(m) == old(TableOf(m)) && Shown(Seen(m, MAX_PT_LEN + StackStart(args)), args)
  {
    ghost var first := MAX_PT_LEN + StackStart(args);
    BlockIsOnTheStack(args, StackStart(args));
    BuildArguments(m, first, cpp, cp, argbuf, argcount, args);
    BuiltHolds(Seen(m, first), args);
  }

  /** The stack of a program laid out can be written, and no two of its pages are one. */
  lemma StackIsWritable(m: Machine, h: Heap, li: LoadInfo, stack: nat)
    requires Ready(m) && stack <= MAX_PT_LEN && Laid(h, TableOf(m), li, stack)
             && li.textPage + li.textPages <= li.dataPage && DataEnd(li) <= stack
    ensures Writable(m, MAX_PT_LEN + stack)
  {
    forall p | MAX_PT_LEN + stack <= p < 2 * MAX_PT_LEN
      ensures p - MAX_PT_LEN in ProgramPages(li, stack) && p - MAX_PT_LEN !in TextPages(li)
              && m.Lookup(p) == TableOf(m).r0[p - MAX_PT_LEN]
    {
      var i := p - MAX_PT_LEN;
      assert Between(stack, i, MAX_PT_LEN) && !Between(li.textPage, i, li.textPage + li.textPages);
    }
    forall p, q | MAX_PT_LEN + stack <= p < q < 2 * MAX_PT_LEN
      ensures m.Lookup(p).pfn != m.Lookup(q).pfn
    {
      assert p - MAX_PT_LEN in ProgramPages(li, stack) && q - MAX_PT_LEN in ProgramPages(li, stack);
    }
    forall p | MAX_PT_LEN + stack <= p < 2 * MAX_PT_LEN
      ensures m.Lookup(p).valid && m.Lookup(p).prot.write && m.Lookup(p).pfn < m.pmem.Length
    {
      assert p - MAX_PT_LEN in ProgramPages(li, stack);
      m.LookupExists(p);
    }
  }

  lemma BlockIsOnTheStack(args: seq<CString>, stack: nat)
    requires stack == StackStart(args) && StackPointer(args) >= 0
    ensures (MAX_PT_LEN + stack) * PAGESIZE <= StackPointer(args) <= Block(args)
  {
    StackStartsAtItsPage(args);
    PageOfIs(StackPointer(args));
    FromThePage(StackPointer(args), MAX_PT_LEN + stack);
  }

  /** The sizes and addresses (load_program.c:80-112). */
  method Measure(args: seq<CString>) returns (size: nat, argcount: nat, cp: int, cpp: int, cp2: int, stackNpg: int)
    ensures size == |Packed(args)| && argcount == |args| && cp == Strings(args) && cpp == Block(args)
    ensures cp2 == StackPointer(args) && stackNpg == StackPages(args)
  {
    size, argcount := CountArguments(args);
    cp := VMEM_1_LIMIT - size;
    cpp := RoundDown(cp - (argcount + 3 + POST_ARGV_NULL_SPACE) * WORD, 8);
    cp2 := cpp - INITIAL_STACK_FRAME_SIZE;
    stackNpg := (VMEM_1_LIMIT - RoundDown(cp2, PAGESIZE)) / PAGESIZE;
  }

  lemma MapsExactly(h: Heap, li: LoadInfo, args: seq<CString>)
    requires |h.r0| == MAX_PT_LEN && NUM_VPN <= |h.used| && li.textPage + li.textPages <= li.dataPage
             && !TooBig(li, args)
    ensures 0 <= StackStart(args) && DataEnd(li) <= StackStart(args) <= MAX_PT_LEN
    ensures LoadPages(h, li, StackStart(args)).1 <==>
            li.textPages + li.dataPages + StackPages(args) <= FreeCount(h.used, 0)
    ensures LoadPages(h, li, StackStart(args)).1 ==> Laid(h, LoadPages(h, li, StackStart(args)).0, li, StackStart(args))
  {
    StackFits(li, args);
    SegmentsMapped(h, li, StackStart(args));
    if LoadPages(h, li, StackStart(args)).1 { ProgramIsLaid(h, li, args); }
  }

  lemma BuiltHolds(seen: seq<Byte>, args: seq<CString>)
    requires |seen| == VMEM_1_LIMIT && 0 <= Block(args) <= |seen| && (forall a <- args :: NoNul(a))
    requires seen[Block(args)..] == Image(args)
    ensures ReadArgs(seen, Block(args)) == Some(args)
  {
    ArgumentsReadBack(seen, args);
  }
}
