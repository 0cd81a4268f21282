/** The top of region 1 as bytes, seen through the page table, and stores to it through the TLB. */
module UserMemory {
  import opened Hardware
  import opened Memory
  import opened MemoryCode
  import opened ArgStack
  import opened ProgramLayout

  /** The byte at an address, where it lies on one of the pages from `first` up; zero elsewhere. */
  ghost function ByteAt(m: Machine, first: nat, a: nat): Byte
    reads m, m.pmem, m.region0, m.ptbr1
  {
    var p := a / PAGESIZE;
    if first <= p < 2 * MAX_PT_LEN && m.region0.Length == MAX_PT_LEN
        == m.ptbr1.Length && m.Lookup(p).pfn < m.pmem.Length
    then m.pmem[m.Lookup(p).pfn][a % PAGESIZE]
    else 0
  }

  ghost function Seen(m: Machine, first: nat): (s: seq<Byte>)
    reads m, m.pmem, m.region0, m.ptbr1
    ensures |s| == VMEM_1_LIMIT
  {
    seq(VMEM_1_LIMIT, a requires 0 <= a reads m, m.pmem, m.region0, m.ptbr1 => ByteAt(m, first, a))
  }

  /** The pages from `first` up are there to be written, each on a frame of its own. */
  ghost predicate Writable(m: Machine, first: nat)
    reads m, m.pmem, m.frameBitMap, m.region0, m.ptbr1
  {
    && Ready(m) && MAX_PT_LEN <= first <= 2 * MAX_PT_LEN
    && (forall p :: first <= p < 2 * MAX_PT_LEN ==>
        m.Lookup(p).valid && m.Lookup(p).prot.write && m.Lookup(p).pfn < m.pmem.Length)
    && (forall p, q :: first <= p < q < 2 * MAX_PT_LEN ==> m.Lookup(p).pfn != m.Lookup(q).pfn)
  }

  /** Two addresses on one page differ in their offsets. */
  lemma SamePage(a: nat, b: nat)
    requires a / PAGESIZE == b / PAGESIZE && a % PAGESIZE == b % PAGESIZE
    ensures a == b
  {
    assert a == a / PAGESIZE * PAGESIZE + a % PAGESIZE;
    assert b == b / PAGESIZE * PAGESIZE + b % PAGESIZE;
  }

  /** One byte of one frame has changed, the tables have not. */
  twostate predicate ByteStored(m: Machine, pfn: nat, off: nat, b: Byte)
    reads m, m.pmem, m.region0, m.ptbr1
  {
    && m.ptbr1 == old(m.ptbr1) && m.region0[..] == old(m.region0[..]) && m.ptbr1[..] == old(m.ptbr1[..])
    && pfn < m.pmem.Length && off < PAGESIZE
    && forall f :: 0 <= f < m.pmem.Length ==>
        m.pmem[f] == if f == pfn then old(m.pmem[pfn])[off := b] else old(m.pmem[f])
  }

  twostate lemma LookupStays(m: Machine, new p: nat)
    requires m.region0.Length == MAX_PT_LEN == m.ptbr1.Length && p < 2 * MAX_PT_LEN
    requires m.ptbr1 == old(m.ptbr1) && m.region0[..] == old(m.region0[..]) && m.ptbr1[..] == old(m.ptbr1[..])
    ensures old(m.ptbr1.Length) == MAX_PT_LEN && m.Lookup(p) == old(m.Lookup(p))
  {
    if p < MAX_PT_LEN {
      assert m.region0[..][p] == m.region0[p] == old(m.region0[p]);
    } else {
      assert m.ptbr1[..][p - MAX_PT_LEN] == m.ptbr1[p - MAX_PT_LEN] == old(m.ptbr1[p - MAX_PT_LEN]);
    }
  }

  /** What is seen at an address after a store. */
  twostate lemma ByteSeen(m: Machine, new first: nat, new a: nat, new b: Byte, new c: nat)
    requires old(Writable(m, first)) && first <= a / PAGESIZE && a < VMEM_1_LIMIT && c < VMEM_1_LIMIT
    requires a / PAGESIZE < 2 * MAX_PT_LEN && ByteStored(m, old(m.Lookup(a / PAGESIZE)).pfn, a % PAGESIZE, b)
    ensures ByteAt(m, first, c) == if c == a then b else old(ByteAt(m, first, c))
  {
    LastPage(c);
    if c / PAGESIZE == a / PAGESIZE { SeenHere(m, first, a, b, c); } else { SeenElsewhere(m, first, a, b, c); }
  }

  twostate lemma SeenHere(m: Machine, new first: nat, new a: nat, new b: Byte, new c: nat)
    requires old(Writable(m, first)) && first <= a / PAGESIZE == c / PAGESIZE < 2 * MAX_PT_LEN
    requires ByteStored(m, old(m.Lookup(a / PAGESIZE)).pfn, a % PAGESIZE, b)
    ensures ByteAt(m, first, c) == if c == a then b else old(ByteAt(m, first, c))
  {
    LookupStays(m, a / PAGESIZE);
    SameOffset(a, c);
  }

  twostate lemma SeenElsewhere(m: Machine, new first: nat, new a: nat, new b: Byte, new c: nat)
    requires old(Writable(m, first)) && first <= a / PAGESIZE < 2 * MAX_PT_LEN && c / PAGESIZE < 2 * MAX_PT_LEN
    requires ByteStored(m, old(m.Lookup(a / PAGESIZE)).pfn, a % PAGESIZE, b) && a / PAGESIZE != c / PAGESIZE
    ensures ByteAt(m, first, c) == old(ByteAt(m, first, c))
  {
    LookupStays(m, c / PAGESIZE);
    if first <= c / PAGESIZE { OldFramesApart(m, first, c / PAGESIZE, a / PAGESIZE); }
  }

  /** On one page the offset tells two addresses apart. */
  lemma SameOffset(a: nat, c: nat)
    requires a / PAGESIZE == c / PAGESIZE
    ensures a == c <==> a % PAGESIZE == c % PAGESIZE
  {
    if a % PAGESIZE == c % PAGESIZE { SamePage(a, c); }
  }
  twostate lemma OldFramesApart(m: Machine, new first: nat, new p: nat, new q: nat)
    requires old(Writable(m, first)) && first <= p < 2 * MAX_PT_LEN && first <= q < 2 * MAX_PT_LEN && p != q
    ensures old(m.Lookup(p)).pfn != old(m.Lookup(q)).pfn
  {
    if p > q { assert old(m.Lookup(q)).pfn != old(m.Lookup(p)).pfn; }
  }

  twostate lemma StillWritable(m: Machine, new first: nat, new pfn: nat, new off: nat, new b: Byte)
    requires old(Writable(m, first)) && ByteStored(m, pfn, off, b) && Ready(m)
    ensures Writable(m, first)
  {
    forall p | first <= p < 2 * MAX_PT_LEN
      ensures m.Lookup(p) == old(m.Lookup(p))
    {
      LookupStays(m, p);
    }
  }

  /** A byte stored through the TLB is the only one seen to change. */
  method StoreByte(m: Machine, ghost first: nat, a: nat, b: Byte)
    requires Writable(m, first) && first <= a / PAGESIZE && a < VMEM_1_LIMIT
    modifies m`tlb, m.pmem
    ensures Writable(m, first) && Seen(m, first) == old(Seen(m, first))[a := b]
  {
    var off := a % PAGESIZE;
    LastPage(a);
    StoreAt(m, a / PAGESIZE, off, b);
    StillWritable(m, first, old(m.Lookup(a / PAGESIZE)).pfn, off, b);
    forall c | 0 <= c < VMEM_1_LIMIT
      ensures ByteAt(m, first, c) == if c == a then b else old(ByteAt(m, first, c))
    {
      ByteSeen(m, first, a, b, c);
    }
  }

  method StoreAt(m: Machine, page: nat, off: nat, b: Byte)
    requires Ready(m) && page < 2 * MAX_PT_LEN && page != TEMP && m.Lookup(page).valid && off < PAGESIZE
    modifies m`tlb, m.pmem
    ensures Ready(m) && ByteStored(m, old(m.Lookup(page)).pfn, off, b)
  {
    m.LookupExists(page);
    var pte := m.Translate(page, {TEMP});
    m.pmem[pte.pfn] := m.pmem[pte.pfn][off := b];
  }

  /** Addresses from a page's start on lie on that page or above. */
  lemma OnOrAbove(first: nat, a: nat)
    requires first * PAGESIZE <= a
    ensures first <= a / PAGESIZE
  {
    DivMonotone(first * PAGESIZE, a);
    DivUnique(first * PAGESIZE, first, 0);
  }

  /** One pointer-sized value stored. */
  method StoreWord(m: Machine, ghost first: nat, at: nat, w: nat)
    requires Writable(m, first) && first * PAGESIZE <= at && at + WORD <= VMEM_1_LIMIT && w < 0x1_0000_0000
    modifies m`tlb, m.pmem
    ensures Writable(m, first) && Seen(m, first) == Overwrite(old(Seen(m, first)), at, Bytes(w))
  {
    var b := Bytes(w);
    var k := 0;
    assert Overwrite(Seen(m, first), at, b[..0]) == Seen(m, first);
    while k < WORD
      invariant 0 <= k <= WORD && Writable(m, first) && Seen(m, first) == Overwrite(old(Seen(m, first)), at, b[..k])
    {
      OnOrAbove(first, at + k);
      StoreByte(m, first, at + k, b[k]);
      OverwriteOneMore(old(Seen(m, first)), at, b, k);
      k := k + 1;
    }
    assert b[..WORD] == b;
  }

  lemma OverwriteOneMore(m: seq<Byte>, at: nat, s: seq<Byte>, n: nat)
    requires n < |s| && at + |s| <= |m|
    ensures Overwrite(m, at, s[..n])[at + n := s[n]] == Overwrite(m, at, s[..n + 1])
  {}

  /** strlen and strcpy from a buffer: the string that starts at `from`, terminator included. */
  method StrCpy(m: Machine, ghost first: nat, at: nat, src: array<Byte>, from: nat, ghost s: CString) returns (len: nat)
    requires Writable(m, first) && from <= src.Length && StringIn(src[from..]) == Some(s)
    requires first * PAGESIZE <= at && at + |s| + 1 <= VMEM_1_LIMIT
    modifies m`tlb, m.pmem
    ensures Writable(m, first) && len == |s| && Seen(m, first) == Overwrite(old(Seen(m, first)), at, s + [0])
  {
    StringShape(src[from..], s);
    ghost var t := s + [0];
    assert Overwrite(Seen(m, first), at, t[..0]) == Seen(m, first);
    len := 0;
    while src[from + len] != 0
      invariant len <= |s| && from + |s| < src.Length && src[from..][..|s|] == s && src[from..][|s|] == 0 && NoNul(s)
      invariant Writable(m, first) && Seen(m, first) == Overwrite(old(Seen(m, first)), at, t[..len])
      decreases |s| - len
    {
      assert src[from + len] == src[from..][len];
      assert len < |s| && t[len] == s[len] == src[from + len];
      OnOrAbove(first, at + len);
      StoreByte(m, first, at + len, src[from + len]);
      OverwriteOneMore(old(Seen(m, first)), at, t, len);
      len := len + 1;
    }
    assert src[from..][len] == 0;
    NulEnds(src[from..], s, len);
    OnOrAbove(first, at + len);
    StoreByte(m, first, at + len, 0);
    OverwriteOneMore(old(Seen(m, first)), at, t, len);
    assert t[..len + 1] == t;
  }

  lemma NulEnds(b: seq<Byte>, s: CString, len: nat)
    requires len <= |s| < |b| && b[..|s|] == s && NoNul(s) && b[len] == 0
    ensures len == |s|
  {
    assert forall k :: 0 <= k < |s| ==> s[k] in s && b[k] == s[k];
  }

  lemma {:induction false} StringShape(b: seq<Byte>, s: CString)
    requires StringIn(b) == Some(s)
    ensures |s| < |b| && b[..|s|] == s && b[|s|] == 0 && NoNul(s)
  {
    if b[0] != 0 {
      StringShape(b[1..], s[1..]);
      assert b[..|s|] == [b[0]] + b[1..][..|s| - 1];
    }
  }

  /** memset of everything from cpp up (load_program.c:309). */
  method Clear(m: Machine, ghost first: nat, cpp: nat)
    requires Writable(m, first) && first * PAGESIZE <= cpp <= VMEM_1_LIMIT
    modifies m`tlb, m.pmem
    ensures Writable(m, first) && Seen(m, first) == old(Seen(m, first))[..cpp] + Zeros(VMEM_1_LIMIT - cpp)
  {
    ghost var was := Seen(m, first);
    var a := cpp;
    while a < VMEM_1_LIMIT
      invariant cpp <= a <= VMEM_1_LIMIT && Writable(m, first)
      invariant Seen(m, first) == was[..cpp] + Zeros(a - cpp) + was[a..]
    {
      OnOrAbove(first, a);
      StoreByte(m, first, a, 0);
      OneZeroMore(was, cpp, a);
      a := a + 1;
    }
    assert was[a..] == [];
  }

  lemma OneZeroMore(was: seq<Byte>, cpp: nat, a: nat)
    requires cpp <= a < |was|
    ensures (was[..cpp] + Zeros(a - cpp) + was[a..])[a := 0] == was[..cpp] + Zeros(a + 1 - cpp) + was[a + 1..]
  {}
}
