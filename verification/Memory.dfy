/** The machine as the kernel sees it -- physical memory, page tables, a TLB the hardware fills and
    empties as it likes -- and the kernel break (memory.c). */
module Memory {
  import opened Hardware
  import opened Frames

  /** The two regions have the same number of pages and lie one above the other from address 0 on,
      addresses are words, and the kernel stack lies inside region 0, not at its very bottom. */
  datatype Sizes = Sizes(pageSize: nat, regionPages: nat, stackStart: nat, stackPages: nat)

  type GoodSizes = s: Sizes |
      && 0 < s.pageSize && 2 * s.regionPages * s.pageSize < 0x8000_0000
      && 0 < s.stackStart && 0 < s.stackPages && s.stackStart + s.stackPages <= s.regionPages
    witness Sizes(1, 2, 1, 1)

  const SIZES: GoodSizes

  const PAGESIZE: Positive := SIZES.pageSize
  const MAX_PT_LEN: nat := SIZES.regionPages
  const KSTACK_START_PAGE: nat := SIZES.stackStart
  const KSTACK_PAGES: nat := SIZES.stackPages

  /** The page of TEMP_MAPPING_VADDR (context_switch.h:13). */
  const TEMP: nat := KSTACK_START_PAGE - 1

  type Page = p: seq<Byte> | |p| == PAGESIZE witness seq(PAGESIZE, i => 0 as Byte)

  const VMEM_1_BASE: nat := MAX_PT_LEN * PAGESIZE
  const VMEM_1_LIMIT: nat := 2 * MAX_PT_LEN * PAGESIZE

  datatype Prot = Prot(read: bool, write: bool, exec: bool)

  const NONE := Prot(false, false, false)
  const READ_WRITE := Prot(true, true, false)
  const READ_EXEC := Prot(true, false, true)

  datatype Pte = Pte(valid: bool, prot: Prot, pfn: nat)

  const ZERO := Pte(false, NONE, 0)

  /** Valid entries name frames that exist. */
  predicate FramesExist(pt: seq<Pte>, frames: nat) {
    forall e <- pt :: e.valid ==> e.pfn < frames
  }

  /** The table create_pcb makes (pcb.c:60). */
  function NoPages(): (pt: seq<Pte>)
    ensures |pt| == MAX_PT_LEN
  {
    seq(MAX_PT_LEN, i => ZERO)
  }

  class Machine {
    const pmem: array<Page>
    const frameBitMap: array<bool>
    const region0: array<Pte>
    var ptbr1: array<Pte>
    var tlb: map<nat, Pte>
    var kernelBrk: nat
    var vmEnabled: bool

    ghost predicate Valid()
      reads this, pmem, frameBitMap, region0, ptbr1
    {
      && NUM_VPN <= frameBitMap.Length == pmem.Length
      && region0.Length == MAX_PT_LEN && ptbr1.Length == MAX_PT_LEN && region0 != ptbr1
      && FramesExist(region0[..], pmem.Length) && FramesExist(ptbr1[..], pmem.Length)
    }

    /** The entry the page tables hold for a page; the pages of region 1 follow those of region 0. */
    function Lookup(vpn: nat): Pte
      reads this, region0, ptbr1
      requires region0.Length == MAX_PT_LEN && ptbr1.Length == MAX_PT_LEN && vpn < 2 * MAX_PT_LEN
    {
      if vpn < MAX_PT_LEN then region0[vpn] else ptbr1[vpn - MAX_PT_LEN]
    }

    /** Outside of `stale`, every entry in the TLB is the one in the page table. */
    ghost predicate StaleOnly(stale: set<nat>)
      reads this, region0, ptbr1
      requires region0.Length == MAX_PT_LEN && ptbr1.Length == MAX_PT_LEN
    {
      forall vpn <- tlb :: vpn < 2 * MAX_PT_LEN && (vpn in stale || (Lookup(vpn).valid && tlb[vpn] == Lookup(vpn)))
    }

    /** What the hardware may do between two instructions of the kernel: drop entries, and load any
        valid entry of the page tables. */
    predicate MayBecome(t: map<nat, Pte>)
      reads this, region0, ptbr1
      requires region0.Length == MAX_PT_LEN && ptbr1.Length == MAX_PT_LEN
    {
      forall vpn <- t ::
        (vpn in tlb && t[vpn] == tlb[vpn]) || (vpn < 2 * MAX_PT_LEN && Lookup(vpn).valid && t[vpn] == Lookup(vpn))
    }

    method HardwareWalks(ghost stale: set<nat>)
      requires Valid() && StaleOnly(stale)
      modifies this`tlb
      ensures Valid() && StaleOnly(stale)
    {
      assert MayBecome(map[]);
      var t: map<nat, Pte> :| MayBecome(t);
      assert MayBecome(t);
      tlb := t;
    }

    /** Translation: an entry in the TLB is used without a look at the page table. */
    method Translate(vpn: nat, ghost stale: set<nat>) returns (pte: Pte)
      requires Valid() && StaleOnly(stale) && vpn < 2 * MAX_PT_LEN && vpn !in stale && Lookup(vpn).valid
      modifies this`tlb
      ensures Valid() && StaleOnly(stale) && pte == Lookup(vpn)
    {
      HardwareWalks(stale);
      if vpn in tlb {
        pte := tlb[vpn];
      } else {
        pte := Lookup(vpn);
        tlb := tlb[vpn := pte];
      }
      HardwareWalks(stale);
    }

    // ---- REG_TLB_FLUSH

    method FlushPage(vpn: nat, ghost stale: set<nat>)
      requires Valid() && StaleOnly(stale + {vpn})
      modifies this`tlb
      ensures Valid() && StaleOnly(stale - {vpn}) && StaleOnly(stale)
    {
      tlb := tlb - {vpn};
    }

    method FlushAll()
      requires Valid()
      modifies this`tlb
      ensures Valid() && StaleOnly({})
    {
      tlb := map[];
    }

    method FlushStack(ghost stale: set<nat>)
      requires Valid() && StaleOnly(stale)
      modifies this`tlb
      ensures Valid() && StaleOnly(stale)
    {
      tlb := map vpn | vpn in tlb && !(KSTACK_START_PAGE <= vpn < KSTACK_START_PAGE + KSTACK_PAGES) :: tlb[vpn];
    }

    /** memcpy of a page to a page, byte by byte through the TLB. */
    method CopyPage(dst: nat, src: nat, ghost stale: set<nat>)
      requires Valid() && StaleOnly(stale) && dst < 2 * MAX_PT_LEN && src < 2 * MAX_PT_LEN
      requires dst !in stale && src !in stale && Lookup(dst).valid && Lookup(src).valid
      modifies this`tlb, pmem
      ensures Valid() && StaleOnly(stale)
      ensures Lookup(dst).pfn < pmem.Length && Lookup(src).pfn < pmem.Length
      ensures pmem[..] == old(pmem[..])[Lookup(dst).pfn := old(pmem[Lookup(src).pfn])]
    {
      ghost var d, s := Lookup(dst).pfn, Lookup(src).pfn;
      LookupExists(dst);
      LookupExists(src);
      ghost var was := pmem[..];
      assert was[s][..0] + was[d][0..] == was[d];
      var i := 0;
      while i < PAGESIZE
        invariant 0 <= i <= PAGESIZE && Valid() && StaleOnly(stale)
        invariant pmem[..] == was[d := was[s][..i] + was[d][i..]]
      {
        var from := Translate(src, stale);
        var b := pmem[from.pfn][i];
        var to := Translate(dst, stale);
        assert b == was[s][i];
        pmem[to.pfn] := pmem[to.pfn][i := b];
        OneByte(was[s], was[d], i);
        i := i + 1;
      }
      assert was[s][..i] + was[d][i..] == was[s];
    }

    lemma LookupExists(vpn: nat)
      requires Valid() && vpn < 2 * MAX_PT_LEN && Lookup(vpn).valid
      ensures Lookup(vpn).pfn < pmem.Length
    {
      assert Lookup(vpn) in if vpn < MAX_PT_LEN then region0[..] else ptbr1[..];
    }

    lemma OneByte(s: Page, d: Page, i: nat)
      requires i < PAGESIZE
      ensures (s[..i] + d[i..])[i := s[i]] == s[..i + 1] + d[i + 1..]
    {}
  }
}
