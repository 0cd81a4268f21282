/** The pool of physical frames (frames.c): first fit. */
module Frames {
  import opened Hardware

  /** How many frames the scans cover (frames.c:17, 31). */
  const NUM_VPN: Positive

  /** The lowest free frame from i on. */
  function FirstFree(used: seq<bool>, i: nat): (pfn: int)
    requires i <= NUM_VPN <= |used|
    ensures pfn == ERROR <==> forall f :: i <= f < NUM_VPN ==> used[f]
    ensures pfn != ERROR ==> i <= pfn < NUM_VPN && !used[pfn] && forall f :: i <= f < pfn ==> used[f]
    decreases NUM_VPN - i
  {
    if i == NUM_VPN then ERROR else if !used[i] then i else FirstFree(used, i + 1)
  }

  /** allocate_frame on values. */
  function Allocate(used: seq<bool>): (r: (seq<bool>, int))
    requires NUM_VPN <= |used|
    ensures |r.0| == |used|
  {
    var pfn := FirstFree(used, 0);
    if pfn == ERROR then (used, ERROR) else (used[pfn := true], pfn)
  }

  /** free_frame on values. */
  function Free(used: seq<bool>, pfn: int): (used': seq<bool>)
    requires NUM_VPN <= |used|
    ensures |used'| == |used|
  {
    if 0 <= pfn < NUM_VPN then used[pfn := false] else used
  }

  /** Giving a frame back undoes taking it. */
  lemma FreeUndoesAllocate(used: seq<bool>)
    requires NUM_VPN <= |used|
    ensures var (used', pfn) := Allocate(used); Free(used', pfn) == used
  {}

  /** A frame given back is taken again at once exactly when no lower one is free. */
  lemma AllocateAfterFree(used: seq<bool>, pfn: nat)
    requires NUM_VPN <= |used| && pfn < NUM_VPN && used[pfn]
    ensures var (used', pfn') := Allocate(Free(used, pfn));
            && 0 <= pfn' <= pfn
            && (pfn' == pfn <==> forall f :: 0 <= f < pfn ==> used[f])
            && (pfn' == pfn ==> used' == used)
  {
    assert !Free(used, pfn)[pfn];
  }

  /** How many frames are free from i on. */
  function FreeCount(used: seq<bool>, i: nat): (n: nat)
    requires i <= NUM_VPN <= |used|
    decreases NUM_VPN - i
  {
    if i == NUM_VPN then 0 else FreeCount(used, i + 1) + if used[i] then 0 else 1
  }

  lemma {:induction false} FreeCountTaken(used: seq<bool>, pfn: nat, i: nat)
    requires i <= NUM_VPN <= |used| && pfn < NUM_VPN && !used[pfn]
    ensures FreeCount(used[pfn := true], i) == FreeCount(used, i) - if i <= pfn then 1 else 0
    decreases NUM_VPN - i
  {
    if i < NUM_VPN { FreeCountTaken(used, pfn, i + 1); }
  }

  lemma {:induction false} NoneFree(used: seq<bool>, i: nat)
    requires i <= NUM_VPN <= |used|
    ensures FreeCount(used, i) == 0 <==> FirstFree(used, i) == ERROR
    decreases NUM_VPN - i
  {
    if i < NUM_VPN { NoneFree(used, i + 1); }
  }

  /** allocate_frame (frames.c:11-26). */
  method AllocateFrame(bitMap: array<bool>) returns (pfn: int)
    requires NUM_VPN <= bitMap.Length
    modifies bitMap
    ensures (bitMap[..], pfn) == Allocate(old(bitMap[..]))
  {
    var i := 0;
    while i < NUM_VPN
      invariant 0 <= i <= NUM_VPN && FirstFree(bitMap[..], 0) == FirstFree(bitMap[..], i)
    {
      if !bitMap[i] {
        bitMap[i] := true;
        assert bitMap[..] == old(bitMap[..])[i := true];
        return i;
      }
      i := i + 1;
    }
    return ERROR;
  }

  /** free_frame (frames.c:28-43). */
  method FreeFrame(bitMap: array<bool>, pfn: int)
    requires NUM_VPN <= bitMap.Length
    modifies bitMap
    ensures bitMap[..] == Free(old(bitMap[..]), pfn)
  {
    if pfn < 0 || pfn >= NUM_VPN {
      return;
    }
    if !bitMap[pfn] {
      assert bitMap[..] == Free(bitMap[..], pfn);
      return;
    }
    bitMap[pfn] := false;
  }
}
