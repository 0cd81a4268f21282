/** The copies a fork makes, on values: CopyPageTable, InitializeKernelStack and KCCopy
    (context_switch.c:63-114, memory.c:203-236). */
module ForkCopy {
  import opened Hardware
  import opened Frames
  import opened Memory

  /** What CopyPageTable changes: the child's table, memory and the bitmap. */
  datatype Copy = Copy(child: seq<Pte>, pmem: seq<Page>, used: seq<bool>)

  /** The valid entries of a table from page i on. */
  function Need(pt: seq<Pte>, i: nat): (n: nat)
    requires i <= |pt|
    decreases |pt| - i
  {
    if i == |pt| then 0 else Need(pt, i + 1) + if pt[i].valid then 1 else 0
  }

  ghost predicate Fits(parent: seq<Pte>, c: Copy, i: nat) {
    && i <= |parent| == |c.child| && NUM_VPN <= |c.used| == |c.pmem| && FramesExist(parent, |c.pmem|)
    && Need(parent, i) <= FreeCount(c.used, 0)
  }

  /** One valid page: a new frame, and the contents copied into it (context_switch.c:101-112). */
  function CopyOne(parent: seq<Pte>, c: Copy, i: nat): (c': Copy)
    requires Fits(parent, c, i) && i < |parent| && parent[i].valid
    ensures |c'.child| == |c.child| && |c'.pmem| == |c.pmem| && |c'.used| == |c.used| && Fits(parent, c', i + 1)
  {
    NoneFree(c.used, 0);
    assert parent[i] in parent;
    var (used, f) := Allocate(c.used);
    FreeCountTaken(c.used, f, 0);
    Copy(c.child[i := Pte(true, parent[i].prot, f)], c.pmem[f := c.pmem[parent[i].pfn]], used)
  }

  /** The loop of CopyPageTable from page i on. */
  function CopyPages(parent: seq<Pte>, c: Copy, i: nat): (c': Copy)
    requires Fits(parent, c, i)
    ensures |c'.child| == |c.child| && |c'.pmem| == |c.pmem| && |c'.used| == |c.used|
    decreases |parent| - i
  {
    if i == |parent| then c
    else CopyPages(parent, if parent[i].valid then CopyOne(parent, c, i) else c, i + 1)
  }

  /** From page i on c' holds a copy of the parent's pages on frames that were free in c; nothing
      else has changed. */
  ghost predicate Copied(parent: seq<Pte>, c: Copy, c': Copy, i: nat) {
    && i <= |parent| == |c.child| == |c'.child| && |c.used| == |c.pmem| == |c'.used| == |c'.pmem|
    && (forall j :: 0 <= j < |parent| ==>
        if i <= j && parent[j].valid then PageCopied(parent[j], c, c', j) else c'.child[j] == c.child[j])
    && (forall j, k :: i <= j < k < |parent| && parent[j].valid && parent[k].valid ==>
        c'.child[j].pfn != c'.child[k].pfn)
    && (forall f :: 0 <= f < |c.used| && c.used[f] ==> c'.pmem[f] == c.pmem[f])
    && (forall f :: 0 <= f < |c.used| ==>
        (c'.used[f] <==> c.used[f] || exists j :: i <= j < |parent| && parent[j].valid && c'.child[j].pfn == f))
  }

  ghost predicate PageCopied(p: Pte, c: Copy, c': Copy, j: nat) {
    && j < |c'.child| && |c.used| == |c.pmem| == |c'.used| == |c'.pmem|
    && c'.child[j].valid && c'.child[j].prot == p.prot
    && c'.child[j].pfn < |c.used| && !c.used[c'.child[j].pfn] && p.pfn < |c.pmem|
    && c'.pmem[c'.child[j].pfn] == c.pmem[p.pfn]
  }

  /** The parent's pages are on frames in use. */
  ghost predicate InUse(pt: seq<Pte>, used: seq<bool>) {
    forall e <- pt :: e.valid ==> e.pfn < |used| && used[e.pfn]
  }

  lemma {:induction false} CopyIsFaithful(parent: seq<Pte>, c: Copy, i: nat)
    requires Fits(parent, c, i) && InUse(parent, c.used)
    ensures Copied(parent, c, CopyPages(parent, c, i), i)
    decreases |parent| - i
  {
    if i < |parent| {
      if parent[i].valid {
        assert parent[i] in parent;
        NoneFree(c.used, 0);
        var c1 := CopyOne(parent, c, i);
        CopyIsFaithful(parent, c1, i + 1);
        CopiedOneMore(parent, c, c1, CopyPages(parent, c, i), i);
      } else {
        CopyIsFaithful(parent, c, i + 1);
        CopiedSkip(parent, c, CopyPages(parent, c, i), i);
      }
    }
  }

  lemma CopiedSkip(parent: seq<Pte>, c: Copy, c': Copy, i: nat)
    requires i < |parent| && !parent[i].valid && Copied(parent, c, c', i + 1)
    ensures Copied(parent, c, c', i)
  {}

  lemma CopiedOneMore(parent: seq<Pte>, c: Copy, c1: Copy, c': Copy, i: nat)
    requires i < |parent| && parent[i].valid && Fits(parent, c, i) && InUse(parent, c.used)
    requires c1 == CopyOne(parent, c, i) && Copied(parent, c1, c', i + 1)
    ensures Copied(parent, c, c', i)
  {
    NoneFree(c.used, 0);
    var f := FirstFree(c.used, 0);
    assert parent[i] in parent;
    assert c1 == Copy(c.child[i := Pte(true, parent[i].prot, f)], c.pmem[f := c.pmem[parent[i].pfn]],
                      c.used[f := true]);
    forall j | 0 <= j < |parent|
      ensures if i <= j && parent[j].valid then PageCopied(parent[j], c, c', j) else c'.child[j] == c.child[j]
    {
      PageOneMore(parent, c, c1, c', i, f, j);
    }
    FramesStayOwn(parent, c, c1, c', i, f);
  }

  lemma PageOneMore(parent: seq<Pte>, c: Copy, c1: Copy, c': Copy, i: nat, f: nat, j: nat)
    requires i < |parent| && parent[i].valid && InUse(parent, c.used) && |c.used| == |c.pmem|
             && parent[i].pfn < |c.pmem| && |c.child| == |parent|
    requires f < |c.used| && !c.used[f] && j < |parent|
    requires c1 == Copy(c.child[i := Pte(true, parent[i].prot, f)], c.pmem[f := c.pmem[parent[i].pfn]],
                        c.used[f := true])
    requires Copied(parent, c1, c', i + 1)
    ensures if i <= j && parent[j].valid then PageCopied(parent[j], c, c', j) else c'.child[j] == c.child[j]
  {
    if j == i {
      assert c'.child[i] == c1.child[i] && c'.pmem[f] == c1.pmem[f];
    } else if i < j && parent[j].valid {
      assert PageCopied(parent[j], c1, c', j);
      assert parent[j] in parent;
    }
  }

  lemma FramesStayOwn(parent: seq<Pte>, c: Copy, c1: Copy, c': Copy, i: nat, f: nat)
    requires i < |parent| && parent[i].valid && f < |c.used| && c1.used == c.used[f := true]
             && Copied(parent, c1, c', i + 1)
    requires |c.used| == |c1.used| && c'.child[i].pfn == f
    ensures forall j, k :: i <= j < k < |parent| && parent[j].valid && parent[k].valid ==>
            c'.child[j].pfn != c'.child[k].pfn
    ensures forall g :: 0 <= g < |c.used| ==>
            (c'.used[g] <==> c.used[g] || exists j :: i <= j < |parent| && parent[j].valid && c'.child[j].pfn == g)
  {
    forall j, k | i <= j < k < |parent| && parent[j].valid && parent[k].valid
      ensures c'.child[j].pfn != c'.child[k].pfn
    {
      assert PageCopied(parent[k], c1, c', k);
    }
  }

  // ---------------------------------------------------------------- a new kernel stack

  datatype Stack = Stack(used: seq<bool>, ks: seq<Pte>)

  /** One page more on a new frame; None: out of frames, the machine halts. */
  function OneMorePage(r: Option<Stack>): (r': Option<Stack>)
    requires r.Some? ==> NUM_VPN <= |r.value.used|
    ensures r'.Some? ==> r.Some? && |r'.value.used| == |r.value.used| && |r'.value.ks| == |r.value.ks| + 1
  {
    match r
    case None => None
    case Some(s) =>
      var (used', f) := Allocate(s.used);
      if f == ERROR then None else Some(Stack(used', s.ks + [Pte(true, READ_WRITE, f)]))
  }

  /** InitializeKernelStack with paging on, as far as n pages. */
  function NewStack(used: seq<bool>, n: nat): (r: Option<Stack>)
    requires NUM_VPN <= |used|
    ensures r.Some? ==> |r.value.used| == |used| && |r.value.ks| == n
  {
    if n == 0 then Some(Stack(used, [])) else OneMorePage(NewStack(used, n - 1))
  }

  /** The new stack: n valid pages, each on a frame of its own that was free. */
  ghost predicate StackOn(used: seq<bool>, s: Stack) {
    && |s.used| == |used|
    && (forall i :: 0 <= i < |s.ks| ==>
        s.ks[i].valid && s.ks[i].prot == READ_WRITE && s.ks[i].pfn < |used| && !used[s.ks[i].pfn])
    && (forall i, j :: 0 <= i < j < |s.ks| ==> s.ks[i].pfn != s.ks[j].pfn)
    && (forall f :: 0 <= f < |used| ==> (s.used[f] <==> used[f] || exists i :: 0 <= i < |s.ks| && s.ks[i].pfn == f))
  }

  /** A stack of n pages is found exactly when n frames are free, and takes that many. */
  ghost predicate StackFound(used: seq<bool>, r: Option<Stack>, n: nat)
    requires NUM_VPN <= |used|
  {
    match r
    case None => n > FreeCount(used, 0)
    case Some(s) => |s.used| == |used| && StackOn(used, s) && FreeCount(s.used, 0) == FreeCount(used, 0) - n
  }

  lemma NoPagesFound(used: seq<bool>)
    requires NUM_VPN <= |used|
    ensures StackFound(used, Some(Stack(used, [])), 0)
  {}

  lemma OnePageFound(used: seq<bool>, r: Option<Stack>, n: nat)
    requires NUM_VPN <= |used| && StackFound(used, r, n)
    ensures StackFound(used, OneMorePage(r), n + 1)
  {
    if r.Some? {
      var s := r.value;
      NoneFree(s.used, 0);
      var f := FirstFree(s.used, 0);
      if f != ERROR {
        FreeCountTaken(s.used, f, 0);
        StackOneMore(used, s, f);
      }
    }
  }

  lemma {:induction false} NewStackFits(used: seq<bool>, n: nat)
    requires NUM_VPN <= |used|
    ensures StackFound(used, NewStack(used, n), n)
  {
    if n == 0 {
      NoPagesFound(used);
    } else {
      NewStackFits(used, n - 1);
      OnePageFound(used, NewStack(used, n - 1), n - 1);
    }
  }

  lemma StackOneMore(used: seq<bool>, s: Stack, f: nat)
    requires StackOn(used, s) && f < |used| && !s.used[f]
    ensures StackOn(used, Stack(s.used[f := true], s.ks + [Pte(true, READ_WRITE, f)]))
  {
    var s' := Stack(s.used[f := true], s.ks + [Pte(true, READ_WRITE, f)]);
    assert s'.ks[|s.ks|].pfn == f;
    forall g | 0 <= g < |used|
      ensures s'.used[g] <==> used[g] || exists i :: 0 <= i < |s'.ks| && s'.ks[i].pfn == g
    {
      if i :| 0 <= i < |s.ks| && s.ks[i].pfn == g { assert s'.ks[i].pfn == g; }
    }
  }

  // ---------------------------------------------------------------- KCCopy

  /** The loop of KCCopy over the first n pages of the stack (context_switch.c:74-90). */
  function CopyStack(from: seq<Pte>, to: seq<Pte>, pmem: seq<Page>, n: nat): (pmem': seq<Page>)
    requires n <= |to| <= |from| && FramesExist(from, |pmem|)
    requires forall e <- from :: e.valid
    ensures |pmem'| == |pmem|
  {
    if n == 0 then pmem
    else
      assert from[n - 1] in from;
      var m := CopyStack(from, to, pmem, n - 1);
      if to[n - 1].pfn < |m| then m[to[n - 1].pfn := m[from[n - 1].pfn]] else m
  }

  /** The first n pages of the stack have their contents in the frames of the new one; all other
      frames are as they were. */
  ghost predicate StackCopied(from: seq<Pte>, to: seq<Pte>, pmem: seq<Page>, m: seq<Page>, n: nat) {
    && n <= |to| <= |from| && |m| == |pmem|
    && (forall i :: 0 <= i < n ==> to[i].pfn < |pmem| && from[i].pfn < |pmem| && m[to[i].pfn] == pmem[from[i].pfn])
    && (forall f :: 0 <= f < |pmem| && (forall i :: 0 <= i < n ==> to[i].pfn != f) ==> m[f] == pmem[f])
  }

  /** No frame is in both stacks, and none twice in the new one. */
  ghost predicate OwnStack(from: seq<Pte>, to: seq<Pte>) {
    && (forall i, j :: 0 <= i < j < |to| ==> to[i].pfn != to[j].pfn)
    && (forall i, j :: 0 <= i < |to| && 0 <= j < |from| ==> to[i].pfn != from[j].pfn)
  }

  lemma StackStep(from: seq<Pte>, to: seq<Pte>, pmem: seq<Page>, m: seq<Page>, n: nat)
    requires StackCopied(from, to, pmem, m, n) && OwnStack(from, to) && n < |to| && to[n].pfn < |pmem|
             && from[n].pfn < |pmem|
    ensures StackCopied(from, to, pmem, m[to[n].pfn := m[from[n].pfn]], n + 1)
  {
    assert m[from[n].pfn] == pmem[from[n].pfn];
  }

  ghost predicate CopyReaches(from: seq<Pte>, to: seq<Pte>, pmem: seq<Page>, n: nat)
    requires n <= |to| <= |from| && FramesExist(from, |pmem|) && forall e <- from :: e.valid
  {
    StackCopied(from, to, pmem, CopyStack(from, to, pmem, n), n)
  }

  lemma NoPageCopied(from: seq<Pte>, to: seq<Pte>, pmem: seq<Page>)
    requires |to| <= |from| && FramesExist(from, |pmem|) && forall e <- from :: e.valid
    ensures CopyReaches(from, to, pmem, 0)
  {}

  lemma OnePageMore(from: seq<Pte>, to: seq<Pte>, pmem: seq<Page>, n: nat)
    requires n < |to| <= |from| && FramesExist(from, |pmem|) && (forall e <- from :: e.valid) && to[n].pfn < |pmem|
    requires CopyReaches(from, to, pmem, n) && OwnStack(from, to)
    ensures CopyReaches(from, to, pmem, n + 1)
  {
    assert from[n] in from;
    StackStep(from, to, pmem, CopyStack(from, to, pmem, n), n);
  }

  /** What the copy of a stack needs. */
  ghost predicate CanCopy(from: seq<Pte>, to: seq<Pte>, pmem: seq<Page>) {
    && |to| <= |from| && FramesExist(from, |pmem|) && (forall e <- from :: e.valid)
    && (forall i :: 0 <= i < |to| ==> to[i].pfn < |pmem|) && OwnStack(from, to)
  }

  lemma {:induction false} CopyReachesAll(from: seq<Pte>, to: seq<Pte>, pmem: seq<Page>, n: nat)
    requires CanCopy(from, to, pmem) && n <= |to|
    ensures CopyReaches(from, to, pmem, n)
  {
    if n == 0 {
      NoPageCopied(from, to, pmem);
    } else {
      var k: nat := n - 1;
      CopyReachesAll(from, to, pmem, k);
      OnePageMore(from, to, pmem, k);
    }
  }

  /** Onto frames of its own, the copied stack has the contents of the running one. */
  lemma StackIsCopied(from: seq<Pte>, to: seq<Pte>, pmem: seq<Page>)
    requires |to| <= |from| && FramesExist(from, |pmem|) && (forall e <- from :: e.valid)
    requires (forall i :: 0 <= i < |to| ==> to[i].pfn < |pmem|) && OwnStack(from, to)
    ensures StackCopied(from, to, pmem, CopyStack(from, to, pmem, |to|), |to|)
  {
    CopyReachesAll(from, to, pmem, |to|);
  }
}
