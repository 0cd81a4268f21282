/** The intrusive circular lists of list.c, at the level of their pointers: the links around the
    sentinel spell out a sequence of nodes, and every operation is what its name says on it. */
module CircularList {
  import opened Hardware
  import KernelModel

  class Node {
    var prev: Node?
    var next: Node?

    constructor ()
      ensures prev == null && next == null
    {
      prev, next := null, null;
    }
  }

  /** A node that is on no list: list_remove and pop leave nodes like this. */
  predicate Unlinked(n: Node)
    reads n
  {
    n.next == null && n.prev == null
  }

  /** Neighbours point at each other. */
  ghost predicate Linked(r: seq<Node>)
    reads r
  {
    forall i :: 0 <= i < |r| - 1 ==> r[i].next == r[i + 1] && r[i + 1].prev == r[i]
  }

  ghost predicate Distinct(s: seq<Node>) {
    forall i, j :: 0 <= i < j < |s| ==> s[i] != s[j]
  }

  class List {
    const head: Node
    var count: int
    ghost var nodes: seq<Node>

    /** Once around, from the sentinel to the sentinel. */
    ghost function Ring(): seq<Node>
      reads this
    {
      [head] + nodes + [head]
    }

    ghost function Repr(): set<object>
      reads this
    {
      {this} + (set n <- Ring() :: n as object)
    }

    ghost predicate Valid()
      reads this, Repr()
    {
      && head !in nodes && Distinct(nodes)
      && count == |nodes|
      && (forall n <- Ring() :: n in Repr())
      && Linked(Ring())
    }

    /** create_list, list_init (list.c:4-22). */
    constructor ()
      ensures Valid() && nodes == [] && fresh(Repr())
    {
      head := new Node();
      count, nodes := 0, [];
      new;
      head.prev := head;
      head.next := head;
    }

    /** The links of the sentinel. */
    lemma Ends()
      requires Valid()
      ensures head.next == if nodes == [] then head else nodes[0]
      ensures head.prev == if nodes == [] then head else nodes[|nodes| - 1]
      ensures head.next in Ring() && head.prev in Ring()
    {
      var r := Ring();
      assert r[0].next == r[1];
      assert r[|r| - 2].next == r[|r| - 1] && r[|r| - 1].prev == r[|r| - 2];
    }

    /** The links of a node on the list. */
    lemma Around(i: nat)
      requires Valid() && i < |nodes|
      ensures nodes[i].next == if i + 1 < |nodes| then nodes[i + 1] else head
      ensures nodes[i].prev == if i > 0 then nodes[i - 1] else head
      ensures nodes[i] in Ring() && nodes[i].next in Ring() && nodes[i].prev in Ring()
    {
      var r := Ring();
      assert r[i + 1].next == r[i + 2] && r[i + 2].prev == r[i + 1];
      assert r[i].next == r[i + 1] && r[i + 1].prev == r[i];
    }
  }

  /** Once a node is linked in between two neighbours, the links spell out the longer sequence. */
  twostate lemma Inserted(list: List, new k: nat, new node: Node)
    requires old(list.Valid()) && k <= |old(list.nodes)| && node !in old(list.Ring())
    requires list.nodes == old(list.nodes)[..k] + [node] + old(list.nodes)[k..] && list.count == old(list.count) + 1
    requires var a, b := old(list.Ring())[k], old(list.Ring())[k + 1];
             && a.next == node && node.prev == a && node.next == b && b.prev == node
             && forall n <- old(list.Ring()) :: (n == a || n.next == old(n.next)) && (n == b || n.prev == old(n.prev))
    ensures list.Valid()
  {
    var r, r' := old(list.Ring()), list.Ring();
    assert r' == r[..k + 1] + [node] + r[k + 1..];
    forall i | 0 <= i < |r'| - 1
      ensures r'[i].next == r'[i + 1] && r'[i + 1].prev == r'[i]
    {
      if i < k {
        assert r[i].next == r[i + 1];
      } else if i > k + 1 {
        assert r[i - 1].next == r[i];
      }
    }
  }

  /** Once the neighbours of a node are linked to each other, they spell out the shorter sequence. */
  twostate lemma Removed(list: List, new k: nat)
    requires old(list.Valid()) && k < |old(list.nodes)|
    requires list.nodes == old(list.nodes)[..k] + old(list.nodes)[k + 1..] && list.count == old(list.count) - 1
    requires var a, x, b := old(list.Ring())[k], old(list.Ring())[k + 1], old(list.Ring())[k + 2];
             && a.next == b && b.prev == a
             && forall n <- old(list.Ring()) ::
                 n == x || ((n == a || n.next == old(n.next)) && (n == b || n.prev == old(n.prev)))
    ensures list.Valid()
  {
    var r, r' := old(list.Ring()), list.Ring();
    assert r' == r[..k + 1] + r[k + 2..];
    forall i | 0 <= i < |r'| - 1
      ensures r'[i].next == r'[i + 1] && r'[i + 1].prev == r'[i]
    {
      if i < k {
        assert r[i].next == r[i + 1];
      } else if i > k {
        assert r[i + 1].next == r[i + 2];
      }
    }
  }

  /** insert_tail (list.c:24-47). */
  method InsertTail(list: List?, node: Node?)
    requires list != null && node != null ==> list.Valid() && node !in list.nodes && node != list.head
    modifies if list != null && node != null then list.Repr() + {node} else {}
    ensures list != null && node != null ==> list.Valid() && list.nodes == old(list.nodes) + [node]
  {
    if node == null || list == null {
      return;
    }
    list.Ends();
    node.prev := list.head.prev;
    node.next := list.head;
    list.head.prev.next := node;
    list.head.prev := node;
    list.count := list.count + 1;
    list.nodes := list.nodes + [node];
    Inserted(list, |old(list.nodes)|, node);
  }

  /** insert_head (list.c:49-66). */
  method InsertHead(list: List?, node: Node?)
    requires list != null && node != null ==> list.Valid() && node !in list.nodes && node != list.head
    modifies if list != null && node != null then list.Repr() + {node} else {}
    ensures list != null && node != null ==> list.Valid() && list.nodes == [node] + old(list.nodes)
  {
    if node == null || list == null {
      return;
    }
    list.Ends();
    node.prev := list.head;
    node.next := list.head.next;
    list.head.next.prev := node;
    list.head.next := node;
    list.count := list.count + 1;
    list.nodes := [node] + list.nodes;
    Inserted(list, 0, node);
  }

  /** list_contains (list.c:68-89). */
  method ListContains(list: List?, node: Node?) returns (rc: int)
    requires list != null ==> list.Valid()
    ensures rc == if node == null || list == null then ERROR else if node in list.nodes then 1 else 0
  {
    if node == null || list == null {
      return ERROR;
    }
    list.Ends();
    var curr := list.head.next;
    ghost var i := 0;
    while curr != list.head
      invariant i <= |list.nodes| && curr == list.Ring()[i + 1] && node !in list.nodes[..i]
      decreases |list.nodes| - i
    {
      list.Around(i);
      if curr == node {
        return 1;
      }
      curr := curr.next;
      i := i + 1;
    }
    return 0;
  }

  /** Where a node of the list is. */
  ghost function IndexOf(s: seq<Node>, n: Node): (i: nat)
    requires n in s
    ensures i < |s| && s[i] == n
  {
    if s[0] == n then 0 else 1 + IndexOf(s[1..], n)
  }

  /** Cutting out the one place of a node is what the kernel model calls Without. */
  lemma {:induction false} CutIsWithout(s: seq<Node>, n: Node)
    requires n in s
    ensures s[..IndexOf(s, n)] + s[IndexOf(s, n) + 1..] == KernelModel.Without(s, n)
  {
    if s[0] != n {
      CutIsWithout(s[1..], n);
      var i := IndexOf(s[1..], n);
      assert s[..i + 1] == [s[0]] + s[1..][..i] && s[i + 2..] == s[1..][i + 1..];
    }
  }

  /** list_remove (list.c:91-108): of a node anywhere on the list; a node on no list is left alone. */
  method ListRemove(list: List, node: Node)
    requires list.Valid() && (node in list.nodes || node.next == null || node.prev == null)
    modifies list.Repr()
    ensures list.Valid()
    ensures if node in old(list.nodes)
            then var i := IndexOf(old(list.nodes), node);
              list.nodes == old(list.nodes)[..i] + old(list.nodes)[i + 1..] && Unlinked(node)
            else list.nodes == old(list.nodes)
  {
    ghost var i := 0;
    if node in list.nodes {
      i := IndexOf(list.nodes, node);
      list.Around(i);
    }
    if node.next == null || node.prev == null {
      return;
    }
    var temp := node.prev;
    temp.next := node.next;
    node.next.prev := temp;
    node.next, node.prev := null, null;
    list.count := list.count - 1;
    list.nodes := list.nodes[..i] + list.nodes[i + 1..];
    Removed(list, i);
  }

  /** list_is_empty (list.c:110-118). */
  method ListIsEmpty(list: List?) returns (rc: int)
    requires list != null ==> list.Valid()
    ensures rc == if list == null then ERROR else if list.nodes == [] then 1 else 0
  {
    if list == null {
      return ERROR;
    }
    return if list.count == 0 then 1 else 0;
  }

  /** pop (list.c:120-137). */
  method Pop(list: List?) returns (ret: Node?)
    requires list != null ==> list.Valid()
    modifies if list != null then list.Repr() else {}
    ensures ret == null <==> list == null || old(list.nodes) == []
    ensures list != null ==> list.Valid()
    ensures ret != null ==> ret == old(list.nodes)[0] && list.nodes == old(list.nodes)[1..] && Unlinked(ret)
    ensures ret == null && list != null ==> list.nodes == []
  {
    var empty := ListIsEmpty(list);
    if empty != 0 {
      return null;
    }
    ret := PopFirst(list);
  }

  /** list.c:127-136, of a list that is not empty. */
  method PopFirst(list: List) returns (ret: Node)
    requires list.Valid() && list.nodes != []
    modifies list.Repr()
    ensures list.Valid() && ret == old(list.nodes)[0] && list.nodes == old(list.nodes)[1..] && Unlinked(ret)
  {
    list.Ends();
    list.Around(0);
    ret := list.head.next;
    ghost var r, second := list.Ring(), ret.next;
    ret.next.prev := list.head;
    list.head.next := ret.next;
    ret.next, ret.prev := null, null;
    list.count := list.count - 1;
    list.nodes := list.nodes[1..];
    assert list.head.next == second && second.prev == list.head && second == r[2];
    forall n <- r
      ensures n == ret || ((n == list.head || n.next == old(n.next)) && (n == second || n.prev == old(n.prev)))
    {}
    Removed(list, 0);
  }

  /** peek (list.c:139-148). */
  method Peek(list: List?) returns (ret: Node?)
    requires list != null ==> list.Valid()
    ensures ret == if list == null || list.nodes == [] then null else list.nodes[0]
  {
    var empty := ListIsEmpty(list);
    if empty != 0 {
      return null;
    }
    list.Ends();
    return list.head.next;
  }

  /** clear_list (list.c:150-167): every node comes off, in order, and none is left linked. */
  method ClearList(list: List?) returns (rc: int)
    requires list != null ==> list.Valid()
    modifies if list != null then list.Repr() else {}
    ensures rc == if list == null then ERROR else 0
    ensures list != null ==> list.Valid() && list.nodes == [] && forall n <- old(list.nodes) :: Unlinked(n)
  {
    if list == null {
      return ERROR;
    }
    ghost var all, k := list.nodes, 0;
    while list.count > 0
      invariant list.Valid() && k <= |all| && list.nodes == all[k..] && list.Repr() <= old(list.Repr())
      invariant forall i :: 0 <= i < k ==> Unlinked(all[i])
      decreases |all| - k
    {
      var popped := Pop(list);
      if popped == null {
        return ERROR;
      }
      k := k + 1;
    }
    return 0;
  }

  // ---------------------------------------------------------------- many lists

  /** Lists that share no node. */
  ghost predicate Separate(lists: set<List>)
    reads *
  {
    && (forall l <- lists :: l.Valid())
    && forall l <- lists, m <- lists :: l != m ==> l.Repr() !! m.Repr()
  }

  ghost predicate OnNone(lists: set<List>, node: Node)
    reads *
  {
    forall l <- lists :: node !in l.Ring()
  }

  /** Work on one list, with a node that is on none, leaves the others as they are and all apart. */
  twostate lemma Undisturbed(lists: set<List>, new l: List, new node: Node?)
    requires old(Separate(lists)) && l in lists && l.Valid()
    requires forall m <- lists, o <- old(m.Repr()) :: m != l ==> unchanged(o)
    requires forall n <- l.Ring() :: n == node || n in old(l.Ring())
    requires node == null || (old(allocated(node)) && old(OnNone(lists, node)))
    ensures Separate(lists) && forall m <- lists :: m != l ==> m.nodes == old(m.nodes)
  {
    forall m <- lists | m != l
      ensures m.Valid() && m.nodes == old(m.nodes) && l.Repr() !! m.Repr()
    {
      assert m in old(m.Repr()) && unchanged(m);
      assert old(m.Valid());
      StillValid(m);
      forall o <- l.Repr()
        ensures o !in m.Repr()
      {
        assert o == l || o in l.Ring();
      }
    }
  }

  twostate lemma StillValid(m: List)
    requires old(m.Valid()) && forall o <- old(m.Repr()) :: unchanged(o)
    ensures m.Valid() && m.Repr() == old(m.Repr()) && m.nodes == old(m.nodes)
  {
    assert m in old(m.Repr());
    assert m.Ring() == old(m.Ring());
    forall n <- m.Ring()
      ensures unchanged(n)
    {
      assert n in old(m.Repr());
    }
  }

  /** The head of a list is on none of the others. */
  lemma NoSharedNode(lists: set<List>, from: List)
    requires Separate(lists) && from in lists && from.nodes != []
    ensures from.nodes[0] != from.head && forall m <- lists :: m != from ==> from.nodes[0] !in m.Ring()
  {
    var n := from.nodes[0];
    assert from.Ring()[1] == n && n in from.Repr();
    forall m <- lists | m != from
      ensures n !in m.Ring()
    {
      assert n !in m.Repr();
    }
  }

  /** The head of one list moves to the tail of another, as whenever a waiter is woken (pop followed
      by insert_tail: sync.c:166 and 201, 208 and 231, 377 and 382, 497 and 503). */
  method MoveHead(ghost lists: set<List>, from: List, to: List)
    requires Separate(lists) && from in lists && to in lists && from != to && from.nodes != []
    modifies from.Repr(), to.Repr()
    ensures Separate(lists) && forall m <- lists :: m != from && m != to ==> m.nodes == old(m.nodes)
    ensures from.nodes == old(from.nodes)[1..] && to.nodes == old(to.nodes) + [old(from.nodes)[0]]
  {
    NoSharedNode(lists, from);
    var node := Pop(from);
    Undisturbed(lists, from, null);
    label Popped:
    assert OnNone(lists, node);
    InsertTail(to, node);
    Undisturbed@Popped(lists, to, node);
  }
}
