/** The kernel's queues at the level of their links: every process has one queue_node (pcb.h:80),
    and each trap, done with the operations of list.c, keeps the links of every list right. */
module LinkedQueues {
  import opened Hardware
  import opened Pipes
  import opened PipeWakes
  import opened Locks
  import opened KernelModel
  import opened KernelInvariant
  import opened KernelSteps
  import opened DelaySweep
  import opened KernelRuns
  import opened CircularList
  import opened QueueMoves
  import opened TrapMoves

  // ---------------------------------------------------------------- links that spell out the queues

  /** One node for each process and one sentinel for each list, all different. */
  ghost predicate OwnNodes(node: map<Pid, Node>, lists: map<QueueId, List>) {
    && (forall p <- node, r <- node :: node[p] == node[r] ==> p == r)
    && (forall q <- lists, p <- node :: lists[q].head != node[p])
    && (forall q <- lists, r <- lists :: lists[q] == lists[r] || lists[q].head == lists[r].head ==> q == r)
  }

  /** These are the nodes of these processes. */
  ghost predicate Nodes(ns: seq<Node>, node: map<Pid, Node>, ps: seq<Pid>) {
    |ns| == |ps| && forall i :: 0 <= i < |ps| ==> ps[i] in node && ns[i] == node[ps[i]]
  }

  /** The links of the lists are whole, keep the lists apart, and spell out the queues. */
  ghost predicate Spelled(qs: Queues, node: map<Pid, Node>, lists: map<QueueId, List>)
    reads *
  {
    && lists.Keys == qs.Keys && OwnNodes(node, lists) && Separate(lists.Values)
    && forall q <- lists :: Nodes(lists[q].nodes, node, qs[q])
  }

  /** All the nodes and lists there are. */
  ghost function Memory(node: map<Pid, Node>, lists: map<QueueId, List>): set<object> {
    (set q <- lists :: lists[q]) + (set q <- lists :: lists[q].head) + (set p <- node :: node[p])
  }

  /** The node of a process on no queue is on no list: what insert_tail and insert_head need. */
  lemma UnqueuedOnNone(qs: Queues, node: map<Pid, Node>, lists: map<QueueId, List>, p: Pid)
    requires Spelled(qs, node, lists) && Unqueued(qs, p) && p in node
    ensures OnNone(lists.Values, node[p])
  {
    forall l <- lists.Values
      ensures node[p] !in l.Ring()
    {
      var q :| q in lists && lists[q] == l;
      assert Nodes(l.nodes, node, qs[q]);
    }
  }

  /** Between any two traps, and within one, of a process that is on its way. */
  lemma LooseOnNone(k: Kernel, loose: set<Pid>, node: map<Pid, Node>, lists: map<QueueId, List>, p: Pid)
    requires Filed(k, loose) && Spelled(QueuesOf(k), node, lists) && p in loose && p in k.procs && p in node
    ensures OnNone(lists.Values, node[p])
  {
    LooseIsUnqueued(k, loose, p);
    UnqueuedOnNone(QueuesOf(k), node, lists, p);
  }

  lemma WithinMemory(qs: Queues, node: map<Pid, Node>, lists: map<QueueId, List>, q: QueueId)
    requires Spelled(qs, node, lists) && q in lists
    ensures lists[q].Repr() <= Memory(node, lists)
  {
    assert Nodes(lists[q].nodes, node, qs[q]);
  }

  // ---------------------------------------------------------------- one operation

  /** The list of q has become the nodes of s, and the others are as they were. */
  twostate lemma Respelled(new qs: Queues, new node: map<Pid, Node>, new lists: map<QueueId, List>, new q: QueueId,
                           new s: seq<Pid>)
    requires old(allocated(lists)) && old(allocated(node)) && old(Spelled(qs, node, lists)) && q in lists
    requires Separate(lists.Values) && forall m <- lists.Values :: m != lists[q] ==> m.nodes == old(m.nodes)
    requires Nodes(lists[q].nodes, node, s)
    ensures Spelled(qs[q := s], node, lists)
  {
    forall r <- lists
      ensures Nodes(lists[r].nodes, node, qs[q := s][r])
    {
      if r != q { assert lists[r].nodes == old(lists[r].nodes); }
    }
  }

  /** insert_tail. */
  method LinkLast(ghost qs: Queues, node: map<Pid, Node>, lists: map<QueueId, List>, q: QueueId, p: Pid)
    requires Spelled(qs, node, lists) && q in qs && p in node && Unqueued(qs, p)
    modifies Memory(node, lists)
    ensures Spelled(qs[q := qs[q] + [p]], node, lists)
  {
    UnqueuedOnNone(qs, node, lists, p);
    WithinMemory(qs, node, lists, q);
    InsertTail(lists[q], node[p]);
    Undisturbed(lists.Values, lists[q], node[p]);
    Respelled(qs, node, lists, q, qs[q] + [p]);
  }

  lemma OneBefore(ns: seq<Node>, node: map<Pid, Node>, ps: seq<Pid>, p: Pid)
    requires Nodes(ns, node, ps) && p in node
    ensures Nodes([node[p]] + ns, node, [p] + ps)
  {}

  /** insert_head. */
  method LinkFirst(ghost qs: Queues, node: map<Pid, Node>, lists: map<QueueId, List>, q: QueueId, p: Pid)
    requires Spelled(qs, node, lists) && q in qs && p in node && Unqueued(qs, p)
    modifies Memory(node, lists)
    ensures Spelled(qs[q := [p] + qs[q]], node, lists)
  {
    UnqueuedOnNone(qs, node, lists, p);
    WithinMemory(qs, node, lists, q);
    OneBefore(lists[q].nodes, node, qs[q], p);
    InsertHead(lists[q], node[p]);
    Undisturbed(lists.Values, lists[q], node[p]);
    Respelled(qs, node, lists, q, [p] + qs[q]);
  }

  /** pop: the node that comes off is that of the first process. */
  method UnlinkFirst(ghost qs: Queues, node: map<Pid, Node>, lists: map<QueueId, List>, q: QueueId) returns (n: Node?)
    requires Spelled(qs, node, lists) && q in qs && qs[q] != []
    modifies Memory(node, lists)
    ensures Spelled(qs[q := qs[q][1..]], node, lists) && n == node[qs[q][0]]
  {
    WithinMemory(qs, node, lists, q);
    n := Pop(lists[q]);
    Undisturbed(lists.Values, lists[q], null);
    Respelled(qs, node, lists, q, qs[q][1..]);
  }

  /** Cutting the node of a process out of a list cuts the process out of the queue. */
  lemma {:induction false} CutNode(ns: seq<Node>, node: map<Pid, Node>, ps: seq<Pid>, p: Pid)
    requires Nodes(ns, node, ps) && p in ps && (forall x <- node, y <- node :: node[x] == node[y] ==> x == y)
    ensures node[p] in ns && Nodes(Without(ns, node[p]), node, Without(ps, p))
  {
    assert ns[0] == node[ps[0]];
    if ps[0] == p {
      assert Nodes(ns[1..], node, ps[1..]);
    } else {
      CutNode(ns[1..], node, ps[1..], p);
    }
  }

  /** list_remove. */
  method Unlink(ghost qs: Queues, node: map<Pid, Node>, lists: map<QueueId, List>, q: QueueId, p: Pid)
    requires Spelled(qs, node, lists) && q in qs && p in qs[q] && p in node
    modifies Memory(node, lists)
    ensures Spelled(qs[q := Without(qs[q], p)], node, lists)
  {
    WithinMemory(qs, node, lists, q);
    CutNode(lists[q].nodes, node, qs[q], p);
    CutIsWithout(lists[q].nodes, node[p]);
    ListRemove(lists[q], node[p]);
    Undisturbed(lists.Values, lists[q], null);
    Respelled(qs, node, lists, q, Without(qs[q], p));
  }

  /** list_init: a list more. */
  method OpenList(ghost qs: Queues, node: map<Pid, Node>, lists: map<QueueId, List>, q: QueueId)
      returns (lists': map<QueueId, List>)
    requires Spelled(qs, node, lists) && q !in qs
    ensures Spelled(qs[q := []], node, lists') && fresh(Memory(node, lists') - Memory(node, lists))
  {
    var l := new List();
    lists' := lists[q := l];
    OneListMore(qs, node, lists, q, l);
    MoreMemory(node, lists, q, l);
    assert l.head in l.Ring() && l.head as object in l.Repr();
  }

  lemma MoreLists(lists: map<QueueId, List>, q: QueueId, l: List)
    requires q !in lists
    ensures lists[q := l].Values == lists.Values + {l}
  {
    var more := lists[q := l];
    assert more[q] == l && q in more;
    forall m <- lists.Values
      ensures m in more.Values
    {
      var r :| r in lists && lists[r] == m;
      assert r in more && more[r] == m;
    }
  }

  lemma MoreMemory(node: map<Pid, Node>, lists: map<QueueId, List>, q: QueueId, l: List)
    ensures Memory(node, lists[q := l]) <= Memory(node, lists) + {l, l.head}
  {}

  /** With an empty list fewer the rest is still right. */
  lemma OneLess(qs: Queues, node: map<Pid, Node>, lists: map<QueueId, List>, q: QueueId)
    requires Spelled(qs, node, lists)
    ensures Spelled(qs - {q}, node, lists - {q}) && Memory(node, lists - {q}) <= Memory(node, lists)
  {
    assert (lists - {q}).Values <= lists.Values;
    forall r <- lists - {q}
      ensures Nodes((lists - {q})[r].nodes, node, (qs - {q})[r])
    {
      assert Nodes(lists[r].nodes, node, qs[r]);
    }
  }

  /** A new list shares nothing with those there were. */
  twostate lemma OneApart(new lists: set<List>, new l: List)
    requires old(allocated(lists)) && old(Separate(lists)) && l.Valid() && fresh(l.Repr())
    requires forall m <- lists, o <- old(m.Repr()) :: unchanged(o)
    ensures Separate(lists + {l}) && forall m <- lists :: m.nodes == old(m.nodes)
  {
    forall m <- lists
      ensures m.Valid() && m.Repr() == old(m.Repr()) && m.nodes == old(m.nodes)
    {
      StillValid(m);
    }
  }

  lemma OneMoreOwn(node: map<Pid, Node>, lists: map<QueueId, List>, q: QueueId, l: List)
    requires OwnNodes(node, lists) && q !in lists
    requires l !in lists.Values && (forall m <- lists.Values :: m.head != l.head)
             && forall p <- node :: node[p] != l.head
    ensures OwnNodes(node, lists[q := l])
  {
    assert forall r <- lists :: lists[r] in lists.Values;
  }

  twostate lemma OneListMore(new qs: Queues, new node: map<Pid, Node>, new lists: map<QueueId, List>, new q: QueueId,
                             new l: List)
    requires old(allocated(lists)) && old(allocated(node)) && old(Spelled(qs, node, lists)) && q !in qs
    requires l.Valid() && l.nodes == [] && fresh(l.Repr())
             && forall m <- lists.Values, o <- old(m.Repr()) :: unchanged(o)
    ensures Spelled(qs[q := []], node, lists[q := l])
  {
    MoreLists(lists, q, l);
    OneApart(lists.Values, l);
    assert l in l.Repr() && l.head in l.Ring() && l.head as object in l.Repr();
    OneMoreOwn(node, lists, q, l);
    assert forall r <- lists :: lists[r] in lists.Values;
  }

  /** clear_list, and the end of the list: nobody is on it. */
  method CloseList(ghost qs: Queues, node: map<Pid, Node>, lists: map<QueueId, List>, q: QueueId)
      returns (lists': map<QueueId, List>)
    requires Spelled(qs, node, lists) && q in qs && qs[q] == []
    modifies Memory(node, lists)
    ensures Spelled(qs - {q}, node, lists') && Memory(node, lists') <= Memory(node, lists)
  {
    WithinMemory(qs, node, lists, q);
    var rc := ClearList(lists[q]);
    Undisturbed(lists.Values, lists[q], null);
    Respelled(qs, node, lists, q, []);
    lists' := lists - {q};
    assert qs[q := []] == qs;
    OneLess(qs, node, lists, q);
  }

  // ---------------------------------------------------------------- one trap

  predicate SameLists(mv: Move) {
    !mv.Open? && !mv.Close?
  }

  method PlayMove(ghost who: set<Pid>, ghost qs: Queues, mv: Move, node: map<Pid, Node>, lists: map<QueueId, List>)
      returns (lists': map<QueueId, List>)
    requires Spelled(qs, node, lists) && who <= node.Keys && Legal(who, qs, mv)
    modifies Memory(node, lists)
    ensures Spelled(Moved(who, qs, mv), node, lists') && fresh(Memory(node, lists') - Memory(node, lists))
    ensures SameLists(mv) ==> lists' == lists
  {
    lists' := lists;
    match mv {
      case Append(q, p) => LinkLast(qs, node, lists, q, p);
      case PushHead(q, p) => LinkFirst(qs, node, lists, q, p);
      case PopHead(q) => var n := UnlinkFirst(qs, node, lists, q);
      case Cut(q, p) => Unlink(qs, node, lists, q, p);
      case Open(q) => lists' := OpenList(qs, node, lists, q);
      case Close(q) => lists' := CloseList(qs, node, lists, q);
    }
  }

  /** One list operation after the other. */
  method Play(ghost who: set<Pid>, ghost qs: Queues, ms: seq<Move>, ghost qs': Queues, node: map<Pid, Node>,
              lists: map<QueueId, List>)
      returns (lists': map<QueueId, List>)
    requires Spelled(qs, node, lists) && who <= node.Keys && Does(who, qs, ms, qs')
    modifies Memory(node, lists)
    ensures Spelled(qs', node, lists') && fresh(Memory(node, lists') - Memory(node, lists))
    ensures (forall mv <- ms :: SameLists(mv)) ==> lists' == lists
    decreases |ms|
  {
    if ms == [] {
      return lists;
    }
    lists' := PlayMove(who, qs, ms[0], node, lists);
    lists' := Play(who, Moved(who, qs, ms[0]), ms[1..], qs', node, lists');
  }

  // ---------------------------------------------------------------- the delay sweep, by its links

  /** pcb_from_queue_node (pcb.h:95): the process a node is part of. */
  function PcbFromQueueNode(node: map<Pid, Node>): map<Node, Pid>
    requires forall p <- node, r <- node :: node[p] == node[r] ==> p == r
  {
    map p <- node :: node[p] := p
  }

  /** Where the walk stands, with `rest` still before it. */
  function PlaceIn(node: map<Pid, Node>, head: Node, rest: seq<Pid>): Node
    requires forall p <- rest :: p in node
  {
    if rest == [] then head else node[rest[0]]
  }

  /** The walk is at the node of the first of ps; the next one is found by its link. */
  lemma NextPlace(qs: Queues, node: map<Pid, Node>, lists: map<QueueId, List>, q: QueueId, kept: seq<Pid>, x: Pid,
                  rest: seq<Pid>)
    requires Spelled(qs, node, lists) && q in qs && qs[q] == kept + [x] + rest
    ensures x in node && (forall p <- rest :: p in node) && node[x] != lists[q].head
    ensures node[x].next == PlaceIn(node, lists[q].head, rest)
  {
    var l, i := lists[q], |kept|;
    assert Nodes(l.nodes, node, qs[q]) && l.Valid();
    assert qs[q][i] == x;
    forall p <- rest
      ensures p in node
    {
      var j :| 0 <= j < |rest| && rest[j] == p;
      assert qs[q][i + 1 + j] == p;
    }
    l.Around(i);
    if rest != [] { assert qs[q][i + 1] == rest[0]; }
  }

  lemma FirstPlace(qs: Queues, node: map<Pid, Node>, lists: map<QueueId, List>, q: QueueId)
    requires Spelled(qs, node, lists) && q in qs
    ensures (forall p <- qs[q] :: p in node) && lists[q].head.next == PlaceIn(node, lists[q].head, qs[q])
  {
    assert Nodes(lists[q].nodes, node, qs[q]) && lists[q].Valid();
    lists[q].Ends();
  }

  /** list_remove and insert_tail, of the one node there is for a process whose delay is over. */
  method ExpireNode(ghost who: set<Pid>, ghost qs: Queues, ghost kept: seq<Pid>, x: Pid, ghost rest: seq<Pid>,
                    node: map<Pid, Node>, lists: map<QueueId, List>)
    requires Spelled(qs, node, lists) && Disjoint(who, qs) && ReadyQueue in qs && DelayQueue in qs && x in node
    requires qs[DelayQueue] == kept + [x] + rest
    modifies Memory(node, lists)
    ensures Spelled(Clocked(qs, kept + rest, qs[ReadyQueue] + [x]), node, lists)
  {
    NotInRest(kept, x, rest);
    WithoutFirst(kept, x, rest);
    TakenOff(who, qs, DelayQueue, x, kept + rest);
    assert qs[DelayQueue][|kept|] == x;
    Unlink(qs, node, lists, DelayQueue, x);
    LinkLast(qs[DelayQueue := kept + rest], node, lists, ReadyQueue, x);
  }

  lemma DueIs(k: Kernel, lost: set<Pid>, kept: seq<Pid>, x: Pid, rest: seq<Pid>)
    requires Filed(k, lost) && k.delayed == kept + [x] + rest && x in k.procs && k.procs[x].ticks == 1
    ensures QueuesOf(TickOne(k, x)) == Clocked(QueuesOf(k), kept + rest, k.ready + [x])
    ensures TickOne(k, x).procs == k.procs[x := Ticked(k.procs[x])]
    ensures TickOne(k, x).delayed == kept + rest && Filed(TickOne(k, x), lost)
  {
    TickDue(k, lost, kept, x, rest);
    SameObjects(k, TickOne(k, x));
  }

  lemma LaterIs(k: Kernel, lost: set<Pid>, x: Pid)
    requires Filed(k, lost) && x in k.delayed && x in k.procs && k.procs[x].ticks != 1
    ensures QueuesOf(TickOne(k, x)) == QueuesOf(k)
    ensures TickOne(k, x).procs == k.procs[x := Ticked(k.procs[x])]
    ensures TickOne(k, x).delayed == k.delayed && Filed(TickOne(k, x), lost)
  {
    TickLater(k, lost, x);
    SameQueues(k, TickOne(k, x));
  }

  lemma OnTheDelayQueue(k: Kernel, lost: set<Pid>, kept: seq<Pid>, x: Pid, rest: seq<Pid>)
    requires Filed(k, lost) && k.delayed == kept + [x] + rest
    ensures x in k.delayed && x in k.procs && k.procs[x].st == DELAYED && k.delayed == kept + [x] + rest
    ensures var qs := QueuesOf(k);
            && Disjoint(k.procs.Keys, qs) && ReadyQueue in qs && qs[ReadyQueue] == k.ready
            && DelayQueue in qs && qs[DelayQueue] == kept + [x] + rest
  {
    LeaveDelay(k, lost, kept, x, rest);
    FiledDisjoint(k, lost);
    assert k.delayed[|kept|] == x;
  }

  /** The links spell out the queues of k, with a node for every process. */
  ghost predicate Spells(k: Kernel, node: map<Pid, Node>, lists: map<QueueId, List>)
    reads *
  {
    node.Keys == k.procs.Keys && Spelled(QueuesOf(k), node, lists)
  }

  /** Who stays behind the walk when it passes the first of rest. */
  ghost function Behind(procs: map<Pid, Proc>, kept: seq<Pid>, x: Pid): seq<Pid>
    requires x in procs
  {
    if procs[x].ticks == 1 then kept else kept + [x]
  }

  /** One round of the walk (pcb.c:266-275), at the node curr of the process x. */
  method PassNode(ghost k: Kernel, ghost lost: set<Pid>, ghost kept: seq<Pid>, ghost x: Pid, ghost rest: seq<Pid>,
                  procs: map<Pid, Proc>, node: map<Pid, Node>, lists: map<QueueId, List>, curr: Node)
      returns (procs': map<Pid, Proc>)
    requires Filed(k, lost) && Spells(k, node, lists) && procs == k.procs
    requires k.delayed == kept + [x] + rest && x in node && curr == node[x]
    modifies Memory(node, lists)
    ensures Spells(TickOne(k, x), node, lists) && procs' == TickOne(k, x).procs && Filed(TickOne(k, x), lost)
    ensures TickOne(k, x).delayed == Behind(k.procs, kept, x) + rest
  {
    var p := PcbFromQueueNode(node)[curr];
    OnTheDelayQueue(k, lost, kept, x, rest);
    if procs[p].ticks - 1 != 0 {
      LaterIs(k, lost, x);
      return procs[p := procs[p].(ticks := procs[p].ticks - 1)];
    }
    ExpireNode(k.procs.Keys, QueuesOf(k), kept, p, rest, node, lists);
    DueIs(k, lost, kept, x, rest);
    return procs[p := procs[p].(ticks := 0, st := READY)];
  }

  /** The walk is at curr: `kept` are behind it and `rest` before it. */
  ghost predicate At(k: Kernel, lost: set<Pid>, node: map<Pid, Node>, lists: map<QueueId, List>, kept: seq<Pid>,
                     rest: seq<Pid>, curr: Node?)
    reads *
  {
    && Filed(k, lost) && Spells(k, node, lists) && k.delayed == kept + rest
    && (forall p <- rest :: p in node) && curr == PlaceIn(node, lists[DelayQueue].head, rest)
  }

  lemma Onwards(kept: seq<Pid>, rest: seq<Pid>)
    requires rest != []
    ensures kept + rest == kept + [rest[0]] + rest[1..]
  {}

  lemma AtNext(k: Kernel, lost: set<Pid>, node: map<Pid, Node>, lists: map<QueueId, List>, kept: seq<Pid>,
               rest: seq<Pid>, next: Node?)
    requires Filed(k, lost) && Spells(k, node, lists) && k.delayed == kept + rest
    requires (forall p <- rest :: p in node) && next == PlaceIn(node, lists[DelayQueue].head, rest)
    ensures At(k, lost, node, lists, kept, rest, next)
  {}

  /** The next node is remembered before list_remove clears the links of this one (pcb.c:266). */
  method WalkOn(ghost k: Kernel, ghost lost: set<Pid>, ghost kept: seq<Pid>, ghost rest: seq<Pid>,
                procs: map<Pid, Proc>, node: map<Pid, Node>, lists: map<QueueId, List>, curr: Node)
      returns (procs': map<Pid, Proc>, next: Node)
    requires At(k, lost, node, lists, kept, rest, curr) && procs == k.procs && rest != []
    modifies Memory(node, lists)
    ensures procs' == TickOne(k, rest[0]).procs
    ensures At(TickOne(k, rest[0]), lost, node, lists, Behind(k.procs, kept, rest[0]), rest[1..], next)
  {
    ghost var x, more := rest[0], rest[1..];
    Onwards(kept, rest);
    NextPlace(QueuesOf(k), node, lists, DelayQueue, kept, x, more);
    next := curr.next;
    procs' := PassNode(k, lost, kept, x, more, procs, node, lists, curr);
    AtNext(TickOne(k, x), lost, node, lists, Behind(k.procs, kept, x), more, next);
  }

  lemma AtFirst(k: Kernel, lost: set<Pid>, node: map<Pid, Node>, lists: map<QueueId, List>)
    requires Filed(k, lost) && Spells(k, node, lists)
    ensures At(k, lost, node, lists, [], k.delayed, lists[DelayQueue].head.next)
  {
    FirstPlace(QueuesOf(k), node, lists, DelayQueue);
    assert [] + k.delayed == k.delayed;
  }

  lemma AtLast(k: Kernel, lost: set<Pid>, node: map<Pid, Node>, lists: map<QueueId, List>, kept: seq<Pid>,
               rest: seq<Pid>, curr: Node?)
    requires At(k, lost, node, lists, kept, rest, curr)
    ensures rest == [] <==> curr == lists[DelayQueue].head
    ensures forall p <- rest :: p in k.procs
  {}

  /** update_delayed_processes (pcb.c:255-279). */
  method UpdateDelayedProcesses(ghost k: Kernel, ghost lost: set<Pid>, procs: map<Pid, Proc>, node: map<Pid, Node>,
                                lists: map<QueueId, List>)
      returns (procs': map<Pid, Proc>)
    requires Filed(k, lost) && Spells(k, node, lists) && procs == k.procs
    modifies Memory(node, lists)
    ensures Spells(UpdateDelayed(k), node, lists) && procs' == UpdateDelayed(k).procs
  {
    procs' := procs;
    var delayQueue := lists[DelayQueue];
    var empty := ListIsEmpty(delayQueue);
    AtFirst(k, lost, node, lists);
    if empty != 0 {
      return;
    }
    var head := delayQueue.head;
    var curr := head.next;
    ghost var k1, kept, rest := k, [], k.delayed;
    while curr != head
      invariant At(k1, lost, node, lists, kept, rest, curr) && procs' == k1.procs
      invariant (forall p <- rest :: p in k1.procs) && TickAll(k1, rest) == UpdateDelayed(k)
      decreases |rest|
    {
      AtLast(k1, lost, node, lists, kept, rest, curr);
      ghost var x := rest[0];
      procs', curr := WalkOn(k1, lost, kept, rest, procs', node, lists, curr);
      kept := Behind(k1.procs, kept, x);
      k1, rest := TickOne(k1, x), rest[1..];
      AtLast(k1, lost, node, lists, kept, rest, curr);
    }
    AtLast(k1, lost, node, lists, kept, rest, curr);
  }

  // ---------------------------------------------------------------- every trap, every run

  /** What the clock trap does after the walk. */
  function EndMoves(requeue: bool, k: Kernel): seq<Move>
    requires Typed(k)
  {
    var (k1, switch) := Clock(requeue, k);
    PreemptMoves(requeue, Charged(k)) + if switch then ScheduleMoves(k1) else []
  }

  lemma EndsOnTheSameLists(requeue: bool, k: Kernel)
    requires Typed(k)
    ensures forall mv <- EndMoves(requeue, k) :: SameLists(mv)
  {}

  lemma EndDoes(g: Guard, requeue: bool, k: Kernel, lost: set<Pid>)
    requires Settled(k, lost)
    ensures Does(k.procs.Keys, QueuesOf(Charged(k)), EndMoves(requeue, k), QueuesOf(Step(g, requeue, k, Tick)))
  {
    var (k1, switch) := Clock(requeue, k);
    var ms := PreemptMoves(requeue, Charged(k));
    PreemptDoes(requeue, k, lost);
    if switch {
      ScheduleDoes(k1);
      DoesBoth(k.procs.Keys, QueuesOf(Charged(k)), ms, QueuesOf(k1), ScheduleMoves(k1), QueuesOf(Schedule(k1)));
    } else {
      assert ms + [] == ms;
    }
  }

  /** Charging the running process for the tick moves nobody. */
  lemma ChargingMovesNobody(k: Kernel)
    requires Typed(k)
    ensures QueuesOf(UpdateDelayed(k)) == QueuesOf(Charged(k)) && UpdateDelayed(k).procs.Keys == k.procs.Keys
  {
    SameQueues(UpdateDelayed(k), Charged(k));
  }

  method WalkAndPlay(ghost k: Kernel, ghost lost: set<Pid>, procs: map<Pid, Proc>, ms: seq<Move>, ghost qs': Queues,
                     node: map<Pid, Node>, lists: map<QueueId, List>)
    requires Filed(k, lost) && Spells(k, node, lists) && procs == k.procs
             && Does(node.Keys, QueuesOf(UpdateDelayed(k)), ms, qs')
    requires forall mv <- ms :: SameLists(mv)
    modifies Memory(node, lists)
    ensures Spelled(qs', node, lists)
  {
    var procs' := UpdateDelayedProcesses(k, lost, procs, node, lists);
    var same := Play(node.Keys, QueuesOf(UpdateDelayed(k)), ms, qs', node, lists);
  }

  /** The clock trap: the walk, then the missing re-enqueue if it is put in, then schedule. */
  method LinkTick(g: Guard, requeue: bool, k: Kernel, ghost lost: set<Pid>, node: map<Pid, Node>,
                  lists: map<QueueId, List>)
    requires Settled(k, lost) && Spells(k, node, lists)
    modifies Memory(node, lists)
    ensures Spelled(QueuesOf(Step(g, requeue, k, Tick)), node, lists)
  {
    ChargingMovesNobody(k);
    EndDoes(g, requeue, k, lost);
    EndsOnTheSameLists(requeue, k);
    WalkAndPlay(k, lost, k.procs, EndMoves(requeue, k), QueuesOf(Step(g, requeue, k, Tick)), node, lists);
  }

  /** A forked child brings its own node, on no list yet. */
  twostate lemma NodeBorn(new qs: Queues, new node: map<Pid, Node>, new lists: map<QueueId, List>, new child: Pid,
                          new n: Node)
    requires old(allocated(lists)) && old(allocated(node)) && old(Spelled(qs, node, lists)) && child !in node
             && fresh(n)
    requires forall m <- lists.Values, o <- old(m.Repr()) :: unchanged(o)
    ensures Spelled(qs, node[child := n], lists)
  {
    forall m <- lists.Values
      ensures m.Valid() && m.Repr() == old(m.Repr()) && m.nodes == old(m.nodes)
    {
      StillValid(m);
    }
    forall q <- lists
      ensures Nodes(lists[q].nodes, node[child := n], qs[q])
    {
      assert lists[q] in lists.Values;
      assert Nodes(lists[q].nodes, node, qs[q]);
    }
  }

  method NewNode(ghost qs: Queues, t: Trap, node: map<Pid, Node>, lists: map<QueueId, List>)
      returns (node': map<Pid, Node>)
    requires Spelled(qs, node, lists) && (t.SysFork? ==> t.child !in node)
    ensures Spelled(qs, node', lists) && fresh(Memory(node', lists) - Memory(node, lists))
    ensures node'.Keys == node.Keys + (if t.SysFork? then {t.child} else {}) && forall p <- node :: node'[p] == node[p]
  {
    node' := node;
    if t.SysFork? {
      var n := new Node();
      NodeBorn(qs, node, lists, t.child, n);
      node' := node[t.child := n];
    }
  }

  method LinkMoves(ghost qs: Queues, t: Trap, ms: seq<Move>, ghost qs': Queues, node: map<Pid, Node>,
                   lists: map<QueueId, List>)
      returns (node': map<Pid, Node>, lists': map<QueueId, List>)
    requires Spelled(qs, node, lists) && (t.SysFork? ==> t.child !in node)
    requires Does(node.Keys + (if t.SysFork? then {t.child} else {}), qs, ms, qs')
    modifies Memory(node, lists)
    ensures Spelled(qs', node', lists') && fresh(Memory(node', lists') - Memory(node, lists))
    ensures node'.Keys == node.Keys + (if t.SysFork? then {t.child} else {}) && forall p <- node :: node'[p] == node[p]
  {
    node' := NewNode(qs, t, node, lists);
    lists' := Play(node'.Keys, qs, ms, qs', node', lists);
  }

  /** Every trap but the clock. */
  method LinkCall(g: Guard, requeue: bool, k: Kernel, ghost lost: set<Pid>, t: Trap, node: map<Pid, Node>,
                  lists: map<QueueId, List>)
      returns (node': map<Pid, Node>, lists': map<QueueId, List>)
    requires Settled(k, lost) && Possible(k, t) && Spells(k, node, lists)
    modifies Memory(node, lists)
    ensures Spelled(QueuesOf(Step(g, requeue, k, t)), node', lists')
            && fresh(Memory(node', lists') - Memory(node, lists))
    ensures node'.Keys == node.Keys + (if t.SysFork? then {t.child} else {}) && forall p <- node :: node'[p] == node[p]
  {
    StepKeepsProcesses(g, requeue, k, t);
    StepDoes(g, requeue, k, lost, t);
    node', lists' := LinkMoves(QueuesOf(k), t, StepMoves(g, requeue, k, t), QueuesOf(Step(g, requeue, k, t)), node,
                               lists);
  }

  /** Every trap, done with the operations of list.c on one node for each process, leaves links that
      spell out the queues the model says, on lists that share nothing. */
  method LinkTrap(g: Guard, requeue: bool, k: Kernel, ghost lost: set<Pid>, t: Trap, node: map<Pid, Node>,
                  lists: map<QueueId, List>)
      returns (node': map<Pid, Node>, lists': map<QueueId, List>)
    requires Settled(k, lost) && Possible(k, t) && Spells(k, node, lists)
    modifies Memory(node, lists)
    ensures Spells(Step(g, requeue, k, t), node', lists') && fresh(Memory(node', lists') - Memory(node, lists))
    ensures forall p <- node :: p in node' && node'[p] == node[p]
  {
    StepKeepsProcesses(g, requeue, k, t);
    if t.Tick? {
      LinkTick(g, requeue, k, lost, node, lists);
      return node, lists;
    } else {
      node', lists' := LinkCall(g, requeue, k, lost, t, node, lists);
    }
  }

  /** The run ts takes k to k'. */
  ghost predicate RunTo(g: Guard, requeue: bool, k: Kernel, lost: set<Pid>, ts: seq<Trap>, k': Kernel) {
    Settled(k, lost) && PossibleRun(g, requeue, k, ts) && Run(g, requeue, k, ts) == k'
  }

  /** It goes on from where its first trap leads. */
  lemma RunOn(g: Guard, requeue: bool, k: Kernel, lost: set<Pid>, ts: seq<Trap>, k': Kernel)
    requires RunTo(g, requeue, k, lost, ts, k') && ts != []
    ensures Settled(k, lost) && Possible(k, ts[0])
    ensures RunTo(g, requeue, Step(g, requeue, k, ts[0]), LostBy(requeue, k, ts[0], lost), ts[1..], k')
  {
    StepSettles(g, requeue, k, ts[0], lost);
  }

  /** And so does every run. */
  method LinkRun(g: Guard, requeue: bool, k: Kernel, ghost lost: set<Pid>, ts: seq<Trap>, ghost k': Kernel,
                 node: map<Pid, Node>, lists: map<QueueId, List>)
      returns (node': map<Pid, Node>, lists': map<QueueId, List>)
    requires RunTo(g, requeue, k, lost, ts, k') && Spells(k, node, lists)
    modifies Memory(node, lists)
    ensures Spells(k', node', lists')
    decreases |ts|
  {
    if ts == [] {
      return node, lists;
    }
    RunOn(g, requeue, k, lost, ts, k');
    var node1, lists1 := LinkTrap(g, requeue, k, lost, ts[0], node, lists);
    node', lists' := LinkRun(g, requeue, Step(g, requeue, k, ts[0]), LostBy(requeue, k, ts[0], lost), ts[1..], k',
                             node1, lists1);
  }

  /** What KernelStart leaves: init is linked on the ready queue, idle nowhere (kernel.c:18-101). */
  method LinkBoot(idle: Pid, init: Pid, frame: int) returns (node: map<Pid, Node>, lists: map<QueueId, List>)
    requires idle != init
    ensures Spells(Boot(idle, init, frame), node, lists)
  {
    node, lists := EmptyQueues(idle, init);
    LinkLast(map[ReadyQueue := [], DelayQueue := []], node, lists, ReadyQueue, init);
    BootQueues(idle, init, frame);
  }

  method EmptyQueues(idle: Pid, init: Pid) returns (node: map<Pid, Node>, lists: map<QueueId, List>)
    ensures Spelled(map[ReadyQueue := [], DelayQueue := []], node, lists) && node.Keys == {idle, init}
            && fresh(Memory(node, lists))
  {
    node := TwoNodes(idle, init);
    lists := map[];
    ghost var none: Queues := map[];
    lists := OpenList(none, node, lists, ReadyQueue);
    lists := OpenList(none[ReadyQueue := []], node, lists, DelayQueue);
    assert none[ReadyQueue := []][DelayQueue := []] == map[ReadyQueue := [], DelayQueue := []];
  }

  method TwoNodes(idle: Pid, init: Pid) returns (node: map<Pid, Node>)
    ensures Spelled(map[], node, map[]) && node.Keys == {idle, init} && fresh(Memory(node, map[]))
  {
    var a := new Node();
    var b := new Node();
    node := map[idle := a, init := b];
  }

  lemma BootQueues(idle: Pid, init: Pid, frame: int)
    requires idle != init
    ensures var qs: Queues := map[ReadyQueue := [], DelayQueue := []]; var k := Boot(idle, init, frame);
            QueuesOf(k) == qs[ReadyQueue := [] + [init]] && k.procs.Keys == {idle, init}
  {
    assert [] + [init] == [init];
  }
}
