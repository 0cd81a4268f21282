/** The list operations each trap performs, in order, on the queues of the kernel: every one of them
    is legal when it comes -- a process is linked only while it is on no queue -- and together they
    make the queues what the model says. */
module QueueMoves {
  import opened Hardware
  import opened Pipes
  import opened PipeWakes
  import opened Locks
  import opened KernelModel
  import opened KernelInvariant
  import opened KernelSteps
  import opened SyncSteps
  import opened DelaySweep
  import opened KernelDrains

  /** The queues there are: the two global ones, and the ones of each object in the table. */
  datatype QueueId = ReadyQueue | DelayQueue | ReadersOf(id: int) | WritersOf(id: int) | WaitersOf(id: int)

  type Queues = map<QueueId, seq<Pid>>

  /** insert_tail, insert_head, pop, list_remove, list_init, and the end of a list (list.c). */
  datatype Move =
    | Append(q: QueueId, p: Pid)
    | PushHead(q: QueueId, p: Pid)
    | PopHead(q: QueueId)
    | Cut(q: QueueId, p: Pid)
    | Open(q: QueueId)
    | Close(q: QueueId)

  /** p is on no queue. */
  ghost predicate Unqueued(qs: Queues, p: Pid) {
    forall q <- qs :: p !in qs[q]
  }

  /** What the operation needs: above all, that a node to be linked is linked nowhere. */
  ghost predicate Legal(who: set<Pid>, qs: Queues, mv: Move) {
    match mv
    case Append(q, p) => q in qs && p in who && Unqueued(qs, p)
    case PushHead(q, p) => q in qs && p in who && Unqueued(qs, p)
    case PopHead(q) => q in qs && qs[q] != []
    case Cut(q, p) => q in qs && p in qs[q]
    case Open(q) => q !in qs
    case Close(q) => q in qs && qs[q] == []
  }

  ghost function Moved(who: set<Pid>, qs: Queues, mv: Move): Queues
    requires Legal(who, qs, mv)
  {
    match mv
    case Append(q, p) => qs[q := qs[q] + [p]]
    case PushHead(q, p) => qs[q := [p] + qs[q]]
    case PopHead(q) => qs[q := qs[q][1..]]
    case Cut(q, p) => qs[q := Without(qs[q], p)]
    case Open(q) => qs[q := []]
    case Close(q) => qs - {q}
  }

  /** The moves ms are legal one after the other, and make qs into qs'. */
  ghost predicate Does(who: set<Pid>, qs: Queues, ms: seq<Move>, qs': Queues)
    decreases |ms|
  {
    if ms == [] then qs == qs' else Legal(who, qs, ms[0]) && Does(who, Moved(who, qs, ms[0]), ms[1..], qs')
  }

  lemma {:induction false} DoesBoth(who: set<Pid>, qs: Queues, a: seq<Move>, qs1: Queues, b: seq<Move>, qs2: Queues)
    requires Does(who, qs, a, qs1) && Does(who, qs1, b, qs2)
    ensures Does(who, qs, a + b, qs2)
    decreases |a|
  {
    if a == [] {
      assert a + b == b;
    } else {
      DoesBoth(who, Moved(who, qs, a[0]), a[1..], qs1, b, qs2);
      assert (a + b)[0] == a[0] && (a + b)[1..] == a[1..] + b;
    }
  }

  lemma DoesOne(who: set<Pid>, qs: Queues, mv: Move)
    requires Legal(who, qs, mv)
    ensures Does(who, qs, [mv], Moved(who, qs, mv))
  {
    assert [mv][1..] == [];
  }

  lemma DoesTwo(who: set<Pid>, qs: Queues, a: Move, b: Move)
    requires Legal(who, qs, a) && Legal(who, Moved(who, qs, a), b)
    ensures Does(who, qs, [a, b], Moved(who, Moved(who, qs, a), b))
  {
    DoesOne(who, Moved(who, qs, a), b);
    assert [a, b][1..] == [b];
  }

  /** Only processes are on queues, and none on two or twice on one. */
  ghost predicate Disjoint(who: set<Pid>, qs: Queues) {
    && (forall q <- qs :: NoDup(qs[q]) && forall p <- qs[q] :: p in who)
    && forall q <- qs, r <- qs, p <- qs[q] :: p in qs[r] ==> q == r
  }

  /** Taken off the only queue it is on, a process is on none. */
  lemma TakenOff(who: set<Pid>, qs: Queues, q: QueueId, p: Pid, rest: seq<Pid>)
    requires Disjoint(who, qs) && q in qs && multiset(qs[q]) == multiset([p]) + multiset(rest)
    ensures Unqueued(qs[q := rest], p) && Disjoint(who, qs[q := rest])
  {
    Members(qs[q], [p], rest);
    assert p in [p] && p in qs[q];
  }

  lemma PutOn(who: set<Pid>, qs: Queues, q: QueueId, p: Pid, more: seq<Pid>)
    requires Disjoint(who, qs) && q in qs && p in who && Unqueued(qs, p)
             && multiset(more) == multiset(qs[q]) + multiset([p])
    ensures Disjoint(who, qs[q := more])
  {
    Members(more, qs[q], [p]);
  }

  /** The head of a queue, as pop leaves it. */
  lemma HeadOff(s: seq<Pid>)
    requires s != []
    ensures multiset(s) == multiset([s[0]]) + multiset(s[1..])
  {
    assert s == [s[0]] + s[1..];
  }

  ghost function WokenTo(qs: Queues, q: QueueId, rest: seq<Pid>, p: Pid): Queues
    requires ReadyQueue in qs
  {
    qs[q := rest][ReadyQueue := qs[ReadyQueue] + [p]]
  }

  /** pop, then insert_tail on the ready queue. */
  lemma HeadToReady(who: set<Pid>, qs: Queues, q: QueueId)
    requires Disjoint(who, qs) && q in qs && q != ReadyQueue && ReadyQueue in qs && qs[q] != []
    ensures var qs' := WokenTo(qs, q, qs[q][1..], qs[q][0]);
            Does(who, qs, [PopHead(q), Append(ReadyQueue, qs[q][0])], qs') && Disjoint(who, qs')
  {
    var p, qs1 := qs[q][0], qs[q := qs[q][1..]];
    HeadOff(qs[q]);
    TakenOff(who, qs, q, p, qs[q][1..]);
    PutOn(who, qs1, ReadyQueue, p, qs1[ReadyQueue] + [p]);
    DoesTwo(who, qs, PopHead(q), Append(ReadyQueue, p));
  }

  // ---------------------------------------------------------------- pipes

  /** The loop of SyncDrainReaders (sync.c:208, 231). */
  function ServeMoves(id: int, p: Pipe): seq<Move>
    decreases |p.readers|
  {
    if p.ring == [] || p.readers == [] then []
    else [PopHead(ReadersOf(id)), Append(ReadyQueue, p.readers[0].pid)] + ServeMoves(id, ServeHead(p))
  }

  /** The loop of SyncDrainWriters (sync.c:166, 188, 201). */
  function FillMoves(id: int, p: Pipe): seq<Move>
    requires Sound(p)
    decreases |p.writers|
  {
    if p.writers == [] then []
    else
      var q := FillHead(p);
      if |q.writers| == |p.writers| then [PopHead(WritersOf(id)), PushHead(WritersOf(id), p.writers[0].pid)]
      else [PopHead(WritersOf(id)), Append(ReadyQueue, p.writers[0].pid)] + FillMoves(id, q)
  }

  function DrainReadersMoves(g: Guard, id: int, p: Pipe): seq<Move>
    requires Sound(p)
    decreases |p.readers|, if p.ring != [] && p.readers != [] then 0 else 2
  {
    ServeReadersSound(p);
    var q := ServeReaders(p);
    ServeMoves(id, p) + if CallsWriterDrain(g, q) then DrainWritersMoves(g, id, q) else []
  }

  function DrainWritersMoves(g: Guard, id: int, p: Pipe): seq<Move>
    requires Sound(p)
    decreases |p.readers|, 1
  {
    var q := FillRing(p);
    FillMoves(id, p) + if q.ring != [] && q.readers != [] then DrainReadersMoves(g, id, q) else []
  }

  /** The queues of the pipe called id are those of p. */
  ghost predicate ShowsPipeQueues(qs: Queues, id: int, p: Pipe) {
    && ReadersOf(id) in qs && qs[ReadersOf(id)] == ReaderPids(p.readers)
    && WritersOf(id) in qs && qs[WritersOf(id)] == WriterPids(p.writers)
    && ReadyQueue in qs
  }

  /** The pipe's queues are now those of q, and these processes are ready. */
  ghost function QueuesDrained(qs: Queues, id: int, q: Pipe, woken: seq<Pid>): Queues
    requires ReadyQueue in qs
  {
    qs[ReadersOf(id) := ReaderPids(q.readers)][WritersOf(id) := WriterPids(q.writers)][ReadyQueue := qs[ReadyQueue]
        + woken]
  }

  /** From p to q the moves drain the pipe and wake exactly those the history says. */
  ghost predicate DrainsBy(who: set<Pid>, qs: Queues, ms: seq<Move>, id: int, p: Pipe, q: Pipe) {
    && ReadyQueue in qs && p.log <= q.log
    && Does(who, qs, ms, QueuesDrained(qs, id, q, WokenPids(News(p, q))))
    && Disjoint(who, QueuesDrained(qs, id, q, WokenPids(News(p, q))))
  }

  lemma DrainsNothing(who: set<Pid>, qs: Queues, id: int, p: Pipe)
    requires Disjoint(who, qs) && ShowsPipeQueues(qs, id, p)
    ensures DrainsBy(who, qs, [], id, p, p)
  {
    assert News(p, p) == [] && qs[ReadyQueue] + [] == qs[ReadyQueue];
    assert QueuesDrained(qs, id, p, []) == qs;
  }

  lemma DrainedTwice(qs: Queues, id: int, q: Pipe, r: Pipe, woken: seq<Pid>, more: seq<Pid>)
    requires ReadyQueue in qs
    ensures QueuesDrained(QueuesDrained(qs, id, q, woken), id, r, more) == QueuesDrained(qs, id, r, woken + more)
  {
    Assoc(qs[ReadyQueue], woken, more);
  }

  lemma DrainsTwice(who: set<Pid>, qs: Queues, a: seq<Move>, b: seq<Move>, id: int, p: Pipe, q: Pipe, r: Pipe)
    requires DrainsBy(who, qs, a, id, p, q)
    requires DrainsBy(who, QueuesDrained(qs, id, q, WokenPids(News(p, q))), b, id, q, r)
    ensures DrainsBy(who, qs, a + b, id, p, r)
  {
    var woken, more := WokenPids(News(p, q)), WokenPids(News(q, r));
    var qs1 := QueuesDrained(qs, id, q, woken);
    Suffixes(p.log, q.log, r.log);
    assert News(p, r) == News(p, q) + News(q, r);
    WokenPidsConcat(News(p, q), News(q, r));
    DrainedTwice(qs, id, q, r, woken, more);
    DoesBoth(who, qs, a, qs1, b, QueuesDrained(qs1, id, r, more));
  }

  lemma ServeHeadDoes(who: set<Pid>, qs: Queues, id: int, p: Pipe)
    requires Disjoint(who, qs) && ShowsPipeQueues(qs, id, p) && p.readers != []
    ensures DrainsBy(who, qs, [PopHead(ReadersOf(id)), Append(ReadyQueue, p.readers[0].pid)], id, p, ServeHead(p))
  {
    var q := ServeHead(p);
    HeadToReady(who, qs, ReadersOf(id));
    assert News(p, q) == [q.log[|p.log|]];
    assert WokenPids(News(p, q)) == [p.readers[0].pid];
    assert ReaderPids(q.readers) == ReaderPids(p.readers)[1..];
    assert WokenTo(qs, ReadersOf(id), ReaderPids(q.readers), p.readers[0].pid)
           == QueuesDrained(qs, id, q, [p.readers[0].pid]);
  }

  lemma {:induction false} ServeDoes(who: set<Pid>, qs: Queues, id: int, p: Pipe)
    requires Disjoint(who, qs) && ShowsPipeQueues(qs, id, p)
    ensures DrainsBy(who, qs, ServeMoves(id, p), id, p, ServeReaders(p))
    decreases |p.readers|
  {
    if p.ring == [] || p.readers == [] {
      DrainsNothing(who, qs, id, p);
    } else {
      var h, a := ServeHead(p), [PopHead(ReadersOf(id)), Append(ReadyQueue, p.readers[0].pid)];
      ServeHeadDoes(who, qs, id, p);
      ServeDoes(who, QueuesDrained(qs, id, h, WokenPids(News(p, h))), id, h);
      DrainsTwice(who, qs, a, ServeMoves(id, h), id, p, h, ServeReaders(h));
    }
  }

  /** A writer that is not done goes back to the head it came from. */
  lemma HeadBack(who: set<Pid>, qs: Queues, q: QueueId)
    requires Disjoint(who, qs) && q in qs && qs[q] != []
    ensures Does(who, qs, [PopHead(q), PushHead(q, qs[q][0])], qs)
  {
    var p, qs1 := qs[q][0], qs[q := qs[q][1..]];
    HeadOff(qs[q]);
    TakenOff(who, qs, q, p, qs[q][1..]);
    DoesTwo(who, qs, PopHead(q), PushHead(q, p));
    assert [p] + qs[q][1..] == qs[q];
    assert Moved(who, qs1, PushHead(q, p)) == qs;
  }

  lemma FillHeadStays(who: set<Pid>, qs: Queues, id: int, p: Pipe)
    requires Disjoint(who, qs) && ShowsPipeQueues(qs, id, p) && Sound(p) && p.writers != []
             && |FillHead(p).writers| == |p.writers|
    ensures DrainsBy(who, qs, [PopHead(WritersOf(id)), PushHead(WritersOf(id), p.writers[0].pid)], id, p, FillHead(p))
  {
    var q := FillHead(p);
    HeadBack(who, qs, WritersOf(id));
    assert News(p, q) == [q.log[|p.log|]] && WokenPids(News(p, q)) == [];
    assert WriterPids(q.writers) == WriterPids(p.writers);
    assert qs[ReadyQueue] + [] == qs[ReadyQueue];
    assert QueuesDrained(qs, id, q, []) == qs;
  }

  lemma FillHeadWakes(who: set<Pid>, qs: Queues, id: int, p: Pipe)
    requires Disjoint(who, qs) && ShowsPipeQueues(qs, id, p) && Sound(p) && p.writers != []
             && |FillHead(p).writers| != |p.writers|
    ensures DrainsBy(who, qs, [PopHead(WritersOf(id)), Append(ReadyQueue, p.writers[0].pid)], id, p, FillHead(p))
  {
    var q := FillHead(p);
    HeadToReady(who, qs, WritersOf(id));
    assert News(p, q) == [q.log[|p.log|]] + [q.log[|p.log| + 1]];
    WokenPidsConcat([q.log[|p.log|]], [q.log[|p.log| + 1]]);
    assert WokenPids(News(p, q)) == [p.writers[0].pid];
    assert WriterPids(q.writers) == WriterPids(p.writers)[1..];
    assert WokenTo(qs, WritersOf(id), WriterPids(q.writers), p.writers[0].pid)
           == QueuesDrained(qs, id, q, [p.writers[0].pid]);
  }

  lemma {:induction false} FillDoes(who: set<Pid>, qs: Queues, id: int, p: Pipe)
    requires Disjoint(who, qs) && ShowsPipeQueues(qs, id, p) && Sound(p)
    ensures DrainsBy(who, qs, FillMoves(id, p), id, p, FillRing(p))
    decreases |p.writers|
  {
    if p.writers == [] {
      DrainsNothing(who, qs, id, p);
    } else {
      var h := FillHead(p);
      if |h.writers| == |p.writers| {
        FillHeadStays(who, qs, id, p);
      } else {
        var a := [PopHead(WritersOf(id)), Append(ReadyQueue, p.writers[0].pid)];
        FillHeadWakes(who, qs, id, p);
        FillDoes(who, QueuesDrained(qs, id, h, WokenPids(News(p, h))), id, h);
        DrainsTwice(who, qs, a, FillMoves(id, h), id, p, h, FillRing(h));
      }
    }
  }

  lemma {:induction false} DrainReadersDoes(who: set<Pid>, g: Guard, qs: Queues, id: int, p: Pipe)
    requires Disjoint(who, qs) && ShowsPipeQueues(qs, id, p) && Sound(p)
    ensures DrainsBy(who, qs, DrainReadersMoves(g, id, p), id, p, DrainReaders(g, p))
    decreases |p.readers|, if p.ring != [] && p.readers != [] then 0 else 2
  {
    ServeDoes(who, qs, id, p);
    ReadersInStages(g, p);
    var q, a := ServeReaders(p), ServeMoves(id, p);
    if CallsWriterDrain(g, q) {
      DrainWritersDoes(who, g, QueuesDrained(qs, id, q, WokenPids(News(p, q))), id, q);
      DrainsTwice(who, qs, a, DrainWritersMoves(g, id, q), id, p, q, DrainWriters(g, q));
    } else {
      assert a + [] == a;
    }
  }

  lemma DrainWritersDoes(who: set<Pid>, g: Guard, qs: Queues, id: int, p: Pipe)
    requires Disjoint(who, qs) && ShowsPipeQueues(qs, id, p) && Sound(p)
    ensures DrainsBy(who, qs, DrainWritersMoves(g, id, p), id, p, DrainWriters(g, p))
    decreases |p.readers|, 1
  {
    FillDoes(who, qs, id, p);
    WritersInStages(g, p);
    var q, a := FillRing(p), FillMoves(id, p);
    if q.ring != [] && q.readers != [] {
      DrainReadersDoes(who, g, QueuesDrained(qs, id, q, WokenPids(News(p, q))), id, q);
      DrainsTwice(who, qs, a, DrainReadersMoves(g, id, q), id, p, q, DrainReaders(g, q));
    } else {
      assert a + [] == a;
    }
  }
}
