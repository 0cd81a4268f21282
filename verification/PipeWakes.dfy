/** Who a pipe operation wakes: everyone who leaves the wait queues, and nobody else. */
module PipeWakes {
  import opened Hardware
  import opened Pipes
  import opened PipeHistory

  function ReaderPids(rs: seq<Reader>): (s: seq<Pid>)
    ensures |s| == |rs|
  {
    seq(|rs|, i requires 0 <= i < |rs| => rs[i].pid)
  }

  function WriterPids(ws: seq<Writer>): (s: seq<Pid>)
    ensures |s| == |ws|
  {
    seq(|ws|, i requires 0 <= i < |ws| => ws[i].pid)
  }

  /** Everyone asleep on the pipe. */
  function Sleepers(p: Pipe): seq<Pid> {
    ReaderPids(p.readers) + WriterPids(p.writers)
  }

  /** The processes a pipe history wakes. */
  function Woke(e: Event): seq<Pid> {
    match e
    case Accepted(_, _) => []
    case Taken(_, _, _) => []
    case Served(pid, _, _) => [pid]
    case Finished(pid, _, _) => [pid]
  }

  function WokenPids(es: seq<Event>): seq<Pid> {
    if es == [] then [] else Woke(es[0]) + WokenPids(es[1..])
  }

  lemma {:induction false} WokenPidsConcat(a: seq<Event>, b: seq<Event>)
    ensures WokenPids(a + b) == WokenPids(a) + WokenPids(b)
  {
    if a == [] {
      assert a + b == b;
    } else {
      assert (a + b)[1..] == a[1..] + b;
      WokenPidsConcat(a[1..], b);
      Assoc(Woke(a[0]), WokenPids(a[1..]), WokenPids(b));
    }
  }

  /** What was added to the history between p and q. */
  function News(p: Pipe, q: Pipe): seq<Event>
    requires |p.log| <= |q.log|
  {
    q.log[|p.log|..]
  }

  /** Between p and q exactly the processes that left the queues were woken. */
  ghost predicate Accounted(p: Pipe, q: Pipe) {
    && p.log <= q.log
    && multiset(Sleepers(p)) == multiset(WokenPids(News(p, q))) + multiset(Sleepers(q))
  }

  lemma AccountedTrans(p: Pipe, q: Pipe, r: Pipe)
    requires Accounted(p, q) && Accounted(q, r)
    ensures Accounted(p, r) && News(p, r) == News(p, q) + News(q, r)
  {
    Suffixes(p.log, q.log, r.log);
    WokenPidsConcat(News(p, q), News(q, r));
  }

  lemma NobodyMoved(p: Pipe, q: Pipe)
    requires p.log <= q.log && WokenPids(News(p, q)) == [] && Sleepers(p) == Sleepers(q)
    ensures Accounted(p, q)
  {}

  lemma ServeHeadAccounted(p: Pipe)
    requires p.readers != []
    ensures Accounted(p, ServeHead(p))
  {
    var q := ServeHead(p);
    assert News(p, q) == [q.log[|p.log|]];
    assert WokenPids(News(p, q)) == [p.readers[0].pid];
    assert Sleepers(p) == [p.readers[0].pid] + Sleepers(q);
  }

  lemma CopiedAccounted(p: Pipe)
    requires p.writers != [] && Sound(p)
    ensures Accounted(p, HeadCopied(p))
  {
    var q := HeadCopied(p);
    assert News(p, q) == [q.log[|p.log|]];
    assert WriterPids(q.writers) == WriterPids(p.writers);
  }

  lemma WokenAccounted(p: Pipe)
    requires p.writers != []
    ensures Accounted(p, Woken(p))
  {
    var q := Woken(p);
    assert News(p, q) == [q.log[|p.log|]];
    assert WriterPids(p.writers) == [p.writers[0].pid] + WriterPids(q.writers);
  }

  lemma FillHeadAccounted(p: Pipe)
    requires p.writers != [] && Sound(p)
    ensures Accounted(p, FillHead(p))
  {
    FillHeadSplits(p);
    CopiedAccounted(p);
    if FillHead(p) != HeadCopied(p) {
      WokenAccounted(HeadCopied(p));
      AccountedTrans(p, HeadCopied(p), FillHead(p));
    }
  }

  lemma {:induction false} ServeReadersAccounted(p: Pipe)
    ensures Accounted(p, ServeReaders(p))
    decreases |p.readers|
  {
    if p.ring == [] || p.readers == [] {
      NobodyMoved(p, p);
    } else {
      ServeHeadAccounted(p);
      ServeReadersAccounted(ServeHead(p));
      AccountedTrans(p, ServeHead(p), ServeReaders(p));
    }
  }

  lemma {:induction false} FillRingAccounted(p: Pipe)
    requires Sound(p)
    ensures Accounted(p, FillRing(p))
    decreases |p.writers|
  {
    if p.writers == [] {
      NobodyMoved(p, p);
    } else {
      FillHeadAccounted(p);
      if |FillHead(p).writers| != |p.writers| {
        FillRingAccounted(FillHead(p));
        AccountedTrans(p, FillHead(p), FillRing(p));
      }
    }
  }

  lemma {:induction false} DrainReadersAccounted(g: Guard, p: Pipe)
    requires Sound(p)
    ensures Accounted(p, DrainReaders(g, p))
    decreases |p.readers|, if p.ring != [] && p.readers != [] then 0 else 2
  {
    ServeReadersAccounted(p);
    ServeReadersSound(p);
    var q := ServeReaders(p);
    if CallsWriterDrain(g, q) {
      DrainWritersAccounted(g, q);
      AccountedTrans(p, q, DrainReaders(g, p));
    }
  }

  lemma {:induction false} DrainWritersAccounted(g: Guard, p: Pipe)
    requires Sound(p)
    ensures Accounted(p, DrainWriters(g, p))
    decreases |p.readers|, 1
  {
    FillRingAccounted(p);
    var q := FillRing(p);
    if q.ring != [] && q.readers != [] {
      DrainReadersAccounted(g, q);
      AccountedTrans(p, q, DrainWriters(g, p));
    }
  }

  /** A read adds its caller to the sleepers when it blocks, and otherwise only wakes writers. */
  lemma ReadAccounted(g: Guard, p: Pipe, pid: Pid, want: nat)
    requires Sound(p)
    ensures var (q, res) := Read(g, p, pid, want);
            && p.log <= q.log
            && multiset(Sleepers(p)) + (if res == ReadBlocked then multiset{pid} else multiset{}) ==
               multiset(WokenPids(News(p, q))) + multiset(Sleepers(q))
            && (res == ReadBlocked ==> q == p.(asks := q.asks, readers := p.readers + [Reader(pid, want)]))
  {
    var q := Read(g, p, pid, want).0;
    if p.ring == [] {
      assert ReaderPids(q.readers) == ReaderPids(p.readers) + [pid];
      assert News(p, q) == [];
    } else {
      var n := Min(want, |p.ring|);
      var t := p.(ring := p.ring[n..], log := p.log + [Taken(pid, want, p.ring[..n])],
                  asks := p.asks + [Reader(pid, want)]);
      assert News(p, t) == [Taken(pid, want, p.ring[..n])];
      NobodyMoved(p, t);
      DrainWritersAccounted(g, t);
      AccountedTrans(p, t, q);
    }
  }

  lemma EnterAccounted(p: Pipe, pid: Pid, msg: seq<Byte>)
    requires Sound(p)
    ensures var q := Enter(p, pid, msg);
            && p.log <= q.log && WokenPids(News(p, q)) == []
            && Sleepers(q) == Sleepers(p) + if WriteBlocks(p, msg) then [pid] else []
  {
    var q := Enter(p, pid, msg);
    assert News(p, q) == [q.log[|p.log|]];
    if WriteBlocks(p, msg) {
      assert WriterPids(q.writers) == WriterPids(p.writers) + [pid];
    }
  }

  /** A write adds its caller to the sleepers when it does not fit, and may wake it at once. */
  lemma WriteAccounted(g: Guard, p: Pipe, pid: Pid, msg: seq<Byte>)
    requires Sound(p)
    ensures var q := Write(g, p, pid, msg);
            && p.log <= q.log
            && multiset(Sleepers(p)) + (if WriteBlocks(p, msg) then multiset{pid} else multiset{}) ==
               multiset(WokenPids(News(p, q))) + multiset(Sleepers(q))
  {
    var e := Enter(p, pid, msg);
    EnterAccounted(p, pid, msg);
    DrainReadersAccounted(g, e);
    var q := Write(g, p, pid, msg);
    Suffixes(p.log, e.log, q.log);
    WokenPidsConcat(News(p, e), News(e, q));
    assert WokenPids(News(p, q)) == WokenPids(News(e, q));
  }
}
