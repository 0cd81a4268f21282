/** What becomes of a writer: whether its own call already completes it, told from the state before
    the call, and that a queued writer is woken with the length of its message and not before. */
module PipeOutcomes {
  import opened Hardware
  import opened Pipes
  import opened PipeHistory
  import opened PipeTheorems
  import opened PipeWakes

  // ---------------------------------------------------------------- how much is left after a drain

  /** Bytes the queued writers have still to write. */
  function ToCome(ws: seq<Writer>): nat
    requires forall i :: 0 <= i < |ws| ==> ws[i].loc <= |ws[i].msg|
  {
    if ws == [] then 0 else |ws[0].msg| - ws[0].loc + ToCome(ws[1..])
  }

  /** Requests for `wants` bytes meet a ring of `have` bytes and writers with `rest` more: how many of
      these are still to come when the drain stops?  The ring is refilled when the requests have
      emptied it, and, with the guard that was meant, once more when the requests have run out. */
  function LeftOver(g: Guard, wants: seq<nat>, have: nat, rest: nat): (left: nat)
    requires have <= PIPE_BUFFER_LEN
    ensures left <= rest
    decreases |wants|, if have > 0 && wants != [] then 0 else 1
  {
    if have > 0 && wants != [] then LeftOver(g, wants[1..], have - Min(wants[0], have), rest)
    else if have < PIPE_BUFFER_LEN && (if g == ReadersCount then wants != [] else rest > 0) then
      var n := Min(PIPE_BUFFER_LEN - have, rest);
      if have + n > 0 && wants != [] then LeftOver(g, wants, have + n, rest - n) else rest - n
    else rest
  }

  /** Does a write that does not fit complete within its own call? */
  predicate OwnCallCompletes(g: Guard, p: Pipe, msg: seq<Byte>)
    requires Sound(p)
  {
    WriteBlocks(p, msg)
        && LeftOver(g, Wants(p.readers), PIPE_BUFFER_LEN, ToCome(p.writers) + |p.ring| + |msg| - PIPE_BUFFER_LEN) == 0
  }

  /** q comes from p by serving: no reader is new, the last writer is the last writer still. */
  ghost predicate Follows(p: Pipe, q: Pipe) {
    && Sound(q) && Unfinished(q.writers)
    && (forall r <- q.readers :: r in p.readers)
    && (q.writers != [] ==> p.writers != [] && q.writers[|q.writers| - 1].pid == p.writers[|p.writers| - 1].pid)
  }

  lemma FollowsTrans(p: Pipe, q: Pipe, r: Pipe)
    requires Follows(p, q) && Follows(q, r)
    ensures Follows(p, r)
  {}

  lemma NothingToCome(ws: seq<Writer>)
    requires Unfinished(ws)
    ensures ToCome(ws) == 0 <==> ws == []
  {}

  lemma FillHeadCounts(p: Pipe)
    requires Sound(p) && Unfinished(p.writers) && p.writers != []
    ensures var q := FillHead(p); var n := Min(PIPE_BUFFER_LEN - |p.ring|, |p.writers[0].msg| - p.writers[0].loc);
            && Follows(p, q) && q.readers == p.readers
            && |q.ring| == |p.ring| + n && ToCome(q.writers) == ToCome(p.writers) - n
            && (|q.writers| == |p.writers| ==> |q.ring| == PIPE_BUFFER_LEN)
  {
    var q := FillHead(p);
    if |q.writers| == |p.writers| {
      assert q.writers[1..] == p.writers[1..];
    } else {
      assert q.writers == p.writers[1..];
    }
  }

  /** The writer drain's loop tops the ring up with what is to come. */
  lemma {:induction false} FillRingCounts(p: Pipe)
    requires Sound(p) && Unfinished(p.writers)
    ensures var q := FillRing(p); var n := Min(PIPE_BUFFER_LEN - |p.ring|, ToCome(p.writers));
            Follows(p, q) && |q.ring| == |p.ring| + n && ToCome(q.writers) == ToCome(p.writers) - n
    decreases |p.writers|
  {
    if p.writers != [] {
      var h := FillHead(p);
      FillHeadCounts(p);
      if |h.writers| != |p.writers| {
        FillRingCounts(h);
        FollowsTrans(p, h, FillRing(h));
      }
    }
  }

  lemma ServeHeadCounts(p: Pipe)
    requires Sound(p) && Unfinished(p.writers) && p.readers != []
    ensures var q := ServeHead(p);
            && Follows(p, q) && |q.ring| == |p.ring| - Min(p.readers[0].want, |p.ring|)
            && q.writers == p.writers && Wants(q.readers) == Wants(p.readers)[1..]
  {}

  /** A drain leaves to come what the numbers say. */
  ghost predicate LeavesAsCounted(g: Guard, p: Pipe, q: Pipe)
    requires Sound(p)
  {
    Follows(p, q) && ToCome(q.writers) == LeftOver(g, Wants(p.readers), |p.ring|, ToCome(p.writers))
  }

  lemma {:induction false} DrainLeaves(g: Guard, p: Pipe)
    requires Sound(p) && Unfinished(p.writers)
    ensures LeavesAsCounted(g, p, DrainReaders(g, p))
    decreases |p.readers|, if p.ring != [] && p.readers != [] then 0 else 2
  {
    if p.ring != [] && p.readers != [] {
      var h := ServeHead(p);
      ServeHeadCounts(p);
      DrainLeaves(g, h);
      ServeOneFirst(p);
      FollowsTrans(p, h, DrainReaders(g, h));
    } else {
      assert ServeReaders(p) == p;
      NothingToCome(p.writers);
      if CallsWriterDrain(g, p) { RefillLeaves(g, p); }
    }
  }

  lemma RefillLeaves(g: Guard, p: Pipe)
    requires Sound(p) && Unfinished(p.writers) && (p.ring == [] || p.readers == []) && CallsWriterDrain(g, p)
    ensures DrainReaders(g, p) == DrainWriters(g, p) && LeavesAsCounted(g, p, DrainWriters(g, p))
    decreases |p.readers|, 1
  {
    assert ServeReaders(p) == p;
    var q := FillRing(p);
    FillRingCounts(p);
    NothingToCome(p.writers);
    if q.ring != [] && q.readers != [] {
      DrainLeaves(g, q);
      FollowsTrans(p, q, DrainReaders(g, q));
    }
  }

  lemma {:induction false} ToComeSnoc(ws: seq<Writer>, w: Writer)
    requires (forall i :: 0 <= i < |ws| ==> ws[i].loc <= |ws[i].msg|) && w.loc <= |w.msg|
    ensures ToCome(ws + [w]) == ToCome(ws) + |w.msg| - w.loc
  {
    if ws == [] {
      assert [w][1..] == [];
    } else {
      assert (ws + [w])[1..] == ws[1..] + [w];
      ToComeSnoc(ws[1..], w);
    }
  }

  /** Exactly when a writer whose message does not fit is still asleep after its own call: when the
      numbers before the call leave bytes to come. */
  lemma OwnCallCompletesExactly(g: Guard, p: Pipe, pid: Pid, msg: seq<Byte>)
    requires Sound(p) && Unfinished(p.writers) && WriteBlocks(p, msg) && pid !in Sleepers(p)
    ensures pid in Sleepers(Write(g, p, pid, msg)) <==> !OwnCallCompletes(g, p, msg)
  {
    var e, q := Enter(p, pid, msg), Write(g, p, pid, msg);
    var w := e.writers[|p.writers|];
    ToComeSnoc(p.writers, w);
    DrainLeaves(g, e);
    NothingToCome(q.writers);
    if q.writers == [] {
      NoReaderAnew(p, q, pid);
    } else {
      assert Sleepers(q)[|q.readers| + |q.writers| - 1] == pid;
    }
  }

  lemma NoReaderAnew(p: Pipe, q: Pipe, pid: Pid)
    requires pid !in Sleepers(p) && q.writers == [] && forall r <- q.readers :: r in p.readers
    ensures pid !in Sleepers(q)
  {
    forall i | 0 <= i < |q.readers|
      ensures q.readers[i].pid != pid
    {
      assert q.readers[i] in q.readers;
      var j :| 0 <= j < |p.readers| && p.readers[j] == q.readers[i];
      assert Sleepers(p)[j] == p.readers[j].pid;
    }
  }

  // ---------------------------------------------------------------- the fate of a queued writer

  ghost predicate StillQueued(q: Pipe, w: Writer) {
    exists v <- q.writers :: v.pid == w.pid && v.call == w.call && v.msg == w.msg
  }

  function Completion(w: Writer): Event {
    Finished(w.pid, w.call, |w.msg|)
  }

  /** Every writer queued in p is queued in q, or has been woken with the length of its message. */
  ghost predicate Fated(p: Pipe, q: Pipe) {
    p.log <= q.log && forall w <- p.writers :: StillQueued(q, w) || Completion(w) in News(p, q)
  }

  lemma FatedTrans(p: Pipe, q: Pipe, r: Pipe)
    requires Fated(p, q) && Fated(q, r)
    ensures Fated(p, r)
  {
    Suffixes(p.log, q.log, r.log);
    assert News(p, r) == News(p, q) + News(q, r);
    forall w <- p.writers
      ensures StillQueued(r, w) || Completion(w) in News(p, r)
    {
      if StillQueued(q, w) {
        var v :| v in q.writers && v.pid == w.pid && v.call == w.call && v.msg == w.msg;
        assert StillQueued(r, v) || Completion(v) in News(q, r);
      }
    }
  }

  /** Writers that stay, or go to the end of a longer queue. */
  lemma NobodyFinished(p: Pipe, q: Pipe)
    requires p.log <= q.log && p.writers <= q.writers
    ensures Fated(p, q)
  {
    forall w <- p.writers
      ensures StillQueued(q, w)
    {
      assert w in q.writers;
    }
  }

  lemma FillHeadFated(p: Pipe)
    requires Sound(p) && p.writers != []
    ensures Fated(p, FillHead(p))
  {
    var q := FillHead(p);
    assert p.log <= q.log;
    forall w <- p.writers
      ensures StillQueued(q, w) || Completion(w) in News(p, q)
    {
      var i :| 0 <= i < |p.writers| && p.writers[i] == w;
      if i == 0 && |q.writers| == |p.writers| {
        assert q.writers[0] in q.writers;
      } else if i == 0 {
        assert q.log[|q.log| - 1] == Completion(w) && q.log[|q.log| - 1] in News(p, q);
      } else {
        assert w in p.writers[1..];
        assert w in q.writers;
      }
    }
  }

  lemma {:induction false} FillRingFated(p: Pipe)
    requires Sound(p)
    ensures Fated(p, FillRing(p))
    decreases |p.writers|
  {
    if p.writers == [] {
      NobodyFinished(p, p);
    } else {
      FillHeadFated(p);
      if |FillHead(p).writers| != |p.writers| {
        FillRingFated(FillHead(p));
        FatedTrans(p, FillHead(p), FillRing(p));
      }
    }
  }

  lemma {:induction false} ServeReadersFated(p: Pipe)
    ensures Fated(p, ServeReaders(p)) && ServeReaders(p).writers == p.writers
    decreases |p.readers|
  {
    if p.ring != [] && p.readers != [] {
      ServeReadersFated(ServeHead(p));
      Suffixes(p.log, ServeHead(p).log, ServeReaders(p).log);
    }
    NobodyFinished(p, ServeReaders(p));
  }

  lemma {:induction false} DrainReadersFated(g: Guard, p: Pipe)
    requires Sound(p)
    ensures Fated(p, DrainReaders(g, p))
    decreases |p.readers|, if p.ring != [] && p.readers != [] then 0 else 2
  {
    ServeReadersFated(p);
    ReadersInStages(g, p);
    var q := ServeReaders(p);
    if CallsWriterDrain(g, q) {
      DrainWritersFated(g, q);
      FatedTrans(p, q, DrainReaders(g, p));
    }
  }

  lemma {:induction false} DrainWritersFated(g: Guard, p: Pipe)
    requires Sound(p)
    ensures Fated(p, DrainWriters(g, p))
    decreases |p.readers|, 1
  {
    FillRingFated(p);
    WritersInStages(g, p);
    var q := FillRing(p);
    if q.ring != [] && q.readers != [] {
      DrainReadersFated(g, q);
      FatedTrans(p, q, DrainWriters(g, p));
    }
  }

  /** A read leaves every queued writer queued, or wakes it with the length of its message. */
  lemma ReadFated(g: Guard, p: Pipe, pid: Pid, want: nat)
    requires Sound(p)
    ensures Fated(p, Read(g, p, pid, want).0)
  {
    var q := Read(g, p, pid, want).0;
    if p.ring == [] {
      NobodyFinished(p, q);
    } else {
      var n := Min(want, |p.ring|);
      var t := p.(ring := p.ring[n..], log := p.log + [Taken(pid, want, p.ring[..n])],
                  asks := p.asks + [Reader(pid, want)]);
      NobodyFinished(p, t);
      DrainWritersFated(g, t);
      FatedTrans(p, t, q);
    }
  }

  /** So does a write. */
  lemma WriteFated(g: Guard, p: Pipe, pid: Pid, msg: seq<Byte>)
    requires Sound(p)
    ensures Fated(p, Write(g, p, pid, msg))
  {
    var e := Enter(p, pid, msg);
    NobodyFinished(p, e);
    DrainReadersFated(g, e);
    FatedTrans(p, e, Write(g, p, pid, msg));
  }

  /** And a write of one's own that does not fit: queued, or already woken with its length. */
  lemma OwnFate(g: Guard, p: Pipe, pid: Pid, msg: seq<Byte>)
    requires Sound(p) && WriteBlocks(p, msg)
    ensures var q := Write(g, p, pid, msg);
            p.log <= q.log
                && ((exists v <- q.writers :: v.pid == pid && v.msg == msg)
                    || Finished(pid, |p.calls|, |msg|) in News(p, q))
  {
    var e, q := Enter(p, pid, msg), Write(g, p, pid, msg);
    DrainReadersFated(g, e);
    var w := e.writers[|p.writers|];
    assert w in e.writers;
    Suffixes(p.log, e.log, q.log);
    if StillQueued(q, w) {
      var v :| v in q.writers && v.pid == w.pid && v.call == w.call && v.msg == w.msg;
    }
  }

  // ---------------------------------------------------------------- the fate of a queued reader

  /** The event hands the reader some bytes, at most as many as it asked for. */
  ghost predicate ServedAt(e: Event, r: Reader) {
    e.Served? && e.pid == r.pid && e.want == r.want && |e.bytes| <= r.want
  }

  ghost predicate ServedIn(es: seq<Event>, r: Reader) {
    exists i :: 0 <= i < |es| && ServedAt(es[i], r)
  }

  /** Every reader queued in p is queued in q, or has been served. */
  ghost predicate ReadersFated(p: Pipe, q: Pipe) {
    p.log <= q.log && forall r <- p.readers :: r in q.readers || ServedIn(News(p, q), r)
  }

  lemma ServedSooner(a: seq<Event>, b: seq<Event>, r: Reader)
    requires ServedIn(a, r) || ServedIn(b, r)
    ensures ServedIn(a + b, r)
  {
    if ServedIn(a, r) {
      var i :| 0 <= i < |a| && ServedAt(a[i], r);
      assert (a + b)[i] == a[i];
    } else {
      var i :| 0 <= i < |b| && ServedAt(b[i], r);
      assert (a + b)[|a| + i] == b[i];
    }
  }

  lemma ReadersFatedTrans(p: Pipe, q: Pipe, r: Pipe)
    requires ReadersFated(p, q) && ReadersFated(q, r)
    ensures ReadersFated(p, r)
  {
    Suffixes(p.log, q.log, r.log);
    assert News(p, r) == News(p, q) + News(q, r);
    forall x <- p.readers
      ensures x in r.readers || ServedIn(News(p, r), x)
    {
      if x !in r.readers { ServedSooner(News(p, q), News(q, r), x); }
    }
  }

  lemma NobodyServed(p: Pipe, q: Pipe)
    requires p.log <= q.log && p.readers <= q.readers
    ensures ReadersFated(p, q)
  {}

  lemma ServeHeadReaders(p: Pipe)
    requires p.readers != []
    ensures ReadersFated(p, ServeHead(p))
  {
    var q := ServeHead(p);
    assert News(p, q) == [q.log[|p.log|]];
    assert ServedAt(News(p, q)[0], p.readers[0]);
    forall r <- p.readers
      ensures r in q.readers || ServedIn(News(p, q), r)
    {
      if r != p.readers[0] { assert r in p.readers[1..]; }
    }
  }

  lemma {:induction false} ServeReadersReaders(p: Pipe)
    ensures ReadersFated(p, ServeReaders(p))
    decreases |p.readers|
  {
    if p.ring == [] || p.readers == [] {
      NobodyServed(p, p);
    } else {
      ServeHeadReaders(p);
      ServeReadersReaders(ServeHead(p));
      ReadersFatedTrans(p, ServeHead(p), ServeReaders(p));
    }
  }

  lemma FillRingReaders(p: Pipe)
    requires Sound(p)
    ensures ReadersFated(p, FillRing(p))
  {
    FillRingFated(p);
    NobodyServed(p, FillRing(p));
  }

  lemma {:induction false} DrainReadersReaders(g: Guard, p: Pipe)
    requires Sound(p)
    ensures ReadersFated(p, DrainReaders(g, p))
    decreases |p.readers|, if p.ring != [] && p.readers != [] then 0 else 2
  {
    ServeReadersReaders(p);
    ReadersInStages(g, p);
    var q := ServeReaders(p);
    if CallsWriterDrain(g, q) {
      DrainWritersReaders(g, q);
      ReadersFatedTrans(p, q, DrainReaders(g, p));
    }
  }

  lemma DrainWritersReaders(g: Guard, p: Pipe)
    requires Sound(p)
    ensures ReadersFated(p, DrainWriters(g, p))
    decreases |p.readers|, 1
  {
    FillRingReaders(p);
    WritersInStages(g, p);
    var q := FillRing(p);
    if q.ring != [] && q.readers != [] {
      DrainReadersReaders(g, q);
      ReadersFatedTrans(p, q, DrainWriters(g, p));
    }
  }

  /** A read leaves every queued reader queued, or serves it. */
  lemma ReadServes(g: Guard, p: Pipe, pid: Pid, want: nat)
    requires Sound(p)
    ensures ReadersFated(p, Read(g, p, pid, want).0)
  {
    var q := Read(g, p, pid, want).0;
    if p.ring == [] {
      NobodyServed(p, q);
    } else {
      var n := Min(want, |p.ring|);
      var t := p.(ring := p.ring[n..], log := p.log + [Taken(pid, want, p.ring[..n])],
                  asks := p.asks + [Reader(pid, want)]);
      NobodyServed(p, t);
      DrainWritersReaders(g, t);
      ReadersFatedTrans(p, t, q);
    }
  }

  /** So does a write. */
  lemma WriteServes(g: Guard, p: Pipe, pid: Pid, msg: seq<Byte>)
    requires Sound(p)
    ensures ReadersFated(p, Write(g, p, pid, msg))
  {
    var e := Enter(p, pid, msg);
    NobodyServed(p, e);
    DrainReadersReaders(g, e);
    ReadersFatedTrans(p, e, Write(g, p, pid, msg));
  }

  // ---------------------------------------------------------------- what a read gets

  /** A read gets the first bytes that are in the ring, as many as it asked for if there are so many, and
      they are the ones the history says it took; it waits exactly when there are none
      (sync.c:131-155). */
  lemma ReadAnswers(g: Guard, p: Pipe, pid: Pid, want: nat)
    requires Sound(p)
    ensures var (q, res) := Read(g, p, pid, want);
            && (res.ReadBlocked? <==> p.ring == [])
            && (res.ReadBlocked? ==>
                q.readers == p.readers + [Reader(pid, want)] && q.writers == p.writers && q.ring == [])
            && (res.Got? ==>
                  && res.bytes <= p.ring && |res.bytes| == Min(want, |p.ring|)
                  && p.log <= q.log && News(p, q) != [] && News(p, q)[0] == Taken(pid, want, res.bytes))
  {
    var (q, res) := Read(g, p, pid, want);
    if p.ring != [] {
      var n := Min(want, |p.ring|);
      var t := p.(ring := p.ring[n..], log := p.log + [Taken(pid, want, p.ring[..n])],
                  asks := p.asks + [Reader(pid, want)]);
      DrainWritersReaders(g, t);
      Suffixes(p.log, t.log, q.log);
      assert q.log[|p.log|] == t.log[|p.log|];
    }
  }
}
