/** What holds of a pipe in every run, and exactly when the guard of sync.c:211 and 236, as
    written, leaves a writer asleep beside free room. */
module PipeTheorems {
  import opened Hardware
  import opened Pipes
  import opened PipeHistory

  // ---------------------------------------------------------------- what a drain keeps

  /** Everything that was ever written, wherever it is now. */
  ghost function Pool(p: Pipe): seq<Byte>
    requires Sound(p)
  {
    Outs(p.log) + p.ring + Rest(p.writers)
  }

  /** q is p after some part of a drain. */
  ghost predicate Drained(p: Pipe, q: Pipe)
    requires Sound(p)
  {
    && Sound(q)
    && (Books(p) ==> Books(q))
    && (Unfinished(p.writers) ==> Unfinished(q.writers))
    && Pool(q) == Pool(p)
    && q.calls == p.calls
    && q.asks == p.asks
  }

  lemma ServeHeadDrains(p: Pipe)
    requires Sound(p) && p.readers != [] && p.ring != []
    ensures Drained(p, ServeHead(p))
  {
    var e := ServeHead(p).log[|p.log|];
    Snoc(p.log, e);
    MoveSlice(Outs(p.log), p.ring, |e.bytes|);
    if Books(p) {
      ServeHeadKeeps(p);
    }
  }

  lemma CutAt<T>(s: seq<T>, i: nat, j: nat)
    requires i <= j <= |s|
    ensures s[i..] == s[i..j] + s[j..]
  {}

  lemma Regroup<T>(o: seq<T>, r: seq<T>, piece: seq<T>, rest: seq<T>, tail: seq<T>)
    ensures o + (r + piece) + (rest + tail) == o + r + (piece + rest + tail)
  {
    Assoc(o, r, piece);
    Assoc(o + r, piece, rest + tail);
    Assoc(piece, rest, tail);
  }

  lemma CopiedParts(p: Pipe) returns (piece: seq<Byte>, rest: seq<Byte>, tail: seq<Byte>)
    requires Sound(p) && p.writers != []
    ensures var q := HeadCopied(p);
            && Outs(q.log) == Outs(p.log) && q.ring == p.ring + piece
            && Rest(q.writers) == rest + tail && Rest(p.writers) == piece + rest + tail
  {
    var w, q := p.writers[0], HeadCopied(p);
    var end := q.writers[0].loc;
    piece, rest, tail := q.log[|p.log|].bytes, w.msg[end..], Rest(p.writers[1..]);
    Snoc(p.log, q.log[|p.log|]);
    assert q.writers[1..] == p.writers[1..];
    CutAt(w.msg, w.loc, end);
  }

  lemma CopiedPool(p: Pipe)
    requires Sound(p) && p.writers != []
    ensures Pool(HeadCopied(p)) == Pool(p)
  {
    var piece, rest, tail := CopiedParts(p);
    Regroup(Outs(p.log), p.ring, piece, rest, tail);
  }

  lemma WokenPool(p: Pipe)
    requires Sound(p) && p.writers != [] && p.writers[0].loc == |p.writers[0].msg|
    ensures Pool(Woken(p)) == Pool(p)
  {
    Snoc(p.log, Woken(p).log[|p.log|]);
    assert Rest(p.writers) == Rest(p.writers[1..]);
  }

  lemma FillHeadDrains(p: Pipe)
    requires Sound(p) && p.writers != []
    ensures Drained(p, FillHead(p))
  {
    FillHeadSplits(p);
    CopiedPool(p);
    var c := HeadCopied(p);
    if c.writers[0].loc == |c.writers[0].msg| {
      WokenPool(c);
    }
    if Books(p) {
      FillHeadKeeps(p);
    }
  }

  lemma {:induction false} ServeReadersDrains(p: Pipe)
    requires Sound(p)
    ensures Drained(p, ServeReaders(p))
    ensures ServeReaders(p).writers == p.writers
    ensures ServeReaders(p).ring == [] || ServeReaders(p).readers == []
    decreases |p.readers|
  {
    if p.ring != [] && p.readers != [] {
      ServeHeadDrains(p);
      ServeReadersDrains(ServeHead(p));
    }
  }

  lemma {:induction false} FillRingDrains(p: Pipe)
    requires Sound(p)
    ensures Drained(p, FillRing(p))
    ensures WritersWaitOnFull(FillRing(p))
    decreases |p.writers|
  {
    if p.writers != [] {
      FillHeadDrains(p);
      var q := FillHead(p);
      if |q.writers| != |p.writers| {
        FillRingDrains(q);
      }
    }
  }

  /** Both drains keep the books and every byte, and put to rest the readers they leave queued:
      there is nothing for them, in the ring or with a writer.  With the guard that was meant they
      leave no writer beside free room either. */
  lemma {:induction false} DrainReadersDrains(g: Guard, p: Pipe)
    requires Sound(p)
    ensures var q := DrainReaders(g, p);
            && Drained(p, q)
            && (q.readers != [] ==> q.ring == [] && q.writers == [])
            && (g == WritersCount ==> WritersWaitOnFull(q))
    decreases |p.readers|, if p.ring != [] && p.readers != [] then 0 else 2
  {
    ServeReadersDrains(p);
    var q := ServeReaders(p);
    if CallsWriterDrain(g, q) {
      DrainWritersDrains(g, q);
    }
  }

  lemma {:induction false} DrainWritersDrains(g: Guard, p: Pipe)
    requires Sound(p)
    ensures var q := DrainWriters(g, p);
            && Drained(p, q)
            && (q.readers != [] ==> q.ring == [] && q.writers == [])
            && (g == WritersCount || p.readers == [] ==> WritersWaitOnFull(q))
    decreases |p.readers|, 1
  {
    FillRingDrains(p);
    var q := FillRing(p);
    if q.ring != [] && q.readers != [] {
      DrainReadersDrains(g, q);
    }
  }

  // ---------------------------------------------------------------- the two calls

  /** Holds between calls, whichever guard the reader drain uses. */
  ghost predicate Steady(p: Pipe) {
    Books(p) && Unfinished(p.writers) && ReadersWaitOnEmpty(p)
  }

  lemma PendingSnoc(ws: seq<Writer>, w: Writer, c: nat)
    requires w.call != c || Pending(ws, c) < 0
    ensures Pending(ws + [w], c) == if w.call == c then w.loc else Pending(ws, c)
  {
    if ws != [] {
      assert (ws + [w])[1..] == ws[1..] + [w];
    }
  }

  lemma EnterShare(p: Pipe, pid: Pid, msg: seq<Byte>, c: nat)
    requires Sound(p) && WritersMatch(p) && InsOf(p.log, c) == Share(p, c)
    ensures InsOf(Enter(p, pid, msg).log, c) == Share(Enter(p, pid, msg), c)
  {
    var q := Enter(p, pid, msg);
    SnocInsOf(p.log, q.log[|p.log|], c);
    if c == |p.calls| {
      PendingElsewhere(p.writers, c);
    }
    if q.writers != p.writers {
      PendingSnoc(p.writers, q.writers[|p.writers|], c);
    }
  }

  lemma EnterTurns(p: Pipe, pid: Pid, msg: seq<Byte>)
    requires Sound(p) && CallOrder(p)
    ensures CallOrder(Enter(p, pid, msg))
  {
    var q := Enter(p, pid, msg);
    Snoc(p.log, q.log[|p.log|]);
    if q.writers == p.writers {
      assert Turns(q) == Turns(p);
    } else {
      assert CallsOf(q.writers) == CallsOf(p.writers) + [|p.calls|];
      Assoc(FinishedCalls(p.log), CallsOf(p.writers), [|p.calls|]);
      assert Turns(q) == Turns(p) + [|p.calls|];
    }
  }

  lemma EnterHonest(p: Pipe, pid: Pid, msg: seq<Byte>)
    requires Sound(p) && AllHonest(p.log, p.calls)
    ensures AllHonest(Enter(p, pid, msg).log, Enter(p, pid, msg).calls)
  {
    var q := Enter(p, pid, msg);
    forall k | 0 <= k < |p.log|
      ensures Honest(p.log, k, q.calls)
    {
      assert Honest(p.log, k, p.calls);
    }
    HonestSnoc(p.log, q.log[|p.log|], q.calls);
  }

  lemma EnterKeeps(p: Pipe, pid: Pid, msg: seq<Byte>)
    requires Books(p)
    ensures Books(Enter(p, pid, msg))
  {
    var q := Enter(p, pid, msg);
    forall c: nat
      ensures InsOf(q.log, c) == Share(q, c)
    {
      EnterShare(p, pid, msg, c);
    }
    EnterTurns(p, pid, msg);
    EnterHonest(p, pid, msg);
    Snoc(p.log, q.log[|p.log|]);
    Assoc(Outs(p.log), p.ring, q.log[|p.log|].bytes);
  }

  lemma {:induction false} RestSnoc(ws: seq<Writer>, w: Writer)
    requires forall i :: 0 <= i < |ws| ==> ws[i].loc <= |ws[i].msg|
    requires w.loc <= |w.msg|
    ensures Rest(ws + [w]) == Rest(ws) + w.msg[w.loc..]
  {
    if ws == [] {
      assert (ws + [w])[1..] == [];
    } else {
      assert (ws + [w])[1..] == ws[1..] + [w];
      RestSnoc(ws[1..], w);
      Assoc(ws[0].msg[ws[0].loc..], Rest(ws[1..]), w.msg[w.loc..]);
    }
  }

  /** A newcomer goes to the end of the line: writers wait only on a full ring, so it cannot slip
      bytes in before theirs. */
  lemma EnterPool(p: Pipe, pid: Pid, msg: seq<Byte>)
    requires Sound(p) && WritersWaitOnFull(p)
    ensures Pool(Enter(p, pid, msg)) == Pool(p) + msg
  {
    if p.writers == [] { EnterAlone(p, pid, msg); } else { EnterBehind(p, pid, msg); }
  }

  lemma EnterAlone(p: Pipe, pid: Pid, msg: seq<Byte>)
    requires Sound(p) && p.writers == []
    ensures Pool(Enter(p, pid, msg)) == Pool(p) + msg
  {
    var q := Enter(p, pid, msg);
    var n := Min(PIPE_BUFFER_LEN - |p.ring|, |msg|);
    Snoc(p.log, q.log[|p.log|]);
    assert Rest(q.writers) == msg[n..] by {
      if n < |msg| { RestSnoc([], q.writers[0]); assert [] + msg[n..] == msg[n..]; }
    }
    EndToEnd(Outs(p.log), p.ring, msg, n);
  }

  lemma EnterBehind(p: Pipe, pid: Pid, msg: seq<Byte>)
    requires Sound(p) && p.writers != [] && |p.ring| == PIPE_BUFFER_LEN
    ensures Pool(Enter(p, pid, msg)) == Pool(p) + msg
  {
    var q := Enter(p, pid, msg);
    Snoc(p.log, q.log[|p.log|]);
    assert q.ring == p.ring;
    if msg == [] {
      assert Pool(p) + msg == Pool(p);
    } else {
      RestSnoc(p.writers, q.writers[|p.writers|]);
      Assoc(Outs(p.log) + p.ring, Rest(p.writers), msg);
    }
  }

  lemma EndToEnd<T>(a: seq<T>, b: seq<T>, m: seq<T>, n: nat)
    requires n <= |m|
    ensures a + (b + m[..n]) + m[n..] == a + b + [] + m
  {}

  lemma ReadKeeps(g: Guard, p: Pipe, pid: Pid, want: nat)
    requires Steady(p)
    ensures var q := Read(g, p, pid, want).0;
            && Steady(q) && Pool(q) == Pool(p) && q.calls == p.calls
            && (WritersWaitOnFull(p) ==> WritersWaitOnFull(q))
  {
    var r := Reader(pid, want);
    if p.ring == [] {
      Assoc(Answered(p.log), p.readers, [r]);
    } else {
      var n := Min(want, |p.ring|);
      var t := p.(ring := p.ring[n..], log := p.log + [Taken(pid, want, p.ring[..n])], asks := p.asks + [r]);
      TakeKeeps(p, r, n);
      DrainWritersDrains(g, t);
    }
  }

  lemma TakeKeeps(p: Pipe, r: Reader, n: nat)
    requires Steady(p) && p.ring != [] && n == Min(r.want, |p.ring|)
    ensures var q := p.(ring := p.ring[n..], log := p.log + [Taken(r.pid, r.want, p.ring[..n])], asks := p.asks + [r]);
            Books(q) && Pool(q) == Pool(p)
  {
    var e := Taken(r.pid, r.want, p.ring[..n]);
    var q := p.(ring := p.ring[n..], log := p.log + [e], asks := p.asks + [r]);
    Snoc(p.log, e);
    MoveSlice(Outs(p.log), p.ring, n);
    assert Turns(q) == Turns(p);
    assert p.log + [e] == (p.log + [e])[..|p.log| + 1];
    HonestSnoc(p.log, e, p.calls);
  }

  lemma WriteKeeps(g: Guard, p: Pipe, pid: Pid, msg: seq<Byte>)
    requires Steady(p)
    ensures var q := Write(g, p, pid, msg);
            && Steady(q) && q.calls == p.calls + [msg]
            && (g == WritersCount ==> WritersWaitOnFull(q))
            && (WritersWaitOnFull(p) ==> Pool(q) == Pool(p) + msg)
  {
    EnterKeeps(p, pid, msg);
    DrainReadersDrains(g, Enter(p, pid, msg));
    if WritersWaitOnFull(p) {
      EnterPool(p, pid, msg);
    }
  }

  // ---------------------------------------------------------------- whole runs

  datatype Op = Ask(pid: Pid, want: nat) | Send(pid: Pid, msg: seq<Byte>)

  function Step(g: Guard, p: Pipe, op: Op): (q: Pipe)
    requires Sound(p)
    ensures Sound(q)
  {
    match op
    case Ask(pid, want) => Read(g, p, pid, want).0
    case Send(pid, msg) => Write(g, p, pid, msg)
  }

  /** The pipe after these calls, in this order, on a new pipe (sync.c:81-85). */
  function Run(g: Guard, ops: seq<Op>): (p: Pipe)
    ensures Sound(p)
  {
    if ops == [] then EMPTY else Step(g, Run(g, ops[..|ops| - 1]), ops[|ops| - 1])
  }

  /** In every run, with either guard: the ring holds what was written and not read; requests are
      answered first come first served, never with nothing and never short of what is there; each
      message goes in byte by byte in order, and its blocked writer wakes, in call order, when all
      of it is in; and no reader sleeps while there are bytes. */
  lemma {:induction false} EveryRunIsSteady(g: Guard, ops: seq<Op>)
    ensures Steady(Run(g, ops))
  {
    if ops == [] {
      assert Turns(EMPTY) == [];
    } else {
      var p, op := Run(g, ops[..|ops| - 1]), ops[|ops| - 1];
      EveryRunIsSteady(g, ops[..|ops| - 1]);
      match op
      case Ask(pid, want) => ReadKeeps(g, p, pid, want);
      case Send(pid, msg) => WriteKeeps(g, p, pid, msg);
    }
  }

  /** In every run with the guard that was meant no writer sleeps while there is room, readers and
      writers never sleep together, and the messages never interleave. */
  lemma {:induction false} EveryIntendedRunIsInOrder(ops: seq<Op>)
    ensures var p := Run(WritersCount, ops);
            && WritersWaitOnFull(p)
            && (p.readers == [] || p.writers == [])
            && InOrder(p)
  {
    EveryRunIsSteady(WritersCount, ops);
    if ops != [] {
      var p, op := Run(WritersCount, ops[..|ops| - 1]), ops[|ops| - 1];
      EveryIntendedRunIsInOrder(ops[..|ops| - 1]);
      EveryRunIsSteady(WritersCount, ops[..|ops| - 1]);
      match op
      case Ask(pid, want) => ReadKeeps(WritersCount, p, pid, want);
      case Send(pid, msg) => WriteKeeps(WritersCount, p, pid, msg); FlattenSnoc(p.calls, msg);
    }
  }

  // ---------------------------------------------------------------- the guard as written

  function Wants(rs: seq<Reader>): (s: seq<nat>)
    ensures |s| == |rs|
  {
    seq(|rs|, i requires 0 <= i < |rs| => rs[i].want)
  }

  /** Do the queued requests run out while the writer still has `rest` bytes to come and the ring,
      holding `have`, has room?  A refill comes only when the ring is empty and a request is left. */
  predicate Strands(wants: seq<nat>, have: nat, rest: nat) {
    if rest == 0 then false
    else if wants == [] then have < PIPE_BUFFER_LEN
    else
      var left := have - Min(wants[0], have);
      if left == 0 && |wants| > 1 then
        var n := Min(PIPE_BUFFER_LEN, rest);
        Strands(wants[1..], n, rest - n)
      else
        Strands(wants[1..], left, rest)
  }

  /** The same before a call of SyncWritePipe. */
  predicate WriteStrands(p: Pipe, msg: seq<Byte>)
    requires Sound(p)
  {
    var total := |p.ring| + |msg|;
    var have := Min(PIPE_BUFFER_LEN, total);
    Strands(Wants(p.readers), have, total - have)
  }

  /** Bytes the only queued writer has still to write. */
  function Left(p: Pipe): nat
    requires Sound(p)
  {
    if p.writers == [] then 0 else |p.writers[0].msg| - p.writers[0].loc
  }

  lemma NoWriterNoDifference(p: Pipe)
    requires Sound(p) && p.writers == []
    ensures DrainReaders(ReadersCount, p) == DrainReaders(WritersCount, p)
    ensures DrainReaders(ReadersCount, p).writers == []
  {
    ServeReadersDrains(p);
    var q := ServeReaders(p);
    assert FillRing(q) == q;
  }

  /** An empty ring with a request and a writer queued is refilled before the next round. */
  lemma Refill(p: Pipe)
    requires Sound(p) && Unfinished(p.writers) && |p.writers| == 1 && p.ring == [] && p.readers != []
    ensures var q := FillRing(p);
            && (forall g :: DrainReaders(g, p) == DrainReaders(g, q))
            && q.readers == p.readers && |q.writers| <= 1 && Unfinished(q.writers)
            && |q.ring| == Min(PIPE_BUFFER_LEN, Left(p)) && Left(q) == Left(p) - |q.ring|
  {
    var q, h := FillRing(p), FillHead(p);
    assert h.writers == [] ==> FillRing(h) == h;
    assert ServeReaders(p) == p;
    assert forall g :: DrainReaders(g, p) == DrainWriters(g, p);
  }

  lemma ServeOneFirst(p: Pipe)
    requires Sound(p) && p.readers != [] && p.ring != []
    ensures var h := ServeHead(p);
            && Sound(h) && Left(h) == Left(p) && Wants(h.readers) == Wants(p.readers)[1..]
            && forall g :: DrainReaders(g, p) == DrainReaders(g, h)
  {}

  lemma {:induction false} DrainStrands(p: Pipe)
    requires Sound(p) && Unfinished(p.writers) && |p.writers| <= 1
    requires p.writers != [] ==> p.ring != []
    ensures var q := DrainReaders(ReadersCount, p);
            var bad := Strands(Wants(p.readers), |p.ring|, Left(p));
            && (WritersWaitOnFull(q) <==> !bad)
            && (!bad ==> q == DrainReaders(WritersCount, p))
    decreases |p.readers|
  {
    if p.writers == [] {
      NoWriterNoDifference(p);
    } else if p.readers == [] {
      assert ServeReaders(p) == p;
    } else {
      var h := ServeHead(p);
      ServeOneFirst(p);
      if h.ring != [] {
        DrainStrands(h);
      } else if h.readers == [] {
        assert ServeReaders(h) == h;
      } else {
        Refill(h);
        DrainStrands(FillRing(h));
      }
    }
  }

  /** Exactly when a call of SyncWritePipe as written leaves a writer asleep beside free room: when
      the queued requests run out on a refill.  Otherwise it does what was meant. */
  lemma WriteStrandsExactly(p: Pipe, pid: Pid, msg: seq<Byte>)
    requires Steady(p) && WritersWaitOnFull(p)
    ensures WritersWaitOnFull(Write(ReadersCount, p, pid, msg)) <==> !WriteStrands(p, msg)
    ensures !WriteStrands(p, msg) ==> Write(ReadersCount, p, pid, msg) == Write(WritersCount, p, pid, msg)
  {
    var q := Enter(p, pid, msg);
    if p.readers == [] {
      assert ServeReaders(q) == q;
      NothingToServe(q);
    } else {
      assert p.ring == [] && p.writers == [];
      DrainStrands(q);
    }
  }

  lemma NothingToServe(q: Pipe)
    requires Sound(q) && q.readers == [] && WritersWaitOnFull(q)
    ensures forall g :: DrainReaders(g, q) == q
  {
    assert ServeReaders(q) == q;
  }

  /** Nobody waiting to read, or a message that fits, is always safe. */
  lemma MostWritesAreSafe(p: Pipe, msg: seq<Byte>)
    requires Sound(p)
    ensures p.readers == [] || |p.ring| + |msg| <= PIPE_BUFFER_LEN ==> !WriteStrands(p, msg)
    ensures |p.readers| == 1 && p.readers[0].want > 0 && p.ring == [] ==>
              (WriteStrands(p, msg) <==> |msg| > PIPE_BUFFER_LEN)
  {
    if |p.readers| == 1 && p.ring == [] && |msg| > PIPE_BUFFER_LEN {
      var wants, left := Wants(p.readers), PIPE_BUFFER_LEN - Min(p.readers[0].want, PIPE_BUFFER_LEN);
      assert wants[1..] == [];
      assert WriteStrands(p, msg) == Strands([], left, |msg| - PIPE_BUFFER_LEN);
    }
  }

  /** As written, the run is the run that was meant after each of its calls. */
  ghost predicate AsMeantThroughout(ops: seq<Op>) {
    Run(ReadersCount, ops) == Run(WritersCount, ops) && (ops != [] ==> AsMeantThroughout(ops[..|ops| - 1]))
  }

  /** No call of the run strands its writer. */
  predicate NeverStrands(ops: seq<Op>) {
    if ops == [] then true
    else
      var before, op := ops[..|ops| - 1], ops[|ops| - 1];
      NeverStrands(before) && !(op.Send? && WriteStrands(Run(ReadersCount, before), op.msg))
  }

  /** "Throughout" means after every number of calls. */
  lemma {:induction false} ThroughoutIsAlways(ops: seq<Op>, k: nat)
    requires AsMeantThroughout(ops) && k <= |ops|
    ensures Run(ReadersCount, ops[..k]) == Run(WritersCount, ops[..k])
  {
    if k == |ops| {
      assert ops[..k] == ops;
    } else {
      ThroughoutIsAlways(ops[..|ops| - 1], k);
      assert ops[..|ops| - 1][..k] == ops[..k];
    }
  }

  /** As written, a run is the run that was meant, at every moment, exactly when none of its
      writes strands. */
  lemma {:induction false} AsWrittenIsAsMeantExactly(ops: seq<Op>)
    ensures AsMeantThroughout(ops) <==> NeverStrands(ops)
  {
    if ops != [] {
      var before, op := ops[..|ops| - 1], ops[|ops| - 1];
      assert ops == before + [op];
      AsWrittenIsAsMeantExactly(before);
      if Run(ReadersCount, before) == Run(WritersCount, before) { LastStep(before, op); }
    }
  }

  lemma LastStep(before: seq<Op>, op: Op)
    requires Run(ReadersCount, before) == Run(WritersCount, before)
    ensures Run(ReadersCount, before + [op]) == Run(WritersCount, before + [op])
       <==> !(op.Send? && WriteStrands(Run(ReadersCount, before), op.msg))
  {
    var p := Run(WritersCount, before);
    assert (before + [op])[..|before|] == before;
    EveryRunIsSteady(WritersCount, before);
    EveryIntendedRunIsInOrder(before);
    match op
    case Ask(pid, want) =>
      ReadIsGuardless(p, pid, want);
    case Send(pid, msg) =>
      WriteStrandsExactly(p, pid, msg);
      WriteKeeps(WritersCount, p, pid, msg);
  }

  /** A read never reaches the doubtful guard: nobody else is queued to read when there are bytes. */
  lemma ReadIsGuardless(p: Pipe, pid: Pid, want: nat)
    requires Steady(p)
    ensures Read(ReadersCount, p, pid, want) == Read(WritersCount, p, pid, want)
  {}

  // ---------------------------------------------------------------- a run that goes wrong

  /** One reader asks for a bufferful, and a writer sends one byte more. */
  function StrandingRun(): seq<Op> {
    [Ask(1, PIPE_BUFFER_LEN), Send(2, Zeros(PIPE_BUFFER_LEN + 1))]
  }

  function OneAsleep(): Pipe {
    EMPTY.(readers := [Reader(1, PIPE_BUFFER_LEN)], asks := [Reader(1, PIPE_BUFFER_LEN)])
  }

  lemma AskOnEmpty()
    ensures Run(ReadersCount, [Ask(1, PIPE_BUFFER_LEN)]) == OneAsleep()
  {
    assert [Ask(1, PIPE_BUFFER_LEN)][..0] == [];
  }

  lemma OneReaderTakesAll(p: Pipe)
    requires Sound(p) && |p.readers| == 1 && p.ring != [] && p.readers[0].want == |p.ring|
    ensures DrainReaders(ReadersCount, p) == ServeHead(p)
    ensures ServeHead(p).ring == [] && ServeHead(p).readers == []
  {
    var q := ServeHead(p);
    assert ServeReaders(p) == ServeReaders(q) == q;
  }

  ghost predicate Stranded(p: Pipe) {
    && p.ring == [] && p.readers == []
    && p.writers == [Writer(2, 0, Zeros(PIPE_BUFFER_LEN + 1), PIPE_BUFFER_LEN)]
    && p.calls == [Zeros(PIPE_BUFFER_LEN + 1)]
    && Outs(p.log) == Zeros(PIPE_BUFFER_LEN)
  }

  /** The writer fills the ring and queues with its last byte. */
  function FullWithOneOver(): Pipe {
    OneAsleep().(ring := Zeros(PIPE_BUFFER_LEN),
                 writers := [Writer(2, 0, Zeros(PIPE_BUFFER_LEN + 1), PIPE_BUFFER_LEN)],
                 log := [Accepted(0, Zeros(PIPE_BUFFER_LEN))],
                 calls := [Zeros(PIPE_BUFFER_LEN + 1)])
  }

  lemma SendFills()
    ensures Enter(OneAsleep(), 2, Zeros(PIPE_BUFFER_LEN + 1)) == FullWithOneOver()
  {
    assert Zeros(PIPE_BUFFER_LEN + 1)[..PIPE_BUFFER_LEN] == Zeros(PIPE_BUFFER_LEN);
    assert [] + Zeros(PIPE_BUFFER_LEN) == Zeros(PIPE_BUFFER_LEN);
  }

  lemma ServedIsStranded()
    ensures Stranded(ServeHead(FullWithOneOver()))
  {
    var p := FullWithOneOver();
    var e := ServeHead(p).log[1];
    assert p.ring[..PIPE_BUFFER_LEN] == Zeros(PIPE_BUFFER_LEN);
    assert p.log[..0] == [] && Outs(p.log) == [];
    Snoc(p.log, e);
  }

  lemma SendOneTooMany()
    ensures Stranded(Write(ReadersCount, OneAsleep(), 2, Zeros(PIPE_BUFFER_LEN + 1)))
  {
    SendFills();
    OneReaderTakesAll(FullWithOneOver());
    ServedIsStranded();
  }

  lemma AfterStrandingRun()
    ensures Stranded(Run(ReadersCount, StrandingRun()))
  {
    var ops := StrandingRun();
    assert ops[..1] == [ops[0]];
    AskOnEmpty();
    SendOneTooMany();
    assert Run(ReadersCount, ops) == Step(ReadersCount, Run(ReadersCount, [ops[0]]), ops[1]);
  }

  /** After it the writer's last byte waits beside an empty ring.  A second reader then falls
      asleep beside that writer, and a second writer's byte overtakes it. */
  lemma AsWrittenCanStrand()
    ensures !WritersWaitOnFull(Run(ReadersCount, StrandingRun()))
    ensures var p := Run(ReadersCount, StrandingRun() + [Ask(3, 1)]); p.readers != [] && p.writers != [] && p.ring == []
    ensures !InOrder(Run(ReadersCount, StrandingRun() + [Send(3, [1])]))
  {
    AfterStrandingRun();
    var ops, p := StrandingRun(), Run(ReadersCount, StrandingRun());
    assert (ops + [Ask(3, 1)])[..2] == ops && (ops + [Send(3, [1])])[..2] == ops;
    var q := Run(ReadersCount, ops + [Send(3, [1])]);
    Overtakes(p);
  }

  lemma Overtakes(p: Pipe)
    requires Sound(p) && p.ring == [] && p.readers == [] && |p.writers| == 1
    requires Outs(p.log) == Zeros(PIPE_BUFFER_LEN) && p.calls == [Zeros(PIPE_BUFFER_LEN + 1)]
    ensures !InOrder(Write(ReadersCount, p, 3, [1]))
  {
    var e := Enter(p, 3, [1]);
    EntersAhead(p);
    FlattenSnoc(p.calls, [1]);
    assert Flatten(p.calls) == Zeros(PIPE_BUFFER_LEN + 1) by { assert p.calls[1..] == []; }
    assert Flatten(e.calls)[PIPE_BUFFER_LEN] == 0;
    assert Pool(e)[PIPE_BUFFER_LEN] == 1;
  }

  /** The second writer's byte goes straight into the empty ring. */
  lemma EntersAhead(p: Pipe)
    requires Sound(p) && p.ring == [] && p.readers == [] && |p.writers| == 1
    ensures var e := Enter(p, 3, [1]);
            && e.ring == [1] && Outs(e.log) == Outs(p.log) && e.calls == p.calls + [[1]]
                && Write(ReadersCount, p, 3, [1]) == e
  {
    var e := Enter(p, 3, [1]);
    assert [1][..1] == [1] && [] + [1] == [1];
    assert ServeReaders(e) == e;
    Snoc(p.log, e.log[|p.log|]);
  }
}
