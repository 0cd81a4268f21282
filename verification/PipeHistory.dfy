/** What the history of a pipe says, and that every operation keeps it truthful. */
module PipeHistory {
  import opened Hardware
  import opened Pipes

  // ---------------------------------------------------------------- readings of a log

  /** All bytes put into the ring, in order. */
  ghost function Ins(log: seq<Event>): seq<Byte> {
    if log == [] then []
    else
      var e := log[|log| - 1];
      Ins(log[..|log| - 1]) + if e.Accepted? then e.bytes else []
  }

  /** All bytes handed to readers, in order. */
  ghost function Outs(log: seq<Event>): seq<Byte> {
    if log == [] then []
    else
      var e := log[|log| - 1];
      Outs(log[..|log| - 1]) + if e.Taken? || e.Served? then e.bytes else []
  }

  /** The bytes of message number `call` put into the ring so far. */
  ghost function InsOf(log: seq<Event>, call: nat): seq<Byte> {
    if log == [] then []
    else
      var e := log[|log| - 1];
      InsOf(log[..|log| - 1], call) + if e.Accepted? && e.call == call then e.bytes else []
  }

  /** The read requests answered so far, in the order of the answers. */
  ghost function Answered(log: seq<Event>): seq<Reader> {
    if log == [] then []
    else
      var e := log[|log| - 1];
      Answered(log[..|log| - 1]) + if e.Taken? || e.Served? then [Reader(e.pid, e.want)] else []
  }

  /** The calls whose blocked writers have been woken, in the order of the wake-ups. */
  ghost function FinishedCalls(log: seq<Event>): seq<nat> {
    if log == [] then []
    else
      var e := log[|log| - 1];
      FinishedCalls(log[..|log| - 1]) + if e.Finished? then [e.call] else []
  }

  lemma Snoc(log: seq<Event>, e: Event)
    ensures Ins(log + [e]) == if e.Accepted? then Ins(log) + e.bytes else Ins(log)
    ensures Outs(log + [e]) == if e.Taken? || e.Served? then Outs(log) + e.bytes else Outs(log)
    ensures forall c :: InsOf(log + [e], c) == if e.Accepted? && e.call == c then InsOf(log, c) + e.bytes
            else InsOf(log, c)
    ensures Answered(log + [e]) == if e.Taken? || e.Served? then Answered(log) + [Reader(e.pid, e.want)]
            else Answered(log)
    ensures FinishedCalls(log + [e]) == if e.Finished? then FinishedCalls(log) + [e.call] else FinishedCalls(log)
  {
    assert (log + [e])[..|log|] == log;
  }

  /** A read answer is as long as asked unless it empties the pipe, and never empty for a reader
      that asked for something.  A blocked writer's wake-up comes after its whole message. */
  ghost predicate Honest(log: seq<Event>, k: nat, calls: seq<seq<Byte>>)
    requires k < |log|
  {
    match log[k]
    case Accepted(call, bytes) => call < |calls|
    case Taken(pid, want, bytes) => GoodAnswer(log[..k + 1], want, bytes)
    case Served(pid, want, bytes) => GoodAnswer(log[..k + 1], want, bytes)
    case Finished(pid, call, len) => call < |calls| && InsOf(log[..k], call) == calls[call] && len == |calls[call]|
  }

  ghost predicate GoodAnswer(upTo: seq<Event>, want: nat, bytes: seq<Byte>) {
    && |bytes| <= want
    && (want > 0 ==> bytes != [])
    && (|bytes| < want ==> Outs(upTo) == Ins(upTo))
  }

  /** How much of message `call` its queued writer has written, or -1 when no writer is queued for it. */
  ghost function Pending(ws: seq<Writer>, call: nat): int {
    if ws == [] then -1 else if ws[0].call == call then ws[0].loc else Pending(ws[1..], call)
  }

  ghost function CallsOf(ws: seq<Writer>): (s: seq<nat>)
    ensures |s| == |ws|
  {
    seq(|ws|, i requires 0 <= i < |ws| => ws[i].call)
  }

  ghost predicate Increasing(s: seq<nat>) {
    forall i, j :: 0 <= i < j < |s| ==> s[i] < s[j]
  }

  /** Message bytes still with the queued writers, head first. */
  ghost function Rest(ws: seq<Writer>): seq<Byte>
    requires forall i :: 0 <= i < |ws| ==> ws[i].loc <= |ws[i].msg|
  {
    if ws == [] then [] else ws[0].msg[ws[0].loc..] + Rest(ws[1..])
  }

  // ---------------------------------------------------------------- the invariants

  ghost predicate WritersMatch(p: Pipe) {
    forall i :: 0 <= i < |p.writers| ==>
      var w := p.writers[i]; w.call < |p.calls| && p.calls[w.call] == w.msg
  }

  /** Every queued writer has something left to write. */
  predicate Unfinished(ws: seq<Writer>) {
    forall i :: 0 <= i < |ws| ==> ws[i].loc < |ws[i].msg|
  }

  /** The part of message `c` that its writer is done with. */
  ghost function Share(p: Pipe, c: nat): seq<Byte> {
    if c >= |p.calls| then []
    else
      var n := Pending(p.writers, c);
      if 0 <= n <= |p.calls[c]| then p.calls[c][..n] else p.calls[c]
  }

  /** Of each message exactly the part its writer is done with went into the ring, each byte once
      and in order. */
  ghost predicate Shares(p: Pipe) {
    forall c: nat :: InsOf(p.log, c) == Share(p, c)
  }

  /** The calls that blocked: those woken, in the order they woke, then those still queued. */
  ghost function Turns(p: Pipe): seq<nat> {
    FinishedCalls(p.log) + CallsOf(p.writers)
  }

  /** Blocked writers wake up in call order. */
  ghost predicate CallOrder(p: Pipe) {
    Increasing(Turns(p)) && forall k :: 0 <= k < |Turns(p)| ==> Turns(p)[k] < |p.calls|
  }

  ghost predicate AllHonest(log: seq<Event>, calls: seq<seq<Byte>>) {
    forall k :: 0 <= k < |log| ==> Honest(log, k, calls)
  }

  /** What went in is what came out, then what is in the ring. */
  ghost predicate RingIsUnread(p: Pipe) {
    Outs(p.log) + p.ring == Ins(p.log)
  }

  /** Read requests are answered first come first served; the queued ones are the ones not yet
      answered. */
  ghost predicate AskedInOrder(p: Pipe) {
    Answered(p.log) + p.readers == p.asks
  }

  /** Holds at every moment, even inside a drain, whichever guard the reader drain uses. */
  ghost predicate Books(p: Pipe) {
    && Sound(p)
    && WritersMatch(p)
    && Shares(p)
    && CallOrder(p)
    && RingIsUnread(p)
    && AskedInOrder(p)
    && AllHonest(p.log, p.calls)
  }

  /** No reader sleeps while there are bytes. */
  ghost predicate ReadersWaitOnEmpty(p: Pipe) {
    p.readers != [] ==> p.ring == []
  }

  /** No writer sleeps while there is room. */
  ghost predicate WritersWaitOnFull(p: Pipe) {
    p.writers != [] ==> |p.ring| == PIPE_BUFFER_LEN
  }

  /** Delivered bytes, then buffered bytes, then the bytes of queued writers are the messages, in
      the order they were written: no interleaving. */
  ghost predicate InOrder(p: Pipe)
    requires Sound(p)
  {
    Outs(p.log) + p.ring + Rest(p.writers) == Flatten(p.calls)
  }

  // ---------------------------------------------------------------- one step at a time

  lemma HonestSnoc(log: seq<Event>, e: Event, calls: seq<seq<Byte>>)
    requires AllHonest(log, calls) && Honest(log + [e], |log|, calls)
    ensures AllHonest(log + [e], calls)
  {
    forall k | 0 <= k < |log|
      ensures Honest(log + [e], k, calls)
    {
      assert (log + [e])[..k + 1] == log[..k + 1] && (log + [e])[..k] == log[..k];
      assert Honest(log, k, calls);
    }
  }

  /** Serving a reader leaves the writers' side of the books alone. */
  lemma ServedWriters(p: Pipe)
    requires p.readers != [] && Shares(p) && CallOrder(p) && WritersMatch(p)
    ensures var q := ServeHead(p); Shares(q) && CallOrder(q) && WritersMatch(q)
  {
    var q := ServeHead(p);
    var e := q.log[|p.log|];
    Snoc(p.log, e);
    assert Turns(q) == Turns(p);
    forall c: nat
      ensures InsOf(q.log, c) == Share(q, c)
    {
      SnocInsOf(p.log, e, c);
      assert InsOf(p.log, c) == Share(p, c);
    }
  }

  lemma ServedReaders(p: Pipe)
    requires p.readers != [] && RingIsUnread(p) && AskedInOrder(p)
    ensures RingIsUnread(ServeHead(p)) && AskedInOrder(ServeHead(p))
  {
    var e := ServeHead(p).log[|p.log|];
    Snoc(p.log, e);
    MoveSlice(Outs(p.log), p.ring, |e.bytes|);
    HeadAcross(Answered(p.log), p.readers);
  }

  lemma ServedHonest(p: Pipe)
    requires p.readers != [] && p.ring != [] && RingIsUnread(p) && AllHonest(p.log, p.calls)
    ensures AllHonest(ServeHead(p).log, p.calls)
  {
    var e := ServeHead(p).log[|p.log|];
    Snoc(p.log, e);
    assert (p.log + [e])[..|p.log| + 1] == p.log + [e];
    HonestSnoc(p.log, e, p.calls);
  }

  lemma ServeHeadKeeps(p: Pipe)
    requires Books(p) && p.readers != [] && p.ring != []
    ensures Books(ServeHead(p))
  {
    ServedWriters(p);
    ServedReaders(p);
    ServedHonest(p);
  }

  lemma PendingElsewhere(ws: seq<Writer>, call: nat)
    requires forall i :: 0 <= i < |ws| ==> ws[i].call != call
    ensures Pending(ws, call) == -1
  {}

  /** In a well-ordered queue the head's call is not queued again. */
  lemma HeadIsAlone(p: Pipe)
    requires CallOrder(p) && p.writers != []
    ensures forall i :: 0 < i < |p.writers| ==> p.writers[i].call != p.writers[0].call
  {
    forall i | 0 < i < |p.writers|
      ensures p.writers[i].call != p.writers[0].call
    {
      var n := |FinishedCalls(p.log)|;
      assert Turns(p)[n] == p.writers[0].call && Turns(p)[n + i] == p.writers[i].call;
    }
  }

  /** The writer drain's round in two parts: the copy, and the wake-up if nothing is left. */
  function HeadCopied(p: Pipe): (q: Pipe)
    requires p.writers != [] && Sound(p)
    ensures q.writers != [] && Sound(q)
  {
    var w := p.writers[0];
    var n := Min(PIPE_BUFFER_LEN - |p.ring|, |w.msg| - w.loc);
    var piece := w.msg[w.loc..w.loc + n];
    p.(ring := p.ring + piece,
       writers := [w.(loc := w.loc + n)] + p.writers[1..],
       log := p.log + [Accepted(w.call, piece)])
  }

  function Woken(p: Pipe): (q: Pipe)
    requires p.writers != []
  {
    var w := p.writers[0];
    p.(writers := p.writers[1..], log := p.log + [Finished(w.pid, w.call, |w.msg|)])
  }

  lemma FillHeadSplits(p: Pipe)
    requires p.writers != [] && Sound(p)
    ensures var c := HeadCopied(p); FillHead(p) == if c.writers[0].loc < |c.writers[0].msg| then c else Woken(c)
  {
    assert HeadCopied(p).writers[1..] == p.writers[1..];
  }

  lemma SnocInsOf(log: seq<Event>, e: Event, c: nat)
    ensures InsOf(log + [e], c) == if e.Accepted? && e.call == c then InsOf(log, c) + e.bytes else InsOf(log, c)
  {
    assert (log + [e])[..|log|] == log;
  }

  lemma CopiedShare(p: Pipe, c: nat)
    requires Sound(p) && WritersMatch(p) && p.writers != [] && InsOf(p.log, c) == Share(p, c)
    ensures InsOf(HeadCopied(p).log, c) == Share(HeadCopied(p), c)
  {
    var w, q := p.writers[0], HeadCopied(p);
    SnocInsOf(p.log, q.log[|p.log|], c);
    assert q.writers[1..] == p.writers[1..];
    if c == w.call {
      MoveMiddle(w.msg, w.loc, q.writers[0].loc);
    }
  }

  lemma CopiedShares(p: Pipe)
    requires Sound(p) && WritersMatch(p) && Shares(p) && p.writers != []
    ensures Shares(HeadCopied(p))
  {
    forall c: nat
      ensures InsOf(HeadCopied(p).log, c) == Share(HeadCopied(p), c)
    {
      CopiedShare(p, c);
    }
  }

  lemma CopiedTurns(p: Pipe)
    requires Sound(p) && p.writers != []
    ensures Turns(HeadCopied(p)) == Turns(p)
  {
    var q := HeadCopied(p);
    Snoc(p.log, q.log[|p.log|]);
    assert CallsOf(q.writers) == CallsOf(p.writers);
  }

  lemma CopiedRing(p: Pipe)
    requires Sound(p) && p.writers != [] && RingIsUnread(p)
    ensures RingIsUnread(HeadCopied(p))
  {
    var e := HeadCopied(p).log[|p.log|];
    Snoc(p.log, e);
    Assoc(Outs(p.log), p.ring, e.bytes);
  }

  lemma CopiedKeeps(p: Pipe)
    requires Books(p) && p.writers != []
    ensures Books(HeadCopied(p))
  {
    var e := HeadCopied(p).log[|p.log|];
    CopiedShares(p);
    CopiedTurns(p);
    CopiedRing(p);
    Snoc(p.log, e);
    HonestSnoc(p.log, e, p.calls);
  }

  ghost predicate HeadIsDone(p: Pipe) {
    p.writers != [] && var w := p.writers[0]; w.call < |p.calls| && p.calls[w.call] == w.msg && w.loc == |w.msg|
  }

  lemma WokenShare(p: Pipe, c: nat)
    requires HeadIsDone(p) && CallOrder(p) && InsOf(p.log, c) == Share(p, c)
    ensures InsOf(Woken(p).log, c) == Share(Woken(p), c)
  {
    SnocInsOf(p.log, Woken(p).log[|p.log|], c);
    if c == p.writers[0].call {
      HeadIsAlone(p);
      PendingElsewhere(p.writers[1..], c);
    }
  }

  lemma WokenShares(p: Pipe)
    requires HeadIsDone(p) && Shares(p) && CallOrder(p)
    ensures Shares(Woken(p))
  {
    forall c: nat
      ensures InsOf(Woken(p).log, c) == Share(Woken(p), c)
    {
      WokenShare(p, c);
    }
  }

  lemma WokenTurns(p: Pipe)
    requires p.writers != []
    ensures Turns(Woken(p)) == Turns(p)
  {
    var q := Woken(p);
    Snoc(p.log, q.log[|p.log|]);
    CallsTail(p.writers);
    Assoc(FinishedCalls(p.log), [p.writers[0].call], CallsOf(q.writers));
  }

  lemma CallsTail(ws: seq<Writer>)
    requires ws != []
    ensures CallsOf(ws) == [ws[0].call] + CallsOf(ws[1..])
  {}

  lemma WokenHonest(p: Pipe)
    requires HeadIsDone(p) && Shares(p) && AllHonest(p.log, p.calls)
    ensures AllHonest(Woken(p).log, p.calls)
  {
    var w := p.writers[0];
    var e := Finished(w.pid, w.call, |w.msg|);
    assert (p.log + [e])[..|p.log|] == p.log;
    assert Pending(p.writers, w.call) == w.loc;
    assert InsOf(p.log, w.call) == w.msg;
    HonestSnoc(p.log, e, p.calls);
  }

  lemma WokenKeeps(p: Pipe)
    requires Books(p) && HeadIsDone(p)
    ensures Books(Woken(p))
  {
    WokenShares(p);
    WokenTurns(p);
    WokenHonest(p);
    Snoc(p.log, Woken(p).log[|p.log|]);
  }

  lemma FillHeadKeeps(p: Pipe)
    requires Books(p) && p.writers != []
    ensures Books(FillHead(p))
    ensures Unfinished(p.writers) ==> Unfinished(FillHead(p).writers)
  {
    FillHeadSplits(p);
    CopiedKeeps(p);
    var c := HeadCopied(p);
    if c.writers[0].loc == |c.writers[0].msg| {
      WokenKeeps(c);
    }
  }
}
