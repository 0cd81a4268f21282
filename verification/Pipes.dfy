/** Blocking pipes (sync.c:104-288) on values: the ring as the sequence of bytes it holds,
    the two wait queues, and a history of everything that was moved or woken. */
module Pipes {
  import opened Hardware

  /** Which queue a reader drain looks at before it calls the writer drain
      (sync.c:211 and 236): the readers, as written, or the writers, as meant. */
  datatype Guard = ReadersCount | WritersCount

  /** A process asleep in SyncReadPipe. */
  datatype Reader = Reader(pid: Pid, want: nat)

  /** A process asleep in SyncWritePipe; the first `loc` bytes of `msg` are in the ring.
      `call` numbers the SyncWritePipe calls on this pipe. */
  datatype Writer = Writer(pid: Pid, call: nat, msg: seq<Byte>, loc: nat)

  datatype Event =
    | Accepted(call: nat, bytes: seq<Byte>)            // copied from a message into the ring
    | Taken(pid: Pid, want: nat, bytes: seq<Byte>)                // read without blocking
    | Served(pid: Pid, want: nat, bytes: seq<Byte>)               // a queued reader got these and woke up
    | Finished(pid: Pid, call: nat, len: nat)          // a queued writer was woken with this result

  datatype Pipe = Pipe(
    ring: seq<Byte>,
    readers: seq<Reader>,
    writers: seq<Writer>,
    log: seq<Event>,
    calls: seq<seq<Byte>>,      // every message passed to SyncWritePipe, in call order
    asks: seq<Reader>)          // every request passed to SyncReadPipe, in call order

  const EMPTY := Pipe([], [], [], [], [], [])

  // ---------------------------------------------------------------- the drains

  /** One round of the reader drain's loop: pop the head reader, hand it what is there. */
  function ServeHead(p: Pipe): (q: Pipe)
    requires p.readers != []
    ensures |q.readers| < |p.readers|
  {
    var r := p.readers[0];
    var n := Min(r.want, |p.ring|);
    p.(ring := p.ring[n..], readers := p.readers[1..], log := p.log + [Served(r.pid, r.want, p.ring[..n])])
  }

  /** The reader drain's loop (sync.c:207-234). */
  function ServeReaders(p: Pipe): (q: Pipe)
    ensures |q.readers| <= |p.readers|
    ensures p.ring != [] && p.readers != [] ==> |q.readers| < |p.readers|
    decreases |p.readers|
  {
    if p.ring == [] || p.readers == [] then p else ServeReaders(ServeHead(p))
  }

  /** One round of the writer drain's loop: top the ring up from the head writer, then wake it
      or leave it at the head. */
  function FillHead(p: Pipe): (q: Pipe)
    requires p.writers != [] && |p.ring| <= PIPE_BUFFER_LEN
    requires p.writers[0].loc <= |p.writers[0].msg|
  {
    var w := p.writers[0];
    var n := Min(PIPE_BUFFER_LEN - |p.ring|, |w.msg| - w.loc);
    var piece := w.msg[w.loc..w.loc + n];
    var q := p.(ring := p.ring + piece, log := p.log + [Accepted(w.call, piece)]);
    if w.loc + n < |w.msg| then
      q.(writers := [w.(loc := w.loc + n)] + p.writers[1..])
    else
      q.(writers := p.writers[1..], log := q.log + [Finished(w.pid, w.call, |w.msg|)])
  }

  /** A pipe the operations can work on: the ring is within bounds and no writer has written past
      its message. */
  predicate Sound(p: Pipe) {
    |p.ring| <= PIPE_BUFFER_LEN && forall i :: 0 <= i < |p.writers| ==> p.writers[i].loc <= |p.writers[i].msg|
  }

  /** The writer drain's loop (sync.c:165-202): it ends with no writer left or at one that did
      not fit. */
  function FillRing(p: Pipe): (q: Pipe)
    requires Sound(p)
    ensures Sound(q) && q.readers == p.readers
    decreases |p.writers|
  {
    if p.writers == [] then p
    else
      var q := FillHead(p);
      if |q.writers| == |p.writers| then q else FillRing(q)
  }

  /** sync.c:211 and 236. */
  predicate CallsWriterDrain(g: Guard, p: Pipe) {
    |p.ring| < PIPE_BUFFER_LEN && if g == ReadersCount then p.readers != [] else p.writers != []
  }

  /** SyncDrainReaders (sync.c:205-237).  The two drains call each other; each reader drain entered
      with both bytes and a reader pops that reader first. */
  function DrainReaders(g: Guard, p: Pipe): (q: Pipe)
    requires Sound(p)
    ensures Sound(q) && |q.readers| <= |p.readers|
    decreases |p.readers|, if p.ring != [] && p.readers != [] then 0 else 2
  {
    ServeReadersSound(p);
    var q := ServeReaders(p);
    if CallsWriterDrain(g, q) then DrainWriters(g, q) else q
  }

  /** SyncDrainWriters (sync.c:163-203). */
  function DrainWriters(g: Guard, p: Pipe): (q: Pipe)
    requires Sound(p)
    ensures Sound(q) && |q.readers| <= |p.readers|
    decreases |p.readers|, 1
  {
    var q := FillRing(p);
    if q.ring != [] && q.readers != [] then DrainReaders(g, q) else q
  }

  /** The writer drain in its two stages. */
  lemma WritersInStages(g: Guard, p: Pipe)
    requires Sound(p)
    ensures var q := FillRing(p);
            DrainWriters(g, p) == if q.ring != [] && q.readers != [] then DrainReaders(g, q) else q
  {}

  /** The reader drain in its two stages. */
  lemma ReadersInStages(g: Guard, p: Pipe)
    requires Sound(p)
    ensures Sound(ServeReaders(p))
    ensures var q := ServeReaders(p); DrainReaders(g, p) == if CallsWriterDrain(g, q) then DrainWriters(g, q) else q
  {
    ServeReadersSound(p);
  }

  lemma ServeReadersSound(p: Pipe)
    requires Sound(p)
    ensures Sound(ServeReaders(p))
    decreases |p.readers|
  {
    if p.ring != [] && p.readers != [] {
      ServeReadersSound(ServeHead(p));
    }
  }

  // ---------------------------------------------------------------- the two calls

  datatype ReadResult = ReadBlocked | Got(bytes: seq<Byte>)

  /** SyncReadPipe past its checks (sync.c:131-160). */
  function Read(g: Guard, p: Pipe, pid: Pid, want: nat): (r: (Pipe, ReadResult))
    requires Sound(p)
    ensures Sound(r.0)
  {
    var p := p.(asks := p.asks + [Reader(pid, want)]);
    if p.ring == [] then
      (p.(readers := p.readers + [Reader(pid, want)]), ReadBlocked)
    else
      var n := Min(want, |p.ring|);
      var q := p.(ring := p.ring[n..], log := p.log + [Taken(pid, want, p.ring[..n])]);
      (DrainWriters(g, q), Got(p.ring[..n]))
  }

  /** What SyncWritePipe copies itself, and the queueing of what did not fit (sync.c:255-278). */
  function Enter(p: Pipe, pid: Pid, msg: seq<Byte>): (q: Pipe)
    requires Sound(p)
    ensures Sound(q)
  {
    var n := Min(PIPE_BUFFER_LEN - |p.ring|, |msg|);
    p.(ring := p.ring + msg[..n],
       writers := if n < |msg| then p.writers + [Writer(pid, |p.calls|, msg, n)] else p.writers,
       log := p.log + [Accepted(|p.calls|, msg[..n])],
       calls := p.calls + [msg])
  }

  predicate WriteBlocks(p: Pipe, msg: seq<Byte>) {
    PIPE_BUFFER_LEN - |p.ring| < |msg|
  }

  /** SyncWritePipe past its checks (sync.c:255-288). */
  function Write(g: Guard, p: Pipe, pid: Pid, msg: seq<Byte>): (q: Pipe)
    requires Sound(p)
    ensures Sound(q)
  {
    DrainReaders(g, Enter(p, pid, msg))
  }
}
