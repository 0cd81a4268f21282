/** The argument list a new program finds on its stack (load_program.c:80-106, 143-158, 309-321): how
    it is laid out in bytes, and that reading it back gives the arguments. */
module ArgStack {
  import opened Hardware
  import opened Memory

  /** An argument is a C string, without its terminator. */
  type CString = seq<Byte>

  predicate NoNul(s: seq<Byte>) {
    0 !in s
  }

  const WORD := 4

  const INITIAL_STACK_FRAME_SIZE: nat
  const POST_ARGV_NULL_SPACE: nat

  // ---------------------------------------------------------------- bytes

  /** The four bytes of a word, lowest first. */
  function Bytes(w: nat): (s: seq<Byte>)
    requires w < 0x1_0000_0000
    ensures |s| == WORD
  {
    [(w % 0x100) as Byte, (w / 0x100 % 0x100) as Byte, (w / 0x1_0000 % 0x100) as Byte, (w / 0x100_0000) as Byte]
  }

  function Word(s: seq<Byte>, at: nat): (w: nat)
    requires at + WORD <= |s|
  {
    s[at] as int + 0x100 * s[at + 1] as int + 0x1_0000 * s[at + 2] as int + 0x100_0000 * s[at + 3] as int
  }

  lemma WordOfBytes(a: seq<Byte>, w: nat, b: seq<Byte>)
    requires w < 0x1_0000_0000
    ensures Word(a + Bytes(w) + b, |a|) == w
  {
    var s := a + Bytes(w) + b;
    assert s[|a|] == Bytes(w)[0] && s[|a| + 1] == Bytes(w)[1] && s[|a| + 2] == Bytes(w)[2] && s[|a| + 3] == Bytes(w)[3];
    assert w / 0x100 / 0x100 == w / 0x1_0000 && w / 0x1_0000 / 0x100 == w / 0x100_0000;
  }

  function Overwrite(s: seq<Byte>, at: nat, bytes: seq<Byte>): (s': seq<Byte>)
    requires at + |bytes| <= |s|
    ensures |s'| == |s|
  {
    s[..at] + bytes + s[at + |bytes|..]
  }

  lemma OverwriteMiddle(a: seq<Byte>, b: seq<Byte>, c: seq<Byte>, d: seq<Byte>)
    requires |d| <= |b|
    ensures Overwrite(a + b + c, |a|, d) == a + d + b[|d|..] + c
  {}

  // ---------------------------------------------------------------- the layout

  /** Every argument with its terminator, one after the other: argbuf, and the top of the stack. */
  function Packed(args: seq<CString>): seq<Byte> {
    if args == [] then [] else args[0] + [0] + Packed(args[1..])
  }

  lemma {:induction false} PackedSplits(args: seq<CString>, i: nat)
    requires i <= |args|
    ensures Packed(args) == Packed(args[..i]) + Packed(args[i..])
  {
    if i > 0 {
      PackedSplits(args[1..], i - 1);
      assert args[..i][1..] == args[1..][..i - 1] && args[1..][i - 1..] == args[i..];
    }
  }

  lemma PackedSnoc(args: seq<CString>, i: nat)
    requires i < |args|
    ensures Packed(args[..i + 1]) == Packed(args[..i]) + args[i] + [0]
  {
    PackedSplits(args[..i + 1], i);
    assert args[..i + 1][..i] == args[..i] && args[..i + 1][i..] == [args[i]];
  }

  /** Where the strings start, where the argument block starts, and the initial stack pointer
      (load_program.c:98-106).  All of them may be negative for want of space. */
  function Strings(args: seq<CString>): int {
    VMEM_1_LIMIT - |Packed(args)|
  }

  function RoundDown(x: int, to: int): (r: int)
    requires to > 0
    ensures r <= x < r + to && r == x / to * to
  {
    x / to * to
  }

  function Block(args: seq<CString>): (cpp: int)
    ensures cpp + (|args| + 3) * WORD <= Strings(args) && cpp % 8 == 0
  {
    RoundDown(Strings(args) - (|args| + 3 + POST_ARGV_NULL_SPACE) * WORD, 8)
  }

  function StackPointer(args: seq<CString>): (sp: int)
    ensures sp + INITIAL_STACK_FRAME_SIZE == Block(args)
  {
    Block(args) - INITIAL_STACK_FRAME_SIZE
  }

  /** The block is the highest double-word boundary with room above it for argc, the pointers, the two
      nulls and the space after them, and the stack pointer is a frame below (load_program.c:98-106). */
  lemma BlockIsHighest(args: seq<CString>, b: int)
    requires b % 8 == 0
    ensures b <= Block(args) <==> b + (|args| + 3 + POST_ARGV_NULL_SPACE) * WORD <= VMEM_1_LIMIT - |Packed(args)|
    ensures StackPointer(args) == Block(args) - INITIAL_STACK_FRAME_SIZE
  {
    var top := Strings(args) - (|args| + 3 + POST_ARGV_NULL_SPACE) * WORD;
    assert Block(args) <= top < Block(args) + 8;
  }

  /** The address of string i. */
  function Address(args: seq<CString>, i: nat): (a: int)
    requires i <= |args|
    ensures Strings(args) <= a <= VMEM_1_LIMIT
  {
    PackedSplits(args, i);
    Strings(args) + |Packed(args[..i])|
  }

  /** argc and the first i pointers. */
  function Head(args: seq<CString>, i: nat): (s: seq<Byte>)
    requires i <= |args| && Block(args) >= 0
    ensures |s| == (i + 1) * WORD
  {
    if i == 0 then Bytes(|args|) else Head(args, i - 1) + Bytes(Address(args, i - 1))
  }

  /** The bytes from Block(args) to the end of the region. */
  function Image(args: seq<CString>): (s: seq<Byte>)
    requires Block(args) >= 0
    ensures |s| == VMEM_1_LIMIT - Block(args)
  {
    Head(args, |args|) + Zeros(Strings(args) - Block(args) - (|args| + 1) * WORD) + Packed(args)
  }

  // ---------------------------------------------------------------- reading it back

  /** The C string at the start of s. */
  function StringIn(s: seq<Byte>): Option<CString> {
    if s == [] then None
    else if s[0] == 0 then Some([])
    else match StringIn(s[1..])
      case None => None
      case Some(t) => Some([s[0]] + t)
  }

  lemma {:induction false} StringFound(a: CString, rest: seq<Byte>)
    requires NoNul(a)
    ensures StringIn(a + [0] + rest) == Some(a)
  {
    if a == [] {
      assert (a + [0] + rest)[0] == 0;
    } else {
      assert a == [a[0]] + a[1..];
      assert (a + [0] + rest)[1..] == a[1..] + [0] + rest && (a + [0] + rest)[0] == a[0] && a[0] in a;
      StringFound(a[1..], rest);
    }
  }

  /** n pointers to strings, from address p on, and two null words after them. */
  function ReadPointers(mem: seq<Byte>, p: nat, n: nat): Option<seq<CString>>
    decreases n
  {
    if p + WORD > |mem| then None
    else if n == 0 then
      (if p + 2 * WORD <= |mem| && Word(mem, p) == 0 && Word(mem, p + WORD) == 0 then Some([]) else None)
    else if Word(mem, p) > |mem| then None
    else match StringIn(mem[Word(mem, p)..])
      case None => None
      case Some(s) =>
        match ReadPointers(mem, p + WORD, n - 1)
        case None => None
        case Some(more) => Some([s] + more)
  }

  /** What main finds at cpp: argc, argv and an empty environment. */
  function ReadArgs(mem: seq<Byte>, cpp: nat): Option<seq<CString>> {
    if cpp + WORD > |mem| then None else ReadPointers(mem, cpp + WORD, Word(mem, cpp))
  }

  ghost predicate HoldsArgs(mem: seq<Byte>, args: seq<CString>) {
    |mem| == VMEM_1_LIMIT && Block(args) >= 0 && mem[Block(args)..] == Image(args)
  }

  lemma {:induction false} HeadAt(args: seq<CString>, n: nat, i: nat)
    requires i <= n <= |args| && Block(args) >= 0
    ensures Word(Head(args, n), i * WORD) == if i == 0 then |args| else Address(args, i - 1)
  {
    if i == n {
      var w := if i == 0 then |args| else Address(args, i - 1);
      var a := if i == 0 then [] else Head(args, n - 1);
      WordOfBytes(a, w, []);
      assert a + Bytes(w) + [] == Head(args, n);
    } else {
      HeadAt(args, n - 1, i);
    }
  }

  /** Word i of the block. */
  lemma WordHeld(mem: seq<Byte>, args: seq<CString>, i: nat)
    requires HoldsArgs(mem, args) && i <= |args|
    ensures Block(args) + (i + 1) * WORD <= |mem|
    ensures Word(mem, Block(args) + i * WORD) == if i == 0 then |args| else Address(args, i - 1)
  {
    HeadAt(args, |args|, i);
    var b, h := Block(args), Head(args, |args|);
    forall k | 0 <= k < |h|
      ensures mem[b + k] == h[k]
    {
      assert mem[b..][k] == Image(args)[k];
    }
  }

  lemma NullHeld(mem: seq<Byte>, args: seq<CString>, p: nat)
    requires HoldsArgs(mem, args) && Block(args) + (|args| + 1) * WORD <= p && p + WORD <= Strings(args)
    ensures Word(mem, p) == 0
  {
    forall k | p <= k < p + WORD
      ensures mem[k] == 0
    {
      assert mem[Block(args)..][k - Block(args)] == Image(args)[k - Block(args)];
    }
  }

  lemma StringHeld(mem: seq<Byte>, args: seq<CString>, i: nat)
    requires HoldsArgs(mem, args) && i < |args| && NoNul(args[i])
    ensures StringIn(mem[Address(args, i)..]) == Some(args[i])
  {
    PackedSplits(args, i);
    var a := Address(args, i);
    assert mem[a..] == mem[Block(args)..][a - Block(args)..];
    assert Image(args)[a - Block(args)..] == Packed(args[i..]);
    assert args[i..][0] == args[i];
    StringFound(args[i], Packed(args[i..][1..]));
  }

  /** Where the pointers from the i-th on start. */
  function Slot(args: seq<CString>, i: nat): int {
    Block(args) + (i + 1) * WORD
  }

  lemma PointerHeld(mem: seq<Byte>, args: seq<CString>, i: nat)
    requires HoldsArgs(mem, args) && i < |args| && NoNul(args[i])
    ensures 0 <= Slot(args, i) && Slot(args, i) + WORD == Slot(args, i + 1) <= |mem|
    ensures 0 <= Word(mem, Slot(args, i)) <= |mem| && StringIn(mem[Word(mem, Slot(args, i))..]) == Some(args[i])
  {
    WordHeld(mem, args, i + 1);
    StringHeld(mem, args, i);
  }

  lemma NullsHeld(mem: seq<Byte>, args: seq<CString>)
    requires HoldsArgs(mem, args)
    ensures 0 <= Slot(args, |args|) && ReadPointers(mem, Slot(args, |args|), 0) == Some([])
  {
    NullHeld(mem, args, Slot(args, |args|));
    NullHeld(mem, args, Slot(args, |args|) + WORD);
  }

  lemma ReadOneMore(mem: seq<Byte>, args: seq<CString>, i: nat)
    requires HoldsArgs(mem, args) && i < |args| && NoNul(args[i]) && 0 <= Slot(args, i + 1)
    requires ReadPointers(mem, Slot(args, i + 1), |args| - (i + 1)) == Some(args[i + 1..])
    ensures 0 <= Slot(args, i) && ReadPointers(mem, Slot(args, i), |args| - i) == Some(args[i..])
  {
    PointerHeld(mem, args, i);
    assert args[i..] == [args[i]] + args[i + 1..];
  }

  lemma {:induction false} PointersRead(mem: seq<Byte>, args: seq<CString>, i: nat)
    requires HoldsArgs(mem, args) && i <= |args| && forall a <- args :: NoNul(a)
    ensures 0 <= Slot(args, i) && ReadPointers(mem, Slot(args, i), |args| - i) == Some(args[i..])
    decreases |args| - i
  {
    if i == |args| {
      NullsHeld(mem, args);
      assert args[i..] == [];
    } else {
      assert args[i] in args;
      PointersRead(mem, args, i + 1);
      ReadOneMore(mem, args, i);
    }
  }

  /** Whatever the arguments, a stack that holds their image reads back as exactly them. */
  lemma ArgumentsReadBack(mem: seq<Byte>, args: seq<CString>)
    requires HoldsArgs(mem, args) && forall a <- args :: NoNul(a)
    ensures ReadArgs(mem, Block(args)) == Some(args)
  {
    WordHeld(mem, args, 0);
    PointersRead(mem, args, 0);
  }
}
