/** The machine constants and small shared notions.  hardware.h is not part of this
    model, so its sizes are left open: every result holds for any value they may take. */
module Hardware {

  newtype Byte = x: int | 0 <= x < 256

  type Positive = x: int | 0 < x witness 1

  /** Capacity of a pipe's ring buffer (sync.h:15). */
  const PIPE_BUFFER_LEN: Positive

  type Pid = nat

  /** What calls return (yalnix.h is not part of this model). */
  const ERROR := -1
  const SUCCESS := 0

  datatype Option<T> = None | Some(value: T)

  function Zeros(n: nat): (s: seq<Byte>)
    ensures |s| == n
  {
    seq(n, i => 0)
  }

  function Min(a: int, b: int): (m: int)
    ensures m <= a && m <= b && (m == a || m == b)
  {
    if a < b then a else b
  }

  /** No element occurs twice. */
  ghost predicate NoDup<T(!new)>(s: seq<T>) {
    forall x :: multiset(s)[x] <= 1
  }

  function Flatten<T>(s: seq<seq<T>>): seq<T> {
    if s == [] then [] else s[0] + Flatten(s[1..])
  }

  lemma {:induction false} FlattenSnoc<T>(s: seq<seq<T>>, x: seq<T>)
    ensures Flatten(s + [x]) == Flatten(s) + x
  {
    if s == [] {
      assert [x][1..] == [];
    } else {
      assert (s + [x])[1..] == s[1..] + [x];
      FlattenSnoc(s[1..], x);
    }
  }

  lemma HeadAcross<T>(a: seq<T>, b: seq<T>)
    requires b != []
    ensures a + [b[0]] + b[1..] == a + b
  {}

  lemma MoveSlice<T>(a: seq<T>, b: seq<T>, n: nat)
    requires n <= |b|
    ensures a + b[..n] + b[n..] == a + b
  {}

  lemma MoveMiddle<T>(s: seq<T>, i: nat, j: nat)
    requires i <= j <= |s|
    ensures s[..i] + s[i..j] == s[..j]
  {}

  lemma Assoc<T>(a: seq<T>, b: seq<T>, c: seq<T>)
    ensures a + b + c == a + (b + c)
  {}

  lemma Suffixes<T>(a: seq<T>, b: seq<T>, c: seq<T>)
    requires a <= b <= c
    ensures a <= c && c[|a|..] == b[|a|..] + c[|b|..]
  {}

  /** What a sequence with the elements of two others has in common with them. */
  lemma Members<T(!new)>(a: seq<T>, b: seq<T>, c: seq<T>)
    requires multiset(a) == multiset(b) + multiset(c)
    ensures forall x :: x in a <==> x in b || x in c
    ensures NoDup(a) <==> NoDup(b) && NoDup(c) && forall x <- b :: x !in c
  {
    forall x
      ensures x in a <==> x in b || x in c
    {
      assert x in a <==> x in multiset(a);
      assert x in b <==> x in multiset(b);
      assert x in c <==> x in multiset(c);
    }
    NoDupSplits(a, b, c);
  }

  lemma NoDupSplits<T(!new)>(a: seq<T>, b: seq<T>, c: seq<T>)
    requires multiset(a) == multiset(b) + multiset(c)
    ensures NoDup(a) <==> NoDup(b) && NoDup(c) && forall x <- b :: x !in c
  {
    assert forall x :: multiset(a)[x] == multiset(b)[x] + multiset(c)[x];
    if NoDup(a) {
      forall x
        ensures multiset(b)[x] <= 1 && multiset(c)[x] <= 1
        ensures x in b ==> x !in c
      {
        assert multiset(a)[x] <= 1;
        assert x in b <==> multiset(b)[x] > 0;
        assert x in c <==> multiset(c)[x] > 0;
      }
    }
    if NoDup(b) && NoDup(c) && forall x <- b :: x !in c {
      forall x
        ensures multiset(a)[x] <= 1
      {
        assert x in b <==> multiset(b)[x] > 0;
        assert x in c <==> multiset(c)[x] > 0;
      }
    }
  }
}
