/** Byte strings: Python slices, network-order integers, and what stands where. */
module Bytes {
  import opened Routes

  function Min(a: int, b: int): int {
    if a < b then a else b
  }

  /** A Python slice of bytes: it stops at the end. */
  function Slice(b: seq<Byte>, from: nat, upto: nat): seq<Byte>
    requires from <= upto
  {
    b[Min(from, |b|)..Min(upto, |b|)]
  }

  function U16At(b: seq<Byte>, pos: nat): nat
    requires pos + 2 <= |b|
  {
    b[pos] as int * 256 + b[pos + 1]
  }

  function U32At(b: seq<Byte>, pos: nat): nat
    requires pos + 4 <= |b|
  {
    U16At(b, pos) * 65536 + U16At(b, pos + 2)
  }

  function Put16(n: nat): seq<Byte>
    requires n < 65536
  {
    [n / 256, n % 256]
  }

  function Put32(n: nat): seq<Byte>
    requires n < U32
  {
    Put16(n / 65536) + Put16(n % 65536)
  }

  /** `w` stands in `b` at `pos`. */
  predicate Holds(b: seq<Byte>, pos: nat, w: seq<Byte>) {
    pos + |w| <= |b| && b[pos..pos + |w|] == w
  }

  lemma HoldsSplit(b: seq<Byte>, pos: nat, u: seq<Byte>, v: seq<Byte>)
    ensures Holds(b, pos, u + v) <==> Holds(b, pos, u) && Holds(b, pos + |u|, v)
  {
    if Holds(b, pos, u + v) {
      assert b[pos..pos + |u|] == b[pos..pos + |u + v|][..|u|];
      assert b[pos + |u|..pos + |u| + |v|] == b[pos..pos + |u + v|][|u|..];
    }
    if Holds(b, pos, u) && Holds(b, pos + |u|, v) {
      assert b[pos..pos + |u + v|] == b[pos..pos + |u|] + b[pos + |u|..pos + |u| + |v|];
    }
  }

  lemma Got16(b: seq<Byte>, pos: nat, n: nat)
    requires n < 65536 && Holds(b, pos, Put16(n))
    ensures pos + 2 <= |b| && U16At(b, pos) == n
  {
    assert b[pos] == b[pos..pos + 2][0] && b[pos + 1] == b[pos..pos + 2][1];
  }

  lemma Got32(b: seq<Byte>, pos: nat, n: nat)
    requires n < U32 && Holds(b, pos, Put32(n))
    ensures pos + 4 <= |b| && U32At(b, pos) == n
  {
    HoldsSplit(b, pos, Put16(n / 65536), Put16(n % 65536));
    Got16(b, pos, n / 65536);
    Got16(b, pos + 2, n % 65536);
  }

  lemma WholeHolds(b: seq<Byte>)
    ensures Holds(b, 0, b)
  {
  }
}
