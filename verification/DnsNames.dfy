/** Domain names as dotted text and as label lists, and what a compressed name
    in a packet means. */
module DnsNames {
  import opened Routes
  import opened Bytes

  /** Text, one code per byte. */
  type Name = seq<Byte>

  type Label = seq<Byte>

  const DOT: Byte := 46

  function Join(labels: seq<Label>): Name {
    if labels == [] then []
    else if |labels| == 1 then labels[0]
    else labels[0] + [DOT] + Join(labels[1..])
  }

  function Split(name: Name): (parts: seq<Label>)
    ensures parts != []
  {
    if name == [] then [[]]
    else
      var rest := Split(name[1..]);
      if name[0] == DOT then [[]] + rest
      else [[name[0]] + rest[0]] + rest[1..]
  }

  /** `name.split('.')` with the empty part after a trailing dot dropped. */
  function Parts(name: Name): seq<Label> {
    var parts := Split(name);
    if parts[|parts| - 1] == [] then parts[..|parts| - 1] else parts
  }

  predicate IsLabel(l: Label) {
    0 < |l| <= 63 && DOT !in l
  }

  predicate AreLabels(ls: seq<Label>) {
    forall i :: 0 <= i < |ls| ==> IsLabel(ls[i])
  }

  /** The root, or labels of 1 to 63 bytes, with or without a trailing dot. */
  predicate ValidName(name: Name) {
    AreLabels(Parts(name))
  }

  /** The name without a trailing dot. */
  function Canonical(name: Name): Name {
    if name != [] && name[|name| - 1] == DOT then name[..|name| - 1] else name
  }

  lemma {:induction false} JoinSplit(name: Name)
    ensures Join(Split(name)) == name
  {
    if name != [] {
      JoinSplit(name[1..]);
      var rest := Split(name[1..]);
      if name[0] == DOT {
        assert ([[]] + rest)[1..] == rest;
      } else {
        var parts := [[name[0]] + rest[0]] + rest[1..];
        assert parts[1..] == rest[1..];
      }
    }
  }

  lemma {:induction false} JoinSnocEmpty(ls: seq<Label>)
    requires ls != []
    ensures Join(ls + [[]]) == Join(ls) + [DOT]
  {
    if |ls| == 1 {
      assert (ls + [[]])[1..] == [[]];
    } else {
      JoinSnocEmpty(ls[1..]);
      assert (ls + [[]])[1..] == ls[1..] + [[]];
    }
  }

  lemma {:induction false} JoinLastNonempty(ls: seq<Label>)
    requires ls != [] && ls[|ls| - 1] != [] && DOT !in ls[|ls| - 1]
    ensures Join(ls) != [] && Join(ls)[|Join(ls)| - 1] != DOT
  {
    if |ls| > 1 { JoinLastNonempty(ls[1..]); }
  }

  /** Splitting a valid name and joining it again only drops a trailing dot. */
  lemma JoinParts(name: Name)
    requires ValidName(name)
    ensures Join(Parts(name)) == Canonical(name)
  {
    JoinSplit(name);
    var parts := Split(name);
    if parts[|parts| - 1] == [] {
      if |parts| > 1 {
        assert parts == Parts(name) + [[]];
        JoinSnocEmpty(Parts(name));
      }
    } else {
      assert IsLabel(Parts(name)[|parts| - 1]);
      JoinLastNonempty(parts);
    }
  }

  /** A shorter tail of a label list is a shorter name. */
  lemma JoinShorter(ls: seq<Label>)
    requires |ls| > 0 && |ls[0]| > 0
    ensures |Join(ls[1..])| < |Join(ls)|
  {
  }

  // ----- what a name in a packet means -------------------------------------------------

  predicate IsLiteral(byte: Byte) {
    1 <= byte <= 63
  }

  /** Every other nonzero byte starts a pointer; the top two bits are dropped. */
  function PointerAt(b: seq<Byte>, pos: nat): nat
    requires pos + 1 < |b|
  {
    (b[pos] as int * 256 + b[pos + 1]) % 0x4000
  }

  /** The labels at `pos`, following each pointer to a place before the piece of
      the name it ends; None if that is impossible or runs off the packet. */
  function NaiveFrom(b: seq<Byte>, start: nat, pos: nat): Option<seq<Label>>
    decreases start, |b| - pos
  {
    if pos >= |b| then None
    else if IsLiteral(b[pos]) then
      match NaiveFrom(b, start, pos + 1 + b[pos])
      case None => None
      case Some(rest) => Some([Slice(b, pos + 1, pos + 1 + b[pos])] + rest)
    else if b[pos] == 0 then Some([])
    else if pos + 1 >= |b| || PointerAt(b, pos) >= start then None
    else NaiveFrom(b, PointerAt(b, pos), PointerAt(b, pos))
  }

  /** Naive decompression of the name at `pos`. */
  function Naive(b: seq<Byte>, pos: nat): Option<seq<Label>> {
    NaiveFrom(b, pos, pos)
  }

  /** A tail of a name means what it means as a name of its own. */
  lemma {:induction false} NaiveTail(b: seq<Byte>, start: nat, later: nat, pos: nat)
    requires start <= later && NaiveFrom(b, start, pos).Some?
    ensures NaiveFrom(b, later, pos) == NaiveFrom(b, start, pos)
    decreases |b| - pos
  {
    if IsLiteral(b[pos]) { NaiveTail(b, start, later, pos + 1 + b[pos]); }
  }

}
