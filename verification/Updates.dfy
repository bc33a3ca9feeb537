/** Repacking a routing table into BGP UPDATE messages: grouping by attributes,
    filling messages, and the attribute encoding. */
module Updates {
  import opened Routes
  import opened Bytes

  /** One prefix as the dump stores it: its length and its significant bytes. */
  datatype Member = Member(plen: Byte, bits: seq<Byte>)

  /** What routes are grouped by.  The next hop is empty for IPv4, where it is one
      of the attributes. */
  datatype Shared = Shared(attrs: seq<Byte>, nexthop: seq<Byte>)

  datatype Entry = Entry(member: Member, shared: Shared)

  datatype Group = Group(shared: Shared, members: seq<Member>)

  predicate WellSized(m: Member) {
    |m.bits| == (m.plen + 7) / 8
  }

  // ----- grouping ----------------------------------------------------------------------

  /** Where a key is in the ordered dictionary; its length if it is not. */
  function IndexOf(groups: seq<Group>, k: Shared): (i: nat)
    ensures i <= |groups|
    ensures i < |groups| ==> groups[i].shared == k
    ensures forall j :: 0 <= j < i ==> groups[j].shared != k
  {
    if groups == [] then 0
    else if groups[0].shared == k then 0
    else 1 + IndexOf(groups[1..], k)
  }

  function Into(groups: seq<Group>, e: Entry): seq<Group> {
    var i := IndexOf(groups, e.shared);
    if i < |groups| then groups[i := Group(e.shared, groups[i].members + [e.member])]
    else groups + [Group(e.shared, [e.member])]
  }

  /** `_group_by_attrs`. */
  function GroupBy(entries: seq<Entry>): seq<Group> {
    if entries == [] then [] else Into(GroupBy(entries[..|entries| - 1]), entries[|entries| - 1])
  }

  /** The members that share `k`, in the order of the table. */
  function MembersOf(entries: seq<Entry>, k: Shared): seq<Member> {
    if entries == [] then []
    else
      var front, last := MembersOf(entries[..|entries| - 1], k), entries[|entries| - 1];
      if last.shared == k then front + [last.member] else front
  }

  /** Each key once, where it is first seen. */
  function FirstSeen(entries: seq<Entry>): seq<Shared> {
    if entries == [] then []
    else
      var front, last := FirstSeen(entries[..|entries| - 1]), entries[|entries| - 1];
      if last.shared in front then front else front + [last.shared]
  }

  function Keys(groups: seq<Group>): (r: seq<Shared>)
    ensures |r| == |groups| && forall i :: 0 <= i < |r| ==> r[i] == groups[i].shared
  {
    seq(|groups|, i requires 0 <= i < |groups| => groups[i].shared)
  }

  /** Groups come in first-seen order, one for each key, with exactly the members
      that share it, in table order. */
  ghost predicate Grouped(groups: seq<Group>, entries: seq<Entry>) {
    && Keys(groups) == FirstSeen(entries)
    && (forall i, j :: 0 <= i < j < |groups| ==> groups[i].shared != groups[j].shared)
    && (forall i :: 0 <= i < |groups| ==> groups[i].members == MembersOf(entries, groups[i].shared))
    && (forall k :: k !in FirstSeen(entries) ==> MembersOf(entries, k) == [])
  }

  lemma {:induction false} GroupByExact(entries: seq<Entry>)
    ensures Grouped(GroupBy(entries), entries)
  {
    hide Grouped, Into;
    if entries == [] {
      NoGroups();
    } else {
      GroupByExact(entries[..|entries| - 1]);
      IntoGrouped(GroupBy(entries[..|entries| - 1]), entries);
    }
  }

  lemma NoGroups()
    ensures Grouped([], [])
  {
  }

  lemma IntoGrouped(groups: seq<Group>, entries: seq<Entry>)
    requires entries != [] && Grouped(groups, entries[..|entries| - 1])
    ensures Grouped(Into(groups, entries[|entries| - 1]), entries)
  {
    var last := entries[|entries| - 1];
    IntoKeys(groups, entries);
    IntoMembers(groups, entries);
    assert forall k :: k !in FirstSeen(entries) ==> k != last.shared && k !in FirstSeen(entries[..|entries| - 1]);
  }

  lemma IntoKeys(groups: seq<Group>, entries: seq<Entry>)
    requires entries != [] && Keys(groups) == FirstSeen(entries[..|entries| - 1])
    ensures Keys(Into(groups, entries[|entries| - 1])) == FirstSeen(entries)
  {
    hide MembersOf;
    var last := entries[|entries| - 1];
    var i := IndexOf(groups, last.shared);
    if i < |groups| {
      assert Keys(groups)[i] == last.shared;
    } else {
      assert forall j :: 0 <= j < |groups| ==> Keys(groups)[j] != last.shared;
    }
  }

  lemma IntoMembers(groups: seq<Group>, entries: seq<Entry>)
    requires entries != [] && Grouped(groups, entries[..|entries| - 1])
    ensures var into := Into(groups, entries[|entries| - 1]);
      && (forall i, j :: 0 <= i < j < |into| ==> into[i].shared != into[j].shared)
      && (forall i :: 0 <= i < |into| ==> into[i].members == MembersOf(entries, into[i].shared))
  {
    var front, last := entries[..|entries| - 1], entries[|entries| - 1];
    if IndexOf(groups, last.shared) == |groups| {
      assert forall j :: 0 <= j < |groups| ==> Keys(groups)[j] != last.shared;
      assert last.shared !in FirstSeen(front);
    }
  }

  // ----- conservation --------------------------------------------------------------------

  function Spread(shared: Shared, members: seq<Member>): (r: seq<Entry>)
    ensures |r| == |members| && forall i :: 0 <= i < |r| ==> r[i] == Entry(members[i], shared)
  {
    seq(|members|, i requires 0 <= i < |members| => Entry(members[i], shared))
  }

  function Flatten(groups: seq<Group>): seq<Entry> {
    if groups == [] then [] else Spread(groups[0].shared, groups[0].members) + Flatten(groups[1..])
  }

  lemma {:induction false} FlattenConcat(a: seq<Group>, b: seq<Group>)
    ensures Flatten(a + b) == Flatten(a) + Flatten(b)
  {
    if a == [] {
      assert a + b == b;
    } else {
      assert (a + b)[1..] == a[1..] + b;
      FlattenConcat(a[1..], b);
    }
  }

  /** Grouping loses no route and makes none up. */
  lemma {:induction false} GroupByConserves(entries: seq<Entry>)
    ensures multiset(Flatten(GroupBy(entries))) == multiset(entries)
  {
    if entries == [] {
    } else {
      var front, last := entries[..|entries| - 1], entries[|entries| - 1];
      GroupByConserves(front);
      IntoAdds(GroupBy(front), last);
      assert entries == front + [last];
    }
  }

  lemma IntoAdds(groups: seq<Group>, e: Entry)
    ensures multiset(Flatten(Into(groups, e))) == multiset(Flatten(groups)) + multiset{e}
  {
    var i := IndexOf(groups, e.shared);
    if i < |groups| {
      var g := groups[i];
      var grown := Group(e.shared, g.members + [e.member]);
      assert groups == groups[..i] + [g] + groups[i + 1..];
      assert Into(groups, e) == groups[..i] + [grown] + groups[i + 1..];
      Around(groups[..i], g, groups[i + 1..]);
      Around(groups[..i], grown, groups[i + 1..]);
      assert Spread(grown.shared, grown.members) == Spread(g.shared, g.members) + [e];
    } else {
      FlattenConcat(groups, [Group(e.shared, [e.member])]);
      One(Group(e.shared, [e.member]));
      assert Spread(e.shared, [e.member]) == [e];
    }
  }

  lemma One(g: Group)
    ensures Flatten([g]) == Spread(g.shared, g.members)
  {
    assert [g][1..] == [];
  }

  lemma Around(a: seq<Group>, g: Group, b: seq<Group>)
    ensures Flatten(a + [g] + b) == Flatten(a) + Spread(g.shared, g.members) + Flatten(b)
  {
    FlattenConcat(a + [g], b);
    FlattenConcat(a, [g]);
    One(g);
  }

  // ----- filling messages ------------------------------------------------------------------

  /** `_pack_prefix`. */
  function Pack(m: Member): seq<Byte> {
    [m.plen] + m.bits
  }

  function PackAll(ms: seq<Member>): seq<Byte> {
    if ms == [] then [] else Pack(ms[0]) + PackAll(ms[1..])
  }

  lemma {:induction false} PackSnoc(ms: seq<Member>, m: Member)
    ensures PackAll(ms + [m]) == PackAll(ms) + Pack(m)
  {
    if ms == [] {
      assert PackAll([m]) == Pack(m) + PackAll([m][1..]);
    } else {
      assert (ms + [m])[1..] == ms[1..] + [m];
      PackSnoc(ms[1..], m);
    }
  }

  /** `_fill`, with `batch` begun. */
  function FillFrom(todo: seq<Member>, room: nat, batch: seq<Member>): seq<seq<Member>> {
    if todo == [] then (if batch == [] then [] else [batch])
    else if |PackAll(batch)| + |Pack(todo[0])| > room && batch != [] then [batch] + FillFrom(todo[1..], room, [todo[0]])
    else FillFrom(todo[1..], room, batch + [todo[0]])
  }

  function Fill(members: seq<Member>, room: nat): seq<seq<Member>> {
    FillFrom(members, room, [])
  }

  function Concat(batches: seq<seq<Member>>): seq<Member> {
    if batches == [] then [] else batches[0] + Concat(batches[1..])
  }

  predicate Fits(batch: seq<Member>, room: nat) {
    batch != [] && (|PackAll(batch)| <= room || |batch| == 1)
  }

  /** Filling keeps every member, in order. */
  lemma {:induction false} FillConserves(todo: seq<Member>, room: nat, batch: seq<Member>)
    ensures Concat(FillFrom(todo, room, batch)) == batch + todo
    decreases |todo|
  {
    hide PackAll, Pack;
    if todo == [] {
      if batch != [] { assert Concat([batch]) == batch + Concat([batch][1..]); }
    } else if |PackAll(batch)| + |Pack(todo[0])| > room && batch != [] {
      FillConserves(todo[1..], room, [todo[0]]);
      var rest := FillFrom(todo[1..], room, [todo[0]]);
      assert ([batch] + rest)[1..] == rest;
      assert [todo[0]] + todo[1..] == todo;
    } else {
      FillConserves(todo[1..], room, batch + [todo[0]]);
      assert batch + [todo[0]] + todo[1..] == batch + todo;
    }
  }

  /** A batch overflows only when it is a single member that could not fit. */
  lemma {:induction false} FillFits(todo: seq<Member>, room: nat, batch: seq<Member>)
    requires batch != [] ==> Fits(batch, room)
    ensures forall b | b in FillFrom(todo, room, batch) :: Fits(b, room)
    decreases |todo|
  {
    if todo == [] {
    } else if |PackAll(batch)| + |Pack(todo[0])| > room && batch != [] {
      FillFits(todo[1..], room, [todo[0]]);
    } else {
      PackSnoc(batch, todo[0]);
      FillFits(todo[1..], room, batch + [todo[0]]);
    }
  }

  /** A speaker fills a message: the next batch's first member would not have
      fitted in the one before it. */
  lemma {:induction false} FillIsGreedy(todo: seq<Member>, room: nat, batch: seq<Member>, i: nat)
    requires i + 1 < |FillFrom(todo, room, batch)|
    requires batch != [] ==> Fits(batch, room)
    ensures var bs := FillFrom(todo, room, batch);
      bs[i + 1] != [] && |PackAll(bs[i])| + |Pack(bs[i + 1][0])| > room
    decreases |todo|
  {
    if |PackAll(batch)| + |Pack(todo[0])| > room && batch != [] {
      var rest := FillFrom(todo[1..], room, [todo[0]]);
      FillFits(todo[1..], room, [todo[0]]);
      if i == 0 {
        FirstBatch(todo[1..], room, [todo[0]]);
      } else {
        FillIsGreedy(todo[1..], room, [todo[0]], i - 1);
      }
    } else {
      PackSnoc(batch, todo[0]);
      FillIsGreedy(todo[1..], room, batch + [todo[0]], i);
    }
  }

  lemma {:induction false} FirstBatch(todo: seq<Member>, room: nat, batch: seq<Member>)
    requires batch != []
    ensures var bs := FillFrom(todo, room, batch); bs != [] && bs[0] != [] && bs[0][0] == batch[0]
    decreases |todo|
  {
    if todo != [] && |PackAll(batch)| + |Pack(todo[0])| <= room { FirstBatch(todo[1..], room, batch + [todo[0]]); }
  }

  // ----- attributes --------------------------------------------------------------------------

  datatype Attr = Attr(flags: Byte, atype: Byte, value: seq<Byte>)

  const MP_REACH: Byte := 14
  const MP_UNREACH: Byte := 15
  const OPTIONAL: Byte := 128

  /** The extended-length bit, 0x10. */
  predicate Extended(flags: Byte) {
    flags / 16 % 2 == 1
  }

  function WithExtended(flags: Byte): (r: Byte)
    ensures Extended(r) && r - 16 <= flags <= r
  {
    if Extended(flags) then flags else flags + 16
  }

  function WithoutExtended(flags: Byte): (r: Byte)
    ensures !Extended(r) && flags - 16 <= r <= flags
  {
    if Extended(flags) then flags - 16 else flags
  }

  predicate Encodable(a: Attr) {
    |a.value| < 65536
  }

  function AttrHeader(a: Attr): seq<Byte>
    requires Encodable(a)
  {
    if |a.value| > 255 then [WithExtended(a.flags), a.atype] + Put16(|a.value|)
    else [WithoutExtended(a.flags), a.atype, |a.value|]
  }

  /** `_encode_attr`. */
  function EncodeAttr(a: Attr): seq<Byte>
    requires Encodable(a)
  {
    AttrHeader(a) + a.value
  }

  function EncodeAll(attrs: seq<Attr>): seq<Byte>
    requires forall i :: 0 <= i < |attrs| ==> Encodable(attrs[i])
  {
    if attrs == [] then [] else EncodeAttr(attrs[0]) + EncodeAll(attrs[1..])
  }

  /** The length form an encoder chooses shows in the flags. */
  function Normal(a: Attr): Attr {
    a.(flags := if |a.value| > 255 then WithExtended(a.flags) else WithoutExtended(a.flags))
  }

  function NormalAll(attrs: seq<Attr>): (r: seq<Attr>)
    ensures |r| == |attrs| && forall i :: 0 <= i < |r| ==> r[i] == Normal(attrs[i])
  {
    seq(|attrs|, i requires 0 <= i < |attrs| => Normal(attrs[i]))
  }

  datatype TlvHead = TlvHead(flags: Byte, atype: Byte, start: nat, len: nat)

  /** One attribute's header at `pos`; None when it is cut short. */
  function HeadAt(b: seq<Byte>, pos: nat): Option<TlvHead>
    requires pos + 2 <= |b|
  {
    if Extended(b[pos]) then
      if pos + 4 > |b| then None else Some(TlvHead(b[pos], b[pos + 1], pos + 4, U16At(b, pos + 2)))
    else
      if pos + 3 > |b| then None else Some(TlvHead(b[pos], b[pos + 1], pos + 3, b[pos + 2]))
  }

  /** `split_attributes`; None is MrtError.  A last odd byte is ignored. */
  function SplitFrom(b: seq<Byte>, pos: nat): Option<seq<Attr>>
    decreases |b| - pos
  {
    if pos + 2 > |b| then Some([])
    else
      match HeadAt(b, pos)
      case None => None
      case Some(h) =>
        if h.start + h.len > |b| then None
        else
          match SplitFrom(b, h.start + h.len)
          case None => None
          case Some(rest) => Some([Attr(h.flags, h.atype, b[h.start..h.start + h.len])] + rest)
  }

  lemma AttrReads(b: seq<Byte>, pos: nat, a: Attr)
    requires Encodable(a) && Holds(b, pos, EncodeAttr(a))
    ensures pos + 2 <= |b|
    ensures HeadAt(b, pos) == Some(TlvHead(Normal(a).flags, a.atype, pos + |AttrHeader(a)|, |a.value|))
    ensures pos + |AttrHeader(a)| + |a.value| <= |b|
    ensures b[pos + |AttrHeader(a)|..pos + |AttrHeader(a)| + |a.value|] == a.value
  {
    var h := AttrHeader(a);
    HoldsSplit(b, pos, h, a.value);
    assert b[pos..pos + |h|] == h;
    forall i | 0 <= i < |h| ensures b[pos + i] == h[i] { assert b[pos + i] == b[pos..pos + |h|][i]; }
    if |a.value| > 255 {
      assert h[2] == Put16(|a.value|)[0] && h[3] == Put16(|a.value|)[1];
      assert b[pos + 2] == h[2] && b[pos + 3] == h[3];
    } else {
      assert b[pos + 2] == h[2];
    }
    assert b[pos] == h[0] && b[pos + 1] == h[1];
  }

  lemma AttrNormal(a: Attr)
    requires Encodable(a)
    ensures Normal(a) == Attr(Normal(a).flags, a.atype, a.value) && |EncodeAttr(a)| == |AttrHeader(a)| + |a.value|
  {
  }

  /** Splitting inverts encoding, the choice of length form aside. */
  lemma {:induction false} SplitEncode(b: seq<Byte>, pos: nat, attrs: seq<Attr>)
    requires (forall i :: 0 <= i < |attrs| ==> Encodable(attrs[i])) && Holds(b, pos, EncodeAll(attrs))
    requires pos + |EncodeAll(attrs)| == |b|
    ensures SplitFrom(b, pos) == Some(NormalAll(attrs))
    decreases |attrs|
  {
    hide Holds, HeadAt, AttrHeader, Normal, Put16, Extended;
    if attrs == [] {
    } else {
      HoldsSplit(b, pos, EncodeAttr(attrs[0]), EncodeAll(attrs[1..]));
      AttrReads(b, pos, attrs[0]);
      AttrNormal(attrs[0]);
      SplitEncode(b, pos + |EncodeAttr(attrs[0])|, attrs[1..]);
      assert NormalAll(attrs) == [Normal(attrs[0])] + NormalAll(attrs[1..]);
    }
  }

  // ----- taking the multiprotocol attributes out ----------------------------------------------

  datatype MpReach = MpReach(nexthop: seq<Byte>, nlri: seq<Byte>)

  /** `mp_reach_parts`, as far as the repacking reads it. */
  function MpParts(value: seq<Byte>): Option<MpReach> {
    if |value| < 5 || 4 + value[3] + 1 > |value| then None
    else Some(MpReach(value[4..4 + value[3]], value[5 + value[3]..]))
  }

  datatype Stripped = Stripped(plain: seq<Byte>, nexthop: seq<Byte>, mismatch: bool)

  function Kept(attrs: seq<Attr>): seq<Attr> {
    if attrs == [] then []
    else if attrs[0].atype == MP_REACH || attrs[0].atype == MP_UNREACH then Kept(attrs[1..])
    else [attrs[0]] + Kept(attrs[1..])
  }

  lemma {:induction false} KeptSubset(attrs: seq<Attr>)
    ensures forall a | a in Kept(attrs) :: a in attrs && a.atype != MP_REACH && a.atype != MP_UNREACH
  {
    if attrs != [] { KeptSubset(attrs[1..]); }
  }

  lemma {:induction false} SplitEncodable(b: seq<Byte>, pos: nat)
    ensures SplitFrom(b, pos).Some? ==> forall a | a in SplitFrom(b, pos).value :: Encodable(a)
    decreases |b| - pos
  {
    if pos + 2 <= |b| && HeadAt(b, pos).Some? {
      var h := HeadAt(b, pos).value;
      if h.start + h.len <= |b| { SplitEncodable(b, h.start + h.len); }
    }
  }

  /** `_strip_mp`'s loop: the last readable MP_REACH gives the next hop; one that
      names another prefix drops the route. */
  function NexthopOf(attrs: seq<Attr>, expected: seq<Byte>, sofar: seq<Byte>): Option<seq<Byte>> {
    if attrs == [] then Some(sofar)
    else if attrs[0].atype == MP_REACH then
      match MpParts(attrs[0].value)
      case None => NexthopOf(attrs[1..], expected, sofar)
      case Some(parts) =>
        if parts.nlri != [] && parts.nlri != expected then None
        else NexthopOf(attrs[1..], expected, parts.nexthop)
    else NexthopOf(attrs[1..], expected, sofar)
  }

  /** `_strip_mp`; None is MrtError. */
  function Strip(attrs: seq<Byte>, m: Member): Option<Stripped> {
    match SplitFrom(attrs, 0)
    case None => None
    case Some(list) =>
      SplitEncodable(attrs, 0);
      KeptSubset(list);
      match NexthopOf(list, Pack(m), [])
      case None => Some(Stripped([], [], true))
      case Some(nexthop) => Some(Stripped(EncodeAll(Kept(list)), nexthop, false))
  }

  /** Everything but the multiprotocol attributes is carried through: reading the
      stripped block gives the other attributes, in order. */
  lemma StripKeepsTheRest(attrs: seq<Byte>, m: Member)
    requires Strip(attrs, m).Some? && !Strip(attrs, m).value.mismatch
    ensures SplitFrom(Strip(attrs, m).value.plain, 0) == Some(NormalAll(Kept(SplitFrom(attrs, 0).value)))
    ensures forall a | a in Kept(SplitFrom(attrs, 0).value) :: a.atype != MP_REACH
  {
    var list := SplitFrom(attrs, 0).value;
    SplitEncodable(attrs, 0);
    KeptSubset(list);
    WholeHolds(EncodeAll(Kept(list)));
    SplitEncode(EncodeAll(Kept(list)), 0, Kept(list));
  }
}
