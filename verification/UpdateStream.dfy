/** The UPDATE stream built from a table, and walking it back into routes. */
module UpdateStream {
  import opened Routes
  import opened Bytes
  import opened Updates

  // ----- building ------------------------------------------------------------------------

  const HEADER: nat := 19

  const MARKER: seq<Byte> := [255, 255, 255, 255, 255, 255, 255, 255, 255, 255, 255, 255, 255, 255, 255, 255]

  const UPDATE: Byte := 2

  /** Bytes left for NLRI in one message; the IPv6 form leaves four bytes for the
      header of MP_REACH and five for its fixed part. */
  function Room(s: Shared, maxMsg: nat): int {
    if s.nexthop == [] then maxMsg - 23 - |s.attrs|
    else maxMsg - 23 - |s.attrs| - 4 - (5 + |s.nexthop|)
  }

  /** The 16-bit length fields and the next hop's length byte hold. */
  predicate Sendable(g: Group) {
    Room(g.shared, 65535) >= |PackAll(g.members)| && |g.shared.nexthop| < 256
  }

  function ReachValue(g: Group): seq<Byte>
    requires Sendable(g)
  {
    (Put16(2) + [1, |g.shared.nexthop|]) + (g.shared.nexthop + ([0] + PackAll(g.members)))
  }

  /** The MP_REACH built around one batch of NLRI. */
  function ReachAttr(g: Group): (a: Attr)
    requires Sendable(g) && g.shared.nexthop != []
    ensures Encodable(a) && a.atype == MP_REACH
  {
    Attr(OPTIONAL, MP_REACH, ReachValue(g))
  }

  function AttrsOut(g: Group): seq<Byte>
    requires Sendable(g)
  {
    if g.shared.nexthop == [] then g.shared.attrs else g.shared.attrs + EncodeAttr(ReachAttr(g))
  }

  function Body(g: Group): (b: seq<Byte>)
    requires Sendable(g)
    ensures |b| + HEADER < 65536
  {
    var attrs := AttrsOut(g);
    assert |attrs| < 65536;
    Put16(0) + (Put16(|attrs|) + (attrs + (if g.shared.nexthop == [] then PackAll(g.members) else [])))
  }

  /** `_message`. */
  function MessageOf(g: Group): seq<Byte>
    requires Sendable(g)
  {
    MARKER + (Put16(HEADER + |Body(g)|) + ([UPDATE] + Body(g)))
  }

  function StreamOf(batches: seq<Group>): seq<Byte>
    requires forall i :: 0 <= i < |batches| ==> Sendable(batches[i])
  {
    if batches == [] then [] else MessageOf(batches[0]) + StreamOf(batches[1..])
  }

  /** One group's messages, each with the group's attributes. */
  function Batched(s: Shared, fills: seq<seq<Member>>): (r: seq<Group>)
    ensures |r| == |fills| && forall i :: 0 <= i < |r| ==> r[i] == Group(s, fills[i])
  {
    seq(|fills|, i requires 0 <= i < |fills| => Group(s, fills[i]))
  }

  /** The messages of all groups; None when a group's attributes leave no room. */
  function Batches(groups: seq<Group>, maxMsg: nat): Option<seq<Group>> {
    if groups == [] then Some([])
    else if Room(groups[0].shared, maxMsg) <= 0 then None
    else
      match Batches(groups[1..], maxMsg)
      case None => None
      case Some(rest) => Some(Batched(groups[0].shared, Fill(groups[0].members, Room(groups[0].shared, maxMsg))) + rest)
  }

  predicate AllSendable(batches: seq<Group>) {
    forall i :: 0 <= i < |batches| ==> Sendable(batches[i])
  }

  function Members(batches: seq<Group>): nat {
    if batches == [] then 0 else |batches[0].members| + Members(batches[1..])
  }

  datatype Built = Built(stream: seq<Byte>, messages: nat, packed: nat)

  /** `build_updates`; None is MrtError, or a length no field can hold. */
  function Build(entries: seq<Entry>, maxMsg: nat): Option<Built> {
    match Batches(GroupBy(entries), maxMsg)
    case None => None
    case Some(batches) =>
      if !AllSendable(batches) then None else Some(Built(StreamOf(batches), |batches|, Members(batches)))
  }

  // ----- walking -------------------------------------------------------------------------

  datatype Reach = Found(at: nat) | Absent | Raises

  /** The walk over the attributes that looks for MP_REACH. */
  function ReachAt(b: seq<Byte>, pos: nat, end: nat): (r: Reach)
    ensures r.Found? ==> pos <= r.at && r.at + 2 <= |b| && HeadAt(b, r.at).Some?
    decreases end - pos
  {
    if pos + 2 > end then Absent
    else if pos + 2 > |b| then Raises
    else
      match HeadAt(b, pos)
      case None => Raises
      case Some(h) => if h.atype == MP_REACH then Found(pos) else ReachAt(b, h.start + h.len, end)
  }

  datatype Span = Span(start: nat, end: nat) | NoSpan | Broken

  /** `_nlri_spans`, for one message at `start`. */
  function NlriSpan(b: seq<Byte>, start: nat, end: nat, v6: bool): Span
    requires start + HEADER <= end <= |b|
  {
    var body := start + HEADER;
    if b[start + 18] != UPDATE then NoSpan
    else if body + 2 > |b| then Broken
    else
      var attrOff := body + 2 + U16At(b, body);
      if attrOff + 2 > |b| then Broken
      else
        var attrEnd := attrOff + 2 + U16At(b, attrOff);
        if !v6 then Span(attrEnd, end)
        else
          match ReachAt(b, attrOff + 2, attrEnd)
          case Absent => NoSpan
          case Raises => Broken
          case Found(at) =>
            var h := HeadAt(b, at).value;
            if h.start + 3 >= |b| then Broken else Span(h.start + 5 + b[h.start + 3], h.start + h.len)
  }

  /** NLRI as section 4.3 of RFC 4271 lays it out. */
  function SplitNlri(b: seq<Byte>): Option<seq<Member>> {
    if b == [] then Some([])
    else
      var size := 1 + (b[0] as int + 7) / 8;
      if size > |b| then None
      else
        match SplitNlri(b[size..])
        case None => None
        case Some(rest) => Some([Member(b[0], b[1..size])] + rest)
  }

  /** What a message says: its attributes up to MP_REACH, the next hop in that,
      and the prefixes in its NLRI span. */
  function ReadMessage(b: seq<Byte>, start: nat, end: nat, v6: bool): Option<Group>
    requires start + HEADER <= end <= |b|
  {
    var span := NlriSpan(b, start, end, v6);
    if !span.Span? || !(span.start <= span.end <= |b|) then None
    else
      match SplitNlri(b[span.start..span.end])
      case None => None
      case Some(members) =>
        var attrOff := start + HEADER + 2 + U16At(b, start + HEADER);
        var attrEnd := attrOff + 2 + U16At(b, attrOff);
        if attrEnd > |b| then None
        else if !v6 then Some(Group(Shared(b[attrOff + 2..attrEnd], []), members))
        else
          var at := ReachAt(b, attrOff + 2, attrEnd);
          var value := HeadAt(b, at.at).value.start;
          if value + 4 + b[value + 3] > |b| then None
          else Some(Group(Shared(b[attrOff + 2..at.at], b[value + 4..value + 4 + b[value + 3]]), members))
  }

  datatype Frame = Frame(start: nat, end: nat)

  predicate Whole(b: seq<Byte>, f: Frame) {
    f.start + HEADER <= f.end <= |b|
  }

  /** `_messages`: by the header's own length field, stopping at the first frame
      that is not whole. */
  function FramesFrom(b: seq<Byte>, offset: nat): (r: seq<Frame>)
    ensures forall i :: 0 <= i < |r| ==> Whole(b, r[i])
    decreases |b| - offset
  {
    if offset + HEADER > |b| then []
    else
      var f := Frame(offset, offset + U16At(b, offset + 16));
      if !Whole(b, f) then [] else [f] + FramesFrom(b, f.end)
  }

  /** Every message of a stream; None when one cannot be walked. */
  function ReadFrames(b: seq<Byte>, frames: seq<Frame>, v6: bool): Option<seq<Group>>
    requires forall i :: 0 <= i < |frames| ==> Whole(b, frames[i])
  {
    if frames == [] then Some([])
    else
      assert Whole(b, frames[0]);
      match ReadMessage(b, frames[0].start, frames[0].end, v6)
      case None => None
      case Some(g) =>
        match ReadFrames(b, frames[1..], v6)
        case None => None
        case Some(rest) => Some([g] + rest)
  }

  function ReadStream(b: seq<Byte>, offset: nat, v6: bool): Option<seq<Group>> {
    ReadFrames(b, FramesFrom(b, offset), v6)
  }

  // ----- what was packed comes back -----------------------------------------------------

  lemma FirstNlri(m: Member, rest: seq<Byte>)
    requires WellSized(m) && SplitNlri(rest).Some?
    ensures SplitNlri(Pack(m) + rest) == Some([m] + SplitNlri(rest).value)
  {
    var b, size := Pack(m) + rest, 1 + |m.bits|;
    assert b[0] == m.plen && b[size..] == rest && b[1..size] == m.bits;
  }

  lemma {:induction false} NlriRoundTrip(ms: seq<Member>)
    requires forall i :: 0 <= i < |ms| ==> WellSized(ms[i])
    ensures SplitNlri(PackAll(ms)) == Some(ms)
  {
    hide SplitNlri, WellSized, Pack;
    if ms == [] {
      NoNlri();
    } else {
      NlriRoundTrip(ms[1..]);
      FirstNlri(ms[0], PackAll(ms[1..]));
      assert [ms[0]] + ms[1..] == ms;
    }
  }

  lemma NoNlri()
    ensures SplitNlri([]) == Some([])
  {
  }

  /** The attributes of a message say nothing about MP_REACH themselves. */
  ghost predicate Plain(attrs: seq<Byte>, list: seq<Attr>) {
    && (forall i :: 0 <= i < |list| ==> Encodable(list[i]) && list[i].atype != MP_REACH)
    && attrs == EncodeAll(list)
  }

  /** What stripping leaves is such a block. */
  lemma StrippedIsPlain(attrs: seq<Byte>, m: Member)
    requires Strip(attrs, m).Some? && !Strip(attrs, m).value.mismatch
    ensures Plain(Strip(attrs, m).value.plain, Kept(SplitFrom(attrs, 0).value))
  {
    var list := SplitFrom(attrs, 0).value;
    SplitEncodable(attrs, 0);
    KeptSubset(list);
    forall i | 0 <= i < |Kept(list)| ensures Encodable(Kept(list)[i]) && Kept(list)[i].atype != MP_REACH {
      assert Kept(list)[i] in Kept(list);
    }
  }

  lemma {:induction false} ReachFound(b: seq<Byte>, pos: nat, list: seq<Attr>, reach: Attr, end: nat)
    requires (forall i :: 0 <= i < |list| ==> Encodable(list[i]) && list[i].atype != MP_REACH)
    requires Encodable(reach) && reach.atype == MP_REACH
    requires Holds(b, pos, EncodeAll(list) + EncodeAttr(reach)) && end == pos + |EncodeAll(list) + EncodeAttr(reach)|
    ensures ReachAt(b, pos, end) == Found(pos + |EncodeAll(list)|)
    decreases |list|
  {
    hide Holds, HeadAt, AttrHeader, Normal;
    if list == [] {
      assert EncodeAll(list) + EncodeAttr(reach) == EncodeAttr(reach);
      AttrReads(b, pos, reach);
      AttrLength(reach);
    } else {
      var first, rest := EncodeAttr(list[0]), EncodeAll(list[1..]);
      assert EncodeAll(list) + EncodeAttr(reach) == first + (rest + EncodeAttr(reach));
      HoldsSplit(b, pos, first, rest + EncodeAttr(reach));
      AttrReads(b, pos, list[0]);
      AttrLength(list[0]);
      ReachFound(b, pos + |first|, list[1..], reach, end);
    }
  }

  lemma AttrLength(a: Attr)
    requires Encodable(a)
    ensures |EncodeAttr(a)| == |AttrHeader(a)| + |a.value| && 3 <= |AttrHeader(a)| <= 4
  {
  }

  /** Sizes of a message's parts. */
  lemma MessageSize(g: Group)
    requires Sendable(g)
    ensures |MessageOf(g)| == HEADER + |Body(g)|
    ensures |Body(g)| == 4 + |AttrsOut(g)| + if g.shared.nexthop == [] then |PackAll(g.members)| else 0
  {
  }

  /** Every message is within the limit when each of its members fits alone, and
      otherwise over it by no more than that one member. */
  lemma MessageFits(g: Group, maxMsg: nat)
    requires Sendable(g) && |PackAll(g.members)| <= Room(g.shared, maxMsg)
    ensures |MessageOf(g)| <= maxMsg
  {
    MessageSize(g);
    if g.shared.nexthop != [] { AttrLength(ReachAttr(g)); }
  }

  /** The frame of a message, its attribute block and what follows it. */
  lemma FrameReads(b: seq<Byte>, pos: nat, g: Group)
    requires Sendable(g) && Holds(b, pos, MessageOf(g))
    ensures var end := pos + |MessageOf(g)|;
      && pos + HEADER + 4 <= end <= |b|
      && U16At(b, pos + 16) == |MessageOf(g)| && b[pos + 18] == UPDATE
      && U16At(b, pos + HEADER) == 0 && U16At(b, pos + HEADER + 2) == |AttrsOut(g)|
      && Holds(b, pos + HEADER + 4, AttrsOut(g))
      && (g.shared.nexthop == [] ==> Holds(b, pos + HEADER + 4 + |AttrsOut(g)|, PackAll(g.members)))
  {
    MessageSize(g);
    hide Body, AttrsOut, Sendable;
    var body := Body(g);
    HoldsSplit(b, pos, MARKER, Put16(HEADER + |body|) + ([UPDATE] + body));
    HoldsSplit(b, pos + 16, Put16(HEADER + |body|), [UPDATE] + body);
    HoldsSplit(b, pos + 18, [UPDATE], body);
    Got16(b, pos + 16, HEADER + |body|);
    assert b[pos + 18] == b[pos + 18..pos + 19][0];
    BodyReads(b, pos + HEADER, g);
  }

  lemma BodyReads(b: seq<Byte>, pos: nat, g: Group)
    requires Sendable(g) && Holds(b, pos, Body(g))
    ensures pos + 4 <= |b| && U16At(b, pos) == 0 && U16At(b, pos + 2) == |AttrsOut(g)|
    ensures Holds(b, pos + 4, AttrsOut(g))
    ensures g.shared.nexthop == [] ==> Holds(b, pos + 4 + |AttrsOut(g)|, PackAll(g.members))
  {
    var attrs := AttrsOut(g);
    var tail := if g.shared.nexthop == [] then PackAll(g.members) else [];
    HoldsSplit(b, pos, Put16(0), Put16(|attrs|) + (attrs + tail));
    HoldsSplit(b, pos + 2, Put16(|attrs|), attrs + tail);
    HoldsSplit(b, pos + 4, attrs, tail);
    Got16(b, pos, 0);
    Got16(b, pos + 2, |attrs|);
  }

  lemma MessageReads4(b: seq<Byte>, pos: nat, g: Group)
    requires Sendable(g) && g.shared.nexthop == [] && Holds(b, pos, MessageOf(g))
    requires forall i :: 0 <= i < |g.members| ==> WellSized(g.members[i])
    ensures pos + HEADER <= pos + |MessageOf(g)| <= |b|
    ensures ReadMessage(b, pos, pos + |MessageOf(g)|, false) == Some(g)
  {
    hide Holds, SplitNlri, MessageOf, Body, PackAll, HeadAt, ReachAt;
    FrameReads(b, pos, g);
    BlockReads(b, pos + HEADER + 4, g.shared.attrs);
    BlockReads(b, pos + HEADER + 4 + |g.shared.attrs|, PackAll(g.members));
    MessageLength4(g);
    NlriRoundTrip(g.members);
  }

  lemma MessageLength4(g: Group)
    requires Sendable(g) && g.shared.nexthop == []
    ensures |MessageOf(g)| == HEADER + 4 + |g.shared.attrs| + |PackAll(g.members)|
  {
    MessageSize(g);
  }

  lemma MessageReads6(b: seq<Byte>, pos: nat, g: Group, list: seq<Attr>)
    requires Sendable(g) && g.shared.nexthop != [] && Plain(g.shared.attrs, list) && Holds(b, pos, MessageOf(g))
    requires forall i :: 0 <= i < |g.members| ==> WellSized(g.members[i])
    ensures pos + HEADER <= pos + |MessageOf(g)| <= |b|
    ensures ReadMessage(b, pos, pos + |MessageOf(g)|, true) == Some(g)
  {
    hide Holds, HeadAt, AttrHeader, EncodeAttr, EncodeAll, SplitNlri, MessageOf, Body, PackAll, ReachValue, ReachAt,
      Normal, Sendable;
    PlainIsEncoded(g.shared.attrs, list);
    FrameReads(b, pos, g);
    var start := pos + HEADER + 4;
    var at := start + |g.shared.attrs|;
    ReachFound(b, start, list, ReachAttr(g), start + |AttrsOut(g)|);
    HoldsSplit(b, start, g.shared.attrs, EncodeAttr(ReachAttr(g)));
    AttrReads(b, at, ReachAttr(g));
    var value := at + |AttrHeader(ReachAttr(g))|;
    ValueReads(b, value, g);
    NlriRoundTrip(g.members);
    BlockReads(b, start, g.shared.attrs);
    BlockReads(b, start, AttrsOut(g));
  }

  lemma PlainIsEncoded(attrs: seq<Byte>, list: seq<Attr>)
    requires Plain(attrs, list)
    ensures (forall i :: 0 <= i < |list| ==> Encodable(list[i])) && attrs == EncodeAll(list)
  {
  }

  lemma BlockReads(b: seq<Byte>, pos: nat, w: seq<Byte>)
    requires Holds(b, pos, w)
    ensures pos + |w| <= |b| && b[pos..pos + |w|] == w
  {
  }

  /** The value of MP_REACH: next hop length, next hop, reserved byte, NLRI. */
  lemma ValueReads(b: seq<Byte>, pos: nat, g: Group)
    requires Sendable(g) && pos + |ReachValue(g)| <= |b| && b[pos..pos + |ReachValue(g)|] == ReachValue(g)
    ensures |ReachValue(g)| == 5 + |g.shared.nexthop| + |PackAll(g.members)|
    ensures b[pos + 3] == |g.shared.nexthop|
    ensures b[pos + 4..pos + 4 + |g.shared.nexthop|] == g.shared.nexthop
    ensures b[pos + 5 + |g.shared.nexthop|..pos + |ReachValue(g)|] == PackAll(g.members)
  {
    var n, nlri := g.shared.nexthop, PackAll(g.members);
    HoldsSplit(b, pos, Put16(2) + [1, |n|], n + ([0] + nlri));
    HoldsSplit(b, pos, Put16(2), [1, |n|]);
    HoldsSplit(b, pos + 4, n, [0] + nlri);
    HoldsSplit(b, pos + 4 + |n|, [0], nlri);
    assert b[pos + 3] == b[pos + 2..pos + 4][1];
  }

  /** What a batch must be for the walk to read it back. */
  ghost predicate Readable(g: Group, v6: bool) {
    && Sendable(g) && (forall i :: 0 <= i < |g.members| ==> WellSized(g.members[i]))
    && (if v6 then g.shared.nexthop != [] && exists list :: Plain(g.shared.attrs, list) else g.shared.nexthop == [])
  }

  lemma MessageReads(b: seq<Byte>, pos: nat, g: Group, v6: bool)
    requires Readable(g, v6) && Holds(b, pos, MessageOf(g))
    ensures pos + HEADER <= pos + |MessageOf(g)| <= |b| && U16At(b, pos + 16) == |MessageOf(g)|
    ensures ReadMessage(b, pos, pos + |MessageOf(g)|, v6) == Some(g)
  {
    hide MessageOf, ReadMessage, Holds, Plain;
    FrameReads(b, pos, g);
    if v6 {
      var list :| Plain(g.shared.attrs, list);
      MessageReads6(b, pos, g, list);
    } else {
      MessageReads4(b, pos, g);
    }
  }

  /** Walking the stream gives back exactly the batches it was built from. */
  lemma {:induction false} StreamReads(b: seq<Byte>, offset: nat, batches: seq<Group>, v6: bool)
    requires (forall i :: 0 <= i < |batches| ==> Readable(batches[i], v6)) && AllSendable(batches)
    requires Holds(b, offset, StreamOf(batches)) && offset + |StreamOf(batches)| == |b|
    ensures ReadStream(b, offset, v6) == Some(batches)
    decreases |batches|
  {
    hide MessageOf, ReadMessage, Holds, Readable, Sendable;
    if batches != [] {
      var first := MessageOf(batches[0]);
      HoldsSplit(b, offset, first, StreamOf(batches[1..]));
      MessageReads(b, offset, batches[0], v6);
      StreamReads(b, offset + |first|, batches[1..], v6);
      NextFrame(b, offset, |first|);
      assert [batches[0]] + batches[1..] == batches;
    }
  }

  lemma NextFrame(b: seq<Byte>, offset: nat, size: nat)
    requires HEADER <= size && offset + size <= |b| && U16At(b, offset + 16) == size
    ensures FramesFrom(b, offset) == [Frame(offset, offset + size)] + FramesFrom(b, offset + size)
  {
  }

  // ----- from the table and back -----------------------------------------------------------

  predicate FitsAlone(m: Member, s: Shared, maxMsg: nat) {
    |Pack(m)| <= Room(s, maxMsg)
  }

  lemma {:induction false} SpreadFills(s: Shared, fills: seq<seq<Member>>)
    ensures Flatten(Batched(s, fills)) == Spread(s, Concat(fills))
  {
    if fills == [] {
    } else {
      SpreadFills(s, fills[1..]);
      var batched := Batched(s, fills);
      assert batched[1..] == Batched(s, fills[1..]);
      assert Spread(s, fills[0] + Concat(fills[1..])) == Spread(s, fills[0]) + Spread(s, Concat(fills[1..]));
    }
  }

  /** The batches, laid end to end, are the groups. */
  lemma {:induction false} BatchesConserve(groups: seq<Group>, maxMsg: nat)
    requires Batches(groups, maxMsg).Some?
    ensures Flatten(Batches(groups, maxMsg).value) == Flatten(groups)
  {
    if groups != [] {
      var g, room := groups[0], Room(groups[0].shared, maxMsg);
      BatchesConserve(groups[1..], maxMsg);
      FillConserves(g.members, room, []);
      SpreadFills(g.shared, Fill(g.members, room));
      FlattenConcat(Batched(g.shared, Fill(g.members, room)), Batches(groups[1..], maxMsg).value);
      assert [] + g.members == g.members;
    }
  }

  lemma {:induction false} MembersCount(batches: seq<Group>)
    ensures Members(batches) == |Flatten(batches)|
  {
    if batches != [] { MembersCount(batches[1..]); }
  }

  /** Each batch has its group's attributes, some of its members, and a size. */
  lemma {:induction false} BatchesOf(groups: seq<Group>, maxMsg: nat)
    requires Batches(groups, maxMsg).Some?
    ensures forall b | b in Batches(groups, maxMsg).value :: exists g :: g in groups && FromGroup(b, g, maxMsg)
  {
    if groups != [] {
      var g, room := groups[0], Room(groups[0].shared, maxMsg);
      var own, rest := Batched(g.shared, Fill(g.members, room)), Batches(groups[1..], maxMsg).value;
      BatchesOf(groups[1..], maxMsg);
      FillFits(g.members, room, []);
      FillConserves(g.members, room, []);
      assert [] + g.members == g.members;
      forall b | b in own + rest ensures exists g' :: g' in groups && FromGroup(b, g', maxMsg) {
        if b in own {
          var i :| 0 <= i < |own| && own[i] == b;
          assert b.members in Fill(g.members, room);
          InConcat(Fill(g.members, room), b.members);
          assert groups[0] in groups && FromGroup(b, g, maxMsg);
        } else {
          var g' :| g' in groups[1..] && FromGroup(b, g', maxMsg);
          assert g' in groups;
        }
      }
    }
  }

  predicate FromGroup(b: Group, g: Group, maxMsg: nat) {
    && b.shared == g.shared && Room(g.shared, maxMsg) > 0 && Fits(b.members, Room(g.shared, maxMsg))
    && forall m | m in b.members :: m in g.members
  }

  lemma {:induction false} InConcat(fills: seq<seq<Member>>, ms: seq<Member>)
    requires ms in fills
    ensures forall m | m in ms :: m in Concat(fills)
  {
    if fills[0] != ms { InConcat(fills[1..], ms); }
  }

  lemma {:induction false} GroupedEntries(entries: seq<Entry>, g: Group, m: Member)
    requires g in GroupBy(entries) && m in g.members
    ensures Entry(m, g.shared) in entries
  {
    GroupByConserves(entries);
    InFlatten(GroupBy(entries), g, m);
    assert Entry(m, g.shared) in multiset(Flatten(GroupBy(entries)));
  }

  lemma {:induction false} InFlatten(groups: seq<Group>, g: Group, m: Member)
    requires g in groups && m in g.members
    ensures Entry(m, g.shared) in Flatten(groups)
  {
    if groups[0] == g {
      var i :| 0 <= i < |g.members| && g.members[i] == m;
      assert Spread(g.shared, g.members)[i] == Entry(m, g.shared);
    } else {
      InFlatten(groups[1..], g, m);
    }
  }

  /** A table entry that a message of its family can carry. */
  ghost predicate Carried(e: Entry, v6: bool) {
    && WellSized(e.member)
    && (if v6 then e.shared.nexthop != [] && exists list :: Plain(e.shared.attrs, list) else e.shared.nexthop == [])
  }

  /** A batch's members all come from the table, with its attributes. */
  lemma BatchFromTable(entries: seq<Entry>, maxMsg: nat, b: Group)
    requires Batches(GroupBy(entries), maxMsg).Some? && b in Batches(GroupBy(entries), maxMsg).value
    ensures b.members != [] && Room(b.shared, maxMsg) > 0 && Fits(b.members, Room(b.shared, maxMsg))
    ensures forall m | m in b.members :: Entry(m, b.shared) in entries
  {
    BatchesOf(GroupBy(entries), maxMsg);
    var g :| g in GroupBy(entries) && FromGroup(b, g, maxMsg);
    forall m | m in b.members ensures Entry(m, b.shared) in entries { GroupedEntries(entries, g, m); }
  }

  /** Framing and walking the stream gives back every route of the table exactly
      once, with its own attributes, grouped in first-seen order; the counts
      returned are the numbers of messages and of routes. */
  lemma RepackingConserves(entries: seq<Entry>, maxMsg: nat, v6: bool)
    requires Build(entries, maxMsg).Some? && forall e | e in entries :: Carried(e, v6)
    ensures var out := Build(entries, maxMsg).value;
      var back := ReadStream(out.stream, 0, v6);
      && back.Some? && Flatten(back.value) == Flatten(GroupBy(entries))
      && multiset(Flatten(back.value)) == multiset(entries)
      && out.messages == |back.value| && out.packed == |entries|
  {
    hide GroupBy, Batches, Sendable, StreamOf, Plain, Carried;
    var batches := Batches(GroupBy(entries), maxMsg).value;
    assert AllSendable(batches);
    forall i | 0 <= i < |batches| ensures Readable(batches[i], v6) { BatchIsReadable(entries, maxMsg, batches[i], v6); }
    WholeHolds(StreamOf(batches));
    StreamReads(StreamOf(batches), 0, batches, v6);
    BatchesConserve(GroupBy(entries), maxMsg);
    GroupByConserves(entries);
    MembersCount(batches);
    assert |Flatten(GroupBy(entries))| == |multiset(Flatten(GroupBy(entries)))| == |multiset(entries)| == |entries|;
  }

  lemma BatchIsReadable(entries: seq<Entry>, maxMsg: nat, b: Group, v6: bool)
    requires Batches(GroupBy(entries), maxMsg).Some? && b in Batches(GroupBy(entries), maxMsg).value && Sendable(b)
    requires forall e | e in entries :: Carried(e, v6)
    ensures Readable(b, v6)
  {
    hide GroupBy, Batches, Sendable, Plain;
    BatchFromTable(entries, maxMsg, b);
    forall i | 0 <= i < |b.members| ensures WellSized(b.members[i]) {
      assert Carried(Entry(b.members[i], b.shared), v6);
    }
    assert Carried(Entry(b.members[0], b.shared), v6);
  }

  // ----- from a dump to a stream and back -------------------------------------------------

  /** One path of a RIB record: the record's prefix and the stored attributes. */
  datatype Stored = Stored(member: Member, attrs: seq<Byte>)

  /** The table `load` makes of one peer's paths: as they are for IPv4; for IPv6
      with the next hop lifted out of the multiprotocol attributes, and without
      the paths that have none or name another prefix.  None is MrtError. */
  function LoadTable(paths: seq<Stored>, v6: bool): Option<seq<Entry>> {
    if paths == [] then Some([])
    else
      match LoadTable(paths[..|paths| - 1], v6)
      case None => None
      case Some(front) =>
        var last := paths[|paths| - 1];
        if !v6 then Some(front + [Entry(last.member, Shared(last.attrs, []))])
        else
          match Strip(last.attrs, last.member)
          case None => None
          case Some(s) =>
            if s.nexthop == [] then Some(front) else Some(front + [Entry(last.member, Shared(s.plain, s.nexthop))])
  }

  /** Whatever the dump holds, the messages can carry the table loaded from it. */
  lemma {:induction false} LoadedIsCarried(paths: seq<Stored>, v6: bool)
    requires LoadTable(paths, v6).Some? && forall p | p in paths :: WellSized(p.member)
    ensures forall e | e in LoadTable(paths, v6).value :: Carried(e, v6)
  {
    hide Plain, Strip, WellSized;
    if paths != [] {
      var front, last := paths[..|paths| - 1], paths[|paths| - 1];
      assert forall p | p in front :: p in paths;
      LoadedIsCarried(front, v6);
      if v6 && Strip(last.attrs, last.member).value.nexthop != [] {
        StrippedNexthop(last.attrs, last.member);
        StrippedIsPlain(last.attrs, last.member);
      }
    }
  }

  lemma StrippedNexthop(attrs: seq<Byte>, m: Member)
    requires Strip(attrs, m).Some? && Strip(attrs, m).value.nexthop != []
    ensures !Strip(attrs, m).value.mismatch
  {
  }

  /** A dump, loaded, repacked and walked back, gives exactly the table loaded. */
  lemma DumpSurvives(paths: seq<Stored>, maxMsg: nat, v6: bool)
    requires forall p | p in paths :: WellSized(p.member)
    requires LoadTable(paths, v6).Some? && Build(LoadTable(paths, v6).value, maxMsg).Some?
    ensures var entries := LoadTable(paths, v6).value;
      var out := Build(entries, maxMsg).value;
      var back := ReadStream(out.stream, 0, v6);
      && back.Some? && multiset(Flatten(back.value)) == multiset(entries) && out.packed == |entries|
  {
    hide Build, LoadTable, ReadStream, Flatten, Carried;
    LoadedIsCarried(paths, v6);
    RepackingConserves(LoadTable(paths, v6).value, maxMsg, v6);
  }

  /** Every message is within the limit if every prefix alone fits the room its
      attributes leave. */
  lemma MessagesFit(entries: seq<Entry>, maxMsg: nat, b: Group)
    requires Batches(GroupBy(entries), maxMsg).Some? && b in Batches(GroupBy(entries), maxMsg).value
    requires (forall e | e in entries :: FitsAlone(e.member, e.shared, maxMsg)) && Sendable(b)
    ensures |MessageOf(b)| <= maxMsg
  {
    BatchFromTable(entries, maxMsg, b);
    if |b.members| == 1 {
      assert FitsAlone(Entry(b.members[0], b.shared).member, b.shared, maxMsg);
      assert PackAll(b.members) == Pack(b.members[0]) + PackAll(b.members[1..]);
      assert b.members[1..] == [];
    }
    MessageFits(b, maxMsg);
  }

  // ----- the messages, byte by byte ---------------------------------------------------------

  /** The prefixes of a batch, each its length and its significant bytes, in order. */
  lemma {:induction false} NlriBytes(ms: seq<Member>)
    ensures ms == [] ==> PackAll(ms) == []
    ensures ms != [] ==> PackAll(ms) == [ms[0].plen] + ms[0].bits + PackAll(ms[1..])
  {
    if ms != [] { assert Pack(ms[0]) == [ms[0].plen] + ms[0].bits; }
  }

  /** A message is an UPDATE as section 4.3 of RFC 4271 has it: sixteen bytes of ones,
      its own length, type 2, no withdrawn routes, the attributes with their length,
      the prefixes.  With a next hop the prefixes are in a last attribute instead,
      MP_REACH_NLRI as section 3 of RFC 4760 has it: optional, type 14, address
      family 2, SAFI 1, the next hop with its length, a zero byte, the prefixes. */
  lemma MessageBytes(g: Group)
    requires Sendable(g)
    ensures var m, attrs, nlri := MessageOf(g), g.shared.attrs, PackAll(g.members);
      && 23 <= |m| < 65536
      && (forall i :: 0 <= i < 16 ==> m[i] == 255)
      && m[16] as int * 256 + m[17] == |m| && m[18] == 2 && m[19] == 0 && m[20] == 0
      && var size := m[21] as int * 256 + m[22];
        && 23 + size <= |m|
        && if g.shared.nexthop == [] then m[23..23 + size] == attrs && m[23 + size..] == nlri
           else
             && 23 + size == |m| && |attrs| <= size && m[23..23 + |attrs|] == attrs
             && IsReach(m[23 + |attrs|..], g.shared.nexthop, nlri)
  {
    hide IsReach, PackAll, EncodeAttr, Body, MessageOf, AttrsOut, Sendable, ReachAttr;
    var b, m, out := Body(g), MessageOf(g), AttrsOut(g);
    BodyBytes(g);
    HeaderBytes(g);
    SplitAttrs(g);
    assert m[19..][2..4] == m[21..23];
    assert m[19..][4..4 + |out|] == m[23..23 + |out|] && m[19..][4 + |out|..] == m[23 + |out|..];
    assert m[19..][0] == 0 && m[19..][1] == 0;
    assert out == m[23..23 + |out|];
    if g.shared.nexthop != [] {
      assert m[23..] == out;
      assert m[23..][..|g.shared.attrs|] == m[23..23 + |g.shared.attrs|];
      assert m[23..][|g.shared.attrs|..] == m[23 + |g.shared.attrs|..];
    }
  }

  lemma HeaderBytes(g: Group)
    requires Sendable(g)
    ensures var m, b := MessageOf(g), Body(g);
      && |m| == 19 + |b| < 65536 && m[..16] == MARKER && m[16..18] == Put16(|m|) && m[18] == 2 && m[19..] == b
  {
    hide Body;
  }

  lemma SplitAttrs(g: Group)
    requires Sendable(g)
    ensures var attrs, out := g.shared.attrs, AttrsOut(g);
      if g.shared.nexthop == [] then out == attrs
      else
        && |attrs| <= |out| && out[..|attrs|] == attrs
        && IsReach(out[|attrs|..], g.shared.nexthop, PackAll(g.members))
  {
    hide IsReach, PackAll, EncodeAttr, Sendable;
    if g.shared.nexthop != [] {
      ReachBytes(g);
      assert AttrsOut(g)[|g.shared.attrs|..] == EncodeAttr(ReachAttr(g));
    }
  }

  lemma BodyBytes(g: Group)
    requires Sendable(g)
    ensures var b, out := Body(g), AttrsOut(g);
      && |b| >= 4 + |out| && |out| < 65536 && b[..2] == [0, 0] && b[2..4] == Put16(|out|)
      && b[4..4 + |out|] == out && b[4 + |out|..] == (if g.shared.nexthop == [] then PackAll(g.members) else [])
  {
    hide PackAll, AttrsOut;
  }

  /** One attribute, its length in two bytes if it needs them and the flags say so. */
  predicate IsReach(r: seq<Byte>, nexthop: seq<Byte>, nlri: seq<Byte>) {
    |nexthop| < 256 &&
    var value: seq<Byte> := [0, 2, 1, |nexthop|] + nexthop + [0] + nlri;
    if |value| < 256 then r == [128, 14, |value|] + value
    else |value| < 65536 && r == [144, 14, |value| / 256, |value| % 256] + value
  }

  lemma ReachBytes(g: Group)
    requires Sendable(g) && g.shared.nexthop != []
    ensures IsReach(EncodeAttr(ReachAttr(g)), g.shared.nexthop, PackAll(g.members))
  {
    hide PackAll;
    assert ReachValue(g) == [0, 2, 1, |g.shared.nexthop|] + g.shared.nexthop + [0] + PackAll(g.members);
  }

  // ----- when a table can be repacked ------------------------------------------------------

  lemma {:induction false} FirstSeenIff(entries: seq<Entry>, k: Shared)
    ensures k in FirstSeen(entries) <==> exists i :: 0 <= i < |entries| && entries[i].shared == k
  {
    if entries != [] {
      var front := entries[..|entries| - 1];
      FirstSeenIff(front, k);
      if i :| 0 <= i < |entries| && entries[i].shared == k && i < |front| { assert front[i].shared == k; }
      if i :| 0 <= i < |front| && front[i].shared == k { assert entries[i].shared == k; }
      if entries[|front|].shared == k { assert entries[|entries| - 1].shared == k; }
    }
  }

  lemma {:induction false} BatchesIff(groups: seq<Group>, maxMsg: nat)
    ensures Batches(groups, maxMsg).Some? <==> forall i :: 0 <= i < |groups| ==> Room(groups[i].shared, maxMsg) > 0
  {
    hide Room, Fill;
    if groups != [] {
      BatchesIff(groups[1..], maxMsg);
      assert forall i :: 0 < i < |groups| ==> groups[i] == groups[1..][i - 1];
      assert forall i :: 0 <= i < |groups| - 1 ==> groups[1..][i] == groups[i + 1];
    }
  }

  /** Repacking fails exactly when some route's attributes leave no room at all for a
      prefix, in a message whose every prefix with any room fits it. */
  lemma BuildsIff(entries: seq<Entry>, maxMsg: nat)
    requires maxMsg < 65536 && forall e | e in entries :: |e.shared.nexthop| < 256
    requires forall e | e in entries && LeavesRoom(e.shared, maxMsg) :: FitsAlone(e.member, e.shared, maxMsg)
    ensures Build(entries, maxMsg).Some? <==> forall e | e in entries :: LeavesRoom(e.shared, maxMsg)
  {
    hide Room, GroupBy, Batches, PackAll, StreamOf, Fits;
    var groups := GroupBy(entries);
    GroupByExact(entries);
    BatchesIff(groups, maxMsg);
    forall e | e in entries && Batches(groups, maxMsg).Some? ensures LeavesRoom(e.shared, maxMsg) {
      FirstSeenIff(entries, e.shared);
      var i :| 0 <= i < |Keys(groups)| && Keys(groups)[i] == e.shared;
      RoomIff(groups[i].shared, maxMsg);
    }
    if forall e | e in entries :: LeavesRoom(e.shared, maxMsg) {
      forall i | 0 <= i < |groups| ensures Room(groups[i].shared, maxMsg) > 0 {
        assert Keys(groups)[i] in Keys(groups);
        FirstSeenIff(entries, groups[i].shared);
        RoomIff(groups[i].shared, maxMsg);
      }
      forall b | b in Batches(groups, maxMsg).value ensures Sendable(b) { BatchIsSendable(entries, maxMsg, b); }
    }
  }

  /** What the fixed parts and the attributes take is less than the limit. */
  predicate LeavesRoom(s: Shared, maxMsg: nat) {
    (if s.nexthop == [] then 23 + |s.attrs| else 32 + |s.attrs| + |s.nexthop|) < maxMsg
  }

  lemma RoomIff(s: Shared, maxMsg: nat)
    ensures Room(s, maxMsg) > 0 <==> LeavesRoom(s, maxMsg)
  {
  }

  lemma BatchIsSendable(entries: seq<Entry>, maxMsg: nat, b: Group)
    requires Batches(GroupBy(entries), maxMsg).Some? && b in Batches(GroupBy(entries), maxMsg).value
    requires maxMsg < 65536 && forall e | e in entries :: |e.shared.nexthop| < 256
    requires forall e | e in entries && LeavesRoom(e.shared, maxMsg) :: FitsAlone(e.member, e.shared, maxMsg)
    ensures Sendable(b)
  {
    hide GroupBy, Batches;
    BatchFromTable(entries, maxMsg, b);
    RoomIff(b.shared, maxMsg);
    var e := Entry(b.members[0], b.shared);
    assert b.members[0] in b.members;
    assert e in entries && FitsAlone(e.member, e.shared, maxMsg);
    if |b.members| == 1 {
      assert PackAll(b.members) == Pack(b.members[0]) + PackAll(b.members[1..]);
      assert b.members[1..] == [];
    }
  }
}
