/** Netlink messages on the wire: headers, attributes, route requests and
    acknowledgements (sections 2.3.2 and 2.3.2.2 of RFC 3549). */
module NetlinkWire {
  import opened Routes
  import opened Bytes
  import SinkModel

  /** Netlink travels in the host's own byte order. */
  datatype Order = Little | Big

  function N16(o: Order, n: nat): (r: seq<Byte>)
    requires n < 65536
    ensures |r| == 2
  {
    match o case Big => [n / 256, n % 256] case Little => [n % 256, n / 256]
  }

  function N32(o: Order, n: nat): (r: seq<Byte>)
    requires n < U32
    ensures |r| == 4
  {
    match o
    case Big => N16(o, n / 65536) + N16(o, n % 65536)
    case Little => N16(o, n % 65536) + N16(o, n / 65536)
  }

  function Read16(o: Order, b: seq<Byte>, pos: nat): nat
    requires pos + 2 <= |b|
  {
    match o
    case Big => b[pos] as int * 256 + b[pos + 1]
    case Little => b[pos + 1] as int * 256 + b[pos]
  }

  function Read32(o: Order, b: seq<Byte>, pos: nat): nat
    requires pos + 4 <= |b|
  {
    match o
    case Big => Read16(o, b, pos) * 65536 + Read16(o, b, pos + 2)
    case Little => Read16(o, b, pos + 2) * 65536 + Read16(o, b, pos)
  }

  lemma Reads16(o: Order, b: seq<Byte>, pos: nat, n: nat)
    requires n < 65536 && Holds(b, pos, N16(o, n))
    ensures pos + 2 <= |b| && Read16(o, b, pos) == n
  {
    assert b[pos] == b[pos..pos + 2][0] && b[pos + 1] == b[pos..pos + 2][1];
  }

  lemma Reads32(o: Order, b: seq<Byte>, pos: nat, n: nat)
    requires n < U32 && Holds(b, pos, N32(o, n))
    ensures pos + 4 <= |b| && Read32(o, b, pos) == n
  {
    match o
    case Big =>
      HoldsSplit(b, pos, N16(o, n / 65536), N16(o, n % 65536));
      Reads16(o, b, pos, n / 65536);
      Reads16(o, b, pos + 2, n % 65536);
    case Little =>
      HoldsSplit(b, pos, N16(o, n % 65536), N16(o, n / 65536));
      Reads16(o, b, pos, n % 65536);
      Reads16(o, b, pos + 2, n / 65536);
  }

  // ----- alignment --------------------------------------------------------------------

  /** `nlmsg_align` and `rta_align`: up to a multiple of four. */
  function Align(length: nat): (r: nat)
    ensures r % 4 == 0 && length <= r < length + 4
  {
    (length + 3) / 4 * 4
  }

  function Padding(length: nat): (r: seq<Byte>)
    ensures |r| == Align(length) - length
  {
    seq(Align(length) - length, _ => 0)
  }

  // ----- attributes ---------------------------------------------------------------------

  datatype Attr = Attr(atype: nat, payload: seq<Byte>)

  predicate PackableAttr(a: Attr) {
    a.atype < 65536 && 4 + |a.payload| < 65536
  }

  /** `pack_attr`: the length counts header and payload, not the padding. */
  function PackAttr(o: Order, a: Attr): (r: seq<Byte>)
    requires PackableAttr(a)
    ensures |r| == Align(4 + |a.payload|)
  {
    (N16(o, 4 + |a.payload|) + N16(o, a.atype)) + (a.payload + Padding(4 + |a.payload|))
  }

  predicate PackableAttrs(attrs: seq<Attr>) {
    forall i :: 0 <= i < |attrs| ==> PackableAttr(attrs[i])
  }

  function PackAttrs(o: Order, attrs: seq<Attr>): seq<Byte>
    requires PackableAttrs(attrs)
  {
    if attrs == [] then [] else PackAttr(o, attrs[0]) + PackAttrs(o, attrs[1..])
  }

  /** The attributes `parse_attrs` walks over, in order. */
  function AttrList(o: Order, b: seq<Byte>, offset: nat): seq<Attr>
    decreases |b| - offset
  {
    if offset + 4 > |b| then []
    else
      var length := Read16(o, b, offset);
      if length < 4 || offset + length > |b| then []
      else [Attr(Read16(o, b, offset + 2), b[offset + 4..offset + length])] + AttrList(o, b, offset + Align(length))
  }

  /** Duplicate types keep the first occurrence. */
  function Firsts(attrs: seq<Attr>): map<nat, seq<Byte>> {
    if attrs == [] then map[]
    else Firsts(attrs[1..])[attrs[0].atype := attrs[0].payload]
  }

  /** `parse_attrs`. */
  function ParseAttrs(o: Order, b: seq<Byte>, offset: nat): map<nat, seq<Byte>> {
    Firsts(AttrList(o, b, offset))
  }

  /** A type maps to the payload of its first occurrence. */
  lemma {:induction false} FirstsExact(attrs: seq<Attr>, t: nat)
    ensures t in Firsts(attrs) <==> exists i :: 0 <= i < |attrs| && attrs[i].atype == t
    ensures t in Firsts(attrs) ==> exists i ::
      && 0 <= i < |attrs| && attrs[i] == Attr(t, Firsts(attrs)[t])
      && forall j :: 0 <= j < i ==> attrs[j].atype != t
  {
    if attrs != [] {
      FirstsExact(attrs[1..], t);
      if attrs[0].atype == t {
        assert attrs[0] == Attr(t, Firsts(attrs)[t]);
      } else if t in Firsts(attrs) {
        var i :| 0 <= i < |attrs| - 1 && attrs[1..][i] == Attr(t, Firsts(attrs[1..])[t])
          && forall j :: 0 <= j < i ==> attrs[1..][j].atype != t;
        assert attrs[i + 1] == Attr(t, Firsts(attrs)[t]);
        forall j | 0 <= j < i + 1 ensures attrs[j].atype != t { if j > 0 { assert attrs[j] == attrs[1..][j - 1]; } }
      }
      if exists i :: 0 <= i < |attrs| && attrs[i].atype == t {
        var i :| 0 <= i < |attrs| && attrs[i].atype == t;
        if i > 0 { assert attrs[1..][i - 1].atype == t; }
      }
    }
  }

  lemma AttrReads(o: Order, b: seq<Byte>, pos: nat, a: Attr)
    requires PackableAttr(a) && Holds(b, pos, PackAttr(o, a))
    ensures pos + 4 + |a.payload| <= pos + Align(4 + |a.payload|) <= |b|
    ensures Read16(o, b, pos) == 4 + |a.payload| && Read16(o, b, pos + 2) == a.atype
    ensures b[pos + 4..pos + 4 + |a.payload|] == a.payload
  {
    var head := N16(o, 4 + |a.payload|) + N16(o, a.atype);
    HoldsSplit(b, pos, head, a.payload + Padding(4 + |a.payload|));
    HoldsSplit(b, pos, N16(o, 4 + |a.payload|), N16(o, a.atype));
    HoldsSplit(b, pos + 4, a.payload, Padding(4 + |a.payload|));
    Reads16(o, b, pos, 4 + |a.payload|);
    Reads16(o, b, pos + 2, a.atype);
  }

  /** Walking packed attributes to the end of the buffer gives them back. */
  lemma {:induction false} AttrsRoundTrip(o: Order, b: seq<Byte>, pos: nat, attrs: seq<Attr>)
    requires PackableAttrs(attrs) && Holds(b, pos, PackAttrs(o, attrs)) && pos + |PackAttrs(o, attrs)| == |b|
    ensures AttrList(o, b, pos) == attrs
    decreases |attrs|
  {
    hide Holds, PackAttr, Read16, Align;
    if attrs != [] {
      HoldsSplit(b, pos, PackAttr(o, attrs[0]), PackAttrs(o, attrs[1..]));
      AttrReads(o, b, pos, attrs[0]);
      AttrsRoundTrip(o, b, pos + |PackAttr(o, attrs[0])|, attrs[1..]);
      assert [attrs[0]] + attrs[1..] == attrs;
    }
  }

  // ----- messages ----------------------------------------------------------------------------

  datatype Msg = Msg(mtype: nat, flags: nat, seqno: nat, portid: nat, body: seq<Byte>)

  predicate PackableMsg(m: Msg) {
    m.mtype < 65536 && m.flags < 65536 && m.seqno < U32 && m.portid < U32 && 16 + |m.body| < U32
  }

  function MsgHeader(o: Order, m: Msg): (r: seq<Byte>)
    requires PackableMsg(m)
    ensures |r| == 16
  {
    N32(o, 16 + |m.body|) + ((N16(o, m.mtype) + N16(o, m.flags)) + (N32(o, m.seqno) + N32(o, m.portid)))
  }

  /** `pack_message`. */
  function PackMsg(o: Order, m: Msg): (r: seq<Byte>)
    requires PackableMsg(m)
    ensures |r| == Align(16 + |m.body|)
  {
    MsgHeader(o, m) + (m.body + Padding(16 + |m.body|))
  }

  function PackMsgs(o: Order, ms: seq<Msg>): seq<Byte>
    requires forall i :: 0 <= i < |ms| ==> PackableMsg(ms[i])
  {
    if ms == [] then [] else PackMsg(o, ms[0]) + PackMsgs(o, ms[1..])
  }

  /** `parse_messages`: a fragment too short to be a message ends the parse. */
  function ParseMsgs(o: Order, b: seq<Byte>, offset: nat): seq<Msg>
    decreases |b| - offset
  {
    if offset + 16 > |b| then []
    else
      var length := Read32(o, b, offset);
      if length < 16 || offset + length > |b| then []
      else
        [Msg(Read16(o, b, offset + 4), Read16(o, b, offset + 6), Read32(o, b, offset + 8), Read32(o, b, offset + 12),
             b[offset + 16..offset + length])]
        + ParseMsgs(o, b, offset + Align(length))
  }

  lemma HeaderReads(o: Order, b: seq<Byte>, pos: nat, m: Msg)
    requires PackableMsg(m) && Holds(b, pos, MsgHeader(o, m))
    ensures pos + 16 <= |b| && Read32(o, b, pos) == 16 + |m.body|
    ensures Read16(o, b, pos + 4) == m.mtype && Read16(o, b, pos + 6) == m.flags
    ensures Read32(o, b, pos + 8) == m.seqno && Read32(o, b, pos + 12) == m.portid
  {
    hide Holds, N16, N32, Read16, Read32;
    HoldsSplit(b, pos, N32(o, 16 + |m.body|),
      (N16(o, m.mtype) + N16(o, m.flags)) + (N32(o, m.seqno) + N32(o, m.portid)));
    HoldsSplit(b, pos + 4, N16(o, m.mtype) + N16(o, m.flags), N32(o, m.seqno) + N32(o, m.portid));
    HoldsSplit(b, pos + 4, N16(o, m.mtype), N16(o, m.flags));
    HoldsSplit(b, pos + 8, N32(o, m.seqno), N32(o, m.portid));
    Reads32(o, b, pos, 16 + |m.body|);
    Reads16(o, b, pos + 4, m.mtype);
    Reads16(o, b, pos + 6, m.flags);
    Reads32(o, b, pos + 8, m.seqno);
    Reads32(o, b, pos + 12, m.portid);
  }

  lemma MsgReads(o: Order, b: seq<Byte>, pos: nat, m: Msg)
    requires PackableMsg(m) && Holds(b, pos, PackMsg(o, m))
    ensures pos + 16 + |m.body| <= pos + Align(16 + |m.body|) <= |b|
    ensures Read32(o, b, pos) == 16 + |m.body| && b[pos + 16..pos + 16 + |m.body|] == m.body
    ensures Read16(o, b, pos + 4) == m.mtype && Read16(o, b, pos + 6) == m.flags
    ensures Read32(o, b, pos + 8) == m.seqno && Read32(o, b, pos + 12) == m.portid
  {
    HoldsSplit(b, pos, MsgHeader(o, m), m.body + Padding(16 + |m.body|));
    HoldsSplit(b, pos + 16, m.body, Padding(16 + |m.body|));
    HeaderReads(o, b, pos, m);
  }

  /** Parsing inverts any concatenation of packed messages. */
  lemma {:induction false} MsgsRoundTrip(o: Order, b: seq<Byte>, pos: nat, ms: seq<Msg>)
    requires (forall i :: 0 <= i < |ms| ==> PackableMsg(ms[i])) && Holds(b, pos, PackMsgs(o, ms))
    requires pos + |PackMsgs(o, ms)| == |b|
    ensures ParseMsgs(o, b, pos) == ms
    decreases |ms|
  {
    hide Holds, PackMsg, Read16, Read32, Align;
    if ms != [] {
      HoldsSplit(b, pos, PackMsg(o, ms[0]), PackMsgs(o, ms[1..]));
      MsgReads(o, b, pos, ms[0]);
      MsgsRoundTrip(o, b, pos + |PackMsg(o, ms[0])|, ms[1..]);
      assert [ms[0]] + ms[1..] == ms;
    }
  }

  lemma MsgsStep(o: Order, b: seq<Byte>, offset: nat)
    ensures offset + 16 > |b| ==> ParseMsgs(o, b, offset) == []
    ensures offset + 16 <= |b| ==>
      var length := Read32(o, b, offset);
      if length < 16 || offset + length > |b| then ParseMsgs(o, b, offset) == []
      else
        ParseMsgs(o, b, offset) ==
          [Msg(Read16(o, b, offset + 4), Read16(o, b, offset + 6), Read32(o, b, offset + 8), Read32(o, b, offset + 12),
               b[offset + 16..offset + length])]
          + ParseMsgs(o, b, offset + Align(length))
  {
  }

  /** On any bytes: the messages found lie one after the other inside the buffer. */
  lemma {:induction false} MsgsWithinBounds(o: Order, b: seq<Byte>, offset: nat)
    ensures Sizes(ParseMsgs(o, b, offset)) <= if offset <= |b| then |b| - offset else 0
    decreases |b| - offset
  {
    hide ParseMsgs, Read16, Read32, Align, Sizes;
    MsgsStep(o, b, offset);
    NoSizes();
    if offset + 16 <= |b| {
      var length := Read32(o, b, offset);
      if 16 <= length && offset + length <= |b| {
        var m := Msg(Read16(o, b, offset + 4), Read16(o, b, offset + 6), Read32(o, b, offset + 8),
            Read32(o, b, offset + 12),
                     b[offset + 16..offset + length]);
        SizesCons(m, ParseMsgs(o, b, offset + Align(length)));
        MsgsWithinBounds(o, b, offset + Align(length));
      }
    }
  }

  lemma NoSizes()
    ensures Sizes([]) == 0
  {
  }

  lemma SizesCons(m: Msg, rest: seq<Msg>)
    ensures Sizes([m] + rest) == 16 + |m.body| + Sizes(rest)
  {
    assert ([m] + rest)[1..] == rest;
  }

  function Sizes(ms: seq<Msg>): nat {
    if ms == [] then 0 else 16 + |ms[0].body| + Sizes(ms[1..])
  }

  // ----- route requests --------------------------------------------------------------------

  const RTA_DST: nat := 1
  const RTA_OIF: nat := 4
  const RTA_GATEWAY: nat := 5
  const RTA_PRIORITY: nat := 6
  const RTA_TABLE: nat := 15

  function FamilyOf(afi: Afi): Byte {
    match afi case Ipv4 => 2 case Ipv6 => 10
  }

  /** Width of an address of a family, 0 for one the engine does not know. */
  function FamilyWidth(family: Byte): nat {
    if family == 2 then 4 else if family == 10 then 16 else 0
  }

  /** What the sink asks to be built. */
  predicate Buildable(c: Conf, k: Key, r: SinkModel.Rec) {
    && c.table < U32 && c.protocol < 256
    && k.priority < U32 && k.prefix.plen < 256 && |k.prefix.addr| == AddrWidth(k.prefix.afi)
    && |r.hop.gateway| < 65000 && r.hop.oif < U32
  }

  /** `struct rtmsg`.  The table byte holds the id if it fits, else RT_TABLE_UNSPEC. */
  function RtMsg(o: Order, c: Conf, k: Key, r: SinkModel.Rec): (m: seq<Byte>)
    requires Buildable(c, k, r)
    ensures |m| == 12
  {
    [FamilyOf(k.prefix.afi), k.prefix.plen, 0, 0, if c.table <= 255 then c.table else 0, c.protocol,
     if r.kind == SinkModel.Add then 0 else 255, 1] + N32(o, 0)
  }

  function RequestAttrs(o: Order, c: Conf, k: Key, r: SinkModel.Rec): (attrs: seq<Attr>)
    requires Buildable(c, k, r)
    ensures PackableAttrs(attrs)
  {
    [Attr(RTA_DST, k.prefix.addr)] +
      (Optional(RTA_GATEWAY, r.hop.gateway, r.hop.gateway != []) + NumberAttrs(o, c, k, r))
  }

  function NumberAttrs(o: Order, c: Conf, k: Key, r: SinkModel.Rec): (attrs: seq<Attr>)
    requires Buildable(c, k, r)
    ensures PackableAttrs(attrs)
  {
    Optional(RTA_OIF, N32(o, r.hop.oif), r.hop.oif != 0)
    + [Attr(RTA_PRIORITY, N32(o, k.priority)), Attr(RTA_TABLE, N32(o, c.table))]
  }

  /** An attribute that is written only when there is something to say. */
  function Optional(t: nat, payload: seq<Byte>, present: bool): seq<Attr> {
    if present then [Attr(t, payload)] else []
  }

  /** The body `_build` makes. */
  function RequestBody(o: Order, c: Conf, k: Key, r: SinkModel.Rec): seq<Byte>
    requires Buildable(c, k, r)
  {
    RtMsg(o, c, k, r) + PackAttrs(o, RequestAttrs(o, c, k, r))
  }

  /** One route as the kernel describes it. */
  datatype WireRoute = WireRoute(
    family: Byte, dstLen: Byte, table: nat, protocol: Byte, scope: Byte, rtype: Byte,
    dst: seq<Byte>, gateway: seq<Byte>, oif: nat, priority: nat)

  function AttrU32(o: Order, attrs: map<nat, seq<Byte>>, t: nat, default_: nat): nat {
    if t in attrs && |attrs[t]| >= 4 then Read32(o, attrs[t], 0) else default_
  }

  function AttrBytes(attrs: map<nat, seq<Byte>>, t: nat): seq<Byte> {
    if t in attrs then attrs[t] else []
  }

  function Zeros(n: nat): seq<Byte> {
    seq(n, _ => 0)
  }

  /** `parse_route`; None for a body too short for `rtmsg`. */
  function ParseRoute(o: Order, b: seq<Byte>): Option<WireRoute> {
    if |b| < 12 then None
    else
      var attrs, width := ParseAttrs(o, b, 12), FamilyWidth(b[0]);
      var dst := AttrBytes(attrs, RTA_DST);
      Some(WireRoute(
        b[0], b[1], if RTA_TABLE in attrs then AttrU32(o, attrs, RTA_TABLE, b[4]) else b[4], b[5], b[6], b[7],
        if width > 0 then (dst + Zeros(width))[..width] else dst,
        AttrBytes(attrs, RTA_GATEWAY), AttrU32(o, attrs, RTA_OIF, 0), AttrU32(o, attrs, RTA_PRIORITY, 0)))
  }

  lemma RequestFirsts(o: Order, c: Conf, k: Key, r: SinkModel.Rec)
    requires Buildable(c, k, r)
    ensures var attrs := Firsts(RequestAttrs(o, c, k, r));
      && AttrBytes(attrs, RTA_DST) == k.prefix.addr && AttrBytes(attrs, RTA_GATEWAY) == r.hop.gateway
      && (RTA_OIF in attrs <==> r.hop.oif != 0) && (r.hop.oif != 0 ==> attrs[RTA_OIF] == N32(o, r.hop.oif))
      && RTA_PRIORITY in attrs && attrs[RTA_PRIORITY] == N32(o, k.priority)
      && RTA_TABLE in attrs && attrs[RTA_TABLE] == N32(o, c.table)
  {
    hide N32, Firsts, NumberAttrs, Optional;
    var numbers := NumberAttrs(o, c, k, r);
    NumberFirsts(o, c, k, r);
    OptionalFirsts(RTA_GATEWAY, r.hop.gateway, r.hop.gateway != [], numbers);
    FirstsCons(Attr(RTA_DST, k.prefix.addr), Optional(RTA_GATEWAY, r.hop.gateway, r.hop.gateway != []) + numbers);
  }

  lemma NumberFirsts(o: Order, c: Conf, k: Key, r: SinkModel.Rec)
    requires Buildable(c, k, r)
    ensures Firsts(NumberAttrs(o, c, k, r)) ==
      var rest := map[RTA_PRIORITY := N32(o, k.priority), RTA_TABLE := N32(o, c.table)];
      if r.hop.oif != 0 then rest[RTA_OIF := N32(o, r.hop.oif)] else rest
  {
    hide N32, Firsts, Optional;
    FirstsTwo(Attr(RTA_PRIORITY, N32(o, k.priority)), Attr(RTA_TABLE, N32(o, c.table)));
    OptionalFirsts(RTA_OIF, N32(o, r.hop.oif), r.hop.oif != 0,
                   [Attr(RTA_PRIORITY, N32(o, k.priority)), Attr(RTA_TABLE, N32(o, c.table))]);
  }

  lemma OptionalFirsts(t: nat, payload: seq<Byte>, present: bool, rest: seq<Attr>)
    ensures Firsts(Optional(t, payload, present) + rest) == if present then Firsts(rest)[t := payload] else Firsts(rest)
  {
    if present { FirstsCons(Attr(t, payload), rest); } else { assert [] + rest == rest; }
  }

  lemma FirstsCons(a: Attr, rest: seq<Attr>)
    ensures Firsts([a] + rest) == Firsts(rest)[a.atype := a.payload]
  {
    assert ([a] + rest)[1..] == rest;
  }

  lemma FirstsOne(a: Attr)
    ensures Firsts([a]) == map[a.atype := a.payload]
  {
    assert [a][1..] == [];
  }

  lemma FirstsTwo(a: Attr, b: Attr)
    requires a.atype != b.atype
    ensures Firsts([a, b]) == map[a.atype := a.payload, b.atype := b.payload]
  {
    assert [a, b][1..] == [b];
    FirstsOne(b);
  }

  lemma N32Reads(o: Order, n: nat)
    requires n < U32
    ensures Read32(o, N32(o, n), 0) == n
  {
    WholeHolds(N32(o, n));
    Reads32(o, N32(o, n), 0, n);
  }

  /** Parsing a built request recovers family, destination, gateway, interface,
      priority, protocol and any 32-bit table. */
  lemma RouteRoundTrip(o: Order, c: Conf, k: Key, r: SinkModel.Rec)
    requires Buildable(c, k, r)
    ensures ParseRoute(o, RequestBody(o, c, k, r)) == Some(WireRoute(
      FamilyOf(k.prefix.afi), k.prefix.plen, c.table, c.protocol, if r.kind == SinkModel.Add then 0 else 255, 1,
      k.prefix.addr, r.hop.gateway, r.hop.oif, k.priority))
  {
    hide N32, Read32, Firsts, AttrList, PackAttrs;
    var b, attrs := RequestBody(o, c, k, r), RequestAttrs(o, c, k, r);
    RequestHead(o, c, k, r);
    WholeHolds(b);
    HoldsSplit(b, 0, RtMsg(o, c, k, r), PackAttrs(o, attrs));
    AttrsRoundTrip(o, b, 12, attrs);
    RequestFirsts(o, c, k, r);
    N32Reads(o, k.priority);
    N32Reads(o, c.table);
    N32Reads(o, r.hop.oif);
    assert (k.prefix.addr + Zeros(|k.prefix.addr|))[..|k.prefix.addr|] == k.prefix.addr;
  }

  lemma RequestHead(o: Order, c: Conf, k: Key, r: SinkModel.Rec)
    requires Buildable(c, k, r)
    ensures var b, m := RequestBody(o, c, k, r), RtMsg(o, c, k, r);
      |b| >= 12 && b[..12] == m && forall i :: 0 <= i < 12 ==> b[i] == m[i]
  {
  }

  /** The request on the wire is the one the sink's model sends: the kernel key
      and what it asks to be stored there. */
  lemma WireIsRequest(o: Order, c: Conf, k: Key, r: SinkModel.Rec)
    requires Buildable(c, k, r)
    ensures ParseRoute(o, RequestBody(o, c, k, r)).Some?
    ensures var w, q := ParseRoute(o, RequestBody(o, c, k, r)).value, SinkModel.RequestOf(c, k, r);
      && w.table == q.at.table && w.priority == q.at.key.priority
      && w.dst == q.at.key.prefix.addr && w.dstLen == q.at.key.prefix.plen && w.family == FamilyOf(q.at.key.prefix.afi)
      && w.protocol == q.route.protocol && w.gateway == q.route.gateway && w.oif == q.route.oif
      && (w.scope == 0 <==> q.kind == SinkModel.Add)
  {
    RouteRoundTrip(o, c, k, r);
  }

  // ----- a request, byte by byte -----------------------------------------------------------

  const RTM_NEWROUTE: nat := 24
  const RTM_DELROUTE: nat := 25

  const NLM_F_REQUEST: nat := 0x001
  const NLM_F_ACK: nat := 0x004
  const NLM_F_REPLACE: nat := 0x100
  const NLM_F_CREATE: nat := 0x400

  /** `_build`: the whole message for one entry. */
  function BuildRequest(o: Order, c: Conf, k: Key, r: SinkModel.Rec, n: nat): seq<Byte>
    requires Buildable(c, k, r) && n < U32
  {
    RequestIsSmall(o, c, k, r);
    var flags := NLM_F_REQUEST + NLM_F_ACK + (if r.kind == SinkModel.Add then NLM_F_CREATE + NLM_F_REPLACE else 0);
    PackMsg(o, Msg(if r.kind == SinkModel.Add then RTM_NEWROUTE
        else RTM_DELROUTE, flags, n, 0, RequestBody(o, c, k, r)))
  }

  lemma RequestIsSmall(o: Order, c: Conf, k: Key, r: SinkModel.Rec)
    requires Buildable(c, k, r)
    ensures |RequestBody(o, c, k, r)| < 66000
  {
    hide N32, Padding, PackAttrs, PackAttr;
    var gateway := Optional(RTA_GATEWAY, r.hop.gateway, r.hop.gateway != []);
    var oif := Optional(RTA_OIF, N32(o, r.hop.oif), r.hop.oif != 0);
    var p, t := Attr(RTA_PRIORITY, N32(o, k.priority)), Attr(RTA_TABLE, N32(o, c.table));
    assert [p, t] == [p] + [t];
    PackTwo(o, [Attr(RTA_DST, k.prefix.addr)], gateway + (oif + ([p] + [t])));
    PackTwo(o, gateway, oif + ([p] + [t]));
    PackTwo(o, oif, [p] + [t]);
    PackTwo(o, [p], [t]);
    PackOne(o, Attr(RTA_DST, k.prefix.addr));
    PackOne(o, p);
    PackOne(o, t);
    NoAttrs(o);
    if r.hop.gateway != [] { PackOne(o, Attr(RTA_GATEWAY, r.hop.gateway)); }
    if r.hop.oif != 0 { PackOne(o, Attr(RTA_OIF, N32(o, r.hop.oif))); }
  }

  lemma PackOne(o: Order, a: Attr)
    requires PackableAttr(a)
    ensures PackAttrs(o, [a]) == PackAttr(o, a)
  {
    assert [a][1..] == [];
  }

  lemma {:induction false} PackTwo(o: Order, a: seq<Attr>, b: seq<Attr>)
    requires PackableAttrs(a) && PackableAttrs(b)
    ensures PackAttrs(o, a + b) == PackAttrs(o, a) + PackAttrs(o, b)
  {
    hide PackAttr;
    if a == [] {
      assert a + b == b;
    } else {
      assert (a + b)[1..] == a[1..] + b;
      PackTwo(o, a[1..], b);
    }
  }

  /** A number's bytes, lowest first, in the host's order. */
  function Bytes2(o: Order, low: Byte, high: Byte): seq<Byte> {
    match o case Little => [low, high] case Big => [high, low]
  }

  function Bytes4(o: Order, n: nat): seq<Byte>
    requires n < U32
  {
    var a, b, c, d := n % 256, n / 0x100 % 256, n / 0x1_0000 % 256, n / 0x100_0000;
    match o case Little => [a, b, c, d] case Big => [d, c, b, a]
  }

  lemma NumberBytes(o: Order, n: nat)
    ensures n < 65536 ==> N16(o, n) == Bytes2(o, n % 256, n / 256)
    ensures n < U32 ==> N32(o, n) == Bytes4(o, n)
  {
    hide N16, Bytes2;
    if n < U32 {
      LowHalf(n);
      HighHalf(n / 65536, n);
      HalfBytes(o, n % 65536);
      HalfBytes(o, n / 65536);
    }
    if n < 65536 { HalfBytes(o, n); }
  }

  lemma HalfBytes(o: Order, n: nat)
    requires n < 65536
    ensures N16(o, n) == Bytes2(o, n % 256, n / 256)
    ensures N16(o, n) == match o case Little => [n % 256, n / 256] case Big => [n / 256, n % 256]
  {
  }

  lemma LowHalf(n: nat)
    ensures n % 65536 % 256 == n % 256 && n % 65536 / 256 == n / 256 % 256
  {
    var q, r := n / 65536, n % 65536;
    assert n == q * 65536 + r == (q * 256) * 256 + r;
    assert n / 256 == q * 256 + r / 256;
  }

  lemma HighHalf(high: nat, n: nat)
    requires high == n / 65536 && n < U32
    ensures high % 256 == n / 0x1_0000 % 256 && high / 256 == n / 0x100_0000
  {
  }

  /** One attribute whose payload needs no padding. */
  lemma AttrBytesAre(o: Order, t: Byte, payload: seq<Byte>)
    requires |payload| < 252 && |payload| % 4 == 0
    ensures PackAttr(o, Attr(t, payload)) == Bytes2(o, 4 + |payload|, 0) + Bytes2(o, t, 0) + payload
  {
    NumberBytes(o, 4 + |payload|);
    NumberBytes(o, t);
    assert Padding(4 + |payload|) == [];
  }

  /** The attributes of a request: 1, the destination; 5, the gateway, if any; 4, the
      interface, if any; 6, the priority; 15, the table. */
  lemma AttrsAre(o: Order, c: Conf, k: Key, r: SinkModel.Rec)
    requires Buildable(c, k, r) && (r.hop.gateway == [] || |r.hop.gateway| == AddrWidth(k.prefix.afi))
    ensures var width := |k.prefix.addr|;
      PackAttrs(o, RequestAttrs(o, c, k, r)) ==
        Bytes2(o, 4 + width, 0) + Bytes2(o, 1, 0) + k.prefix.addr
        + ((if r.hop.gateway == [] then [] else Bytes2(o, 4 + width, 0) + Bytes2(o, 5, 0) + r.hop.gateway)
        + ((if r.hop.oif == 0 then [] else Bytes2(o, 8, 0) + Bytes2(o, 4, 0) + Bytes4(o, r.hop.oif))
        + ((Bytes2(o, 8, 0) + Bytes2(o, 6, 0) + Bytes4(o, k.priority))
        + (Bytes2(o, 8, 0) + Bytes2(o, 15, 0) + Bytes4(o, c.table)))))
  {
    hide N32, Bytes2, Bytes4, PackAttr, PackAttrs;
    var gateway := Optional(RTA_GATEWAY, r.hop.gateway, r.hop.gateway != []);
    var oif := Optional(RTA_OIF, N32(o, r.hop.oif), r.hop.oif != 0);
    var p, t := Attr(RTA_PRIORITY, N32(o, k.priority)), Attr(RTA_TABLE, N32(o, c.table));
    assert [p, t] == [p] + [t];
    PackTwo(o, [Attr(RTA_DST, k.prefix.addr)], gateway + (oif + ([p] + [t])));
    PackTwo(o, gateway, oif + ([p] + [t]));
    PackTwo(o, oif, [p] + [t]);
    PackTwo(o, [p], [t]);
    OneAttr(o, 1, k.prefix.addr);
    NumberBytes(o, k.priority);
    NumberBytes(o, c.table);
    NumberBytes(o, r.hop.oif);
    OneAttr(o, 6, N32(o, k.priority));
    OneAttr(o, 15, N32(o, c.table));
    if r.hop.gateway != [] { OneAttr(o, 5, r.hop.gateway); } else { NoAttrs(o); }
    if r.hop.oif != 0 { OneAttr(o, 4, N32(o, r.hop.oif)); } else { NoAttrs(o); }
  }

  lemma NoAttrs(o: Order)
    ensures PackAttrs(o, []) == []
  {
  }

  lemma OneAttr(o: Order, t: Byte, payload: seq<Byte>)
    requires |payload| < 252 && |payload| % 4 == 0
    ensures PackableAttr(Attr(t, payload))
    ensures PackAttrs(o, [Attr(t, payload)]) == Bytes2(o, 4 + |payload|, 0) + Bytes2(o, t, 0) + payload
  {
    AttrBytesAre(o, t, payload);
    PackOne(o, Attr(t, payload));
  }

  /** A request is one message of its own length: type 24 with flags 0x505 to put a
      route (request, acknowledge, create, replace) or 25 with 0x005 to delete one,
      the sequence number, port 0; then `struct rtmsg` and the attributes. */
  lemma RequestBytes(o: Order, c: Conf, k: Key, r: SinkModel.Rec, n: nat)
    requires Buildable(c, k, r) && (r.hop.gateway == [] || |r.hop.gateway| == AddrWidth(k.prefix.afi)) && n < U32
    ensures var b, add := BuildRequest(o, c, k, r, n), r.kind == SinkModel.Add;
      && 28 <= |b| < U32
      && b[..4] == Bytes4(o, |b|)
      && b[4..8] == (if add then Bytes2(o, 24, 0) + Bytes2(o, 5, 5) else Bytes2(o, 25, 0) + Bytes2(o, 5, 0))
      && b[8..12] == Bytes4(o, n) && b[12..16] == [0, 0, 0, 0]
      && b[16..28] == [if k.prefix.afi == Ipv4 then 2 else 10, k.prefix.plen, 0, 0,
                       if c.table < 256 then c.table else 0, c.protocol, if add then 0 else 255, 1, 0, 0, 0, 0]
      && b[28..] == PackAttrs(o, RequestAttrs(o, c, k, r))
  {
    hide PackAttrs, N32, N16, Bytes4, Bytes2, RequestAttrs, PackMsg, MsgHeader, RequestBody, RtMsg;
    var body, add := RequestBody(o, c, k, r), r.kind == SinkModel.Add;
    RequestIsSmall(o, c, k, r);
    RequestIsAligned(o, c, k, r);
    var m := Msg(if add then 24 else 25, if add then 0x505 else 5, n, 0, body);
    MessageParts(o, m);
    NumberBytes(o, 16 + |body|);
    NumberBytes(o, n);
    NumberBytes(o, m.mtype);
    NumberBytes(o, m.flags);
    ZeroBytes(o);
    BodyParts(o, c, k, r);
    var b := PackMsg(o, m);
    assert b[16..28] == b[16..][..12] && b[28..] == b[16..][12..];
  }

  lemma MessageParts(o: Order, m: Msg)
    requires PackableMsg(m) && |m.body| % 4 == 0
    ensures var b := PackMsg(o, m);
      && |b| == 16 + |m.body| && b[..4] == N32(o, |b|) && b[4..8] == N16(o, m.mtype) + N16(o, m.flags)
      && b[8..12] == N32(o, m.seqno) && b[12..16] == N32(o, m.portid) && b[16..] == m.body
  {
    hide N32, N16, MsgHeader;
    HeaderParts(o, m);
    var b, h := PackMsg(o, m), MsgHeader(o, m);
    assert b[..4] == h[..4] && b[4..8] == h[4..8] && b[8..12] == h[8..12] && b[12..16] == h[12..16];
  }

  lemma BodyParts(o: Order, c: Conf, k: Key, r: SinkModel.Rec)
    requires Buildable(c, k, r)
    ensures var body := RequestBody(o, c, k, r);
      && |body| >= 12 && body[12..] == PackAttrs(o, RequestAttrs(o, c, k, r))
      && body[..12] == [if k.prefix.afi == Ipv4 then 2 else 10, k.prefix.plen, 0, 0,
                       if c.table < 256 then c.table else 0, c.protocol, if r.kind == SinkModel.Add then 0 else 255, 1,
                       0, 0, 0, 0]
  {
    hide PackAttrs, RequestAttrs, N32;
    ZeroBytes(o);
  }

  lemma ZeroBytes(o: Order)
    ensures N32(o, 0) == [0, 0, 0, 0]
  {
  }

  lemma HeaderParts(o: Order, m: Msg)
    requires PackableMsg(m)
    ensures var h := MsgHeader(o, m);
      && h[..4] == N32(o, 16 + |m.body|) && h[4..8] == N16(o, m.mtype) + N16(o, m.flags)
      && h[8..12] == N32(o, m.seqno) && h[12..16] == N32(o, m.portid)
  {
    hide N32, N16;
  }

  lemma RequestIsAligned(o: Order, c: Conf, k: Key, r: SinkModel.Rec)
    requires Buildable(c, k, r) && (r.hop.gateway == [] || |r.hop.gateway| == AddrWidth(k.prefix.afi))
    ensures |RequestBody(o, c, k, r)| % 4 == 0
  {
    hide PackAttrs, RequestAttrs;
    AttrsAre(o, c, k, r);
  }

  // ----- acknowledgements ------------------------------------------------------------------

  /** An NLMSG_ERROR body starts with minus the errno, in two's complement. */
  function AckBody(o: Order, code: nat, rest: seq<Byte>): seq<Byte>
    requires code < 0x8000_0000
  {
    N32(o, (U32 - code) % U32) + rest
  }

  /** What `_handle` makes of it: `-int32`, or 0 for a body too short. */
  function AckCode(o: Order, body: seq<Byte>): int {
    if |body| < 4 then 0
    else
      var raw: int := Read32(o, body, 0);
      if raw < 0x8000_0000 then -raw else U32 - raw
  }

  lemma AckRoundTrip(o: Order, code: nat, rest: seq<Byte>)
    requires code < 0x8000_0000
    ensures AckCode(o, AckBody(o, code, rest)) == code
  {
    var raw := (U32 - code) % U32;
    assert raw == if code == 0 then 0 else U32 - code;
    WholeHolds(AckBody(o, code, rest));
    HoldsSplit(AckBody(o, code, rest), 0, N32(o, raw), rest);
    Reads32(o, AckBody(o, code, rest), 0, raw);
  }

  // ----- the parsers as they run ----------------------------------------------------------------

  method ParseMessages(o: Order, b: seq<Byte>) returns (out: seq<Msg>)
    ensures out == ParseMsgs(o, b, 0) && Sizes(out) <= |b|
  {
    hide Read16, Read32, Align, ParseMsgs, Sizes;
    out := [];
    var offset: nat := 0;
    MsgsWithinBounds(o, b, 0);
    assert [] + ParseMsgs(o, b, 0) == ParseMsgs(o, b, 0);
    while offset + 16 <= |b|
      invariant ParseMsgs(o, b, 0) == out + ParseMsgs(o, b, offset)
      decreases |b| - offset
    {
      MsgsStep(o, b, offset);
      var length := Read32(o, b, offset);
      if length < 16 || offset + length > |b| {
        assert out + [] == out;
        return;
      }
      var m := Msg(Read16(o, b, offset + 4), Read16(o, b, offset + 6), Read32(o, b, offset + 8),
          Read32(o, b, offset + 12),
                   b[offset + 16..offset + length]);
      ghost var rest := ParseMsgs(o, b, offset + Align(length));
      assert out + ([m] + rest) == (out + [m]) + rest;
      out, offset := out + [m], offset + Align(length);
    }
    MsgsStep(o, b, offset);
    assert out + [] == out;
  }

  lemma AttrsStep(o: Order, b: seq<Byte>, offset: nat)
    ensures offset + 4 > |b| ==> AttrList(o, b, offset) == []
    ensures offset + 4 <= |b| ==>
      var length := Read16(o, b, offset);
      if length < 4 || offset + length > |b| then AttrList(o, b, offset) == []
      else
        AttrList(o, b, offset) ==
          [Attr(Read16(o, b, offset + 2), b[offset + 4..offset + length])] + AttrList(o, b, offset + Align(length))
  {
  }

  method ParseAttributes(o: Order, b: seq<Byte>, start: nat) returns (attrs: map<nat, seq<Byte>>)
    ensures attrs == ParseAttrs(o, b, start)
  {
    hide Read16, Align, AttrList, Firsts;
    attrs := map[];
    var offset := start;
    NoFirsts();
    assert Firsts(AttrList(o, b, start)) + map[] == Firsts(AttrList(o, b, start));
    while offset + 4 <= |b|
      invariant ParseAttrs(o, b, start) == Firsts(AttrList(o, b, offset)) + attrs
      decreases |b| - offset
    {
      AttrsStep(o, b, offset);
      var length := Read16(o, b, offset);
      if length < 4 || offset + length > |b| {
        assert map[] + attrs == attrs;
        return;
      }
      var t, payload := Read16(o, b, offset + 2), b[offset + 4..offset + length];
      ghost var rest := AttrList(o, b, offset + Align(length));
      FirstsCons(Attr(t, payload), rest);
      ghost var was := attrs;
      if t !in attrs {
        attrs := attrs[t := payload];
      }
      assert Firsts(rest)[t := payload] + was == Firsts(rest) + attrs;
      offset := offset + Align(length);
    }
    AttrsStep(o, b, offset);
    assert map[] + attrs == attrs;
  }

  lemma NoFirsts()
    ensures Firsts([]) == map[]
  {
  }
}
