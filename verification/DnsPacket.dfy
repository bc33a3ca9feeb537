/** Whole DNS messages: written, read back, and never longer compressed. */
module DnsPacket {
  import opened Routes
  import opened Bytes
  import opened DnsNames
  import opened DnsReader
  import opened DnsWriter

  // ----- records ------------------------------------------------------------------------

  predicate WritableQuery(q: Query) {
    ValidName(q.name) && q.qtype < 65536 && q.qclass < 65536
  }

  /** A record `struct.pack` and the field setters accept. */
  predicate WritableResource(r: Resource) {
    && ValidName(r.name) && r.rtype < 65536 && r.rclass < 65536 && r.ttl < U32
    && match r.data
       case NameData(name) => IsNameType(r.rtype) && ValidName(name) && |WriteName(name, 0, map[], false).bytes| < 65536
       case Raw(bytes) =>
         !IsNameType(r.rtype) && |bytes| < 65536
         && (r.rtype == A ==> |bytes| == 4) && (r.rtype == AAAA ==> |bytes| == 16)
  }

  function WriteQuery(q: Query, at: nat, labels: map<Name, nat>, compress: bool): (w: Written)
    requires WritableQuery(q) && InReach(labels)
    ensures InReach(w.labels)
  {
    var n := WriteName(q.name, at, labels, compress);
    Written(n.bytes + (Put16(q.qtype) + Put16(q.qclass)), n.labels)
  }

  /** The record data, written ten bytes after the owner name. */
  function WriteData(d: RData, at: nat, labels: map<Name, nat>, compress: bool): (w: Written)
    requires InReach(labels) && (d.NameData? ==> ValidName(d.name))
    ensures InReach(w.labels)
  {
    match d
    case NameData(name) => WriteName(name, at, labels, compress)
    case Raw(bytes) => Written(bytes, labels)
  }

  function FixedFields(r: Resource, rlen: nat): seq<Byte>
    requires WritableResource(r) && rlen < 65536
  {
    (Put16(r.rtype) + Put16(r.rclass)) + (Put32(r.ttl) + Put16(rlen))
  }

  /** `write_resource` with `update`: the length field is the data's. */
  function WriteResource(r: Resource, at: nat, labels: map<Name, nat>, compress: bool): (w: Written)
    requires WritableResource(r) && InReach(labels)
    ensures InReach(w.labels)
  {
    var n := WriteName(r.name, at, labels, compress);
    var d := WriteData(r.data, at + |n.bytes| + 10, n.labels, compress);
    DataFits(r, at + |n.bytes| + 10, n.labels, compress);
    Written(n.bytes + (FixedFields(r, |d.bytes|) + d.bytes), d.labels)
  }

  lemma DataFits(r: Resource, at: nat, labels: map<Name, nat>, compress: bool)
    requires WritableResource(r) && InReach(labels)
    ensures |WriteData(r.data, at, labels, compress).bytes| < 65536
  {
    if r.data.NameData? { PlainLength(Parts(r.data.name), at, labels, compress, 0, map[]); }
  }

  /** However it is written, a name is no longer than plain, wherever that is. */
  lemma {:induction false} PlainLength(parts: seq<Label>, at: nat, labels: map<Name, nat>, compress: bool,
      at': nat, labels': map<Name, nat>)
    requires AreLabels(parts) && InReach(labels) && InReach(labels')
    ensures 0 < |WriteParts(parts, at, labels, compress).bytes| <= |WriteParts(parts, at', labels', false).bytes|
    decreases |parts|
  {
    if parts != [] {
      PlainLength(parts[1..], at + 1 + |parts[0]|, Remember(parts, at, labels, compress), compress,
                  at' + 1 + |parts[0]|, labels');
    }
  }

  // ----- messages -------------------------------------------------------------------------

  function WriteQueries(qs: seq<Query>, at: nat, labels: map<Name, nat>, compress: bool): (w: Written)
    requires (forall i :: 0 <= i < |qs| ==> WritableQuery(qs[i])) && InReach(labels)
    ensures InReach(w.labels)
  {
    if qs == [] then Written([], labels)
    else
      var q := WriteQuery(qs[0], at, labels, compress);
      var rest := WriteQueries(qs[1..], at + |q.bytes|, q.labels, compress);
      Written(q.bytes + rest.bytes, rest.labels)
  }

  function WriteResources(rs: seq<Resource>, at: nat, labels: map<Name, nat>, compress: bool): (w: Written)
    requires (forall i :: 0 <= i < |rs| ==> WritableResource(rs[i])) && InReach(labels)
    ensures InReach(w.labels)
  {
    if rs == [] then Written([], labels)
    else
      var r := WriteResource(rs[0], at, labels, compress);
      var rest := WriteResources(rs[1..], at + |r.bytes|, r.labels, compress);
      Written(r.bytes + rest.bytes, rest.labels)
  }

  predicate Writable(m: Message) {
    && m.ident < 65536 && m.flags < 65536
    && |m.queries| < 65536 && |m.answers| < 65536 && |m.authority| < 65536 && |m.ad| < 65536
    && (forall i :: 0 <= i < |m.queries| ==> WritableQuery(m.queries[i]))
    && (forall i :: 0 <= i < |m.answers| ==> WritableResource(m.answers[i]))
    && (forall i :: 0 <= i < |m.authority| ==> WritableResource(m.authority[i]))
    && (forall i :: 0 <= i < |m.ad| ==> WritableResource(m.ad[i]))
  }

  function HeaderOf(m: Message): (h: seq<Byte>)
    requires Writable(m)
    ensures |h| == 12
  {
    Put16(m.ident) + Put16(m.flags) + Put16(|m.queries|) + Put16(|m.answers|) + Put16(|m.authority|) + Put16(|m.ad|)
  }

  datatype Sections = Sections(queries: Written, answers: Written, authority: Written, ad: Written)

  function WriteSections(m: Message, compress: bool): Sections
    requires Writable(m)
  {
    var q := WriteQueries(m.queries, 12, map[], compress);
    var an := WriteResources(m.answers, 12 + |q.bytes|, q.labels, compress);
    var au := WriteResources(m.authority, 12 + |q.bytes| + |an.bytes|, an.labels, compress);
    var ad := WriteResources(m.ad, 12 + |q.bytes| + |an.bytes| + |au.bytes|, au.labels, compress);
    Sections(q, an, au, ad)
  }

  /** `pkt2net(update=1)`. */
  function WriteMessage(m: Message, compress: bool): seq<Byte>
    requires Writable(m)
  {
    var s := WriteSections(m, compress);
    HeaderOf(m) + (s.queries.bytes + (s.answers.bytes + (s.authority.bytes + s.ad.bytes)))
  }

  // ----- what comes back --------------------------------------------------------------------

  function CanonicalData(d: RData): RData {
    match d case NameData(name) => NameData(Canonical(name)) case Raw(_) => d
  }

  /** The record as it comes back: trailing dots dropped, the length filled in. */
  predicate SameQuery(q: Query, back: Query) {
    back == q.(name := Canonical(q.name))
  }

  predicate SameResource(r: Resource, back: Resource) {
    && back == r.(name := Canonical(r.name), data := CanonicalData(r.data), rlen := back.rlen)
    && (r.data.Raw? ==> back.rlen == |r.data.bytes|)
  }

  predicate SameMessage(m: Message, back: Message) {
    && back.ident == m.ident && back.flags == m.flags
    && |back.queries| == |m.queries| && (forall i :: 0 <= i < |m.queries| ==> SameQuery(m.queries[i], back.queries[i]))
    && SameResources(m.answers, back.answers) && SameResources(m.authority, back.authority)
        && SameResources(m.ad, back.ad)
  }

  predicate SameResources(rs: seq<Resource>, back: seq<Resource>) {
    |back| == |rs| && forall i :: 0 <= i < |rs| ==> SameResource(rs[i], back[i])
  }

  lemma QueryRoundTrip(b: seq<Byte>, pos: nat, q: Query, labels: map<Name, nat>, st: LabelStore, compress: bool)
    requires WritableQuery(q) && InStep(labels, st, pos, compress)
    requires Holds(b, pos, WriteQuery(q, pos, labels, compress).bytes)
    ensures ReadQuery(b, pos, st).Some?
    ensures var w, r := WriteQuery(q, pos, labels, compress), ReadQuery(b, pos, st).value;
      SameQuery(q, r.value) && r.end == pos + |w.bytes| && InStep(w.labels, r.store, r.end, compress)
  {
    hide InStep, Holds;
    InStepReach(labels, st, pos, compress);
    var n := WriteName(q.name, pos, labels, compress);
    var end := pos + |n.bytes|;
    HoldsSplit(b, pos, n.bytes, Put16(q.qtype) + Put16(q.qclass));
    HoldsSplit(b, end, Put16(q.qtype), Put16(q.qclass));
    NameRoundTrip(b, pos, q.name, labels, st, compress);
    Got16(b, end, q.qtype);
    Got16(b, end + 2, q.qclass);
    var r := ReadName(b, pos, st).value;
    InStepLater(n.labels, r.store, end, end + 4, compress);
  }

  lemma InStepReach(labels: map<Name, nat>, st: LabelStore, at: nat, compress: bool)
    requires InStep(labels, st, at, compress)
    ensures InReach(labels)
  {
  }

  lemma InStepLater(labels: map<Name, nat>, st: LabelStore, at: nat, later: nat, compress: bool)
    requires InStep(labels, st, at, compress) && at <= later
    ensures InStep(labels, st, later, compress)
  {
  }

  lemma FixedRoundTrip(b: seq<Byte>, pos: nat, r: Resource, rlen: nat)
    requires WritableResource(r) && rlen < 65536 && Holds(b, pos, FixedFields(r, rlen))
    ensures pos + 10 <= |b| && U16At(b, pos) == r.rtype && U16At(b, pos + 2) == r.rclass
    ensures U32At(b, pos + 4) == r.ttl && U16At(b, pos + 8) == rlen
  {
    HoldsSplit(b, pos, Put16(r.rtype) + Put16(r.rclass), Put32(r.ttl) + Put16(rlen));
    HoldsSplit(b, pos, Put16(r.rtype), Put16(r.rclass));
    HoldsSplit(b, pos + 4, Put32(r.ttl), Put16(rlen));
    Got16(b, pos, r.rtype);
    Got16(b, pos + 2, r.rclass);
    Got32(b, pos + 4, r.ttl);
    Got16(b, pos + 8, rlen);
  }

  lemma RawRoundTrip(b: seq<Byte>, pos: nat, r: Resource)
    requires WritableResource(r) && r.data.Raw? && Holds(b, pos, r.data.bytes)
    ensures RawAt(b, pos, r.rtype, |r.data.bytes|) == Some(Taken(r.data.bytes, pos + |r.data.bytes|))
  {
  }

  /** The data of a record, and its length field. */
  function DataOf(r: Resource, pos: nat, labels: map<Name, nat>, compress: bool): Written
    requires WritableResource(r) && InReach(labels)
  {
    var n := WriteName(r.name, pos, labels, compress);
    WriteData(r.data, pos + |n.bytes| + 10, n.labels, compress)
  }

  lemma OwnerRoundTrip(b: seq<Byte>, pos: nat, r: Resource, labels: map<Name, nat>, st: LabelStore, compress: bool)
    requires WritableResource(r) && InStep(labels, st, pos, compress) && InReach(labels)
    requires Holds(b, pos, WriteResource(r, pos, labels, compress).bytes)
    ensures ReadName(b, pos, st).Some?
    ensures var n, owner, d :=
        WriteName(r.name, pos, labels, compress), ReadName(b, pos, st).value, DataOf(r, pos, labels, compress);
      && owner.value == Canonical(r.name) && owner.end == pos + |n.bytes| && owner.end + 10 <= |b|
      && U16At(b, owner.end) == r.rtype && U16At(b, owner.end + 2) == r.rclass
      && U32At(b, owner.end + 4) == r.ttl && U16At(b, owner.end + 8) == |d.bytes|
      && Holds(b, owner.end + 10, d.bytes) && InStep(n.labels, owner.store, owner.end + 10, compress)
      && |WriteResource(r, pos, labels, compress).bytes| == |n.bytes| + 10 + |d.bytes|
  {
    hide InStep, Holds, FixedFields, ReadName, WriteName, WriteData, Canonical, U16At, U32At, ValidName, InReach;
    var n := WriteName(r.name, pos, labels, compress);
    var end := pos + |n.bytes|;
    var d := DataOf(r, pos, labels, compress);
    DataFits(r, end + 10, n.labels, compress);
    FixedLength(r, |d.bytes|);
    HoldsSplit(b, pos, n.bytes, FixedFields(r, |d.bytes|) + d.bytes);
    HoldsSplit(b, end, FixedFields(r, |d.bytes|), d.bytes);
    NameRoundTrip(b, pos, r.name, labels, st, compress);
    FixedRoundTrip(b, end, r, |d.bytes|);
    InStepLater(n.labels, ReadName(b, pos, st).value.store, end, end + 10, compress);
  }

  lemma NamedDataRoundTrip(b: seq<Byte>, pos: nat, r: Resource, labels: map<Name, nat>, st: LabelStore, compress: bool)
    requires WritableResource(r) && InStep(labels, st, pos, compress) && InReach(labels) && r.data.NameData?
    requires Holds(b, pos, WriteResource(r, pos, labels, compress).bytes)
    ensures ReadResource(b, pos, st).Some?
    ensures var w, back := WriteResource(r, pos, labels, compress), ReadResource(b, pos, st).value;
      SameResource(r, back.value) && back.end == pos + |w.bytes| && InStep(w.labels, back.store, back.end, compress)
  {
    hide InStep, Holds, FixedFields, ReadName, WriteName, RawAt, Canonical, U16At, U32At, ValidName;
    OwnerRoundTrip(b, pos, r, labels, st, compress);
    var n, owner := WriteName(r.name, pos, labels, compress), ReadName(b, pos, st).value;
    NameRoundTrip(b, owner.end + 10, r.data.name, n.labels, owner.store, compress);
  }

  lemma RawDataRoundTrip(b: seq<Byte>, pos: nat, r: Resource, labels: map<Name, nat>, st: LabelStore, compress: bool)
    requires WritableResource(r) && InStep(labels, st, pos, compress) && InReach(labels) && r.data.Raw?
    requires Holds(b, pos, WriteResource(r, pos, labels, compress).bytes)
    ensures ReadResource(b, pos, st).Some?
    ensures var w, back := WriteResource(r, pos, labels, compress), ReadResource(b, pos, st).value;
      SameResource(r, back.value) && back.end == pos + |w.bytes| && InStep(w.labels, back.store, back.end, compress)
  {
    hide InStep, Holds, FixedFields, ReadName, WriteName, RawAt, Canonical, U16At, U32At, ValidName;
    OwnerRoundTrip(b, pos, r, labels, st, compress);
    var n, owner := WriteName(r.name, pos, labels, compress), ReadName(b, pos, st).value;
    RawRoundTrip(b, owner.end + 10, r);
    InStepLater(n.labels, owner.store, owner.end + 10, owner.end + 10 + |r.data.bytes|, compress);
  }

  lemma ResourceRoundTrip(b: seq<Byte>, pos: nat, r: Resource, labels: map<Name, nat>, st: LabelStore, compress: bool)
    requires WritableResource(r) && InStep(labels, st, pos, compress) && InReach(labels)
    requires Holds(b, pos, WriteResource(r, pos, labels, compress).bytes)
    ensures ReadResource(b, pos, st).Some?
    ensures var w, back := WriteResource(r, pos, labels, compress), ReadResource(b, pos, st).value;
      SameResource(r, back.value) && back.end == pos + |w.bytes| && InStep(w.labels, back.store, back.end, compress)
  {
    hide *;
    if r.data.NameData? {
      NamedDataRoundTrip(b, pos, r, labels, st, compress);
    } else {
      RawDataRoundTrip(b, pos, r, labels, st, compress);
    }
  }

  lemma FixedLength(r: Resource, rlen: nat)
    requires WritableResource(r) && rlen < 65536
    ensures |FixedFields(r, rlen)| == 10
  {
  }

  lemma {:induction false} QueriesRoundTrip(b: seq<Byte>, pos: nat, qs: seq<Query>, labels: map<Name, nat>,
        st: LabelStore, compress: bool)
    requires (forall i :: 0 <= i < |qs| ==> WritableQuery(qs[i])) && InReach(labels)
        && InStep(labels, st, pos, compress)
    requires Holds(b, pos, WriteQueries(qs, pos, labels, compress).bytes)
    ensures ReadQueries(b, |qs|, pos, st).Some?
    ensures var w, r := WriteQueries(qs, pos, labels, compress), ReadQueries(b, |qs|, pos, st).value;
      && |r.value| == |qs| && (forall i :: 0 <= i < |qs| ==> SameQuery(qs[i], r.value[i]))
      && r.end == pos + |w.bytes| && InStep(w.labels, r.store, r.end, compress)
    decreases |qs|
  {
    hide InStep, Holds, WriteQuery, ReadQuery, SameQuery, WritableQuery, InReach;
    if qs != [] {
      var q := WriteQuery(qs[0], pos, labels, compress);
      var rest := WriteQueries(qs[1..], pos + |q.bytes|, q.labels, compress);
      HoldsSplit(b, pos, q.bytes, rest.bytes);
      QueryRoundTrip(b, pos, qs[0], labels, st, compress);
      QueriesRoundTrip(b, pos + |q.bytes|, qs[1..], q.labels, ReadQuery(b, pos, st).value.store, compress);
    }
  }

  lemma {:induction false} ResourcesRoundTrip(b: seq<Byte>, pos: nat, rs: seq<Resource>, labels: map<Name, nat>,
        st: LabelStore, compress: bool)
    requires (forall i :: 0 <= i < |rs| ==> WritableResource(rs[i])) && InReach(labels)
        && InStep(labels, st, pos, compress)
    requires Holds(b, pos, WriteResources(rs, pos, labels, compress).bytes)
    ensures ReadResources(b, |rs|, pos, st).Some?
    ensures var w, r := WriteResources(rs, pos, labels, compress), ReadResources(b, |rs|, pos, st).value;
      SameResources(rs, r.value) && r.end == pos + |w.bytes| && InStep(w.labels, r.store, r.end, compress)
    decreases |rs|
  {
    hide InStep, Holds, WriteResource, ReadResource, SameResource, WritableResource, InReach;
    if rs != [] {
      var x := WriteResource(rs[0], pos, labels, compress);
      var rest := WriteResources(rs[1..], pos + |x.bytes|, x.labels, compress);
      HoldsSplit(b, pos, x.bytes, rest.bytes);
      ResourceRoundTrip(b, pos, rs[0], labels, st, compress);
      ResourcesRoundTrip(b, pos + |x.bytes|, rs[1..], x.labels, ReadResource(b, pos, st).value.store, compress);
    }
  }

  lemma HeaderRoundTrip(b: seq<Byte>, m: Message)
    requires Writable(m) && Holds(b, 0, HeaderOf(m))
    ensures 12 <= |b| && U16At(b, 0) == m.ident && U16At(b, 2) == m.flags
    ensures U16At(b, 4) == |m.queries| && U16At(b, 6) == |m.answers|
    ensures U16At(b, 8) == |m.authority| && U16At(b, 10) == |m.ad|
  {
    assert b[..12] == HeaderOf(m);
    forall i | 0 <= i < 12 ensures b[i] == HeaderOf(m)[i] { assert b[i] == b[..12][i]; }
  }

  /** For every writable message, compressed or not: parsing what was written
      gives the same records back, and nothing is left over. */
  lemma MessageRoundTrip(m: Message, compress: bool)
    requires Writable(m)
    ensures ReadMessage(WriteMessage(m, compress)).Some?
    ensures var back := ReadMessage(WriteMessage(m, compress)).value;
      SameMessage(m, back.value) && back.end == |WriteMessage(m, compress)|
  {
    hide InStep, Holds, HeaderOf, WriteQueries, WriteResources, ReadQueries, ReadResources;
    var b, s := WriteMessage(m, compress), WriteSections(m, compress);
    assert Holds(b, 0, b) by { WholeHolds(b); }
    HoldsSplit(b, 0, HeaderOf(m), s.queries.bytes + (s.answers.bytes + (s.authority.bytes + s.ad.bytes)));
    HeaderRoundTrip(b, m);
    var at := 12;
    HoldsSplit(b, at, s.queries.bytes, s.answers.bytes + (s.authority.bytes + s.ad.bytes));
    NothingWritten(at, compress);
    QueriesRoundTrip(b, at, m.queries, map[], EMPTY_STORE, compress);
    var q := ReadQueries(b, |m.queries|, 12, EMPTY_STORE).value;
    HoldsSplit(b, q.end, s.answers.bytes, s.authority.bytes + s.ad.bytes);
    ResourcesRoundTrip(b, q.end, m.answers, s.queries.labels, q.store, compress);
    var an := ReadResources(b, |m.answers|, q.end, q.store).value;
    HoldsSplit(b, an.end, s.authority.bytes, s.ad.bytes);
    ResourcesRoundTrip(b, an.end, m.authority, s.answers.labels, an.store, compress);
    var au := ReadResources(b, |m.authority|, an.end, an.store).value;
    ResourcesRoundTrip(b, au.end, m.ad, s.authority.labels, au.store, compress);
  }

  lemma NothingWritten(at: nat, compress: bool)
    ensures InReach(map[]) && InStep(map[], EMPTY_STORE, at, compress)
  {
  }

  // ----- compression only ever helps --------------------------------------------------------

  lemma NameNoLonger(name: Name, at: nat, labels: map<Name, nat>, at': nat)
    requires ValidName(name) && InReach(labels)
    ensures |WriteName(name, at, labels, true).bytes| <= |WriteName(name, at', map[], false).bytes|
    ensures WriteName(name, at', map[], false).labels == map[]
  {
    PlainLength(Parts(name), at, labels, true, at', map[]);
    PlainRemembersNothing(Parts(name), at');
  }

  lemma {:induction false} PlainRemembersNothing(parts: seq<Label>, at: nat)
    requires AreLabels(parts)
    ensures WriteParts(parts, at, map[], false).labels == map[]
    decreases |parts|
  {
    if parts != [] { PlainRemembersNothing(parts[1..], at + 1 + |parts[0]|); }
  }

  lemma {:induction false} QueriesNoLonger(qs: seq<Query>, at: nat, labels: map<Name, nat>, at': nat)
    requires (forall i :: 0 <= i < |qs| ==> WritableQuery(qs[i])) && InReach(labels)
    ensures |WriteQueries(qs, at, labels, true).bytes| <= |WriteQueries(qs, at', map[], false).bytes|
    ensures WriteQueries(qs, at', map[], false).labels == map[]
    decreases |qs|
  {
    hide WriteName;
    if qs != [] {
      NameNoLonger(qs[0].name, at, labels, at');
      var c, p := WriteQuery(qs[0], at, labels, true), WriteQuery(qs[0], at', map[], false);
      QueriesNoLonger(qs[1..], at + |c.bytes|, c.labels, at' + |p.bytes|);
    }
  }

  lemma ResourceNoLonger(r: Resource, at: nat, labels: map<Name, nat>, at': nat)
    requires WritableResource(r) && InReach(labels)
    ensures |WriteResource(r, at, labels, true).bytes| <= |WriteResource(r, at', map[], false).bytes|
    ensures WriteResource(r, at', map[], false).labels == map[]
  {
    hide WriteName, FixedFields;
    NameNoLonger(r.name, at, labels, at');
    var c, p := WriteName(r.name, at, labels, true), WriteName(r.name, at', map[], false);
    DataFits(r, at + |c.bytes| + 10, c.labels, true);
    DataFits(r, at' + |p.bytes| + 10, p.labels, false);
    FixedLength(r, |WriteData(r.data, at + |c.bytes| + 10, c.labels, true).bytes|);
    FixedLength(r, |WriteData(r.data, at' + |p.bytes| + 10, p.labels, false).bytes|);
    if r.data.NameData? { NameNoLonger(r.data.name, at + |c.bytes| + 10, c.labels, at' + |p.bytes| + 10); }
  }

  lemma {:induction false} ResourcesNoLonger(rs: seq<Resource>, at: nat, labels: map<Name, nat>, at': nat)
    requires (forall i :: 0 <= i < |rs| ==> WritableResource(rs[i])) && InReach(labels)
    ensures |WriteResources(rs, at, labels, true).bytes| <= |WriteResources(rs, at', map[], false).bytes|
    ensures WriteResources(rs, at', map[], false).labels == map[]
    decreases |rs|
  {
    hide WriteResource;
    if rs != [] {
      ResourceNoLonger(rs[0], at, labels, at');
      var c, p := WriteResource(rs[0], at, labels, true), WriteResource(rs[0], at', map[], false);
      ResourcesNoLonger(rs[1..], at + |c.bytes|, c.labels, at' + |p.bytes|);
    }
  }

  /** Compressed output is never longer. */
  lemma CompressedNoLonger(m: Message)
    requires Writable(m)
    ensures |WriteMessage(m, true)| <= |WriteMessage(m, false)|
  {
    hide WriteQueries, WriteResources;
    var c, p := WriteSections(m, true), WriteSections(m, false);
    QueriesNoLonger(m.queries, 12, map[], 12);
    ResourcesNoLonger(m.answers, 12 + |c.queries.bytes|, c.queries.labels, 12 + |p.queries.bytes|);
    ResourcesNoLonger(m.authority, 12 + |c.queries.bytes| + |c.answers.bytes|, c.answers.labels,
                      12 + |p.queries.bytes| + |p.answers.bytes|);
    ResourcesNoLonger(m.ad, 12 + |c.queries.bytes| + |c.answers.bytes| + |c.authority.bytes|, c.authority.labels,
                      12 + |p.queries.bytes| + |p.answers.bytes| + |p.authority.bytes|);
  }
}
