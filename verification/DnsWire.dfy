/** What a packet's bytes say, field by field and type by type, and that this is what
    reading gives and writing puts. */
module DnsWire {
  import opened Routes
  import opened Bytes
  import opened DnsNames
  import opened DnsReader
  import opened DnsWriter
  import opened DnsPacket

  /** Two bytes in network order, at a place inside the packet. */
  function Short(b: seq<Byte>, at: nat): nat
    requires at + 2 <= |b|
  {
    b[at] as int * 256 + b[at + 1]
  }

  /** The types whose data is a name: NS, CNAME and PTR. */
  const NAMED: set<nat> := {2, 5, 12}

  /** A record lies at `at`: a name, ten fixed bytes, and for some types a name or an
      address. */
  predicate LiesAt(b: seq<Byte>, at: nat) {
    && Naive(b, at).Some?
    && var fixed := NameEnd(b, at);
    && fixed + 10 <= |b|
    && (Short(b, fixed) in NAMED ==> Naive(b, fixed + 10).Some?)
    && (Short(b, fixed) == 1 ==> fixed + 14 <= |b|)
    && (Short(b, fixed) == 28 ==> fixed + 26 <= |b|)
  }

  /** Where the record's data ends: its name, four bytes for an A, sixteen for an AAAA,
      and otherwise as many as its length field says. */
  function EndOf(b: seq<Byte>, at: nat): nat
    requires LiesAt(b, at)
  {
    var data := NameEnd(b, at) + 10;
    var rtype := Short(b, data - 10);
    if rtype in NAMED then NameEnd(b, data)
    else if rtype == 1 then data + 4
    else if rtype == 28 then data + 16
    else data + Short(b, data - 2)
  }

  /** `r` is the record that lies at `at`. */
  predicate IsRecordAt(b: seq<Byte>, at: nat, r: Resource) {
    && LiesAt(b, at)
    && var fixed := NameEnd(b, at);
    && r.name == Join(Naive(b, at).value)
    && r.rtype == Short(b, fixed) && r.rclass == Short(b, fixed + 2)
    && r.ttl == Short(b, fixed + 4) * 0x1_0000 + Short(b, fixed + 6) && r.rlen == Short(b, fixed + 8)
    && (r.data.NameData? <==> r.rtype == 2 || r.rtype == 5 || r.rtype == 12)
    && (r.data.NameData? ==> r.data.name == Join(Naive(b, fixed + 10).value))
    && (r.data.Raw? ==> r.data.bytes == b[Min(fixed + 10, |b|)..Min(EndOf(b, at), |b|)])
  }

  predicate AreRecordsAt(b: seq<Byte>, at: nat, rs: seq<Resource>)
    decreases |rs|
  {
    rs == [] || (IsRecordAt(b, at, rs[0]) && AreRecordsAt(b, EndOf(b, at), rs[1..]))
  }

  /** Where `rs` end, one after the other. */
  function RecordsEnd(b: seq<Byte>, at: nat, rs: seq<Resource>): nat
    requires AreRecordsAt(b, at, rs)
    decreases |rs|
  {
    if rs == [] then at else RecordsEnd(b, EndOf(b, at), rs[1..])
  }

  /** A question: a name, its type and its class. */
  predicate IsQuestionAt(b: seq<Byte>, at: nat, q: Query) {
    && Naive(b, at).Some? && NameEnd(b, at) + 4 <= |b|
    && q.name == Join(Naive(b, at).value)
    && q.qtype == Short(b, NameEnd(b, at)) && q.qclass == Short(b, NameEnd(b, at) + 2)
  }

  predicate AreQuestionsAt(b: seq<Byte>, at: nat, qs: seq<Query>)
    decreases |qs|
  {
    qs == [] || (IsQuestionAt(b, at, qs[0]) && AreQuestionsAt(b, NameEnd(b, at) + 4, qs[1..]))
  }

  function QuestionsEnd(b: seq<Byte>, at: nat, qs: seq<Query>): nat
    requires AreQuestionsAt(b, at, qs)
    decreases |qs|
  {
    if qs == [] then at else QuestionsEnd(b, NameEnd(b, at) + 4, qs[1..])
  }

  // ----- reading ----------------------------------------------------------------------

  lemma NaiveRecord(b: seq<Byte>, at: nat)
    requires NaiveResource(b, at).Some?
    ensures var r := NaiveResource(b, at).value;
      IsRecordAt(b, at, r.value) && EndOf(b, at) == r.end
  {
    hide NaiveFrom, NameEnd;
  }

  lemma {:induction false} NaiveRecords(b: seq<Byte>, count: nat, at: nat)
    requires NaiveResources(b, count, at).Some?
    ensures var r := NaiveResources(b, count, at).value;
      |r.value| == count && AreRecordsAt(b, at, r.value) && RecordsEnd(b, at, r.value) == r.end
    decreases count
  {
    hide NaiveResource, IsRecordAt, EndOf;
    if count > 0 {
      NaiveRecord(b, at);
      NaiveRecords(b, count - 1, NaiveResource(b, at).value.end);
      var r := NaiveResources(b, count, at).value.value;
      assert r[1..] == NaiveResources(b, count - 1, NaiveResource(b, at).value.end).value.value;
    }
  }

  lemma {:induction false} NaiveQuestions(b: seq<Byte>, count: nat, at: nat)
    requires NaiveQueries(b, count, at).Some?
    ensures var q := NaiveQueries(b, count, at).value;
      |q.value| == count && AreQuestionsAt(b, at, q.value) && QuestionsEnd(b, at, q.value) == q.end
    decreases count
  {
    hide NaiveFrom, NameEnd;
    if count > 0 {
      NaiveQuestions(b, count - 1, NaiveQuery(b, at).value.end);
      var q := NaiveQueries(b, count, at).value.value;
      assert q[1..] == NaiveQueries(b, count - 1, NaiveQuery(b, at).value.end).value.value;
    }
  }

  /** A packet that is read comes back as its bytes say: six header fields, as many
      questions and records as they count, each where the one before ends, and a
      record's data a name exactly for the types 2, 5 and 12. */
  lemma ReadsTheWire(b: seq<Byte>)
    requires ReadMessage(b).Some?
    ensures |b| >= 12
    ensures var m := ReadMessage(b).value.value;
      && m.ident == Short(b, 0) && m.flags == Short(b, 2)
      && |m.queries| == Short(b, 4) && |m.answers| == Short(b, 6)
      && |m.authority| == Short(b, 8) && |m.ad| == Short(b, 10)
      && AreQuestionsAt(b, 12, m.queries)
      && var first := QuestionsEnd(b, 12, m.queries);
      && AreRecordsAt(b, first, m.answers)
      && var second := RecordsEnd(b, first, m.answers);
      && AreRecordsAt(b, second, m.authority)
      && AreRecordsAt(b, RecordsEnd(b, second, m.authority), m.ad)
  {
    hide AreQuestionsAt, AreRecordsAt, QuestionsEnd, RecordsEnd, NaiveQueries, NaiveResources, ReadMessage;
    MessageIsNaive(b);
    var q := NaiveQueries(b, U16At(b, 4), 12).value;
    NaiveQuestions(b, U16At(b, 4), 12);
    var an := NaiveResources(b, U16At(b, 6), q.end).value;
    NaiveRecords(b, U16At(b, 6), q.end);
    var au := NaiveResources(b, U16At(b, 8), an.end).value;
    NaiveRecords(b, U16At(b, 8), an.end);
    NaiveRecords(b, U16At(b, 10), au.end);
  }

  // ----- writing ----------------------------------------------------------------------

  /** Written plain, a name takes a length byte for each label and one for the root. */
  lemma {:induction false} PlainSize(parts: seq<Label>, at: nat)
    requires AreLabels(parts)
    ensures |WriteParts(parts, at, map[], false).bytes| == if parts == [] then 1 else |Join(parts)| + 2
    decreases |parts|
  {
    if parts != [] {
      PlainSize(parts[1..], at + 1 + |parts[0]|);
      if |parts| > 1 { assert parts[1..] != []; }
    }
  }

  /** What can be written: fields that fit, valid names, and for each type the data it
      has. */
  lemma WritableIff(r: Resource)
    ensures WritableResource(r) <==>
      && ValidName(r.name) && r.rtype < 0x1_0000 && r.rclass < 0x1_0000 && r.ttl < 0x1_0000_0000
      && (r.data.NameData? <==> r.rtype == 2 || r.rtype == 5 || r.rtype == 12)
      && (r.data.NameData? ==> ValidName(r.data.name) && |Canonical(r.data.name)| + 2 < 0x1_0000)
      && (r.data.Raw? ==> |r.data.bytes| < 0x1_0000)
      && (r.rtype == 1 ==> |r.data.bytes| == 4) && (r.rtype == 28 ==> |r.data.bytes| == 16)
  {
    if r.data.NameData? && ValidName(r.data.name) {
      PlainSize(Parts(r.data.name), 0);
      JoinParts(r.data.name);
    }
  }

  /** So a record with a name for data reads back as one, and any other as its bytes. */
  lemma AnswersReadBack(m: Message, compress: bool, i: nat)
    requires Writable(m) && i < |m.answers|
    ensures ReadMessage(WriteMessage(m, compress)).Some?
    ensures var back := ReadMessage(WriteMessage(m, compress)).value.value.answers;
      && |back| == |m.answers|
      && (back[i].data.NameData? <==> m.answers[i].rtype in NAMED)
      && back[i].data ==
           match m.answers[i].data case NameData(name) => NameData(Canonical(name)) case Raw(bytes) => Raw(bytes)
  {
    hide WriteMessage, ReadMessage, WritableResource;
    MessageRoundTrip(m, compress);
    WritableIff(m.answers[i]);
  }

  /** A name written before, within reach of a pointer, is two bytes the next time:
      the two top bits, and where it stands. */
  lemma RepeatIsPointer(name: Name, at: nat, labels: map<Name, nat>, later: nat)
    requires ValidName(name) && Parts(name) != [] && InReach(labels)
    requires at < 0x4000 && Join(Parts(name)) !in labels
    ensures var w := WriteName(name, at, labels, true);
      WriteName(name, later, w.labels, true).bytes == [0xc0 + at / 256, at % 256]
  {
    var parts := Parts(name);
    var noted := labels[Join(parts) := at];
    assert InReach(noted) && Remember(parts, at, labels, true) == noted;
    LabelsAreKept(parts[1..], at + 1 + |parts[0]|, noted);
  }

  lemma {:induction false} LabelsAreKept(parts: seq<Label>, at: nat, labels: map<Name, nat>)
    requires AreLabels(parts) && InReach(labels)
    ensures forall s | s in labels ::
      s in WriteParts(parts, at, labels, true).labels && WriteParts(parts, at, labels, true).labels[s] == labels[s]
    decreases |parts|
  {
    if parts != [] && Join(parts) !in labels {
      LabelsAreKept(parts[1..], at + 1 + |parts[0]|, Remember(parts, at, labels, true));
    }
  }
}
