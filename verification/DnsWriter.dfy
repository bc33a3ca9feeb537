/** Writing a DNS message, with or without name compression, and reading it
    back. */
module DnsWriter {
  import opened Routes
  import opened Bytes
  import opened DnsNames
  import opened DnsReader

  /** Bytes written, and the suffix-to-offset table after them. */
  datatype Written = Written(bytes: seq<Byte>, labels: map<Name, nat>)

  const REACH: nat := 0x4000

  /** `0xc000 | offset`, in network order. */
  function Pointer(at: nat): seq<Byte>
    requires at < REACH
  {
    [192 + at / 256, at % 256]
  }

  predicate InReach(labels: map<Name, nat>) {
    forall s | s in labels :: labels[s] < REACH
  }

  /** The labels of a name written at `at`: each suffix is pointed to if it was
      written before, and remembered if a pointer can reach it. */
  function WriteParts(parts: seq<Label>, at: nat, labels: map<Name, nat>, compress: bool): (w: Written)
    requires AreLabels(parts) && InReach(labels)
    ensures InReach(w.labels)
    decreases |parts|
  {
    if parts == [] then Written([0], labels)
    else if compress && Join(parts) in labels then Written(Pointer(labels[Join(parts)]), labels)
    else
      var rest := WriteParts(parts[1..], at + 1 + |parts[0]|, Remember(parts, at, labels, compress), compress);
      Written([|parts[0]|] + parts[0] + rest.bytes, rest.labels)
  }

  function Remember(parts: seq<Label>, at: nat, labels: map<Name, nat>, compress: bool): map<Name, nat> {
    if compress && at < REACH then labels[Join(parts) := at] else labels
  }

  /** `write_name` with `at` bytes already written. */
  function WriteName(name: Name, at: nat, labels: map<Name, nat>, compress: bool): (w: Written)
    requires ValidName(name) && InReach(labels)
    ensures InReach(w.labels)
  {
    WriteParts(Parts(name), at, labels, compress)
  }

  // ----- what the reader makes of it ------------------------------------------------------

  /** The pieces the reader finds in a written name. */
  function Trace(parts: seq<Label>, at: nat, labels: map<Name, nat>, compress: bool): seq<Piece>
    requires AreLabels(parts) && InReach(labels)
    decreases |parts|
  {
    if parts == [] then []
    else if compress && Join(parts) in labels then [Piece(labels[Join(parts)], Join(parts))]
    else
      [Piece(at, parts[0])]
      + Trace(parts[1..], at + 1 + |parts[0]|, Remember(parts, at, labels, compress), compress)
  }

  /** The writer's table and the reader's store after the same bytes, `at` of
      them: the table is the part of the store a pointer can reach. */
  ghost predicate Simulates(labels: map<Name, nat>, st: LabelStore, at: nat) {
    && (forall s | s in labels :: s in st.offsets && st.offsets[s] == labels[s] && labels[s] < REACH)
    && (forall s | s in st.offsets && s !in labels :: st.offsets[s] >= REACH)
    && (forall s | s in st.offsets :: st.offsets[s] in st.names && st.names[st.offsets[s]] == s && st.offsets[s] < at)
    && (forall n | n in st.names :: n < at)
  }

  /** Either the table is in step with the store, or nothing was compressed. */
  ghost predicate InStep(labels: map<Name, nat>, st: LabelStore, at: nat, compress: bool) {
    InReach(labels) && (compress ==> Simulates(labels, st, at))
  }

  lemma {:induction false} TraceText(parts: seq<Label>, at: nat, labels: map<Name, nat>, compress: bool)
    requires AreLabels(parts) && InReach(labels)
    ensures var pieces := Trace(parts, at, labels, compress);
      Text(pieces) == Join(parts) && (pieces == [] <==> parts == [])
    decreases |parts|
  {
    if parts == [] {
    } else if compress && Join(parts) in labels {
      assert Texts(Trace(parts, at, labels, compress)) == [Join(parts)];
    } else {
      var labels' := Remember(parts, at, labels, compress);
      TraceText(parts[1..], at + 1 + |parts[0]|, labels', compress);
      var rest := Trace(parts[1..], at + 1 + |parts[0]|, labels', compress);
      TextCons(Piece(at, parts[0]), rest);
      JoinCons(parts[0], Texts(rest), parts[1..]);
      assert parts == [parts[0]] + parts[1..];
    }
  }

  /** While a name is written, everything in the table is from earlier names, but
      for suffixes longer than what is still to be written. */
  ghost predicate FromBefore(earlier: map<Name, nat>, labels: map<Name, nat>, todo: Name) {
    forall s | s in labels :: (s in earlier && earlier[s] == labels[s]) || |s| > |todo|
  }

  /** Pointers the table offers are ones the reader can follow from `start`. */
  ghost predicate Followable(earlier: map<Name, nat>, names: map<nat, Name>, start: nat) {
    forall s | s in earlier :: earlier[s] < start && earlier[s] < REACH && earlier[s] in names && names[earlier[s]] == s
  }

  lemma PointerReads(b: seq<Byte>, pos: nat, at: nat)
    requires at < REACH && Holds(b, pos, Pointer(at))
    ensures pos + 1 < |b| && b[pos] >= 192 && PointerAt(b, pos) == at
  {
    assert b[pos] == b[pos..pos + 2][0] && b[pos + 1] == b[pos..pos + 2][1];
  }

  lemma LabelReads(b: seq<Byte>, pos: nat, l: Label)
    requires IsLabel(l) && Holds(b, pos, [|l|] + l)
    ensures pos < |b| && IsLiteral(b[pos]) && b[pos] == |l| && Slice(b, pos + 1, pos + 1 + |l|) == l
  {
    HoldsSplit(b, pos, [|l|], l);
    assert b[pos] == b[pos..pos + 1][0];
  }

  /** A label that is written out, and the rest of the name after it. */
  lemma LabelWritten(parts: seq<Label>, at: nat, labels: map<Name, nat>, compress: bool)
    requires AreLabels(parts) && InReach(labels) && parts != [] && !(compress && Join(parts) in labels)
    ensures var labels', next := Remember(parts, at, labels, compress), at + 1 + |parts[0]|;
      && InReach(labels')
      && WriteParts(parts, at, labels, compress).bytes
         == ([|parts[0]|] + parts[0]) + WriteParts(parts[1..], next, labels', compress).bytes
      && WriteParts(parts, at, labels, compress).labels == WriteParts(parts[1..], next, labels', compress).labels
      && Trace(parts, at, labels, compress) == [Piece(at, parts[0])] + Trace(parts[1..], next, labels', compress)
  {
  }

  lemma LaterSuffix(earlier: map<Name, nat>, labels: map<Name, nat>, parts: seq<Label>, at: nat, compress: bool)
    requires AreLabels(parts) && parts != [] && FromBefore(earlier, labels, Join(parts))
    ensures FromBefore(earlier, Remember(parts, at, labels, compress), Join(parts[1..]))
  {
    JoinShorter(parts);
  }

  /** The reader walks over a written name and finds its pieces. */
  lemma {:induction false} WalkWritten(b: seq<Byte>, start: nat, pos: nat, parts: seq<Label>,
      earlier: map<Name, nat>, labels: map<Name, nat>, names: map<nat, Name>, compress: bool)
    requires AreLabels(parts) && InReach(labels) && start <= pos
    requires Holds(b, pos, WriteParts(parts, pos, labels, compress).bytes)
    requires compress ==> FromBefore(earlier, labels, Join(parts)) && Followable(earlier, names, start)
    ensures Walk(b, start, pos, names) ==
            Some(Walked(Trace(parts, pos, labels, compress), pos + |WriteParts(parts, pos, labels, compress).bytes|))
    decreases |parts|
  {
    hide WriteParts, Trace, Walk, Holds, Remember, FromBefore, Followable, AreLabels, InReach, Join, Slice;
    if parts == [] || (compress && Join(parts) in labels) {
      WalkEnd(b, start, pos, parts, earlier, labels, names, compress);
    } else {
      LabelWritten(parts, pos, labels, compress);
      var labels', next := Remember(parts, pos, labels, compress), pos + 1 + |parts[0]|;
      if compress { LaterSuffix(earlier, labels, parts, pos, compress); }
      TailAreLabels(parts);
      HoldsSplit(b, pos, [|parts[0]|] + parts[0], WriteParts(parts[1..], next, labels', compress).bytes);
      LabelReads(b, pos, parts[0]);
      WalkWritten(b, start, next, parts[1..], earlier, labels', names, compress);
      WalkLiteral(b, start, pos, names);
    }
  }

  lemma TailAreLabels(parts: seq<Label>)
    requires AreLabels(parts) && parts != []
    ensures IsLabel(parts[0]) && AreLabels(parts[1..])
  {
  }

  lemma WalkEnd(b: seq<Byte>, start: nat, pos: nat, parts: seq<Label>,
      earlier: map<Name, nat>, labels: map<Name, nat>, names: map<nat, Name>, compress: bool)
    requires AreLabels(parts) && InReach(labels) && start <= pos
    requires Holds(b, pos, WriteParts(parts, pos, labels, compress).bytes)
    requires parts == [] || (compress && Join(parts) in labels)
    requires compress ==> FromBefore(earlier, labels, Join(parts)) && Followable(earlier, names, start)
    ensures Walk(b, start, pos, names) ==
            Some(Walked(Trace(parts, pos, labels, compress), pos + |WriteParts(parts, pos, labels, compress).bytes|))
  {
    if parts == [] {
      assert b[pos] == b[pos..pos + 1][0];
    } else {
      PointerReads(b, pos, labels[Join(parts)]);
    }
  }

  /** Reading a written name keeps the table in step with the store. */
  lemma {:induction false} NotesSimulate(parts: seq<Label>, at: nat, labels: map<Name, nat>, st: LabelStore)
    requires AreLabels(parts) && InReach(labels) && Simulates(labels, st, at)
    ensures var w := WriteParts(parts, at, labels, true);
      Simulates(w.labels, NoteTails(st, Trace(parts, at, labels, true)), at + |w.bytes|)
    decreases |parts|
  {
    var pieces := Trace(parts, at, labels, true);
    TraceText(parts, at, labels, true);
    if parts != [] && Join(parts) in labels {
      assert pieces[1..] == [];
    } else if parts != [] {
      var labels', next := Remember(parts, at, labels, true), at + 1 + |parts[0]|;
      LabelWritten(parts, at, labels, true);
      assert pieces[1..] == Trace(parts[1..], next, labels', true);
      NoteSimulates(parts, at, labels, st, pieces);
      NotesSimulate(parts[1..], next, labels', Note(st, pieces));
    }
  }

  lemma NoteSimulates(parts: seq<Label>, at: nat, labels: map<Name, nat>, st: LabelStore, pieces: seq<Piece>)
    requires parts != [] && Join(parts) !in labels && Simulates(labels, st, at)
    requires pieces != [] && Text(pieces) == Join(parts) && pieces[0].at == at
    ensures Simulates(Remember(parts, at, labels, true), Note(st, pieces), at + 1 + |parts[0]|)
  {
    hide Text, Join;
  }

  /** A written name reads back as itself, a trailing dot aside, and writer and
      reader stay in step. */
  lemma NameRoundTrip(b: seq<Byte>, pos: nat, name: Name, labels: map<Name, nat>, st: LabelStore, compress: bool)
    requires ValidName(name) && InStep(labels, st, pos, compress)
    requires Holds(b, pos, WriteName(name, pos, labels, compress).bytes)
    ensures ReadName(b, pos, st).Some?
    ensures var w, r := WriteName(name, pos, labels, compress), ReadName(b, pos, st).value;
      && r.value == Canonical(name) && r.end == pos + |w.bytes|
      && InStep(w.labels, r.store, r.end, compress)
  {
    var parts := Parts(name);
    assert compress ==> FromBefore(labels, labels, Join(parts)) && Followable(labels, st.names, pos);
    WalkWritten(b, pos, pos, parts, labels, labels, st.names, compress);
    TraceText(parts, pos, labels, compress);
    JoinParts(name);
    if compress { NotesSimulate(parts, pos, labels, st); }
  }

}
