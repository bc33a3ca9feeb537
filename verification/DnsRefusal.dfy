/** Exactly which packets the reader refuses although naive parsing reads them. */
module DnsRefusal {
  import opened Routes
  import opened Bytes
  import opened DnsNames
  import opened DnsReader

  // ----- one name -------------------------------------------------------------------

  /** The pointer a name ends with. */
  function LastPointer(b: seq<Byte>, pos: nat): Option<nat>
    decreases |b| - pos
  {
    if pos >= |b| then None
    else if IsLiteral(b[pos]) then LastPointer(b, pos + 1 + b[pos])
    else if b[pos] == 0 || pos + 1 >= |b| then None
    else Some(PointerAt(b, pos))
  }

  lemma {:induction false} WalkableIff(b: seq<Byte>, start: nat, pos: nat, st: LabelStore)
    requires Sound(b, st) && start <= pos
    ensures Walk(b, start, pos, st.names).Some? <==>
      NaiveFrom(b, start, pos).Some? && (LastPointer(b, pos).None? || LastPointer(b, pos).value in st.names)
    decreases |b| - pos
  {
    if pos < |b| && IsLiteral(b[pos]) {
      WalkableIff(b, start, pos + 1 + b[pos], st);
    } else if pos + 1 < |b| && b[pos] != 0 && PointerAt(b, pos) in st.names {
      assert Means(b, PointerAt(b, pos), st.names[PointerAt(b, pos)]);
    }
  }

  /** The exact condition under which a name can be read: naive decompression
      works, and the pointer that ends it, if any, is to a recorded offset. */
  lemma ReadableIff(b: seq<Byte>, start: nat, st: LabelStore)
    requires Sound(b, st)
    ensures ReadName(b, start, st).Some? <==>
      Naive(b, start).Some? && (LastPointer(b, start).None? || LastPointer(b, start).value in st.names)
  {
    WalkableIff(b, start, start, st);
  }

  // ----- what has been recorded, without the store --------------------------------------

  /** Where the labels written out in a name start. */
  function Literals(b: seq<Byte>, pos: nat): seq<nat>
    decreases |b| - pos
  {
    if pos < |b| && IsLiteral(b[pos]) then [pos] + Literals(b, pos + 1 + b[pos]) else []
  }

  /** What a name or the tail of one says. */
  function TextAt(b: seq<Byte>, at: nat): Name {
    match Naive(b, at) case None => [] case Some(labels) => Join(labels)
  }

  /** `at` is the first of the places in `seen` where its text starts. */
  ghost predicate FirstCopy(b: seq<Byte>, seen: seq<nat>, at: nat) {
    exists i :: 0 <= i < |seen| && seen[i] == at && NotBefore(b, seen, i)
  }

  predicate NotBefore(b: seq<Byte>, seen: seq<nat>, i: nat)
    requires i < |seen|
  {
    forall j :: 0 <= j < i ==> TextAt(b, seen[j]) != TextAt(b, seen[i])
  }

  /** The store holds the first copies among the places read so far. */
  ghost predicate Records(b: seq<Byte>, st: LabelStore, seen: seq<nat>) {
    && Sound(b, st)
    && (forall at :: at in st.names <==> FirstCopy(b, seen, at))
    && (forall at | at in seen :: TextAt(b, at) in st.offsets)
    && (forall s | s in st.offsets :: exists at :: at in seen && TextAt(b, at) == s)
  }

  lemma FirstCopyGrows(b: seq<Byte>, seen: seq<nat>, more: nat, at: nat)
    ensures FirstCopy(b, seen + [more], at) <==>
      FirstCopy(b, seen, at) || (at == more && forall x | x in seen :: TextAt(b, x) != TextAt(b, more))
  {
    hide TextAt;
    var all := seen + [more];
    if FirstCopy(b, all, at) {
      var i :| 0 <= i < |all| && all[i] == at && NotBefore(b, all, i);
      if i < |seen| {
        forall j | 0 <= j < i ensures TextAt(b, seen[j]) != TextAt(b, seen[i]) {
          assert all[j] == seen[j];
        }
        assert seen[i] == at && NotBefore(b, seen, i);
      } else {
        forall x | x in seen ensures TextAt(b, x) != TextAt(b, more) {
          var j :| 0 <= j < |seen| && seen[j] == x;
          assert all[j] == x;
        }
      }
    }
    if FirstCopy(b, seen, at) {
      var i :| 0 <= i < |seen| && seen[i] == at && NotBefore(b, seen, i);
      assert all[i] == at && NotBefore(b, all, i);
    }
    if at == more && forall x | x in seen :: TextAt(b, x) != TextAt(b, more) {
      assert all[|seen|] == at && NotBefore(b, all, |seen|);
    }
  }

  /** Noting a place that says `Text(pieces)` records it if it is the first. */
  lemma NoteRecords(b: seq<Byte>, st: LabelStore, seen: seq<nat>, pieces: seq<Piece>)
    requires Records(b, st, seen) && pieces != [] && Means(b, pieces[0].at, Text(pieces))
    ensures Records(b, Note(st, pieces), seen + [pieces[0].at])
  {
    hide Naive, FirstCopy;
    var at, st', all := pieces[0].at, Note(st, pieces), seen + [pieces[0].at];
    assert TextAt(b, at) == Text(pieces);
    forall x ensures x in st'.names <==> FirstCopy(b, all, x) {
      FirstCopyGrows(b, seen, at, x);
      assert x in st.names <==> FirstCopy(b, seen, x);
    }
    forall s | s in st'.offsets ensures exists x :: x in all && TextAt(b, x) == s {
      if s in st.offsets {
        var x :| x in seen && TextAt(b, x) == s;
        assert x in all;
      } else {
        assert at in all;
      }
    }
  }

  /** A pointer at the end of a name only repeats what is recorded. */
  lemma NotePointer(b: seq<Byte>, st: LabelStore, seen: seq<nat>, p: Piece)
    requires Records(b, st, seen) && p.at in st.names && st.names[p.at] == p.text
    ensures NoteTails(st, [p]) == st
  {
    hide Means, FirstCopy, TextAt;
    assert Texts([p]) == [p.text] && Text([p]) == p.text;
    StoredText(b, st, seen, p.at);
    assert [p][1..] == [];
  }

  lemma StoredText(b: seq<Byte>, st: LabelStore, seen: seq<nat>, at: nat)
    requires Records(b, st, seen) && at in st.names
    ensures st.names[at] in st.offsets
  {
    assert Means(b, at, st.names[at]) && TextAt(b, at) == st.names[at];
    assert FirstCopy(b, seen, at);
    var i :| 0 <= i < |seen| && seen[i] == at && NotBefore(b, seen, i);
    assert seen[i] in seen;
  }

  /** Reading a name records the first copies among its labels. */
  lemma {:induction false} WalkRecords(b: seq<Byte>, start: nat, pos: nat, st0: LabelStore, st: LabelStore,
      seen: seq<nat>)
    requires Records(b, st, seen) && Sound(b, st0) && start <= pos && Walk(b, start, pos, st0.names).Some?
    requires forall at | at in st0.names :: at in st.names && st.names[at] == st0.names[at]
    ensures Records(b, NoteTails(st, Walk(b, start, pos, st0.names).value.pieces), seen + Literals(b, pos))
    decreases |b| - pos
  {
    hide Records, Note, NaiveFrom, Sound, Text, Means;
    var w := Walk(b, start, pos, st0.names).value;
    WalkIsNaive(b, start, pos, st0);
    if IsLiteral(b[pos]) {
      var rest := Walk(b, start, pos + 1 + b[pos], st0.names).value;
      assert w.pieces[0..] == w.pieces && w.pieces[1..] == rest.pieces;
      NoteRecords(b, st, seen, w.pieces);
      NoteKeeps(b, st, seen, w.pieces);
      WalkRecords(b, start, pos + 1 + b[pos], st0, Note(st, w.pieces), seen + [pos]);
      assert seen + [pos] + Literals(b, pos + 1 + b[pos]) == seen + Literals(b, pos);
    } else {
      assert seen + [] == seen;
      if b[pos] != 0 { NotePointer(b, st, seen, w.pieces[0]); }
    }
  }

  lemma NoteKeeps(b: seq<Byte>, st: LabelStore, seen: seq<nat>, pieces: seq<Piece>)
    requires Records(b, st, seen) && pieces != [] && Means(b, pieces[0].at, Text(pieces))
    ensures forall at | at in st.names :: at in Note(st, pieces).names && Note(st, pieces).names[at] == st.names[at]
  {
    hide FirstCopy, Naive;
    if pieces[0].at in st.names { StoredText(b, st, seen, pieces[0].at); }
  }

  // ----- a packet ---------------------------------------------------------------------

  /** A name that ends in a pointer points at the first copy of what it repeats. */
  ghost predicate Known(b: seq<Byte>, pos: nat, seen: seq<nat>) {
    LastPointer(b, pos).None? || FirstCopy(b, seen, LastPointer(b, pos).value)
  }

  /** So do all these names, read one after the other. */
  ghost predicate AllKnown(b: seq<Byte>, names: seq<nat>, seen: seq<nat>)
    decreases |names|
  {
    names == [] || (Known(b, names[0], seen) && AllKnown(b, names[1..], seen + Literals(b, names[0])))
  }

  /** The places those names add. */
  function Places(b: seq<Byte>, names: seq<nat>): seq<nat>
    decreases |names|
  {
    if names == [] then [] else Literals(b, names[0]) + Places(b, names[1..])
  }

  lemma {:induction false} AllKnownSplits(b: seq<Byte>, xs: seq<nat>, ys: seq<nat>, seen: seq<nat>)
    ensures AllKnown(b, xs + ys, seen) <==> AllKnown(b, xs, seen) && AllKnown(b, ys, seen + Places(b, xs))
    decreases |xs|
  {
    hide Known, Literals;
    if xs == [] {
      assert xs + ys == ys && seen + [] == seen;
    } else {
      AllKnownSplits(b, xs[1..], ys, seen + Literals(b, xs[0]));
      assert (xs + ys)[1..] == xs[1..] + ys;
      assert seen + Literals(b, xs[0]) + Places(b, xs[1..]) == seen + Places(b, xs);
    }
  }

  lemma {:induction false} PlacesSplit(b: seq<Byte>, xs: seq<nat>, ys: seq<nat>)
    ensures Places(b, xs + ys) == Places(b, xs) + Places(b, ys)
    decreases |xs|
  {
    hide Literals;
    if xs == [] {
      assert xs + ys == ys;
    } else {
      PlacesSplit(b, xs[1..], ys);
      assert (xs + ys)[1..] == xs[1..] + ys;
    }
  }

  /** Where the names of a section start. */
  function QueryNames(b: seq<Byte>, count: nat, pos: nat): seq<nat>
    requires NaiveQueries(b, count, pos).Some?
  {
    if count == 0 then [] else [pos] + QueryNames(b, count - 1, NaiveQuery(b, pos).value.end)
  }

  function RecordNames(b: seq<Byte>, pos: nat): seq<nat>
    requires NaiveResource(b, pos).Some?
  {
    [pos] + if IsNameType(U16At(b, NameEnd(b, pos))) then [NameEnd(b, pos) + 10] else []
  }

  function ResourceNames(b: seq<Byte>, count: nat, pos: nat): seq<nat>
    requires NaiveResources(b, count, pos).Some?
  {
    if count == 0 then []
    else RecordNames(b, pos) + ResourceNames(b, count - 1, NaiveResource(b, pos).value.end)
  }

  /** Every name of a packet, in the order they are read. */
  function MessageNames(b: seq<Byte>): seq<nat>
    requires NaiveMessage(b).Some?
  {
    var q := NaiveQueries(b, U16At(b, 4), 12).value;
    QueryNames(b, U16At(b, 4), 12) + SectionNames(b, q.end)
  }

  lemma NameIff(b: seq<Byte>, pos: nat, st: LabelStore, seen: seq<nat>)
    requires Records(b, st, seen)
    ensures ReadName(b, pos, st).Some? <==> Naive(b, pos).Some? && Known(b, pos, seen)
    ensures ReadName(b, pos, st).Some? ==>
      var r := ReadName(b, pos, st).value;
      r.end == NameEnd(b, pos) && Records(b, r.store, seen + Literals(b, pos))
  {
    hide FirstCopy, Naive, NaiveFrom, Means;
    ReadableIff(b, pos, st);
    if LastPointer(b, pos).Some? {
      assert LastPointer(b, pos).value in st.names <==> FirstCopy(b, seen, LastPointer(b, pos).value);
    }
    if ReadName(b, pos, st).Some? {
      ReadNameSound(b, pos, st);
      WalkRecords(b, pos, pos, st, st, seen);
    }
  }

  lemma QueryIff(b: seq<Byte>, pos: nat, st: LabelStore, seen: seq<nat>)
    requires Records(b, st, seen)
    ensures ReadQuery(b, pos, st).Some? <==> NaiveQuery(b, pos).Some? && Known(b, pos, seen)
    ensures ReadQuery(b, pos, st).Some? ==>
      var r := ReadQuery(b, pos, st).value;
      r.end == NaiveQuery(b, pos).value.end && Records(b, r.store, seen + Literals(b, pos))
  {
    hide Records, Known, Naive, ReadName, Literals;
    NameIff(b, pos, st, seen);
  }

  lemma ResourceIff(b: seq<Byte>, pos: nat, st: LabelStore, seen: seq<nat>)
    requires Records(b, st, seen)
    ensures ReadResource(b, pos, st).Some? <==>
      NaiveResource(b, pos).Some? && AllKnown(b, RecordNames(b, pos), seen)
    ensures ReadResource(b, pos, st).Some? ==>
      var r := ReadResource(b, pos, st).value;
      r.end == NaiveResource(b, pos).value.end && Records(b, r.store, seen + Places(b, RecordNames(b, pos)))
  {
    hide Records, Known, Naive, ReadName, Literals, RawAt;
    NameIff(b, pos, st, seen);
    OneName(b, pos, seen);
    var at := NameEnd(b, pos);
    if ReadName(b, pos, st).Some? && at + 10 <= |b| && IsNameType(U16At(b, at)) {
      var n := ReadName(b, pos, st).value;
      NameIff(b, at + 10, n.store, seen + Literals(b, pos));
      TwoNames(b, pos, at + 10, seen);
    }
    if Naive(b, pos).Some? && at + 10 <= |b| && IsNameType(U16At(b, at)) { TwoNames(b, pos, at + 10, seen); }
  }

  lemma OneName(b: seq<Byte>, pos: nat, seen: seq<nat>)
    ensures AllKnown(b, [pos], seen) <==> Known(b, pos, seen)
    ensures Places(b, [pos]) == Literals(b, pos)
  {
    hide Known, Literals;
    assert [pos][1..] == [];
    assert AllKnown(b, [], seen + Literals(b, pos));
  }

  lemma TwoNames(b: seq<Byte>, pos: nat, next: nat, seen: seq<nat>)
    ensures AllKnown(b, [pos] + [next], seen) <==>
      Known(b, pos, seen) && Known(b, next, seen + Literals(b, pos))
    ensures seen + Places(b, [pos] + [next]) == seen + Literals(b, pos) + Literals(b, next)
  {
    hide Known, Literals;
    OneName(b, pos, seen);
    OneName(b, next, seen + Literals(b, pos));
    AllKnownSplits(b, [pos], [next], seen);
    PlacesSplit(b, [pos], [next]);
  }

  lemma {:induction false} QueriesIff(b: seq<Byte>, count: nat, pos: nat, st: LabelStore, seen: seq<nat>)
    requires Records(b, st, seen)
    ensures ReadQueries(b, count, pos, st).Some? <==>
      NaiveQueries(b, count, pos).Some? && AllKnown(b, QueryNames(b, count, pos), seen)
    ensures ReadQueries(b, count, pos, st).Some? ==>
      var r := ReadQueries(b, count, pos, st).value;
      && r.end == NaiveQueries(b, count, pos).value.end
      && Records(b, r.store, seen + Places(b, QueryNames(b, count, pos)))
    decreases count
  {
    hide Records, Known, ReadQuery, NaiveQuery, Literals;
    if count == 0 {
      assert seen + [] == seen;
    } else {
      QueryIff(b, pos, st, seen);
      if ReadQuery(b, pos, st).Some? {
        var q := ReadQuery(b, pos, st).value;
        QueriesIff(b, count - 1, q.end, q.store, seen + Literals(b, pos));
      }
      if NaiveQueries(b, count, pos).Some? {
        var more := QueryNames(b, count - 1, NaiveQuery(b, pos).value.end);
        assert QueryNames(b, count, pos)[1..] == more;
        assert seen + Literals(b, pos) + Places(b, more) == seen + Places(b, QueryNames(b, count, pos));
      }
    }
  }

  lemma {:induction false} ResourcesIff(b: seq<Byte>, count: nat, pos: nat, st: LabelStore, seen: seq<nat>)
    requires Records(b, st, seen)
    ensures ReadResources(b, count, pos, st).Some? <==>
      NaiveResources(b, count, pos).Some? && AllKnown(b, ResourceNames(b, count, pos), seen)
    ensures ReadResources(b, count, pos, st).Some? ==>
      var r := ReadResources(b, count, pos, st).value;
      && r.end == NaiveResources(b, count, pos).value.end
      && Records(b, r.store, seen + Places(b, ResourceNames(b, count, pos)))
    decreases count
  {
    hide Records, AllKnown, Places, ReadResource, NaiveResource, RecordNames;
    if count == 0 {
      NoNames(b, seen);
    } else {
      ResourceIff(b, pos, st, seen);
      if NaiveResources(b, count, pos).Some? {
        var first, more := RecordNames(b, pos), ResourceNames(b, count - 1, NaiveResource(b, pos).value.end);
        AllKnownSplits(b, first, more, seen);
        PlacesSplit(b, first, more);
        assert seen + Places(b, first) + Places(b, more) == seen + Places(b, first + more);
      }
      if ReadResource(b, pos, st).Some? {
        var r := ReadResource(b, pos, st).value;
        ResourcesIff(b, count - 1, r.end, r.store, seen + Places(b, RecordNames(b, pos)));
      }
    }
  }

  lemma NoNames(b: seq<Byte>, seen: seq<nat>)
    ensures AllKnown(b, [], seen) && seen + Places(b, []) == seen
  {
  }

  /** The exact condition under which a packet is refused, for all bytes and with
      no store in it: naive parsing fails, or some name ends in a pointer to
      anything but the first copy, among the names before it, of what it repeats. */
  lemma MessageReadableIff(b: seq<Byte>)
    ensures ReadMessage(b).Some? <==> NaiveMessage(b).Some? && AllKnown(b, MessageNames(b), [])
  {
    hide AllKnown, Places, QueryNames, ResourceNames, ReadQueries, ReadResources, NaiveQueries, NaiveResources, U16At;
    if |b| >= 12 {
      NothingRecorded(b);
      QueriesIff(b, U16At(b, 4), 12, EMPTY_STORE, []);
      if ReadQueries(b, U16At(b, 4), 12, EMPTY_STORE).Some? {
        var q := ReadQueries(b, U16At(b, 4), 12, EMPTY_STORE).value;
        SectionsIff(b, q, [] + Places(b, QueryNames(b, U16At(b, 4), 12)));
      }
      if NaiveMessage(b).Some? {
        var q := NaiveQueries(b, U16At(b, 4), 12).value;
        var names := QueryNames(b, U16At(b, 4), 12);
        assert MessageNames(b) == names + SectionNames(b, q.end);
        AllKnownSplits(b, names, SectionNames(b, q.end), []);
      }
    }
  }

  /** The three record sections, from `pos` on. */
  predicate NaiveSections(b: seq<Byte>, pos: nat)
    requires |b| >= 12
  {
    && NaiveResources(b, U16At(b, 6), pos).Some?
    && var an := NaiveResources(b, U16At(b, 6), pos).value;
    && NaiveResources(b, U16At(b, 8), an.end).Some?
    && NaiveResources(b, U16At(b, 10), NaiveResources(b, U16At(b, 8), an.end).value.end).Some?
  }

  function SectionNames(b: seq<Byte>, pos: nat): seq<nat>
    requires |b| >= 12 && NaiveSections(b, pos)
  {
    var an := NaiveResources(b, U16At(b, 6), pos).value;
    var au := NaiveResources(b, U16At(b, 8), an.end).value;
    ResourceNames(b, U16At(b, 6), pos) +
      (ResourceNames(b, U16At(b, 8), an.end) + ResourceNames(b, U16At(b, 10), au.end))
  }

  lemma NothingRecorded(b: seq<Byte>)
    ensures Records(b, EMPTY_STORE, [])
  {
  }

  lemma SectionsIff(b: seq<Byte>, q: Read<seq<Query>>, seen: seq<nat>)
    requires |b| >= 12 && Records(b, q.store, seen) && ReadQueries(b, U16At(b, 4), 12, EMPTY_STORE) == Some(q)
    ensures ReadMessage(b).Some? <==> NaiveSections(b, q.end) && AllKnown(b, SectionNames(b, q.end), seen)
  {
    hide AllKnown, Places, ResourceNames, ReadQueries, ReadResources, NaiveResources, U16At, Records;
    ResourcesIff(b, U16At(b, 6), q.end, q.store, seen);
    if ReadResources(b, U16At(b, 6), q.end, q.store).Some? {
      var an := ReadResources(b, U16At(b, 6), q.end, q.store).value;
      var seen1 := seen + Places(b, ResourceNames(b, U16At(b, 6), q.end));
      ResourcesIff(b, U16At(b, 8), an.end, an.store, seen1);
      if ReadResources(b, U16At(b, 8), an.end, an.store).Some? {
        var au := ReadResources(b, U16At(b, 8), an.end, an.store).value;
        ResourcesIff(b, U16At(b, 10), au.end, au.store, seen1 + Places(b, ResourceNames(b, U16At(b, 8), an.end)));
      }
    }
    if NaiveSections(b, q.end) {
      var an := NaiveResources(b, U16At(b, 6), q.end).value;
      var au := NaiveResources(b, U16At(b, 8), an.end).value;
      var x, y, z := ResourceNames(b, U16At(b, 6), q.end), ResourceNames(b, U16At(b, 8), an.end),
        ResourceNames(b, U16At(b, 10), au.end);
      AllKnownSplits(b, x, y + z, seen);
      AllKnownSplits(b, y, z, seen + Places(b, x));
    }
  }

  // ----- a packet that is refused -------------------------------------------------------

  /** One question and two answers, all about "a": the first answer repeats the
      name in full, and the second points at that copy. */
  const PACKET: seq<Byte> :=
    [0, 1, 128, 0, 0, 1, 0, 2, 0, 0, 0, 0]
    + [1, 97, 0, 0, 1, 0, 1]
    + [1, 97, 0, 0, 1, 0, 1, 0, 0, 0, 0, 0, 4, 10, 0, 0, 1]
    + [192, 19, 0, 1, 0, 1, 0, 0, 0, 0, 0, 4, 10, 0, 0, 2]

  /** The one-label name "a", wherever it stands. */
  lemma OneLabel(b: seq<Byte>, pos: nat)
    requires pos + 3 <= |b| && b[pos] == 1 && b[pos + 1] == 97 && b[pos + 2] == 0
    ensures Naive(b, pos) == Some([[97]]) && TextAt(b, pos) == [97]
    ensures NameEnd(b, pos) == pos + 3 && Literals(b, pos) == [pos] && LastPointer(b, pos) == None
  {
    var end := pos + 2;
    assert Slice(b, pos + 1, end) == [97];
    assert NaiveFrom(b, pos, end) == Some([]) && Literals(b, end) == [] && LastPointer(b, end) == None;
    assert NameEnd(b, end) == pos + 3;
    assert [[97 as Byte]] + [] == [[97 as Byte]];
    assert NaiveFrom(b, pos, pos) == Some([[97]]);
    assert [pos] + [] == [pos];
  }

  lemma PointerTo(b: seq<Byte>, pos: nat, target: nat)
    requires pos + 2 <= |b| && !IsLiteral(b[pos]) && b[pos] != 0 && PointerAt(b, pos) == target < pos
    ensures Naive(b, pos) == Naive(b, target)
    ensures NameEnd(b, pos) == pos + 2 && Literals(b, pos) == [] && LastPointer(b, pos) == Some(target)
  {
  }

  /** An address record after a name that ends at `end`. */
  lemma AddressRecord(b: seq<Byte>, pos: nat, end: nat)
    requires Naive(b, pos).Some? && NameEnd(b, pos) == end && end + 14 <= |b| && U16At(b, end) == A
    ensures NaiveResource(b, pos).Some? && NaiveResource(b, pos).value.end == end + 14
    ensures RecordNames(b, pos) == [pos]
  {
    hide Naive;
  }

  lemma OneQuestion(b: seq<Byte>, pos: nat)
    requires NaiveQuery(b, pos).Some?
    ensures NaiveQueries(b, 1, pos).Some? && NaiveQueries(b, 1, pos).value.end == NaiveQuery(b, pos).value.end
    ensures QueryNames(b, 1, pos) == [pos]
  {
    hide NaiveQuery;
    var end := NaiveQuery(b, pos).value.end;
    assert NaiveQueries(b, 0, end) == Some(Plain([], end)) && QueryNames(b, 0, end) == [];
    assert [pos] + [] == [pos];
  }

  lemma TwoRecords(b: seq<Byte>, pos: nat, mid: nat)
    requires NaiveResource(b, pos).Some? && NaiveResource(b, pos).value.end == mid && NaiveResource(b, mid).Some?
    ensures NaiveResources(b, 2, pos).Some? && NaiveResources(b, 2, pos).value.end == NaiveResource(b, mid).value.end
    ensures ResourceNames(b, 2, pos) == RecordNames(b, pos) + RecordNames(b, mid)
  {
    hide NaiveResource, RecordNames;
    var end := NaiveResource(b, mid).value.end;
    assert NaiveResources(b, 0, end) == Some(Plain([], end)) && ResourceNames(b, 0, end) == [];
    assert RecordNames(b, mid) + [] == RecordNames(b, mid);
    assert NaiveResources(b, 1, mid).value.end == end && ResourceNames(b, 1, mid) == RecordNames(b, mid);
  }

  lemma QuestionParses()
    ensures NaiveQueries(PACKET, 1, 12).Some? && NaiveQueries(PACKET, 1, 12).value.end == 19
    ensures QueryNames(PACKET, 1, 12) == [12]
  {
    hide Naive, NameEnd, NaiveQueries, QueryNames;
    OneLabel(PACKET, 12);
    OneQuestion(PACKET, 12);
  }

  lemma AnswersParse()
    ensures NaiveResources(PACKET, 2, 19).Some? && ResourceNames(PACKET, 2, 19) == [19] + [36]
  {
    hide Naive, NameEnd, NaiveResource, RecordNames, NaiveResources, ResourceNames;
    OneLabel(PACKET, 19);
    PointerTo(PACKET, 36, 19);
    AddressRecord(PACKET, 19, 22);
    AddressRecord(PACKET, 36, 38);
    TwoRecords(PACKET, 19, 36);
  }

  lemma PacketParses()
    ensures NaiveMessage(PACKET).Some? && MessageNames(PACKET) == [12, 19, 36]
  {
    hide NaiveQuery, NaiveResource, RecordNames;
    QuestionParses();
    AnswersParse();
    assert U16At(PACKET, 4) == 1 && U16At(PACKET, 6) == 2 && U16At(PACKET, 8) == 0 && U16At(PACKET, 10) == 0;
    assert [12] + ([19] + [36] + ([] + [])) == [12, 19, 36];
  }

  /** So a legal packet is refused: only the first copy of a name is recorded, and
      a pointer to a second copy is not followed. */
  lemma SecondCopyIsRefused()
    ensures NaiveMessage(PACKET).Some? && ReadMessage(PACKET).None?
  {
    hide *;
    PacketParses();
    MessageReadableIff(PACKET);
    SecondIsNotFirst();
  }

  lemma SecondIsNotFirst()
    ensures !AllKnown(PACKET, [12, 19, 36], [])
  {
    hide AllKnown, Known, Literals, TextAt, LastPointer, Places;
    OneLabel(PACKET, 12);
    OneLabel(PACKET, 19);
    PointerTo(PACKET, 36, 19);
    NotFirst(PACKET);
    TwoNames(PACKET, 12, 19, []);
    OneName(PACKET, 36, [12, 19]);
    AllKnownSplits(PACKET, [12] + [19], [36], []);
    assert [12] + [19] + [36] == [12, 19, 36];
    assert [] + Literals(PACKET, 12) + Literals(PACKET, 19) == [12, 19];
  }

  lemma NotFirst(b: seq<Byte>)
    requires TextAt(b, 12) == TextAt(b, 19) && LastPointer(b, 36) == Some(19)
    ensures !Known(b, 36, [12, 19])
  {
    hide TextAt;
    var seen: seq<nat> := [12, 19];
    forall i | 0 <= i < |seen| && seen[i] == 19 ensures !NotBefore(b, seen, i) {
      assert TextAt(b, seen[0]) == TextAt(b, seen[i]);
    }
  }
}
