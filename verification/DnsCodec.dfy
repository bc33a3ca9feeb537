/** The DNS packet reader and writer as they run: loops over the buffer that
    fill their tables in place. */
module DnsCodec {
  import opened Routes
  import opened Bytes
  import opened DnsNames
  import opened DnsReader
  import opened DnsWriter
  import opened DnsPacket

  /** One packet being parsed, with its label store. */
  class PacketReader {
    const b: seq<Byte>
    var offsets: map<Name, nat>
    var names: map<nat, Name>

    constructor (b: seq<Byte>)
      ensures this.b == b && Store() == EMPTY_STORE
    {
      this.b, offsets, names := b, map[], map[];
    }

    function Store(): LabelStore
      reads this
    {
      LabelStore(offsets, names)
    }

    /** Read one name; a name that cannot be read leaves the store alone. */
    method Name(start: nat) returns (ok: bool, end: nat, name: Name)
      modifies this
      ensures ok <==> ReadName(b, start, old(Store())).Some?
      ensures ok ==> ReadName(b, start, old(Store())) == Some(Read(name, end, Store()))
      ensures !ok ==> Store() == old(Store())
    {
      var pieces: seq<Piece> := [];
      var readOn := true;
      ok, end, name := true, start, [];
      ResumeStart(b, start, names);
      while readOn && ok
        invariant Store() == old(Store())
        invariant !ok ==> Walk(b, start, start, names).None?
        invariant ok && readOn ==> Resumes(b, start, end, names, pieces)
        invariant ok && !readOn ==> Walk(b, start, start, names) == Some(Walked(pieces, end))
        decreases readOn, ok, |b| - end
      {
        if end >= |b| {
          ok := false;
        } else if IsLiteral(b[end]) {
          var next := end + 1 + b[end];
          ResumeLiteral(b, start, end, names, pieces);
          pieces := pieces + [Piece(end, Slice(b, end + 1, next))];
          end := next;
        } else if b[end] == 0 {
          readOn, end := false, end + 1;
          assert pieces + [] == pieces;
        } else if end + 1 >= |b| || PointerAt(b, end) >= start || PointerAt(b, end) !in names {
          ok := false;
        } else {
          var location := PointerAt(b, end);
          pieces := pieces + [Piece(location, names[location])];
          readOn, end := false, end + 2;
        }
      }
      if !ok {
        return false, start, [];
      }
      name := Text(pieces);
      Remember(pieces);
    }

    /** Every tail of the name, unless it was seen before. */
    method Remember(pieces: seq<Piece>)
      modifies this
      ensures Store() == NoteTails(old(Store()), pieces)
    {
      var index := 0;
      assert pieces[0..] == pieces;
      while index < |pieces|
        invariant 0 <= index <= |pieces|
        invariant NoteTails(Store(), pieces[index..]) == NoteTails(old(Store()), pieces)
      {
        var tail := pieces[index..];
        var text := Text(tail);
        assert tail[1..] == pieces[index + 1..];
        if text !in offsets {
          offsets := offsets[text := tail[0].at];
          names := names[tail[0].at := text];
        }
        index := index + 1;
      }
    }

    /** One resource record. */
    method Resource(pos: nat) returns (r: Option<Plain<Resource>>)
      modifies this
      ensures r.Some? <==> ReadResource(b, pos, old(Store())).Some?
      ensures r.Some? ==> ReadResource(b, pos, old(Store())) == Some(Read(r.value.value, r.value.end, Store()))
    {
      hide ReadName, RawAt;
      var ok, at, owner := Name(pos);
      if !ok || at + 10 > |b| {
        return None;
      }
      var rtype, rclass := U16At(b, at), U16At(b, at + 2);
      var ttl, rlen := U32At(b, at + 4), U16At(b, at + 8);
      if IsNameType(rtype) {
        var fine, end, target := Name(at + 10);
        r := if fine then Some(Plain(DnsReader.Resource(owner, rtype, rclass, ttl, rlen, NameData(target)), end))
            else None;
      } else {
        var data := RawAt(b, at + 10, rtype, rlen);
        r := if data.Some?
             then Some(Plain(DnsReader.Resource(owner, rtype, rclass, ttl, rlen, Raw(data.value.bytes)),
               data.value.end))
             else None;
      }
    }

    method Resources(count: nat, pos: nat) returns (r: Option<Plain<seq<DnsReader.Resource>>>)
      modifies this
      ensures r.Some? <==> ReadResources(b, count, pos, old(Store())).Some?
      ensures r.Some? ==> ReadResources(b, count, pos, old(Store())) == Some(Read(r.value.value, r.value.end, Store()))
    {
      hide ReadResource;
      var items: seq<DnsReader.Resource>, at: nat := [], pos;
      ghost var whole := ReadResources(b, count, pos, Store());
      if whole.Some? { assert [] + whole.value.value == whole.value.value; }
      for i := 0 to count
        invariant match ReadResources(b, count - i, at, Store())
                  case None => whole.None?
                  case Some(rest) => whole == Some(rest.(value := items + rest.value))
      {
        var one := Resource(at);
        if one == None {
          return None;
        }
        ghost var was := items;
        items, at := items + [one.value.value], one.value.end;
        assert forall rest: seq<DnsReader.Resource> :: was + ([one.value.value] + rest) == items + rest;
      }
      r := Some(Plain(items, at));
      assert items + [] == items;
    }

    method Queries(count: nat, pos: nat) returns (r: Option<Plain<seq<Query>>>)
      modifies this
      ensures r.Some? <==> ReadQueries(b, count, pos, old(Store())).Some?
      ensures r.Some? ==> ReadQueries(b, count, pos, old(Store())) == Some(Read(r.value.value, r.value.end, Store()))
    {
      hide ReadName;
      var items: seq<Query>, at: nat := [], pos;
      ghost var whole := ReadQueries(b, count, pos, Store());
      if whole.Some? { assert [] + whole.value.value == whole.value.value; }
      for i := 0 to count
        invariant match ReadQueries(b, count - i, at, Store())
                  case None => whole.None?
                  case Some(rest) => whole == Some(rest.(value := items + rest.value))
      {
        var ok, end, name := Name(at);
        if !ok || end + 4 > |b| {
          return None;
        }
        var q := Query(name, U16At(b, end), U16At(b, end + 2));
        ghost var was := items;
        items, at := items + [q], end + 4;
        assert forall rest: seq<Query> :: was + ([q] + rest) == items + rest;
      }
      r := Some(Plain(items, at));
      assert items + [] == items;
    }

    /** `DNS.__init__` from a buffer.  On any bytes it ends; a message it gives is
        the one naive parsing finds, and the store it leaves is sound. */
    method Message() returns (r: Option<Plain<Message>>)
      requires Store() == EMPTY_STORE
      modifies this
      ensures r.Some? <==> ReadMessage(b).Some?
      ensures r.Some? ==> ReadMessage(b) == Some(Read(r.value.value, r.value.end, Store())) && Sound(b, Store())
    {
      hide ReadQueries, ReadResources;
      if |b| < 12 {
        return None;
      }
      var q := Queries(U16At(b, 4), 12);
      if q == None { return None; }
      var an := Resources(U16At(b, 6), q.value.end);
      if an == None { return None; }
      var au := Resources(U16At(b, 8), an.value.end);
      if au == None { return None; }
      var ad := Resources(U16At(b, 10), au.value.end);
      if ad == None { return None; }
      var message := DnsReader.Message(U16At(b, 0), U16At(b, 2), q.value.value, an.value.value, au.value.value,
        ad.value.value);
      r := Some(Plain(message, ad.value.end));
      MessageIsNaive(b);
    }
  }

  /** One message being written, with its suffix table. */
  class PacketWriter {
    const compress: bool
    var labels: map<Name, nat>

    constructor (compress: bool)
      ensures this.compress == compress && labels == map[]
    {
      this.compress, labels := compress, map[];
    }

    /** `write_name`, with `at` bytes already written. */
    method Name(name: Name, at: nat) returns (out: seq<Byte>)
      requires ValidName(name) && InReach(labels)
      modifies this
      ensures InReach(labels) && Written(out, labels) == WriteName(name, at, old(labels), compress)
    {
      if name == [] {
        return [0];
      }
      if !compress {
        out := Plainly(name, at);
        return;
      }
      hide PartsLeft, WriteParts, Join, AreLabels;
      var parts := Parts(name);
      var i := 0;
      out := [];
      ghost var whole := WriteParts(parts, at, labels, true);
      PartsStart(parts, at, labels, true);
      while i < |parts|
        invariant 0 <= i <= |parts| && InReach(labels)
        invariant PartsLeft(whole, out, parts, i, at, labels, true)
      {
        var suffix := Join(parts[i..]);
        PartsStep(whole, out, parts, i, at, labels, true);
        if suffix in labels {
          out := out + Pointer(labels[suffix]);
          return;
        }
        if at + |out| < REACH {
          labels := labels[suffix := at + |out|];
        }
        out := out + ([|parts[i]|] + parts[i]);
        i := i + 1;
      }
      PartsEnd(whole, out, parts, at, labels, true);
      out := out + [0];
    }

    /** Without compression: every nonempty part, then the root. */
    method Plainly(name: Name, at: nat) returns (out: seq<Byte>)
      requires ValidName(name) && InReach(labels)
      ensures Written(out, labels) == WriteName(name, at, labels, false)
    {
      hide PartsLeft, WriteParts, Join;
      var split, parts := Split(name), Parts(name);
      var i := 0;
      out := [];
      ghost var whole := WriteParts(parts, at, labels, false);
      PartsStart(parts, at, labels, false);
      PlainRemembers(parts, at, labels);
      while i < |split|
        invariant 0 <= i <= |split|
        invariant PartsLeft(whole, out, parts, Min(i, |parts|), at, labels, false)
      {
        if split[i] != [] {
          assert i < |parts| && parts[i] == split[i];
          PartsStep(whole, out, parts, i, at, labels, false);
          out := out + ([|parts[i]|] + parts[i]);
        } else {
          EmptyIsLast(name, i);
        }
        i := i + 1;
      }
      PartsEnd(whole, out, parts, at, labels, false);
      out := out + [0];
    }

    method Query(q: Query, at: nat) returns (out: seq<Byte>)
      requires WritableQuery(q) && InReach(labels)
      modifies this
      ensures InReach(labels) && Written(out, labels) == WriteQuery(q, at, old(labels), compress)
    {
      hide WriteName;
      var name := Name(q.name, at);
      out := name + (Put16(q.qtype) + Put16(q.qclass));
    }

    /** `write_resource` with `update`. */
    method Resource(r: DnsReader.Resource, at: nat) returns (out: seq<Byte>)
      requires WritableResource(r) && InReach(labels)
      modifies this
      ensures InReach(labels) && Written(out, labels) == WriteResource(r, at, old(labels), compress)
    {
      hide WriteName, FixedFields;
      var name := Name(r.name, at);
      DataFits(r, at + |name| + 10, labels, compress);
      var data;
      match r.data {
        case NameData(target) => data := Name(target, at + |name| + 10);
        case Raw(bytes) => data := bytes;
      }
      out := name + (FixedFields(r, |data|) + data);
    }

    method Queries(qs: seq<DnsReader.Query>, at: nat) returns (out: seq<Byte>)
      requires (forall i :: 0 <= i < |qs| ==> WritableQuery(qs[i])) && InReach(labels)
      modifies this
      ensures InReach(labels) && Written(out, labels) == WriteQueries(qs, at, old(labels), compress)
    {
      hide WriteQuery, WritableQuery, InReach, QueriesLeft;
      out := [];
      ghost var whole := WriteQueries(qs, at, labels, compress);
      QueriesStart(qs, at, labels, compress);
      for i := 0 to |qs|
        invariant InReach(labels) && QueriesLeft(whole, out, qs[i..], at, labels, compress)
      {
        assert qs[i..][1..] == qs[i + 1..];
        QueriesStep(whole, out, qs[i..], at, labels, compress);
        var one := Query(qs[i], at + |out|);
        out := out + one;
      }
      QueriesEnd(whole, out, at, labels, compress);
    }

    method Resources(rs: seq<DnsReader.Resource>, at: nat) returns (out: seq<Byte>)
      requires (forall i :: 0 <= i < |rs| ==> WritableResource(rs[i])) && InReach(labels)
      modifies this
      ensures InReach(labels) && Written(out, labels) == WriteResources(rs, at, old(labels), compress)
    {
      hide WriteResource, WritableResource, InReach, ResourcesLeft;
      out := [];
      ghost var whole := WriteResources(rs, at, labels, compress);
      ResourcesStart(rs, at, labels, compress);
      for i := 0 to |rs|
        invariant InReach(labels) && ResourcesLeft(whole, out, rs[i..], at, labels, compress)
      {
        assert rs[i..][1..] == rs[i + 1..];
        ResourcesStep(whole, out, rs[i..], at, labels, compress);
        var one := Resource(rs[i], at + |out|);
        out := out + one;
      }
      ResourcesEnd(whole, out, at, labels, compress);
    }

    /** `pkt2net(update=1)`: what is written parses back to the same records. */
    method Message(m: Message) returns (res: seq<Byte>)
      requires Writable(m) && labels == map[]
      modifies this
      ensures res == WriteMessage(m, compress)
      ensures ReadMessage(res).Some? && SameMessage(m, ReadMessage(res).value.value)
    {
      hide WriteQueries, WriteResources, ReadMessage, SameMessage, HeaderOf;
      var header := HeaderOf(m);
      var q := Queries(m.queries, 12);
      var an := Resources(m.answers, 12 + |q|);
      var au := Resources(m.authority, 12 + |q| + |an|);
      var ad := Resources(m.ad, 12 + |q| + |an| + |au|);
      res := header + (q + (an + (au + ad)));
      MessageRoundTrip(m, compress);
    }
  }

  // ----- the loops, part-way ---------------------------------------------------------------

  /** `out` is the name written as far as part `i`. */
  ghost predicate PartsLeft(whole: Written, out: seq<Byte>, parts: seq<Label>, i: nat, at: nat,
      labels: map<Name, nat>, compress: bool)
    requires i <= |parts| && AreLabels(parts) && InReach(labels)
  {
    var rest := WriteParts(parts[i..], at + |out|, labels, compress);
    whole == Written(out + rest.bytes, rest.labels)
  }

  lemma PartsStart(parts: seq<Label>, at: nat, labels: map<Name, nat>, compress: bool)
    requires AreLabels(parts) && InReach(labels)
    ensures PartsLeft(WriteParts(parts, at, labels, compress), [], parts, 0, at, labels, compress)
  {
    assert parts[0..] == parts;
    var w := WriteParts(parts, at, labels, compress);
    assert [] + w.bytes == w.bytes;
  }

  lemma PartsStep(whole: Written, out: seq<Byte>, parts: seq<Label>, i: nat, at: nat, labels: map<Name, nat>,
        compress: bool)
    requires i < |parts| && AreLabels(parts) && InReach(labels) && PartsLeft(whole, out, parts, i, at, labels, compress)
    ensures if compress && Join(parts[i..]) in labels
            then whole == Written(out + Pointer(labels[Join(parts[i..])]), labels)
            else
              var labels' := Remember(parts[i..], at + |out|, labels, compress);
              InReach(labels') && |parts[i]| < 256
              && PartsLeft(whole, out + ([|parts[i]|] + parts[i]), parts, i + 1, at, labels', compress)
  {
    var todo := parts[i..];
    if !(compress && Join(todo) in labels) {
      LabelWritten(todo, at + |out|, labels, compress);
      assert todo[1..] == parts[i + 1..] && IsLabel(parts[i]);
      var rest := WriteParts(parts[i + 1..], at + |out| + 1 + |parts[i]|,
          Remember(todo, at + |out|, labels, compress), compress);
      assert out + (([|parts[i]|] + parts[i]) + rest.bytes) == (out + ([|parts[i]|] + parts[i])) + rest.bytes;
    }
  }

  lemma PartsEnd(whole: Written, out: seq<Byte>, parts: seq<Label>, at: nat, labels: map<Name, nat>, compress: bool)
    requires AreLabels(parts) && InReach(labels) && PartsLeft(whole, out, parts, |parts|, at, labels, compress)
    ensures whole == Written(out + [0], labels)
  {
  }

  ghost predicate QueriesLeft(whole: Written, out: seq<Byte>, todo: seq<DnsReader.Query>, at: nat,
        labels: map<Name, nat>, compress: bool)
    requires (forall i :: 0 <= i < |todo| ==> WritableQuery(todo[i])) && InReach(labels)
  {
    var rest := WriteQueries(todo, at + |out|, labels, compress);
    whole == Written(out + rest.bytes, rest.labels)
  }

  lemma QueriesStart(todo: seq<DnsReader.Query>, at: nat, labels: map<Name, nat>, compress: bool)
    requires (forall i :: 0 <= i < |todo| ==> WritableQuery(todo[i])) && InReach(labels)
    ensures todo[0..] == todo && QueriesLeft(WriteQueries(todo, at, labels, compress), [], todo, at, labels, compress)
  {
    var w := WriteQueries(todo, at, labels, compress);
    assert [] + w.bytes == w.bytes;
  }

  lemma QueriesStep(whole: Written, out: seq<Byte>, todo: seq<DnsReader.Query>, at: nat, labels: map<Name, nat>,
        compress: bool)
    requires (forall i :: 0 <= i < |todo| ==> WritableQuery(todo[i])) && InReach(labels)
    requires todo != [] && QueriesLeft(whole, out, todo, at, labels, compress)
    ensures var one := WriteQuery(todo[0], at + |out|, labels, compress);
      QueriesLeft(whole, out + one.bytes, todo[1..], at, one.labels, compress)
  {
    hide WriteQuery, WritableQuery;
    var one := WriteQuery(todo[0], at + |out|, labels, compress);
    var rest := WriteQueries(todo[1..], at + |out| + |one.bytes|, one.labels, compress);
    assert out + (one.bytes + rest.bytes) == (out + one.bytes) + rest.bytes;
  }

  lemma QueriesEnd(whole: Written, out: seq<Byte>, at: nat, labels: map<Name, nat>, compress: bool)
    requires InReach(labels) && QueriesLeft(whole, out, [], at, labels, compress)
    ensures whole == Written(out, labels)
  {
    assert out + [] == out;
  }

  ghost predicate ResourcesLeft(whole: Written, out: seq<Byte>, todo: seq<DnsReader.Resource>, at: nat,
        labels: map<Name, nat>, compress: bool)
    requires (forall i :: 0 <= i < |todo| ==> WritableResource(todo[i])) && InReach(labels)
  {
    var rest := WriteResources(todo, at + |out|, labels, compress);
    whole == Written(out + rest.bytes, rest.labels)
  }

  lemma ResourcesStart(todo: seq<DnsReader.Resource>, at: nat, labels: map<Name, nat>, compress: bool)
    requires (forall i :: 0 <= i < |todo| ==> WritableResource(todo[i])) && InReach(labels)
    ensures todo[0..] == todo
        && ResourcesLeft(WriteResources(todo, at, labels, compress), [], todo, at, labels, compress)
  {
    var w := WriteResources(todo, at, labels, compress);
    assert [] + w.bytes == w.bytes;
  }

  lemma ResourcesStep(whole: Written, out: seq<Byte>, todo: seq<DnsReader.Resource>, at: nat, labels: map<Name, nat>,
        compress: bool)
    requires (forall i :: 0 <= i < |todo| ==> WritableResource(todo[i])) && InReach(labels)
    requires todo != [] && ResourcesLeft(whole, out, todo, at, labels, compress)
    ensures var one := WriteResource(todo[0], at + |out|, labels, compress);
      ResourcesLeft(whole, out + one.bytes, todo[1..], at, one.labels, compress)
  {
    hide WriteResource, WritableResource;
    var one := WriteResource(todo[0], at + |out|, labels, compress);
    var rest := WriteResources(todo[1..], at + |out| + |one.bytes|, one.labels, compress);
    assert out + (one.bytes + rest.bytes) == (out + one.bytes) + rest.bytes;
  }

  lemma ResourcesEnd(whole: Written, out: seq<Byte>, at: nat, labels: map<Name, nat>, compress: bool)
    requires InReach(labels) && ResourcesLeft(whole, out, [], at, labels, compress)
    ensures whole == Written(out, labels)
  {
    assert out + [] == out;
  }

  /** In a valid name only the part after a trailing dot is empty. */
  lemma EmptyIsLast(name: Name, i: nat)
    requires ValidName(name) && i < |Split(name)| && Split(name)[i] == []
    ensures i == |Split(name)| - 1 == |Parts(name)|
  {
    assert forall j :: 0 <= j < |Parts(name)| ==> IsLabel(Parts(name)[j]);
  }

  lemma {:induction false} PlainRemembers(parts: seq<Label>, at: nat, labels: map<Name, nat>)
    requires AreLabels(parts) && InReach(labels)
    ensures WriteParts(parts, at, labels, false).labels == labels
    decreases |parts|
  {
    if parts != [] { PlainRemembers(parts[1..], at + 1 + |parts[0]|, labels); }
  }

  /** The rest of the walk goes on from `end`, with `pieces` found so far. */
  ghost predicate Resumes(b: seq<Byte>, start: nat, end: nat, names: map<nat, Name>, pieces: seq<Piece>) {
    match Walk(b, start, end, names)
    case None => Walk(b, start, start, names).None?
    case Some(rest) => Walk(b, start, start, names) == Some(Walked(pieces + rest.pieces, rest.end))
  }

  lemma ResumeStart(b: seq<Byte>, start: nat, names: map<nat, Name>)
    ensures Resumes(b, start, start, names, [])
  {
    if Walk(b, start, start, names).Some? {
      assert [] + Walk(b, start, start, names).value.pieces == Walk(b, start, start, names).value.pieces;
    }
  }

  lemma ResumeLiteral(b: seq<Byte>, start: nat, end: nat, names: map<nat, Name>, pieces: seq<Piece>)
    requires Resumes(b, start, end, names, pieces) && end < |b| && IsLiteral(b[end])
    ensures var next := end + 1 + b[end];
      Resumes(b, start, next, names, pieces + [Piece(end, Slice(b, end + 1, next))])
  {
    var next := end + 1 + b[end];
    var p := Piece(end, Slice(b, end + 1, next));
    if Walk(b, start, next, names).Some? {
      var rest := Walk(b, start, next, names).value.pieces;
      assert pieces + ([p] + rest) == (pieces + [p]) + rest;
    }
  }
}
