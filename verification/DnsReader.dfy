/** Reading names and records out of a DNS packet, with the per-packet store of
    the names already seen. */
module DnsReader {
  import opened Routes
  import opened Bytes
  import opened DnsNames

  /** `label_store`: text to the offset it was first seen at, and offset to text. */
  datatype LabelStore = LabelStore(offsets: map<Name, nat>, names: map<nat, Name>)

  const EMPTY_STORE := LabelStore(map[], map[])

  /** A label, or the stored text a pointer stands for, and where it is. */
  datatype Piece = Piece(at: nat, text: Name)

  datatype Walked = Walked(pieces: seq<Piece>, end: nat)

  datatype Read<T> = Read(value: T, end: nat, store: LabelStore)

  // ----- one name -------------------------------------------------------------------

  /** The pieces of the name that starts at `start`, from `pos` on. */
  function Walk(b: seq<Byte>, start: nat, pos: nat, names: map<nat, Name>): Option<Walked>
    decreases |b| - pos
  {
    if pos >= |b| then None
    else if IsLiteral(b[pos]) then
      match Walk(b, start, pos + 1 + b[pos], names)
      case None => None
      case Some(rest) =>
        Some(Walked([Piece(pos, Slice(b, pos + 1, pos + 1 + b[pos]))] + rest.pieces, rest.end))
    else if b[pos] == 0 then Some(Walked([], pos + 1))
    else if pos + 1 >= |b| || PointerAt(b, pos) >= start || PointerAt(b, pos) !in names then None
    else Some(Walked([Piece(PointerAt(b, pos), names[PointerAt(b, pos)])], pos + 2))
  }

  function Texts(pieces: seq<Piece>): (r: seq<Name>)
    ensures |r| == |pieces| && forall i :: 0 <= i < |pieces| ==> r[i] == pieces[i].text
  {
    seq(|pieces|, i requires 0 <= i < |pieces| => pieces[i].text)
  }

  function Text(pieces: seq<Piece>): Name {
    Join(Texts(pieces))
  }

  /** Remember where the text of `pieces` starts, unless it was seen before. */
  function Note(st: LabelStore, pieces: seq<Piece>): LabelStore
    requires pieces != []
  {
    if Text(pieces) in st.offsets then st
    else LabelStore(st.offsets[Text(pieces) := pieces[0].at], st.names[pieces[0].at := Text(pieces)])
  }

  /** Every tail of the name, longest first. */
  function NoteTails(st: LabelStore, pieces: seq<Piece>): LabelStore
    decreases |pieces|
  {
    if pieces == [] then st else NoteTails(Note(st, pieces), pieces[1..])
  }

  /** `read_dns_name_bytes`. */
  function ReadName(b: seq<Byte>, start: nat, st: LabelStore): Option<Read<Name>> {
    match Walk(b, start, start, st.names)
    case None => None
    case Some(w) => Some(Read(Text(w.pieces), w.end, NoteTails(st, w.pieces)))
  }

  // ----- one record -----------------------------------------------------------------

  const NS: nat := 2
  const CNAME: nat := 5
  const PTR: nat := 12
  const A: nat := 1
  const AAAA: nat := 28

  predicate IsNameType(rtype: nat) {
    rtype == NS || rtype == CNAME || rtype == PTR
  }

  datatype RData = NameData(name: Name) | Raw(bytes: seq<Byte>)

  datatype Query = Query(name: Name, qtype: nat, qclass: nat)

  datatype Resource = Resource(name: Name, rtype: nat, rclass: nat, ttl: nat, rlen: nat, data: RData)

  datatype Header = Header(ident: nat, flags: nat, counts: seq<nat>)

  datatype Message = Message(ident: nat, flags: nat, queries: seq<Query>,
                             answers: seq<Resource>, authority: seq<Resource>, ad: seq<Resource>)

  datatype Taken = Taken(bytes: seq<Byte>, end: nat)

  /** Record data that is not a name: an address of its family's size, or as many
      bytes as the record says, cut short at the end of the packet. */
  function RawAt(b: seq<Byte>, pos: nat, rtype: nat, rlen: nat): Option<Taken> {
    var size := if rtype == A then 4 else if rtype == AAAA then 16 else rlen;
    if (rtype == A || rtype == AAAA) && pos + size > |b| then None
    else Some(Taken(Slice(b, pos, pos + size), pos + size))
  }

  /** `parse_resource`. */
  function ReadResource(b: seq<Byte>, pos: nat, st: LabelStore): Option<Read<Resource>> {
    match ReadName(b, pos, st)
    case None => None
    case Some(n) =>
      if n.end + 10 > |b| then None
      else
        var rtype, rclass := U16At(b, n.end), U16At(b, n.end + 2);
        var ttl, rlen := U32At(b, n.end + 4), U16At(b, n.end + 8);
        if IsNameType(rtype) then
          match ReadName(b, n.end + 10, n.store)
          case None => None
          case Some(d) => Some(Read(Resource(n.value, rtype, rclass, ttl, rlen, NameData(d.value)), d.end, d.store))
        else
          match RawAt(b, n.end + 10, rtype, rlen)
          case None => None
          case Some(t) => Some(Read(Resource(n.value, rtype, rclass, ttl, rlen, Raw(t.bytes)), t.end, n.store))
  }

  function ReadQuery(b: seq<Byte>, pos: nat, st: LabelStore): Option<Read<Query>> {
    match ReadName(b, pos, st)
    case None => None
    case Some(n) =>
      if n.end + 4 > |b| then None
      else Some(Read(Query(n.value, U16At(b, n.end), U16At(b, n.end + 2)), n.end + 4, n.store))
  }

  // ----- a packet ---------------------------------------------------------------------

  function ReadQueries(b: seq<Byte>, count: nat, pos: nat, st: LabelStore): Option<Read<seq<Query>>> {
    if count == 0 then Some(Read([], pos, st))
    else
      match ReadQuery(b, pos, st)
      case None => None
      case Some(q) =>
        match ReadQueries(b, count - 1, q.end, q.store)
        case None => None
        case Some(rest) => Some(rest.(value := [q.value] + rest.value))
  }

  function ReadResources(b: seq<Byte>, count: nat, pos: nat, st: LabelStore): Option<Read<seq<Resource>>> {
    if count == 0 then Some(Read([], pos, st))
    else
      match ReadResource(b, pos, st)
      case None => None
      case Some(r) =>
        match ReadResources(b, count - 1, r.end, r.store)
        case None => None
        case Some(rest) => Some(rest.(value := [r.value] + rest.value))
  }

  /** `DNS.__init__` from a buffer; the end is where parsing stopped. */
  function ReadMessage(b: seq<Byte>): Option<Read<Message>> {
    if |b| < 12 then None
    else
      match ReadQueries(b, U16At(b, 4), 12, EMPTY_STORE)
      case None => None
      case Some(q) =>
        match ReadResources(b, U16At(b, 6), q.end, q.store)
        case None => None
        case Some(an) =>
          match ReadResources(b, U16At(b, 8), an.end, an.store)
          case None => None
          case Some(au) =>
            match ReadResources(b, U16At(b, 10), au.end, au.store)
            case None => None
            case Some(ad) =>
              Some(Read(Message(U16At(b, 0), U16At(b, 2), q.value, an.value, au.value, ad.value), ad.end, ad.store))
  }

  // ----- the store never lies ----------------------------------------------------------

  /** Every offset in the store names what naive decompression finds there, and
      every text its offset. */
  ghost predicate Sound(b: seq<Byte>, st: LabelStore) {
    && (forall at | at in st.names :: Means(b, at, st.names[at]))
    && (forall s | s in st.offsets :: st.offsets[s] in st.names && st.names[st.offsets[s]] == s)
  }

  /** Naive decompression at `at` succeeds, on a name that is not the root. */
  ghost predicate Means(b: seq<Byte>, at: nat, text: Name) {
    && Naive(b, at).Some? && Naive(b, at).value != [] && Join(Naive(b, at).value) == text
  }

  /** Where a name ends in the packet, whatever it points to. */
  function NameEnd(b: seq<Byte>, pos: nat): nat
    decreases |b| - pos
  {
    if pos >= |b| then pos
    else if IsLiteral(b[pos]) then NameEnd(b, pos + 1 + b[pos])
    else if b[pos] == 0 then pos + 1
    else pos + 2
  }

  ghost predicate PiecesMean(b: seq<Byte>, pieces: seq<Piece>) {
    forall i :: 0 <= i < |pieces| ==> Means(b, pieces[i].at, Text(pieces[i..]))
  }

  lemma TextCons(p: Piece, rest: seq<Piece>)
    ensures Texts([p] + rest) == [p.text] + Texts(rest)
  {
  }

  /** Walking with a sound store reads the naive name. */
  lemma {:induction false} WalkIsNaive(b: seq<Byte>, start: nat, pos: nat, st: LabelStore)
    requires Sound(b, st) && start <= pos && Walk(b, start, pos, st.names).Some?
    ensures var w := Walk(b, start, pos, st.names).value;
      && NaiveFrom(b, start, pos).Some?
      && Text(w.pieces) == Join(NaiveFrom(b, start, pos).value)
      && (w.pieces == [] <==> NaiveFrom(b, start, pos).value == [])
      && PiecesMean(b, w.pieces) && w.end == NameEnd(b, pos)
    decreases |b| - pos
  {
    var w := Walk(b, start, pos, st.names).value;
    if IsLiteral(b[pos]) {
      var next := pos + 1 + b[pos];
      WalkIsNaive(b, start, next, st);
      LiteralMeans(b, start, pos, Walk(b, start, next, st.names).value.pieces);
    } else if b[pos] != 0 {
      var loc := PointerAt(b, pos);
      assert Means(b, loc, st.names[loc]);
      assert w.pieces == [Piece(loc, st.names[loc])] && w.pieces[0..] == w.pieces;
      assert Texts(w.pieces) == [st.names[loc]];
    }
  }

  lemma LiteralMeans(b: seq<Byte>, start: nat, pos: nat, rest: seq<Piece>)
    requires start <= pos && NaiveFrom(b, start, pos).Some? && IsLiteral(b[pos]) && PiecesMean(b, rest)
    requires var tail := NaiveFrom(b, start, pos + 1 + b[pos]).value;
      Text(rest) == Join(tail) && (rest == [] <==> tail == [])
    ensures var pieces := [Piece(pos, Slice(b, pos + 1, pos + 1 + b[pos]))] + rest;
      Text(pieces) == Join(NaiveFrom(b, start, pos).value) && PiecesMean(b, pieces)
  {
    var next := pos + 1 + b[pos];
    var p, tail := Piece(pos, Slice(b, pos + 1, next)), NaiveFrom(b, start, next).value;
    assert NaiveFrom(b, start, pos) == Some([p.text] + tail);
    NaiveTail(b, start, pos, pos);
    hide NaiveFrom;
    TextCons(p, rest);
    JoinCons(p.text, Texts(rest), tail);
    MeansCons(b, p, rest);
  }

  lemma MeansCons(b: seq<Byte>, p: Piece, rest: seq<Piece>)
    requires PiecesMean(b, rest) && Means(b, p.at, Text([p] + rest))
    ensures PiecesMean(b, [p] + rest)
  {
    hide Means, Text;
    var pieces := [p] + rest;
    forall i | 0 <= i < |pieces| ensures Means(b, pieces[i].at, Text(pieces[i..])) {
      if i == 0 {
        assert pieces[0..] == pieces;
      } else {
        assert pieces[i..] == rest[i - 1..];
        assert Means(b, rest[i - 1].at, Text(rest[i - 1..]));
      }
    }
  }

  lemma JoinCons(l: Label, a: seq<Label>, c: seq<Label>)
    requires Join(a) == Join(c) && (a == [] <==> c == [])
    ensures Join([l] + a) == Join([l] + c)
  {
    assert ([l] + a)[1..] == a && ([l] + c)[1..] == c;
  }

  lemma {:induction false} NoteTailsSound(b: seq<Byte>, st: LabelStore, pieces: seq<Piece>)
    requires Sound(b, st) && PiecesMean(b, pieces)
    ensures Sound(b, NoteTails(st, pieces))
    ensures forall at | at in st.names ::
        at in NoteTails(st, pieces).names && NoteTails(st, pieces).names[at] == st.names[at]
    decreases |pieces|
  {
    if pieces != [] {
      assert pieces[0..] == pieces;
      assert Means(b, pieces[0].at, Text(pieces));
      forall i | 0 <= i < |pieces| - 1 ensures Means(b, pieces[1..][i].at, Text(pieces[1..][i..])) {
        assert pieces[1..][i..] == pieces[i + 1..];
        assert Means(b, pieces[i + 1].at, Text(pieces[i + 1..]));
      }
      NoteTailsSound(b, Note(st, pieces), pieces[1..]);
    }
  }

  /** On any bytes: a name that is read is the naively decompressed one, and the
      store stays sound and forgets nothing. */
  lemma ReadNameSound(b: seq<Byte>, start: nat, st: LabelStore)
    requires Sound(b, st) && ReadName(b, start, st).Some?
    ensures var r := ReadName(b, start, st).value;
      && Naive(b, start).Some? && r.value == Join(Naive(b, start).value)
      && r.end == NameEnd(b, start) && Sound(b, r.store)
      && (forall at | at in st.names :: at in r.store.names && r.store.names[at] == st.names[at])
  {
    WalkIsNaive(b, start, start, st);
    NoteTailsSound(b, st, Walk(b, start, start, st.names).value.pieces);
  }

  // ----- naive parsing, for comparison ---------------------------------------------------

  datatype Plain<T> = Plain(value: T, end: nat)

  function NaiveName(b: seq<Byte>, pos: nat): Option<Plain<Name>> {
    match Naive(b, pos)
    case None => None
    case Some(labels) => Some(Plain(Join(labels), NameEnd(b, pos)))
  }

  function NaiveResource(b: seq<Byte>, pos: nat): Option<Plain<Resource>> {
    match NaiveName(b, pos)
    case None => None
    case Some(n) =>
      if n.end + 10 > |b| then None
      else
        var rtype, rclass := U16At(b, n.end), U16At(b, n.end + 2);
        var ttl, rlen := U32At(b, n.end + 4), U16At(b, n.end + 8);
        if IsNameType(rtype) then
          match NaiveName(b, n.end + 10)
          case None => None
          case Some(d) => Some(Plain(Resource(n.value, rtype, rclass, ttl, rlen, NameData(d.value)), d.end))
        else
          match RawAt(b, n.end + 10, rtype, rlen)
          case None => None
          case Some(t) => Some(Plain(Resource(n.value, rtype, rclass, ttl, rlen, Raw(t.bytes)), t.end))
  }

  function NaiveQuery(b: seq<Byte>, pos: nat): Option<Plain<Query>> {
    match NaiveName(b, pos)
    case None => None
    case Some(n) =>
      if n.end + 4 > |b| then None
      else Some(Plain(Query(n.value, U16At(b, n.end), U16At(b, n.end + 2)), n.end + 4))
  }

  function NaiveQueries(b: seq<Byte>, count: nat, pos: nat): Option<Plain<seq<Query>>> {
    if count == 0 then Some(Plain([], pos))
    else
      match NaiveQuery(b, pos)
      case None => None
      case Some(q) =>
        match NaiveQueries(b, count - 1, q.end)
        case None => None
        case Some(rest) => Some(rest.(value := [q.value] + rest.value))
  }

  function NaiveResources(b: seq<Byte>, count: nat, pos: nat): Option<Plain<seq<Resource>>> {
    if count == 0 then Some(Plain([], pos))
    else
      match NaiveResource(b, pos)
      case None => None
      case Some(r) =>
        match NaiveResources(b, count - 1, r.end)
        case None => None
        case Some(rest) => Some(rest.(value := [r.value] + rest.value))
  }

  function NaiveMessage(b: seq<Byte>): Option<Plain<Message>> {
    if |b| < 12 then None
    else
      match NaiveQueries(b, U16At(b, 4), 12)
      case None => None
      case Some(q) =>
        match NaiveResources(b, U16At(b, 6), q.end)
        case None => None
        case Some(an) =>
          match NaiveResources(b, U16At(b, 8), an.end)
          case None => None
          case Some(au) =>
            match NaiveResources(b, U16At(b, 10), au.end)
            case None => None
            case Some(ad) =>
              Some(Plain(Message(U16At(b, 0), U16At(b, 2), q.value, an.value, au.value, ad.value), ad.end))
  }

  lemma ResourceIsNaive(b: seq<Byte>, pos: nat, st: LabelStore)
    requires Sound(b, st) && ReadResource(b, pos, st).Some?
    ensures var r := ReadResource(b, pos, st).value;
      Sound(b, r.store) && NaiveResource(b, pos) == Some(Plain(r.value, r.end))
  {
    ReadNameSound(b, pos, st);
    var n := ReadName(b, pos, st).value;
    if IsNameType(U16At(b, n.end)) { ReadNameSound(b, n.end + 10, n.store); }
  }

  lemma QueryIsNaive(b: seq<Byte>, pos: nat, st: LabelStore)
    requires Sound(b, st) && ReadQuery(b, pos, st).Some?
    ensures var q := ReadQuery(b, pos, st).value;
      Sound(b, q.store) && NaiveQuery(b, pos) == Some(Plain(q.value, q.end))
  {
    ReadNameSound(b, pos, st);
  }

  lemma {:induction false} QueriesAreNaive(b: seq<Byte>, count: nat, pos: nat, st: LabelStore)
    requires Sound(b, st) && ReadQueries(b, count, pos, st).Some?
    ensures var r := ReadQueries(b, count, pos, st).value;
      Sound(b, r.store) && |r.value| == count && NaiveQueries(b, count, pos) == Some(Plain(r.value, r.end))
    decreases count
  {
    hide Sound, ReadQuery, NaiveQuery;
    if count > 0 {
      QueryIsNaive(b, pos, st);
      var q := ReadQuery(b, pos, st).value;
      QueriesAreNaive(b, count - 1, q.end, q.store);
    }
  }

  lemma {:induction false} ResourcesAreNaive(b: seq<Byte>, count: nat, pos: nat, st: LabelStore)
    requires Sound(b, st) && ReadResources(b, count, pos, st).Some?
    ensures var r := ReadResources(b, count, pos, st).value;
      Sound(b, r.store) && |r.value| == count && NaiveResources(b, count, pos) == Some(Plain(r.value, r.end))
    decreases count
  {
    hide Sound, ReadResource, NaiveResource;
    if count > 0 {
      ResourceIsNaive(b, pos, st);
      var x := ReadResource(b, pos, st).value;
      ResourcesAreNaive(b, count - 1, x.end, x.store);
    }
  }

  /** On any bytes: a packet that parses holds exactly the records naive parsing
      finds, and the final store is sound. */
  lemma MessageIsNaive(b: seq<Byte>)
    requires ReadMessage(b).Some?
    ensures var r := ReadMessage(b).value;
      Sound(b, r.store) && NaiveMessage(b) == Some(Plain(r.value, r.end))
  {
    QueriesAreNaive(b, U16At(b, 4), 12, EMPTY_STORE);
    var q := ReadQueries(b, U16At(b, 4), 12, EMPTY_STORE).value;
    ResourcesAreNaive(b, U16At(b, 6), q.end, q.store);
    var an := ReadResources(b, U16At(b, 6), q.end, q.store).value;
    ResourcesAreNaive(b, U16At(b, 8), an.end, an.store);
    var au := ReadResources(b, U16At(b, 8), an.end, an.store).value;
    ResourcesAreNaive(b, U16At(b, 10), au.end, au.store);
  }

  lemma WalkLiteral(b: seq<Byte>, start: nat, pos: nat, names: map<nat, Name>)
    requires pos < |b| && IsLiteral(b[pos])
    ensures var next := pos + 1 + b[pos];
      && (Walk(b, start, next, names).Some? ==>
           var rest := Walk(b, start, next, names).value;
           Walk(b, start, pos, names) == Some(Walked([Piece(pos, Slice(b, pos + 1, next))] + rest.pieces, rest.end)))
      && (NaiveFrom(b, start, next).Some? ==>
           NaiveFrom(b, start, pos) == Some([Slice(b, pos + 1, next)] + NaiveFrom(b, start, next).value))
  {
  }
}
