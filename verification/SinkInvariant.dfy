/** What every step of the netlink sink keeps. */
module SinkInvariant {
  import opened Routes
  import opened SinkModel

  // ----- the invariant --------------------------------------------------------

  predicate Live(s: Sink, e: Entry) {
    e.key in s.entries && s.entries[e.key] == e && e in s.heap
  }

  ghost predicate KeyedByEntry(s: Sink) {
    forall k | k in s.entries :: s.entries[k].key == k && s.entries[k] in s.heap
  }

  /** Each container holds exactly the live entries in the matching stage. */
  ghost predicate Staged(s: Sink) {
    && (forall e | e in s.queue :: Live(s, e) && s.heap[e].stage == Queued)
    && (forall e | e in s.retry :: Live(s, e) && s.heap[e].stage == Retry)
    && (forall k {:trigger RecStaged(s, s.entries[k])} | k in s.entries ::
         s.entries[k] in s.heap && RecStaged(s, s.entries[k]))
  }

  predicate RecStaged(s: Sink, e: Entry)
    requires e in s.heap
  {
    var r := s.heap[e];
    && (r.stage == Queued ==> e in s.queue)
    && (r.stage == Retry ==> e in s.retry)
    && (r.stage == Sent ==> r.written && r.seqno in s.pending && s.pending[r.seqno] == e)
    && (r.stage == Installed ==> r.written && r.kind == Add)
    && (r.kind == Del ==> r.written)
    && (!r.written ==> r.seqno == 0)
    && r.seqno <= s.lastSeq
    && (r.seqno in s.pending ==> s.pending[r.seqno] == e)
  }

  /** A request in flight belongs to a live entry that is not settled, and is not
      newer than that entry's latest request. */
  ghost predicate InFlight(s: Sink) {
    forall n | n in s.pending ::
      && Live(s, s.pending[n]) && 0 < n <= s.heap[s.pending[n]].seqno <= s.lastSeq
      && s.heap[s.pending[n]].stage != Installed
  }

  ghost predicate Core(s: Sink) {
    KeyedByEntry(s) && Staged(s) && InFlight(s)
  }

  /** An entry is an add exactly when its prefix occupies its key. */
  ghost predicate Indexed(s: Sink)
    requires KeyedByEntry(s)
  {
    (forall p :: OccupiesOwn(s, p)) && (forall k :: AddIffOccupied(s, k))
  }

  predicate OccupiesOwn(s: Sink, p: Prefix) {
    p in s.prefixKey ==> s.prefixKey[p].prefix == p && s.prefixKey[p] in s.entries
  }

  predicate Occupies(s: Sink, k: Key) {
    k.prefix in s.prefixKey && s.prefixKey[k.prefix] == k
  }

  ghost predicate AddIffOccupied(s: Sink, k: Key)
    requires KeyedByEntry(s)
  {
    k in s.entries ==> (s.heap[s.entries[k]].kind == Add <==> Occupies(s, k))
  }

  /** Answers arrive in send order, and none is lost. */
  ghost predicate Lossless(w: World) {
    && (forall i, j :: 0 <= i < j < |w.inbox| ==> w.inbox[i].seqno < w.inbox[j].seqno)
    && (forall i :: 0 <= i < |w.inbox| ==> 0 < w.inbox[i].seqno <= w.sink.lastSeq)
    && (forall n | n in w.sink.pending :: exists i :: 0 <= i < |w.inbox| && w.inbox[i].seqno == n)
  }

  /** What an answer to the latest request of an entry says about the kernel. */
  predicate Tells(own: Option<Hop>, r: Rec, code: nat) {
    && (code == 0 && r.kind == Add ==> own.Some? && Agrees(own.value, r.hop))
    && (r.kind == Del && (code == 0 || AlreadyGone(code)) ==> own.None?)
  }

  /** What the sink is entitled to believe about one key. */
  ghost predicate Knows(c: Conf, w: World, k: Key)
    requires KeyedByEntry(w.sink)
  {
    var own := Own(c, w.table, k);
    if k !in w.sink.entries then own.None?
    else
      var r := w.sink.heap[w.sink.entries[k]];
      && (!r.written ==> own.None?)
      && (r.stage == Installed ==> own.Some? && Agrees(own.value, r.hop))
      && (r.stage == Sent ==>
            forall i :: 0 <= i < |w.inbox| && w.inbox[i].seqno == r.seqno ==> Tells(own, r, w.inbox[i].code))
  }

  /** The containers, the wire and the kernel fit together. */
  ghost predicate Flow(c: Conf, w: World) {
    && Core(w.sink) && Lossless(w)
    && |w.sink.pending| <= c.window
    && (forall k :: Knows(c, w, k))
  }

  ghost predicate Inv(c: Conf, w: World) {
    Flow(c, w) && Indexed(w.sink)
  }

  // ----- container operations -------------------------------------------------

  /** Re-queueing a live entry with new intentions, as `install`, `withdraw`,
      `_retire` and the two re-queueing flush phases do. */
  lemma EnqueueKeeps(s: Sink, e: Entry, r: Rec)
    requires Core(s) && Live(s, e)
    requires r.seqno == s.heap[e].seqno && r.written == s.heap[e].written
    requires r.kind == Del ==> r.written
    ensures Core(Enqueue(Update(s, e, r), e))
  {
    EnqueueStaged(s, e, r);
    EnqueueInFlight(s, e, r);
  }

  lemma EnqueueStaged(s: Sink, e: Entry, r: Rec)
    requires KeyedByEntry(s) && Staged(s) && Live(s, e)
    requires r.seqno == s.heap[e].seqno && r.written == s.heap[e].written
    requires r.kind == Del ==> r.written
    ensures var s' := Enqueue(Update(s, e, r), e); KeyedByEntry(s') && Staged(s')
  {
    hide Without;
    var s' := Enqueue(Update(s, e, r), e);
    assert RecStaged(s, e);
    EnqueueQueues(s, e, r);
    forall k | k in s'.entries
      ensures RecStaged(s', s'.entries[k])
    {
      assert RecStaged(s, s.entries[k]);
      assert s'.entries[k] != e ==> s'.entries[k].key != e.key;
    }
  }

  lemma EnqueueInFlight(s: Sink, e: Entry, r: Rec)
    requires KeyedByEntry(s) && InFlight(s) && Live(s, e) && r.seqno == s.heap[e].seqno
    ensures InFlight(Enqueue(Update(s, e, r), e))
  {
    hide Without;
  }

  lemma EnqueueQueues(s: Sink, e: Entry, r: Rec)
    requires KeyedByEntry(s) && Live(s, e)
    requires forall x | x in s.queue :: Live(s, x) && s.heap[x].stage == Queued
    requires forall x | x in s.retry :: Live(s, x) && s.heap[x].stage == Retry
    ensures var s' := Enqueue(Update(s, e, r), e);
      && (forall x | x in s'.queue :: Live(s', x) && s'.heap[x].stage == Queued)
      && (forall x | x in s'.retry :: Live(s', x) && s'.heap[x].stage == Retry)
      && e in s'.queue && (forall x | x in s.queue :: x in s'.queue)
      && (forall x | x in s.retry && x.key != e.key :: x in s'.retry)
  {
    hide Without;
    var s' := Enqueue(Update(s, e, r), e);
    assert s'.queue[|s'.queue| - 1] == e;
    assert forall x | x in s'.queue :: x == e || x in s.queue;
  }

  lemma ForgetKeeps(s: Sink, e: Entry)
    requires Core(s) && Live(s, e)
    requires forall n | n in s.pending && s.pending[n] == e :: n == s.heap[e].seqno
    ensures Core(Forget(s, e))
  {
    hide Without;
    var s' := Forget(s, e);
    forall k | k in s'.entries
      ensures RecStaged(s', s'.entries[k])
    {
      assert RecStaged(s, s.entries[k]);
      assert RecStaged(s, e);
    }
    forall n | n in s'.pending
      ensures Live(s', s'.pending[n])
    {
      assert RecStaged(s, e);
      assert s.pending[n] != e;
    }
  }

  /** A never-written entry has nothing in flight. */
  lemma UnwrittenIsQuiet(s: Sink, e: Entry)
    requires Core(s) && Live(s, e) && !s.heap[e].written
    ensures forall n | n in s.pending :: s.pending[n] != e
  {
    assert RecStaged(s, e);
  }

  lemma EntryForKeeps(s: Sink, k: Key, hop: Hop, made: Entry)
    requires Core(s) && made !in s.heap && made.key == k && k !in s.entries
    ensures var (s', e) := EntryFor(s, k, hop, made);
      var r := NewRec(Add, hop);
      Live(s', e) && Core(Enqueue(Update(s', e, r), e))
  {
    NewStaged(s, k, hop, made);
    NewInFlight(s, k, hop, made);
  }

  lemma NewStaged(s: Sink, k: Key, hop: Hop, made: Entry)
    requires KeyedByEntry(s) && Staged(s) && 0 !in s.pending && made !in s.heap && made.key == k && k !in s.entries
    ensures var (s', e) := EntryFor(s, k, hop, made);
      var s2 := Enqueue(Update(s', e, NewRec(Add, hop)), e);
      KeyedByEntry(s2) && Staged(s2)
  {
    hide Without;
    var s' := EntryFor(s, k, hop, made).0;
    var s2 := Enqueue(Update(s', made, NewRec(Add, hop)), made);
    NewQueues(s, k, hop, made);
    forall x | x in s2.entries
      ensures RecStaged(s2, s2.entries[x])
    {
      if x != k { assert RecStaged(s, s.entries[x]); }
    }
  }

  lemma NewQueues(s: Sink, k: Key, hop: Hop, made: Entry)
    requires KeyedByEntry(s) && made !in s.heap && made.key == k && k !in s.entries
    requires forall x | x in s.queue :: Live(s, x) && s.heap[x].stage == Queued
    requires forall x | x in s.retry :: Live(s, x) && s.heap[x].stage == Retry
    ensures var s2 := Enqueue(Update(EntryFor(s, k, hop, made).0, made, NewRec(Add, hop)), made);
      && made in s2.queue && (forall x | x in s.queue :: x in s2.queue) && (forall x | x in s.retry :: x in s2.retry)
      && (forall x | x in s2.queue :: x == made || x in s.queue) && (forall x | x in s2.retry :: x in s.retry)
      && (forall x | x in s2.queue :: Live(s2, x) && s2.heap[x].stage == Queued)
      && (forall x | x in s2.retry :: Live(s2, x) && s2.heap[x].stage == Retry)
  {
    hide Without;
    var s2 := Enqueue(Update(EntryFor(s, k, hop, made).0, made, NewRec(Add, hop)), made);
    assert made !in s.queue && made !in s.retry;
    assert s2.queue[|s2.queue| - 1] == made;
  }

  lemma NewInFlight(s: Sink, k: Key, hop: Hop, made: Entry)
    requires KeyedByEntry(s) && InFlight(s) && made !in s.heap && made.key == k && k !in s.entries
    ensures var (s', e) := EntryFor(s, k, hop, made);
      Live(s', e) && InFlight(Enqueue(Update(s', e, NewRec(Add, hop)), e))
  {
    hide Without;
  }

  lemma RetireKeeps(s: Sink, k: Key)
    requires Core(s)
    ensures Core(Retire(s, k))
  {
    if k in s.entries {
      var e := s.entries[k];
      assert RecStaged(s, e);
      if !s.heap[e].written {
        UnwrittenIsQuiet(s, e);
        ForgetKeeps(s, e);
      } else {
        EnqueueKeeps(s, e, s.heap[e].(kind := Del, attempts := 0, errno := 0));
      }
    }
  }

  // ----- install and withdraw ---------------------------------------------------

  /** The add half of an install. */
  function Offered(s: Sink, k: Key, hop: Hop, made: Entry): Sink
    requires KeyedByEntryC(s)
  {
    if AlreadyInstalled(s, k, hop) then s
    else
      var (s0, e) := EntryFor(s, k, hop, made);
      Enqueue(Update(s0, e, s0.heap[e].(kind := Add, hop := hop, errno := 0)), e)
  }

  predicate KeyedByEntryC(s: Sink) {
    forall k | k in s.entries :: s.entries[k].key == k && s.entries[k] in s.heap
  }

  /** What offering a key does to the entries: that one is an add saying `hop`,
      queued unless nothing had to change, and no other is touched. */
  ghost predicate OfferEffect(s: Sink, s': Sink, k: Key, hop: Hop)
    requires KeyedByEntry(s) && KeyedByEntry(s')
  {
    && s'.entries.Keys == s.entries.Keys + {k}
    && (forall x | x in s.entries && x != k ::
        s'.entries[x] == s.entries[x] && s'.heap[s.entries[x]] == s.heap[s.entries[x]])
    && s'.heap[s'.entries[k]].kind == Add && s'.heap[s'.entries[k]].hop == hop
    && s'.prefixKey == s.prefixKey && s'.pending == s.pending && s'.lastSeq == s.lastSeq
    && s'.heap[s'.entries[k]].written == (k in s.entries && s.heap[s.entries[k]].written)
    && (s'.heap[s'.entries[k]].stage == Queued || s' == s)
  }

  lemma OfferedAgain(s: Sink, k: Key, hop: Hop, made: Entry)
    requires Core(s) && k in s.entries && !AlreadyInstalled(s, k, hop)
    ensures Core(Offered(s, k, hop, made)) && OfferEffect(s, Offered(s, k, hop, made), k, hop)
  {
    var e := s.entries[k];
    var r := s.heap[e].(kind := Add, hop := hop, errno := 0);
    assert RecStaged(s, e);
    EnqueueKeeps(s, e, r);
    assert Offered(s, k, hop, made) == Enqueue(Update(s, e, r), e);
  }

  lemma OfferedFirst(s: Sink, k: Key, hop: Hop, made: Entry)
    requires Core(s) && k !in s.entries && made !in s.heap && made.key == k
    ensures Core(Offered(s, k, hop, made)) && OfferEffect(s, Offered(s, k, hop, made), k, hop)
  {
    EntryForKeeps(s, k, hop, made);
    var (s0, e) := EntryFor(s, k, hop, made);
    assert s0.heap[e].(kind := Add, hop := hop, errno := 0) == NewRec(Add, hop);
    assert Offered(s, k, hop, made) == Enqueue(Update(s0, e, NewRec(Add, hop)), e);
    assert forall x | x in s.entries :: s.entries[x] != made;
  }

  lemma OfferedKeeps(s: Sink, k: Key, hop: Hop, made: Entry)
    requires Core(s)
    requires k !in s.entries ==> made !in s.heap && made.key == k
    ensures Core(Offered(s, k, hop, made)) && OfferEffect(s, Offered(s, k, hop, made), k, hop)
  {
    if k !in s.entries {
      OfferedFirst(s, k, hop, made);
    } else if !AlreadyInstalled(s, k, hop) {
      OfferedAgain(s, k, hop, made);
    }
  }

  /** A change of the sink that loses nothing it knows about the kernel: what
      it forgets or leaves unwritten was never written, and what it calls
      installed or in flight it already called so, with the same fields. */
  ghost predicate Quietly(s: Sink, s': Sink)
    requires KeyedByEntry(s) && KeyedByEntry(s')
  {
    && s'.lastSeq == s.lastSeq
    && s'.pending.Keys <= s.pending.Keys
    && (forall k :: QuietAt(s, s', k))
  }

  ghost predicate QuietAt(s: Sink, s': Sink, k: Key)
    requires KeyedByEntry(s) && KeyedByEntry(s')
  {
    var unwritten := k !in s.entries || !s.heap[s.entries[k]].written;
    if k !in s'.entries then unwritten
    else
      var r' := s'.heap[s'.entries[k]];
      && (!r'.written ==> unwritten)
      && (r'.stage == Installed || r'.stage == Sent ==> k in s.entries && s.heap[s.entries[k]] == r')
  }

  lemma QuietlyChains(a: Sink, b: Sink, c: Sink)
    requires KeyedByEntry(a) && KeyedByEntry(b) && KeyedByEntry(c)
    requires Quietly(a, b) && Quietly(b, c)
    ensures Quietly(a, c)
  {
    forall k ensures QuietAt(a, c, k) {
      assert QuietAt(a, b, k) && QuietAt(b, c, k);
    }
  }

  lemma QuietlyKeeps(c: Conf, w: World, s': Sink)
    requires Flow(c, w) && Core(s') && Quietly(w.sink, s')
    ensures Flow(c, w.(sink := s'))
  {
    var w' := w.(sink := s');
    forall k ensures Knows(c, w', k) {
      assert Knows(c, w, k) && QuietAt(w.sink, s', k);
    }
    SubsetIsNoBigger(s'.pending.Keys, w.sink.pending.Keys);
  }

  lemma OfferedQuietly(s: Sink, k: Key, hop: Hop, made: Entry)
    requires Core(s)
    requires k !in s.entries ==> made !in s.heap && made.key == k
    ensures KeyedByEntry(Offered(s, k, hop, made)) && Quietly(s, Offered(s, k, hop, made))
  {
    OfferedKeeps(s, k, hop, made);
    forall x ensures QuietAt(s, Offered(s, k, hop, made), x) {}
  }

  lemma RetireQuietly(s: Sink, k: Key)
    requires Core(s)
    ensures KeyedByEntry(Retire(s, k)) && Quietly(s, Retire(s, k))
  {
    RetireKeeps(s, k);
    forall x ensures QuietAt(s, Retire(s, k), x) {}
  }

  /** What retiring a key leaves of the other entries. */
  lemma RetireEffect(s: Sink, k: Key)
    requires Core(s)
    ensures var s' := Retire(s, k);
      && KeyedByEntry(s') && s'.prefixKey == s.prefixKey
      && s'.entries.Keys <= s.entries.Keys && s.entries.Keys <= s'.entries.Keys + {k}
      && (k in s'.entries ==> s'.heap[s'.entries[k]].kind == Del)
      && (forall x | x in s.entries && x != k ::
           s'.entries[x] == s.entries[x] && s'.heap[s.entries[x]] == s.heap[s.entries[x]])
  {
    RetireKeeps(s, k);
  }

  /** The allocator hands out a new object for a key that has no entry. */
  predicate MayAllocate(c: Conf, s: Sink, route: Route, made: Entry) {
    var t := Attrs(c, route);
    t.Some? && Key(route.prefix, t.value.priority) !in s.entries ==>
      made !in s.heap && made.key == Key(route.prefix, t.value.priority)
  }

  /** Install in two halves: offer the new key, then retire the one the
      prefix used to occupy. */
  lemma InstallSplits(c: Conf, s: Sink, route: Route, made: Entry)
    requires Core(s) && MayAllocate(c, s, route, made) && Expressible(c, route)
    ensures var t := Attrs(c, route).value;
      var p, k := route.prefix, Key(route.prefix, t.priority);
      var s2 := Offered(s, k, t.hop, made).(prefixKey := s.prefixKey[p := k]);
      && Core(s2) && Quietly(s, s2)
      && Install(c, s, route, made) ==
           if p in s.prefixKey && s.prefixKey[p] != k then Retire(s2, s.prefixKey[p]) else s2
  {
    var t := Attrs(c, route).value;
    var k := Key(route.prefix, t.priority);
    var s1 := Offered(s, k, t.hop, made);
    OfferedKeeps(s, k, t.hop, made);
    OfferedQuietly(s, k, t.hop, made);
    var s2 := s1.(prefixKey := s.prefixKey[route.prefix := k]);
    CoreIgnoresIndex(s1, s2);
    forall x ensures QuietAt(s, s2, x) { assert QuietAt(s, s1, x); }
  }

  /** What an install of an expressible route leaves behind. */
  lemma InstallEffect(c: Conf, s: Sink, route: Route, made: Entry)
    requires Core(s) && MayAllocate(c, s, route, made) && Expressible(c, route)
    ensures var t, s' := Attrs(c, route).value, Install(c, s, route, made);
      var p, k := route.prefix, Key(route.prefix, t.priority);
      && KeyedByEntry(s') && s'.prefixKey == s.prefixKey[p := k]
      && k in s'.entries && s'.heap[s'.entries[k]].hop == t.hop
      && (forall x | x in s.entries && x != k && !(p in s.prefixKey && s.prefixKey[p] == x) ::
           x in s'.entries && s'.heap[s'.entries[x]] == s.heap[s.entries[x]])
  {
    hide Without, SinkModel.Enqueue, Forget;
    var t := Attrs(c, route).value;
    var p, k := route.prefix, Key(route.prefix, t.priority);
    InstallSplits(c, s, route, made);
    OfferedKeeps(s, k, t.hop, made);
    var s2 := Offered(s, k, t.hop, made).(prefixKey := s.prefixKey[p := k]);
    if p in s.prefixKey && s.prefixKey[p] != k { RetireEffect(s2, s.prefixKey[p]); }
  }

  lemma InstallIndexed(c: Conf, s: Sink, route: Route, made: Entry)
    requires Core(s) && Indexed(s) && MayAllocate(c, s, route, made)
    requires KeyedByEntry(Install(c, s, route, made))
    ensures Indexed(Install(c, s, route, made))
  {
    if Expressible(c, route) {
      var t := Attrs(c, route).value;
      InstallSplits(c, s, route, made);
      var k := Key(route.prefix, t.priority);
      OfferedKeeps(s, k, t.hop, made);
      OfferIndexed(s, Offered(s, k, t.hop, made), k, t.hop);
    }
  }

  lemma OfferIndexed(s: Sink, s1: Sink, k: Key, hop: Hop)
    requires Core(s) && KeyedByEntry(s1) && Indexed(s) && OfferEffect(s, s1, k, hop)
    requires Core(s1.(prefixKey := s.prefixKey[k.prefix := k]))
    ensures var p, s2 := k.prefix, s1.(prefixKey := s.prefixKey[k.prefix := k]);
      var s' := if p in s.prefixKey && s.prefixKey[p] != k then Retire(s2, s.prefixKey[p]) else s2;
      KeyedByEntry(s') && Indexed(s')
  {
    var p, s2 := k.prefix, s1.(prefixKey := s.prefixKey[k.prefix := k]);
    assert OccupiesOwn(s, p);
    forall q ensures OccupiesOwn(s2, q) {
      assert OccupiesOwn(s, q);
    }
    forall x | !(p in s.prefixKey && s.prefixKey[p] != k && x == s.prefixKey[p])
      ensures AddIffOccupied(s2, x)
    {
      assert AddIffOccupied(s, x);
    }
    if p in s.prefixKey && s.prefixKey[p] != k {
      RetireIndexed(s2, s.prefixKey[p]);
    }
  }

  lemma RetireIndexed(s: Sink, gone: Key)
    requires Core(s) && !Occupies(s, gone)
    requires forall q :: OccupiesOwn(s, q)
    requires forall x | x != gone :: AddIffOccupied(s, x)
    ensures KeyedByEntry(Retire(s, gone)) && Indexed(Retire(s, gone))
  {
    RetireEffect(s, gone);
    forall q ensures OccupiesOwn(Retire(s, gone), q) {
      assert OccupiesOwn(s, q);
    }
    forall x ensures AddIffOccupied(Retire(s, gone), x) {
      if x != gone { assert AddIffOccupied(s, x); }
    }
  }

  lemma InstallShape(c: Conf, s: Sink, route: Route, made: Entry)
    requires Core(s) && MayAllocate(c, s, route, made)
    ensures Core(Install(c, s, route, made)) && Quietly(s, Install(c, s, route, made))
  {
    if Expressible(c, route) {
      InstallSplits(c, s, route, made);
      var t := Attrs(c, route).value;
      var p, k := route.prefix, Key(route.prefix, t.priority);
      var s2 := Offered(s, k, t.hop, made).(prefixKey := s.prefixKey[p := k]);
      if p in s.prefixKey && s.prefixKey[p] != k {
        RetireKeeps(s2, s.prefixKey[p]);
        RetireQuietly(s2, s.prefixKey[p]);
        QuietlyChains(s, s2, Retire(s2, s.prefixKey[p]));
      }
    } else {
      NothingIsQuiet(s);
    }
  }

  lemma NothingIsQuiet(s: Sink)
    requires KeyedByEntry(s)
    ensures Quietly(s, s)
  {
    forall x ensures QuietAt(s, s, x) {}
  }

  lemma InstallKeeps(c: Conf, w: World, route: Route, made: Entry)
    requires Flow(c, w) && MayAllocate(c, w.sink, route, made)
    ensures Flow(c, w.(sink := Install(c, w.sink, route, made)))
  {
    InstallShape(c, w.sink, route, made);
    QuietlyKeeps(c, w, Install(c, w.sink, route, made));
  }

  lemma CoreIgnoresIndex(s: Sink, s': Sink)
    requires Core(s) && s' == s.(prefixKey := s'.prefixKey)
    ensures Core(s')
  {
    forall k | k in s'.entries ensures RecStaged(s', s'.entries[k]) {
      assert RecStaged(s, s.entries[k]);
    }
  }

  lemma SubsetIsNoBigger(a: set<nat>, b: set<nat>)
    requires a <= b
    ensures |a| <= |b|
  {
    assert b == a + (b - a);
  }

  /** Re-queueing a live entry is quiet, and its effect on the index is that of
      its new kind. */
  lemma RequeueQuietly(s: Sink, e: Entry, r: Rec)
    requires Core(s) && Live(s, e)
    requires r.seqno == s.heap[e].seqno && r.written == s.heap[e].written
    requires r.kind == Del ==> r.written
    ensures var s' := Enqueue(Update(s, e, r), e);
      Core(s') && Quietly(s, s') && s'.prefixKey == s.prefixKey && s'.entries == s.entries
      && s'.heap == s.heap[e := r.(stage := Queued)]
  {
    EnqueueKeeps(s, e, r);
    forall x ensures QuietAt(s, Enqueue(Update(s, e, r), e), x) {}
  }

  lemma ForgetQuietly(s: Sink, e: Entry)
    requires Core(s) && Live(s, e) && !s.heap[e].written
    ensures Core(Forget(s, e)) && Quietly(s, Forget(s, e))
  {
    UnwrittenIsQuiet(s, e);
    ForgetKeeps(s, e);
    forall x ensures QuietAt(s, Forget(s, e), x) {}
  }

  lemma WithdrawShape(s: Sink, p: Prefix)
    requires Core(s)
    ensures Core(Withdraw(s, p)) && Quietly(s, Withdraw(s, p))
  {
    NothingIsQuiet(s);
    if p in s.prefixKey {
      var s1 := s.(prefixKey := s.prefixKey - {p});
      CoreIgnoresIndex(s, s1);
      forall x ensures QuietAt(s, s1, x) {}
      if s.prefixKey[p] in s.entries {
        var e := s.entries[s.prefixKey[p]];
        if !s.heap[e].written {
          ForgetQuietly(s1, e);
        } else {
          RequeueQuietly(s1, e, s.heap[e].(kind := Del, errno := 0));
        }
        QuietlyChains(s, s1, Withdraw(s, p));
      }
    }
  }

  lemma WithdrawIndexed(s: Sink, p: Prefix)
    requires KeyedByEntry(s) && Indexed(s) && KeyedByEntry(Withdraw(s, p))
    ensures Indexed(Withdraw(s, p))
  {
    var s' := Withdraw(s, p);
    assert OccupiesOwn(s, p);
    forall q ensures OccupiesOwn(s', q) {
      assert OccupiesOwn(s, q);
    }
    forall x ensures AddIffOccupied(s', x) {
      assert AddIffOccupied(s, x);
    }
  }

  lemma WithdrawKeeps(c: Conf, w: World, p: Prefix)
    requires Flow(c, w)
    ensures Flow(c, w.(sink := Withdraw(w.sink, p)))
  {
    WithdrawShape(w.sink, p);
    QuietlyKeeps(c, w, Withdraw(w.sink, p));
  }

  // ----- the flush phases -------------------------------------------------------

  /** Nothing about the index depends on anything but kinds. */
  lemma SameKindsSameIndex(s: Sink, s': Sink)
    requires KeyedByEntry(s) && KeyedByEntry(s') && Indexed(s)
    requires s'.prefixKey == s.prefixKey && s'.entries == s.entries
    requires forall k | k in s.entries :: s'.heap[s.entries[k]].kind == s.heap[s.entries[k]].kind
    ensures Indexed(s')
  {
    forall q ensures OccupiesOwn(s', q) {
      assert OccupiesOwn(s, q);
    }
    forall x ensures AddIffOccupied(s', x) {
      assert AddIffOccupied(s, x);
    }
  }

  lemma PromoteShape(s: Sink, e: Entry)
    requires Core(s) && e in s.retry
    ensures Core(Promote(s, e)) && Quietly(s, Promote(s, e))
  {
    assert RecStaged(s, e);
    RequeueQuietly(s, e, s.heap[e]);
    WithoutTwice(s.retry, e.key);
    assert Update(s, e, s.heap[e]).heap == s.heap;
    assert Promote(s, e) == Enqueue(Update(s, e, s.heap[e]), e);
  }

  lemma PromoteKeeps(c: Conf, w: World, e: Entry)
    requires Flow(c, w) && e in w.sink.retry
    ensures Flow(c, w.(sink := Promote(w.sink, e)))
  {
    PromoteShape(w.sink, e);
    QuietlyKeeps(c, w, Promote(w.sink, e));
  }

  lemma {:induction false} WithoutTwice(q: seq<Entry>, k: Key)
    ensures Without(Without(q, k), k) == Without(q, k)
  {
    WithoutAbsent(Without(q, k), k);
  }

  lemma {:induction false} WithoutAbsent(q: seq<Entry>, k: Key)
    requires forall e | e in q :: e.key != k
    ensures Without(q, k) == q
  {
    if q != [] {
      WithoutAbsent(q[..|q| - 1], k);
      assert q == q[..|q| - 1] + [q[|q| - 1]];
    }
  }

  /** A request given up on while its answer is late, not lost, does no harm. */
  lemma ExpireKeeps(c: Conf, w: World, n: nat)
    requires Flow(c, w) && n in w.sink.pending
    ensures Flow(c, w.(sink := Expire(w.sink, n)))
  {
    ExpireShape(w.sink, n);
    QuietlyKeeps(c, w, Expire(w.sink, n));
  }

  lemma ExpireShape(s: Sink, n: nat)
    requires Core(s) && n in s.pending
    ensures Core(Expire(s, n)) && Quietly(s, Expire(s, n))
  {
    hide Without;
    ExpireStaged(s, n);
    ExpireInFlight(s, n);
    forall x ensures QuietAt(s, Expire(s, n), x) {}
  }

  lemma ExpireStaged(s: Sink, n: nat)
    requires Core(s) && n in s.pending
    ensures var s' := Expire(s, n); KeyedByEntry(s') && Staged(s')
  {
    hide Without;
    var e := s.pending[n];
    var s' := Expire(s, n);
    assert RecStaged(s, e);
    assert s'.queue[|s'.queue| - 1] == e;
    forall k | k in s'.entries ensures RecStaged(s', s'.entries[k]) {
      assert RecStaged(s, s.entries[k]);
    }
  }

  lemma ExpireInFlight(s: Sink, n: nat)
    requires KeyedByEntry(s) && InFlight(s) && n in s.pending
    ensures InFlight(Expire(s, n))
  {
    hide Without;
  }

  /** Everything `Core` says except about the stage of `e` itself, which has just
      left the queue or the in-flight map. */
  ghost predicate CoreBut(s: Sink, e: Entry) {
    && KeyedByEntry(s) && InFlight(s) && Live(s, e) && e !in s.retry
    && (forall x | x in s.queue :: x != e && Live(s, x) && s.heap[x].stage == Queued)
    && (forall x | x in s.retry :: Live(s, x) && s.heap[x].stage == Retry)
    && (forall k {:trigger RecStaged(s, s.entries[k])} | k in s.entries && s.entries[k] != e ::
        RecStaged(s, s.entries[k]))
    && RecSound(s, e)
  }

  predicate RecSound(s: Sink, e: Entry)
    requires e in s.heap
  {
    var r := s.heap[e];
    (r.kind == Del ==> r.written) && (!r.written ==> r.seqno == 0) && r.seqno <= s.lastSeq
    && (r.seqno in s.pending ==> s.pending[r.seqno] == e)
  }

  lemma ErrorKeeps(s: Sink, e: Entry, code: nat, now: real)
    requires CoreBut(s, e) && !(s.heap[e].kind == Del && AlreadyGone(code))
    ensures var s' := RecordError(s, e, code, now);
      && Core(s') && s'.entries == s.entries && s'.prefixKey == s.prefixKey
      && s'.pending == s.pending && s'.lastSeq == s.lastSeq
      && s'.heap == s.heap[e := s'.heap[e]] && s'.heap[e].stage == Retry
      && s'.heap[e].kind == s.heap[e].kind && s'.heap[e].written == s.heap[e].written
  {
    hide Without, Put;
    var s' := RecordError(s, e, code, now);
    assert forall x | x in s.retry :: x.key != e.key;
    forall k | k in s'.entries ensures RecStaged(s', s'.entries[k]) {
      if s.entries[k] != e { assert RecStaged(s, s.entries[k]); }
    }
  }

  lemma PoppedIsCoreBut(s: Sink, e: Entry, n: nat)
    requires Core(s) && e in s.queue && n == s.lastSeq + 1
    ensures CoreBut(s.(queue := Without(s.queue, e.key), lastSeq := n), e)
  {
    hide Without;
    var s' := s.(queue := Without(s.queue, e.key), lastSeq := n);
    assert RecStaged(s, e);
    forall k | k in s'.entries && s'.entries[k] != e ensures RecStaged(s', s'.entries[k]) {
      assert RecStaged(s, s.entries[k]);
    }
  }

  lemma SeqAdvances(c: Conf, w: World, n: nat)
    requires Flow(c, w) && n >= w.sink.lastSeq
    ensures Flow(c, w.(sink := w.sink.(lastSeq := n)))
  {
    var s' := w.sink.(lastSeq := n);
    forall k | k in s'.entries ensures RecStaged(s', s'.entries[k]) {
      assert RecStaged(w.sink, w.sink.entries[k]);
    }
    forall k ensures Knows(c, w.(sink := s'), k) {
      assert Knows(c, w, k);
    }
  }

  lemma FailedShape(s: Sink, e: Entry, n: nat, code: nat, now: real)
    requires Core(s) && e in s.queue && n == s.lastSeq + 1
    requires !(s.heap[e].kind == Del && AlreadyGone(code))
    ensures var s' := RecordError(s.(queue := Without(s.queue, e.key), lastSeq := n), e, code, now);
      && Core(s') && KeyedByEntry(s') && KeyedByEntry(s.(lastSeq := n)) && Quietly(s.(lastSeq := n), s')
      && s'.prefixKey == s.prefixKey && s'.entries == s.entries
      && (forall k | k in s.entries :: s'.heap[s.entries[k]].kind == s.heap[s.entries[k]].kind)
  {
    var popped := s.(queue := Without(s.queue, e.key), lastSeq := n);
    PoppedIsCoreBut(s, e, n);
    ErrorKeeps(popped, e, code, now);
    var s' := RecordError(popped, e, code, now);
    forall x ensures QuietAt(s.(lastSeq := n), s', x) {}
  }

  lemma FlowCore(c: Conf, w: World)
    requires Flow(c, w)
    ensures Core(w.sink) && KeyedByEntry(w.sink)
  {
  }

  lemma FailedSendKeeps(c: Conf, w: World, code: nat, now: real)
    requires Flow(c, w) && HasWork(w) && w.sink.lastSeq < MAX_SEQ
    requires !AlreadyGone(code)
    ensures Flow(c, SendHead(c, w, Failed(code), now))
  {
    hide Flow, Core, Quietly, RecordError, Without;
    var s, n := w.sink, NextSeq(w.sink.lastSeq);
    assert s.queue[0] in s.queue;
    FlowCore(c, w);
    SeqAdvances(c, w, n);
    FailedShape(s, s.queue[0], n, code, now);
    var w1, w' := w.(sink := s.(lastSeq := n)), SendHead(c, w, Failed(code), now);
    QuietlyKeeps(c, w1, w'.sink);
  }

  lemma DeliveredShape(s: Sink, e: Entry, now: real)
    requires Core(s) && e in s.queue && s.lastSeq < MAX_SEQ
    ensures var n := NextSeq(s.lastSeq);
      Core(MarkSent(s.(queue := Without(s.queue, e.key), lastSeq := n), e, n, now))
  {
    hide Without;
    var n := NextSeq(s.lastSeq);
    PoppedIsCoreBut(s, e, n);
    var p := s.(queue := Without(s.queue, e.key), lastSeq := n);
    var s' := MarkSent(p, e, n, now);
    assert RecStaged(s, e);
    forall k | k in s'.entries ensures RecStaged(s', s'.entries[k]) {
      if s.entries[k] != e { assert RecStaged(s, s.entries[k]); }
    }
  }

  predicate HasWork(w: World) {
    w.sink.queue != [] && w.sink.queue[0] in w.sink.heap
  }

  /** What the kernel does with a request is confined to the request's key, and
      its answer tells the truth about that key. */
  lemma KernelEffect(c: Conf, t: Table, k: Key, r: Rec, v: Verdict)
    requires Honest(t, RequestOf(c, k, r), v)
    ensures var (t', code) := KernelDo(t, RequestOf(c, k, r), v);
      && Tells(Own(c, t', k), r, code)
      && (forall x | x != k :: Own(c, t', x) == Own(c, t, x))
      && (forall at: KernelKey | at.key != k || at.table != c.table :: at in t' <==> at in t)
      && (forall at: KernelKey | (at.key != k || at.table != c.table) && at in t :: t'[at] == t[at])
  {
  }

  lemma DeliveredLossless(w: World, w': World, a: Ack)
    requires Lossless(w) && a.seqno == w.sink.lastSeq + 1 == w'.sink.lastSeq
    requires w'.sink.pending.Keys == w.sink.pending.Keys + {a.seqno}
    requires w'.inbox == w.inbox + [a]
    ensures Lossless(w') && |w'.sink.pending| <= |w.sink.pending| + 1
  {
    DeliveredAnswered(w, w', a);
    DeliveredOrdered(w, w', a);
    SubsetIsNoBigger(w'.sink.pending.Keys, w.sink.pending.Keys + {a.seqno});
  }

  lemma DeliveredOrdered(w: World, w': World, a: Ack)
    requires forall i, j :: 0 <= i < j < |w.inbox| ==> w.inbox[i].seqno < w.inbox[j].seqno
    requires forall i :: 0 <= i < |w.inbox| ==> 0 < w.inbox[i].seqno <= w.sink.lastSeq
    requires a.seqno == w.sink.lastSeq + 1 == w'.sink.lastSeq && w'.inbox == w.inbox + [a]
    ensures forall i, j :: 0 <= i < j < |w'.inbox| ==> w'.inbox[i].seqno < w'.inbox[j].seqno
    ensures forall i :: 0 <= i < |w'.inbox| ==> 0 < w'.inbox[i].seqno <= w'.sink.lastSeq
  {
  }

  lemma DeliveredAnswered(w: World, w': World, a: Ack)
    requires forall n | n in w.sink.pending :: exists i :: 0 <= i < |w.inbox| && w.inbox[i].seqno == n
    requires w'.sink.pending.Keys == w.sink.pending.Keys + {a.seqno} && w'.inbox == w.inbox + [a]
    ensures forall n | n in w'.sink.pending :: exists i :: 0 <= i < |w'.inbox| && w'.inbox[i].seqno == n
  {
    forall n | n in w'.sink.pending
      ensures exists i :: 0 <= i < |w'.inbox| && w'.inbox[i].seqno == n
    {
      if n in w.sink.pending {
        var i :| 0 <= i < |w.inbox| && w.inbox[i].seqno == n;
        assert w'.inbox[i].seqno == n;
      } else {
        assert w'.inbox[|w.inbox|].seqno == n;
      }
    }
  }

  /** The one step that changes the kernel: only at the key being written. */
  lemma DeliveredKeeps(c: Conf, w: World, v: Verdict, now: real)
    requires Flow(c, w) && HasWork(w) && w.sink.lastSeq < MAX_SEQ
    requires |w.sink.pending| < c.window
    requires var e := w.sink.queue[0]; Honest(w.table, RequestOf(c, e.key, w.sink.heap[e]), v)
    ensures Flow(c, SendHead(c, w, Delivered(v), now))
  {
    var s := w.sink;
    var e := s.queue[0];
    assert e in s.queue;
    var w' := SendHead(c, w, Delivered(v), now);
    DeliveredShape(s, e, now);
    DeliveredWire(c, w, v, now);
    forall k ensures Knows(c, w', k) {
      assert Knows(c, w, k) && RecStaged(s, e);
      if k in s.entries { assert RecStaged(s, s.entries[k]); }
      DeliveredTells(c, w, v, now, k);
    }
  }

  lemma DeliveredFields(c: Conf, w: World, v: Verdict, now: real) returns (a: Ack)
    requires HasWork(w) && w.sink.lastSeq < MAX_SEQ
    ensures var w' := SendHead(c, w, Delivered(v), now);
      && a.seqno == w.sink.lastSeq + 1 == w'.sink.lastSeq
      && w'.sink.pending == w.sink.pending[a.seqno := w.sink.queue[0]]
      && w'.inbox == w.inbox + [a]
  {
    var n := NextSeq(w.sink.lastSeq);
    var e := w.sink.queue[0];
    a := Ack(n, KernelDo(w.table, RequestOf(c, e.key, w.sink.heap[e]), v).1);
  }

  lemma DeliveredWire(c: Conf, w: World, v: Verdict, now: real)
    requires Lossless(w) && HasWork(w) && w.sink.lastSeq < MAX_SEQ
    ensures var w' := SendHead(c, w, Delivered(v), now);
      Lossless(w') && |w'.sink.pending| <= |w.sink.pending| + 1
  {
    var a := DeliveredFields(c, w, v, now);
    DeliveredLossless(w, SendHead(c, w, Delivered(v), now), a);
  }

  lemma DeliveredTells(c: Conf, w: World, v: Verdict, now: real, k: Key)
    requires HasWork(w) && w.sink.lastSeq < MAX_SEQ && KeyedByEntry(w.sink) && Live(w.sink, w.sink.queue[0])
    requires var e := w.sink.queue[0]; Honest(w.table, RequestOf(c, e.key, w.sink.heap[e]), v)
    requires forall i :: 0 <= i < |w.inbox| ==> w.inbox[i].seqno <= w.sink.lastSeq
    requires k in w.sink.entries ==> w.sink.heap[w.sink.entries[k]].seqno <= w.sink.lastSeq
    requires w.sink.heap[w.sink.queue[0]].kind == Del ==> w.sink.heap[w.sink.queue[0]].written
    requires Knows(c, w, k)
    ensures var w' := SendHead(c, w, Delivered(v), now);
      KeyedByEntry(w'.sink) && Knows(c, w', k)
  {
    hide KernelDo, Honest;
    var e := w.sink.queue[0];
    KernelEffect(c, w.table, e.key, w.sink.heap[e], v);
  }

  lemma SendKeeps(c: Conf, w: World, o: Outcome, now: real)
    requires Flow(c, w) && HasWork(w) && w.sink.lastSeq < MAX_SEQ
    requires |w.sink.pending| < c.window
    requires o.Failed? ==> !AlreadyGone(o.code)
    requires o.Delivered? ==>
      var e := w.sink.queue[0]; Honest(w.table, RequestOf(c, e.key, w.sink.heap[e]), o.verdict)
    ensures Flow(c, SendHead(c, w, o, now))
  {
    match o
    case Blocked => SeqAdvances(c, w, NextSeq(w.sink.lastSeq));
    case Failed(code) => FailedSendKeeps(c, w, code, now);
    case Delivered(v) => DeliveredKeeps(c, w, v, now);
  }

  // ----- acknowledgements -------------------------------------------------------

  /** The oldest answer waiting is the oldest one outstanding for its entry, so
      once an entry's latest request is answered it has nothing in flight. */
  lemma LatestIsLast(w: World, n: nat)
    requires InFlight(w.sink) && Lossless(w) && w.inbox != []
    requires n in w.sink.pending && w.inbox[0].seqno in w.sink.pending
    requires w.sink.pending[n] == w.sink.pending[w.inbox[0].seqno]
    requires w.sink.heap[w.sink.pending[n]].seqno == w.inbox[0].seqno
    ensures n == w.inbox[0].seqno
  {
  }

  /** Taking one answer off the wire, its in-flight record with it. */
  function Taken(w: World): World
    requires w.inbox != []
  {
    World(w.sink.(pending := w.sink.pending - {w.inbox[0].seqno}), w.table, w.inbox[1..])
  }

  lemma TakenLossless(w: World)
    requires Lossless(w) && w.inbox != []
    ensures Lossless(Taken(w))
  {
    var w' := Taken(w);
    forall n | n in w'.sink.pending
      ensures exists i :: 0 <= i < |w'.inbox| && w'.inbox[i].seqno == n
    {
      var i :| 0 <= i < |w.inbox| && w.inbox[i].seqno == n;
      assert w'.inbox[i - 1].seqno == n;
    }
  }

  lemma TakenCore(w: World)
    requires Core(w.sink) && w.inbox != []
    requires var n := w.inbox[0].seqno; n in w.sink.pending ==>
      var r := w.sink.heap[w.sink.pending[n]]; r.seqno != n || r.stage != Sent
    ensures Core(Taken(w).sink)
  {
    var s' := Taken(w).sink;
    forall k | k in s'.entries ensures RecStaged(s', s'.entries[k]) {
      assert RecStaged(w.sink, w.sink.entries[k]);
    }
  }

  /** A reply whose entry has moved on is dropped, and changes nothing else. */
  lemma StaleKeeps(c: Conf, w: World)
    requires Flow(c, w) && w.inbox != []
    requires var n := w.inbox[0].seqno; n in w.sink.pending ==>
      var r := w.sink.heap[w.sink.pending[n]]; r.seqno != n || r.stage != Sent
    ensures Flow(c, Taken(w))
  {
    TakenLossless(w);
    TakenKnows(c, w);
    TakenCore(w);
    SubsetIsNoBigger(Taken(w).sink.pending.Keys, w.sink.pending.Keys);
  }

  lemma TakenKnows(c: Conf, w: World)
    requires Flow(c, w) && w.inbox != []
    ensures forall k :: Knows(c, Taken(w), k)
  {
    var w' := Taken(w);
    forall k ensures Knows(c, w', k) {
      assert Knows(c, w, k);
      assert forall i :: 0 <= i < |w'.inbox| ==> w'.inbox[i] == w.inbox[i + 1];
    }
  }

  lemma AnsweredIsCoreBut(w: World, e: Entry)
    requires Core(w.sink) && Lossless(w) && w.inbox != []
    requires w.inbox[0].seqno in w.sink.pending && w.sink.pending[w.inbox[0].seqno] == e
    requires w.sink.heap[e].seqno == w.inbox[0].seqno && w.sink.heap[e].stage == Sent
    ensures CoreBut(Taken(w).sink, e)
    ensures forall n | n in Taken(w).sink.pending :: Taken(w).sink.pending[n] != e
  {
    var s, s' := w.sink, Taken(w).sink;
    assert RecStaged(s, e);
    forall k | k in s'.entries && s'.entries[k] != e ensures RecStaged(s', s'.entries[k]) {
      assert RecStaged(s, s.entries[k]);
    }
    forall n | n in s'.pending ensures s'.pending[n] != e {
      if s.pending[n] == e { LatestIsLast(w, n); }
    }
  }

  lemma InstalledKeeps(s: Sink, e: Entry)
    requires CoreBut(s, e) && s.heap[e].kind == Add && s.heap[e].written
    requires forall n | n in s.pending :: s.pending[n] != e
    ensures Core(RecordSuccess(s, e))
  {
    var s' := RecordSuccess(s, e);
    forall k | k in s'.entries ensures RecStaged(s', s'.entries[k]) {
      if s.entries[k] != e { assert RecStaged(s, s.entries[k]); }
    }
  }

  lemma DeletedKeeps(s: Sink, e: Entry)
    requires CoreBut(s, e) && s.heap[e].kind == Del
    requires forall n | n in s.pending :: s.pending[n] != e
    ensures Core(RecordSuccess(s, e))
  {
    hide Without;
    var s' := RecordSuccess(s, e);
    forall k | k in s'.entries ensures RecStaged(s', s'.entries[k]) {
      assert RecStaged(s, s.entries[k]);
    }
  }

  predicate Answerable(w: World) {
    w.inbox != [] &&
    var n := w.inbox[0].seqno;
    n in w.sink.pending && w.sink.pending[n] in w.sink.heap &&
    var r := w.sink.heap[w.sink.pending[n]]; r.seqno == n && r.stage == Sent
  }

  lemma AnswerFacts(c: Conf, w: World)
    requires Flow(c, w) && Answerable(w)
    ensures var e, s1 := w.sink.pending[w.inbox[0].seqno], Taken(w).sink;
      && CoreBut(s1, e) && w.sink.heap[e].written
      && (forall n | n in s1.pending :: s1.pending[n] != e)
      && Tells(Own(c, w.table, e.key), w.sink.heap[e], w.inbox[0].code)
      && Lossless(Taken(w)) && (forall k :: Knows(c, Taken(w), k))
      && |s1.pending| <= c.window
  {
    var e := w.sink.pending[w.inbox[0].seqno];
    AnsweredIsCoreBut(w, e);
    TakenLossless(w);
    TakenKnows(c, w);
    SubsetIsNoBigger(Taken(w).sink.pending.Keys, w.sink.pending.Keys);
    assert RecStaged(w.sink, e) && Knows(c, w, e.key);
  }

  /** An answer to an entry's latest request is applied, and truthfully. */
  lemma AnswerKeeps(c: Conf, w: World, now: real)
    requires Flow(c, w) && Answerable(w)
    ensures Flow(c, ReadAck(w, now))
  {
    var e, code := w.sink.pending[w.inbox[0].seqno], w.inbox[0].code;
    AnswerFacts(c, w);
    if w.sink.heap[e].kind == Del && (code == 0 || AlreadyGone(code)) {
      GoneKeeps(c, Taken(w), e);
    } else if code == 0 {
      AddedKeeps(c, Taken(w), e);
    } else {
      RefusedKeeps(c, Taken(w), e, code, now);
    }
  }

  lemma GoneKeeps(c: Conf, w: World, e: Entry)
    requires CoreBut(w.sink, e) && Lossless(w) && w.sink.heap[e].kind == Del
    requires (forall n | n in w.sink.pending :: w.sink.pending[n] != e) && |w.sink.pending| <= c.window
    requires (forall k :: Knows(c, w, k)) && Own(c, w.table, e.key).None?
    ensures Flow(c, w.(sink := RecordSuccess(w.sink, e)))
  {
    var w' := w.(sink := RecordSuccess(w.sink, e));
    DeletedKeeps(w.sink, e);
    AnswerKnows(c, w, w', e);
    SubsetIsNoBigger(w'.sink.pending.Keys, w.sink.pending.Keys);
  }

  lemma AddedKeeps(c: Conf, w: World, e: Entry)
    requires forall n | n in w.sink.pending :: w.sink.pending[n] != e
    requires CoreBut(w.sink, e) && Lossless(w)
    requires w.sink.heap[e].kind == Add && w.sink.heap[e].written && |w.sink.pending| <= c.window
    requires forall k :: Knows(c, w, k)
    requires var own := Own(c, w.table, e.key); own.Some? && Agrees(own.value, w.sink.heap[e].hop)
    ensures Flow(c, w.(sink := RecordSuccess(w.sink, e)))
  {
    var w' := w.(sink := RecordSuccess(w.sink, e));
    InstalledKeeps(w.sink, e);
    AnswerKnows(c, w, w', e);
  }

  lemma SameLossless(w: World, w': World)
    requires Lossless(w) && w'.inbox == w.inbox && w'.sink.lastSeq == w.sink.lastSeq
    requires w'.sink.pending == w.sink.pending
    ensures Lossless(w')
  {
  }

  lemma RefusedKeeps(c: Conf, w: World, e: Entry, code: nat, now: real)
    requires CoreBut(w.sink, e) && Lossless(w) && |w.sink.pending| <= c.window
    requires !(w.sink.heap[e].kind == Del && AlreadyGone(code))
    requires forall k :: Knows(c, w, k)
    ensures Flow(c, w.(sink := RecordError(w.sink, e, code, now)))
  {
    hide RecordError, Knows;
    var w' := w.(sink := RecordError(w.sink, e, code, now));
    ErrorKeeps(w.sink, e, code, now);
    AnswerKnows(c, w, w', e);
    SameLossless(w, w');
  }

  lemma AnswerKnows(c: Conf, w1: World, w': World, e: Entry)
    requires KeyedByEntry(w1.sink) && KeyedByEntry(w'.sink) && Live(w1.sink, e)
    requires forall k :: Knows(c, w1, k)
    requires w'.table == w1.table && w'.inbox == w1.inbox
    requires w'.sink.entries == w1.sink.entries || w'.sink.entries == w1.sink.entries - {e.key}
    requires forall k | k in w'.sink.entries && k != e.key ::
        w'.sink.heap[w'.sink.entries[k]] == w1.sink.heap[w1.sink.entries[k]]
    requires e.key !in w'.sink.entries ==> Own(c, w1.table, e.key).None?
    requires e.key in w'.sink.entries ==>
      var r' := w'.sink.heap[e];
      && r'.written == w1.sink.heap[e].written && r'.stage != Sent
      && (r'.stage == Installed ==>
            var own := Own(c, w1.table, e.key); own.Some? && Agrees(own.value, r'.hop))
    ensures forall k :: Knows(c, w', k)
  {
    forall k ensures Knows(c, w', k) {
      assert Knows(c, w1, k);
    }
  }

  lemma ReplyKeeps(c: Conf, w: World, now: real)
    requires Flow(c, w) && w.inbox != []
    ensures Flow(c, ReadAck(w, now))
  {
    if Answerable(w) {
      AnswerKeeps(c, w, now);
    } else {
      StaleKeeps(c, w);
      StaleIsTaken(w, now);
    }
  }

  /** A reply that does not answer an entry's latest, still awaited request only
      leaves the in-flight map. */
  lemma StaleIsTaken(w: World, now: real)
    requires (forall n | n in w.sink.pending :: w.sink.pending[n] in w.sink.heap)
    requires w.inbox != [] && !Answerable(w)
    ensures ReadAck(w, now) == Taken(w)
  {
    var n := w.inbox[0].seqno;
    if n !in w.sink.pending { assert w.sink.pending - {n} == w.sink.pending; }
  }
}
