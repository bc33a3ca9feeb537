/** Whole runs of the netlink sink: any interleaving of calls, flush phases,
    kernel answers and other owners' route changes. */
module SinkRun {
  import opened Routes
  import opened SinkModel
  import opened SinkInvariant

  datatype Event =
    | Offer(route: Route, made: Entry)                       // install()
    | Drop(prefix: Prefix)                                   // withdraw()
    | Due(entry: Entry)                                      // a retry's backoff expired
    | Late(seqno: nat)                                       // an answer is overdue
    | Write(outcome: Outcome, now: real)                     // one request off the queue
    | Reply(now: real)                                       // one answer read
    | Outside(at: KernelKey, becomes: Option<KernelRoute>)   // another owner's route

  ghost predicate Enabled(c: Conf, w: World, ev: Event) {
    match ev
    case Offer(route, made) => MayAllocate(c, w.sink, route, made)
    case Drop(_) => true
    case Due(e) => e in w.sink.retry
    case Late(n) => n in w.sink.pending
    case Write(o, _) =>
      HasWork(w) && w.sink.lastSeq < MAX_SEQ && |w.sink.pending| < c.window
      && (o.Failed? ==> !AlreadyGone(o.code))
      && (o.Delivered? ==>
            var e := w.sink.queue[0]; Honest(w.table, RequestOf(c, e.key, w.sink.heap[e]), o.verdict))
    case Reply(_) => w.inbox != []
    case Outside(at, r) =>
      !(at in w.table && w.table[at].protocol == c.protocol) && (r.Some? ==> r.value.protocol != c.protocol)
  }

  /** References in the containers have fields. */
  ghost predicate Resolved(s: Sink) {
    && KeyedByEntry(s)
    && (forall n | n in s.pending :: s.pending[n] in s.heap)
    && (forall e | e in s.retry :: e in s.heap)
  }

  ghost function Step(c: Conf, w: World, ev: Event): World
    requires Resolved(w.sink) && Enabled(c, w, ev)
  {
    match ev
    case Offer(route, made) => w.(sink := Install(c, w.sink, route, made))
    case Drop(p) => w.(sink := Withdraw(w.sink, p))
    case Due(e) => w.(sink := Promote(w.sink, e))
    case Late(n) => w.(sink := Expire(w.sink, n))
    case Write(o, now) => SendHead(c, w, o, now)
    case Reply(now) => ReadAck(w, now)
    case Outside(at, r) => w.(table := if r.Some? then w.table[at := r.value] else w.table - {at})
  }

  /** Every step keeps the invariant. */
  lemma StepKeeps(c: Conf, w: World, ev: Event)
    requires Flow(c, w) && Enabled(c, w, ev)
    ensures Flow(c, Step(c, w, ev))
  {
    match ev
    case Offer(route, made) => InstallKeeps(c, w, route, made);
    case Drop(p) => WithdrawKeeps(c, w, p);
    case Due(e) => PromoteKeeps(c, w, e);
    case Late(n) => ExpireKeeps(c, w, n);
    case Write(o, now) => SendKeeps(c, w, o, now);
    case Reply(now) => ReplyKeeps(c, w, now);
    case Outside(at, r) => OutsideKeeps(c, w, at, r);
  }

  /** The index stays exact under every step, whatever the kernel does. */
  lemma StepIndexed(c: Conf, w: World, ev: Event)
    requires Inv(c, w) && Enabled(c, w, ev) && KeyedByEntry(Step(c, w, ev).sink)
    ensures Indexed(Step(c, w, ev).sink)
  {
    match ev
    case Offer(route, made) => InstallIndexed(c, w.sink, route, made);
    case Drop(p) => WithdrawIndexed(w.sink, p);
    case Due(e) => SameKindsSameIndex(w.sink, Promote(w.sink, e));
    case Late(n) => SameKindsSameIndex(w.sink, Expire(w.sink, n));
    case Write(o, now) => WriteIndexed(c, w, o, now);
    case Reply(now) => ReplyIndexed(w, now);
    case Outside(_, _) =>
  }

  lemma WriteIndexed(c: Conf, w: World, o: Outcome, now: real)
    requires KeyedByEntry(w.sink) && Indexed(w.sink) && HasWork(w) && Live(w.sink, w.sink.queue[0])
    requires o.Failed? ==> !AlreadyGone(o.code)
    requires KeyedByEntry(SendHead(c, w, o, now).sink)
    ensures Indexed(SendHead(c, w, o, now).sink)
  {
    SameKindsSameIndex(w.sink, SendHead(c, w, o, now).sink);
  }

  lemma ReplyIndexed(w: World, now: real)
    requires KeyedByEntry(w.sink) && InFlight(w.sink) && Indexed(w.sink) && w.inbox != []
    requires KeyedByEntry(ReadAck(w, now).sink)
    ensures Indexed(ReadAck(w, now).sink)
  {
    var s, s' := w.sink, ReadAck(w, now).sink;
    if w.inbox[0].seqno in s.pending {
      var e := s.pending[w.inbox[0].seqno];
      HandleShape(s, w.inbox[0].seqno, w.inbox[0].code, now);
      if s'.entries == s.entries {
        SameKindsSameIndex(s, s');
      } else {
        assert AddIffOccupied(s, e.key);
        forall q ensures OccupiesOwn(s', q) { assert OccupiesOwn(s, q); }
        forall x ensures AddIffOccupied(s', x) { assert AddIffOccupied(s, x); }
      }
    } else {
      SameKindsSameIndex(s, s');
    }
  }

  lemma {:induction false} RunIndexed(c: Conf, w: World, evs: seq<Event>)
    requires Inv(c, w) && Legal(c, w, evs)
    ensures Inv(c, After(c, w, evs))
    decreases |evs|
  {
    if evs != [] {
      StepIndexed(c, w, evs[0]);
      RunIndexed(c, Next(c, w, evs[0]), evs[1..]);
    }
  }

  ghost function Next(c: Conf, w: World, ev: Event): (w': World)
    requires Flow(c, w) && Enabled(c, w, ev)
    ensures Flow(c, w')
  {
    StepKeeps(c, w, ev);
    Step(c, w, ev)
  }

  lemma OutsideKeeps(c: Conf, w: World, at: KernelKey, r: Option<KernelRoute>)
    requires Flow(c, w) && Enabled(c, w, Outside(at, r))
    ensures Flow(c, w.(table := if r.Some? then w.table[at := r.value] else w.table - {at}))
  {
    var w' := w.(table := if r.Some? then w.table[at := r.value] else w.table - {at});
    forall k ensures Knows(c, w', k) {
      assert Knows(c, w, k);
      assert Own(c, w'.table, k) == Own(c, w.table, k);
    }
  }

  ghost predicate Legal(c: Conf, w: World, evs: seq<Event>)
    requires Flow(c, w)
    decreases |evs|
  {
    evs == [] || (Enabled(c, w, evs[0]) && Legal(c, Next(c, w, evs[0]), evs[1..]))
  }

  ghost function After(c: Conf, w: World, evs: seq<Event>): (w': World)
    requires Flow(c, w) && Legal(c, w, evs)
    ensures Flow(c, w')
    decreases |evs|
  {
    if evs == [] then w else After(c, Next(c, w, evs[0]), evs[1..])
  }

  lemma {:induction false} RunExtends(c: Conf, w: World, evs: seq<Event>, ev: Event)
    requires Flow(c, w) && Legal(c, w, evs) && Enabled(c, After(c, w, evs), ev)
    ensures Legal(c, w, evs + [ev]) && After(c, w, evs + [ev]) == Next(c, After(c, w, evs), ev)
    decreases |evs|
  {
    hide Flow, Enabled, Step;
    if evs == [] {
      assert evs + [ev] == [ev];
    } else {
      RunExtends(c, Next(c, w, evs[0]), evs[1..], ev);
      assert (evs + [ev])[1..] == evs[1..] + [ev];
    }
  }

  // ----- what the callers asked for -------------------------------------------

  /** `NullSink.routes` after one more call. */
  function NullAfter(m: map<Prefix, Route>, ev: Event): map<Prefix, Route> {
    match ev
    case Offer(route, _) => m[route.prefix := route]
    case Drop(p) => m - {p}
    case _ => m
  }

  function NullRoutes(evs: seq<Event>): map<Prefix, Route> {
    if evs == [] then map[] else NullAfter(NullRoutes(evs[..|evs| - 1]), evs[|evs| - 1])
  }

  /** The last expressible install per prefix not since withdrawn. */
  function WantedAfter(c: Conf, m: map<Prefix, Target>, ev: Event): map<Prefix, Target> {
    match ev
    case Offer(route, _) => if Expressible(c, route) then m[route.prefix := Attrs(c, route).value] else m
    case Drop(p) => m - {p}
    case _ => m
  }

  function WantedFrom(c: Conf, m: map<Prefix, Target>, evs: seq<Event>): map<Prefix, Target> {
    if evs == [] then m else WantedAfter(c, WantedFrom(c, m, evs[..|evs| - 1]), evs[|evs| - 1])
  }

  /** The sink's index and entries say exactly what is wanted. */
  ghost predicate Tracks(s: Sink, wanted: map<Prefix, Target>)
    requires KeyedByEntry(s)
  {
    s.prefixKey.Keys == wanted.Keys && forall p :: TracksAt(s, wanted, p)
  }

  ghost predicate TracksAt(s: Sink, wanted: map<Prefix, Target>, p: Prefix)
    requires KeyedByEntry(s) && s.prefixKey.Keys == wanted.Keys
  {
    p in wanted ==>
      var k := Key(p, wanted[p].priority);
      s.prefixKey[p] == k && k in s.entries && s.heap[s.entries[k]].hop == wanted[p].hop
  }

  lemma OfferTracks(c: Conf, s: Sink, route: Route, made: Entry, wanted: map<Prefix, Target>)
    requires Core(s) && Indexed(s) && MayAllocate(c, s, route, made) && Expressible(c, route)
    requires Tracks(s, wanted) && KeyedByEntry(Install(c, s, route, made))
    ensures Tracks(Install(c, s, route, made), wanted[route.prefix := Attrs(c, route).value])
  {
    var s' := Install(c, s, route, made);
    var wanted' := wanted[route.prefix := Attrs(c, route).value];
    InstallEffect(c, s, route, made);
    assert s'.prefixKey.Keys == wanted'.Keys;
    forall q ensures TracksAt(s', wanted', q) {
      assert TracksAt(s, wanted, q) && OccupiesOwn(s, q) && OccupiesOwn(s, route.prefix);
    }
  }

  lemma DropTracks(s: Sink, p: Prefix, wanted: map<Prefix, Target>)
    requires Core(s) && Indexed(s) && Tracks(s, wanted) && KeyedByEntry(Withdraw(s, p))
    ensures Tracks(Withdraw(s, p), wanted - {p})
  {
    forall q ensures TracksAt(Withdraw(s, p), wanted - {p}, q) {
      assert TracksAt(s, wanted, q) && OccupiesOwn(s, p);
    }
  }

  /** Steps that keep every add and its hop keep what is tracked. */
  lemma SameAddsTrack(s: Sink, s': Sink, wanted: map<Prefix, Target>)
    requires KeyedByEntry(s) && KeyedByEntry(s') && Indexed(s) && Tracks(s, wanted)
    requires s'.prefixKey == s.prefixKey
    requires forall k | k in s.entries && s.heap[s.entries[k]].kind == Add ::
      k in s'.entries && s'.heap[s'.entries[k]].hop == s.heap[s.entries[k]].hop
    ensures Tracks(s', wanted)
  {
    forall p ensures TracksAt(s', wanted, p) {
      assert TracksAt(s, wanted, p);
      if p in wanted { assert AddIffOccupied(s, s.prefixKey[p]); }
    }
  }

  lemma StepTracks(c: Conf, w: World, ev: Event, wanted: map<Prefix, Target>)
    requires Inv(c, w) && Enabled(c, w, ev) && Tracks(w.sink, wanted)
    requires KeyedByEntry(Step(c, w, ev).sink)
    ensures Tracks(Step(c, w, ev).sink, WantedAfter(c, wanted, ev))
  {
    match ev
    case Offer(route, made) => if Expressible(c, route) { OfferTracks(c, w.sink, route, made, wanted); }
    case Drop(p) => DropTracks(w.sink, p, wanted);
    case Due(e) => PromoteTracks(w.sink, e, wanted);
    case Late(n) => ExpireTracks(w.sink, n, wanted);
    case Write(o, now) =>
      assert w.sink.queue[0] in w.sink.queue;
      WriteTracks(c, w, o, now, wanted);
    case Reply(now) => ReplyTracks(w, now, wanted);
    case Outside(_, _) =>
  }

  lemma PromoteTracks(s: Sink, e: Entry, wanted: map<Prefix, Target>)
    requires KeyedByEntry(s) && Indexed(s) && Tracks(s, wanted) && e in s.heap
    ensures KeyedByEntry(Promote(s, e)) && Tracks(Promote(s, e), wanted)
  {
    SameAddsTrack(s, Promote(s, e), wanted);
  }

  lemma ExpireTracks(s: Sink, n: nat, wanted: map<Prefix, Target>)
    requires KeyedByEntry(s) && Indexed(s) && Tracks(s, wanted) && n in s.pending && s.pending[n] in s.heap
    ensures KeyedByEntry(Expire(s, n)) && Tracks(Expire(s, n), wanted)
  {
    SameAddsTrack(s, Expire(s, n), wanted);
  }

  lemma WriteTracks(c: Conf, w: World, o: Outcome, now: real, wanted: map<Prefix, Target>)
    requires KeyedByEntry(w.sink) && Indexed(w.sink) && HasWork(w) && Live(w.sink, w.sink.queue[0])
    requires o.Failed? ==> !AlreadyGone(o.code)
    requires Tracks(w.sink, wanted) && KeyedByEntry(SendHead(c, w, o, now).sink)
    ensures Tracks(SendHead(c, w, o, now).sink, wanted)
  {
    hide Without, Put, Tracks, Indexed;
    SameAddsTrack(w.sink, SendHead(c, w, o, now).sink, wanted);
  }

  lemma ReplyTracks(w: World, now: real, wanted: map<Prefix, Target>)
    requires KeyedByEntry(w.sink) && InFlight(w.sink) && Indexed(w.sink) && w.inbox != [] && Tracks(w.sink, wanted)
    requires KeyedByEntry(ReadAck(w, now).sink)
    ensures Tracks(ReadAck(w, now).sink, wanted)
  {
    ReplyEffect(w, now);
    SameAddsTrack(w.sink, ReadAck(w, now).sink, wanted);
  }

  /** An answer changes no add's hop and forgets no add. */
  lemma ReplyEffect(w: World, now: real)
    requires KeyedByEntry(w.sink) && InFlight(w.sink) && w.inbox != []
    ensures var s, s' := w.sink, ReadAck(w, now).sink;
      && s'.prefixKey == s.prefixKey && KeyedByEntry(s')
      && (forall k | k in s.entries && s.heap[s.entries[k]].kind == Add ::
           k in s'.entries && s'.entries[k] == s.entries[k] && s'.heap[s'.entries[k]].hop == s.heap[s.entries[k]].hop)
  {
    if w.inbox[0].seqno in w.sink.pending { HandleShape(w.sink, w.inbox[0].seqno, w.inbox[0].code, now); }
  }

  lemma HandleShape(s: Sink, n: nat, code: nat, now: real)
    requires InFlight(s) && n in s.pending
    ensures var e, s' := s.pending[n], Handle(s, n, code, now);
      && s'.prefixKey == s.prefixKey
      && (s'.entries == s.entries || (s.heap[e].kind == Del && s'.entries == s.entries - {e.key}))
      && e in s'.heap && s'.heap == s.heap[e := s'.heap[e]] && s'.heap[e].hop == s.heap[e].hop
          && s'.heap[e].kind == s.heap[e].kind
  {
  }

  lemma {:induction false} RunTracks(c: Conf, w: World, evs: seq<Event>, wanted: map<Prefix, Target>)
    requires Inv(c, w) && Legal(c, w, evs) && Tracks(w.sink, wanted)
    ensures Tracks(After(c, w, evs).sink, WantedFrom(c, wanted, evs))
    decreases |evs|
  {
    if evs != [] {
      StepTracks(c, w, evs[0], wanted);
      StepIndexed(c, w, evs[0]);
      RunTracks(c, Next(c, w, evs[0]), evs[1..], WantedAfter(c, wanted, evs[0]));
      WantedShift(c, wanted, evs);
    }
  }

  lemma {:induction false} WantedShift(c: Conf, m: map<Prefix, Target>, evs: seq<Event>)
    requires evs != []
    ensures WantedFrom(c, m, evs) == WantedFrom(c, WantedAfter(c, m, evs[0]), evs[1..])
    decreases |evs|
  {
    if |evs| == 1 {
      assert evs[..0] == [] && evs[1..] == [];
    } else {
      var front := evs[..|evs| - 1];
      WantedShift(c, m, front);
      assert front[1..] == evs[1..][..|evs| - 2];
    }
  }

  // ----- quiescence -------------------------------------------------------------

  predicate Idle(s: Sink) {
    s.queue == [] && s.pending == map[] && s.retry == []
  }

  /** Our routes in our table are exactly `wanted`. */
  ghost predicate KernelHolds(c: Conf, t: Table, wanted: map<Prefix, Target>) {
    forall k :: HoldsAt(c, t, wanted, k)
  }

  ghost predicate HoldsAt(c: Conf, t: Table, wanted: map<Prefix, Target>, k: Key) {
    var own := Own(c, t, k);
    && (own.Some? <==> k.prefix in wanted && wanted[k.prefix].priority == k.priority)
    && (own.Some? ==> Agrees(own.value, wanted[k.prefix].hop))
  }

  /** With nothing queued, in flight or awaiting a retry, the kernel's routes of
      ours are exactly the wanted ones. */
  lemma IdleMeansWanted(c: Conf, w: World, wanted: map<Prefix, Target>)
    requires Inv(c, w) && Tracks(w.sink, wanted) && Idle(w.sink)
    ensures KernelHolds(c, w.table, wanted)
  {
    var s := w.sink;
    forall k ensures HoldsAt(c, w.table, wanted, k) {
      assert Knows(c, w, k) && OccupiesOwn(s, k.prefix) && AddIffOccupied(s, k) && TracksAt(s, wanted, k.prefix);
      if k in s.entries {
        assert RecStaged(s, s.entries[k]);
      }
    }
  }

  /** A new sink, or one shut down with no retry left. */
  predicate Blank(s: Sink) {
    s.entries == map[] && s.queue == [] && s.pending == map[] && s.retry == [] && s.prefixKey == map[]
  }

  /** Such a sink, and a kernel with no route of ours in our table. */
  ghost predicate Fresh(c: Conf, w: World) {
    Blank(w.sink) && w.inbox == [] && forall k :: Own(c, w.table, k).None?
  }

  lemma FreshInv(c: Conf, w: World)
    requires Fresh(c, w)
    ensures Inv(c, w) && Tracks(w.sink, map[])
  {
    forall k ensures Knows(c, w, k) {
      assert Own(c, w.table, k).None?;
    }
    forall p ensures OccupiesOwn(w.sink, p) {}
    forall k ensures AddIffOccupied(w.sink, k) {}
    forall p ensures TracksAt(w.sink, map[], p) {}
  }

  /** The refinement: from such a sink, after any interleaving of installs,
      withdrawals, retries, overdue answers, refused or failed requests and
      other owners' changes, an idle sink has made the kernel hold exactly the
      last expressible install of each prefix not since withdrawn. */
  lemma QuiescenceRefinement(c: Conf, w: World, evs: seq<Event>)
    requires Fresh(c, w)
    requires Inv(c, w) && Legal(c, w, evs) && Idle(After(c, w, evs).sink)
    ensures KernelHolds(c, After(c, w, evs).table, WantedFrom(c, map[], evs))
  {
    FreshInv(c, w);
    RunTracks(c, w, evs, map[]);
    RunIndexed(c, w, evs);
    IdleMeansWanted(c, After(c, w, evs), WantedFrom(c, map[], evs));
  }

  // ----- what that means for one destination -----------------------------------------

  /** A next hop a kernel route of its destination's family can carry. */
  predicate Fits(r: Route) {
    r.nexthop == [] || |r.nexthop| == (if r.prefix.afi == Ipv4 then 4 else 16)
  }

  predicate OffersAt(ev: Event, p: Prefix) {
    ev.Offer? && ev.route.prefix == p && Fits(ev.route)
  }

  /** From `i` on no call says anything new about a destination. */
  predicate SettledFrom(evs: seq<Event>, p: Prefix, i: nat) {
    forall j :: i <= j < |evs| ==> !OffersAt(evs[j], p) && evs[j] != Drop(p)
  }

  lemma {:induction false} LastOfferIsWanted(c: Conf, evs: seq<Event>, p: Prefix, i: nat)
    requires i < |evs| && OffersAt(evs[i], p) && SettledFrom(evs, p, i + 1)
    ensures var r, wanted := evs[i].route, WantedFrom(c, map[], evs);
      p in wanted && wanted[p] == Target(PriorityFor(c, r), HopOf(c, r))
  {
    var front, last := evs[..|evs| - 1], evs[|evs| - 1];
    if i < |evs| - 1 {
      assert evs[i] == front[i];
      assert forall j :: 0 <= j < |front| ==> front[j] == evs[j];
      LastOfferIsWanted(c, front, p, i);
      assert !OffersAt(last, p);
    }
    assert WantedFrom(c, map[], evs) == WantedAfter(c, WantedFrom(c, map[], front), last);
  }

  lemma {:induction false} LastDropIsUnwanted(c: Conf, evs: seq<Event>, p: Prefix, i: nat)
    requires i <= |evs| && (i == 0 || evs[i - 1] == Drop(p))
    requires forall j :: i <= j < |evs| ==> !OffersAt(evs[j], p)
    ensures p !in WantedFrom(c, map[], evs)
  {
    if evs != [] {
      var front, last := evs[..|evs| - 1], evs[|evs| - 1];
      if i < |evs| {
        assert i > 0 ==> front[i - 1] == evs[i - 1];
        assert forall j :: 0 <= j < |front| ==> front[j] == evs[j];
        LastDropIsUnwanted(c, front, p, i);
        assert !OffersAt(last, p);
      }
      assert WantedFrom(c, map[], evs) == WantedAfter(c, WantedFrom(c, map[], front), last);
    }
  }

  /** The kernel has a route of ours for that destination at just one priority: the
      one configured for its administrative distance, or the default, in 32 bits.
      Its gateway is the next hop, or none when that is all zeros. */
  ghost predicate HoldsRoute(c: Conf, t: Table, r: Route) {
    var priority := (if r.distance in c.priorities then c.priorities[r.distance] else c.fallback) % 0x1_0000_0000;
    && (forall k: Key | k.prefix == r.prefix ::
        OursAt(c, t, k) <==> k.priority == priority)
    && var at := KernelKey(c.table, Key(r.prefix, priority));
      && at in t
      && t[at].gateway == (if forall b | b in r.nexthop :: b == 0 then [] else r.nexthop)
      && (t[at].oif == c.oif(r) % 0x1_0000_0000 || t[at].oif == 0 || c.oif(r) % 0x1_0000_0000 == 0)
  }

  predicate OursAt(c: Conf, t: Table, k: Key) {
    KernelKey(c.table, k) in t && t[KernelKey(c.table, k)].protocol == c.protocol
  }

  /** An idle sink's last route for a destination is in the kernel. */
  lemma OfferedIsHeld(c: Conf, w: World, evs: seq<Event>, p: Prefix, i: nat)
    requires Fresh(c, w) && Inv(c, w) && Legal(c, w, evs) && Idle(After(c, w, evs).sink)
    requires i < |evs| && OffersAt(evs[i], p) && SettledFrom(evs, p, i + 1)
    ensures HoldsRoute(c, After(c, w, evs).table, evs[i].route)
  {
    hide Flow, Legal, After, WantedFrom, Idle, Fresh, Indexed, HoldsRoute;
    QuiescenceRefinement(c, w, evs);
    LastOfferIsWanted(c, evs, p, i);
    WantedIsHeld(c, After(c, w, evs).table, WantedFrom(c, map[], evs), evs[i].route);
  }

  lemma WantedIsHeld(c: Conf, t: Table, wanted: map<Prefix, Target>, r: Route)
    requires KernelHolds(c, t, wanted) && Fits(r)
    requires r.prefix in wanted && wanted[r.prefix] == Target(PriorityFor(c, r), HopOf(c, r))
    ensures HoldsRoute(c, t, r)
  {
    forall k: Key | k.prefix == r.prefix ensures HoldsAt(c, t, wanted, k) {}
    assert HoldsAt(c, t, wanted, Key(r.prefix, PriorityFor(c, r)));
    AllZeros(r);
  }

  lemma AllZeros(r: Route)
    requires Fits(r)
    ensures var zeros := seq(AddrWidth(r.prefix.afi), _ => 0);
      (if forall b | b in r.nexthop :: b == 0 then [] else r.nexthop) == (if r.nexthop == zeros then [] else r.nexthop)
  {
    var zeros := seq(AddrWidth(r.prefix.afi), _ => 0);
    if r.nexthop != [] && forall b | b in r.nexthop :: b == 0 {
      assert forall i :: 0 <= i < |r.nexthop| ==> r.nexthop[i] in r.nexthop;
      assert r.nexthop == zeros;
    }
  }

  /** And for a destination withdrawn, or never offered, it has none of ours. */
  lemma DroppedIsGone(c: Conf, w: World, evs: seq<Event>, p: Prefix, i: nat)
    requires Fresh(c, w) && Inv(c, w) && Legal(c, w, evs) && Idle(After(c, w, evs).sink)
    requires i <= |evs| && (i == 0 || evs[i - 1] == Drop(p))
    requires forall j :: i <= j < |evs| ==> !OffersAt(evs[j], p)
    ensures forall k: Key | k.prefix == p :: !OursAt(c, After(c, w, evs).table, k)
  {
    hide Flow, Legal, After, WantedFrom, Idle, Fresh, Indexed;
    QuiescenceRefinement(c, w, evs);
    LastDropIsUnwanted(c, evs, p, i);
    forall k: Key | k.prefix == p ensures !OursAt(c, After(c, w, evs).table, k) {
      assert HoldsAt(c, After(c, w, evs).table, WantedFrom(c, map[], evs), k);
    }
  }

  /** The kernel's routes of ours are the recorded ones: one at each recorded
      route's prefix and priority, by its next hop, and no other. */
  ghost predicate KernelMirrors(c: Conf, t: Table, recorded: map<Prefix, Route>) {
    forall k :: MirrorsAt(c, t, recorded, k)
  }

  ghost predicate MirrorsAt(c: Conf, t: Table, recorded: map<Prefix, Route>, k: Key) {
    var own := Own(c, t, k);
    && (own.Some? <==> k.prefix in recorded && PriorityFor(c, recorded[k.prefix]) == k.priority)
    && (own.Some? ==> Agrees(own.value, HopOf(c, recorded[k.prefix])))
  }

  /** A gateway is empty or as wide as an address of its family. */
  predicate WideAsItsFamily(p: Prefix, gateway: seq<Byte>) {
    gateway == [] || |gateway| == AddrWidth(p.afi)
  }

  /** What is wanted has a gateway of the right width; what is recorded, its own
      prefix. */
  lemma {:induction false} WantedWidth(c: Conf, evs: seq<Event>)
    ensures var recorded, wanted := NullRoutes(evs), WantedFrom(c, map[], evs);
      && (forall p | p in wanted :: WideAsItsFamily(p, wanted[p].hop.gateway))
      && (forall p | p in recorded :: recorded[p].prefix == p)
  {
    if evs != [] {
      var front, ev := evs[..|evs| - 1], evs[|evs| - 1];
      WantedWidth(c, front);
      assert NullRoutes(evs) == NullAfter(NullRoutes(front), ev);
      assert WantedFrom(c, map[], evs) == WantedAfter(c, WantedFrom(c, map[], front), ev);
      WantedStaysWide(c, WantedFrom(c, map[], front), ev);
    }
  }

  lemma WantedStaysWide(c: Conf, m: map<Prefix, Target>, ev: Event)
    requires forall p | p in m :: WideAsItsFamily(p, m[p].hop.gateway)
    ensures forall p | p in WantedAfter(c, m, ev) :: WideAsItsFamily(p, WantedAfter(c, m, ev)[p].hop.gateway)
  {
  }

  /** Where the trivial sink's record of a prefix is expressible, it is what is
      wanted; a prefix it does not record is not wanted. */
  lemma {:induction false} WantedMatchesNull(c: Conf, evs: seq<Event>)
    ensures var recorded, wanted := NullRoutes(evs), WantedFrom(c, map[], evs);
      && wanted.Keys <= recorded.Keys
      && (forall p | p in recorded && Expressible(c, recorded[p]) ::
          p in wanted && wanted[p] == Attrs(c, recorded[p]).value)
  {
    if evs != [] {
      WantedMatchesNull(c, evs[..|evs| - 1]);
    }
  }

  /** The netlink sink, idle, mirrors `NullSink.routes` for the same calls exactly
      when every route that sink records has an expressible next hop: an
      inexpressible one withdraws nothing the kernel already holds. */
  lemma MirrorsNullSinkIff(c: Conf, w: World, evs: seq<Event>)
    requires Fresh(c, w)
    requires Inv(c, w) && Legal(c, w, evs) && Idle(After(c, w, evs).sink)
    ensures KernelMirrors(c, After(c, w, evs).table, NullRoutes(evs)) <==>
            forall p | p in NullRoutes(evs) :: Expressible(c, NullRoutes(evs)[p])
  {
    var t, recorded, wanted := After(c, w, evs).table, NullRoutes(evs), WantedFrom(c, map[], evs);
    hide Flow, Enabled, Step, Indexed, Fresh, Idle, After, Legal, NullRoutes, WantedFrom;
    QuiescenceRefinement(c, w, evs);
    WantedMatchesNull(c, evs);
    WantedWidth(c, evs);
    if forall p | p in recorded :: Expressible(c, recorded[p]) {
      ExpressibleMirrors(c, t, recorded, wanted);
    }
    if KernelMirrors(c, t, recorded) {
      forall p | p in recorded ensures Expressible(c, recorded[p]) {
        MirroredIsExpressible(c, t, recorded, wanted, p);
      }
    }
  }

  lemma ExpressibleMirrors(c: Conf, t: Table, recorded: map<Prefix, Route>, wanted: map<Prefix, Target>)
    requires KernelHolds(c, t, wanted) && wanted.Keys <= recorded.Keys
    requires forall p | p in recorded :: p in wanted && Attrs(c, recorded[p]) == Some(wanted[p])
    ensures KernelMirrors(c, t, recorded)
  {
    hide Own, Agrees, PriorityFor;
    forall k ensures MirrorsAt(c, t, recorded, k) {
      assert HoldsAt(c, t, wanted, k);
      if k.prefix in recorded { AttrsParts(c, recorded[k.prefix]); }
    }
  }

  lemma AttrsParts(c: Conf, r: Route)
    ensures Expressible(c, r) ==> Attrs(c, r).value == Target(PriorityFor(c, r), HopOf(c, r))
  {
  }

  /** A route in the kernel has a gateway of its family's width, so what it mirrors
      is expressible. */
  lemma MirroredIsExpressible(c: Conf, t: Table, recorded: map<Prefix, Route>, wanted: map<Prefix, Target>, p: Prefix)
    requires KernelMirrors(c, t, recorded) && KernelHolds(c, t, wanted) && p in recorded && recorded[p].prefix == p
    requires forall q | q in wanted :: WideAsItsFamily(q, wanted[q].hop.gateway)
    ensures Expressible(c, recorded[p])
  {
    hide Own, PriorityFor;
    var k := Key(p, PriorityFor(c, recorded[p]));
    assert MirrorsAt(c, t, recorded, k) && HoldsAt(c, t, wanted, k);
  }

  lemma OfferIsIgnored(c: Conf, w: World, route: Route, made: Entry)
    requires Flow(c, w) && !Expressible(c, route)
    ensures Enabled(c, w, Offer(route, made)) && Next(c, w, Offer(route, made)) == w
  {
    hide Flow;
    FlowIsResolved(c, w);
  }

  /** For instance: once idle, offer a next hop no kernel route can express.  The sink
      and the kernel, with whatever route the prefix had, stay as they were. */
  lemma InexpressibleWithdrawsNothing(c: Conf, w: World, evs: seq<Event>, route: Route, made: Entry)
    requires Fresh(c, w) && !Expressible(c, route)
    requires Inv(c, w) && Legal(c, w, evs) && Idle(After(c, w, evs).sink)
    ensures var more := evs + [Offer(route, made)];
      && Legal(c, w, more) && After(c, w, more) == After(c, w, evs)
      && !KernelMirrors(c, After(c, w, evs).table, NullRoutes(more))
  {
    hide Flow, Idle, Fresh, KernelMirrors, Indexed, Step, Enabled, Expressible, Legal, After, Next;
    var more := evs + [Offer(route, made)];
    OfferIsIgnored(c, After(c, w, evs), route, made);
    RunExtends(c, w, evs, Offer(route, made));
    MirrorsNullSinkIff(c, w, more);
    assert more[..|more| - 1] == evs && more[|more| - 1] == Offer(route, made);
    assert NullRoutes(more) == NullAfter(NullRoutes(evs), Offer(route, made));
    assert NullRoutes(more)[route.prefix] == route;
  }

  // ----- the containers -----------------------------------------------------------

  /** An entry's latest request is in flight and its answer will be applied. */
  predicate AwaitsAnswer(s: Sink, e: Entry)
    requires e in s.heap
  {
    s.heap[e].stage == Sent && s.heap[e].seqno in s.pending && s.pending[s.heap[e].seqno] == e
  }

  /** On every reachable state an entry is in exactly one of the queue, the retry
      map, the in-flight map (for its latest request) and the installed set; it
      is an add exactly when its prefix occupies its key; and the window holds. */
  lemma ExactlyOnePlace(c: Conf, w: World, evs: seq<Event>, k: Key)
    requires Inv(c, w) && Legal(c, w, evs) && k in After(c, w, evs).sink.entries
    ensures var s := After(c, w, evs).sink;
      var e := s.entries[k];
      && e in s.heap
      && var places := [e in s.queue, e in s.retry, AwaitsAnswer(s, e), s.heap[e].stage == Installed];
      && (exists i :: 0 <= i < 4 && places[i])
      && (forall i, j :: 0 <= i < j < 4 ==> !(places[i] && places[j]))
      && (s.heap[e].kind == Add <==> k.prefix in s.prefixKey && s.prefixKey[k.prefix] == k)
      && (s.heap[e].stage == Installed ==> forall n | n in s.pending :: s.pending[n] != e)
      && |s.pending| <= c.window
  {
    var s := After(c, w, evs).sink;
    var e := s.entries[k];
    var places := [e in s.queue, e in s.retry, AwaitsAnswer(s, e), s.heap[e].stage == Installed];
    RunIndexed(c, w, evs);
    assert RecStaged(s, e) && AddIffOccupied(s, k);
    assert places[0] || places[1] || places[2] || places[3];
  }

  /** An answer does more than leave the in-flight map exactly when it answers its
      entry's latest request and that is still awaited: a stale one never
      overwrites a newer intention. */
  lemma AnswerAppliedIff(c: Conf, w: World, evs: seq<Event>, now: real)
    requires Inv(c, w) && Legal(c, w, evs) && After(c, w, evs).inbox != []
    ensures var s, n := After(c, w, evs).sink, After(c, w, evs).inbox[0].seqno;
      && Resolved(s)
      && (ReadAck(After(c, w, evs), now).sink != s.(pending := s.pending - {n})
          <==> n in s.pending && s.heap[s.pending[n]].seqno == n && AwaitsAnswer(s, s.pending[n]))
  {
    hide Without, Put, Flow, Legal, After;
    var w' := After(c, w, evs);
    AppliedIff(c, w', now);
  }

  lemma FlowIsResolved(c: Conf, w: World)
    requires Flow(c, w)
    ensures Resolved(w.sink)
  {
  }

  lemma AppliedIff(c: Conf, w: World, now: real)
    requires Flow(c, w) && w.inbox != []
    ensures var s, n := w.sink, w.inbox[0].seqno;
      && Resolved(s)
      && (ReadAck(w, now).sink != s.(pending := s.pending - {n})
          <==> n in s.pending && s.heap[s.pending[n]].seqno == n && AwaitsAnswer(s, s.pending[n]))
  {
    hide Without, Put, Handle, Staged, Lossless, Knows;
    var s, n := w.sink, w.inbox[0].seqno;
    FlowIsResolved(c, w);
    if n in s.pending {
      assert Live(s, s.pending[n]);
      HandleMoves(s, n, w.inbox[0].code, now);
    } else {
      assert s.pending - {n} == s.pending;
      HandleUnknown(s, n, w.inbox[0].code, now);
    }
  }

  lemma HandleMoves(s: Sink, n: nat, code: nat, now: real)
    requires n in s.pending && Live(s, s.pending[n]) && forall m | m in s.pending :: s.pending[m] in s.heap
    ensures var e, s' := s.pending[n], Handle(s, n, code, now);
      if s.heap[e].seqno == n && s.heap[e].stage == Sent
      then s'.entries != s.entries || (e in s'.heap && s'.heap[e].stage != Sent)
      else s' == s.(pending := s.pending - {n})
  {
    hide Without, Put, BackoffDelay;
  }

  lemma HandleUnknown(s: Sink, n: nat, code: nat, now: real)
    requires n !in s.pending && forall m | m in s.pending :: s.pending[m] in s.heap
    ensures Handle(s, n, code, now) == s
  {
  }

  // ----- other owners ---------------------------------------------------------------

  predicate ForeignAt(c: Conf, t: Table, at: KernelKey) {
    at in t && t[at].protocol != c.protocol
  }

  /** The kernel accepts an add of ours at that very identity. */
  predicate Replaces(c: Conf, w: World, ev: Event, at: KernelKey) {
    ev.Write? && ev.outcome.Delivered? && ev.outcome.verdict.Accept? && HasWork(w) &&
    var e := w.sink.queue[0];
    w.sink.heap[e].kind == Add && at == KernelKey(c.table, e.key)
  }

  /** At some point of a run it does. */
  ghost predicate Replaced(c: Conf, w: World, evs: seq<Event>, at: KernelKey)
    requires Flow(c, w) && Legal(c, w, evs)
    decreases |evs|
  {
    evs != [] && (Replaces(c, w, evs[0], at) || Replaced(c, Next(c, w, evs[0]), evs[1..], at))
  }

  /** Its own owner does not touch it during the run. */
  predicate OwnerLeaves(evs: seq<Event>, at: KernelKey) {
    forall i :: 0 <= i < |evs| ==> !(evs[i].Outside? && evs[i].at == at)
  }

  lemma StepOnForeign(c: Conf, w: World, ev: Event, at: KernelKey)
    requires Resolved(w.sink) && Enabled(c, w, ev) && !(ev.Outside? && ev.at == at)
    ensures var t, t' := w.table, Step(c, w, ev).table;
      && (Replaces(c, w, ev, at) ==> at in t' && t'[at].protocol == c.protocol)
      && (ForeignAt(c, t, at) && !Replaces(c, w, ev, at) ==> at in t' && t'[at] == t[at])
      && (!ForeignAt(c, t, at) ==> !ForeignAt(c, t', at))
  {
    hide Install, Withdraw, Promote, Expire, Handle;
    if ev.Write? && ev.outcome.Delivered? {
      var e := w.sink.queue[0];
      RequestOnForeign(c, w.table, e.key, w.sink.heap[e], ev.outcome.verdict, at);
    }
  }

  lemma RequestOnForeign(c: Conf, t: Table, k: Key, r: Rec, v: Verdict, at: KernelKey)
    ensures var t' := KernelDo(t, RequestOf(c, k, r), v).0;
      var replacing := v.Accept? && r.kind == Add && at == KernelKey(c.table, k);
      && (replacing ==> at in t' && t'[at].protocol == c.protocol)
      && (ForeignAt(c, t, at) && !replacing ==> at in t' && t'[at] == t[at])
      && (!ForeignAt(c, t, at) ==> !ForeignAt(c, t', at))
  {
  }

  lemma {:induction false} NeverForeignAgain(c: Conf, w: World, evs: seq<Event>, at: KernelKey)
    requires Flow(c, w) && Legal(c, w, evs) && OwnerLeaves(evs, at) && !ForeignAt(c, w.table, at)
    ensures !ForeignAt(c, After(c, w, evs).table, at)
    decreases |evs|
  {
    hide Flow, Enabled, Step;
    if evs != [] {
      FlowIsResolved(c, w);
      StepOnForeign(c, w, evs[0], at);
      NeverForeignAgain(c, Next(c, w, evs[0]), evs[1..], at);
    }
  }

  /** A route of another protocol or table that its own owner leaves alone is
      still there, as it was, after a run exactly when the kernel accepted no add
      of ours at that very identity. */
  lemma {:induction false} ForeignKeptIff(c: Conf, w: World, evs: seq<Event>, at: KernelKey)
    requires Flow(c, w) && Legal(c, w, evs) && OwnerLeaves(evs, at) && ForeignAt(c, w.table, at)
    ensures var t' := After(c, w, evs).table;
      (at in t' && t'[at] == w.table[at]) <==> !Replaced(c, w, evs, at)
    decreases |evs|
  {
    hide Flow, Enabled, Step, Replaces;
    if evs != [] {
      FlowIsResolved(c, w);
      StepOnForeign(c, w, evs[0], at);
      if Replaces(c, w, evs[0], at) {
        NeverForeignAgain(c, Next(c, w, evs[0]), evs[1..], at);
      } else {
        ForeignKeptIff(c, Next(c, w, evs[0]), evs[1..], at);
      }
    }
  }

  /** The priorities this sink ever writes with. */
  predicate OurPriority(c: Conf, n: nat) {
    n == c.fallback % U32 || exists d | d in c.priorities :: c.priorities[d] % U32 == n
  }

  lemma PriorityIsOurs(c: Conf, r: Route)
    ensures OurPriority(c, PriorityFor(c, r))
  {
    if r.distance in c.priorities {
      assert c.priorities[r.distance] % U32 == PriorityFor(c, r);
    }
  }

  /** Every key a prefix occupies has one of the sink's own priorities. */
  ghost predicate PrioritiesOurs(c: Conf, s: Sink) {
    forall p | p in s.prefixKey :: OurPriority(c, s.prefixKey[p].priority)
  }

  predicate Elsewhere(c: Conf, at: KernelKey) {
    at.table != c.table || !OurPriority(c, at.key.priority)
  }

  lemma StepPriorities(c: Conf, w: World, ev: Event)
    requires Flow(c, w) && Enabled(c, w, ev) && PrioritiesOurs(c, w.sink)
    ensures PrioritiesOurs(c, Step(c, w, ev).sink)
  {
    hide OurPriority, Lossless;
    match ev
    case Offer(route, made) =>
      PriorityIsOurs(c, route);
      if Expressible(c, route) { InstallEffect(c, w.sink, route, made); }
    case Drop(p) =>
    case Due(e) =>
    case Late(n) =>
    case Write(o, now) => assert w.sink.queue[0] in w.sink.queue;
    case Reply(now) => ReplyEffect(w, now);
    case Outside(_, _) =>
  }

  /** Adds are only ever written at the sink's own priorities. */
  lemma ReplacesIsOurs(c: Conf, w: World, ev: Event, at: KernelKey)
    requires Core(w.sink) && Indexed(w.sink) && PrioritiesOurs(c, w.sink) && Replaces(c, w, ev, at)
    ensures !Elsewhere(c, at)
  {
    hide OurPriority;
    var e := w.sink.queue[0];
    assert e in w.sink.queue;
    assert AddIffOccupied(w.sink, e.key);
  }

  lemma {:induction false} NeverReplaced(c: Conf, w: World, evs: seq<Event>, at: KernelKey)
    requires Inv(c, w) && Legal(c, w, evs) && PrioritiesOurs(c, w.sink) && Elsewhere(c, at)
    ensures !Replaced(c, w, evs, at)
    decreases |evs|
  {
    hide Enabled, Step, Replaces, PrioritiesOurs, Elsewhere, Lossless, Indexed, Staged, InFlight;
    if evs != [] {
      if Replaces(c, w, evs[0], at) { ReplacesIsOurs(c, w, evs[0], at); }
      StepPriorities(c, w, evs[0]);
      StepIndexed(c, w, evs[0]);
      NeverReplaced(c, Next(c, w, evs[0]), evs[1..], at);
    }
  }

  /** So a route in another table, or at none of our priorities, survives any run
      its owner leaves it alone in. */
  lemma ForeignSurvives(c: Conf, w: World, evs: seq<Event>, at: KernelKey)
    requires Inv(c, w) && Legal(c, w, evs) && PrioritiesOurs(c, w.sink)
    requires ForeignAt(c, w.table, at) && Elsewhere(c, at) && OwnerLeaves(evs, at)
    ensures at in After(c, w, evs).table && After(c, w, evs).table[at] == w.table[at]
  {
    hide Flow, Legal, After, Indexed;
    NeverReplaced(c, w, evs, at);
    ForeignKeptIff(c, w, evs, at);
  }
}
