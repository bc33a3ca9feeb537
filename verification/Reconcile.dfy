/** Start-up reconciliation: what a previous run left is adopted or deleted. */
module Reconcile {
  import opened Routes
  import opened SinkModel
  import opened SinkInvariant
  import opened SinkRun

  /** One route as a dump of the kernel's tables reports it. */
  datatype Dumped = Dumped(at: KernelKey, route: KernelRoute)

  /** The dump lists every route of every table, each once. */
  ghost predicate Lists(found: seq<Dumped>, t: Table) {
    && (forall i :: 0 <= i < |found| ==> found[i].at in t && t[found[i].at] == found[i].route)
    && (forall at | at in t :: exists i :: 0 <= i < |found| && found[i].at == at)
    && (forall i, j :: 0 <= i < j < |found| ==> found[i].at != found[j].at)
  }

  /** One best route per destination, as the RIB hands them over. */
  ghost predicate OnePerPrefix(current: seq<Route>) {
    forall i, j :: 0 <= i < j < |current| ==> current[i].prefix != current[j].prefix
  }

  function KeyOf(c: Conf, r: Route): Key {
    Key(r.prefix, PriorityFor(c, r))
  }

  /** `desired`: what would be written, by kernel key. */
  function Desired(c: Conf, current: seq<Route>): map<Key, Hop> {
    if current == [] then map[]
    else
      var rest, last := Desired(c, current[..|current| - 1]), current[|current| - 1];
      if Expressible(c, last) then rest[KeyOf(c, last) := Attrs(c, last).value.hop] else rest
  }

  predicate IsOurs(c: Conf, d: Dumped) {
    d.route.protocol == c.protocol && d.at.table == c.table
  }

  predicate Adoptable(desired: map<Key, Hop>, k: Key, own: Hop) {
    k in desired && Agrees(own, desired[k])
  }

  function AdoptedRec(hop: Hop): Rec {
    Rec(Add, hop, Installed, 0, 0.0, 0, 0.0, 0, true)
  }

  function DoomedRec(hop: Hop): Rec {
    Rec(Del, hop, Queued, 0, 0.0, 0, 0.0, 0, true)
  }

  /** Every route of ours in our table has an entry: an installed add if it
      matches what is wanted at its key, otherwise a queued delete. */
  ghost predicate Placed(c: Conf, desired: map<Key, Hop>, t: Table, s: Sink) {
    && KeyedByEntry(s)
    && (forall k :: SortedAt(c, desired, t, s, k))
    && (forall e | e in s.queue :: Live(s, e) && s.heap[e].stage == Queued)
    && s.pending == map[]
    && (forall p :: IndexedAt(c, desired, s, p))
  }

  ghost predicate Sorted(c: Conf, desired: map<Key, Hop>, t: Table, s: Sink) {
    Placed(c, desired, t, s) && s.retry == []
  }

  /** A route of ours that is not wanted as it is. */
  predicate Unwanted(c: Conf, desired: map<Key, Hop>, t: Table, k: Key) {
    Own(c, t, k).Some? && !Adoptable(desired, k, Own(c, t, k).value)
  }

  /** Of the retries left over from before, those are gone whose key is done and
      got a delete of its own. */
  ghost predicate LeftOver(c: Conf, desired: map<Key, Hop>, t: Table, s: Sink, stale: seq<Entry>, done: set<Key>) {
    && (forall e | e in s.retry :: e in stale && !(e.key in done && Unwanted(c, desired, t, e.key)))
    && (forall e | e in stale :: e in s.heap && (e in s.retry || (e.key in done && Unwanted(c, desired, t, e.key))))
    && (forall k | k in s.entries :: s.entries[k] !in stale)
  }

  ghost predicate SortedAt(c: Conf, desired: map<Key, Hop>, t: Table, s: Sink, k: Key)
    requires KeyedByEntry(s)
  {
    var own := Own(c, t, k);
    && (k in s.entries <==> own.Some?)
    && (own.Some? ==>
          if Adoptable(desired, k, own.value)
          then s.heap[s.entries[k]] == AdoptedRec(desired[k]) && Occupies(s, k)
          else s.heap[s.entries[k]] == DoomedRec(own.value) && s.entries[k] in s.queue)
  }

  ghost predicate IndexedAt(c: Conf, desired: map<Key, Hop>, s: Sink, p: Prefix)
    requires KeyedByEntry(s)
  {
    p in s.prefixKey ==>
      s.prefixKey[p].prefix == p && s.prefixKey[p] in s.entries && s.heap[s.entries[s.prefixKey[p]]].kind == Add
  }

  // ----- building it, one kernel route at a time ----------------------------------

  function AdoptInto(s: Sink, k: Key, hop: Hop, e: Entry): Sink {
    Update(s, e, AdoptedRec(hop)).(entries := s.entries[k := e], prefixKey := s.prefixKey[k.prefix := k])
  }

  function DoomInto(s: Sink, k: Key, hop: Hop, e: Entry): Sink {
    Enqueue(Update(s, e, DoomedRec(hop)).(entries := s.entries[k := e]), e)
  }

  /** `Placed`, as far as the keys in `done` go. */
  ghost predicate PartSorted(c: Conf, desired: map<Key, Hop>, t: Table, s: Sink, done: set<Key>, stale: seq<Entry>) {
    && KeyedByEntry(s) && s.entries.Keys == done
    && (forall k | k in done :: Own(c, t, k).Some? && SortedAt(c, desired, t, s, k))
    && (forall e | e in s.queue :: Live(s, e) && s.heap[e].stage == Queued)
    && s.pending == map[] && LeftOver(c, desired, t, s, stale, done)
    && (forall p :: IndexedAt(c, desired, s, p))
  }

  lemma AdoptPart(c: Conf, desired: map<Key, Hop>, t: Table, s: Sink, done: set<Key>, stale: seq<Entry>, k: Key,
        e: Entry)
    requires PartSorted(c, desired, t, s, done, stale) && k !in done && e !in s.heap && e.key == k
    requires Own(c, t, k).Some? && Adoptable(desired, k, Own(c, t, k).value)
    requires forall x | x in desired && x.prefix == k.prefix :: x == k
    ensures PartSorted(c, desired, t, AdoptInto(s, k, desired[k], e), done + {k}, stale)
  {
    hide Own, LeftOver;
    var s' := AdoptInto(s, k, desired[k], e);
    forall x | x in done + {k} ensures SortedAt(c, desired, t, s', x) {
      if x != k { assert SortedAt(c, desired, t, s, x); }
    }
    forall p ensures IndexedAt(c, desired, s', p) {
      assert IndexedAt(c, desired, s, p);
    }
    AdoptLeaves(c, desired, t, s, done, stale, k, e);
  }

  /** Adopting a route leaves a retry at its key where it is. */
  lemma AdoptLeaves(c: Conf, desired: map<Key, Hop>, t: Table, s: Sink, done: set<Key>, stale: seq<Entry>, k: Key,
        e: Entry)
    requires LeftOver(c, desired, t, s, stale, done) && e !in s.heap
    requires Own(c, t, k).Some? && Adoptable(desired, k, Own(c, t, k).value)
    ensures LeftOver(c, desired, t, AdoptInto(s, k, desired[k], e), stale, done + {k})
  {
    hide Own, Adoptable;
  }

  lemma DoomPart(c: Conf, desired: map<Key, Hop>, t: Table, s: Sink, done: set<Key>, stale: seq<Entry>, k: Key,
        e: Entry)
    requires PartSorted(c, desired, t, s, done, stale) && k !in done && e !in s.heap && e.key == k
    requires Unwanted(c, desired, t, k)
    ensures PartSorted(c, desired, t, DoomInto(s, k, Own(c, t, k).value, e), done + {k}, stale)
  {
    hide Adoptable, LeftOver, SortedAt, IndexedAt, DoomInto, Own;
    var s' := DoomInto(s, k, Own(c, t, k).value, e);
    DoomShape(s, k, Own(c, t, k).value, e);
    DoomedAt(c, desired, t, s, k, e);
    forall x | x in done ensures SortedAt(c, desired, t, s', x) {
      DoomSpares(c, desired, t, s, k, e, x);
    }
    forall p ensures IndexedAt(c, desired, s', p) {
      assert IndexedAt(c, desired, s, p);
      DoomSparesIndex(c, desired, t, s, k, e, p);
    }
    DoomLeaves(c, desired, t, s, done, stale, k, e);
  }

  lemma DoomShape(s: Sink, k: Key, hop: Hop, e: Entry)
    requires KeyedByEntry(s) && k !in s.entries && e !in s.heap && e.key == k
    requires forall x | x in s.queue :: Live(s, x) && s.heap[x].stage == Queued
    ensures var s' := DoomInto(s, k, hop, e);
      && KeyedByEntry(s') && s'.entries.Keys == s.entries.Keys + {k} && s'.pending == s.pending
      && (forall x | x in s'.queue :: Live(s', x) && s'.heap[x].stage == Queued)
  {
    hide Without;
    DoomQueue(s, k, hop, e);
  }

  lemma DoomSpares(c: Conf, desired: map<Key, Hop>, t: Table, s: Sink, k: Key, e: Entry, x: Key)
    requires Own(c, t, k).Some? && KeyedByEntry(DoomInto(s, k, Own(c, t, k).value, e))
    requires KeyedByEntry(s) && e !in s.heap && e.key == k && x != k && x in s.entries && SortedAt(c, desired, t, s, x)
    ensures SortedAt(c, desired, t, DoomInto(s, k, Own(c, t, k).value, e), x)
  {
    hide Own, Without, Adoptable;
    DoomQueue(s, k, Own(c, t, k).value, e);
  }

  lemma DoomSparesIndex(c: Conf, desired: map<Key, Hop>, t: Table, s: Sink, k: Key, e: Entry, p: Prefix)
    requires Own(c, t, k).Some? && KeyedByEntry(DoomInto(s, k, Own(c, t, k).value, e))
    requires KeyedByEntry(s) && e !in s.heap && k !in s.entries && IndexedAt(c, desired, s, p)
    ensures IndexedAt(c, desired, DoomInto(s, k, Own(c, t, k).value, e), p)
  {
    hide Own, Without, Adoptable;
  }

  lemma DoomQueue(s: Sink, k: Key, hop: Hop, e: Entry)
    ensures var s' := DoomInto(s, k, hop, e);
      && e in s'.queue && (forall x | x in s.queue && x.key != e.key :: x in s'.queue)
      && (forall x | x in s'.queue :: x == e || (x in s.queue && x.key != e.key))
  {
    var s' := DoomInto(s, k, hop, e);
    assert s'.queue[|s'.queue| - 1] == e;
  }

  lemma DoomedAt(c: Conf, desired: map<Key, Hop>, t: Table, s: Sink, k: Key, e: Entry)
    requires KeyedByEntry(s) && e.key == k && Unwanted(c, desired, t, k)
    ensures var s' := DoomInto(s, k, Own(c, t, k).value, e);
      Own(c, t, k).Some? && KeyedByEntry(s') && SortedAt(c, desired, t, s', k)
  {
    hide Own, Without;
    DoomQueue(s, k, Own(c, t, k).value, e);
  }

  /** A delete of its own replaces whatever retry was left at that key. */
  lemma DoomLeaves(c: Conf, desired: map<Key, Hop>, t: Table, s: Sink, done: set<Key>, stale: seq<Entry>, k: Key,
        e: Entry)
    requires LeftOver(c, desired, t, s, stale, done) && e !in s.heap && e.key == k
    requires Unwanted(c, desired, t, k)
    ensures LeftOver(c, desired, t, DoomInto(s, k, Own(c, t, k).value, e), stale, done + {k})
  {
    hide Own, Without, Adoptable, Unwanted;
  }

  lemma PartIsPlaced(c: Conf, desired: map<Key, Hop>, t: Table, s: Sink, done: set<Key>, stale: seq<Entry>)
    requires PartSorted(c, desired, t, s, done, stale)
    requires forall k | Own(c, t, k).Some? :: k in done
    ensures Placed(c, desired, t, s) && LeftOver(c, desired, t, s, stale, done)
  {
    forall k ensures SortedAt(c, desired, t, s, k) {
      if k in done { assert SortedAt(c, desired, t, s, k); }
      else { assert Own(c, t, k).None?; }
    }
  }

  /** Reconciling a sink that came with retries left over from before its last
      shutdown ends in a good state exactly when each is at a key that got a
      delete of its own: whose route is still there, ours, and not wanted. */
  lemma LeftOversHarmlessIff(c: Conf, desired: map<Key, Hop>, w: World, stale: seq<Entry>, done: set<Key>)
    requires Placed(c, desired, w.table, w.sink) && LeftOver(c, desired, w.table, w.sink, stale, done)
    requires (forall k | Own(c, w.table, k).Some? :: k in done) && w.inbox == []
    ensures Inv(c, w) <==> forall e | e in stale :: Unwanted(c, desired, w.table, e.key)
    ensures Inv(c, w) ==> Sorted(c, desired, w.table, w.sink)
  {
    hide Knows, Indexed, Lossless, InFlight, Adoptable;
    if w.sink.retry == [] {
      SortedIsInv(c, desired, w);
    } else {
      var e := w.sink.retry[0];
      assert e in w.sink.retry && e in stale && !Live(w.sink, e);
      assert !Unwanted(c, desired, w.table, e.key);
    }
  }

  /** With one route per destination, at most one wanted key per destination. */
  lemma DesiredUnique(c: Conf, current: seq<Route>, x: Key, k: Key)
    requires OnePerPrefix(current) && x in Desired(c, current) && k in Desired(c, current) && x.prefix == k.prefix
    ensures x == k
  {
    DesiredAt(c, current, x);
    DesiredAt(c, current, k);
  }

  /** The adopted part of what is wanted. */
  function AdoptedTargets(c: Conf, t: Table, current: seq<Route>): map<Prefix, Target> {
    if current == [] then map[]
    else
      var rest, last := AdoptedTargets(c, t, current[..|current| - 1]), current[|current| - 1];
      if Expressible(c, last) && Own(c, t, KeyOf(c, last)).Some?
         && Agrees(Own(c, t, KeyOf(c, last)).value, Attrs(c, last).value.hop)
      then rest[last.prefix := Attrs(c, last).value] else rest
  }

  // ----- the state reconcile leaves satisfies the invariant ---------------------

  lemma SortedIsInv(c: Conf, desired: map<Key, Hop>, w: World)
    requires Sorted(c, desired, w.table, w.sink) && w.inbox == []
    ensures Inv(c, w)
  {
    var s := w.sink;
    forall k | k in s.entries ensures RecStaged(s, s.entries[k]) {
      assert SortedAt(c, desired, w.table, s, k);
    }
    forall k ensures Knows(c, w, k) {
      assert SortedAt(c, desired, w.table, s, k);
    }
    forall p ensures OccupiesOwn(s, p) {
      assert IndexedAt(c, desired, s, p);
    }
    forall k ensures AddIffOccupied(s, k) {
      assert SortedAt(c, desired, w.table, s, k) && IndexedAt(c, desired, s, k.prefix);
    }
  }

  lemma {:induction false} DesiredAt(c: Conf, current: seq<Route>, k: Key)
    requires k in Desired(c, current)
    ensures exists i ::
      && 0 <= i < |current| && Expressible(c, current[i]) && KeyOf(c, current[i]) == k
      && Desired(c, current)[k] == Attrs(c, current[i]).value.hop
  {
    var n := |current| - 1;
    if !(Expressible(c, current[n]) && KeyOf(c, current[n]) == k) {
      DesiredAt(c, current[..n], k);
      var i :| 0 <= i < n && Expressible(c, current[..n][i]) && KeyOf(c, current[..n][i]) == k
        && Desired(c, current[..n])[k] == Attrs(c, current[..n][i]).value.hop;
      assert current[i] == current[..n][i];
    }
  }

  lemma {:induction false} DesiredOf(c: Conf, current: seq<Route>, i: nat)
    requires OnePerPrefix(current) && i < |current| && Expressible(c, current[i])
    ensures var k := KeyOf(c, current[i]);
      k in Desired(c, current) && Desired(c, current)[k] == Attrs(c, current[i]).value.hop
  {
    var n := |current| - 1;
    if i < n {
      assert current[..n][i] == current[i];
      DesiredOf(c, current[..n], i);
    }
  }

  /** A prefix is adopted exactly when its (only) wanted key is in the kernel
      with an agreeing hop. */
  lemma {:induction false} AdoptedAt(c: Conf, t: Table, current: seq<Route>, p: Prefix)
    requires p in AdoptedTargets(c, t, current)
    ensures exists i ::
      && 0 <= i < |current| && Takes(c, t, current[i]) && current[i].prefix == p
      && AdoptedTargets(c, t, current)[p] == Attrs(c, current[i]).value
  {
    var n := |current| - 1;
    if !(Takes(c, t, current[n]) && current[n].prefix == p) {
      AdoptedAt(c, t, current[..n], p);
      var i :| 0 <= i < n && Takes(c, t, current[..n][i]) && current[..n][i].prefix == p
        && AdoptedTargets(c, t, current[..n])[p] == Attrs(c, current[..n][i]).value;
      assert current[i] == current[..n][i];
    }
  }

  predicate Takes(c: Conf, t: Table, r: Route) {
    Expressible(c, r) && Own(c, t, KeyOf(c, r)).Some?
    && Agrees(Own(c, t, KeyOf(c, r)).value, Attrs(c, r).value.hop)
  }

  lemma {:induction false} AdoptedOf(c: Conf, t: Table, current: seq<Route>, i: nat)
    requires OnePerPrefix(current) && i < |current| && Takes(c, t, current[i])
    ensures var m := AdoptedTargets(c, t, current);
      current[i].prefix in m && m[current[i].prefix] == Attrs(c, current[i]).value
  {
    var n := |current| - 1;
    if i < n {
      assert current[..n][i] == current[i];
      AdoptedOf(c, t, current[..n], i);
    }
  }

  lemma SortedTracks(c: Conf, current: seq<Route>, t: Table, s: Sink)
    requires OnePerPrefix(current) && Sorted(c, Desired(c, current), t, s)
    ensures Tracks(s, AdoptedTargets(c, t, current))
    ensures PrioritiesOurs(c, s)
  {
    var desired, wanted := Desired(c, current), AdoptedTargets(c, t, current);
    forall p ensures p in s.prefixKey <==> p in wanted {
      if p in s.prefixKey { OccupiedIsAdopted(c, current, t, s, p); }
      if p in wanted { AdoptedIsOccupied(c, current, t, s, p); }
    }
    forall p ensures TracksAt(s, wanted, p) {
      if p in wanted { AdoptedIsOccupied(c, current, t, s, p); }
    }
    forall p | p in s.prefixKey ensures OurPriority(c, s.prefixKey[p].priority) {
      OccupiedIsAdopted(c, current, t, s, p);
    }
  }

  lemma OccupiedIsAdopted(c: Conf, current: seq<Route>, t: Table, s: Sink, p: Prefix)
    requires OnePerPrefix(current) && Sorted(c, Desired(c, current), t, s) && p in s.prefixKey
    ensures p in AdoptedTargets(c, t, current) && OurPriority(c, s.prefixKey[p].priority)
  {
    var desired, k := Desired(c, current), s.prefixKey[p];
    assert IndexedAt(c, desired, s, p) && SortedAt(c, desired, t, s, k);
    DesiredAt(c, current, k);
    var i :| 0 <= i < |current| && Expressible(c, current[i]) && KeyOf(c, current[i]) == k
      && desired[k] == Attrs(c, current[i]).value.hop;
    PriorityIsOurs(c, current[i]);
    AdoptedOf(c, t, current, i);
  }

  lemma AdoptedIsOccupied(c: Conf, current: seq<Route>, t: Table, s: Sink, p: Prefix)
    requires OnePerPrefix(current) && Sorted(c, Desired(c, current), t, s) && p in AdoptedTargets(c, t, current)
    ensures var k := Key(p, AdoptedTargets(c, t, current)[p].priority);
      && p in s.prefixKey && s.prefixKey[p] == k && k in s.entries
      && s.heap[s.entries[k]].hop == AdoptedTargets(c, t, current)[p].hop
  {
    AdoptedAt(c, t, current, p);
    var i :| 0 <= i < |current| && Takes(c, t, current[i]) && current[i].prefix == p
      && AdoptedTargets(c, t, current)[p] == Attrs(c, current[i]).value;
    DesiredOf(c, current, i);
    assert SortedAt(c, Desired(c, current), t, s, KeyOf(c, current[i]));
  }

  // ----- and then everything wanted is installed ------------------------------------

  function Offers(evs: seq<Event>): seq<Route> {
    if evs == [] then []
    else
      var front, last := Offers(evs[..|evs| - 1]), evs[|evs| - 1];
      if last.Offer? then front + [last.route] else front
  }

  function TargetsFrom(c: Conf, m: map<Prefix, Target>, current: seq<Route>): map<Prefix, Target> {
    if current == [] then m
    else
      var rest, last := TargetsFrom(c, m, current[..|current| - 1]), current[|current| - 1];
      if Expressible(c, last) then rest[last.prefix := Attrs(c, last).value] else rest
  }

  predicate NoDrops(evs: seq<Event>) {
    forall i :: 0 <= i < |evs| ==> !evs[i].Drop?
  }

  lemma {:induction false} WantedIsTargets(c: Conf, m: map<Prefix, Target>, evs: seq<Event>)
    requires NoDrops(evs)
    ensures WantedFrom(c, m, evs) == TargetsFrom(c, m, Offers(evs))
  {
    if evs != [] {
      var front, last := evs[..|evs| - 1], evs[|evs| - 1];
      WantedIsTargets(c, m, front);
      if last.Offer? {
        var all := Offers(front) + [last.route];
        assert all[..|all| - 1] == Offers(front);
      }
    }
  }

  lemma {:induction false} TargetsMerge(c: Conf, m: map<Prefix, Target>, current: seq<Route>)
    ensures TargetsFrom(c, m, current) == m + TargetsFrom(c, map[], current)
  {
    if current != [] {
      TargetsMerge(c, m, current[..|current| - 1]);
    }
  }

  lemma {:induction false} AdoptedIsPartOfTargets(c: Conf, t: Table, current: seq<Route>)
    requires OnePerPrefix(current)
    ensures AdoptedTargets(c, t, current).Keys <= TargetsFrom(c, map[], current).Keys
  {
    if current != [] {
      AdoptedIsPartOfTargets(c, t, current[..|current| - 1]);
    }
  }

  /** From any kernel table: once the state reconcile leaves has run to an idle
      sink with exactly `current` offered, our routes are exactly the wanted ones. */
  lemma ReconcileThenInstall(c: Conf, w: World, current: seq<Route>, evs: seq<Event>)
    requires OnePerPrefix(current) && Sorted(c, Desired(c, current), w.table, w.sink) && w.inbox == []
    requires Inv(c, w) && Legal(c, w, evs) && NoDrops(evs) && Offers(evs) == current
    requires Idle(After(c, w, evs).sink)
    ensures KernelHolds(c, After(c, w, evs).table, TargetsFrom(c, map[], current))
  {
    hide Flow, Enabled, Step, Sorted, Own, Idle;
    var adopted := AdoptedTargets(c, w.table, current);
    SortedTracks(c, current, w.table, w.sink);
    RunTracks(c, w, evs, adopted);
    RunIndexed(c, w, evs);
    IdleMeansWanted(c, After(c, w, evs), WantedFrom(c, adopted, evs));
    WantedIsTargets(c, adopted, evs);
    TargetsMerge(c, adopted, current);
    AdoptedIsPartOfTargets(c, w.table, current);
    assert adopted + TargetsFrom(c, map[], current) == TargetsFrom(c, map[], current);
  }

  // ----- adopted routes are left alone ------------------------------------------------

  /** The entry at `k` is installed as `hop`, and its prefix occupies `k`. */
  ghost predicate Settled(s: Sink, k: Key, hop: Hop)
    requires KeyedByEntry(s)
  {
    k in s.entries && Occupies(s, k) && s.heap[s.entries[k]].stage == Installed
    && s.heap[s.entries[k]].kind == Add && s.heap[s.entries[k]].hop == hop
  }

  /** Neither withdrawn nor offered with anything new. */
  ghost predicate LeavesAlone(c: Conf, ev: Event, k: Key, hop: Hop) {
    && (ev.Drop? ==> ev.prefix != k.prefix)
    && (ev.Offer? && ev.route.prefix == k.prefix && Expressible(c, ev.route) ==>
          Attrs(c, ev.route).value == Target(k.priority, hop))
  }

  lemma OfferLeavesAlone(c: Conf, s: Sink, route: Route, made: Entry, k: Key, hop: Hop)
    requires Core(s) && Indexed(s) && MayAllocate(c, s, route, made) && Settled(s, k, hop)
    requires LeavesAlone(c, Offer(route, made), k, hop)
    requires KeyedByEntry(Install(c, s, route, made))
    ensures Settled(Install(c, s, route, made), k, hop)
  {
    if Expressible(c, route) {
      assert OccupiesOwn(s, route.prefix);
      if route.prefix == k.prefix {
        assert AlreadyInstalled(s, k, hop);
        assert Install(c, s, route, made) == s.(prefixKey := s.prefixKey[route.prefix := k]);
      } else {
        InstallEffect(c, s, route, made);
      }
    }
  }

  lemma DropLeavesAlone(s: Sink, p: Prefix, k: Key, hop: Hop)
    requires Core(s) && Indexed(s) && Settled(s, k, hop) && p != k.prefix
    requires KeyedByEntry(Withdraw(s, p))
    ensures Settled(Withdraw(s, p), k, hop)
  {
    assert OccupiesOwn(s, p);
  }

  lemma StepLeavesAlone(c: Conf, w: World, ev: Event, k: Key, hop: Hop)
    requires Inv(c, w) && Enabled(c, w, ev) && Settled(w.sink, k, hop) && LeavesAlone(c, ev, k, hop)
    requires Own(c, w.table, k).Some? && KeyedByEntry(Step(c, w, ev).sink)
    ensures var w' := Step(c, w, ev);
      Settled(w'.sink, k, hop) && KernelKey(c.table, k) in w'.table
      && w'.table[KernelKey(c.table, k)] == w.table[KernelKey(c.table, k)]
  {
    match ev
    case Offer(route, made) => OfferLeavesAlone(c, w.sink, route, made, k, hop);
    case Drop(p) => DropLeavesAlone(w.sink, p, k, hop);
    case Due(e) =>
    case Late(n) => LateLeavesAlone(w.sink, n, k, hop);
    case Write(o, now) => WriteLeavesAlone(c, w, o, now, k, hop);
    case Reply(now) => ReplyLeavesAlone(w, now, k, hop);
    case Outside(_, _) =>
  }

  lemma LateLeavesAlone(s: Sink, n: nat, k: Key, hop: Hop)
    requires KeyedByEntry(s) && InFlight(s) && n in s.pending && Settled(s, k, hop)
    requires KeyedByEntry(Expire(s, n))
    ensures Settled(Expire(s, n), k, hop)
  {
  }

  lemma WriteLeavesAlone(c: Conf, w: World, o: Outcome, now: real, k: Key, hop: Hop)
    requires Flow(c, w) && Enabled(c, w, Write(o, now)) && Settled(w.sink, k, hop) && Own(c, w.table, k).Some?
    requires KeyedByEntry(SendHead(c, w, o, now).sink)
    ensures var w' := SendHead(c, w, o, now);
      && Settled(w'.sink, k, hop) && KernelKey(c.table, k) in w'.table
      && w'.table[KernelKey(c.table, k)] == w.table[KernelKey(c.table, k)]
  {
    var e := w.sink.queue[0];
    assert e in w.sink.queue;
    assert e.key != k;
    if o.Delivered? { KernelEffect(c, w.table, e.key, w.sink.heap[e], o.verdict); }
  }

  lemma ReplyLeavesAlone(w: World, now: real, k: Key, hop: Hop)
    requires KeyedByEntry(w.sink) && InFlight(w.sink) && w.inbox != [] && Settled(w.sink, k, hop)
    requires KeyedByEntry(ReadAck(w, now).sink)
    ensures Settled(ReadAck(w, now).sink, k, hop)
  {
    if w.inbox[0].seqno in w.sink.pending { HandleShape(w.sink, w.inbox[0].seqno, w.inbox[0].code, now); }
  }

  /** An adopted (or otherwise installed) route is never rewritten: while its
      prefix is neither withdrawn nor offered with different attributes, its
      entry stays installed and the kernel's route is not touched. */
  lemma {:induction false} AdoptedNeverRewritten(c: Conf, w: World, evs: seq<Event>, k: Key, hop: Hop)
    requires Inv(c, w) && Legal(c, w, evs) && Settled(w.sink, k, hop)
    requires forall i :: 0 <= i < |evs| ==> LeavesAlone(c, evs[i], k, hop)
    ensures var w', at := After(c, w, evs), KernelKey(c.table, k);
      && Settled(w'.sink, k, hop)
      && at in w.table && at in w'.table && w'.table[at] == w.table[at]
    decreases |evs|
  {
    hide Enabled, Step, Indexed, Lossless, Staged, InFlight;
    assert Knows(c, w, k);
    if evs != [] {
      StepLeavesAlone(c, w, evs[0], k, hop);
      StepIndexed(c, w, evs[0]);
      AdoptedNeverRewritten(c, Next(c, w, evs[0]), evs[1..], k, hop);
    }
  }

  /** What reconcile adopted, the first installs of the same routes leave alone. */
  lemma AdoptedSurviveInstall(c: Conf, w: World, current: seq<Route>, evs: seq<Event>, i: nat)
    requires OnePerPrefix(current) && Sorted(c, Desired(c, current), w.table, w.sink) && w.inbox == []
    requires Inv(c, w) && Legal(c, w, evs) && NoDrops(evs)
    requires forall j :: 0 <= j < |evs| && evs[j].Offer? ==> evs[j].route in current
    requires i < |current| && Takes(c, w.table, current[i])
    ensures var at := KernelKey(c.table, KeyOf(c, current[i]));
      var t' := After(c, w, evs).table;
      at in w.table && at in t' && t'[at] == w.table[at]
  {
    hide Flow, Enabled, Step, Attrs, PriorityFor;
    var k, hop := KeyOf(c, current[i]), Attrs(c, current[i]).value.hop;
    AttrsKey(c, current[i]);
    DesiredOf(c, current, i);
    assert SortedAt(c, Desired(c, current), w.table, w.sink, k);
    forall j | 0 <= j < |evs| ensures LeavesAlone(c, evs[j], k, hop) {
      if evs[j].Offer? && evs[j].route.prefix == k.prefix { assert evs[j].route == current[i]; }
    }
    AdoptedNeverRewritten(c, w, evs, k, hop);
  }

  lemma AttrsKey(c: Conf, r: Route)
    ensures Expressible(c, r) ==> KeyOf(c, r) == Key(r.prefix, Attrs(c, r).value.priority)
  {
  }
}
