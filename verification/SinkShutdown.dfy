/** Shutdown: every route this sink wrote is turned into a delete. */
module SinkShutdown {
  import opened Routes
  import opened SinkModel
  import opened SinkInvariant
  import opened SinkRun

  /** One entry: forgotten if never written, otherwise a queued delete. */
  function Doom(s: Sink, e: Entry): Sink
    requires e in s.heap
  {
    if !s.heap[e].written then Forget(s, e)
    else Enqueue(Update(s, e, s.heap[e].(kind := Del, attempts := 0)), e)
  }

  /** The containers part-way through the loop over the entries of `s0`: the
      keys in `todo` are still to be visited. */
  ghost predicate Dooming(s0: Sink, s: Sink, todo: set<Key>)
    requires KeyedByEntry(s0)
  {
    && s.pending == s0.pending && s.lastSeq == s0.lastSeq && s.prefixKey == s0.prefixKey && s.retry == []
    && todo <= s0.entries.Keys && s.heap.Keys == s0.heap.Keys
    && (forall k :: DoomingAt(s0, s, todo, k))
    && (forall e | e in s.queue :: Live(s, e) && e.key !in todo)
  }

  ghost predicate DoomingAt(s0: Sink, s: Sink, todo: set<Key>, k: Key)
    requires KeyedByEntry(s0) && s.heap.Keys == s0.heap.Keys
  {
    && (k in s.entries <==> k in s0.entries && (k in todo || s0.heap[s0.entries[k]].written))
    && (k in s.entries ==>
          var e := s0.entries[k];
          && s.entries[k] == e
          && (if k in todo then s.heap[e] == s0.heap[e]
              else s.heap[e] == s0.heap[e].(kind := Del, attempts := 0, stage := Queued) && e in s.queue))
  }

  lemma DoomingStarts(s0: Sink)
    requires KeyedByEntry(s0)
    ensures Dooming(s0, s0.(queue := [], retry := []), s0.entries.Keys)
  {
    forall k ensures DoomingAt(s0, s0.(queue := [], retry := []), s0.entries.Keys, k) {}
  }

  lemma DoomingGoesOn(s0: Sink, s: Sink, todo: set<Key>, k: Key)
    requires Core(s0) && Dooming(s0, s, todo) && k in todo
    ensures k in s.entries && s.entries[k] in s.heap && s.entries[k] == s0.entries[k]
    ensures Dooming(s0, Doom(s, s.entries[k]), todo - {k})
    ensures |Doom(s, s.entries[k]).queue| <= |s.queue| + 1
  {
    hide Without;
    assert DoomingAt(s0, s, todo, k);
    var e := s.entries[k];
    assert RecStaged(s0, e);
    var s' := Doom(s, e);
    if s.heap[e].written { assert s'.queue[|s'.queue| - 1] == e; }
    forall x ensures DoomingAt(s0, s', todo - {k}, x) {
      assert DoomingAt(s0, s, todo, x);
    }
    RetryStaysEmpty(s, e);
  }

  lemma RetryStaysEmpty(s: Sink, e: Entry)
    requires e in s.heap && s.retry == []
    ensures Doom(s, e).retry == [] && |Doom(s, e).queue| <= |s.queue| + 1
  {
  }

  ghost predicate OnlyDeletes(s: Sink)
    requires KeyedByEntry(s)
  {
    forall k | k in s.entries :: s.heap[s.entries[k]].kind == Del
  }

  lemma DoomedIsCore(s0: Sink, s: Sink)
    requires Core(s0) && Dooming(s0, s, {})
    ensures Core(s) && OnlyDeletes(s)
  {
    forall k | k in s.entries ensures s.entries[k].key == k && s.entries[k] in s.heap {
      assert DoomingAt(s0, s, {}, k);
    }
    forall k | k in s.entries ensures RecStaged(s, s.entries[k]) && s.heap[s.entries[k]].kind == Del {
      assert DoomingAt(s0, s, {}, k) && RecStaged(s0, s0.entries[k]);
    }
    forall e | e in s.queue ensures s.heap[e].stage == Queued {
      assert DoomingAt(s0, s, {}, e.key);
    }
    forall n | n in s.pending
      ensures Live(s, s.pending[n]) && n <= s.heap[s.pending[n]].seqno && s.heap[s.pending[n]].stage != Installed {
      var e := s.pending[n];
      assert DoomingAt(s0, s, {}, e.key) && RecStaged(s0, e);
    }
  }

  lemma DoomedIsFlow(c: Conf, w0: World, s: Sink)
    requires Flow(c, w0) && Dooming(w0.sink, s, {})
    ensures Flow(c, w0.(sink := s)) && OnlyDeletes(s)
  {
    DoomedIsCore(w0.sink, s);
    forall k ensures Knows(c, w0.(sink := s), k) {
      assert Knows(c, w0, k) && DoomingAt(w0.sink, s, {}, k);
    }
  }

  /** What shutdown clears at the end; the retry map is not among it. */
  function Cleared(s: Sink): Sink {
    s.(entries := map[], queue := [], pending := map[], prefixKey := map[])
  }

  lemma ClearedIsBlank(s: Sink)
    ensures Blank(Cleared(s)) <==> s.retry == []
  {
  }

  // ----- draining it ------------------------------------------------------------

  lemma StepOnlyDeletes(c: Conf, w: World, ev: Event)
    requires Flow(c, w) && Enabled(c, w, ev) && OnlyDeletes(w.sink)
    requires ev.Due? || ev.Late? || ev.Write? || ev.Reply?
    ensures KeyedByEntry(Step(c, w, ev).sink) && OnlyDeletes(Step(c, w, ev).sink)
  {
    hide SendHead, ReadAck;
    match ev
    case Due(e) =>
    case Late(n) =>
    case Write(o, now) => WriteOnlyDeletes(c, w, o, now);
    case Reply(now) => ReplyOnlyDeletes(w, now);
  }

  lemma WriteOnlyDeletes(c: Conf, w: World, o: Outcome, now: real)
    requires KeyedByEntry(w.sink) && OnlyDeletes(w.sink) && HasWork(w)
    requires Live(w.sink, w.sink.queue[0]) && (o.Failed? ==> !AlreadyGone(o.code))
    ensures KeyedByEntry(SendHead(c, w, o, now).sink) && OnlyDeletes(SendHead(c, w, o, now).sink)
  {
    hide Without, Put;
  }

  lemma ReplyOnlyDeletes(w: World, now: real)
    requires KeyedByEntry(w.sink) && InFlight(w.sink) && w.inbox != [] && OnlyDeletes(w.sink)
    ensures KeyedByEntry(ReadAck(w, now).sink) && OnlyDeletes(ReadAck(w, now).sink)
  {
    hide Handle;
    if w.inbox[0].seqno in w.sink.pending {
      HandleShape(w.sink, w.inbox[0].seqno, w.inbox[0].code, now);
    } else {
      StaleIsIgnored(w, now);
    }
  }

  lemma StaleIsIgnored(w: World, now: real)
    requires w.inbox != [] && w.inbox[0].seqno !in w.sink.pending
    requires forall n | n in w.sink.pending :: w.sink.pending[n] in w.sink.heap
    ensures ReadAck(w, now).sink == w.sink
  {
  }

  lemma {:induction false} RunOnlyDeletes(c: Conf, w: World, evs: seq<Event>)
    requires Flow(c, w) && Legal(c, w, evs) && OnlyDeletes(w.sink)
    requires forall i :: 0 <= i < |evs| ==> evs[i].Due? || evs[i].Late? || evs[i].Write? || evs[i].Reply?
    ensures OnlyDeletes(After(c, w, evs).sink)
    decreases |evs|
  {
    hide Enabled, Step, Lossless, Staged, InFlight;
    if evs != [] {
      StepOnlyDeletes(c, w, evs[0]);
      RunOnlyDeletes(c, Next(c, w, evs[0]), evs[1..]);
    }
  }

  /** With only deletes left, a route of ours still in the kernel is one whose
      delete is queued, unanswered or refused. */
  predicate Unfinished(s: Sink, k: Key) {
    k in s.entries && s.entries[k] in s.heap &&
    (s.entries[k] in s.queue || s.entries[k] in s.retry || AwaitsAnswer(s, s.entries[k]))
  }

  lemma OursIsUnfinished(c: Conf, w: World)
    requires Flow(c, w) && OnlyDeletes(w.sink)
    ensures forall k | Own(c, w.table, k).Some? :: Unfinished(w.sink, k)
    ensures Idle(w.sink) ==> forall k :: Own(c, w.table, k).None?
  {
    forall k | Own(c, w.table, k).Some? ensures Unfinished(w.sink, k) {
      assert Knows(c, w, k);
      assert RecStaged(w.sink, w.sink.entries[k]);
    }
  }
}
