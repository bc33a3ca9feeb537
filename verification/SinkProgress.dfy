/** What a flush moves, and why flushing against a kernel that takes everything
    comes to an end. */
module SinkProgress {
  import opened Routes
  import opened SinkModel
  import opened SinkInvariant
  import opened SinkRun

  // ----- runs ----------------------------------------------------------------------

  /** `w` is reached from `w0` by the legal run `run`. */
  ghost predicate Path(c: Conf, w0: World, run: seq<Event>, w: World) {
    Flow(c, w0) && Legal(c, w0, run) && After(c, w0, run) == w
  }

  /** Nothing but the flush phases and the kernel moved. */
  predicate FlushOnly(run: seq<Event>) {
    forall i :: 0 <= i < |run| ==> run[i].Due? || run[i].Late? || run[i].Write? || run[i].Reply?
  }

  lemma EmptyPath(c: Conf, w: World)
    requires Flow(c, w)
    ensures Path(c, w, [], w)
  {
    hide Flow;
  }

  lemma PathIsFlow(c: Conf, w0: World, run: seq<Event>, w: World)
    requires Path(c, w0, run, w)
    ensures Flow(c, w)
  {
    hide Flow;
  }

  lemma PathExtends(c: Conf, w0: World, run: seq<Event>, w: World, ev: Event)
    requires Path(c, w0, run, w) && Flow(c, w) && Enabled(c, w, ev)
    ensures Path(c, w0, run + [ev], Next(c, w, ev))
  {
    hide Flow, Enabled, Step;
    RunExtends(c, w0, run, ev);
  }

  lemma {:induction false} PathChains(c: Conf, w0: World, a: seq<Event>, w1: World, b: seq<Event>, w2: World)
    requires Path(c, w0, a, w1) && Path(c, w1, b, w2)
    ensures Path(c, w0, a + b, w2)
    decreases |b|
  {
    hide Flow, Enabled, Step;
    if b == [] {
      assert a + b == a;
    } else {
      RunExtends(c, w0, a, b[0]);
      PathChains(c, w0, a + [b[0]], Next(c, w1, b[0]), b[1..], w2);
      assert a + b == a + [b[0]] + b[1..];
    }
  }

  // ----- what a flush promotes and sweeps -------------------------------------------

  /** Both scans test their limit after taking one. */
  function Limit(c: Conf): nat {
    if c.batch == 0 then 1 else c.batch
  }

  predicate Ascending(s: seq<nat>) {
    forall i, j :: 0 <= i < j < |s| ==> s[i] < s[j]
  }

  predicate Within(places: seq<nat>, n: nat) {
    forall i :: 0 <= i < |places| ==> places[i] < n
  }

  lemma SomePlace(places: seq<nat>, n: nat)
    requires places != [] && Within(places, n)
    ensures n > 0
  {
    assert places[0] < n;
  }

  /** The retries at `places` are the first ones due at `now`, up to the limit. */
  ghost predicate FirstDue(c: Conf, s: Sink, now: real, places: seq<nat>) {
    && (forall e | e in s.retry :: e in s.heap)
    && Ascending(places) && |places| <= Limit(c) && Within(places, |s.retry|)
    && (forall i :: 0 <= i < |places| ==> s.heap[s.retry[places[i]]].due <= now)
    && (forall j :: 0 <= j < |s.retry| && s.heap[s.retry[j]].due <= now && j !in places ==>
        |places| >= c.batch && Within(places, j))
  }

  /** The requests `late` are the oldest in flight, each unanswered for the timeout
      at `now`; short of the limit, the oldest one left is younger than that. */
  ghost predicate FirstLate(c: Conf, s: Sink, now: real, late: seq<nat>) {
    && (forall n | n in s.pending :: s.pending[n] in s.heap)
    && Ascending(late) && |late| <= Limit(c)
    && (forall n | n in late :: n in s.pending && now - s.heap[s.pending[n]].sentAt >= c.ackTimeout)
    && (forall n | n in s.pending && n !in late ::
        && (forall m | m in late :: m < n)
        && (|late| < Limit(c) && (forall m | m in s.pending && m !in late :: n <= m) ==>
            now - s.heap[s.pending[n]].sentAt < c.ackTimeout))
  }

  /** The entries at those places. */
  function At(q: seq<Entry>, places: seq<nat>): seq<Entry>
    requires Within(places, |q|)
  {
    seq(|places|, i requires 0 <= i < |places| => q[places[i]])
  }

  function Dues(due: seq<Entry>): seq<Event> {
    seq(|due|, i requires 0 <= i < |due| => Due(due[i]))
  }

  function Lates(late: seq<nat>): seq<Event> {
    seq(|late|, i requires 0 <= i < |late| => Late(late[i]))
  }

  /** The retries due have left the retry map for the back of the queue, and the
      rest have not. */
  ghost predicate Promoted(s: Sink, s': Sink, places: seq<nat>)
    requires Within(places, |s.retry|)
  {
    && s'.queue == s.queue + At(s.retry, places)
    && (forall j :: 0 <= j < |s.retry| ==> (s.retry[j] in s'.retry <==> j !in places))
    && (forall e | e in s'.retry :: e in s.retry)
    && s'.pending == s.pending && s'.lastSeq == s.lastSeq
  }

  /** The overdue requests are no longer in flight, and each is queued again. */
  ghost predicate Swept(s: Sink, s': Sink, late: seq<nat>) {
    && (forall n :: n in s'.pending <==> n in s.pending && n !in late)
    && (forall n | n in s'.pending :: n in s.pending && s'.pending[n] == s.pending[n])
    && (forall n | n in late && n in s.pending :: s.pending[n] in s'.queue)
    && |s'.queue| <= |s.queue| + |late|
    && (forall e | e in s'.retry :: e in s.retry) && s'.lastSeq == s.lastSeq
  }

  // ----- against a kernel that takes everything --------------------------------------

  /** A step of the flush phases at which nothing goes wrong. */
  predicate Gentle(ev: Event, since: real) {
    ev.Due? || ev.Late? || ev.Reply?
    || (ev.Write? && ev.outcome.Delivered? && ev.outcome.verdict.Accept? && ev.now >= since)
  }

  /** An answer that leaves nothing to retry. */
  predicate Good(r: Rec, code: nat) {
    code == 0 || (r.kind == Del && AlreadyGone(code))
  }

  /** Nothing awaits a retry, no awaited answer will ask for one, and nothing in
      flight was sent before `since`. */
  ghost predicate Calm(w: World, since: real) {
    && w.sink.retry == []
    && (forall k | k in w.sink.entries :: CalmAt(w, w.sink.entries[k]))
    && (forall n | n in w.sink.pending ::
        w.sink.pending[n] in w.sink.heap && w.sink.heap[w.sink.pending[n]].sentAt >= since)
  }

  predicate CalmAt(w: World, e: Entry) {
    e in w.sink.heap &&
    var r := w.sink.heap[e];
    r.stage == Sent ==>
      forall i :: 0 <= i < |w.inbox| && w.inbox[i].seqno == r.seqno ==> Good(r, w.inbox[i].code)
  }

  /** An accepted request is answered well. */
  lemma AcceptedIsGood(t: Table, q: Request, v: Verdict)
    requires v.Accept?
    ensures KernelDo(t, q, v).1 == 0 || (q.kind == Del && AlreadyGone(KernelDo(t, q, v).1))
  {
  }

  lemma WriteIsCalm(c: Conf, w: World, v: Verdict, now: real, since: real)
    requires Flow(c, w) && HasWork(w) && w.sink.lastSeq < MAX_SEQ && v.Accept? && now >= since
    requires Calm(w, since)
    ensures Calm(SendHead(c, w, Delivered(v), now), since)
  {
    hide Without, KernelDo, Flow, Lossless;
    var w' := SendHead(c, w, Delivered(v), now);
    var e := w.sink.queue[0];
    AcceptedIsGood(w.table, RequestOf(c, e.key, w.sink.heap[e]), v);
    forall k | k in w'.sink.entries ensures CalmAt(w', w'.sink.entries[k]) {
      NotYetAnswered(c, w, w.sink.entries[k], k);
      assert CalmAt(w, w.sink.entries[k]);
    }
  }

  /** No answer waiting, and no latest request, is newer than the last number used. */
  lemma NotYetAnswered(c: Conf, w: World, e: Entry, k: Key)
    requires Flow(c, w) && k in w.sink.entries && w.sink.entries[k] == e
    ensures e in w.sink.heap && w.sink.heap[e].seqno <= w.sink.lastSeq
    ensures forall i :: 0 <= i < |w.inbox| ==> w.inbox[i].seqno <= w.sink.lastSeq
  {
    assert RecStaged(w.sink, e);
  }

  lemma ReplyIsCalm(c: Conf, w: World, now: real, since: real)
    requires Flow(c, w) && w.inbox != [] && Calm(w, since)
    ensures Calm(ReadAck(w, now), since)
  {
    hide Flow, Calm, RecordSuccess;
    FlowIsResolved(c, w);
    TakenIsCalm(w, since);
    if Answerable(w) {
      var e := w.sink.pending[w.inbox[0].seqno];
      AnswerIsCalm(c, w, since);
      GoodIsApplied(w, now);
      SuccessIsCalm(Taken(w), e, since);
    } else {
      StaleIsTaken(w, now);
    }
  }

  lemma TakenIsCalm(w: World, since: real)
    requires w.inbox != [] && Calm(w, since)
    ensures Calm(Taken(w), since)
  {
    var w' := Taken(w);
    assert forall i :: 0 <= i < |w'.inbox| ==> w'.inbox[i] == w.inbox[i + 1];
    forall k | k in w'.sink.entries ensures CalmAt(w', w'.sink.entries[k]) {
      assert CalmAt(w, w.sink.entries[k]);
    }
  }

  lemma AnswerIsCalm(c: Conf, w: World, since: real)
    requires Flow(c, w) && Answerable(w) && Calm(w, since)
    ensures var e := w.sink.pending[w.inbox[0].seqno];
      Live(w.sink, e) && Good(w.sink.heap[e], w.inbox[0].code)
  {
    hide Knows, Lossless, Staged;
    var e := w.sink.pending[w.inbox[0].seqno];
    assert Live(w.sink, e);
    assert CalmAt(w, w.sink.entries[e.key]);
  }

  lemma GoodIsApplied(w: World, now: real)
    requires Resolved(w.sink) && Answerable(w)
    requires Good(w.sink.heap[w.sink.pending[w.inbox[0].seqno]], w.inbox[0].code)
    ensures ReadAck(w, now) == Taken(w).(sink := RecordSuccess(Taken(w).sink, w.sink.pending[w.inbox[0].seqno]))
  {
    hide RecordSuccess, Put, Without;
  }

  lemma SuccessIsCalm(w: World, e: Entry, since: real)
    requires e in w.sink.heap && Calm(w, since)
    ensures Calm(w.(sink := RecordSuccess(w.sink, e)), since)
  {
    var w' := w.(sink := RecordSuccess(w.sink, e));
    forall k | k in w'.sink.entries ensures CalmAt(w', w'.sink.entries[k]) {
      assert CalmAt(w, w.sink.entries[k]);
    }
  }

  lemma LateIsCalm(c: Conf, w: World, n: nat, since: real)
    requires Flow(c, w) && n in w.sink.pending && Calm(w, since)
    ensures Calm(w.(sink := Expire(w.sink, n)), since)
  {
    hide Flow;
    FlowIsResolved(c, w);
    var w' := w.(sink := Expire(w.sink, n));
    forall k | k in w'.sink.entries ensures CalmAt(w', w'.sink.entries[k]) {
      assert CalmAt(w, w.sink.entries[k]);
    }
  }

  lemma StepIsCalm(c: Conf, w: World, ev: Event, since: real)
    requires Flow(c, w) && Enabled(c, w, ev) && Gentle(ev, since) && Calm(w, since)
    ensures Calm(Next(c, w, ev), since)
  {
    hide Flow, Calm, SendHead, ReadAck, Expire;
    match ev
    case Write(o, now) => WriteIsCalm(c, w, o.verdict, now, since);
    case Reply(now) => ReplyIsCalm(c, w, now, since);
    case Late(n) => LateIsCalm(c, w, n, since);
    case Due(e) => NothingDue(w, e, since);
  }

  lemma NothingDue(w: World, e: Entry, since: real)
    requires Calm(w, since)
    ensures e !in w.sink.retry
  {
  }

  /** Calm stays: an accepted request is answered well. */
  lemma {:induction false} RunIsCalm(c: Conf, w: World, run: seq<Event>, since: real)
    requires Flow(c, w) && Legal(c, w, run) && Calm(w, since)
    requires forall i :: 0 <= i < |run| ==> Gentle(run[i], since)
    ensures Calm(After(c, w, run), since)
    decreases |run|
  {
    hide Flow, Enabled, Step, Calm;
    if run != [] {
      StepIsCalm(c, w, run[0], since);
      RunIsCalm(c, Next(c, w, run[0]), run[1..], since);
    }
  }

  /** With nothing in flight or awaiting a retry, all is calm. */
  lemma StartsCalm(c: Conf, w: World, since: real)
    requires Flow(c, w) && w.sink.pending == map[] && w.sink.retry == []
    ensures Calm(w, since)
  {
    forall k | k in w.sink.entries ensures CalmAt(w, w.sink.entries[k]) {
      assert RecStaged(w.sink, w.sink.entries[k]);
    }
  }

  /** Within the timeout of the oldest request, calm means nothing to promote and
      nothing to sweep. */
  lemma CalmHasNothingLate(c: Conf, w: World, since: real, now: real, places: seq<nat>,
      late: seq<nat>)
    requires Calm(w, since) && now - since < c.ackTimeout
    requires FirstDue(c, w.sink, now, places)
    ensures places == []
    ensures FirstLate(c, w.sink, now, late) ==> late == []
  {
    if places != [] { SomePlace(places, |w.sink.retry|); }
    if late != [] { assert late[0] in late; }
  }

  // ----- the scan for retries due -------------------------------------------------------

  /** The first `i` retries have been looked at. */
  ghost predicate DueSoFar(s: Sink, now: real, places: seq<nat>, i: nat) {
    && (forall e | e in s.retry :: e in s.heap)
    && i <= |s.retry| && Ascending(places) && Within(places, i)
    && (forall k :: 0 <= k < |places| ==> s.heap[s.retry[places[k]]].due <= now)
    && (forall j :: 0 <= j < i && s.heap[s.retry[j]].due <= now ==> j in places)
  }

  lemma NoneDueYet(s: Sink, now: real)
    requires forall e | e in s.retry :: e in s.heap
    ensures DueSoFar(s, now, [], 0)
  {
  }

  lemma OneMoreDue(s: Sink, now: real, places: seq<nat>, i: nat)
    requires DueSoFar(s, now, places, i) && i < |s.retry|
    ensures s.retry[i] in s.heap && Within(places, |s.retry|)
    ensures s.heap[s.retry[i]].due > now ==> DueSoFar(s, now, places, i + 1)
    ensures s.heap[s.retry[i]].due <= now ==>
      && DueSoFar(s, now, places + [i], i + 1) && Within(places + [i], |s.retry|)
      && At(s.retry, places + [i]) == At(s.retry, places) + [s.retry[i]]
  {
    assert s.retry[i] in s.retry;
    assert (places + [i])[|places|] == i;
    assert forall j :: j in places ==> j in places + [i];
  }

  lemma DueIsFirst(c: Conf, s: Sink, now: real, places: seq<nat>, i: nat)
    requires DueSoFar(s, now, places, i)
    requires |places| <= Limit(c) && (|places| >= c.batch || i == |s.retry|)
    ensures FirstDue(c, s, now, places)
  {
  }

  // ----- promoting, one retry at a time ------------------------------------------------

  ghost predicate NoTwins(q: seq<Entry>) {
    forall i, j :: 0 <= i < j < |q| ==> q[i].key != q[j].key
  }

  /** The first `i` of the retries due have been promoted. */
  ghost predicate Promoting(s0: Sink, s: Sink, due: seq<Entry>, i: nat) {
    && i <= |due| && NoTwins(s0.retry) && NoTwins(due) && (forall e | e in due :: e in s0.retry)
    && s.queue == s0.queue + due[..i]
    && (forall e | e in s0.retry :: e in s.retry <==> e !in due[..i]) && (forall e | e in s.retry :: e in s0.retry)
    && s.pending == s0.pending && s.lastSeq == s0.lastSeq
  }

  lemma PromotingStarts(s: Sink, due: seq<Entry>, places: seq<nat>)
    requires NoTwins(s.retry) && Ascending(places) && Within(places, |s.retry|) && due == At(s.retry, places)
    ensures Promoting(s, s, due, 0)
  {
    assert due[..0] == [] && s.queue + [] == s.queue;
    forall i, j | 0 <= i < j < |due| ensures due[i].key != due[j].key {
      assert places[i] < places[j];
    }
  }

  lemma PromotingGoesOn(c: Conf, s0: Sink, w: World, due: seq<Entry>, i: nat)
    requires Flow(c, w) && Promoting(s0, w.sink, due, i) && i < |due|
    ensures due[i] in w.sink.heap && due[i] in w.sink.retry
    ensures Promoting(s0, Promote(w.sink, due[i]), due, i + 1)
  {
    hide Without, Knows, Lossless, InFlight, Promote;
    var s, e := w.sink, due[i];
    assert due[..i + 1] == due[..i] + [e];
    assert e !in due[..i];
    assert e in s0.retry && e in s.retry;
    PromoteOne(s, e);
    forall x | x in s0.retry && x.key == e.key ensures x == e { SameKey(s0.retry, x, e); }
  }

  lemma SameKey(q: seq<Entry>, x: Entry, e: Entry)
    requires NoTwins(q) && x in q && e in q && x.key == e.key
    ensures x == e
  {
    var i :| 0 <= i < |q| && q[i] == x;
    var j :| 0 <= j < |q| && q[j] == e;
  }

  lemma PromoteOne(s: Sink, e: Entry)
    requires KeyedByEntry(s) && Staged(s) && e in s.retry
    ensures e in s.heap
    ensures var s' := Promote(s, e);
      && s'.queue == s.queue + [e] && s'.pending == s.pending && s'.lastSeq == s.lastSeq
      && (forall x | x in s.retry :: x in s'.retry <==> x.key != e.key) && (forall x | x in s'.retry :: x in s.retry)
  {
    hide Without;
    assert Live(s, e) && s.heap[e].stage == Retry;
    forall x | x in s.queue ensures x.key != e.key { assert Live(s, x) && s.heap[x].stage == Queued; }
    WithoutAbsent(s.queue, e.key);
  }

  lemma PromotingEnds(s0: Sink, s: Sink, due: seq<Entry>, places: seq<nat>)
    requires Promoting(s0, s, due, |due|)
    requires Ascending(places) && Within(places, |s0.retry|) && due == At(s0.retry, places)
    ensures Promoted(s0, s, places)
  {
    assert due[..|due|] == due;
    forall j | 0 <= j < |s0.retry| ensures s0.retry[j] in due <==> j in places {
      if j in places {
        var i :| 0 <= i < |places| && places[i] == j;
        assert due[i] == s0.retry[j];
      }
      if s0.retry[j] in due {
        var i :| 0 <= i < |due| && due[i] == s0.retry[j];
        assert s0.retry[places[i]].key == s0.retry[j].key;
      }
    }
  }

  // ----- sweeping, one request at a time ------------------------------------------------

  lemma PendingIsBounded(c: Conf, w: World)
    requires Flow(c, w)
    ensures forall n | n in w.sink.pending :: w.sink.pending[n] in w.sink.heap && n <= w.sink.lastSeq
  {
  }

  lemma SweepingStarts(s: Sink, late: seq<nat>)
    ensures Swept(s, s, late[..0])
  {
  }

  lemma SweepingGoesOn(c: Conf, s0: Sink, w: World, late: seq<nat>, i: nat)
    requires Flow(c, w) && i < |late| && Ascending(late) && Swept(s0, w.sink, late[..i])
    requires forall n | n in late :: n in s0.pending
    ensures late[i] in w.sink.pending && w.sink.pending[late[i]] in w.sink.heap
    ensures Swept(s0, Expire(w.sink, late[i]), late[..i + 1])
  {
    hide Flow, Expire;
    var n := late[i];
    assert n in late && late[..i + 1] == late[..i] + [n];
    forall j | 0 <= j < i ensures late[..i][j] != n { assert late[j] < late[i]; }
    assert n !in late[..i];
    ExpireOne(c, w, n);
  }

  lemma ExpireOne(c: Conf, w: World, n: nat)
    requires Flow(c, w) && n in w.sink.pending
    ensures w.sink.pending[n] in w.sink.heap
    ensures var s, s' := w.sink, Expire(w.sink, n);
      && s'.pending == s.pending - {n} && s'.lastSeq == s.lastSeq
      && s.pending[n] in s'.queue && (forall x | x in s.queue :: x in s'.queue) && |s'.queue| <= |s.queue| + 1
      && (forall x | x in s'.retry :: x in s.retry)
  {
    hide Without, Knows, Lossless, RecStaged;
    var s, s' := w.sink, Expire(w.sink, n);
    var e := s.pending[n];
    assert Live(s, e);
    assert s'.queue == Without(s.queue, e.key) + [e];
    assert e == s'.queue[|Without(s.queue, e.key)|];
    forall x | x in s.queue ensures x in s'.queue {
      assert Live(s, x);
    }
  }

  lemma PhasesKeepSeq(s0: Sink, s1: Sink, s2: Sink, places: seq<nat>, late: seq<nat>)
    requires Within(places, |s0.retry|) && Promoted(s0, s1, places) && Swept(s1, s2, late)
    ensures s2.lastSeq == s0.lastSeq
  {
  }

  // ----- one flush ---------------------------------------------------------------------

  /** Writes at `now`, of which `sent` did not block and at most the last one did. */
  predicate WritesAt(run: seq<Event>, now: real, sent: nat) {
    && sent <= |run| <= sent + 1
    && forall i :: 0 <= i < |run| ==>
        run[i].Write? && run[i].now == now && (run[i].outcome.Blocked? <==> i == sent)
  }

  lemma NoWrites(now: real)
    ensures WritesAt([], now, 0) && AllTaken([]) && FlushOnly([])
  {
  }

  lemma OneMoreWrite(run: seq<Event>, now: real, o: Outcome)
    requires WritesAt(run, now, |run|) && FlushOnly(run)
    ensures FlushOnly(run + [Write(o, now)])
    ensures WritesAt(run + [Write(o, now)], now, if o.Blocked? then |run| else |run| + 1)
    ensures AllTaken(run) && o.Delivered? && o.verdict.Accept? ==> AllTaken(run + [Write(o, now)])
  {
  }

  /** The kernel took and accepted every request. */
  predicate AllTaken(run: seq<Event>) {
    forall i :: 0 <= i < |run| && run[i].Write? ==> run[i].outcome.Delivered? && run[i].outcome.verdict.Accept?
  }

  predicate RepliesAt(run: seq<Event>, now: real) {
    forall i :: 0 <= i < |run| ==> run[i] == Reply(now)
  }

  /** What one flush did, and the system between its phases. */
  datatype Turn = Turn(
    places: seq<nat>, late: seq<nat>, writes: seq<Event>, replies: seq<Event>,
    promoted: World, swept: World, written: World, sent: nat)

  /** The four phases of one flush at `now`: every retry due is promoted and every
      overdue request swept, up to the limit; then requests are written until the
      batch, the queue or the window ends it or the socket blocks; then answers are
      read. */
  ghost predicate Flushed(c: Conf, w0: World, now: real, did: Turn, w: World) {
    && FirstDue(c, w0.sink, now, did.places)
    && Path(c, w0, Dues(At(w0.sink.retry, did.places)), did.promoted)
    && Promoted(w0.sink, did.promoted.sink, did.places)
    && FirstLate(c, did.promoted.sink, now, did.late)
    && Path(c, did.promoted, Lates(did.late), did.swept)
    && Swept(did.promoted.sink, did.swept.sink, did.late)
    && WritesAt(did.writes, now, did.sent) && did.sent <= c.batch
    && Path(c, did.swept, did.writes, did.written)
    && (did.sent == c.batch || did.written.sink.queue == [] || |did.written.sink.pending| >= c.window
        || did.sent < |did.writes|)
    && RepliesAt(did.replies, now) && Path(c, did.written, did.replies, w)
  }

  /** Everything a flush did, in order. */
  function TurnRun(q: seq<Entry>, did: Turn): seq<Event>
    requires Within(did.places, |q|)
  {
    Dues(At(q, did.places)) + Lates(did.late) + did.writes + did.replies
  }

  lemma FlushedIsPath(c: Conf, w0: World, now: real, did: Turn, w: World)
    requires Flushed(c, w0, now, did, w)
    ensures Path(c, w0, TurnRun(w0.sink.retry, did), w) && FlushOnly(TurnRun(w0.sink.retry, did))
  {
    hide Path, FirstLate, Promoted, Swept;
    var a, b := Dues(At(w0.sink.retry, did.places)), Lates(did.late);
    PathChains(c, w0, a, did.promoted, b, did.swept);
    PathChains(c, w0, a + b, did.swept, did.writes, did.written);
    PathChains(c, w0, a + b + did.writes, did.written, did.replies, w);
  }

  lemma EmptyRun(c: Conf, w0: World, w: World)
    requires Path(c, w0, [], w)
    ensures w == w0
  {
    hide Flow;
  }

  /** A flush at which every request is accepted leaves a calm system calm, and
      within the timeout promotes and sweeps nothing. */
  lemma FlushIsCalm(c: Conf, w0: World, now: real, did: Turn, w: World, since: real)
    requires Flushed(c, w0, now, did, w) && AllTaken(did.writes) && Calm(w0, since)
    requires since <= now < since + c.ackTimeout
    ensures Calm(w, since) && did.swept == w0
  {
    hide Flow, Calm, FirstDue, FirstLate, Promoted, Swept, Path;
    CalmHasNothingLate(c, w0, since, now, did.places, did.late);
    assert Dues(At(w0.sink.retry, did.places)) == [];
    EmptyRun(c, w0, did.promoted);
    assert Lates(did.late) == [];
    EmptyRun(c, w0, did.swept);
    PathIsCalm(c, w0, did.writes, did.written, since);
    PathIsCalm(c, did.written, did.replies, w, since);
  }

  lemma PathIsCalm(c: Conf, w0: World, run: seq<Event>, w: World, since: real)
    requires Path(c, w0, run, w) && Calm(w0, since) && forall i :: 0 <= i < |run| ==> Gentle(run[i], since)
    ensures Calm(w, since)
  {
    hide Flow, Calm;
    RunIsCalm(c, w0, run, since);
  }

  // ----- a whole table -----------------------------------------------------------------

  /** One offer for each route the kernel can express, in order; `at` says which. */
  predicate FittingOffers(run: seq<Event>, routes: seq<Route>, at: seq<nat>) {
    && |at| == |run| && Ascending(at) && Within(at, |routes|)
    && (forall k :: 0 <= k < |run| ==> run[k].Offer? && run[k].route == routes[at[k]] && Fits(routes[at[k]]))
    && (forall j :: 0 <= j < |routes| && Fits(routes[j]) ==> j in at)
  }

  lemma NoOffers(routes: seq<Route>)
    ensures FittingOffers([], routes[..0], [])
  {
  }

  lemma OneMoreOffer(run: seq<Event>, routes: seq<Route>, at: seq<nat>, i: nat, ev: seq<Event>)
    requires i < |routes| && FittingOffers(run, routes[..i], at)
    requires if Fits(routes[i]) then |ev| == 1 && ev[0].Offer? && ev[0].route == routes[i] else ev == []
    ensures FittingOffers(run + ev, routes[..i + 1], at + seq(|ev|, _ => i))
  {
    var at' := at + seq(|ev|, _ => i);
    assert forall j :: 0 <= j < i ==> routes[..i + 1][j] == routes[..i][j];
    if Fits(routes[i]) { assert at'[|at|] == i; }
    assert forall j :: j in at ==> j in at';
  }

  lemma FitsIff(c: Conf, r: Route)
    ensures Fits(r) <==> Expressible(c, r)
  {
  }

  /** With nothing awaiting a retry or in flight, an install leaves it so. */
  lemma InstallStaysQuiet(c: Conf, s: Sink, route: Route, made: Entry)
    requires Core(s) && MayAllocate(c, s, route, made) && Expressible(c, route)
    requires s.retry == [] && s.pending == map[]
    ensures var s' := Install(c, s, route, made);
      s'.retry == [] && s'.pending == map[] && |s'.queue| <= |s.queue| + 2
  {
    hide Attrs, Install, Staged, InFlight, Retire, Offered;
    var t := Attrs(c, route).value;
    var p, k := route.prefix, Key(route.prefix, t.priority);
    InstallSplits(c, s, route, made);
    OfferedStaysQuiet(s, k, t.hop, made);
    var s2 := Offered(s, k, t.hop, made).(prefixKey := s.prefixKey[p := k]);
    if p in s.prefixKey && s.prefixKey[p] != k { RetireStaysQuiet(s2, s.prefixKey[p]); }
  }

  lemma OfferedStaysQuiet(s: Sink, k: Key, hop: Hop, made: Entry)
    requires KeyedByEntry(s) && s.retry == []
    ensures var s' := Offered(s, k, hop, made);
      s'.retry == [] && s'.pending == s.pending && |s'.queue| <= |s.queue| + 1
  {
    hide Without;
    NothingWithout();
  }

  lemma RetireStaysQuiet(s: Sink, k: Key)
    requires KeyedByEntry(s) && s.retry == [] && s.pending == map[]
    ensures var s' := Retire(s, k);
      s'.retry == [] && s'.pending == map[] && |s'.queue| <= |s.queue| + 1
  {
    hide Without;
    NothingWithout();
  }

  lemma NothingWithout()
    ensures forall k :: Without([], k) == []
  {
  }

  lemma OfferExtends(c: Conf, w0: World, run: seq<Event>, w: World, route: Route, made: Entry)
    requires Path(c, w0, run, w) && Inv(c, w) && MayAllocate(c, w.sink, route, made)
    ensures KeyedByEntry(w.sink)
    ensures var w' := w.(sink := Install(c, w.sink, route, made));
      Path(c, w0, run + [Offer(route, made)], w') && Inv(c, w')
  {
    hide Flow, Path, Install, Indexed, MayAllocate;
    FlowIsResolved(c, w);
    PathExtends(c, w0, run, w, Offer(route, made));
    PathIsFlow(c, w0, run + [Offer(route, made)], w.(sink := Install(c, w.sink, route, made)));
    FlowIsResolved(c, w.(sink := Install(c, w.sink, route, made)));
    StepIndexed(c, w, Offer(route, made));
  }

  /** The last route for its destination that the kernel can express. */
  predicate LastFit(routes: seq<Route>, i: nat)
    requires i < |routes|
  {
    Fits(routes[i]) && forall j :: i < j < |routes| && routes[j].prefix == routes[i].prefix ==> !Fits(routes[j])
  }

  lemma FreshIsReady(c: Conf, w: World)
    requires Fresh(c, w)
    ensures Inv(c, w) && w.sink.retry == [] && w.sink.pending == map[] && w.sink.queue == [] && w.inbox == []
  {
    FreshInv(c, w);
  }

  /** Once idle, the offers before the flushes are all in the kernel. */
  lemma OffersAreHeld(c: Conf, w0: World, offers: seq<Event>, w1: World, run: seq<Event>, w: World,
      routes: seq<Route>, at: seq<nat>)
    requires Fresh(c, w0) && Path(c, w0, offers, w1) && Path(c, w1, run, w) && Idle(w.sink)
    requires FittingOffers(offers, routes, at) && FlushOnly(run)
    ensures forall i :: 0 <= i < |routes| && LastFit(routes, i) ==> HoldsRoute(c, w.table, routes[i])
    ensures forall k: Key | (forall r | r in routes :: r.prefix != k.prefix || !Fits(r)) :: !OursAt(c, w.table, k)
  {
    hide Flow, Indexed, Legal, After, Fresh, Idle, HoldsRoute, OursAt, FittingOffers, LastFit, Fits;
    FreshIsReady(c, w0);
    PathChains(c, w0, offers, w1, run, w);
    var evs := offers + run;
    forall i | 0 <= i < |routes| && LastFit(routes, i) ensures HoldsRoute(c, w.table, routes[i]) {
      var k := LastFitIsLast(offers, run, routes, at, i);
      OfferedIsHeld(c, w0, evs, routes[i].prefix, k);
    }
    forall k: Key | (forall r | r in routes :: r.prefix != k.prefix || !Fits(r)) ensures !OursAt(c, w.table, k) {
      NeverOffered(offers, run, routes, at, k.prefix);
      DroppedIsGone(c, w0, evs, k.prefix, 0);
    }
  }

  lemma LastFitIsLast(offers: seq<Event>, run: seq<Event>, routes: seq<Route>, at: seq<nat>, i: nat) returns (k: nat)
    requires FittingOffers(offers, routes, at) && FlushOnly(run) && i < |routes| && LastFit(routes, i)
    ensures var evs, p := offers + run, routes[i].prefix;
      k < |evs| && OffersAt(evs[k], p) && evs[k].route == routes[i] && SettledFrom(evs, p, k + 1)
  {
    hide Fits;
    k :| 0 <= k < |at| && at[k] == i;
    var evs, p := offers + run, routes[i].prefix;
    forall j | k < j < |evs| ensures !OffersAt(evs[j], p) && evs[j] != Drop(p) {
      if j < |offers| { assert evs[j] == offers[j] && at[k] < at[j]; } else { assert evs[j] == run[j - |offers|]; }
    }
  }

  lemma NeverOffered(offers: seq<Event>, run: seq<Event>, routes: seq<Route>, at: seq<nat>, p: Prefix)
    requires FittingOffers(offers, routes, at) && FlushOnly(run)
    requires forall r | r in routes :: r.prefix != p || !Fits(r)
    ensures forall j :: 0 <= j < |offers + run| ==> !OffersAt((offers + run)[j], p)
  {
    hide Fits;
    var evs := offers + run;
    forall j | 0 <= j < |evs| ensures !OffersAt(evs[j], p) {
      if j < |offers| {
        assert evs[j] == offers[j] && routes[at[j]] in routes;
      } else {
        assert evs[j] == run[j - |offers|];
      }
    }
  }

  // ----- backing off --------------------------------------------------------------------

  lemma {:induction false} PowGrows(n: nat)
    ensures n >= 6 ==> Pow2(n) >= 64
    ensures Pow2(n + 1) == 2 * Pow2(n) >= 2
  {
    if n > 6 { PowGrows(n - 1); }
    if n == 6 { assert Pow2(6) == 2 * Pow2(5) && Pow2(5) == 2 * Pow2(4) && Pow2(4) == 2 * Pow2(3); }
  }

  /** The wait after a failure: a second after the first, twice as long after each
      further one in a row, but never more than a minute. */
  lemma BackoffDoubles(attempts: nat)
    ensures BackoffDelay(1) == 1.0 && 1.0 <= BackoffDelay(attempts) <= 60.0
    ensures attempts >= 1 ==>
      BackoffDelay(attempts + 1) ==
        if 2.0 * BackoffDelay(attempts) < 60.0 then 2.0 * BackoffDelay(attempts) else 60.0
  {
    if attempts > 1 {
      PowGrows(attempts - 2);
      PowGrows(attempts - 1);
    }
    PowGrows(32);
    PowGrows(31);
  }

  /** A refused request waits that long, counted from its answer, before any flush
      promotes it; an accepted add starts the count again. */
  lemma AnsweredWaits(c: Conf, w: World, now: real)
    requires Flow(c, w) && Answerable(w)
    ensures var e, code, w' := w.sink.pending[w.inbox[0].seqno], w.inbox[0].code, ReadAck(w, now);
      var n := w.sink.heap[e].attempts + 1;
      && e in w'.sink.heap
      && (code > 0 && !(w.sink.heap[e].kind == Del && AlreadyGone(code)) ==>
          && e in w'.sink.retry && w'.sink.heap[e].attempts == n && w'.sink.heap[e].errno == code
          && w'.sink.heap[e].due == now + BackoffDelay(n)
          && (forall later: real, places: seq<nat>
              | FirstDue(c, w'.sink, later, places) && e in At(w'.sink.retry, places) ::
              later >= now + BackoffDelay(n)))
      && (code == 0 && w.sink.heap[e].kind == Add ==>
          w'.sink.heap[e].stage == Installed && w'.sink.heap[e].attempts == 0 && e !in w'.sink.retry)
  {
    hide Flow, BackoffDelay, Without;
    FlowIsResolved(c, w);
    var e, code, w' := w.sink.pending[w.inbox[0].seqno], w.inbox[0].code, ReadAck(w, now);
    SentIsNotRetried(c, w, e);
    forall later: real, places: seq<nat> | FirstDue(c, w'.sink, later, places) && e in At(w'.sink.retry, places)
      ensures later >= w'.sink.heap[e].due
    {
      DueByNow(c, w'.sink, later, places, e);
    }
  }

  lemma SentIsNotRetried(c: Conf, w: World, e: Entry)
    requires Flow(c, w) && e in w.sink.heap && w.sink.heap[e].stage == Sent
    ensures e !in w.sink.retry
  {
  }

  lemma DueByNow(c: Conf, s: Sink, now: real, places: seq<nat>, e: Entry)
    requires FirstDue(c, s, now, places) && e in At(s.retry, places)
    ensures e in s.heap && s.heap[e].due <= now
  {
    var i :| 0 <= i < |places| && At(s.retry, places)[i] == e;
    assert s.retry[places[i]] == e;
  }
}
