/** The netlink sink as an object: the methods that update its containers and
    entries in place, each tied to the transition it performs. */
module NetlinkSink {
  import opened Routes
  import opened SinkModel
  import opened SinkInvariant
  import opened SinkRun
  import opened SinkProgress
  import opened Reconcile
  import opened SinkShutdown

  /** The far end of the socket.  It decides freely, within `Honest`; a
      `reliable` one takes and accepts every request and lets every answer be read. */
  class Kernel {
    const reliable: bool
    var table: Table
    var inbox: seq<Ack>

    constructor (table: Table, reliable: bool)
      ensures this.table == table && inbox == [] && this.reliable == reliable
    {
      this.table, this.inbox, this.reliable := table, [], reliable;
    }

    /** `transport.send`, and the kernel's handling of the request inside it. */
    method Send(q: Request, n: nat) returns (o: Outcome)
      modifies this
      ensures o.Failed? ==> !AlreadyGone(o.code)
      ensures o.Delivered? ==>
        && Honest(old(table), q, o.verdict)
        && table == KernelDo(old(table), q, o.verdict).0
        && inbox == old(inbox) + [Ack(n, KernelDo(old(table), q, o.verdict).1)]
      ensures !o.Delivered? ==> table == old(table) && inbox == old(inbox)
      ensures reliable ==> o.Delivered? && o.verdict.Accept?
    {
      o := *;
      if reliable || (o.Delivered? && !Honest(table, q, o.verdict)) {
        o := Delivered(Accept(0));
      }
      match o {
        case Failed(code) => if AlreadyGone(code) { o := Failed(0); }
        case Blocked =>
        case Delivered(v) =>
          var (t, code) := KernelDo(table, q, v);
          table := t;
          inbox := inbox + [Ack(n, code)];
      }
    }

    /** `transport.recv`: how many answers the next datagram holds; 0 when the
        read would block. */
    method Recv() returns (n: nat)
      ensures n <= |inbox|
      ensures reliable && inbox != [] ==> n > 0
    {
      n := *;
      if n > |inbox| || reliable { n := |inbox|; }
    }

    method Take() returns (a: Ack)
      requires inbox != []
      modifies this
      ensures a == old(inbox)[0] && inbox == old(inbox)[1..] && table == old(table)
    {
      a, inbox := inbox[0], inbox[1..];
    }
  }

  class NetlinkSink {
    const conf: Conf
    const kernel: Kernel
    var entries: map<Key, Entry>
    var queue: seq<Entry>
    var pending: map<nat, Entry>
    var retry: seq<Entry>
    var prefixKey: map<Prefix, Key>
    var lastSeq: nat
    var acks: nat
    var isOpen: bool
    ghost var objs: set<Entry>

    constructor (conf: Conf, kernel: Kernel)
      ensures this.conf == conf && this.kernel == kernel && objs == {} && !isOpen
      ensures State() == EmptySink
    {
      this.conf, this.kernel := conf, kernel;
      entries, queue, pending, retry, prefixKey, lastSeq := map[], [], map[], [], map[], 0;
      acks, isOpen := 0, false;
      objs := {};
    }

    /** The kernel may refuse the socket. */
    method Open() returns (ok: bool)
      modifies this`isOpen
      ensures ok == isOpen && (old(isOpen) ==> ok) && State() == old(State())
    {
      if !isOpen {
        isOpen := *;
      }
      ok := isOpen;
    }

    /** Answers not yet read go with the socket; the containers are left alone. */
    method Close()
      modifies this`isOpen, kernel`inbox
      ensures !isOpen && kernel.inbox == [] && State() == old(State())
    {
      isOpen := false;
      kernel.inbox := [];
    }

    ghost function State(): Sink
      reads this, objs
    {
      Sink(map e | e in objs :: e.Now(), entries, queue, pending, retry, prefixKey, lastSeq)
    }

    ghost function Whole(): World
      reads this, objs, kernel
    {
      World(State(), kernel.table, kernel.inbox)
    }

    /** One entry's fields changed, and no other's. */
    twostate lemma Touched(e: Entry)
      requires e in objs && objs == old(objs)
      requires forall x | x in objs && x != e :: x.Now() == old(x.Now())
      ensures State().heap == old(State().heap)[e := e.Now()]
    {
    }

    // ----- the queue ------------------------------------------------------------

    method Enqueue(e: Entry)
      requires e in objs
      modifies this`queue, this`retry, e
      ensures State() == SinkModel.Enqueue(old(State()), e)
    {
      hide Without;
      retry := Without(retry, e.key);
      queue := Without(queue, e.key);
      queue := queue + [e];
      e.stage := Queued;
      Touched(e);
    }

    method Forget(e: Entry)
      requires e in objs
      modifies this`queue, this`retry, this`entries, this`pending
      ensures State() == SinkModel.Forget(old(State()), e)
    {
      hide Without;
      queue := Without(queue, e.key);
      retry := Without(retry, e.key);
      entries := entries - {e.key};
      if e.seqno != 0 {
        pending := pending - {e.seqno};
      }
    }

    method EntryFor(k: Key, hop: Hop) returns (e: Entry, ghost made: Entry)
      requires KeyedByEntry(State())
      modifies this`entries, this`objs
      ensures objs == old(objs) + {e} && made.key == k
      ensures k !in old(entries) ==> made !in old(objs) && fresh(made)
      ensures (State(), e) == SinkModel.EntryFor(old(State()), k, hop, made)
    {
      if k in entries {
        e := entries[k];
        made := e;
        assert objs == objs + {e};
      } else {
        e := new Entry(k, Add, hop);
        made := e;
        entries := entries[k := e];
        objs := objs + {e};
        assert State().heap == old(State().heap)[e := NewRec(Add, hop)];
      }
    }

    method Retire(k: Key)
      requires KeyedByEntry(State())
      modifies this`queue, this`retry, this`entries, this`pending, objs
      ensures State() == SinkModel.Retire(old(State()), k)
    {
      if k in entries {
        var e := entries[k];
        if !e.written {
          Forget(e);
        } else {
          e.kind, e.attempts, e.errno := Del, 0, 0;
          assert State().heap == old(State().heap)[e := e.Now()];
          Enqueue(e);
        }
      }
    }

    // ----- the FibSink surface --------------------------------------------------

    /** The add half of `install`: skip what the kernel already has, otherwise
        (re)queue an add. */
    method Offer(k: Key, hop: Hop) returns (ghost made: Entry)
      requires KeyedByEntry(State())
      modifies this`queue, this`retry, this`entries, this`objs, objs
      ensures fresh(objs - old(objs)) && made.key == k
      ensures k !in old(entries) ==> made !in old(objs)
      ensures State() == Offered(old(State()), k, hop, made) && KeyedByEntry(State())
    {
      hide SinkModel.Enqueue, Without;
      if k in entries && entries[k].kind == Add && entries[k].stage == Installed && entries[k].Matches(hop) {
        made := entries[k];
      } else {
        var e;
        e, made := EntryFor(k, hop);
        label found:
        e.Intend(Add, hop);
        Touched@found(e);
        assert State() == Update(old@found(State()), e, e.Now());
        Enqueue(e);
      }
    }

    method Install(route: Route)
      requires KeyedByEntry(State())
      modifies this`queue, this`retry, this`entries, this`pending, this`prefixKey, this`objs, objs
      ensures fresh(objs - old(objs))
      ensures !Expressible(conf, route) ==> State() == old(State())
      ensures Expressible(conf, route) ==> exists made: Entry ::
        && MayAllocate(conf, old(State()), route, made)
        && State() == SinkModel.Install(conf, old(State()), route, made)
    {
      hide SinkModel.Retire, SinkModel.EntryFor, SinkModel.Enqueue, AlreadyInstalled;
      var t := Attrs(conf, route);
      if t == None {
        return;
      }
      var k := Key(route.prefix, t.value.priority);
      var previous := if route.prefix in prefixKey then Some(prefixKey[route.prefix]) else None;
      ghost var made := Offer(k, t.value.hop);
      label offered:
      prefixKey := prefixKey[route.prefix := k];
      assert State() == old@offered(State()).(prefixKey := prefixKey);
      if previous != None && previous.value != k {
        Retire(previous.value);
      }
      assert MayAllocate(conf, old(State()), route, made);
      assert State() == SinkModel.Install(conf, old(State()), route, made);
    }

    method Withdraw(prefix: Prefix)
      requires KeyedByEntry(State())
      modifies this`queue, this`retry, this`entries, this`pending, this`prefixKey, objs
      ensures objs == old(objs)
      ensures State() == SinkModel.Withdraw(old(State()), prefix)
    {
      if prefix !in prefixKey {
        return;
      }
      var k := prefixKey[prefix];
      prefixKey := prefixKey - {prefix};
      if k !in entries {
        return;
      }
      var e := entries[k];
      if !e.written {
        Forget(e);
        return;
      }
      e.kind, e.errno := Del, 0;
      assert State().heap == old(State().heap)[e := e.Now()];
      Enqueue(e);
    }

    // ----- replies --------------------------------------------------------------

    method RecordSuccess(e: Entry)
      requires e in objs
      modifies this`queue, this`retry, this`entries, this`pending, e
      ensures State() == SinkModel.RecordSuccess(old(State()), e)
    {
      hide Without;
      if e.kind == Add {
        e.stage, e.errno := Installed, 0;
        if e.attempts != 0 {
          e.attempts := 0;
        }
        assert State().heap == old(State().heap)[e := e.Now()];
      } else {
        Forget(e);
      }
    }

    method RecordError(e: Entry, code: nat, now: real)
      requires e in objs
      modifies this`queue, this`retry, this`entries, this`pending, e
      ensures State() == SinkModel.RecordError(old(State()), e, code, now)
    {
      hide Without, Put, BackoffDelay, SinkModel.RecordSuccess;
      if e.kind == Del && AlreadyGone(code) {
        RecordSuccess(e);
      } else {
        ScheduleRetry(e, code, now);
      }
    }

    method ScheduleRetry(e: Entry, code: nat, now: real)
      requires e in objs && !(e.kind == Del && AlreadyGone(code))
      modifies this`queue, this`retry, e
      ensures State() == SinkModel.RecordError(old(State()), e, code, now)
    {
      hide Without, Put, BackoffDelay, SinkModel.RecordSuccess;
      queue := Without(queue, e.key);
      retry := Put(retry, e);
      e.Fail(code, now);
      Touched(e);
    }

    method Handle(seqno: nat, code: nat, now: real)
      requires forall n | n in pending :: pending[n] in objs
      modifies this`queue, this`retry, this`entries, this`pending, this`acks, objs
      ensures State() == SinkModel.Handle(old(State()), seqno, code, now)
      ensures acks >= old(acks)
    {
      hide SinkModel.RecordError, SinkModel.RecordSuccess;
      if seqno !in pending {
        return;
      }
      var e := pending[seqno];
      pending := pending - {seqno};
      assert State() == old(State()).(pending := pending);
      if e.seqno != seqno || e.stage != Sent {
        return;
      }
      acks := acks + 1;
      assert State() == old(State()).(pending := pending);
      if code > 0 {
        RecordError(e, code, now);
      } else {
        RecordSuccess(e);
      }
    }

    // ----- flush phases -----------------------------------------------------------

    /** One turn of the send loop: False when the socket would block. */
    method Send(now: real) returns (ok: bool, o: Outcome)
      requires queue != [] && queue[0] in objs && lastSeq < MAX_SEQ
      modifies this`queue, this`retry, this`entries, this`pending, this`lastSeq, objs, kernel
      ensures objs == old(objs) && acks == old(acks)
      ensures o.Failed? ==> !AlreadyGone(o.code)
      ensures o.Delivered? ==>
        var w := old(Whole()); Honest(w.table, RequestOf(conf, w.sink.queue[0].key, w.sink.heap[w.sink.queue[0]]),
            o.verdict)
      ensures Whole() == SendHead(conf, old(Whole()), o, now)
      ensures ok == !o.Blocked? && (kernel.reliable ==> o.Delivered? && o.verdict.Accept?)
    {
      hide Without, SinkModel.RecordError, Honest, KernelDo;
      var e := queue[0];
      var n := NextSeq(lastSeq);
      lastSeq := n;
      ghost var q := RequestOf(conf, e.key, e.Now());
      o := kernel.Send(Request(e.kind, KernelKey(conf.table, e.key),
        KernelRoute(conf.protocol, e.hop.gateway, e.hop.oif)), n);
      ok := !o.Blocked?;
      assert State() == old(State()).(lastSeq := n);
      if o.Failed? {
        queue := Without(queue, e.key);
        assert State() == old(State()).(queue := queue, lastSeq := n);
        RecordError(e, o.code, now);
      } else if o.Delivered? {
        MarkSent(e, n, now);
        assert State() == SinkModel.MarkSent(old(State()).(queue := queue, lastSeq := n), e, n, now);
      }
    }

    /** A request the socket took leaves the queue and is in flight. */
    method MarkSent(e: Entry, n: nat, now: real)
      requires e in objs
      modifies this`queue, this`pending, e
      ensures queue == Without(old(queue), e.key)
      ensures State() == SinkModel.MarkSent(old(State()).(queue := queue), e, n, now)
    {
      hide Without;
      queue := Without(queue, e.key);
      pending := pending[n := e];
      e.seqno, e.stage, e.sentAt, e.written := n, Sent, now, e.written || e.kind == Add;
      Touched(e);
    }

    /** Requests written by one batch: at most `batch`, never past the window. */
    method SendBatch(now: real) returns (sent: nat, ghost run: seq<Event>)
      requires Flow(conf, Whole()) && lastSeq + conf.batch <= MAX_SEQ
      modifies this, objs, kernel
      ensures isOpen == old(isOpen)
      ensures objs == old(objs) && Path(conf, old(Whole()), run, Whole()) && FlushOnly(run)
      ensures sent <= conf.batch && lastSeq <= old(lastSeq) + conf.batch && acks == old(acks)
      ensures WritesAt(run, now, sent) && (kernel.reliable ==> AllTaken(run))
      ensures sent == conf.batch || queue == [] || |pending| >= conf.window || sent < |run|
      ensures kernel.reliable ==> sent == |run|
      ensures Work(Whole()) + sent <= Work(old(Whole()))
    {
      hide Path, Flow, SendHead, Honest, RequestOf, WritesAt, AllTaken, FlushOnly, Work;
      sent, run := 0, [];
      NoWrites(now);
      EmptyPath(conf, Whole());
      while queue != [] && sent < conf.batch && |pending| < conf.window
        invariant isOpen == old(isOpen) && objs == old(objs) && Path(conf, old(Whole()), run, Whole()) && FlushOnly(run)
        invariant sent <= conf.batch && lastSeq == old(lastSeq) + sent && acks == old(acks)
        invariant sent == |run| && WritesAt(run, now, sent) && (kernel.reliable ==> AllTaken(run))
        invariant Work(Whole()) + sent <= Work(old(Whole()))
        decreases conf.batch - sent
      {
        ghost var w := Whole();
        PathIsFlow(conf, old(Whole()), run, w);
        HeadIsLive(conf, w);
        var ok, o := Send(now);
        WriteMoves(conf, old(Whole()), run, w, o, now);
        OneMoreWrite(run, now, o);
        run := run + [Write(o, now)];
        if !ok {
          break;
        }
        sent := sent + 1;
      }
    }

    /** Read and apply answers until `limit` have been processed or the socket
        would block; a datagram is always processed whole. */
    method ReadAcks(limit: nat, now: real) returns (processed: nat, ghost run: seq<Event>)
      requires Flow(conf, Whole())
      modifies this, objs, kernel
      ensures isOpen == old(isOpen)
      ensures objs == old(objs) && Path(conf, old(Whole()), run, Whole()) && FlushOnly(run)
      ensures lastSeq == old(lastSeq)
      ensures Work(Whole()) + processed <= Work(old(Whole()))
      ensures acks >= old(acks) && (processed == 0 ==> Whole() == old(Whole()) && acks == old(acks))
      ensures RepliesAt(run, now) && processed == |run|
      ensures kernel.reliable ==> processed >= limit || kernel.inbox == []
    {
      hide Path, Flow, Enabled, Step, SinkModel.Handle;
      processed, run := 0, [];
      EmptyPath(conf, Whole());
      while processed < limit
        invariant isOpen == old(isOpen) && objs == old(objs) && Path(conf, old(Whole()), run, Whole()) && FlushOnly(run)
        invariant lastSeq == old(lastSeq) && acks >= old(acks) && RepliesAt(run, now) && processed == |run|
        invariant processed == 0 ==> Whole() == old(Whole()) && acks == old(acks)
        invariant Work(Whole()) + processed <= Work(old(Whole()))
        decreases limit - processed
      {
        var n := kernel.Recv();
        if n == 0 {
          break;
        }
        var i := 0;
        ghost var before := processed;
        while i < n
          invariant 0 <= i <= n && n - i <= |kernel.inbox| && processed == before + i
          invariant isOpen == old(isOpen) && objs == old(objs) && Path(conf, old(Whole()), run, Whole())
              && FlushOnly(run)
          invariant lastSeq == old(lastSeq) && acks >= old(acks) && RepliesAt(run, now) && processed == |run|
          invariant processed == 0 ==> Whole() == old(Whole()) && acks == old(acks)
          invariant Work(Whole()) + processed <= Work(old(Whole()))
        {
          ghost var w := Whole();
          PathIsFlow(conf, old(Whole()), run, w);
          FlowIsResolved(conf, w);
          var a := kernel.Take();
          assert State() == w.sink;
          Handle(a.seqno, a.code, now);
          assert Whole() == ReadAck(w, now);
          ReplyExtends(conf, old(Whole()), run, w, now);
          ReplyFalls(w, now);
          run := run + [Reply(now)];
          processed, i := processed + 1, i + 1;
        }
      }
    }

    /** Retries whose backoff has expired, in the order they last failed, up to the
        limit. */
    method DueRetries(now: real) returns (due: seq<Entry>, ghost places: seq<nat>)
      requires forall e | e in retry :: e in objs
      ensures FirstDue(conf, State(), now, places) && due == At(retry, places)
    {
      hide FirstDue, DueSoFar;
      due, places := [], [];
      var i := 0;
      NoneDueYet(State(), now);
      while i < |retry|
        invariant 0 <= i <= |retry| && DueSoFar(State(), now, places, i)
        invariant |places| < Limit(conf) && Within(places, |retry|) && due == At(retry, places)
      {
        OneMoreDue(State(), now, places, i);
        if retry[i].due <= now {
          due, places := due + [retry[i]], places + [i];
        }
        i := i + 1;
        if |due| >= conf.batch {
          break;
        }
      }
      DueIsFirst(conf, State(), now, places, i);
    }

    /** They go back to the queue. */
    method PromoteRetries(now: real) returns (ghost places: seq<nat>)
      requires Flow(conf, Whole()) && NoTwins(State().retry)
      modifies this, objs
      ensures isOpen == old(isOpen) && objs == old(objs)
      ensures FirstDue(conf, old(State()), now, places) && Within(places, |old(State()).retry|)
      ensures Path(conf, old(Whole()), Dues(At(old(State()).retry, places)), Whole())
      ensures Promoted(old(State()), State(), places)
    {
      hide Path, Flow, SinkModel.Promote, State, Promoting, Promoted;
      var due;
      due, places := DueOnes(now);
      ghost var run: seq<Event> := [];
      EmptyPath(conf, Whole());
      PromotingStarts(State(), due, places);
      var i := 0;
      while i < |due|
        invariant 0 <= i <= |due| && run == Dues(due[..i])
        invariant isOpen == old(isOpen) && objs == old(objs) && Path(conf, old(Whole()), run, Whole())
        invariant Promoting(old(State()), State(), due, i)
      {
        PromoteNext(old(Whole()), run, due, i);
        run := run + [Due(due[i])];
        i := i + 1;
      }
      assert due[..i] == due;
      PromotingEnds(old(State()), State(), due, places);
    }

    method DueOnes(now: real) returns (due: seq<Entry>, ghost places: seq<nat>)
      requires Flow(conf, Whole())
      ensures FirstDue(conf, State(), now, places) && due == At(State().retry, places)
    {
      hide Flow, FirstDue;
      FlowIsResolved(conf, Whole());
      due, places := DueRetries(now);
    }

    method PromoteNext(ghost w0: World, ghost run: seq<Event>, due: seq<Entry>, i: nat)
      requires Path(conf, w0, run, Whole()) && Promoting(w0.sink, State(), due, i) && i < |due|
      modifies this`queue, this`retry, objs
      ensures Path(conf, w0, run + [Due(due[i])], Whole()) && Promoting(w0.sink, State(), due, i + 1)
    {
      hide Path, Flow, SinkModel.Promote, Promoting;
      ghost var w := Whole();
      PathIsFlow(conf, w0, run, w);
      FlowIsResolved(conf, w);
      PromotingGoesOn(conf, w0.sink, w, due, i);
      Promote(due[i]);
      DueExtends(conf, w0, run, w, due[i]);
    }

    method Promote(e: Entry)
      requires e in objs
      modifies this`queue, this`retry, e
      ensures State() == SinkModel.Promote(old(State()), e)
    {
      hide SinkModel.Enqueue;
      retry := Without(retry, e.key);
      assert State() == old(State()).(retry := retry);
      label popped:
      Enqueue(e);
      EnqueueFields(old@popped(State()), e);
    }

    /** Requests unanswered for `ackTimeout`, oldest first up to the limit; the scan
        stops at the first one still young. */
    method OverdueRequests(now: real) returns (late: seq<nat>)
      requires forall n | n in pending :: pending[n] in objs && n <= lastSeq
      ensures FirstLate(conf, State(), now, late)
    {
      late := [];
      var n := 0;
      while n <= lastSeq
        invariant |late| < Limit(conf) && Ascending(late) && Within(late, n)
        invariant forall m | m in late :: m in pending && now - pending[m].sentAt >= conf.ackTimeout
        invariant forall m | m in pending && m < n :: m in late
      {
        if n in pending {
          if now - pending[n].sentAt < conf.ackTimeout {
            assert forall m | m in pending && m !in late :: n <= m;
            return;
          }
          late := late + [n];
          assert late[|late| - 1] == n;
          if |late| >= conf.batch {
            return;
          }
        }
        n := n + 1;
      }
    }

    /** They are queued again. */
    method SweepTimeouts(now: real) returns (ghost late: seq<nat>)
      requires Flow(conf, Whole())
      modifies this, objs
      ensures isOpen == old(isOpen) && objs == old(objs)
      ensures FirstLate(conf, old(State()), now, late)
      ensures Path(conf, old(Whole()), Lates(late), Whole()) && Swept(old(State()), State(), late)
    {
      hide Path, Flow, SinkModel.Expire, State, Swept;
      var expired := LateOnes(now);
      late := expired;
      ghost var run: seq<Event> := [];
      EmptyPath(conf, Whole());
      SweepingStarts(State(), late);
      var i := 0;
      while i < |expired|
        invariant 0 <= i <= |expired| && run == Lates(expired[..i])
        invariant isOpen == old(isOpen) && objs == old(objs) && Path(conf, old(Whole()), run, Whole())
        invariant Swept(old(State()), State(), expired[..i])
      {
        ExpireNext(old(Whole()), run, expired, i);
        run := run + [Late(expired[i])];
        i := i + 1;
      }
      assert expired[..i] == expired;
    }

    method LateOnes(now: real) returns (late: seq<nat>)
      requires Flow(conf, Whole())
      ensures FirstLate(conf, State(), now, late)
    {
      hide Flow, FirstLate;
      PendingIsBounded(conf, Whole());
      late := OverdueRequests(now);
    }

    method ExpireNext(ghost w0: World, ghost run: seq<Event>, late: seq<nat>, i: nat)
      requires i < |late| && Path(conf, w0, run, Whole()) && Swept(w0.sink, State(), late[..i]) && Ascending(late)
      requires forall n | n in late :: n in w0.sink.pending
      modifies this`queue, this`retry, this`pending, objs
      ensures Path(conf, w0, run + [Late(late[i])], Whole()) && Swept(w0.sink, State(), late[..i + 1])
    {
      hide Path, Flow, SinkModel.Expire, Swept;
      ghost var w := Whole();
      PathIsFlow(conf, w0, run, w);
      FlowIsResolved(conf, w);
      SweepingGoesOn(conf, w0.sink, w, late, i);
      Expire(late[i]);
      LateExtends(conf, w0, run, w, late[i]);
    }

    method Expire(n: nat)
      requires n in pending && pending[n] in objs
      modifies this`queue, this`retry, this`pending, objs
      ensures State() == SinkModel.Expire(old(State()), n)
    {
      hide SinkModel.Enqueue;
      var e := pending[n];
      pending := pending - {n};
      assert State() == old(State()).(pending := pending);
      label popped:
      Enqueue(e);
      EnqueueFields(old@popped(State()), e);
    }

    /** One bounded round: promote, sweep, write, read.  Against a reliable kernel a
        flush that swept nothing and promoted nothing leaves less to do, or nothing. */
    method Flush(now: real) returns (ghost did: Turn)
      requires isOpen ==> Flow(conf, Whole()) && NoTwins(retry) && lastSeq + conf.batch <= MAX_SEQ
      modifies this, objs, kernel
      ensures objs == old(objs) && isOpen == old(isOpen)
      ensures !isOpen ==> Whole() == old(Whole())
      ensures isOpen ==> Flushed(conf, old(Whole()), now, did, Whole())
      ensures isOpen && kernel.reliable ==> AllTaken(did.writes)
      ensures isOpen ==> NoTwins(retry) && |pending| <= conf.window && lastSeq <= old(lastSeq) + conf.batch
      ensures isOpen && kernel.reliable && conf.batch > 0 && conf.ackBatch > 0 && conf.window > 0 ==>
        Work(Whole()) < Work(did.swept) || (queue == [] && pending == map[])
      ensures isOpen && kernel.reliable && conf.batch > 0 && conf.ackBatch > 0 && conf.window > 0
          && old(retry) == [] && old(pending) == map[] && old(queue) != []
        ==> Work(Whole()) < Work(old(Whole()))
    {
      hide Path, Flow, FirstDue, FirstLate, Promoted, Swept, WritesAt, RepliesAt, AllTaken;
      did := Turn([], [], [], [], Whole(), Whole(), Whole(), 0);
      if !isOpen {
        return;
      }
      ghost var w0 := Whole();
      ghost var places := PromoteRetries(now);
      ghost var w1 := Whole();
      PathIsFlow(conf, w0, Dues(At(w0.sink.retry, places)), w1);
      ghost var late := SweepTimeouts(now);
      ghost var w2 := Whole();
      PathIsFlow(conf, w1, Lates(late), w2);
      PhasesKeepSeq(w0.sink, w1.sink, w2.sink, places, late);
      ghost var sent, c := SendBatch(now);
      ghost var w3 := Whole();
      PathIsFlow(conf, w2, c, w3);
      ghost var read, d := ReadAcks(conf.ackBatch, now);
      did := Turn(places, late, c, d, w1, w2, w3, sent);
      FlushedRetries(conf, w0, now, did, Whole());
      if kernel.reliable && conf.batch > 0 && conf.ackBatch > 0 && conf.window > 0 {
        FlushMovesOn(conf, w0, now, did, Whole());
        if w0.sink.retry == [] && w0.sink.pending == map[] { NothingSwept(conf, w0, now, did, Whole()); }
      }
    }

    /** When a flush next has work: at once while anything is queued, soon while
        answers are outstanding, else when the first retry comes due; `None` exactly
        when closed or idle. */
    method NextFlushIn(now: real) returns (rest: Option<real>)
      requires isOpen ==> forall e | e in retry :: e in objs
      ensures rest.None? <==> !isOpen || Idle(State())
      ensures isOpen && queue != [] ==> rest == Some(0.0)
      ensures isOpen && queue == [] && pending != map[] ==> rest == Some(0.01)
      ensures isOpen && queue == [] && pending == map[] && retry != [] ==>
        && rest.value >= 0.0 && (exists e | e in retry :: e.due <= now + rest.value)
        && (rest.value > 0.0 ==> forall e | e in retry :: e.due >= now + rest.value)
    {
      if !isOpen {
        return None;
      }
      if queue != [] {
        return Some(0.0);
      }
      if pending != map[] {
        return Some(0.01);
      }
      if retry == [] {
        return None;
      }
      var due, i := retry[0].due, 1;
      while i < |retry|
        invariant 1 <= i <= |retry| && (exists e | e in retry :: e.due == due)
        invariant forall j :: 0 <= j < i ==> due <= retry[j].due
      {
        if retry[i].due < due {
          due := retry[i].due;
        }
        i := i + 1;
      }
      return Some(if due > now then due - now else 0.0);
    }

    /** The engine's pump: flush, ask when to flush next, and go on until the sink
        has nothing to do; `times` are the clock readings at successive flushes.
        Against a reliable kernel it gets there while it is within the timeout of
        what was in flight, from any state in which nothing failed. */
    method Pump(times: seq<real>, ghost since: real) returns (rest: Option<real>, ghost run: seq<Event>)
      requires isOpen ==> Flow(conf, Whole()) && NoTwins(retry) && lastSeq + |times| * conf.batch <= MAX_SEQ
      modifies this, objs, kernel
      ensures objs == old(objs) && isOpen == old(isOpen)
      ensures !isOpen ==> Whole() == old(Whole())
      ensures isOpen ==> Path(conf, old(Whole()), run, Whole()) && FlushOnly(run)
      ensures isOpen && rest.None? ==> Idle(State())
      ensures isOpen && kernel.reliable && conf.batch > 0 && conf.ackBatch > 0 && conf.window > 0
          && Calm(old(Whole()), since) && (forall t | t in times :: since <= t < since + conf.ackTimeout)
          && |times| > Work(old(Whole()))
        ==> Idle(State())
    {
      hide Path, Flow, Flushed, Calm, AllTaken, TurnRun, FlushOnly, Work, NoTwins;
      rest, run := Some(0.0), [];
      if !isOpen {
        return;
      }
      NoWrites(0.0);
      EmptyPath(conf, Whole());
      ghost var sure := kernel.reliable && conf.batch > 0 && conf.ackBatch > 0 && conf.window > 0
          && Calm(Whole(), since) && (forall t | t in times :: since <= t < since + conf.ackTimeout);
      var i := 0;
      while i < |times|
        invariant 0 <= i <= |times| && isOpen && objs == old(objs) && rest.Some?
        invariant Flow(conf, Whole()) && NoTwins(retry)
        invariant lastSeq + (|times| - i) * conf.batch <= MAX_SEQ
        invariant Path(conf, old(Whole()), run, Whole()) && FlushOnly(run)
        invariant sure ==> Calm(Whole(), since) && Work(Whole()) + i <= Work(old(Whole()))
      {
        ghost var w := Whole();
        OneBatch(|times| - i, conf.batch);
        ghost var did := Flush(times[i]);
        PumpExtends(conf, old(Whole()), run, w, times[i], did, Whole());
        run := run + TurnRun(w.sink.retry, did);
        if sure {
          assert times[i] in times;
          FlushIsCalm(conf, w, times[i], did, Whole(), since);
          CalmRetries(Whole(), since);
        }
        FlowIsResolved(conf, Whole());
        rest := NextFlushIn(times[i]);
        if rest.None? {
          return;
        }
        i := i + 1;
      }
    }

    /** What a selection pass does with every best route. */
    method InstallAll(routes: seq<Route>) returns (ghost run: seq<Event>, ghost at: seq<nat>)
      requires Inv(conf, Whole()) && State().retry == [] && State().pending == map[]
      modifies this`queue, this`retry, this`entries, this`pending, this`prefixKey, this`objs, objs
      ensures fresh(objs - old(objs)) && Inv(conf, Whole()) && Path(conf, old(Whole()), run, Whole())
      ensures FittingOffers(run, routes, at)
      ensures retry == [] && pending == map[] && |queue| <= |old(queue)| + 2 * |routes|
    {
      hide Path, Flow, Indexed, State, FittingOffers;
      run, at := [], [];
      EmptyPath(conf, Whole());
      NoOffers(routes);
      ghost var size := |State().queue|;
      Shown();
      var i := 0;
      while i < |routes|
        invariant 0 <= i <= |routes| && fresh(objs - old(objs)) && Inv(conf, Whole())
        invariant Path(conf, old(Whole()), run, Whole()) && FittingOffers(run, routes[..i], at)
        invariant State().retry == [] && State().pending == map[] && |State().queue| <= size + 2 * i
      {
        ghost var ev := InstallNext(old(Whole()), run, routes[i]);
        OneMoreOffer(run, routes, at, i, ev);
        run, at := run + ev, at + seq(|ev|, _ => i);
        i := i + 1;
      }
      assert routes[..i] == routes;
      Shown();
    }

    /** Reads the fields back from the state. */
    lemma Shown()
      ensures State().retry == retry && State().pending == pending && State().queue == queue
    {
    }

    method InstallNext(ghost w0: World, ghost run: seq<Event>, route: Route) returns (ghost ev: seq<Event>)
      requires Path(conf, w0, run, Whole()) && Inv(conf, Whole()) && State().retry == [] && State().pending == map[]
      modifies this`queue, this`retry, this`entries, this`pending, this`prefixKey, this`objs, objs
      ensures fresh(objs - old(objs)) && Inv(conf, Whole()) && Path(conf, w0, run + ev, Whole())
      ensures if Fits(route) then |ev| == 1 && ev[0].Offer? && ev[0].route == route else ev == []
      ensures State().retry == [] && State().pending == map[] && |State().queue| <= |old(State()).queue| + 2
    {
      hide Path, Flow, Indexed, SinkModel.Install, MayAllocate, Attrs, Core;
      ghost var w := Whole();
      FlowIsResolved(conf, w);
      Install(route);
      FitsIff(conf, route);
      if Expressible(conf, route) {
        ghost var made :| MayAllocate(conf, w.sink, route, made)
            && State() == SinkModel.Install(conf, w.sink, route, made);
        FlowCore(conf, w);
        OfferExtends(conf, w0, run, w, route, made);
        InstallStaysQuiet(conf, w.sink, route, made);
        ev := [Event.Offer(route, made)];
      } else {
        ev := [];
        assert run + ev == run;
      }
    }

    /** A new sink given all the routes, then pumped: within the timeout, against a
        reliable kernel with none of our routes, every destination ends with the last
        of its routes that the kernel can express, and no other destination has one. */
    method Converge(routes: seq<Route>, times: seq<real>, ghost since: real)
      requires isOpen && Fresh(conf, Whole()) && lastSeq + |times| * conf.batch <= MAX_SEQ
      requires kernel.reliable && conf.batch > 0 && conf.ackBatch > 0 && conf.window > 0
      requires |times| > 4 * |routes| && forall t | t in times :: since <= t < since + conf.ackTimeout
      modifies this, objs, kernel
      ensures Idle(State())
      ensures forall i :: 0 <= i < |routes| && LastFit(routes, i) ==> HoldsRoute(conf, kernel.table, routes[i])
      ensures forall k: Key | (forall r | r in routes :: r.prefix != k.prefix || !Fits(r)) ::
        !OursAt(conf, kernel.table, k)
    {
      hide Path, Flow, Indexed, State, FittingOffers, Fresh, HoldsRoute, OursAt, LastFit, Calm, Idle, NoTwins, Fits;
      ghost var w0 := Whole();
      FreshIsReady(conf, w0);
      Shown();
      ghost var offers, at := InstallAll(routes);
      ghost var w1 := Whole();
      Shown();
      StartsCalm(conf, w1, since);
      OneEachIsNoTwins();
      ghost var rest, run := Pump(times, since);
      OffersAreHeld(conf, w0, offers, w1, run, Whole(), routes, at);
    }

    // ----- the blocking paths -----------------------------------------------------

    /** One batch written, and the answers there are to read. */
    method Round(now: real) returns (sent: nat, processed: nat, ghost run: seq<Event>)
      requires Flow(conf, Whole()) && lastSeq + conf.batch <= MAX_SEQ
      modifies this, objs, kernel
      ensures isOpen == old(isOpen) && objs == old(objs)
      ensures Path(conf, old(Whole()), run, Whole()) && FlushOnly(run) && Flow(conf, Whole())
      ensures lastSeq <= old(lastSeq) + conf.batch && Work(Whole()) + sent + processed <= Work(old(Whole()))
      ensures acks >= old(acks) && (processed == 0 ==> acks == old(acks))
      ensures kernel.reliable && conf.batch > 0 && conf.ackBatch > 0 && conf.window > 0 ==>
        sent > 0 || processed > 0 || (queue == [] && pending == map[])
    {
      hide Path, Flow;
      ghost var w := Whole();
      ghost var a, b;
      sent, a := SendBatch(now);
      ghost var w1 := Whole();
      PathIsFlow(conf, w, a, w1);
      processed, b := ReadAcks(conf.ackBatch, now);
      PathIsFlow(conf, w1, b, Whole());
      PathChains(conf, w, a, w1, b, Whole());
      run := a + b;
      if kernel.reliable && conf.batch > 0 && conf.ackBatch > 0 && conf.window > 0 {
        RoundMovesOn(conf, w1, Whole(), sent, processed);
      }
    }

    /** Send everything queued and wait for every answer.  `patience` is how many
        rounds without progress the deadline allows.  Always ends; against a
        reliable kernel, and with patience for every request and answer
        outstanding, it ends with nothing queued and nothing in flight. */
    method Drain(now: real, patience: nat) returns (ghost run: seq<Event>)
      requires Flow(conf, Whole()) && SeqRoom(conf, lastSeq, Work(Whole()), patience)
      modifies this, objs, kernel
      ensures isOpen == old(isOpen)
      ensures objs == old(objs) && Path(conf, old(Whole()), run, Whole()) && FlushOnly(run)
      ensures Flow(conf, Whole())
      ensures kernel.reliable && conf.batch > 0 && conf.ackBatch > 0 && conf.window > 0
          && patience >= Work(old(Whole()))
        ==> queue == [] && pending == map[]
    {
      hide Path, Flow, SeqRoom;
      run := [];
      EmptyPath(conf, Whole());
      var left: nat := patience;
      ghost var sure := kernel.reliable && conf.batch > 0 && conf.ackBatch > 0 && conf.window > 0
          && patience >= Work(Whole());
      while queue != [] || pending != map[]
        invariant isOpen == old(isOpen) && objs == old(objs) && Path(conf, old(Whole()), run, Whole())
            && FlushOnly(run) && Flow(conf, Whole())
        invariant SeqRoom(conf, lastSeq, Work(Whole()), left)
        invariant sure ==> left >= Work(Whole())
        decreases Work(Whole()), left
      {
        ghost var w := Whole();
        var acked := acks;
        RoomForBatch(conf, lastSeq, Work(w), left);
        ghost var a;
        var sent, processed;
        sent, processed, a := Round(now);
        PathChains(conf, old(Whole()), run, w, a, Whole());
        run := run + a;
        if queue == [] && pending == map[] {
          break;
        }
        ghost var before := left;
        if sent == 0 && acks == acked {
          if left == 0 {
            break;
          }
          left := left - 1;
        }
        FewerRounds(conf, w.sink.lastSeq, lastSeq, Work(w), before, Work(Whole()), left);
      }
      if sure { NothingOutstanding(conf, Whole()); }
    }

    method AdoptKey(k: Key, hop: Hop)
      requires KeyedByEntry(State()) && k !in entries
      modifies this`entries, this`prefixKey, this`objs, objs
      ensures fresh(objs - old(objs)) && objs >= old(objs) && k in entries && entries[k].key == k
          && entries[k] !in old(objs)
      ensures State() == AdoptInto(old(State()), k, hop, entries[k])
    {
      ghost var made;
      var e;
      e, made := EntryFor(k, hop);
      MarkAdopted(e, hop);
      prefixKey := prefixKey[k.prefix := k];
    }

    /** The kernel already has what this entry asks for. */
    method MarkAdopted(e: Entry, hop: Hop)
      requires e in objs
      modifies e
      ensures State() == Update(old(State()), e, old(e.Now()).(hop := hop, stage := Installed, written := true))
    {
      e.Adopt(hop);
      Touched(e);
    }

    method DoomKey(k: Key, hop: Hop)
      requires KeyedByEntry(State()) && k !in entries
      modifies this`entries, this`queue, this`retry, this`objs, objs
      ensures fresh(objs - old(objs)) && objs >= old(objs) && k in entries && entries[k].key == k
          && entries[k] !in old(objs)
      ensures State() == DoomInto(old(State()), k, hop, entries[k])
    {
      hide SinkModel.Enqueue;
      var e := new Entry(k, Del, hop);
      e.written := true;
      objs := objs + {e};
      entries := entries[k := e];
      assert State().heap == old(State().heap)[e := DoomedRec(hop)];
      Enqueue(e);
    }

    /** What would be written, by kernel key. */
    method Wanted(current: seq<Route>) returns (desired: map<Key, Hop>)
      ensures desired == Desired(conf, current)
    {
      hide Attrs, PriorityFor;
      desired := map[];
      var i := 0;
      while i < |current|
        invariant 0 <= i <= |current| && desired == Desired(conf, current[..i])
      {
        assert current[..i + 1][..i] == current[..i];
        var t := Attrs(conf, current[i]);
        if t != None {
          AttrsKey(conf, current[i]);
          desired := desired[Key(current[i].prefix, t.value.priority) := t.value.hop];
        }
        i := i + 1;
      }
      assert current[..i] == current;
    }

    /** The dumped routes that match what is wanted become installed entries; the
        rest of ours are returned for deletion. */
    method AdoptMatching(found: seq<Dumped>, desired: map<Key, Hop>, ghost stale: seq<Entry>)
      returns (adopted: nat, deletes: seq<Dumped>, ghost done: set<Key>)
      requires PartSorted(conf, desired, kernel.table, State(), {}, stale) && queue == []
      requires Lists(found, kernel.table) && OneKeyPerPrefix(desired)
      modifies this`entries, this`prefixKey, this`objs, objs
      ensures fresh(objs - old(objs)) && queue == [] && |deletes| <= |found|
      ensures PartSorted(conf, desired, kernel.table, State(), done, stale)
      ensures Pending(conf, desired, kernel.table, deletes)
      ensures Covered(conf, found, done, deletes, 0)
    {
      hide PartSorted, Lists, Own, IsOurs, OneKeyPerPrefix, Pending, Covered;
      adopted, deletes, done := 0, [], {};
      var i := 0;
      NothingPending(conf, desired, kernel.table, found);
      while i < |found|
        invariant 0 <= i <= |found| && |deletes| <= i
        invariant fresh(objs - old(objs)) && queue == []
        invariant PartSorted(conf, desired, kernel.table, State(), done, stale)
        invariant Pending(conf, desired, kernel.table, deletes)
        invariant Covered(conf, found[..i], done, deletes, 0)
      {
        var d := found[i];
        var k, own := d.at.key, Hop(d.route.gateway, d.route.oif);
        assert found[..i + 1] == found[..i] + [d];
        if IsOurs(conf, d) {
          ghost var s := State();
          ListedIsOwn(conf, found, kernel.table, i);
          NotYetDone(conf, desired, kernel.table, s, found, i, done, stale, deletes);
          if k in desired && Agrees(own, desired[k]) {
            AdoptKey(k, desired[k]);
            KeyIsAdoptable(conf, desired, kernel.table, k, own);
            AdoptPart(conf, desired, kernel.table, s, done, stale, k, entries[k]);
            CoverByDone(conf, found[..i], done, deletes, d);
            done := done + {k};
            adopted := adopted + 1;
          } else {
            PendOne(conf, desired, kernel.table, deletes, d);
            CoverByDelete(conf, found[..i], done, deletes, d);
            deletes := deletes + [d];
          }
        } else {
          CoverForeign(conf, found[..i], done, deletes, d);
        }
        i := i + 1;
      }
      assert found[..i] == found;
    }

    /** Each route set aside becomes a queued delete. */
    method DoomRest(desired: map<Key, Hop>, found: seq<Dumped>, deletes: seq<Dumped>, ghost done0: set<Key>,
        ghost stale: seq<Entry>) returns (removed: nat, ghost done: set<Key>)
      requires PartSorted(conf, desired, kernel.table, State(), done0, stale) && queue == []
      requires Pending(conf, desired, kernel.table, deletes)
      requires Covered(conf, found, done0, deletes, 0) && Lists(found, kernel.table)
      modifies this`entries, this`queue, this`retry, this`objs, objs
      ensures fresh(objs - old(objs)) && |queue| <= |deletes| && removed == |deletes|
      ensures Placed(conf, desired, kernel.table, State())
      ensures LeftOver(conf, desired, kernel.table, State(), stale, done)
      ensures forall k | Own(conf, kernel.table, k).Some? :: k in done
    {
      hide PartSorted, Placed, LeftOver, Own, Pending, Covered, Lists, DoomInto;
      var i := 0;
      removed, done := 0, done0;
      while i < |deletes|
        invariant 0 <= i <= |deletes| && |queue| <= i && removed == i
        invariant fresh(objs - old(objs))
        invariant PartSorted(conf, desired, kernel.table, State(), done, stale)
        invariant Covered(conf, found, done, deletes, i)
      {
        var d := deletes[i];
        ghost var s := State();
        ToDelete(conf, desired, kernel.table, s, found, done, stale, deletes, i);
        DoomKey(d.at.key, Hop(d.route.gateway, d.route.oif));
        DoomPart(conf, desired, kernel.table, s, done, stale, d.at.key, entries[d.at.key]);
        EnqueueGrowsByOne(s, d.at.key, Hop(d.route.gateway, d.route.oif), entries[d.at.key]);
        DeletedIsDone(conf, found, done, deletes, i);
        done := done + {d.at.key};
        removed, i := removed + 1, i + 1;
      }
      AllDone(conf, found, kernel.table, done, deletes);
      PartIsPlaced(conf, desired, kernel.table, State(), done, stale);
    }

    /** The part of reconciliation before the deletes are drained, for any sink
        whose containers are empty but for retries left over from before its last
        shutdown.  `found` is the dump of the kernel's tables. */
    method SortDump(current: seq<Route>, found: seq<Dumped>) returns (adopted: nat, removed: nat)
      requires entries == map[] && queue == [] && pending == map[] && prefixKey == map[]
      requires kernel.inbox == [] && (forall e | e in retry :: e in objs) && lastSeq < MAX_SEQ
      requires OnePerPrefix(current) && Lists(found, kernel.table)
      modifies this`entries, this`queue, this`retry, this`prefixKey, this`lastSeq, this`objs, objs
      ensures fresh(objs - old(objs)) && lastSeq == old(lastSeq) + 1 && |queue| <= |found| && removed <= |found|
      ensures removed == 0 ==> queue == []
      ensures Inv(conf, Whole()) <==>
        forall e | e in old(retry) :: Unwanted(conf, Desired(conf, current), kernel.table, e.key)
      ensures Inv(conf, Whole()) ==> Sorted(conf, Desired(conf, current), kernel.table, State())
    {
      hide Flow, Placed, LeftOver, Lists, OnePerPrefix, Desired, PartSorted, Pending, Covered, OneKeyPerPrefix, Own;
      ghost var stale := retry;
      var desired := Wanted(current);
      DesiredOneKey(conf, current);
      lastSeq := NextSeq(lastSeq);
      NothingSorted(conf, desired, kernel.table, State(), stale);
      var deletes;
      ghost var done;
      adopted, deletes, done := AdoptMatching(found, desired, stale);
      removed, done := DoomRest(desired, found, deletes, done, stale);
      LeftOversHarmlessIff(conf, desired, Whole(), stale, done);
    }

    /** Adopt or delete what a previous run left; refused unless the sink is open.
        `start` is the system before the deletes are drained. */
    method Reconcile(current: seq<Route>, found: seq<Dumped>, now: real, patience: nat)
      returns (ok: bool, adopted: nat, removed: nat, ghost start: World, ghost run: seq<Event>)
      requires isOpen ==> Blank(State()) && kernel.inbox == []
      requires OnePerPrefix(current) && Lists(found, kernel.table)
      requires SeqRoom(conf, lastSeq + 1, 2 * |found|, patience)
      modifies this, objs, kernel
      ensures ok == old(isOpen) == isOpen
      ensures !ok ==> Whole() == old(Whole())
      ensures ok ==> start.table == old(kernel.table) && start.inbox == []
      ensures ok ==> Sorted(conf, Desired(conf, current), start.table, start.sink) && Inv(conf, start)
      ensures ok ==> Path(conf, start, run, Whole()) && FlushOnly(run)
    {
      hide Path, Flow, Sorted, Lists, OnePerPrefix, Desired, SeqRoom;
      RoomHasBatch(conf, lastSeq + 1, 2 * |found|, patience);
      ok, adopted, removed, start, run := isOpen, 0, 0, Whole(), [];
      if !ok {
        return;
      }
      adopted, removed := SortDump(current, found);
      start := Whole();
      if removed > 0 {
        LessWork(conf, lastSeq, 2 * |found|, Work(start), patience);
        run := Drain(now, patience);
      } else {
        EmptyPath(conf, start);
      }
    }

    // ----- shutdown -----------------------------------------------------------------

    method DoomEntry(e: Entry)
      requires e in objs
      modifies this`queue, this`retry, this`entries, this`pending, e
      ensures State() == SinkShutdown.Doom(old(State()), e)
    {
      hide SinkModel.Enqueue, SinkModel.Forget;
      if !e.written {
        Forget(e);
      } else {
        e.kind, e.attempts := Del, 0;
        Touched(e);
        assert State() == Update(old(State()), e, e.Now());
        Enqueue(e);
      }
    }

    method ClearQueues()
      requires Core(State())
      modifies this`queue, this`retry
      ensures queue == [] && Dooming(old(State()), State(), entries.Keys)
    {
      hide Dooming;
      DoomingStarts(State());
      queue, retry := [], [];
      assert State() == old(State()).(queue := [], retry := []);
    }

    /** Every entry is dropped or turned into a queued delete. */
    method DoomAll()
      requires Flow(conf, Whole())
      modifies this`queue, this`retry, this`entries, this`pending, objs
      ensures Dooming(old(State()), State(), {}) && |queue| <= |old(entries)|
    {
      hide Dooming, Flow, Core, KeyedByEntry, State;
      ghost var s0 := State();
      FlowCore(conf, Whole());
      ClearQueues();
      var todo := entries.Keys;
      ghost var left := |entries|;
      while todo != {}
        invariant objs == old(objs) && Dooming(s0, State(), todo)
        invariant |todo| == left && |queue| + left <= |old(entries)|
        decreases todo
      {
        var k :| k in todo;
        DoomOne(s0, todo, k);
        todo, left := todo - {k}, left - 1;
      }
    }

    method DoomOne(ghost s0: Sink, ghost todo: set<Key>, k: Key)
      requires Core(s0) && Dooming(s0, State(), todo) && k in todo
      modifies this`queue, this`retry, this`entries, this`pending, objs
      ensures Dooming(s0, State(), todo - {k}) && |queue| <= |old(queue)| + 1
    {
      hide Dooming, Core, SinkShutdown.Doom;
      DoomingGoesOn(s0, State(), todo, k);
      DoomEntry(entries[k]);
    }

    /** Turn every entry written into a delete, and drain. */
    method WithdrawAll(now: real, patience: nat) returns (ghost run: seq<Event>)
      requires Flow(conf, Whole())
      requires SeqRoom(conf, lastSeq, 2 * |entries| + |kernel.inbox|, patience)
      modifies this, objs, kernel
      ensures isOpen == old(isOpen) && objs == old(objs)
      ensures Flow(conf, Whole()) && OnlyDeletes(State())
    {
      hide Path, Flow, Dooming, OnlyDeletes, SeqRoom;
      ghost var w0 := Whole();
      DoomAll();
      assert Whole() == w0.(sink := State());
      DoomedIsFlow(conf, w0, State());
      ghost var doomed := Whole();
      LessWork(conf, lastSeq, 2 * |w0.sink.entries| + |w0.inbox|, Work(doomed), patience);
      run := Drain(now, patience);
      PathOnlyDeletes(conf, doomed, run, Whole());
    }

    method Clear()
      modifies this`entries, this`queue, this`pending, this`prefixKey
      ensures State() == Cleared(old(State()))
    {
      entries, queue, pending, prefixKey := map[], [], map[], map[];
    }

    method ClearAll()
      modifies this`entries, this`queue, this`pending, this`retry, this`prefixKey
      ensures Blank(State())
    {
      entries, queue, pending, retry, prefixKey := map[], [], map[], [], map[];
    }

    /** Withdraw everything this sink wrote, or (`retain`) leave it, and close.
        `left` is the sink when the drain ended, before the containers are
        cleared, which leaves out the retry map: the sink is as good as new exactly
        when no delete was refused. */
    method Shutdown(retain: bool, now: real, patience: nat) returns (ghost left: Sink, ghost run: seq<Event>)
      requires isOpen ==> Flow(conf, Whole())
      requires SeqRoom(conf, lastSeq, 2 * |entries| + |kernel.inbox|, patience)
      modifies this, objs, kernel
      ensures !isOpen
      ensures !old(isOpen) ==> Blank(State()) && kernel.table == old(kernel.table)
      ensures old(isOpen) ==> kernel.inbox == []
      ensures old(isOpen) && retain ==> State() == old(State()) && kernel.table == old(kernel.table)
      ensures old(isOpen) && !retain ==>
        && State() == Cleared(left) && (Blank(State()) <==> left.retry == [])
        && (forall k | Own(conf, kernel.table, k).Some? :: Unfinished(left, k))
        && (Idle(left) ==> forall k :: Own(conf, kernel.table, k).None?)
    {
      hide Path, Flow, Own, Unfinished, OnlyDeletes, Cleared, Idle, Blank, SeqRoom;
      left, run := State(), [];
      if !isOpen {
        ClearAll();
        return;
      }
      if !retain {
        run := WithdrawAll(now, patience);
        left := State();
        OursIsUnfinished(conf, Whole());
        Clear();
        ClearedIsBlank(left);
      }
      Close();
    }
  }

  lemma PathOnlyDeletes(c: Conf, w0: World, run: seq<Event>, w: World)
    requires Path(c, w0, run, w) && FlushOnly(run) && OnlyDeletes(w0.sink)
    ensures Flow(c, w) && OnlyDeletes(w.sink)
  {
    hide Flow;
    RunOnlyDeletes(c, w0, run);
  }

  /** At most one wanted key per destination. */
  ghost predicate OneKeyPerPrefix(desired: map<Key, Hop>) {
    forall x, k | x in desired && k in desired && x.prefix == k.prefix :: x == k
  }

  /** Every route of ours in the dump is done with or set aside; nothing set
      aside is done, or twice. */
  ghost predicate Covered(c: Conf, found: seq<Dumped>, done: set<Key>, deletes: seq<Dumped>, from: nat) {
    && from <= |deletes|
    && (forall d | d in found && IsOurs(c, d) :: d.at.key in done || d in deletes[from..])
    && (forall j :: from <= j < |deletes| ==>
        deletes[j].at.key !in done && deletes[j] in found && IsOurs(c, deletes[j]))
    && (forall i, j :: from <= i < j < |deletes| ==> deletes[i].at != deletes[j].at)
    && (forall k | k in done :: exists d :: d in found && d.at == KernelKey(c.table, k))
  }

  lemma DesiredOneKey(c: Conf, current: seq<Route>)
    requires OnePerPrefix(current)
    ensures OneKeyPerPrefix(Desired(c, current))
  {
    var desired := Desired(c, current);
    forall x, k | x in desired && k in desired && x.prefix == k.prefix ensures x == k {
      DesiredUnique(c, current, x, k);
    }
  }

  lemma NothingSorted(c: Conf, desired: map<Key, Hop>, t: Table, s: Sink, stale: seq<Entry>)
    requires s.entries == map[] && s.queue == [] && s.pending == map[] && s.prefixKey == map[]
    requires s.retry == stale && forall e | e in stale :: e in s.heap
    ensures PartSorted(c, desired, t, s, {}, stale)
  {
    forall p ensures IndexedAt(c, desired, s, p) {}
  }

  lemma NothingPending(c: Conf, desired: map<Key, Hop>, t: Table, found: seq<Dumped>)
    ensures Pending(c, desired, t, []) && Covered(c, found[..0], {}, [], 0)
  {
  }

  lemma ListedIsOwn(c: Conf, found: seq<Dumped>, t: Table, i: nat)
    requires Lists(found, t) && i < |found| && IsOurs(c, found[i])
    ensures Own(c, t, found[i].at.key) == Some(Hop(found[i].route.gateway, found[i].route.oif))
  {
  }

  /** The dump names each route once, so the next one is new. */
  lemma NotYetDone(c: Conf, desired: map<Key, Hop>, t: Table, s: Sink, found: seq<Dumped>, i: nat,
      done: set<Key>, stale: seq<Entry>, deletes: seq<Dumped>)
    requires Lists(found, t) && i < |found| && IsOurs(c, found[i])
    requires PartSorted(c, desired, t, s, done, stale) && Covered(c, found[..i], done, deletes, 0)
    ensures KeyedByEntry(s) && found[i].at.key !in done && found[i].at.key !in s.entries
    ensures forall d | d in deletes :: d.at != found[i].at
  {
    assert forall d | d in found[..i] :: d.at != found[i].at;
    assert forall d | d in deletes :: d in found[..i];
  }

  lemma KeyIsAdoptable(c: Conf, desired: map<Key, Hop>, t: Table, k: Key, own: Hop)
    requires Own(c, t, k) == Some(own) && k in desired && Agrees(own, desired[k]) && OneKeyPerPrefix(desired)
    ensures Adoptable(desired, k, Own(c, t, k).value)
    ensures forall x | x in desired && x.prefix == k.prefix :: x == k
  {
  }

  lemma PendOne(c: Conf, desired: map<Key, Hop>, t: Table, deletes: seq<Dumped>, d: Dumped)
    requires Pending(c, desired, t, deletes) && IsOurs(c, d)
    requires Own(c, t, d.at.key) == Some(Hop(d.route.gateway, d.route.oif))
    requires !Adoptable(desired, d.at.key, Hop(d.route.gateway, d.route.oif))
    ensures Pending(c, desired, t, deletes + [d])
  {
  }

  lemma CoverForeign(c: Conf, found: seq<Dumped>, done: set<Key>, deletes: seq<Dumped>, d: Dumped)
    requires Covered(c, found, done, deletes, 0) && !IsOurs(c, d)
    ensures Covered(c, found + [d], done, deletes, 0)
  {
  }

  lemma CoverByDone(c: Conf, found: seq<Dumped>, done: set<Key>, deletes: seq<Dumped>, d: Dumped)
    requires Covered(c, found, done, deletes, 0) && IsOurs(c, d) && forall x | x in deletes :: x.at != d.at
    ensures Covered(c, found + [d], done + {d.at.key}, deletes, 0)
  {
    assert d == (found + [d])[|found|];
    forall k | k in done ensures exists x :: x in found + [d] && x.at == KernelKey(c.table, k) {
      var x :| x in found && x.at == KernelKey(c.table, k);
      assert x in found + [d];
    }
    assert d.at == KernelKey(c.table, d.at.key);
  }

  lemma CoverByDelete(c: Conf, found: seq<Dumped>, done: set<Key>, deletes: seq<Dumped>, d: Dumped)
    requires Covered(c, found, done, deletes, 0) && IsOurs(c, d) && d.at.key !in done
    requires forall x | x in deletes :: x.at != d.at
    ensures Covered(c, found + [d], done, deletes + [d], 0)
  {
    assert (deletes + [d])[0..] == deletes + [d] && deletes[0..] == deletes;
    forall k | k in done ensures exists x :: x in found + [d] && x.at == KernelKey(c.table, k) {
      var x :| x in found && x.at == KernelKey(c.table, k);
      assert x in found + [d];
    }
  }

  lemma ToDelete(c: Conf, desired: map<Key, Hop>, t: Table, s: Sink, found: seq<Dumped>, done: set<Key>,
      stale: seq<Entry>, deletes: seq<Dumped>, i: nat)
    requires PartSorted(c, desired, t, s, done, stale) && Pending(c, desired, t, deletes)
    requires Covered(c, found, done, deletes, i) && i < |deletes|
    ensures var d := deletes[i];
      && KeyedByEntry(s) && d.at.key !in s.entries && d.at.key !in done
      && Own(c, t, d.at.key) == Some(Hop(d.route.gateway, d.route.oif))
      && Unwanted(c, desired, t, d.at.key)
  {
    assert deletes[i] in deletes;
  }

  lemma DeletedIsDone(c: Conf, found: seq<Dumped>, done: set<Key>, deletes: seq<Dumped>, i: nat)
    requires Covered(c, found, done, deletes, i) && i < |deletes|
    ensures Covered(c, found, done + {deletes[i].at.key}, deletes, i + 1)
  {
    var d := deletes[i];
    assert deletes[i..] == [d] + deletes[i + 1..];
    assert d in found && d.at == KernelKey(c.table, d.at.key);
  }

  lemma AllDone(c: Conf, found: seq<Dumped>, t: Table, done: set<Key>, deletes: seq<Dumped>)
    requires Lists(found, t) && Covered(c, found, done, deletes, |deletes|)
    ensures forall k | Own(c, t, k).Some? :: k in done
  {
    forall k | Own(c, t, k).Some? ensures k in done {
      var j :| 0 <= j < |found| && found[j].at == KernelKey(c.table, k);
      assert found[j] in found && IsOurs(c, found[j]);
    }
  }

  /** The routes set aside for deletion are ours and cannot be adopted. */
  ghost predicate Pending(c: Conf, desired: map<Key, Hop>, t: Table, deletes: seq<Dumped>) {
    forall d | d in deletes ::
      && IsOurs(c, d) && Own(c, t, d.at.key) == Some(Hop(d.route.gateway, d.route.oif))
      && !Adoptable(desired, d.at.key, Hop(d.route.gateway, d.route.oif))
  }

  lemma EnqueueGrowsByOne(s: Sink, k: Key, hop: Hop, e: Entry)
    ensures |DoomInto(s, k, hop, e).queue| <= |s.queue| + 1
  {
  }

  /** Sequence numbers last for a drain: `batch` a round, and no more rounds than
      there is work or patience. */
  predicate SeqRoom(c: Conf, lastSeq: nat, work: nat, patience: nat) {
    lastSeq + (work + patience + 1) * c.batch <= MAX_SEQ
  }

  lemma LessWork(c: Conf, lastSeq: nat, work: nat, less: nat, patience: nat)
    requires SeqRoom(c, lastSeq, work, patience) && less <= work
    ensures SeqRoom(c, lastSeq, less, patience)
  {
    Distribute(less + patience + 1, work - less, c.batch);
  }

  lemma RoomForBatch(c: Conf, lastSeq: nat, work: nat, left: nat)
    requires SeqRoom(c, lastSeq, work, left)
    ensures lastSeq + c.batch <= MAX_SEQ
  {
    Distribute(work + left, 1, c.batch);
  }

  lemma RoomHasBatch(c: Conf, lastSeq: nat, work: nat, left: nat)
    requires SeqRoom(c, lastSeq, work, left)
    ensures lastSeq <= MAX_SEQ
  {
    RoomForBatch(c, lastSeq, work, left);
  }

  lemma FewerRounds(c: Conf, lastSeq: nat, lastSeq': nat, work: nat, before: nat, work': nat, left: nat)
    requires SeqRoom(c, lastSeq, work, before) && lastSeq' <= lastSeq + c.batch && work' + left < work + before
    ensures SeqRoom(c, lastSeq', work', left)
  {
    Distribute(work' + left + 1, work + before - work' - left, c.batch);
    Distribute(1, work + before - work' - left - 1, c.batch);
  }

  lemma Distribute(a: nat, b: nat, n: nat)
    ensures (a + b) * n == a * n + b * n && b * n >= 0
  {
  }

  lemma OneEachIsNoTwins()
    ensures NoTwins([])
  {
  }

  lemma OneBatch(n: nat, batch: nat)
    requires n > 0
    ensures n * batch == (n - 1) * batch + batch && (n - 1) * batch >= 0
  {
  }

  lemma PumpExtends(c: Conf, w0: World, run: seq<Event>, w: World, now: real, did: Turn, w': World)
    requires Path(c, w0, run, w) && FlushOnly(run) && Flushed(c, w, now, did, w')
    ensures Within(did.places, |w.sink.retry|)
    ensures Path(c, w0, run + TurnRun(w.sink.retry, did), w') && FlushOnly(run + TurnRun(w.sink.retry, did))
    ensures Flow(c, w')
  {
    hide Path, Flow, FirstLate, Promoted, Swept, WritesAt, RepliesAt, TurnRun;
    FlushedIsPath(c, w, now, did, w');
    PathChains(c, w0, run, w, TurnRun(w.sink.retry, did), w');
    PathIsFlow(c, w, TurnRun(w.sink.retry, did), w');
  }

  lemma FlushedRetries(c: Conf, w0: World, now: real, did: Turn, w: World)
    requires Flushed(c, w0, now, did, w) && NoTwins(w0.sink.retry)
    ensures NoTwins(w.sink.retry) && |w.sink.pending| <= c.window
  {
    hide Path, FirstLate, Promoted, Swept, WritesAt, RepliesAt, Flow, NoTwins;
    FlushedIsPath(c, w0, now, did, w);
    PathKeepsRetry(c, w0, TurnRun(w0.sink.retry, did), w);
    PathIsFlow(c, w0, TurnRun(w0.sink.retry, did), w);
    WithinWindow(c, w);
  }

  /** Against a reliable kernel a flush leaves less to do than its sweep did, unless
      that was nothing. */
  lemma FlushMovesOn(c: Conf, w0: World, now: real, did: Turn, w: World)
    requires Flushed(c, w0, now, did, w) && AllTaken(did.writes)
    requires c.batch > 0 && c.ackBatch > 0 && c.window > 0
    requires |did.replies| >= c.ackBatch || w.inbox == []
    requires Work(w) + did.sent + |did.replies| <= Work(did.swept)
    ensures Work(w) < Work(did.swept) || (w == did.swept && w.sink.queue == [] && w.sink.pending == map[])
  {
    hide Path, Flow, FirstDue, FirstLate, Promoted, Swept, Work;
    if did.sent == 0 && did.replies == [] {
      NothingBlocked(did.writes, now);
      EmptyRun(c, did.swept, did.written);
      EmptyRun(c, did.written, w);
      PathIsFlow(c, did.written, [], w);
      FlowIsLossless(c, w);
      NothingInFlight(w);
    }
  }

  lemma NothingBlocked(writes: seq<Event>, now: real)
    requires WritesAt(writes, now, 0) && AllTaken(writes)
    ensures writes == []
  {
    if writes != [] { FirstWrite(writes, now); }
  }

  lemma FirstWrite(writes: seq<Event>, now: real)
    requires writes != [] && WritesAt(writes, now, 0)
    ensures writes[0].Write? && writes[0].outcome.Blocked?
  {
  }

  lemma CalmRetries(w: World, since: real)
    requires Calm(w, since)
    ensures w.sink.retry == []
  {
  }

  lemma FlowIsLossless(c: Conf, w: World)
    requires Flow(c, w)
    ensures Lossless(w)
  {
  }

  lemma SomethingLate(c: Conf, s: Sink, now: real, late: seq<nat>)
    requires late != [] && FirstLate(c, s, now, late)
    ensures s.pending != map[]
  {
    assert late[0] in late;
  }

  /** With nothing awaiting a retry or in flight a flush promotes and sweeps nothing. */
  lemma NothingSwept(c: Conf, w0: World, now: real, did: Turn, w: World)
    requires Flushed(c, w0, now, did, w) && w0.sink.retry == [] && w0.sink.pending == map[]
    ensures did.swept == w0
  {
    hide Path, Flow, Promoted, Swept, WritesAt, RepliesAt;
    if did.places != [] { SomePlace(did.places, |w0.sink.retry|); }
    assert Dues(At(w0.sink.retry, did.places)) == [];
    EmptyRun(c, w0, did.promoted);
    if did.late != [] { SomethingLate(c, w0.sink, now, did.late); }
    assert Lates(did.late) == [];
    EmptyRun(c, w0, did.swept);
  }

  /** A round that neither wrote nor read anything, against a reliable kernel,
      leaves nothing in flight. */
  lemma RoundMovesOn(c: Conf, w1: World, w2: World, sent: nat, processed: nat)
    requires Flow(c, w2) && c.batch > 0 && c.window > 0
    requires sent == c.batch || w1.sink.queue == [] || |w1.sink.pending| >= c.window
    requires processed > 0 || (w2.inbox == [] && w2 == w1)
    ensures sent > 0 || processed > 0 || (w2.sink.queue == [] && w2.sink.pending == map[])
  {
    if processed == 0 { NothingInFlight(w2); }
  }

  lemma NothingInFlight(w: World)
    requires Lossless(w) && w.inbox == []
    ensures w.sink.pending == map[]
  {
  }

  lemma NothingOutstanding(c: Conf, w: World)
    requires Flow(c, w)
    ensures Work(w) == 0 ==> w.sink.queue == [] && w.sink.pending == map[]
  {
    if Work(w) == 0 { NothingInFlight(w); }
  }

  // ----- runs made of flush phases --------------------------------------------------

  lemma WriteExtends(c: Conf, w0: World, run: seq<Event>, w: World, o: Outcome, now: real)
    requires Path(c, w0, run, w) && Flow(c, w)
    requires HasWork(w) && w.sink.lastSeq < MAX_SEQ && |w.sink.pending| < c.window
    requires o.Failed? ==> !AlreadyGone(o.code)
    requires o.Delivered? ==>
        Honest(w.table, RequestOf(c, w.sink.queue[0].key, w.sink.heap[w.sink.queue[0]]), o.verdict)
    ensures Path(c, w0, run + [Write(o, now)], SendHead(c, w, o, now))
  {
    hide Flow, Path;
    PathExtends(c, w0, run, w, Write(o, now));
  }

  lemma WriteMoves(c: Conf, w0: World, run: seq<Event>, w: World, o: Outcome, now: real)
    requires Path(c, w0, run, w) && Flow(c, w)
    requires HasWork(w) && w.sink.lastSeq < MAX_SEQ && |w.sink.pending| < c.window
    requires o.Failed? ==> !AlreadyGone(o.code)
    requires o.Delivered? ==>
        Honest(w.table, RequestOf(c, w.sink.queue[0].key, w.sink.heap[w.sink.queue[0]]), o.verdict)
    ensures var w' := SendHead(c, w, o, now);
      && Path(c, w0, run + [Write(o, now)], w') && w'.sink.lastSeq == w.sink.lastSeq + 1
      && (if o.Blocked? then Work(w') == Work(w) && w'.sink.pending == w.sink.pending else Work(w') < Work(w))
  {
    hide Flow, Path, SendHead, Honest;
    WriteExtends(c, w0, run, w, o, now);
    SendFalls(c, w, o, now);
  }

  /** What is left to do, in units of one request written or one answer read. */
  function Work(w: World): nat {
    2 * |w.sink.queue| + |w.inbox|
  }

  lemma HeadIsLive(c: Conf, w: World)
    requires Flow(c, w) && w.sink.queue != []
    ensures HasWork(w) && Live(w.sink, w.sink.queue[0])
  {
    assert w.sink.queue[0] in w.sink.queue;
  }

  /** A request that does not stay queued is work done. */
  lemma SendFalls(c: Conf, w: World, o: Outcome, now: real)
    requires HasWork(w)
    ensures var w' := SendHead(c, w, o, now);
      && w'.sink.lastSeq == NextSeq(w.sink.lastSeq)
      && (if o.Blocked? then Work(w') == Work(w) && w'.sink.pending == w.sink.pending else Work(w') < Work(w))
  {
    var e := w.sink.queue[0];
    assert e in w.sink.queue;
  }

  lemma WithinWindow(c: Conf, w: World)
    requires Flow(c, w)
    ensures |w.sink.pending| <= c.window
  {
  }

  lemma ReplyExtends(c: Conf, w0: World, run: seq<Event>, w: World, now: real)
    requires Path(c, w0, run, w) && Flow(c, w) && w.inbox != [] && Resolved(w.sink)
    ensures Path(c, w0, run + [Reply(now)], ReadAck(w, now))
  {
    hide Flow, Path;
    PathExtends(c, w0, run, w, Reply(now));
  }

  lemma DueExtends(c: Conf, w0: World, run: seq<Event>, w: World, e: Entry)
    requires Path(c, w0, run, w) && Flow(c, w) && Resolved(w.sink) && e in w.sink.retry
    ensures Path(c, w0, run + [Due(e)], w.(sink := SinkModel.Promote(w.sink, e)))
  {
    hide Flow, Path;
    PathExtends(c, w0, run, w, Due(e));
  }

  lemma LateExtends(c: Conf, w0: World, run: seq<Event>, w: World, n: nat)
    requires Path(c, w0, run, w) && Flow(c, w) && Resolved(w.sink) && n in w.sink.pending
    ensures Path(c, w0, run + [Late(n)], w.(sink := SinkModel.Expire(w.sink, n)))
  {
    hide Flow, Path;
    PathExtends(c, w0, run, w, Late(n));
  }

  lemma EnqueueFields(s: Sink, e: Entry)
    requires e in s.heap
    ensures var s' := SinkModel.Enqueue(s, e);
      s'.retry == Without(s.retry, e.key) && s'.pending == s.pending && s'.lastSeq == s.lastSeq
        && s'.heap.Keys == s.heap.Keys
  {
  }

  /** Reading an answer is work done. */
  lemma ReplyFalls(w: World, now: real)
    requires w.inbox != [] && forall n | n in w.sink.pending :: w.sink.pending[n] in w.sink.heap
    ensures var w' := ReadAck(w, now);
      Work(w') < Work(w) && w'.sink.lastSeq == w.sink.lastSeq && w'.inbox == w.inbox[1..]
  {
  }

  // ----- the retry map is a map -------------------------------------------------------

  lemma {:induction false} WithoutNoTwins(q: seq<Entry>, k: Key)
    requires NoTwins(q)
    ensures NoTwins(Without(q, k))
  {
    if q != [] {
      var front, last := q[..|q| - 1], q[|q| - 1];
      WithoutNoTwins(front, k);
      assert forall x | x in front :: x.key != last.key;
      SnocNoTwins(Without(front, k), last);
    }
  }

  lemma SnocNoTwins(t: seq<Entry>, h: Entry)
    requires NoTwins(t) && forall x | x in t :: x.key != h.key
    ensures NoTwins(t + [h])
  {
    forall i, j | 0 <= i < j < |t + [h]|
      ensures (t + [h])[i].key != (t + [h])[j].key
    {
      assert (t + [h])[i] == t[i] && t[i] in t;
    }
  }

  lemma ConsNoTwins(h: Entry, t: seq<Entry>)
    requires NoTwins(t) && forall x | x in t :: x.key != h.key
    ensures NoTwins([h] + t)
  {
    forall i, j | 0 <= i < j < |[h] + t|
      ensures ([h] + t)[i].key != ([h] + t)[j].key
    {
      assert ([h] + t)[j] == t[j - 1];
      assert t[j - 1] in t;
    }
  }

  lemma {:induction false} PutNoTwins(q: seq<Entry>, e: Entry)
    requires NoTwins(q)
    ensures NoTwins(Put(q, e))
    ensures forall x | x in Put(q, e) :: x == e || x in q
  {
    if q != [] {
      assert forall x | x in q[1..] :: x.key != q[0].key;
      if q[0].key == e.key {
        ConsNoTwins(e, q[1..]);
      } else {
        PutNoTwins(q[1..], e);
        ConsNoTwins(q[0], Put(q[1..], e));
      }
    }
  }

  lemma StepKeepsRetry(c: Conf, w: World, ev: Event)
    requires Resolved(w.sink) && Enabled(c, w, ev) && NoTwins(w.sink.retry)
    ensures NoTwins(Step(c, w, ev).sink.retry)
  {
    var q := w.sink.retry;
    forall k { WithoutNoTwins(q, k); }
    forall e { PutNoTwins(q, e); }
    match ev
    case Due(e) => WithoutNoTwins(Without(q, e.key), e.key);
    case Offer(route, made) => InstallKeepsRetry(c, w.sink, route, made);
    case _ =>
  }

  lemma InstallKeepsRetry(c: Conf, s: Sink, route: Route, made: Entry)
    requires KeyedByEntry(s) && MayAllocate(c, s, route, made) && NoTwins(s.retry)
    ensures NoTwins(Install(c, s, route, made).retry)
  {
    hide Without, NoTwins;
    forall k { WithoutNoTwins(s.retry, k); }
    forall k, k' { WithoutNoTwins(Without(s.retry, k), k'); }
  }

  lemma {:induction false} PathKeepsRetry(c: Conf, w0: World, run: seq<Event>, w: World)
    requires Path(c, w0, run, w) && NoTwins(w0.sink.retry)
    ensures NoTwins(w.sink.retry)
    decreases |run|
  {
    hide Flow, Enabled, Step;
    if run != [] {
      FlowIsResolved(c, w0);
      StepKeepsRetry(c, w0, run[0]);
      PathKeepsRetry(c, Next(c, w0, run[0]), run[1..], w);
    }
  }
}
