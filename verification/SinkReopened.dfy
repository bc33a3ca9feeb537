/** A run that goes wrong: a delete refused at shutdown leaves a retry behind,
    and the sink, opened and reconciled again, loses a route to it. */
module SinkReopened {
  import opened Routes
  import opened SinkModel
  import opened SinkInvariant
  import opened SinkRun
  import opened Reconcile
  import opened SinkShutdown

  const EPERM: nat := 1

  /** The kernel's table with the one route. */
  function OneRoute(c: Conf, k: Key, hop: Hop): Table {
    map[KernelKey(c.table, k) := KernelRoute(c.protocol, hop.gateway, hop.oif)]
  }

  /** A sink that has installed one route. */
  function Serving(c: Conf, k: Key, hop: Hop, e: Entry): World {
    World(Sink(map[e := Rec(Add, hop, Installed, 1, 0.0, 0, 0.0, 0, true)], map[k := e], [], map[], [],
               map[k.prefix := k], 1),
          OneRoute(c, k, hop), [])
  }

  /** Shutdown has turned it into a queued delete. */
  function Doomed(c: Conf, k: Key, hop: Hop, e: Entry): World {
    World(Sink(map[e := Rec(Del, hop, Queued, 1, 0.0, 0, 0.0, 0, true)], map[k := e], [e], map[], [],
               map[k.prefix := k], 1),
          OneRoute(c, k, hop), [])
  }

  /** The kernel refused that delete; the containers are cleared, the retry stays. */
  function Closed(c: Conf, k: Key, hop: Hop, e: Entry): World {
    World(Sink(map[e := Rec(Del, hop, Retry, 2, 0.0, 1, 1.0, EPERM, true)], map[], [], map[], [e], map[], 2),
          OneRoute(c, k, hop), [])
  }

  lemma ServingIsInv(c: Conf, k: Key, hop: Hop, e: Entry)
    requires e.key == k
    ensures Inv(c, Serving(c, k, hop, e))
  {
    var w := Serving(c, k, hop, e);
    assert RecStaged(w.sink, e);
    forall x ensures Knows(c, w, x) {}
    forall p ensures OccupiesOwn(w.sink, p) {}
    forall x ensures AddIffOccupied(w.sink, x) {}
  }

  lemma Singletons(e: Entry)
    ensures Without([], e.key) == [] && Without([e], e.key) == [] && Put([], e) == [e]
  {
    assert [e][..0] == [];
  }

  lemma ShutdownDooms(c: Conf, k: Key, hop: Hop, e: Entry)
    requires e.key == k
    ensures var w := Serving(c, k, hop, e);
      w.(sink := Doom(w.sink.(queue := [], retry := []), e)) == Doomed(c, k, hop, e)
  {
    Singletons(e);
  }

  lemma ShutdownLeavesRetry(c: Conf, k: Key, hop: Hop, e: Entry)
    requires e.key == k
    ensures var sent := SendHead(c, Doomed(c, k, hop, e), Delivered(Refuse(EPERM)), 0.0);
      && Honest(OneRoute(c, k, hop), RequestOf(c, k, Doomed(c, k, hop, e).sink.heap[e]), Refuse(EPERM))
      && Resolved(sent.sink) && sent.inbox != []
      && var read := ReadAck(sent, 0.0);
         read.(sink := Cleared(read.sink)) == Closed(c, k, hop, e)
  {
    hide Without, Put;
    Singletons(e);
    var sent := SendHead(c, Doomed(c, k, hop, e), Delivered(Refuse(EPERM)), 0.0);
    assert sent.inbox == [Ack(2, EPERM)] && sent.sink.pending == map[2 := e];
    assert sent.sink.heap == map[e := Rec(Del, hop, Sent, 2, 0.0, 0, 0.0, 0, true)];
    assert BackoffDelay(1) == 1.0;
    var read := ReadAck(sent, 0.0);
    assert read.sink.heap == map[e := Rec(Del, hop, Retry, 2, 0.0, 1, 1.0, EPERM, true)];
    assert read.inbox == [];
  }

  /** The retry left over is sent again, and the answer forgets the new entry. */
  lemma RetryForgetsAdopted(c: Conf, k: Key, hop: Hop, e: Entry, a: Entry)
    requires e.key == k == a.key && e != a
    ensures var closed := Closed(c, k, hop, e);
      var adopted := closed.(sink := AdoptInto(closed.sink.(lastSeq := 3), k, hop, a));
      var due := adopted.(sink := Promote(adopted.sink, e));
      && HasWork(due)
      && var sent := SendHead(c, due, Delivered(Accept(0)), 1.0);
      && Resolved(sent.sink) && sent.inbox != []
      && var end := ReadAck(sent, 1.0);
      && Own(c, adopted.table, k) == Some(hop) && adopted.sink.prefixKey == end.sink.prefixKey == map[k.prefix := k]
      && Idle(end.sink) && k !in end.sink.entries && Own(c, end.table, k).None?
  {
    hide Without, Put;
    Singletons(e);
    var closed := Closed(c, k, hop, e);
    var adopted := closed.(sink := AdoptInto(closed.sink.(lastSeq := 3), k, hop, a));
    var due := adopted.(sink := Promote(adopted.sink, e));
    assert due.sink.queue == [e] && due.sink.retry == [];
    var sent := SendHead(c, due, Delivered(Accept(0)), 1.0);
    assert sent.sink.pending == map[4 := e] && sent.inbox == [Ack(4, 0)] && sent.sink.queue == [];
    assert Own(c, sent.table, k).None?;
    var end := ReadAck(sent, 1.0);
    assert end.sink.pending == map[];
  }

  /** The whole run.  The sink is idle, its index names the key, the route was
      adopted and is wanted; and neither the sink nor the kernel has it. */
  lemma StaleRetryLosesARoute(c: Conf, k: Key, hop: Hop, e: Entry, a: Entry)
    requires e.key == k == a.key && e != a
    ensures var serving := Serving(c, k, hop, e);
      && Inv(c, serving)
      && var doomed := serving.(sink := Doom(serving.sink.(queue := [], retry := []), e));
      && HasWork(doomed)
      && var refused := SendHead(c, doomed, Delivered(Refuse(EPERM)), 0.0);
      && Resolved(refused.sink) && refused.inbox != []
      && var read := ReadAck(refused, 0.0);
      var closed := read.(sink := Cleared(read.sink));
      && !Blank(closed.sink) && e in closed.sink.heap && Own(c, closed.table, k) == Some(hop)
      && var adopted := closed.(sink := AdoptInto(closed.sink.(lastSeq := 3), k, hop, a));
      var due := adopted.(sink := Promote(adopted.sink, e));
      && HasWork(due)
      && var sent := SendHead(c, due, Delivered(Accept(0)), 1.0);
      && Resolved(sent.sink) && sent.inbox != []
      && var end := ReadAck(sent, 1.0);
      && Idle(end.sink) && end.sink.prefixKey == map[k.prefix := k]
      && k !in end.sink.entries && Own(c, end.table, k).None?
  {
    hide SendHead, ReadAck, Doom, AdoptInto, Promote, Resolved, Inv, Own, Idle;
    ServingIsInv(c, k, hop, e);
    ShutdownDooms(c, k, hop, e);
    ShutdownLeavesRetry(c, k, hop, e);
    RetryForgetsAdopted(c, k, hop, e, a);
  }
}
