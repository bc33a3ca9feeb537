/** One subscriber's bounded event queue: a single publisher on the loop, reads
    from any thread in between. */
module Events {
  import opened Routes

  /** Where `publish` is: between calls, or making room for an event. */
  datatype Phase<T> = Idle | Evicting(item: T) | Putting(item: T)

  /** `log` is what was put into the queue, `gone` what left it, in order. */
  datatype Sub<T> = Sub(
    limit: nat, dropOldest: bool, queue: seq<T>, delivered: nat, dropped: nat, phase: Phase<T>,
    published: seq<T>, log: seq<T>, gone: seq<T>, consumed: nat, evicted: nat, raced: nat)

  datatype Event<T> = Publish(item: T) | Evict | PutAgain | Read

  predicate Enabled<T>(s: Sub<T>, ev: Event<T>) {
    match ev
    case Publish(_) => s.phase.Idle?
    case Evict => s.phase.Evicting?
    case PutAgain => s.phase.Putting?
    case Read => |s.queue| > 0
  }

  function Put<T>(s: Sub<T>, item: T): Sub<T> {
    s.(queue := s.queue + [item], log := s.log + [item], delivered := s.delivered + 1)
  }

  function Take<T>(s: Sub<T>): Sub<T>
    requires |s.queue| > 0
  {
    s.(queue := s.queue[1..], gone := s.gone + [s.queue[0]])
  }

  /** One put or get on the queue, which is atomic; `publish` makes up to three. */
  function Step<T>(s: Sub<T>, ev: Event<T>): Sub<T>
    requires Enabled(s, ev)
  {
    match ev
    case Publish(item) =>
      var s' := s.(published := s.published + [item]);
      if |s.queue| < s.limit then Put(s', item)
      else if s.dropOldest then s'.(phase := Evicting(item))
      else s'.(dropped := s.dropped + 1)
    case Evict =>
      var s' := if |s.queue| > 0 then Take(s).(evicted := s.evicted + 1) else s.(raced := s.raced + 1);
      s'.(phase := Putting(s.phase.item))
    case PutAgain =>
      if |s.queue| < s.limit then Put(s, s.phase.item).(dropped := s.dropped + 1, phase := Idle)
      else s.(dropped := s.dropped + 1, phase := Idle)
    case Read => Take(s).(consumed := s.consumed + 1)
  }

  /** `a` is `b` with some items left out. */
  ghost predicate Subsequence<T>(a: seq<T>, b: seq<T>)
    decreases |b|
  {
    if a == [] then true
    else if b == [] then false
    else if a[|a| - 1] == b[|b| - 1] && Subsequence(a[..|a| - 1], b[..|b| - 1]) then true
    else Subsequence(a, b[..|b| - 1])
  }

  /** The event `publish` is making room for. */
  function InHand<T>(s: Sub<T>): seq<T> {
    match s.phase case Idle => [] case Evicting(item) => [item] case Putting(item) => [item]
  }

  ghost predicate Inv<T>(s: Sub<T>) {
    && s.limit > 0 && |s.queue| <= s.limit
    && s.log == s.gone + s.queue && |s.gone| == s.consumed + s.evicted && s.delivered == |s.log|
    && (s.phase.Putting? ==> |s.queue| < s.limit)
    && (s.dropOldest ==>
         && s.published == s.log + InHand(s)
         && s.dropped + (if s.phase.Putting? then 1 else 0) == s.evicted + s.raced)
    && (!s.dropOldest ==>
         && s.phase.Idle? && s.evicted == 0 && s.raced == 0
         && Subsequence(s.log, s.published) && s.delivered + s.dropped == |s.published|)
  }

  function New<T>(limit: nat, dropOldest: bool): Sub<T> {
    Sub(limit, dropOldest, [], 0, 0, Idle, [], [], [], 0, 0, 0)
  }

  lemma StepKeeps<T>(s: Sub<T>, ev: Event<T>)
    requires Inv(s) && Enabled(s, ev)
    ensures Inv(Step(s, ev)) && Step(s, ev).limit == s.limit && Step(s, ev).dropOldest == s.dropOldest
  {
    match ev
    case Publish(item) =>
      if |s.queue| < s.limit {
        assert s.log + [item] == s.gone + (s.queue + [item]);
        Grows(s.log, s.published, item);
      } else if !s.dropOldest {
        Skips(s.log, s.published, item);
      }
    case Evict => if s.queue != [] { TakeKeeps(s); }
    case PutAgain => assert s.log + [s.phase.item] == s.gone + (s.queue + [s.phase.item]);
    case Read => TakeKeeps(s);
  }

  lemma TakeKeeps<T>(s: Sub<T>)
    requires s.queue != [] && s.log == s.gone + s.queue
    ensures s.log == Take(s).gone + Take(s).queue
  {
    assert s.queue == [s.queue[0]] + s.queue[1..];
  }

  lemma Grows<T>(a: seq<T>, b: seq<T>, item: T)
    ensures Subsequence(a, b) ==> Subsequence(a + [item], b + [item])
  {
    assert (a + [item])[..|a|] == a && (b + [item])[..|b|] == b;
  }

  lemma Skips<T>(a: seq<T>, b: seq<T>, item: T)
    ensures Subsequence(a, b) ==> Subsequence(a, b + [item])
  {
    assert (b + [item])[..|b|] == b;
  }

  predicate Legal<T>(s: Sub<T>, evs: seq<Event<T>>)
    decreases |evs|
  {
    |evs| == 0 || (Enabled(s, evs[0]) && Legal(Step(s, evs[0]), evs[1..]))
  }

  function After<T>(s: Sub<T>, evs: seq<Event<T>>): Sub<T>
    requires Legal(s, evs)
    decreases |evs|
  {
    if |evs| == 0 then s else After(Step(s, evs[0]), evs[1..])
  }

  lemma {:induction false} RunKeeps<T>(s: Sub<T>, evs: seq<Event<T>>)
    requires Inv(s) && Legal(s, evs)
    ensures Inv(After(s, evs)) && After(s, evs).dropOldest == s.dropOldest && After(s, evs).limit == s.limit
    decreases |evs|
  {
    hide Inv;
    if evs != [] {
      StepKeeps(s, evs[0]);
      RunKeeps(Step(s, evs[0]), evs[1..]);
    }
  }

  // ----- the schedule itself ------------------------------------------------------------

  /** What a schedule publishes, in order. */
  function Published<T>(evs: seq<Event<T>>): seq<T> {
    if |evs| == 0 then []
    else
      var front, last := Published(evs[..|evs| - 1]), evs[|evs| - 1];
      if last.Publish? then front + [last.item] else front
  }

  function Reads<T>(evs: seq<Event<T>>): nat {
    if |evs| == 0 then 0 else Reads(evs[..|evs| - 1]) + (if evs[|evs| - 1].Read? then 1 else 0)
  }

  /** What a subscriber that refuses the newest takes: each event that finds fewer
      than `limit` taken and not yet read. */
  function TakenByNewest<T>(limit: nat, evs: seq<Event<T>>): seq<T> {
    if |evs| == 0 then []
    else
      var front, before, last := evs[..|evs| - 1], TakenByNewest(limit, evs[..|evs| - 1]), evs[|evs| - 1];
      if last.Publish? && |before| - Reads(front) < limit then before + [last.item] else before
  }

  lemma {:induction false} ScheduleIs<T>(limit: nat, dropOldest: bool, evs: seq<Event<T>>)
    requires limit > 0 && Legal(New<T>(limit, dropOldest), evs)
    ensures var s := After(New<T>(limit, dropOldest), evs);
      && s.published == Published(evs) && s.consumed == Reads(evs)
      && (!dropOldest ==> s.log == TakenByNewest(limit, evs))
    decreases |evs|
  {
    if |evs| > 0 {
      var n := |evs| - 1;
      var front, ev := evs[..n], evs[n];
      assert evs == front + [ev];
      RunSplits(New<T>(limit, dropOldest), front, ev);
      ScheduleIs(limit, dropOldest, front);
      RunKeeps(New<T>(limit, dropOldest), front);
    }
  }

  /** A drop-oldest subscriber, after any interleaving and between publishes: its
      queue is a contiguous suffix of everything published, nothing is
      unaccounted for, and no event was refused. */
  lemma DropOldestKeepsASuffix<T>(limit: nat, evs: seq<Event<T>>)
    requires limit > 0 && Legal(New<T>(limit, true), evs) && After(New<T>(limit, true), evs).phase.Idle?
    ensures var s, all := After(New<T>(limit, true), evs), Published(evs);
      && |all| == Reads(evs) + s.evicted + |s.queue| == s.delivered
      && |s.queue| <= limit && s.queue == all[|all| - |s.queue|..]
  {
    RunKeeps(New<T>(limit, true), evs);
    ScheduleIs(limit, true, evs);
  }

  // ----- when the loss counter is exact -------------------------------------------------

  /** How many reads a schedule ends with. */
  function TrailingReads<T>(evs: seq<Event<T>>): nat {
    if |evs| == 0 || !evs[|evs| - 1].Read? then 0 else TrailingReads(evs[..|evs| - 1]) + 1
  }

  /** Some publish that found the queue full was overtaken, before it evicted, by
      at least `limit` reads: the `j`th event is the eviction, and what stands
      directly before it are the reads since that publish. */
  ghost predicate Overtaken<T>(limit: nat, evs: seq<Event<T>>) {
    exists j :: 0 <= j < |evs| && evs[j].Evict? && TrailingReads(evs[..j]) >= limit
  }

  /** A publish making room sees the queue it found full, less the reads since. */
  ghost predicate Counting<T>(limit: nat, evs: seq<Event<T>>, s: Sub<T>) {
    && (s.phase.Evicting? ==> |s.queue| + TrailingReads(evs) == limit)
    && (s.raced > 0 <==> Overtaken(limit, evs))
  }

  lemma {:induction false} RunSplits<T>(s: Sub<T>, evs: seq<Event<T>>, ev: Event<T>)
    requires Legal(s, evs + [ev])
    ensures Legal(s, evs) && Enabled(After(s, evs), ev) && After(s, evs + [ev]) == Step(After(s, evs), ev)
    decreases |evs|
  {
    if |evs| == 0 {
      assert evs + [ev] == [ev];
    } else {
      assert (evs + [ev])[1..] == evs[1..] + [ev];
      RunSplits(Step(s, evs[0]), evs[1..], ev);
    }
  }

  lemma {:induction false} RunCounts<T>(limit: nat, evs: seq<Event<T>>)
    requires limit > 0 && Legal(New<T>(limit, true), evs)
    ensures Counting(limit, evs, After(New<T>(limit, true), evs))
    decreases |evs|
  {
    if |evs| > 0 {
      var n := |evs| - 1;
      var front, ev := evs[..n], evs[n];
      assert evs == front + [ev];
      RunSplits(New<T>(limit, true), front, ev);
      RunCounts(limit, front);
      RunKeeps(New<T>(limit, true), front);
      OvertakenGrows(limit, front, ev);
      CountsOneMore(limit, front, ev, After(New<T>(limit, true), front));
    }
  }

  lemma OvertakenGrows<T>(limit: nat, front: seq<Event<T>>, ev: Event<T>)
    ensures Overtaken(limit, front + [ev]) <==>
            Overtaken(limit, front) || (ev.Evict? && TrailingReads(front) >= limit)
  {
    var evs := front + [ev];
    assert evs[..|front|] == front;
    forall j | 0 <= j < |front| ensures evs[j] == front[j] && evs[..j] == front[..j] {}
    if Overtaken(limit, front) {
      var j :| 0 <= j < |front| && front[j].Evict? && TrailingReads(front[..j]) >= limit;
      assert evs[j].Evict? && TrailingReads(evs[..j]) >= limit;
    }
    if ev.Evict? && TrailingReads(front) >= limit {
      assert evs[|front|].Evict? && TrailingReads(evs[..|front|]) >= limit;
    }
  }

  lemma CountsOneMore<T>(limit: nat, front: seq<Event<T>>, ev: Event<T>, s: Sub<T>)
    requires Inv(s) && s.dropOldest && s.limit == limit && Enabled(s, ev) && Counting(limit, front, s)
    requires Overtaken(limit, front + [ev]) <==>
             Overtaken(limit, front) || (ev.Evict? && TrailingReads(front) >= limit)
    ensures Counting(limit, front + [ev], Step(s, ev))
  {
    hide Overtaken;
    assert (front + [ev])[..|front|] == front;
  }

  /** The loss counter is exact exactly for the schedules in which no publish was
      overtaken by enough reads to empty the queue it had found full. */
  lemma DroppedIsExactIff<T>(limit: nat, evs: seq<Event<T>>)
    requires limit > 0 && Legal(New<T>(limit, true), evs) && After(New<T>(limit, true), evs).phase.Idle?
    ensures var s := After(New<T>(limit, true), evs);
      s.dropped == s.evicted <==> !Overtaken(limit, evs)
  {
    RunKeeps(New<T>(limit, true), evs);
    RunCounts(limit, evs);
  }

  lemma CountedLossThatWasNone<T>(x: T, y: T)
    ensures var evs := [Publish(x), Publish(y), Read, Evict, PutAgain];
      && Legal(New<T>(1, true), evs)
      && var s := After(New<T>(1, true), evs); s.dropped == 1 && s.evicted == 0 && s.queue == [y]
  {
    var evs := [Publish(x), Publish(y), Read, Evict, PutAgain];
    var s0 := New<T>(1, true);
    var s1 := Step(s0, evs[0]);
    var s2 := Step(s1, evs[1]);
    var s3 := Step(s2, evs[2]);
    var s4 := Step(s3, evs[3]);
    var s5 := Step(s4, evs[4]);
    assert s3.queue == [] && s5.queue == [y];
    assert evs[1..][1..][1..][1..][1..] == [];
    assert Legal(s5, evs[1..][1..][1..][1..][1..]) && After(s5, evs[1..][1..][1..][1..][1..]) == s5;
    assert Legal(s4, evs[1..][1..][1..][1..]) && After(s4, evs[1..][1..][1..][1..]) == s5;
    assert Legal(s3, evs[1..][1..][1..]) && After(s3, evs[1..][1..][1..]) == s5;
    assert Legal(s2, evs[1..][1..]) && After(s2, evs[1..][1..]) == s5;
    assert Legal(s1, evs[1..]) && After(s1, evs[1..]) == s5;
  }

  /** A drop-newest subscriber takes exactly the events that find room, reads them in
      order, keeps the rest of them waiting, and counts every other event dropped. */
  lemma DropNewestSeesASubsequence<T>(limit: nat, evs: seq<Event<T>>)
    requires limit > 0 && Legal(New<T>(limit, false), evs)
    ensures var s, all, taken := After(New<T>(limit, false), evs), Published(evs), TakenByNewest(limit, evs);
      && Subsequence(taken, all) && Reads(evs) <= |taken| <= Reads(evs) + limit
      && s.gone == taken[..Reads(evs)] && s.queue == taken[Reads(evs)..]
      && s.delivered == |taken| && s.dropped == |all| - |taken|
  {
    RunKeeps(New<T>(limit, false), evs);
    ScheduleIs(limit, false, evs);
  }
}
