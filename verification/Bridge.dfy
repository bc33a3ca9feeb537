/** Commands crossing from request threads to the engine's loop: submission,
    cancellation against start, and the counters, step by interleaved step. */
module Bridge {
  import opened Routes

  /** Where the request thread is. */
  datatype Caller =
    | Counted                      // past the cap, `in_flight` raised
    | Offering                     // future made, `_queued` raised
    | Handed                       // the loop has the runner
    | Waiting                      // the done callback is added
    | Expired                      // the wait timed out; cancel() comes next
    | Unwinding                    // submission failed; the slot goes back next
    | Answered(report: Report)

  datatype Report = Refused | Unavailable | Result | Cancelled | Unknown

  datatype Future = Pending | Running | Finished | Dropped

  /** Where the runner on the loop is. */
  datatype Runner = Absent | InLoop | Entered | Executing | Over

  datatype Command = Command(
    caller: Caller, future: Future, runner: Runner,
    hooked: bool,                  // the done callback is on the future
    released: bool,                // `_settled` has run for it
    starts: nat)                   // how many times the callable was started

  /** `limit` 0 means no cap. */
  datatype System = System(commands: map<nat, Command>, inFlight: int, queued: int, limit: nat)

  datatype Event =
    | Arrive(id: nat)
    | Offer(id: nat)
    | Hand(id: nat)
    | HandFails(id: nat)           // call_soon_threadsafe raised
    | SubmitFails(id: nat)         // the engine is not running
    | Unwind(id: nat)
    | Hook(id: nat)
    | Enter(id: nat)               // the runner's first lines: `_queued` lowered
    | Mark(id: nat)                // set_running_or_notify_cancel
    | Finish(id: nat)
    | Settle(id: nat)              // the done callback runs
    | Deliver(id: nat)
    | Expire(id: nat)
    | Cancel(id: nat)

  predicate Full(s: System) {
    s.limit > 0 && s.inFlight >= s.limit
  }

  predicate Done(f: Future) {
    f == Finished || f == Dropped
  }

  predicate Enabled(s: System, ev: Event) {
    if ev.Arrive? then ev.id !in s.commands
    else
      ev.id in s.commands &&
      var c := s.commands[ev.id];
      match ev
      case Offer(_) => c.caller == Counted
      case SubmitFails(_) => c.caller == Counted
      case Hand(_) => c.caller == Offering
      case HandFails(_) => c.caller == Offering
      case Unwind(_) => c.caller == Unwinding
      case Hook(_) => c.caller == Handed
      case Enter(_) => c.runner == InLoop
      case Mark(_) => c.runner == Entered
      case Finish(_) => c.runner == Executing
      case Settle(_) => c.hooked && Done(c.future) && !c.released
      case Deliver(_) => c.caller == Waiting && c.future == Finished
      case Expire(_) => c.caller == Waiting
      case Cancel(_) => c.caller == Expired
      case Arrive(_) => true
  }

  function Step(s: System, ev: Event): System
    requires Enabled(s, ev)
  {
    match ev
    case Arrive(id) =>
      if Full(s) then s.(commands := s.commands[id := Command(Answered(Refused), Pending, Absent, false, true, 0)])
      else s.(commands := s.commands[id := Command(Counted, Pending, Absent, false, false, 0)],
        inFlight := s.inFlight + 1)
    case Offer(id) => s.(commands := s.commands[id := s.commands[id].(caller := Offering)], queued := s.queued + 1)
    case SubmitFails(id) => s.(commands := s.commands[id := s.commands[id].(caller := Unwinding)])
    case Hand(id) => s.(commands := s.commands[id := s.commands[id].(caller := Handed, runner := InLoop)])
    case HandFails(id) => s.(commands := s.commands[id := s.commands[id].(caller := Unwinding)], queued := s.queued - 1)
    case Unwind(id) =>
      s.(commands := s.commands[id := s.commands[id].(caller := Answered(Unavailable), released := true)],
        inFlight := s.inFlight - 1)
    case Hook(id) => s.(commands := s.commands[id := s.commands[id].(caller := Waiting, hooked := true)])
    case Enter(id) => s.(commands := s.commands[id := s.commands[id].(runner := Entered)], queued := s.queued - 1)
    case Mark(id) =>
      var c := s.commands[id];
      s.(commands := s.commands[id :=
        if c.future == Pending then c.(future := Running, runner := Executing, starts := c.starts + 1)
        else c.(runner := Over)])
    case Finish(id) => s.(commands := s.commands[id := s.commands[id].(future := Finished, runner := Over)])
    case Settle(id) => s.(commands := s.commands[id := s.commands[id].(released := true)], inFlight := s.inFlight - 1)
    case Deliver(id) => s.(commands := s.commands[id := s.commands[id].(caller := Answered(Result))])
    case Expire(id) => s.(commands := s.commands[id := s.commands[id].(caller := Expired)])
    case Cancel(id) =>
      var c := s.commands[id];
      s.(commands := s.commands[id :=
        if c.future == Pending || c.future == Dropped then c.(future := Dropped, caller := Answered(Cancelled))
        else c.(caller := Answered(Unknown))])
  }

  // ----- what every interleaving keeps ---------------------------------------------------

  /** The three parties agree about one command. */
  predicate Agreed(c: Command) {
    && c.starts <= 1
    && (c.starts == 1 <==> c.future == Running || c.future == Finished)
    && (c.future == Running <==> c.runner == Executing)
    && (c.runner == Over ==> Done(c.future))
    && (c.runner in {Absent, InLoop, Entered} ==> c.starts == 0)
    && (c.caller in {Counted, Offering, Unwinding} ==>
        c.runner == Absent && !c.hooked && !c.released && c.future == Pending)
    && (c.caller == Handed ==> c.runner != Absent && !c.hooked && !c.released && c.future != Dropped)
    && (c.caller in {Waiting, Expired} ==> c.hooked && c.runner != Absent && c.future != Dropped)
    && (c.caller in {Answered(Refused), Answered(Unavailable)} ==>
        c.released && c.runner == Absent && c.starts == 0 && c.future == Pending)
    && (c.caller == Answered(Result) ==> c.hooked && c.future == Finished)
    && (c.caller == Answered(Cancelled) ==> c.hooked && c.future == Dropped)
    && (c.caller == Answered(Unknown) ==> c.hooked && c.starts == 1)
    && (c.hooked && c.released ==> Done(c.future))
  }

  /** Commands holding a place under the cap. */
  function Unsettled(m: map<nat, Command>): set<nat> {
    set id | id in m && !m[id].released
  }

  /** Commands whose runner the loop has yet to start, or is being given. */
  function NotStarted(m: map<nat, Command>): set<nat> {
    set id | id in m && Waits(m[id])
  }

  predicate Waits(c: Command) {
    c.caller == Offering || c.runner == InLoop
  }

  ghost predicate Inv(s: System) {
    && (forall id | id in s.commands :: Agreed(s.commands[id]))
    && s.inFlight == |Unsettled(s.commands)| && s.queued == |NotStarted(s.commands)|
    && (s.limit > 0 ==> s.inFlight <= s.limit)
  }

  /** What one change to one command does to both counts. */
  lemma CountsMove(m: map<nat, Command>, id: nat, c: Command)
    ensures var m' := m[id := c];
      && |Unsettled(m')| == |Unsettled(m)| +
          (if c.released then 0 else 1) - (if id in m && !m[id].released then 1 else 0)
      && |NotStarted(m')| == |NotStarted(m)| + (if Waits(c) then 1 else 0) - (if id in m && Waits(m[id]) then 1 else 0)
  {
    var m' := m[id := c];
    SetMoves(Unsettled(m), Unsettled(m'), id);
    SetMoves(NotStarted(m), NotStarted(m'), id);
  }

  lemma SetMoves(a: set<nat>, b: set<nat>, id: nat)
    requires forall x | x != id :: x in a <==> x in b
    ensures |b| == |a| + (if id in b then 1 else 0) - (if id in a then 1 else 0)
  {
    if id in a && id !in b { assert a == b + {id}; }
    else if id !in a && id in b { assert b == a + {id}; }
    else { assert a == b; }
  }

  lemma StepAgrees(s: System, ev: Event)
    requires Inv(s) && Enabled(s, ev)
    ensures ev.id in Step(s, ev).commands && Agreed(Step(s, ev).commands[ev.id])
    ensures Step(s, ev).commands == s.commands[ev.id := Step(s, ev).commands[ev.id]]
  {
    if !ev.Arrive? { assert Agreed(s.commands[ev.id]); }
  }

  lemma StepCounts(s: System, ev: Event)
    requires Inv(s) && Enabled(s, ev)
    ensures Step(s, ev).inFlight == |Unsettled(Step(s, ev).commands)|
    ensures Step(s, ev).queued == |NotStarted(Step(s, ev).commands)|
    ensures s.limit > 0 ==> Step(s, ev).inFlight <= s.limit
  {
    hide Unsettled, NotStarted;
    StepAgrees(s, ev);
    CountsMove(s.commands, ev.id, Step(s, ev).commands[ev.id]);
    if !ev.Arrive? { assert Agreed(s.commands[ev.id]); }
  }

  lemma StepKeeps(s: System, ev: Event)
    requires Inv(s) && Enabled(s, ev)
    ensures Inv(Step(s, ev)) && Step(s, ev).limit == s.limit
  {
    StepAgrees(s, ev);
    StepCounts(s, ev);
  }

  predicate Legal(s: System, evs: seq<Event>)
    decreases |evs|
  {
    evs == [] || (Enabled(s, evs[0]) && Legal(Step(s, evs[0]), evs[1..]))
  }

  function After(s: System, evs: seq<Event>): System
    requires Legal(s, evs)
    decreases |evs|
  {
    if evs == [] then s else After(Step(s, evs[0]), evs[1..])
  }

  function Start(limit: nat): System {
    System(map[], 0, 0, limit)
  }

  lemma StartKeeps(limit: nat, evs: seq<Event>)
    requires Legal(Start(limit), evs)
    ensures Inv(After(Start(limit), evs)) && After(Start(limit), evs).limit == limit
  {
    assert Unsettled(map[]) == {} && NotStarted(map[]) == {};
    RunKeeps(Start(limit), evs);
  }

  lemma {:induction false} RunKeeps(s: System, evs: seq<Event>)
    requires Inv(s) && Legal(s, evs)
    ensures Inv(After(s, evs)) && After(s, evs).limit == s.limit
    decreases |evs|
  {
    hide Inv;
    if evs != [] {
      StepKeeps(s, evs[0]);
      RunKeeps(Step(s, evs[0]), evs[1..]);
    }
  }

  // ----- what a client is told is true ---------------------------------------------------

  /** In every reachable state: a command runs at most once, one reported
      cancelled, refused or unavailable was never started, one reported unknown or
      answered was, and the counters are exact and within the cap. */
  lemma ReportsAreTrue(limit: nat, evs: seq<Event>, id: nat)
    requires Legal(Start(limit), evs) && id in After(Start(limit), evs).commands
    ensures var s' := After(Start(limit), evs);
      var c := s'.commands[id];
      && c.starts <= 1
      && (c.caller.Answered? ==>
           (c.starts == 0 <==> c.caller.report in {Cancelled, Refused, Unavailable}))
      && 0 <= s'.inFlight == |Unsettled(s'.commands)| && (limit > 0 ==> s'.inFlight <= limit)
      && 0 <= s'.queued == |NotStarted(s'.commands)|
  {
    StartKeeps(limit, evs);
    var c := After(Start(limit), evs).commands[id];
    assert Agreed(c);
    if c.caller.Answered? {
      match c.caller.report
      case Refused => assert c.caller == Answered(Refused);
      case Unavailable => assert c.caller == Answered(Unavailable);
      case Result => assert c.caller == Answered(Result);
      case Cancelled => assert c.caller == Answered(Cancelled);
      case Unknown => assert c.caller == Answered(Unknown);
    }
  }

  /** Admission, whatever went before: the command that arrives next is refused
      exactly when there is a cap and as many commands are unsettled; otherwise it
      is counted, and goes on. */
  lemma RefusedIff(limit: nat, evs: seq<Event>, id: nat)
    requires Legal(Start(limit), evs) && id !in After(Start(limit), evs).commands
    ensures var s := After(Start(limit), evs);
      && Enabled(s, Arrive(id))
      && var s' := Step(s, Arrive(id));
      && id in s'.commands
      && (s'.commands[id].caller == Answered(Refused) <==> limit > 0 && |Unsettled(s.commands)| >= limit)
      && (s'.commands[id].caller == Answered(Refused) <==> id !in Unsettled(s'.commands))
      && (s'.commands[id].caller == Answered(Refused) || s'.commands[id].caller == Counted)
  {
    StartKeeps(limit, evs);
  }

  lemma ReportStays(s: System, ev: Event, id: nat)
    requires Enabled(s, ev) && id in s.commands && s.commands[id].caller.Answered?
    ensures id in Step(s, ev).commands && Step(s, ev).commands[id].caller == s.commands[id].caller
  {
  }

  lemma {:induction false} ReportIsFinal(s: System, evs: seq<Event>, id: nat)
    requires Legal(s, evs) && id in s.commands && s.commands[id].caller.Answered?
    ensures id in After(s, evs).commands && After(s, evs).commands[id].caller == s.commands[id].caller
    decreases |evs|
  {
    if evs != [] {
      ReportStays(s, evs[0], id);
      ReportIsFinal(Step(s, evs[0]), evs[1..], id);
    }
  }

  lemma {:induction false} RunChains(s: System, evs: seq<Event>, more: seq<Event>)
    requires Legal(s, evs) && Legal(After(s, evs), more)
    ensures Legal(s, evs + more) && After(s, evs + more) == After(After(s, evs), more)
    decreases |evs|
  {
    if evs == [] {
      assert evs + more == more;
    } else {
      RunChains(Step(s, evs[0]), evs[1..], more);
      assert (evs + more)[1..] == evs[1..] + more;
    }
  }

  /** A report is final: whatever happens after a command was reported cancelled,
      it never starts. */
  lemma CancelledNeverRuns(limit: nat, evs: seq<Event>, more: seq<Event>, id: nat)
    requires Legal(Start(limit), evs) && Legal(After(Start(limit), evs), more)
    requires id in After(Start(limit), evs).commands
    requires After(Start(limit), evs).commands[id].caller == Answered(Cancelled)
    ensures var s' := After(After(Start(limit), evs), more);
      id in s'.commands && s'.commands[id].starts == 0 && s'.commands[id].caller == Answered(Cancelled)
  {
    ReportIsFinal(After(Start(limit), evs), more, id);
    RunChains(Start(limit), evs, more);
    ReportsAreTrue(limit, evs + more, id);
  }

  /** A command that timed out while running keeps its place until it finishes. */
  lemma UnknownHoldsItsPlace(limit: nat, evs: seq<Event>, id: nat)
    requires Legal(Start(limit), evs) && id in After(Start(limit), evs).commands
    requires var c := After(Start(limit), evs).commands[id]; c.caller == Answered(Unknown) && c.runner == Executing
    ensures id in Unsettled(After(Start(limit), evs).commands)
  {
    StartKeeps(limit, evs);
    assert Agreed(After(Start(limit), evs).commands[id]);
  }
}
