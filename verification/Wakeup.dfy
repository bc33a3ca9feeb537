/** The engine's background work as it interleaves on the loop: the selection
    task, its retry, the forwarding-plane pump and its timer. */
module Wakeup {
  import opened Routes

  datatype Phase = Starting | Draining

  /** Fields are handles; the sets hold what the loop will still run or fire, and
      `calls` counts the kicks other threads have marshalled to it.  `busy`: the
      sink would name a next flush; `deaf`: it raised when last asked. */
  datatype Engine = Engine(
    accepting: bool,
    wanted: bool,
    task: Option<nat>, selections: map<nat, Phase>,
    retry: Option<nat>, retries: set<nat>,
    pump: Option<nat>, pumps: set<nat>,
    timer: Option<nat>, timers: set<nat>,
    calls: nat, busy: bool, deaf: bool, next: nat)

  /** What the sink answers when the pump asks when to flush next. */
  datatype Answer = Nothing | Soon | Later | Raises

  datatype Event =
    | Schedule                          // schedule_select, on the loop
    | Ask                               // schedule_select, on another thread
    | Called                            // the kick it marshalled, whenever that runs
    | Begin(id: nat)                    // a selection task's first step
    | Slice(id: nat, fills: bool)       // a pass yields, having queued more or not
    | PassDone(id: nat, fills: bool)
    | PassFails(id: nat, fills: bool)
    | RetryFires(id: nat)
    | Populate(fills: bool)             // routes handed straight to a new sink
    | PumpTurn(id: nat, answer: Answer) // one flush, then ask
    | TimerFires(id: nat)
    | StopAsked                         // from any thread
    | LoopStop

  function Cancelled(armed: set<nat>, handle: Option<nat>): set<nat> {
    if handle.Some? then armed - {handle.value} else armed
  }

  /** `_kick_select`. */
  function SelectKicked(e: Engine): Engine {
    var e1 := e.(wanted := true, retries := Cancelled(e.retries, e.retry), retry := None);
    if e.task.Some? && e.task.value in e.selections then e1
    else e1.(task := Some(e.next), selections := e.selections[e.next := Starting], next := e.next + 1)
  }

  /** `_kick_fib`. */
  function PumpKicked(e: Engine): Engine {
    var e1 := e.(timers := Cancelled(e.timers, e.timer), timer := None);
    if e.pump.Some? && e.pump.value in e.pumps then e1
    else e1.(pump := Some(e.next), pumps := e.pumps + {e.next}, deaf := false, next := e.next + 1)
  }

  /** The `while self._select_wanted` test at the top of the loop. */
  function NextPass(e: Engine, id: nat): Engine {
    if e.wanted then e.(wanted := false, selections := e.selections[id := Draining])
    else e.(selections := e.selections - {id}, task := None)
  }

  predicate Enabled(e: Engine, ev: Event) {
    match ev
    case Schedule => e.accepting
    case Ask => e.accepting
    case Called => e.calls > 0
    case Begin(id) => id in e.selections && e.selections[id] == Starting
    case Slice(id, _) => id in e.selections && e.selections[id] == Draining
    case PassDone(id, _) => id in e.selections && e.selections[id] == Draining
    case PassFails(id, _) => id in e.selections && e.selections[id] == Draining
    case RetryFires(id) => id in e.retries
    case Populate(_) => true
    case PumpTurn(id, _) => id in e.pumps
    case TimerFires(id) => id in e.timers
    case StopAsked => true
    case LoopStop => !e.accepting
  }

  function Fill(e: Engine, fills: bool): Engine {
    e.(busy := e.busy || fills)
  }

  function Step(e: Engine, ev: Event): Engine
    requires Enabled(e, ev)
  {
    match ev
    case Schedule => SelectKicked(e)
    case Ask => e.(calls := e.calls + 1)
    case Called => SelectKicked(e.(calls := e.calls - 1))
    case Begin(id) => NextPass(e, id)
    case Slice(_, fills) => Fill(e, fills)
    case PassDone(id, fills) => NextPass(PumpKicked(Fill(e, fills)), id)
    case PassFails(id, fills) =>
      var ended := Fill(e, fills).(selections := e.selections - {id}, task := None);
      if !e.accepting then ended
      else PumpKicked(ended.(wanted := true, retry := Some(e.next), retries := e.retries + {e.next},
        next := e.next + 1))
    case RetryFires(id) => SelectKicked(e.(retries := e.retries - {id}))
    case Populate(fills) => PumpKicked(Fill(e, fills))
    case PumpTurn(id, answer) => Turn(e, id, answer)
    case TimerFires(id) => PumpKicked(e.(timers := e.timers - {id}))
    case StopAsked => e.(accepting := false)
    case LoopStop =>
      e.(selections := if e.task.Some? then e.selections - {e.task.value} else e.selections, task := None,
         retries := Cancelled(e.retries, e.retry), retry := None,
         timers := Cancelled(e.timers, e.timer), timer := None,
         pumps := Cancelled(e.pumps, e.pump), pump := None, busy := false)
  }

  /** One turn of the pump: flush, ask, then sleep, arm the timer or end. */
  function Turn(e: Engine, id: nat, answer: Answer): Engine {
    match answer
    case Nothing => e.(busy := false, pumps := e.pumps - {id})
    case Soon => e.(busy := true)
    case Later => e.(busy := true, pumps := e.pumps - {id}, timer := Some(e.next), timers := e.timers + {e.next},
      next := e.next + 1)
    case Raises => e.(deaf := true, pumps := e.pumps - {id})
  }

  // ----- at every callback boundary ------------------------------------------------------

  predicate Holds(handle: Option<nat>, armed: set<nat>) {
    forall id | id in armed :: handle == Some(id)
  }

  predicate Older(ids: set<nat>, next: nat) {
    forall id | id in ids :: id < next
  }

  /** A handle names the only thing of its kind that is alive. */
  predicate Single(e: Engine) {
    && Holds(e.task, e.selections.Keys) && Holds(e.retry, e.retries)
    && Holds(e.pump, e.pumps) && Holds(e.timer, e.timers)
    && (e.selections != map[] ==> e.retries == {})
    && (e.pumps != {} ==> e.timers == {})
    && Older(e.selections.Keys, e.next) && Older(e.retries, e.next) && Older(e.pumps, e.next) && Older(e.timers, e.next)
  }

  predicate SelectionLive(e: Engine) {
    e.task.Some? && e.task.value in e.selections
  }

  predicate PumpLive(e: Engine) {
    e.pump.Some? && e.pump.value in e.pumps
  }

  predicate RetryArmed(e: Engine) {
    e.retry.Some? && e.retry.value in e.retries
  }

  predicate TimerArmed(e: Engine) {
    e.timer.Some? && e.timer.value in e.timers
  }

  /** A pass is running that will kick the pump when it ends. */
  predicate PassRunning(e: Engine) {
    SelectionLive(e) && e.selections[e.task.value] == Draining
  }

  /** Nothing that was asked for is forgotten. */
  predicate Awake(e: Engine) {
    e.accepting ==>
      && (e.wanted ==> SelectionLive(e) || RetryArmed(e))
      && (e.busy && !e.deaf ==> PumpLive(e) || TimerArmed(e) || PassRunning(e))
      && (SelectionLive(e) && e.selections[e.task.value] == Starting ==> e.wanted)
  }

  /** A sink that raised is asked again only by a new pump. */
  predicate DeafIsQuiet(e: Engine) {
    e.deaf ==> !PumpLive(e) && !TimerArmed(e)
  }

  predicate Inv(e: Engine) {
    Single(e) && Awake(e) && DeafIsQuiet(e)
  }

  /** Just started. */
  const IDLE := Engine(true, false, None, map[], None, {}, None, {}, None, {}, 0, false, false, 0)

  lemma StepKeeps(e: Engine, ev: Event)
    requires Inv(e) && Enabled(e, ev)
    ensures Inv(Step(e, ev))
  {
    match ev
    case Schedule => KickSelectKeeps(e);
    case Ask =>
    case Called => KickSelectKeeps(e.(calls := e.calls - 1));
    case RetryFires(id) => KickSelectKeeps(e.(retries := e.retries - {id}));
    case Begin(id) => NextPassKeeps(e, id);
    case Slice(_, _) =>
    case PassDone(id, fills) =>
      KickFibKeeps(Fill(e, fills));
      NextPassKeeps(PumpKicked(Fill(e, fills)), id);
    case PassFails(id, fills) => PassFailsKeeps(e, id, fills);
    case Populate(fills) => KickFibKeeps(Fill(e, fills));
    case PumpTurn(id, answer) => TurnKeeps(e, id, answer);
    case TimerFires(id) => KickFibKeeps(e.(timers := e.timers - {id}));
    case StopAsked =>
    case LoopStop =>
  }

  lemma KickSelectKeeps(e: Engine)
    requires Single(e) && DeafIsQuiet(e)
    requires e.accepting && e.busy && !e.deaf ==> PumpLive(e) || TimerArmed(e) || PassRunning(e)
    ensures Inv(SelectKicked(e)) && SelectionLive(SelectKicked(e))
  {
  }

  /** After a kick the pump is alive, and the sink will be asked. */
  lemma KickFibKeeps(e: Engine)
    requires Single(e) && DeafIsQuiet(e)
    ensures var e' := PumpKicked(e);
      Single(e') && PumpLive(e') && !e'.deaf && e' == e.(timers := e'.timers, timer := e'.timer, pump := e'.pump,
                                              pumps := e'.pumps, deaf := e'.deaf, next := e'.next)
  {
  }

  lemma NextPassKeeps(e: Engine, id: nat)
    requires Single(e) && DeafIsQuiet(e) && id in e.selections
    requires e.accepting && e.busy && !e.deaf ==>
        PumpLive(e) || TimerArmed(e) || (e.selections[id] == Starting && e.wanted)
    ensures Inv(NextPass(e, id))
  {
    var e' := NextPass(e, id);
    assert e.task == Some(id);
    if !e.wanted { assert e'.selections.Keys == {}; }
  }

  lemma PassFailsKeeps(e: Engine, id: nat, fills: bool)
    requires Inv(e) && Enabled(e, PassFails(id, fills))
    ensures Inv(Step(e, PassFails(id, fills)))
  {
    var ended := Fill(e, fills).(selections := e.selections - {id}, task := None);
    assert e.task == Some(id);
    assert ended.selections.Keys == {};
    if e.accepting {
      var armed := ended.(wanted := true, retry := Some(e.next), retries := e.retries + {e.next}, next := e.next + 1);
      assert e.retries == {};
      KickFibKeeps(armed);
    }
  }

  lemma TurnKeeps(e: Engine, id: nat, answer: Answer)
    requires Inv(e) && id in e.pumps
    ensures Inv(Turn(e, id, answer))
  {
    assert e.pump == Some(id);
    assert e.pumps - {id} == {};
  }

  // ----- over whole runs -----------------------------------------------------------------

  predicate Legal(e: Engine, evs: seq<Event>)
    decreases |evs|
  {
    evs == [] || (Enabled(e, evs[0]) && Legal(Step(e, evs[0]), evs[1..]))
  }

  function After(e: Engine, evs: seq<Event>): Engine
    requires Legal(e, evs)
    decreases |evs|
  {
    if evs == [] then e else After(Step(e, evs[0]), evs[1..])
  }

  lemma {:induction false} RunKeeps(e: Engine, evs: seq<Event>)
    requires Inv(e) && Legal(e, evs)
    ensures Inv(After(e, evs))
    decreases |evs|
  {
    hide Inv;
    if evs != [] {
      StepKeeps(e, evs[0]);
      RunKeeps(Step(e, evs[0]), evs[1..]);
    }
  }

  // ----- what the events say, without the engine's own flags ---------------------------

  predicate Stopped(evs: seq<Event>) {
    StopAsked in evs
  }

  /** A pass was asked for, by a request, a retry or a pass that failed, and none
      has started since. */
  predicate Owed(evs: seq<Event>)
    decreases |evs|
  {
    if evs == [] then false
    else
      var before := evs[..|evs| - 1];
      match evs[|evs| - 1]
      case Schedule => true
      case Called => true
      case RetryFires(_) => true
      case PassFails(_, _) => !Stopped(before) || Owed(before)
      case Begin(_) => false
      case PassDone(_, _) => false
      case _ => Owed(before)
  }

  /** The sink was handed something, or said it had more to do, and has not since
      said that there is nothing. */
  predicate Loaded(evs: seq<Event>)
    decreases |evs|
  {
    if evs == [] then false
    else
      var before := evs[..|evs| - 1];
      match evs[|evs| - 1]
      case Slice(_, fills) => fills || Loaded(before)
      case PassDone(_, fills) => fills || Loaded(before)
      case PassFails(_, fills) => fills || Loaded(before)
      case Populate(fills) => fills || Loaded(before)
      case PumpTurn(_, answer) => if answer == Raises then Loaded(before) else answer != Nothing
      case LoopStop => false
      case _ => Loaded(before)
  }

  /** The sink raised when last asked, and nothing has had it asked again. */
  predicate Raised(evs: seq<Event>)
    decreases |evs|
  {
    if evs == [] then false
    else
      var before := evs[..|evs| - 1];
      match evs[|evs| - 1]
      case PumpTurn(_, answer) => answer == Raises || Raised(before)
      case PassDone(_, _) => false
      case PassFails(_, _) => Stopped(before) && Raised(before)
      case Populate(_) => false
      case TimerFires(_) => false
      case _ => Raised(before)
  }

  /** Kicks asked for from other threads that the loop has not run yet. */
  function Marshalled(evs: seq<Event>): int
    decreases |evs|
  {
    if evs == [] then 0
    else
      var before := evs[..|evs| - 1];
      match evs[|evs| - 1]
      case Ask => Marshalled(before) + 1
      case Called => Marshalled(before) - 1
      case _ => Marshalled(before)
  }

  lemma {:induction false} RunSplits(e: Engine, evs: seq<Event>, ev: Event)
    requires Legal(e, evs + [ev])
    ensures Legal(e, evs) && Enabled(After(e, evs), ev) && After(e, evs + [ev]) == Step(After(e, evs), ev)
    decreases |evs|
  {
    hide Step, Enabled;
    if evs == [] {
      assert evs + [ev] == [ev];
    } else {
      assert (evs + [ev])[1..] == evs[1..] + [ev];
      RunSplits(Step(e, evs[0]), evs[1..], ev);
    }
  }

  /** The engine's flags are exactly what its history says. */
  lemma {:induction false} FlagsAreHistory(evs: seq<Event>)
    requires Legal(IDLE, evs)
    ensures var e := After(IDLE, evs);
      && (e.accepting <==> !Stopped(evs)) && (e.wanted <==> Owed(evs))
      && (e.busy <==> Loaded(evs)) && (e.deaf <==> Raised(evs)) && e.calls == Marshalled(evs)
    decreases |evs|
  {
    hide Inv, Legal, After, Step;
    IdleIsFine();
    if evs != [] {
      var before, ev := evs[..|evs| - 1], evs[|evs| - 1];
      assert evs == before + [ev];
      RunSplits(IDLE, before, ev);
      FlagsAreHistory(before);
      RunKeeps(IDLE, before);
      FlagsMove(After(IDLE, before), before, ev);
    }
  }

  lemma IdleIsFine()
    ensures Inv(IDLE) && Legal(IDLE, []) && After(IDLE, []) == IDLE
  {
  }

  lemma FlagsMove(e: Engine, before: seq<Event>, ev: Event)
    requires Inv(e) && Enabled(e, ev)
    requires (e.accepting <==> !Stopped(before)) && (e.wanted <==> Owed(before))
    requires (e.busy <==> Loaded(before)) && (e.deaf <==> Raised(before)) && e.calls == Marshalled(before)
    ensures var e', evs := Step(e, ev), before + [ev];
      && (e'.accepting <==> !Stopped(evs)) && (e'.wanted <==> Owed(evs))
      && (e'.busy <==> Loaded(evs)) && (e'.deaf <==> Raised(evs)) && e'.calls == Marshalled(evs)
  {
    hide *;
    SelectFlagsMove(e, before, ev);
    BusyMoves(e, before, ev);
    DeafMoves(e, before, ev);
  }

  lemma SelectFlagsMove(e: Engine, before: seq<Event>, ev: Event)
    requires Inv(e) && Enabled(e, ev)
    requires (e.accepting <==> !Stopped(before)) && (e.wanted <==> Owed(before)) && e.calls == Marshalled(before)
    ensures var e', evs := Step(e, ev), before + [ev];
      (e'.accepting <==> !Stopped(evs)) && (e'.wanted <==> Owed(evs)) && e'.calls == Marshalled(evs)
  {
    hide Loaded, Raised;
    assert (before + [ev])[..|before|] == before;
  }

  lemma BusyMoves(e: Engine, before: seq<Event>, ev: Event)
    requires Enabled(e, ev) && (e.busy <==> Loaded(before))
    ensures Step(e, ev).busy <==> Loaded(before + [ev])
  {
    hide Owed, Marshalled, Raised;
    assert (before + [ev])[..|before|] == before;
  }

  lemma DeafMoves(e: Engine, before: seq<Event>, ev: Event)
    requires Inv(e) && Enabled(e, ev) && (e.accepting <==> !Stopped(before)) && (e.deaf <==> Raised(before))
    ensures Step(e, ev).deaf <==> Raised(before + [ev])
  {
    hide Owed, Marshalled, Loaded, Stopped;
    assert (before + [ev])[..|before|] == before;
  }

  /** However the loop interleaves its callbacks, and whichever passes raise, until
      the engine is stopped: a pass that was asked for has a live task or an armed
      retry; a sink with work that did not raise has a live pump, an armed timer or
      a running pass that will kick it; and there is at most one of each. */
  lemma NoLostWakeup(evs: seq<Event>)
    requires Legal(IDLE, evs)
    ensures var e := After(IDLE, evs);
      && (!Stopped(evs) && Owed(evs) ==> SelectionLive(e) || RetryArmed(e))
      && (!Stopped(evs) && Loaded(evs) && !Raised(evs) ==> PumpLive(e) || TimerArmed(e) || PassRunning(e))
      && |e.selections| <= 1 && |e.retries| <= 1 && |e.pumps| <= 1 && |e.timers| <= 1
  {
    RunKeeps(IDLE, evs);
    FlagsAreHistory(evs);
    AtMostOne(After(IDLE, evs));
  }

  /** A request made at any point, with no pass begun or gone round since, is still
      owed: the engine wants a pass, and something will run it. */
  lemma RequestIsKept(evs: seq<Event>, i: nat)
    requires Legal(IDLE, evs) && !Stopped(evs) && i < |evs| && evs[i] in {Schedule, Called}
    requires forall j :: i < j < |evs| ==> !evs[j].Begin? && !evs[j].PassDone?
    ensures var e := After(IDLE, evs); e.wanted && (SelectionLive(e) || RetryArmed(e))
  {
    OwedSince(evs, i);
    NoLostWakeup(evs);
    FlagsAreHistory(evs);
  }

  lemma {:induction false} OwedSince(evs: seq<Event>, i: nat)
    requires i < |evs| && evs[i] in {Schedule, Called}
    requires forall j :: i < j < |evs| ==> !evs[j].Begin? && !evs[j].PassDone?
    ensures Owed(evs)
    decreases |evs|
  {
    if i < |evs| - 1 { OwedSince(evs[..|evs| - 1], i); }
  }

  /** A pass that is done goes round again exactly when another is owed by then, and
      otherwise the selection is over. */
  lemma GoesRoundIff(evs: seq<Event>, id: nat, fills: bool)
    requires Legal(IDLE, evs + [PassDone(id, fills)])
    ensures var e := After(IDLE, evs + [PassDone(id, fills)]);
      if Owed(evs) then PassRunning(e) && e.task == Some(id) else e.task == None && e.selections == map[]
  {
    RunSplits(IDLE, evs, PassDone(id, fills));
    FlagsAreHistory(evs);
    RunKeeps(IDLE, evs);
    assert After(IDLE, evs).task == Some(id);
    assert After(IDLE, evs).selections.Keys == {id};
  }

  lemma AtMostOne(e: Engine)
    requires Single(e)
    ensures |e.selections| <= 1 && |e.retries| <= 1 && |e.pumps| <= 1 && |e.timers| <= 1
  {
    HeldIsSmall(e.task, e.selections.Keys);
    HeldIsSmall(e.retry, e.retries);
    HeldIsSmall(e.pump, e.pumps);
    HeldIsSmall(e.timer, e.timers);
    assert |e.selections| == |e.selections.Keys|;
  }

  lemma HeldIsSmall(handle: Option<nat>, armed: set<nat>)
    requires Holds(handle, armed)
    ensures |armed| <= 1
  {
    if armed != {} {
      var id :| id in armed;
      assert armed == {id};
    }
  }

  /** Work is stranded: the sink has some, and nothing will ask for it. */
  predicate Stranded(e: Engine) {
    e.accepting && e.busy && !PumpLive(e) && !TimerArmed(e) && !PassRunning(e)
  }

  /** The one way there, and always there: the sink has work, it raised when last
      asked when to flush, and no pass is running to have it asked again. */
  lemma StrandedIffDeaf(evs: seq<Event>)
    requires Legal(IDLE, evs)
    ensures var e := After(IDLE, evs);
      Stranded(e) <==> !Stopped(evs) && Loaded(evs) && Raised(evs) && !PassRunning(e)
  {
    RunKeeps(IDLE, evs);
    FlagsAreHistory(evs);
  }

  /** And it does happen. */
  lemma RaisingStrands()
    ensures var evs := [Populate(true), PumpTurn(0, Raises)];
      Legal(IDLE, evs) && Stranded(After(IDLE, evs))
  {
    var evs := [Populate(true), PumpTurn(0, Raises)];
    var e1 := Step(IDLE, evs[0]);
    assert e1.pumps == {0};
    var e2 := Step(e1, evs[1]);
    assert evs[1..] == [PumpTurn(0, Raises)] && evs[1..][1..] == [];
    assert Legal(e2, []) && Legal(e1, evs[1..]);
    assert After(IDLE, evs) == After(e1, evs[1..]) == e2;
  }

  // ----- the engine's methods --------------------------------------------------------------

  /** The event loop: tasks not yet done and timers not yet fired. */
  class Loop {
    var selections: map<nat, Phase>
    var retries: set<nat>
    var pumps: set<nat>
    var timers: set<nat>
    var calls: nat
    var next: nat

    constructor ()
      ensures selections == map[] && retries == {} && pumps == {} && timers == {} && calls == 0 && next == 0
    {
      selections, retries, pumps, timers, calls, next := map[], {}, {}, {}, 0, 0;
    }
  }

  class Background {
    const loop: Loop
    var accepting: bool
    var wanted: bool
    var task: Option<nat>
    var retry: Option<nat>
    var pump: Option<nat>
    var timer: Option<nat>
    ghost var busy: bool
    ghost var deaf: bool

    constructor ()
      ensures fresh(loop) && State() == IDLE && Inv(State())
    {
      loop := new Loop();
      accepting, wanted, task, retry, pump, timer := true, false, None, None, None, None;
      busy, deaf := false, false;
    }

    ghost function State(): Engine
      reads this, loop
    {
      Engine(accepting, wanted, task, loop.selections, retry, loop.retries, pump, loop.pumps, timer, loop.timers,
             loop.calls, busy, deaf, loop.next)
    }

    method KickSelect()
      modifies this, loop
      ensures State() == SelectKicked(old(State()))
    {
      wanted := true;
      if retry != None {
        loop.retries := loop.retries - {retry.value};
        retry := None;
      }
      if task == None || task.value !in loop.selections {
        task := Some(loop.next);
        loop.selections := loop.selections[loop.next := Starting];
        loop.next := loop.next + 1;
      }
    }

    /** `schedule_select`: kick at once on the loop, otherwise have the loop do it. */
    method ScheduleSelect(onLoop: bool)
      modifies this, loop
      ensures old(accepting) ==> State() == Step(old(State()), if onLoop then Schedule else Ask)
      ensures !old(accepting) ==> State() == old(State())
    {
      if !accepting {
        return;
      }
      if onLoop {
        KickSelect();
      } else {
        loop.calls := loop.calls + 1;
      }
    }

    method KickFib()
      modifies this, loop
      ensures State() == PumpKicked(old(State()))
    {
      if timer != None {
        loop.timers := loop.timers - {timer.value};
        timer := None;
      }
      if pump == None || pump.value !in loop.pumps {
        pump := Some(loop.next);
        loop.pumps := loop.pumps + {loop.next};
        loop.next := loop.next + 1;
        deaf := false;
      }
    }

    /** Where `_drain_select` goes on after a pass: kick the pump, then go round
        again or end. */
    method PassDone(id: nat, ghost fills: bool)
      requires Inv(State()) && Enabled(State(), Event.PassDone(id, fills))
      modifies this, loop
      ensures State() == Step(old(State()), Event.PassDone(id, fills)) && Inv(State())
    {
      hide Inv, PumpKicked;
      ghost var e := State();
      busy := busy || fills;
      KickFib();
      if wanted {
        wanted := false;
        loop.selections := loop.selections[id := Draining];
      } else {
        loop.selections := loop.selections - {id};
        task := None;
      }
      StepKeeps(e, Event.PassDone(id, fills));
    }

    /** A pass that raised: its work is owed another pass, after a pause. */
    method PassFails(id: nat, ghost fills: bool)
      requires Inv(State()) && Enabled(State(), Event.PassFails(id, fills))
      modifies this, loop
      ensures State() == Step(old(State()), Event.PassFails(id, fills)) && Inv(State())
    {
      hide Inv, PumpKicked;
      ghost var e := State();
      busy := busy || fills;
      task := None;
      loop.selections := loop.selections - {id};
      if accepting {
        wanted := true;
        retry := Some(loop.next);
        loop.retries := loop.retries + {loop.next};
        loop.next := loop.next + 1;
        KickFib();
      }
      StepKeeps(e, Event.PassFails(id, fills));
    }

    /** What the pump does with the sink's answer after a flush. */
    method PumpTurn(id: nat, answer: Answer)
      requires Inv(State()) && id in loop.pumps
      modifies this, loop
      ensures State() == Step(old(State()), Event.PumpTurn(id, answer)) && Inv(State())
    {
      hide Inv;
      ghost var e := State();
      match answer {
        case Nothing => busy := false; loop.pumps := loop.pumps - {id};
        case Raises => deaf := true; loop.pumps := loop.pumps - {id};
        case Soon => busy := true;
        case Later =>
          busy := true;
          timer := Some(loop.next);
          loop.timers := loop.timers + {loop.next};
          loop.next := loop.next + 1;
          loop.pumps := loop.pumps - {id};
      }
      StepKeeps(e, Event.PumpTurn(id, answer));
    }
  }
}
