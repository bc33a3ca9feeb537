/** The core's share of a configuration change: replacing, opening, emptying and
    filling forwarding sinks, every one of which may raise, and undoing it. */
module CorePlane {
  import opened Routes
  import opened Documents

  /** A forwarding sink.  `filled`: it has been handed everything the RIB chose,
      and not been emptied since. */
  datatype Sink = Sink(writes: bool, isOpen: bool, filled: bool)

  /** `sink_spec` of a section that installs. */
  datatype Spec = Spec(table: Json, protocol: Json, ebgp: Json, ibgp: Json)

  predicate Wanted(d: Json) {
    Get(d, ["ip", "route", "install"]) == Some(Bool(true))
  }

  function GivenOr(d: Json, path: Path, default_: Json): Json {
    match Get(d, path) case None => default_ case Some(v) => v
  }

  /** None is install off, which a NullSink serves. */
  function SpecOf(d: Json): Option<Spec> {
    if !Wanted(d) then None
    else Some(Spec(
      GivenOr(d, ["ip", "route", "table"], Num(254)), GivenOr(d, ["ip", "route", "protocol"], Num(190)),
      GivenOr(d, ["ip", "route", "priority", "ebgp"], Num(20)),
        GivenOr(d, ["ip", "route", "priority", "ibgp"], Num(200))))
  }

  /** `sections`: the document that statics, next-hop validation and policy were
      applied from; None if applying one raised part-way.  Sinks go by number. */
  datatype Plane = Plane(
    live: bool, injected: bool, sinks: map<nat, Sink>, active: nat, next: nat, spec: Option<Spec>,
    sections: Option<Json>)

  ghost predicate Sane(p: Plane) {
    p.active in p.sinks && forall id | id in p.sinks :: id < p.next
  }

  /** Which calls on one sink raise. */
  datatype Faults = Faults(open: bool, fill: bool, shut: bool)

  /** One change: the calls on the sink that is running, on the one built for the
      change, and applying the sections; first going forward, then going back. */
  datatype Script = Script(running: Faults, built: Faults, sections: bool,
                           runningBack: Faults, builtBack: Faults, sectionsBack: bool)

  // ----- one sink ---------------------------------------------------------------------------

  /** A sink after a call; not `ok`: the call raised. */
  datatype Called = Called(sink: Sink, ok: bool)

  /** `shutdown(retain=False)`.  One that raises, raises closing the socket. */
  function Emptied(s: Sink, raises: bool): Sink {
    s.(isOpen := raises && s.isOpen, filled := false)
  }

  /** `_populate_sink`; reconciling needs an open sink. */
  function Filled(s: Sink, raises: bool): Called {
    var ok := !raises && (s.writes ==> s.isOpen);
    Called(s.(filled := ok), ok)
  }

  /** `_sync_fib_open`: what cannot be filled is closed again. */
  function Synced(s: Sink, wanted: bool, f: Faults): Called {
    if !s.writes then Called(s, true)
    else if wanted && !s.isOpen then
      if f.open then Called(s, false)
      else if f.fill then Called(s.(isOpen := false, filled := false), false)
      else Called(s.(isOpen := true, filled := true), true)
    else if !wanted && s.isOpen then Called(Emptied(s, f.shut), !f.shut)
    else Called(s, true)
  }

  /** `_restore_sink`: its own failure is only logged. */
  function Restored(s: Sink, wanted: bool, f: Faults): Sink {
    if s.writes then Synced(s, wanted, f).sink else Filled(s, f.fill).sink
  }

  /** Both sinks after a switch; not `ok`: it raised, and the old one is back. */
  datatype Pair = Pair(old_: Sink, new_: Sink, ok: bool)

  /** `_switch_sink`: open the new one, empty the old, fill the new; on failure empty
      that and restore the old.  `opens` and `kept` are what the document being
      committed and the stored one say of installing. */
  function Switched(old_: Sink, new_: Sink, opens: bool, kept: bool, oldFaults: Faults, newFaults: Faults): Pair {
    if opens && new_.writes && newFaults.open then Pair(old_, new_, false)
    else
      var ready := if opens && new_.writes then new_.(isOpen := true) else new_;
      var filling := Filled(ready, newFaults.fill);
      var gone := Emptied(old_, oldFaults.shut);
      if filling.ok then Pair(gone, filling.sink, true)
      else Pair(Restored(gone, kept, oldFaults), Emptied(filling.sink, newFaults.shut), false)
  }

  // ----- the engine's planes ----------------------------------------------------------------

  /** The plane after something was tried; not `ok`: it raised. */
  datatype Tried = Tried(plane: Plane, ok: bool)

  function SyncOpen(p: Plane, wanted: bool, f: Faults): Tried
    requires p.active in p.sinks
  {
    var c := Synced(p.sinks[p.active], wanted, f);
    Tried(p.(sinks := p.sinks[p.active := c.sink]), c.ok)
  }

  function Switch(p: Plane, to: nat, d: Json, stored: Json, oldFaults: Faults, newFaults: Faults): Tried
    requires p.active in p.sinks && to in p.sinks
  {
    var r := Switched(p.sinks[p.active], p.sinks[to], Wanted(d), Wanted(stored), oldFaults, newFaults);
    Tried(p.(sinks := p.sinks[p.active := r.old_][to := r.new_], active := if r.ok then to else p.active), r.ok)
  }

  /** An injected sink is never replaced, so it must be able to write. */
  predicate Conflicts(p: Plane, d: Json)
    requires p.active in p.sinks
  {
    p.injected && Wanted(d) && !p.sinks[p.active].writes
  }

  /** The change asks for another kind of sink than the one the engine built. */
  predicate Replaces(p: Plane, d: Json) {
    !p.injected && SpecOf(d) != p.spec
  }

  /** What a switch replaced. */
  datatype Previous = Previous(sink: nat, spec: Option<Spec>)

  datatype Attempt = Attempt(plane: Plane, ok: bool, previous: Option<Previous>)

  /** The sink built for the change, unopened. */
  function Built(p: Plane, d: Json): Plane {
    p.(sinks := p.sinks[p.next := Sink(SpecOf(d).Some?, false, false)], next := p.next + 1)
  }

  /** `_commit_fib`. */
  function CommitSink(p: Plane, d: Json, stored: Json, s: Script): Attempt
    requires Sane(p)
  {
    if !Replaces(p, d) then
      var t := if p.live then SyncOpen(p, Wanted(d), s.running) else Tried(p, true);
      Attempt(t.plane, t.ok, None)
    else
      var built := Built(p, d);
      var t := if p.live then Switch(built, p.next, d, stored, s.running, s.built)
          else Tried(built.(active := p.next), true);
      if t.ok then Attempt(t.plane.(spec := SpecOf(d)), true, Some(Previous(p.active, p.spec)))
      else Attempt(t.plane, false, None)
  }

  /** `_apply_core_sections`. */
  function ApplySections(p: Plane, d: Json, raises: bool): Tried {
    Tried(p.(sections := if raises then None else Some(d)), !raises)
  }

  /** `_commit_core`. */
  function Commit(p: Plane, d: Json, stored: Json, s: Script): Attempt
    requires Sane(p)
  {
    var a := CommitSink(p, d, stored, s);
    if !a.ok then a
    else
      var t := ApplySections(a.plane, d, s.sections);
      Attempt(t.plane, t.ok, a.previous)
  }

  /** `_roll_back_core`: a sink is put back only if the change replaced one. */
  function RollBack(a: Attempt, stored: Json, s: Script): Tried
    requires Sane(a.plane)
    requires a.previous.Some? ==> a.previous.value.sink in a.plane.sinks && a.previous.value.sink != a.plane.active
  {
    var t :=
      if a.previous.None? then Tried(a.plane, true)
      else
        var p := a.plane;
        var back := if p.live then Switch(p, a.previous.value.sink, stored, stored, s.builtBack, s.runningBack)
                    else Tried(p.(active := a.previous.value.sink), true);
        if back.ok then Tried(back.plane.(spec := a.previous.value.spec), true) else back;
    var u := ApplySections(t.plane, stored, s.sectionsBack);
    Tried(u.plane, t.ok && u.ok)
  }

  // ----- what every change keeps ----------------------------------------------------------

  lemma CommitSinkSane(p: Plane, d: Json, stored: Json, s: Script)
    requires Sane(p)
    ensures var a := CommitSink(p, d, stored, s);
      && Sane(a.plane) && a.plane.live == p.live && a.plane.injected == p.injected
      && (a.previous.Some? ==> a.previous.value.sink in a.plane.sinks && a.previous.value.sink != a.plane.active)
  {
    hide Switched, Synced, SpecOf, Wanted;
  }

  lemma CommitSane(p: Plane, d: Json, stored: Json, s: Script)
    requires Sane(p)
    ensures var a := Commit(p, d, stored, s);
      && Sane(a.plane) && a.plane.live == p.live && a.plane.injected == p.injected
      && (a.previous.Some? ==> a.previous.value.sink in a.plane.sinks && a.previous.value.sink != a.plane.active)
  {
    hide CommitSink;
    CommitSinkSane(p, d, stored, s);
  }

  lemma RollBackSane(a: Attempt, stored: Json, s: Script)
    requires Sane(a.plane)
    requires a.previous.Some? ==> a.previous.value.sink in a.plane.sinks && a.previous.value.sink != a.plane.active
    ensures Sane(RollBack(a, stored, s).plane)
  {
    hide Switched, SpecOf, Wanted;
  }

  // ----- serving a document -----------------------------------------------------------------

  /** The running sink is the one `d` asks for, open and filled or closed as it
      says, and the sections are those of `d`. */
  predicate Serves(p: Plane, d: Json)
    requires p.active in p.sinks
  {
    var s := p.sinks[p.active];
    && p.sections == Some(d)
    && (if p.injected then Wanted(d) ==> s.writes else p.spec == SpecOf(d) && s.writes == Wanted(d))
    && (p.live ==> if s.writes then s.isOpen == Wanted(d) && (Wanted(d) ==> s.filled) else p.injected || s.filled)
  }

  lemma SpecIffWanted(d: Json)
    ensures SpecOf(d).Some? <==> Wanted(d)
  {
  }

  /** A change that commits is served. */
  lemma CommitServes(p: Plane, d: Json, stored: Json, s: Script)
    requires Sane(p) && Serves(p, stored) && !Conflicts(p, d) && Commit(p, d, stored, s).ok
    ensures Sane(Commit(p, d, stored, s).plane) && Serves(Commit(p, d, stored, s).plane, d)
  {
    hide Wanted, SpecOf;
    CommitSane(p, d, stored, s);
    SpecIffWanted(d);
    SpecIffWanted(stored);
  }

  /** The core's commit goes through exactly when the sections do and, on a running
      engine, so do the calls on sinks that the change makes: opening and filling
      one it turns on or builds, emptying an injected one it turns off. */
  lemma CommitsIff(p: Plane, stored: Json, d: Json, s: Script)
    requires Sane(p) && Serves(p, stored) && !Conflicts(p, d)
    ensures Commit(p, d, stored, s).ok <==>
      && !s.sections
      && (p.live && p.injected && p.sinks[p.active].writes && Wanted(d) && !Wanted(stored) ==>
          !s.running.open && !s.running.fill)
      && (p.live && p.injected && p.sinks[p.active].writes && !Wanted(d) && Wanted(stored) ==> !s.running.shut)
      && (p.live && Replaces(p, d) ==> !s.built.fill && !(Wanted(d) && s.built.open))
  {
    hide SpecOf, Wanted;
    SpecIffWanted(d);
    SpecIffWanted(stored);
  }

  /** An engine keeps the sink it built exactly when the change leaves installing off,
      or leaves it on with the same table, protocol and priorities, each with its
      default; a sink it was given it always keeps. */
  lemma KeepsSinkIff(p: Plane, stored: Json, d: Json, s: Script)
    requires Sane(p) && Serves(p, stored) && !Conflicts(p, d) && Commit(p, d, stored, s).ok
    ensures Commit(p, d, stored, s).plane.active == p.active <==>
      || p.injected
      || (Get(d, ["ip", "route", "install"]) != Some(Bool(true))
          && Get(stored, ["ip", "route", "install"]) != Some(Bool(true)))
      || (&& Get(d, ["ip", "route", "install"]) == Some(Bool(true))
          && Get(stored, ["ip", "route", "install"]) == Some(Bool(true))
          && SameSetting(d, stored, ["ip", "route", "table"], 254)
          && SameSetting(d, stored, ["ip", "route", "protocol"], 190)
          && SameSetting(d, stored, ["ip", "route", "priority", "ebgp"], 20)
          && SameSetting(d, stored, ["ip", "route", "priority", "ibgp"], 200))
  {
    hide SpecOf, Wanted;
    SameSpecIff(d, stored);
    CommitSane(p, d, stored, s);
  }

  lemma SameSpecIff(d: Json, e: Json)
    ensures SpecOf(d) == SpecOf(e) <==>
      || (Get(d, ["ip", "route", "install"]) != Some(Bool(true))
          && Get(e, ["ip", "route", "install"]) != Some(Bool(true)))
      || (&& Get(d, ["ip", "route", "install"]) == Some(Bool(true))
          && Get(e, ["ip", "route", "install"]) == Some(Bool(true))
          && SameSetting(d, e, ["ip", "route", "table"], 254)
          && SameSetting(d, e, ["ip", "route", "protocol"], 190)
          && SameSetting(d, e, ["ip", "route", "priority", "ebgp"], 20)
          && SameSetting(d, e, ["ip", "route", "priority", "ibgp"], 200))
  {
    hide Get;
  }

  /** Two documents say the same there, if only by leaving it to the default. */
  predicate SameSetting(d: Json, e: Json, path: Path, default_: int) {
    (if Get(d, path).Some? then Get(d, path).value else Num(default_))
    == (if Get(e, path).Some? then Get(e, path).value else Num(default_))
  }

  /** The runs in which a rollback reports that everything was restored although
      the sink was not.  An injected sink that the change opened and filled, or
      emptied, is not put back.  An engine-built one, given up because the new one
      could not be filled, was to be restored on the way, and that failed. */
  predicate Misreported(p: Plane, stored: Json, d: Json, s: Script)
    requires p.active in p.sinks
  {
    p.live &&
    if p.injected then
      p.sinks[p.active].writes && Wanted(d) != Wanted(stored) && (Wanted(d) ==> !s.running.open && !s.running.fill)
    else
      && Replaces(p, d) && s.built.fill && !(Wanted(d) && s.built.open)
      && (if Wanted(stored) then s.running.shut || s.running.open || s.running.fill else s.running.fill)
  }

  /** When a change of the core has failed and its rollback says that all was
      restored, that is true exactly when the run is not one of those. */
  lemma RollBackTruthfulIff(p: Plane, stored: Json, d: Json, s: Script)
    requires Sane(p) && Serves(p, stored) && !Conflicts(p, d)
    requires !Commit(p, d, stored, s).ok
    ensures var a := Commit(p, d, stored, s);
      && Sane(a.plane)
      && (a.previous.Some? ==> a.previous.value.sink in a.plane.sinks && a.previous.value.sink != a.plane.active)
      && var t := RollBack(a, stored, s);
      && Sane(t.plane)
      && (t.ok ==> (Serves(t.plane, stored) <==> !Misreported(p, stored, d, s)))
  {
    hide SpecOf, Wanted, Commit, RollBack;
    CommitSane(p, d, stored, s);
    RollBackSane(Commit(p, d, stored, s), stored, s);
    SpecIffWanted(d);
    SpecIffWanted(stored);
    if !Replaces(p, d) { KeptTruthful(p, stored, d, s); }
    else if CommitSink(p, d, stored, s).ok { ReplacedTruthful(p, stored, d, s); }
    else { GivenUpTruthful(p, stored, d, s); }
  }

  /** The change keeps the running sink. */
  lemma KeptTruthful(p: Plane, stored: Json, d: Json, s: Script)
    requires Sane(p) && Serves(p, stored) && !Conflicts(p, d) && !Replaces(p, d) && !Commit(p, d, stored, s).ok
    requires (SpecOf(d).Some? <==> Wanted(d)) && (SpecOf(stored).Some? <==> Wanted(stored))
    ensures var a := Commit(p, d, stored, s);
      && a.previous.None? && Sane(a.plane)
      && var t := RollBack(a, stored, s);
      && t.plane.active in t.plane.sinks
      && (t.ok ==> (Serves(t.plane, stored) <==> !Misreported(p, stored, d, s)))
  {
    hide SpecOf, Wanted;
  }

  /** The new sink is in place, and the sections raise. */
  lemma ReplacedTruthful(p: Plane, stored: Json, d: Json, s: Script)
    requires Sane(p) && Serves(p, stored) && Replaces(p, d)
    requires CommitSink(p, d, stored, s).ok && !Commit(p, d, stored, s).ok
    requires (SpecOf(d).Some? <==> Wanted(d)) && (SpecOf(stored).Some? <==> Wanted(stored))
    ensures var a := Commit(p, d, stored, s);
      && Sane(a.plane)
      && (a.previous.Some? ==> a.previous.value.sink in a.plane.sinks && a.previous.value.sink != a.plane.active)
      && var t := RollBack(a, stored, s);
      && t.plane.active in t.plane.sinks
      && (t.ok ==> Serves(t.plane, stored) && !Misreported(p, stored, d, s))
  {
    hide SpecOf, Wanted;
    CommitSane(p, d, stored, s);
    RollBackSane(Commit(p, d, stored, s), stored, s);
  }

  /** The new sink cannot be opened or filled. */
  lemma GivenUpTruthful(p: Plane, stored: Json, d: Json, s: Script)
    requires Sane(p) && Serves(p, stored) && Replaces(p, d) && !CommitSink(p, d, stored, s).ok
    requires (SpecOf(d).Some? <==> Wanted(d)) && (SpecOf(stored).Some? <==> Wanted(stored))
    ensures var a := Commit(p, d, stored, s);
      && Sane(a.plane) && a.previous.None?
      && var t := RollBack(a, stored, s);
      && t.plane.active in t.plane.sinks
      && (t.ok ==> (Serves(t.plane, stored) <==> !Misreported(p, stored, d, s)))
  {
    hide SpecOf, Wanted;
    CommitSane(p, d, stored, s);
    RollBackSane(Commit(p, d, stored, s), stored, s);
  }
}
