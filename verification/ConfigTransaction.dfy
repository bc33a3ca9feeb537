/** The two-phase apply as the engine runs it: every plugin prepares, then plugins,
    core and store commit as one transaction, rolled back when a participant
    raises.  Each method is tied to its step in `Transaction` or `CorePlane`. */
module ConfigTransaction {
  import opened Routes
  import opened Documents
  import opened Diffs
  import opened Secrets
  import opened WriteBack
  import opened RedactedEdits
  import RenderedChanges
  import opened ConfigStore
  import opened Transaction
  import C = CorePlane

  /** A protocol plugin. */
  class Plugin {
    const section: Path        // empty: the plugin has no configuration
    var applied: Json

    constructor (section: Path, applied: Json)
      ensures this.section == section && this.applied == applied
    {
      this.section, this.applied := section, applied;
    }

    function Now(): Member
      reads this
    {
      Member(section, applied)
    }

    /** Pure: may reject, changes nothing. */
    method Prepare(proposed: Json, sub: Diff, rejects: bool) returns (ok: bool)
      ensures ok == !rejects
    {
      ok := !rejects;
    }

    /** Called with the section to move to and the difference that leads there
        from `origin` to `target`. */
    method Commit(value: Json, sub: Diff, fate: Fate, ghost origin: Json, ghost target: Json) returns (ok: bool)
      requires value == SectionOf(target, section)
      requires sub == Diffs.Under(DiffDocuments(origin, target), section)
      modifies this
      ensures ok == fate.Done? && Now() == After(old(Now()), fate, value)
    {
      ok := fate.Done?;
      applied := match fate case Done => value case Raised(left) => left;
    }
  }

  /** The core's own sections and the engine's forwarding sinks. */
  class Core {
    const live: bool
    const injected: bool
    var sinks: map<nat, C.Sink>
    var active: nat
    var next: nat
    var spec: Option<C.Spec>
    var sections: Option<Json>

    /** An engine serving `document` from one sink. */
    constructor (live: bool, injected: bool, sink: C.Sink, document: Json)
      ensures State() == C.Plane(live, injected, map[0 := sink], 0, 1, C.SpecOf(document), Some(document))
    {
      this.live, this.injected := live, injected;
      sinks, active, next, spec, sections := map[0 := sink], 0, 1, C.SpecOf(document), Some(document);
    }

    function State(): C.Plane
      reads this
    {
      C.Plane(live, injected, sinks, active, next, spec, sections)
    }

    method Prepare(proposed: Json, rejects: bool) returns (ok: bool)
      requires active in sinks
      ensures ok <==> !rejects && !C.Conflicts(State(), proposed)
    {
      ok := !rejects && !(injected && C.Wanted(proposed) && !sinks[active].writes);
    }

    method ShutDown(id: nat, raises: bool)
      requires id in sinks
      modifies this`sinks
      ensures sinks == old(sinks)[id := C.Emptied(old(sinks)[id], raises)]
    {
      var s := sinks[id];
      s := s.(filled := false);
      if !raises {
        s := s.(isOpen := false);
      }
      sinks := sinks[id := s];
    }

    /** Reconcile, then hand over every best route. */
    method Populate(id: nat, raises: bool) returns (ok: bool)
      requires id in sinks
      modifies this`sinks
      ensures sinks == old(sinks)[id := C.Filled(old(sinks)[id], raises).sink]
          && ok == C.Filled(old(sinks)[id], raises).ok
    {
      ok := !raises;
      if sinks[id].writes && !sinks[id].isOpen {
        ok := false;
      }
      sinks := sinks[id := sinks[id].(filled := ok)];
    }

    /** Open or close the running sink as the document says. */
    method SyncOpen(wanted: bool, f: C.Faults) returns (ok: bool)
      requires active in sinks
      modifies this`sinks
      ensures C.Tried(State(), ok) == C.SyncOpen(old(State()), wanted, f)
    {
      ok := true;
      if !sinks[active].writes {
        assert sinks == sinks[active := sinks[active]];
        return;
      }
      if wanted && !sinks[active].isOpen {
        if f.open {
          ok := false;
          assert sinks == sinks[active := sinks[active]];
          return;
        }
        sinks := sinks[active := sinks[active].(isOpen := true)];
        ok := Populate(active, f.fill);
        if !ok {
          sinks := sinks[active := sinks[active].(isOpen := false)];
        }
      } else if !wanted && sinks[active].isOpen {
        ShutDown(active, f.shut);
        ok := !f.shut;
      } else {
        assert sinks == sinks[active := sinks[active]];
      }
    }

    /** Whatever goes wrong here is only logged. */
    method RestoreSink(wanted: bool, f: C.Faults)
      requires active in sinks
      modifies this`sinks
      ensures sinks == old(sinks)[active := C.Restored(old(sinks)[active], wanted, f)]
    {
      if sinks[active].writes {
        var _ := SyncOpen(wanted, f);
      } else {
        var _ := Populate(active, f.fill);
      }
    }

    /** Open the new sink, empty the old one, fill the new; on failure put the old
        one back. */
    method SwitchSink(to: nat, d: Json, stored: Json, oldFaults: C.Faults, newFaults: C.Faults) returns (ok: bool)
      requires active in sinks && to in sinks && to != active
      modifies this`sinks, this`active
      ensures C.Tried(State(), ok) == C.Switch(old(State()), to, d, stored, oldFaults, newFaults)
    {
      hide *;
      ghost var p := State();
      StateParts();
      ok := OpenNew(to, C.Wanted(d), newFaults.open);
      if ok {
        ghost var ready := sinks[to];
        ok := ChangeOver(to, C.Wanted(stored), oldFaults, newFaults);
        StateParts();
        SwitchIs(p, to, d, stored, oldFaults, newFaults, ready, State(), ok);
      } else {
        StateParts();
        SwitchRefused(p, to, d, stored, oldFaults, newFaults);
      }
    }

    lemma StateParts()
      ensures State() == C.Plane(live, injected, sinks, active, next, spec, sections)
    {
    }

    /** A sink that does not write has nothing to open. */
    method OpenNew(to: nat, wanted: bool, raises: bool) returns (ok: bool)
      requires to in sinks
      modifies this`sinks
      ensures ok <==> !(wanted && old(sinks)[to].writes && raises)
      ensures !ok ==> sinks == old(sinks)
      ensures ok ==> sinks == old(sinks)[to :=
        if wanted && old(sinks)[to].writes then old(sinks)[to].(isOpen := true) else old(sinks)[to]]
    {
      ok := true;
      if wanted && sinks[to].writes {
        ok := !raises;
        if ok {
          sinks := sinks[to := sinks[to].(isOpen := true)];
        }
      }
    }

    /** From the old sink to the new one, which is ready to be filled. */
    method ChangeOver(to: nat, kept: bool, oldFaults: C.Faults, newFaults: C.Faults) returns (ok: bool)
      requires active in sinks && to in sinks && to != active
      modifies this`sinks, this`active
      ensures ok == C.Filled(old(sinks)[to], newFaults.fill).ok && active == if ok then to else old(active)
      ensures var was, filled := old(active), C.Filled(old(sinks)[to], newFaults.fill).sink;
        var gone := C.Emptied(old(sinks)[was], oldFaults.shut);
        sinks == if ok then old(sinks)[was := gone][to := filled]
                 else old(sinks)[was := C.Restored(gone, kept, oldFaults)][to := C.Emptied(filled, newFaults.shut)]
    {
      hide C.Filled, C.Emptied, C.Restored;
      ghost var before := sinks;
      var was := active;
      ShutDown(was, oldFaults.shut);
      active := to;
      ok := Populate(to, newFaults.fill);
      if !ok {
        active := was;
        ghost var gone, filled := sinks[was], sinks[to];
        PutBack(was, to, kept, oldFaults, newFaults);
        LastTwoWin(before, was, to, gone, filled, sinks[was], sinks[to]);
      }
    }

    /** The switch failed: give the new sink up and restore the old one. */
    method PutBack(was: nat, to: nat, kept: bool, oldFaults: C.Faults, newFaults: C.Faults)
      requires active == was && was in sinks && to in sinks && to != was
      modifies this`sinks
      ensures var given := C.Emptied(old(sinks)[to], newFaults.shut);
        var back := C.Restored(old(sinks)[was], kept, oldFaults);
        sinks == old(sinks)[to := given][was := back]
    {
      hide C.Emptied, C.Restored;
      ShutDown(to, newFaults.shut);
      RestoreSink(kept, oldFaults);
    }

    /** `_commit_fib`; the new sink was built when the change was prepared. */
    method CommitSink(d: Json, stored: Json, s: C.Script) returns (ok: bool, previous: Option<C.Previous>)
      requires C.Sane(State())
      modifies this
      ensures C.Attempt(State(), ok, previous) == C.CommitSink(old(State()), d, stored, s)
    {
      hide C.SyncOpen, C.Switch, C.SpecOf;
      ok, previous := true, None;
      if injected || C.SpecOf(d) == spec {
        if live {
          ok := SyncOpen(C.Wanted(d), s.running);
        }
        return;
      }
      var built, was := next, C.Previous(active, spec);
      sinks, next := sinks[built := C.Sink(C.SpecOf(d).Some?, false, false)], next + 1;
      if live {
        ok := SwitchSink(built, d, stored, s.running, s.built);
      } else {
        active := built;
      }
      if ok {
        spec, previous := C.SpecOf(d), Some(was);
      }
    }

    method ApplySections(d: Json, raises: bool) returns (ok: bool)
      modifies this`sections
      ensures C.Tried(State(), ok) == C.ApplySections(old(State()), d, raises)
    {
      sections := if raises then None else Some(d);
      ok := !raises;
    }

    method Commit(d: Json, stored: Json, s: C.Script) returns (ok: bool, previous: Option<C.Previous>)
      requires C.Sane(State())
      modifies this
      ensures C.Attempt(State(), ok, previous) == C.Commit(old(State()), d, stored, s)
    {
      hide C.CommitSink;
      ok, previous := CommitSink(d, stored, s);
      if ok {
        ok := ApplySections(d, s.sections);
      }
    }

    /** Put back a sink the change replaced, and the sections. */
    method RollBack(previous: Option<C.Previous>, stored: Json, s: C.Script, ghost a: C.Attempt) returns (ok: bool)
      requires a == C.Attempt(State(), false, previous) && C.Sane(State())
      requires previous.Some? ==> previous.value.sink in sinks && previous.value.sink != active
      modifies this
      ensures C.Tried(State(), ok) == C.RollBack(a, stored, s)
    {
      hide C.Switch;
      ok := true;
      if previous.Some? {
        if live {
          ok := SwitchSink(previous.value.sink, stored, stored, s.builtBack, s.runningBack);
        } else {
          active := previous.value.sink;
        }
        if ok {
          spec := previous.value.spec;
        }
      }
      var applied := ApplySections(stored, s.sectionsBack);
      ok := ok && applied;
    }
  }

  /** What a caller is told. */
  datatype Answer =
    | Stale                                    // if_revision did not match
    | Refused(error: ConfigError)
    | Ended(outcome: Outcome)

  datatype Part = Part(index: nat, sub: Diff)

  class Engine {
    const store: Store
    const plugins: seq<Plugin>
    const core: Core

    ghost function Members(): (r: seq<Member>)
      reads plugins
      ensures |r| == |plugins|
    {
      seq(|plugins|, j requires 0 <= j < |plugins| reads plugins => plugins[j].Now())
    }

    ghost function State(): System
      reads store, core, plugins
    {
      System(store.document, store.revision, Members(), core.State())
    }

    predicate Distinctly() {
      forall i, j :: 0 <= i < j < |plugins| ==> plugins[i] != plugins[j]
    }

    ghost predicate Valid()
      reads store, core, plugins
    {
      store.Valid() && Distinctly() && C.Sane(core.State())
    }

    constructor (store: Store, plugins: seq<Plugin>, core: Core)
      requires store.Valid() && C.Sane(core.State())
      requires forall i, j :: 0 <= i < j < |plugins| ==> plugins[i] != plugins[j]
      ensures Valid() && this.store == store && this.plugins == plugins && this.core == core
    {
      this.store, this.plugins, this.core := store, plugins, core;
    }

    predicate Touches(i: nat, diff: Diff)
      requires i < |plugins|
    {
      plugins[i].section != [] && Diffs.Under(diff, plugins[i].section) != {}
    }

    /** The plugins a difference reaches, in registration order. */
    ghost predicate Reaches(parts: seq<Part>, diff: Diff, upto: nat)
      requires upto <= |plugins|
    {
      && (forall m :: 0 <= m < |parts| ==>
           parts[m].index < upto && Touches(parts[m].index, diff)
           && parts[m].sub == Diffs.Under(diff, plugins[parts[m].index].section))
      && (forall m, n :: 0 <= m < n < |parts| ==> parts[m].index < parts[n].index)
      && (forall i :: 0 <= i < upto && Touches(i, diff) ==> exists m :: 0 <= m < |parts| && parts[m].index == i)
    }

    method Affected(diff: Diff) returns (parts: seq<Part>)
      ensures Reaches(parts, diff, |plugins|)
    {
      parts := [];
      var i := 0;
      while i < |plugins|
        invariant 0 <= i <= |plugins| && Reaches(parts, diff, i)
      {
        if plugins[i].section != [] {
          var sub := Diffs.Under(diff, plugins[i].section);
          if sub != {} {
            ReachesOneMore(parts, diff, i);
            parts := parts + [Part(i, sub)];
          }
        }
        i := i + 1;
      }
    }

    lemma ReachesOneMore(parts: seq<Part>, diff: Diff, i: nat)
      requires i < |plugins| && Reaches(parts, diff, i) && Touches(i, diff)
      ensures Reaches(parts + [Part(i, Diffs.Under(diff, plugins[i].section))], diff, i + 1)
    {
      hide Diffs.Under, Touches;
      var more := parts + [Part(i, Diffs.Under(diff, plugins[i].section))];
      assert more[|parts|].index == i;
      forall j | 0 <= j < i + 1 && Touches(j, diff) ensures exists m :: 0 <= m < |more| && more[m].index == j {
        if j < i {
          var m :| 0 <= m < |parts| && parts[m].index == j;
          assert more[m].index == j;
        }
      }
    }

    /** Phase one: everybody validates, nobody applies. */
    method PrepareAll(parts: seq<Part>, proposed: Json, ghost diff: Diff, s: Script) returns (ok: bool)
      requires Reaches(parts, diff, |plugins|) && core.active in core.sinks
      ensures ok <==> !s.coreRejects && !C.Conflicts(core.State(), proposed) && !SomeRejects(Members(), diff, s.rejects)
    {
      hide C.Conflicts, Diffs.Under, SectionOf;
      ok := core.Prepare(proposed, s.coreRejects);
      var m := 0;
      while ok && m < |parts|
        invariant 0 <= m <= |parts|
        invariant ok <==> !s.coreRejects && !C.Conflicts(core.State(), proposed)
                          && forall n :: 0 <= n < m ==> !s.rejects(parts[n].index)
      {
        var plugin := plugins[parts[m].index];
        ok := plugin.Prepare(SectionOf(proposed, plugin.section), parts[m].sub, s.rejects(parts[m].index));
        m := m + 1;
      }
      RejectsAreParts(parts, diff, s.rejects);
    }

    /** Where the `m`th part is, and the number of plugins after the last. */
    function Bound(parts: seq<Part>, m: nat): nat
    {
      if m < |parts| then parts[m].index else |plugins|
    }

    /** Whatever they have applied, these are the plugins. */
    predicate AreOurs(ms: seq<Member>) {
      |ms| == |plugins| && forall j :: 0 <= j < |ms| ==> ms[j].section == plugins[j].section
    }

    lemma TouchedIsTouches(ms: seq<Member>, diff: Diff)
      requires AreOurs(ms)
      ensures |ms| == |plugins| && forall j :: 0 <= j < |ms| ==> (Touched(ms[j], diff) <==> Touches(j, diff))
    {
    }

    /** Parts come in registration order, and between two there is none. */
    lemma BoundSteps(parts: seq<Part>, diff: Diff, m: nat, ms: seq<Member>)
      requires Reaches(parts, diff, |plugins|) && m < |parts| && AreOurs(ms)
      ensures Bound(parts, m) < Bound(parts, m + 1) <= |plugins| && Touched(ms[Bound(parts, m)], diff)
      ensures forall j :: Bound(parts, m) < j < Bound(parts, m + 1) ==> !Touched(ms[j], diff)
    {
      hide Touches, AreOurs, Touched;
      TouchedIsTouches(ms, diff);
      forall x | 0 <= x < |parts| ensures !(Bound(parts, m) < parts[x].index < Bound(parts, m + 1)) {
        if x < m { assert parts[x].index < parts[m].index; }
        else if x > m + 1 { assert parts[m + 1].index < parts[x].index; }
      }
    }

    lemma BoundStarts(parts: seq<Part>, diff: Diff, ms: seq<Member>)
      requires Reaches(parts, diff, |plugins|) && AreOurs(ms)
      ensures Bound(parts, 0) <= |plugins| && forall j :: 0 <= j < Bound(parts, 0) ==> !Touched(ms[j], diff)
    {
      hide Touches, AreOurs, Touched;
      TouchedIsTouches(ms, diff);
      forall x | 0 <= x < |parts| ensures Bound(parts, 0) <= parts[x].index {
        if x > 0 { assert parts[0].index < parts[x].index; }
      }
    }

    lemma BoundInRange(parts: seq<Part>, diff: Diff, m: nat)
      requires Reaches(parts, diff, |plugins|)
      ensures Bound(parts, m) <= |plugins|
    {
    }

    lemma RejectsAreParts(parts: seq<Part>, diff: Diff, rejects: nat -> bool)
      requires Reaches(parts, diff, |plugins|)
      ensures SomeRejects(Members(), diff, rejects) <==> exists m :: 0 <= m < |parts| && rejects(parts[m].index)
    {
      hide Diffs.Under;
      if SomeRejects(Members(), diff, rejects) {
        var j :| 0 <= j < |plugins| && Touched(Members()[j], diff) && rejects(j);
        assert Touches(j, diff);
        var m :| 0 <= m < |parts| && parts[m].index == j;
        assert rejects(parts[m].index);
      }
      if m :| 0 <= m < |parts| && rejects(parts[m].index) {
        assert Touched(Members()[parts[m].index], diff);
      }
    }

    /** One plugin's commit. */
    method CommitOne(i: nat, sub: Diff, fate: Fate, origin: Json, target: Json) returns (ok: bool)
      requires Distinctly() && i < |plugins|
      requires sub == Diffs.Under(DiffDocuments(origin, target), plugins[i].section)
      modifies plugins
      ensures ok == fate.Done?
      ensures Members() == old(Members())[i := After(old(Members())[i], fate, SectionOf(target, plugins[i].section))]
    {
      hide Diffs.Under, DiffDocuments, SectionOf;
      ok := plugins[i].Commit(SectionOf(target, plugins[i].section), sub, fate, origin, target);
    }

    /** Phase two, plugins: how many committed before one raised. */
    method CommitPlugins(parts: seq<Part>, proposed: Json, s: Script) returns (done: nat)
      requires Valid() && Reaches(parts, DiffDocuments(store.document, proposed), |plugins|)
      modifies plugins
      ensures done <= |parts|
      ensures var diff := DiffDocuments(store.document, proposed);
        && Bound(parts, done) == FirstFailure(old(Members()), diff, s.commits, 0)
        && Members() == Handed(old(Members()), diff, proposed, s.commits, Bound(parts, done) + 1)
    {
      hide DiffDocuments, SectionOf, Diffs.Under, Handed, FirstFailure, Reaches, Bound;
      ghost var ms, diff := Members(), DiffDocuments(store.document, proposed);
      done := 0;
      BoundStarts(parts, diff, ms);
      NobodyHanded(ms, diff, proposed, s.commits, Bound(parts, 0));
      while done < |parts|
        invariant 0 <= done <= |parts|
        invariant Members() == Handed(ms, diff, proposed, s.commits, Bound(parts, done))
        invariant NoneRaises(ms, diff, s.commits, Bound(parts, done))
      {
        BoundSteps(parts, diff, done, ms);
        PartIs(parts, diff, done);
        OneMoreHanded(ms, diff, proposed, s.commits, Bound(parts, done), Bound(parts, done + 1));
        var ok := CommitOne(parts[done].index, parts[done].sub, s.commits(parts[done].index), store.document, proposed);
        if !ok {
          FirstIs(ms, diff, s.commits, Bound(parts, done));
          return;
        }
        done := done + 1;
      }
      LastBound(parts);
      EveryoneHanded(ms, diff, proposed, s.commits);
    }

    lemma PartIs(parts: seq<Part>, diff: Diff, m: nat)
      requires Reaches(parts, diff, |plugins|) && m < |parts|
      ensures parts[m].index == Bound(parts, m) < |plugins|
      ensures parts[m].sub == Diffs.Under(diff, plugins[parts[m].index].section)
    {
    }

    lemma LastBound(parts: seq<Part>)
      ensures Bound(parts, |parts|) == |plugins|
    {
    }

    /** Hand the committed plugins back their section of the running document, in
        reverse order, with the inverse difference. */
    method RollBackPlugins(parts: seq<Part>, done: nat, proposed: Json, s: Script) returns (undone: bool)
      requires Distinctly() && done <= |parts|
      requires Reaches(parts, DiffDocuments(store.document, proposed), |plugins|)
      modifies plugins
      ensures var diff := DiffDocuments(store.document, proposed);
        && Members() == Handed(old(Members()), diff, store.document, s.undos, Bound(parts, done))
        && undone == NoneRaises(old(Members()), diff, s.undos, Bound(parts, done))
    {
      hide DiffDocuments, SectionOf, Diffs.Under, Inverse, Reaches, Bound, HandedBack, NoneRaisesFrom;
      ghost var ms, diff := Members(), DiffDocuments(store.document, proposed);
      undone := true;
      var m := done;
      BoundInRange(parts, diff, done);
      InverseIsSwapped(store.document, proposed);
      NobodyBack(ms, diff, store.document, s.undos, Bound(parts, done));
      while m > 0
        invariant 0 <= m <= done
        invariant Members() == HandedBack(ms, diff, store.document, s.undos, Bound(parts, m), Bound(parts, done))
        invariant undone <==> NoneRaisesFrom(ms, diff, s.undos, Bound(parts, m), Bound(parts, done))
      {
        m := m - 1;
        BoundSteps(parts, diff, m, ms);
        PartIs(parts, diff, m);
        BoundRises(parts, diff, m + 1, done);
        OneMoreBack(ms, diff, store.document, s.undos, Bound(parts, m), Bound(parts, m + 1), Bound(parts, done));
        var i := parts[m].index;
        InverseUnder(diff, plugins[i].section);
        var ok := CommitOne(i, Inverse(parts[m].sub), s.undos(i), proposed, store.document);
        if !ok {
          undone := false;
        }
      }
      BoundStarts(parts, diff, ms);
      EveryoneBack(ms, diff, store.document, s.undos, Bound(parts, 0), Bound(parts, done));
    }

    lemma BoundRises(parts: seq<Part>, diff: Diff, m: nat, n: nat)
      requires Reaches(parts, diff, |plugins|) && m <= n
      ensures Bound(parts, m) <= Bound(parts, n) <= |plugins|
    {
    }

    /** Validate, prepare, commit: everything happens as `Transaction.Apply` says for
        whoever rejects and raises, and the history goes on by what was stored. */
    method Apply(proposed: Json, s: Script) returns (r: Outcome)
      requires Valid() && proposed.Obj? && store.Accepts(proposed)
      modifies store, core, plugins
      ensures Valid() && (State(), r) == Transaction.Apply(old(State()), proposed, s)
      ensures store.history == old(store.history) + (if r.Applied? then [proposed] else [])
    {
      hide DiffDocuments, SomeRejects, C.Conflicts, Transaction.CommitAll, Reaches;
      var diff := DiffDocuments(store.document, proposed);
      if diff == {} {
        return Unchanged;
      }
      var parts := Affected(diff);
      var ok := PrepareAll(parts, proposed, diff, s);
      if !ok {
        return Rejected;
      }
      r := CommitAll(parts, proposed, s);
    }

    /** Phase two. */
    method CommitAll(parts: seq<Part>, proposed: Json, s: Script) returns (r: Outcome)
      requires Valid() && proposed.Obj? && store.Accepts(proposed)
      requires Reaches(parts, DiffDocuments(store.document, proposed), |plugins|)
      modifies store, core, plugins
      ensures Valid()
      ensures (State(), r) ==
        Transaction.CommitAll(old(State()), DiffDocuments(old(store.document), proposed), proposed, s)
      ensures store.history == old(store.history) + (if r.Applied? then [proposed] else [])
    {
      hide Reaches, DiffDocuments, Handed, FirstFailure, NoneRaises, C.Commit, C.RollBack, Bound;
      ghost var diff := DiffDocuments(store.document, proposed);
      var done := CommitPlugins(parts, proposed, s);
      LastBound(parts);
      if done < |parts| {
        PartIs(parts, diff, done);
        var undone := RollBackPlugins(parts, done, proposed, s);
        return Failed(parts[done].index, undone);
      }
      r := CommitCore(parts, proposed, s);
    }

    /** The core's turn, after every plugin committed. */
    method CommitCore(parts: seq<Part>, proposed: Json, s: Script) returns (r: Outcome)
      requires Valid() && proposed.Obj? && store.Accepts(proposed)
      requires Reaches(parts, DiffDocuments(store.document, proposed), |plugins|)
      modifies store, core, plugins
      ensures Valid()
      ensures var diff, n := DiffDocuments(old(store.document), proposed), |plugins|;
        var a := C.Commit(old(core.State()), proposed, old(store.document), s.core);
        if a.ok then
          r == Applied && core.State() == a.plane && Members() == old(Members())
          && store.document == proposed && store.revision == old(store.revision) + 1
          && store.history == old(store.history) + [proposed]
        else
          && C.Sane(a.plane)
          && (a.previous.Some? ==> a.previous.value.sink in a.plane.sinks && a.previous.value.sink != a.plane.active)
          && var t := C.RollBack(a, old(store.document), s.core);
          && unchanged(store) && core.State() == t.plane
          && Members() == Handed(old(Members()), diff, old(store.document), s.undos, n)
          && r == Failed(n, t.ok && NoneRaises(old(Members()), diff, s.undos, n))
    {
      hide Reaches, DiffDocuments, Handed, NoneRaises, C.Commit, C.RollBack, C.Conflicts, Bound;
      ghost var a := C.Commit(core.State(), proposed, store.document, s.core);
      C.CommitSane(core.State(), proposed, store.document, s.core);
      var ok, previous := core.Commit(proposed, store.document, s.core);
      if ok {
        var revision := store.Commit(proposed);
        return Applied;
      }
      C.RollBackSane(a, store.document, s.core);
      var restored := core.RollBack(previous, store.document, s.core, a);
      LastBound(parts);
      var undone := RollBackPlugins(parts, |parts|, proposed, s);
      r := Failed(|plugins|, restored && undone);
    }

    // ----- the ways to change the document ---------------------------------------------

    /** A guarded write applies only to the very document its revision named, and
        every revision goes on naming the same document. */
    method Configure(path: Path, value: Json, ifRevision: Option<int>, s: Script)
      returns (r: Answer, ghost proposed: Json)
      requires Valid()
      modifies store, core, plugins
      ensures Valid() && Kept(old(store.history), store.history)
      ensures Moved(old(State()), State(), r, proposed, s)
      ensures r.Stale? <==> OutOfDate(ifRevision, old(store.revision))
      ensures r.Ended? <==>
        !OutOfDate(ifRevision, old(store.revision)) && path != []
        && old(store.Admits(store.Written(Set(store.document, path, value))))
      ensures r.Ended? ==> Some(proposed) == old(store.Written(Set(store.document, path, value)))
      ensures WasApplied(r) ==>
          path != [] && Some(store.document) == old(store.Written(Set(store.document, path, value)))
      ensures WasApplied(r) && ifRevision.Some? ==> NamedBy(old(store.history), ifRevision.value, old(store.document))
    {
      hide Transaction.Apply;
      proposed := store.document;
      var current := store.CheckRevision(ifRevision);
      if !current {
        return Stale, proposed;
      }
      var proposal := store.ProposeSet(path, value);
      if proposal.Error? {
        return Refused(proposal.error), proposed;
      }
      proposed := proposal.document;
      r := Conclude(proposal.document, s);
    }

    method Conclude(proposed: Json, s: Script) returns (r: Answer)
      requires Valid() && proposed.Obj? && store.Accepts(proposed)
      modifies store, core, plugins
      ensures Valid() && Kept(old(store.history), store.history) && r.Ended?
      ensures Moved(old(State()), State(), r, proposed, s)
      ensures WasApplied(r) ==> store.document == proposed
    {
      hide C.Sane;
      RevisionMoves(State(), proposed, s);
      var outcome := Apply(proposed, s);
      r := Ended(outcome);
    }

    method Unconfigure(path: Path, ifRevision: Option<int>, s: Script) returns (r: Answer, ghost proposed: Json)
      requires Valid()
      modifies store, core, plugins
      ensures Valid() && Kept(old(store.history), store.history)
      ensures Moved(old(State()), State(), r, proposed, s)
      ensures r.Stale? <==> OutOfDate(ifRevision, old(store.revision))
      ensures r.Ended? <==>
        !OutOfDate(ifRevision, old(store.revision)) && path != [] && old(store.Admits(Del(store.document, path)))
      ensures r.Ended? ==> Some(proposed) == old(Del(store.document, path))
      ensures WasApplied(r) ==> path != [] && Some(store.document) == old(Del(store.document, path))
      ensures WasApplied(r) && ifRevision.Some? ==> NamedBy(old(store.history), ifRevision.value, old(store.document))
    {
      hide Transaction.Apply;
      proposed := store.document;
      var current := store.CheckRevision(ifRevision);
      if !current {
        return Stale, proposed;
      }
      var proposal := store.ProposeDelete(path);
      if proposal.Error? {
        return Refused(proposal.error), proposed;
      }
      proposed := proposal.document;
      r := Conclude(proposal.document, s);
    }

    method Replace(document: Json, ifRevision: Option<int>, s: Script) returns (r: Answer, ghost proposed: Json)
      requires Valid()
      modifies store, core, plugins
      ensures Valid() && Kept(old(store.history), store.history)
      ensures Moved(old(State()), State(), r, proposed, s)
      ensures r.Stale? <==> OutOfDate(ifRevision, old(store.revision))
      ensures r.Ended? <==>
        !OutOfDate(ifRevision, old(store.revision)) && OrEmpty(document).Obj?
        && old(store.Admits(store.Written(Some(OrEmpty(document)))))
      ensures r.Ended? ==> Some(proposed) == old(store.Written(Some(OrEmpty(document))))
      ensures WasApplied(r) ==> Some(store.document) == old(store.Written(Some(OrEmpty(document))))
      ensures WasApplied(r) && ifRevision.Some? ==> NamedBy(old(store.history), ifRevision.value, old(store.document))
    {
      hide Transaction.Apply;
      proposed := store.document;
      var current := store.CheckRevision(ifRevision);
      if !current {
        return Stale, proposed;
      }
      var proposal := store.ProposeReplace(document);
      if proposal.Error? {
        return Refused(proposal.error), proposed;
      }
      proposed := proposal.document;
      r := Conclude(proposal.document, s);
    }

    /** PATCH: merge into the redacted section the client sees, then configure the
        result.  For a patch that writes no sentinel, what is applied is the patch
        merged into the stored section. */
    method Patch(path: Path, patch: Json, ifRevision: Option<int>, s: Script) returns (r: Answer, ghost proposed: Json)
      requires Valid()
      modifies store, core, plugins
      ensures Valid() && Kept(old(store.history), store.history)
      ensures Moved(old(State()), State(), r, proposed, s)
      ensures !patch.Obj? ==> r == Refused(NotAnObject)
      ensures var shown := Get(Redact(old(store.document), SecretPaths(store.schema)), path);
        patch.Obj? ==>
        && (shown.None? ==> r == Refused(NothingThere))
            && (shown.Some? && !shown.value.Obj? ==> r == Refused(NotASection))
        && (shown.Some? && shown.value.Obj? ==> (r.Stale? <==> OutOfDate(ifRevision, old(store.revision))))
      ensures var pats, d := SecretPaths(store.schema), old(store.document);
        WasApplied(r) && Clean(d, PatternSet(pats)) && path != [] && patch.Obj?
          && Clean(patch, BelowAlong(PatternSet(pats), path)) ==>
          && Get(d, path).Some? && Get(d, path).value.Obj?
          && Some(store.document) == Set(d, path, DeepMerge(Get(d, path).value, patch))
      ensures WasApplied(r) && ifRevision.Some? ==> NamedBy(old(store.history), ifRevision.value, old(store.document))
    {
      hide Transaction.Apply;
      proposed := store.document;
      if !patch.Obj? {
        return Refused(NotAnObject), proposed;
      }
      var shown := store.Document(true);
      var current := Get(shown, path);
      if current == None {
        return Refused(NothingThere), proposed;
      }
      if !current.value.Obj? {
        return Refused(NotASection), proposed;
      }
      PatchProposal(store.schema, store.document, path, patch);
      var merged := MergeSection(current.value, patch);
      r, proposed := Configure(path, merged, ifRevision, s);
    }
  }

  /** The revision a write names is not the running one. */
  predicate OutOfDate(ifRevision: Option<int>, revision: nat) {
    ifRevision.Some? && ifRevision.value != revision
  }

  predicate WasApplied(r: Answer) {
    r.Ended? && r.outcome.Applied?
  }

  /** A request that got as far as a proposal went as `Transaction.Apply` says; any
      other changed nothing. */
  ghost predicate Moved(before: System, after: System, r: Answer, proposed: Json, s: Script)
    requires C.Sane(before.plane)
  {
    if r.Ended? then (after, r.outcome) == Transaction.Apply(before, proposed, s) else after == before
  }

  lemma SwitchRefused(p: C.Plane, to: nat, d: Json, stored: Json, oldFaults: C.Faults, newFaults: C.Faults)
    requires p.active in p.sinks && to in p.sinks && C.Wanted(d) && p.sinks[to].writes && newFaults.open
    ensures C.Switch(p, to, d, stored, oldFaults, newFaults) == C.Tried(p, false)
  {
    NothingUpdated(p.sinks, p.active, to);
  }

  lemma SwitchIs(p: C.Plane, to: nat, d: Json, stored: Json, oldFaults: C.Faults, newFaults: C.Faults,
      ready: C.Sink, q: C.Plane, ok: bool)
    requires p.active in p.sinks && to in p.sinks && to != p.active
    requires var opens := C.Wanted(d) && p.sinks[to].writes;
      !(opens && newFaults.open) && ready == if opens then p.sinks[to].(isOpen := true) else p.sinks[to]
    requires var filled, gone := C.Filled(ready, newFaults.fill), C.Emptied(p.sinks[p.active], oldFaults.shut);
      && ok == filled.ok
      && q == p.(active := if ok then to else p.active, sinks :=
           if ok then p.sinks[to := ready][p.active := gone][to := filled.sink]
           else p.sinks[to := ready][p.active := C.Restored(gone, C.Wanted(stored), oldFaults)][to :=
             C.Emptied(filled.sink, newFaults.shut)])
    ensures C.Tried(q, ok) == C.Switch(p, to, d, stored, oldFaults, newFaults)
  {
    hide C.Wanted, C.Filled, C.Emptied, C.Restored;
    LastWins(p.sinks, p.active, to, q.sinks[p.active], ready, q.sinks[to]);
  }

  lemma NothingUpdated<K, V>(m: map<K, V>, a: K, b: K)
    requires a in m && b in m
    ensures m[a := m[a]][b := m[b]] == m
  {
  }

  lemma LastWins<K, V>(m: map<K, V>, a: K, b: K, x: V, z: V, y: V)
    requires a != b
    ensures m[b := z][a := x][b := y] == m[a := x][b := y]
  {
  }

  lemma LastTwoWin<K, V>(m: map<K, V>, a: K, b: K, x0: V, y0: V, x: V, y: V)
    requires a != b
    ensures m[a := x0][b := y0][b := y][a := x] == m[a := x][b := y]
  {
  }

  // ----- handing sections out, one plugin after the other ----------------------------------

  lemma NobodyHanded(ms: seq<Member>, diff: Diff, d: Json, fates: nat -> Fate, upto: nat)
    requires upto <= |ms| && forall j :: 0 <= j < upto ==> !Touched(ms[j], diff)
    ensures Handed(ms, diff, d, fates, upto) == ms && NoneRaises(ms, diff, fates, upto)
  {
    hide Touched;
  }

  lemma OneMoreHanded(ms: seq<Member>, diff: Diff, d: Json, fates: nat -> Fate, b: nat, next: nat)
    requires b < next <= |ms| && Touched(ms[b], diff)
    requires forall j :: b < j < next ==> !Touched(ms[j], diff)
    ensures var one := Handed(ms, diff, d, fates, b)[b := After(ms[b], fates(b), SectionOf(d, ms[b].section))];
      && Handed(ms, diff, d, fates, b)[b] == ms[b]
      && Handed(ms, diff, d, fates, b + 1) == one == Handed(ms, diff, d, fates, next)
    ensures NoneRaises(ms, diff, fates, b) && fates(b) == Done ==> NoneRaises(ms, diff, fates, next)
  {
    hide Touched, SectionOf;
  }

  lemma FirstIs(ms: seq<Member>, diff: Diff, commits: nat -> Fate, b: nat)
    requires b < |ms| && Touched(ms[b], diff) && commits(b).Raised? && NoneRaises(ms, diff, commits, b)
    ensures FirstFailure(ms, diff, commits, 0) == b
  {
    hide Touched;
  }

  lemma EveryoneHanded(ms: seq<Member>, diff: Diff, d: Json, commits: nat -> Fate)
    requires NoneRaises(ms, diff, commits, |ms|)
    ensures FirstFailure(ms, diff, commits, 0) == |ms|
    ensures Handed(ms, diff, d, commits, |ms| + 1) == Handed(ms, diff, d, commits, |ms|)
  {
    hide Touched;
  }

  /** The plugins from one on up to another are handed their section of `d`. */
  function HandedBack(ms: seq<Member>, diff: Diff, d: Json, fates: nat -> Fate, from: nat, upto: nat): (r: seq<Member>)
    ensures |r| == |ms|
    ensures forall j :: 0 <= j < |ms| ==> r[j] == HandedOne(ms[j], diff, d, fates(j), from <= j < upto)
  {
    seq(|ms|, j requires 0 <= j < |ms| => HandedOne(ms[j], diff, d, fates(j), from <= j < upto))
  }

  predicate NoneRaisesFrom(ms: seq<Member>, diff: Diff, undos: nat -> Fate, from: nat, upto: nat) {
    forall j :: 0 <= j < |ms| && from <= j < upto && Touched(ms[j], diff) ==> undos(j) == Done
  }

  lemma NobodyBack(ms: seq<Member>, diff: Diff, d: Json, undos: nat -> Fate, upto: nat)
    ensures HandedBack(ms, diff, d, undos, upto, upto) == ms && NoneRaisesFrom(ms, diff, undos, upto, upto)
  {
    hide Touched;
  }

  lemma OneMoreBack(ms: seq<Member>, diff: Diff, d: Json, undos: nat -> Fate, b: nat, next: nat, upto: nat)
    requires b < next <= upto <= |ms| && Touched(ms[b], diff)
    requires forall j :: b < j < next ==> !Touched(ms[j], diff)
    ensures var sofar := HandedBack(ms, diff, d, undos, next, upto);
      && sofar[b] == ms[b]
      && HandedBack(ms, diff, d, undos, b, upto) == sofar[b := After(ms[b], undos(b), SectionOf(d, ms[b].section))]
    ensures NoneRaisesFrom(ms, diff, undos, b, upto) <==>
        NoneRaisesFrom(ms, diff, undos, next, upto) && undos(b) == Done
  {
    hide Touched, SectionOf;
  }

  lemma EveryoneBack(ms: seq<Member>, diff: Diff, d: Json, undos: nat -> Fate, from: nat, upto: nat)
    requires from <= |ms| && forall j :: 0 <= j < from ==> !Touched(ms[j], diff)
    ensures HandedBack(ms, diff, d, undos, from, upto) == Handed(ms, diff, d, undos, upto)
    ensures NoneRaisesFrom(ms, diff, undos, from, upto) <==> NoneRaises(ms, diff, undos, upto)
  {
    hide Touched, SectionOf;
  }

  lemma PatchProposal(schema: Schema, d: Json, path: Path, patch: Json)
    requires d.Obj? && RenderedChanges.Distinct(schema) && RenderedChanges.Shaped(d, schema) && patch.Obj?
    ensures var pats := SecretPaths(schema);
      var shown := Get(Redact(d, pats), path);
      path != [] && Clean(d, PatternSet(pats)) && Clean(patch, BelowAlong(PatternSet(pats), path)) && shown.Some?
        && shown.value.Obj? ==>
        && Get(d, path).Some? && Get(d, path).value.Obj?
        && var proposed := Set(d, path, DeepMerge(shown.value, patch));
           proposed.Some? && Resolve(d, proposed.value, pats) == Set(d, path, DeepMerge(Get(d, path).value, patch))
  {
    var pats := SecretPaths(schema);
    RenderedChanges.ShapedHoldsText(d, schema);
    RenderedChanges.TextIsPlain(d, PatternSet(pats));
    if path != [] && Clean(d, PatternSet(pats)) && Clean(patch, BelowAlong(PatternSet(pats), path)) {
      PatchIsMerge(d, pats, path, patch);
    }
  }

  /** Every revision names the document it always named. */
  predicate Kept(before: seq<Json>, after: seq<Json>) {
    before <= after
  }

  predicate NamedBy(history: seq<Json>, revision: int, document: Json) {
    0 <= revision < |history| && history[revision] == document
  }

  lemma InverseUnder(d: Diff, section: Path)
    ensures Inverse(Diffs.Under(d, section)) == Diffs.Under(Inverse(d), section)
  {
    forall c | c in Inverse(Diffs.Under(d, section)) ensures c in Diffs.Under(Inverse(d), section) {
      var x :| x in Diffs.Under(d, section) && Invert(x) == c;
    }
    forall c | c in Diffs.Under(Inverse(d), section) ensures c in Inverse(Diffs.Under(d, section)) {
      var x :| x in d && Invert(x) == c;
      assert x in Diffs.Under(d, section);
    }
  }
}
