/** The two-phase apply as one step: who raises is given by a script, and what is
    left behind follows. */
module Transaction {
  import opened Routes
  import opened Documents
  import opened Diffs
  import C = CorePlane

  /** A participant's section of a document; an absent one reads as empty. */
  function SectionOf(d: Json, section: Path): Json {
    match Get(d, section)
    case None => EMPTY
    case Some(v) => v
  }

  /** A protocol plugin and the configuration it has applied; one with an empty
      `section` has none. */
  datatype Member = Member(section: Path, applied: Json)

  datatype System = System(document: Json, revision: nat, members: seq<Member>, plane: C.Plane)

  /** How a plugin's commit ends; one that raises leaves whatever it got to. */
  datatype Fate = Done | Raised(left: Json)

  /** Who rejects in prepare, how each plugin's commit ends, how each one's rollback
      does, and what the core's calls do. */
  datatype Script = Script(rejects: nat -> bool, coreRejects: bool, commits: nat -> Fate, undos: nat -> Fate,
        core: C.Script)

  /** How an operation ended.  `culprit` is the participant whose commit raised:
      a plugin's index, or the number of plugins for the core. */
  datatype Outcome =
    | Unchanged
    | Rejected                                 // by a plugin or the core, in prepare
    | Applied
    | Failed(culprit: nat, rolledBack: bool)

  /** The plugin is one the difference reaches. */
  predicate Touched(m: Member, diff: Diff) {
    m.section != [] && Under(diff, m.section) != {}
  }

  predicate SomeRejects(members: seq<Member>, diff: Diff, rejects: nat -> bool) {
    exists j :: 0 <= j < |members| && Touched(members[j], diff) && rejects(j)
  }

  /** The first plugin from `i` on whose commit raises; their number if none does. */
  function FirstFailure(members: seq<Member>, diff: Diff, commits: nat -> Fate, i: nat): (c: nat)
    requires i <= |members|
    ensures i <= c <= |members|
    ensures forall j :: i <= j < c && Touched(members[j], diff) ==> commits(j) == Done
    ensures c < |members| ==> Touched(members[c], diff) && commits(c).Raised?
    decreases |members| - i
  {
    if i == |members| then i
    else if Touched(members[i], diff) && commits(i).Raised? then i
    else FirstFailure(members, diff, commits, i + 1)
  }

  function After(m: Member, fate: Fate, value: Json): Member {
    m.(applied := match fate case Done => value case Raised(left) => left)
  }

  function HandedOne(m: Member, diff: Diff, d: Json, fate: Fate, reached: bool): (r: Member)
    ensures r.section == m.section
  {
    if reached && Touched(m, diff) then After(m, fate, SectionOf(d, m.section)) else m
  }

  /** The plugins reached before the `upto`th are handed their section of `d`. */
  function Handed(members: seq<Member>, diff: Diff, d: Json, fates: nat -> Fate, upto: nat): (r: seq<Member>)
    ensures |r| == |members|
    ensures forall j :: 0 <= j < |members| ==> r[j] == HandedOne(members[j], diff, d, fates(j), j < upto)
  {
    seq(|members|, j requires 0 <= j < |members| => HandedOne(members[j], diff, d, fates(j), j < upto))
  }

  /** No plugin reached before the `upto`th raises. */
  predicate NoneRaises(members: seq<Member>, diff: Diff, undos: nat -> Fate, upto: nat) {
    forall j :: 0 <= j < |members| && j < upto && Touched(members[j], diff) ==> undos(j) == Done
  }

  /** Phase two: plugins, core, store; undone if one of them raises. */
  ghost function CommitAll(sys: System, diff: Diff, proposed: Json, s: Script): (System, Outcome)
    requires C.Sane(sys.plane)
  {
    var n := |sys.members|;
    var c := FirstFailure(sys.members, diff, s.commits, 0);
    var there := Handed(sys.members, diff, proposed, s.commits, c + 1);
    var back := Handed(there, diff, sys.document, s.undos, c);
    var undone := NoneRaises(there, diff, s.undos, c);
    if c < n then (sys.(members := back), Failed(c, undone))
    else
      var a := C.Commit(sys.plane, proposed, sys.document, s.core);
      C.CommitSane(sys.plane, proposed, sys.document, s.core);
      if a.ok then (System(proposed, sys.revision + 1, there, a.plane), Applied)
      else
        var t := C.RollBack(a, sys.document, s.core);
        (sys.(members := back, plane := t.plane), Failed(n, t.ok && undone))
  }

  /** `_apply`. */
  ghost function Apply(sys: System, proposed: Json, s: Script): (System, Outcome)
    requires C.Sane(sys.plane)
  {
    var diff := DiffDocuments(sys.document, proposed);
    if diff == {} then (sys, Unchanged)
    else if s.coreRejects || C.Conflicts(sys.plane, proposed) || SomeRejects(sys.members, diff, s.rejects)
        then (sys, Rejected)
    else CommitAll(sys, diff, proposed, s)
  }

  // ----- what an operation leaves ---------------------------------------------------------

  /** What a plugin has applied is its section of a document. */
  predicate Holds(m: Member, d: Json) {
    m.section == [] || m.applied == SectionOf(d, m.section)
  }

  ghost predicate EachHolds(members: seq<Member>, d: Json) {
    forall j :: 0 <= j < |members| ==> Holds(members[j], d)
  }

  ghost predicate PluginsHold(sys: System) {
    EachHolds(sys.members, sys.document)
  }

  ghost predicate CoreHolds(sys: System) {
    C.Sane(sys.plane) && C.Serves(sys.plane, sys.document)
  }

  /** Every participant holds what is stored. */
  ghost predicate AllHold(sys: System) {
    PluginsHold(sys) && CoreHolds(sys)
  }

  lemma Untouched(m: Member, current: Json, proposed: Json)
    requires !Touched(m, DiffDocuments(current, proposed)) && Holds(m, current)
    ensures Holds(m, proposed)
  {
    if m.section != [] { UnaffectedIsUnchanged(current, proposed, m.section); }
  }

  /** The document and the revision move together, by one for a real change, and
      only when everything was applied. */
  lemma RevisionMoves(sys: System, proposed: Json, s: Script)
    requires C.Sane(sys.plane)
    ensures var (sys', r) := Apply(sys, proposed, s);
      && (r.Applied? <==> sys'.document != sys.document)
      && (r.Applied? ==> sys'.document == proposed)
      && (r.Unchanged? <==> proposed == sys.document)
      && sys'.revision == sys.revision + (if r.Applied? then 1 else 0)
  {
    hide FirstFailure, Handed, DiffDocuments;
    EmptyDiffIff(sys.document, proposed);
  }

  /** A change is applied exactly when it is one, nobody it reaches rejects it or
      raises committing it, and the core's own commit goes through. */
  lemma AppliedIff(sys: System, proposed: Json, s: Script)
    requires C.Sane(sys.plane)
    ensures var diff := DiffDocuments(sys.document, proposed);
      Apply(sys, proposed, s).1.Applied? <==>
      && proposed != sys.document
      && !s.coreRejects && !(sys.plane.injected && C.Wanted(proposed) && !sys.plane.sinks[sys.plane.active].writes)
      && (forall j :: 0 <= j < |sys.members| && Touched(sys.members[j], diff) ==>
          !s.rejects(j) && s.commits(j) == Done)
      && C.Commit(sys.plane, proposed, sys.document, s.core).ok
  {
    hide DiffDocuments, Touched, C.Commit, C.RollBack, Handed, C.Wanted;
    var diff := DiffDocuments(sys.document, proposed);
    EmptyDiffIff(sys.document, proposed);
    var c := FirstFailure(sys.members, diff, s.commits, 0);
  }

  lemma PlaneStaysSane(sys: System, proposed: Json, s: Script)
    requires C.Sane(sys.plane)
    ensures C.Sane(Apply(sys, proposed, s).0.plane) && |Apply(sys, proposed, s).0.members| == |sys.members|
  {
    hide FirstFailure, DiffDocuments, C.Commit, C.RollBack;
    C.CommitSane(sys.plane, proposed, sys.document, s.core);
    var a := C.Commit(sys.plane, proposed, sys.document, s.core);
    C.RollBackSane(a, sys.document, s.core);
  }

  /** The operation does not report a failed rollback. */
  predicate Restored(r: Outcome) {
    r.Failed? ==> r.rolledBack
  }

  /** The plugins after an operation that did not report a failed rollback: they
      hold their sections, but for the one whose commit raised, which is handed
      nothing back; and that one holds its own exactly if that is what its commit
      left behind. */
  lemma PluginsHoldIff(sys: System, proposed: Json, s: Script)
    requires C.Sane(sys.plane) && PluginsHold(sys)
    ensures var (sys', r) := Apply(sys, proposed, s);
      Restored(r) ==>
      (PluginsHold(sys') <==> (r.Failed? && r.culprit < |sys.members| ==>
        s.commits(r.culprit) == Raised(SectionOf(sys.document, sys.members[r.culprit].section))))
  {
    hide FirstFailure, SectionOf, Touched, DiffDocuments, C.Commit, C.RollBack, Handed, EachHolds;
    var diff, ms, n := DiffDocuments(sys.document, proposed), sys.members, |sys.members|;
    var c := FirstFailure(ms, diff, s.commits, 0);
    if c == n { CommittedHold(ms, sys.document, proposed, s.commits); }
    if NoneRaises(Handed(ms, diff, proposed, s.commits, c + 1), diff, s.undos, c) {
      UndoneHold(ms, sys.document, proposed, s.commits, s.undos, c);
    }
  }

  /** Plugins that all committed hold the new document's sections. */
  lemma CommittedHold(ms: seq<Member>, current: Json, proposed: Json, commits: nat -> Fate)
    requires EachHolds(ms, current)
    requires NoneRaises(ms, DiffDocuments(current, proposed), commits, |ms|)
    ensures EachHolds(Handed(ms, DiffDocuments(current, proposed), proposed, commits, |ms| + 1), proposed)
  {
    hide SectionOf, Under, DiffDocuments;
    forall j | 0 <= j < |ms|
      ensures Holds(HandedOne(ms[j], DiffDocuments(current, proposed), proposed, commits(j), true), proposed) {
      if !Touched(ms[j], DiffDocuments(current, proposed)) { Untouched(ms[j], current, proposed); }
    }
  }

  /** Handed back, the plugins before the `c`th hold the old document's sections,
      and those after were never touched; the `c`th is as its commit left it. */
  lemma UndoneHold(ms: seq<Member>, current: Json, proposed: Json, commits: nat -> Fate, undos: nat -> Fate, c: nat)
    requires EachHolds(ms, current) && c <= |ms|
    requires c < |ms| ==> Touched(ms[c], DiffDocuments(current, proposed)) && commits(c).Raised?
    requires NoneRaises(Handed(ms, DiffDocuments(current, proposed), proposed, commits, c + 1),
        DiffDocuments(current, proposed), undos, c)
    ensures var diff := DiffDocuments(current, proposed);
      EachHolds(Handed(Handed(ms, diff, proposed, commits, c + 1), diff, current, undos, c), current)
      <==> (c < |ms| ==> commits(c) == Raised(SectionOf(current, ms[c].section)))
  {
    hide SectionOf, Under, DiffDocuments;
    var diff := DiffDocuments(current, proposed);
    var there := Handed(ms, diff, proposed, commits, c + 1);
    var back := Handed(there, diff, current, undos, c);
    forall j | 0 <= j < |ms| && j != c ensures Holds(back[j], current) {
      assert Holds(ms[j], current);
      assert there[j] == HandedOne(ms[j], diff, proposed, commits(j), j < c + 1);
    }
    if c < |ms| {
      assert there[c] == HandedOne(ms[c], diff, proposed, commits(c), true);
      assert Holds(back[c], current) <==> commits(c) == Raised(SectionOf(current, ms[c].section));
    }
  }

  /** The core after such an operation: it serves the document, but for the runs
      whose rollback reports more than it did. */
  lemma CoreHoldsIff(sys: System, proposed: Json, s: Script)
    requires CoreHolds(sys)
    ensures var (sys', r) := Apply(sys, proposed, s);
      Restored(r) ==>
      (CoreHolds(sys') <==> (r.Failed? && r.culprit == |sys.members| ==>
        !C.Misreported(sys.plane, sys.document, proposed, s.core)))
  {
    hide FirstFailure, DiffDocuments, C.Commit, C.RollBack, C.Serves, C.Misreported, Handed, NoneRaises;
    C.CommitSane(sys.plane, proposed, sys.document, s.core);
    if !C.Conflicts(sys.plane, proposed) {
      if C.Commit(sys.plane, proposed, sys.document, s.core).ok {
        C.CommitServes(sys.plane, proposed, sys.document, s.core);
      } else {
        C.RollBackTruthfulIff(sys.plane, sys.document, proposed, s.core);
      }
    }
  }

  /** A run of the code that ends well: nothing is reported failed, or what is
      reported rolled back was. */
  ghost predicate EndsWell(sys: System, proposed: Json, s: Script)
    requires C.Sane(sys.plane)
  {
    var r := Apply(sys, proposed, s).1;
    r.Failed? ==>
      && r.rolledBack
      && (r.culprit < |sys.members| ==>
           s.commits(r.culprit) == Raised(SectionOf(sys.document, sys.members[r.culprit].section)))
      && (r.culprit == |sys.members| ==> !C.Misreported(sys.plane, sys.document, proposed, s.core))
  }

  /** All participants hold what is stored after an operation that reports success
      or a full rollback, exactly when it ended well. */
  lemma AllHoldIff(sys: System, proposed: Json, s: Script)
    requires AllHold(sys)
    ensures var (sys', r) := Apply(sys, proposed, s);
      Restored(r) ==> (AllHold(sys') <==> EndsWell(sys, proposed, s))
  {
    hide Apply, PluginsHold, CoreHolds, C.Misreported, SectionOf;
    SaneCore(sys);
    PluginsHoldIff(sys, proposed, s);
    CoreHoldsIff(sys, proposed, s);
    CulpritInRange(sys, proposed, s);
  }

  lemma SaneCore(sys: System)
    requires CoreHolds(sys)
    ensures C.Sane(sys.plane)
  {
  }

  lemma CulpritInRange(sys: System, proposed: Json, s: Script)
    requires C.Sane(sys.plane)
    ensures var r := Apply(sys, proposed, s).1; r.Failed? ==> r.culprit <= |sys.members|
  {
  }

  // ----- over runs --------------------------------------------------------------------------

  datatype Operation = Operation(proposed: Json, script: Script)

  ghost function Run(sys: System, ops: seq<Operation>): System
    requires C.Sane(sys.plane)
    decreases |ops|
  {
    if ops == [] then sys
    else
      PlaneStaysSane(sys, ops[0].proposed, ops[0].script);
      Run(Apply(sys, ops[0].proposed, ops[0].script).0, ops[1..])
  }

  ghost predicate AllEndWell(sys: System, ops: seq<Operation>)
    requires C.Sane(sys.plane)
    decreases |ops|
  {
    ops == [] ||
    (EndsWell(sys, ops[0].proposed, ops[0].script) &&
     (PlaneStaysSane(sys, ops[0].proposed, ops[0].script);
      AllEndWell(Apply(sys, ops[0].proposed, ops[0].script).0, ops[1..])))
  }

  /** How many operations of a run changed the document. */
  ghost function Changes(sys: System, ops: seq<Operation>): nat
    requires C.Sane(sys.plane)
    decreases |ops|
  {
    if ops == [] then 0
    else
      PlaneStaysSane(sys, ops[0].proposed, ops[0].script);
      var sys' := Apply(sys, ops[0].proposed, ops[0].script).0;
      (if sys'.document != sys.document then 1 else 0) + Changes(sys', ops[1..])
  }

  /** Over any run of operations that end well, whoever rejects and raises in it, everyone
      holds what is stored; and over any run the revision counts the changes. */
  lemma {:induction false} RunsHold(sys: System, ops: seq<Operation>)
    requires C.Sane(sys.plane)
    ensures AllHold(sys) && AllEndWell(sys, ops) ==> AllHold(Run(sys, ops))
    ensures Run(sys, ops).revision == sys.revision + Changes(sys, ops)
    decreases |ops|
  {
    hide Apply, EndsWell, PluginsHold, CoreHolds;
    if ops != [] {
      var proposed, s := ops[0].proposed, ops[0].script;
      PlaneStaysSane(sys, proposed, s);
      RevisionMoves(sys, proposed, s);
      if AllHold(sys) && EndsWell(sys, proposed, s) {
        AllHoldIff(sys, proposed, s);
        EndsWellIsRestored(sys, proposed, s);
      }
      RunsHold(Apply(sys, proposed, s).0, ops[1..]);
    }
  }

  lemma EndsWellIsRestored(sys: System, proposed: Json, s: Script)
    requires C.Sane(sys.plane) && EndsWell(sys, proposed, s)
    ensures Restored(Apply(sys, proposed, s).1)
  {
  }

  // ----- three that do not end well -------------------------------------------------------

  const BGP: Path := ["router", "bgp"]

  const WITH_BGP: Json := Obj(map["router" := Obj(map["bgp" := Obj(map["65000" := EMPTY])])])

  lemma BgpSection()
    ensures Get(EMPTY, BGP) == None && SectionOf(EMPTY, BGP) == EMPTY
    ensures Get(WITH_BGP, BGP) == Some(Obj(map["65000" := EMPTY])) == Some(SectionOf(WITH_BGP, BGP))
    ensures Get(WITH_BGP, ["ip", "route", "install"]) == None && Obj(map["65000" := EMPTY]) != EMPTY
  {
    assert "65000" in Obj(map["65000" := EMPTY]).fields;
    assert BGP[1..] == ["bgp"] && ["bgp"][1..] == [];
    assert Get(WITH_BGP.fields["router"], ["bgp"]) == Some(Obj(map["65000" := EMPTY]));
  }

  /** A plugin that takes its configuration over before it raises keeps it, although
      the operation reports that everything was rolled back. */
  lemma UntidyPluginIsLeftBehind(plane: C.Plane, s: Script)
    requires C.Sane(plane) && C.Serves(plane, EMPTY)
    requires !s.coreRejects && !s.rejects(0) && s.commits(0) == Raised(SectionOf(WITH_BGP, BGP))
    ensures var sys := System(EMPTY, 0, [Member(BGP, EMPTY)], plane);
      var (sys', r) := Apply(sys, WITH_BGP, s);
      && AllHold(sys) && r == Failed(0, true)
      && sys'.document == EMPTY && sys'.members[0].applied == Obj(map["65000" := EMPTY]) && !PluginsHold(sys')
  {
    hide SectionOf, Under, DiffDocuments, C.Serves, C.Commit, C.RollBack;
    BgpSection();
    var sys := System(EMPTY, 0, [Member(BGP, EMPTY)], plane);
    var diff := DiffDocuments(EMPTY, WITH_BGP);
    EmptyDiffIff(EMPTY, WITH_BGP);
    if Under(diff, BGP) == {} { UnaffectedIsUnchanged(EMPTY, WITH_BGP, BGP); }
    assert sys.members[0].section == BGP && Touched(sys.members[0], diff);
    assert !C.Conflicts(plane, WITH_BGP);
    assert FirstFailure(sys.members, diff, s.commits, 0) == 0;
    var left := Apply(sys, WITH_BGP, s).0.members[0];
    assert left.section == BGP && left.applied == Obj(map["65000" := EMPTY]) && !Holds(left, EMPTY);
  }

  /** A document whose `ip route` section is `fields`. */
  function IpRoute(fields: map<string, Json>): Json {
    Obj(map["ip" := Obj(map["route" := Obj(fields)])])
  }

  lemma InIpRoute(fields: map<string, Json>, key: string)
    ensures Get(IpRoute(fields), ["ip", "route", key]) == if key in fields then Some(fields[key]) else None
  {
    var p := ["ip", "route", key];
    assert p[1..] == ["route", key] && ["route", key][1..] == [key] && [key][1..] == [];
    assert Get(Obj(fields), [key]) == if key in fields then Some(fields[key]) else None;
    assert Get(Obj(map["route" := Obj(fields)]), ["route", key]) == Get(Obj(fields), [key]);
  }

  const INSTALL: Json := IpRoute(map["install" := Bool(true)])
  const ELSEWHERE: Json := IpRoute(map["install" := Bool(true), "table" := Num(100)])
  const OFF: Json := IpRoute(map["install" := Bool(false)])

  lemma TheDocuments()
    ensures C.Wanted(INSTALL) && C.Wanted(ELSEWHERE) && !C.Wanted(OFF)
    ensures C.SpecOf(INSTALL) != C.SpecOf(ELSEWHERE)
    ensures DiffDocuments(INSTALL, ELSEWHERE) != {} && DiffDocuments(INSTALL, OFF) != {}
  {
    hide DiffDocuments;
    InIpRoute(map["install" := Bool(true)], "install");
    InIpRoute(map["install" := Bool(true)], "table");
    InIpRoute(map["install" := Bool(true), "table" := Num(100)], "install");
    InIpRoute(map["install" := Bool(true), "table" := Num(100)], "table");
    InIpRoute(map["install" := Bool(false)], "install");
    EmptyDiffIff(INSTALL, ELSEWHERE);
    EmptyDiffIff(INSTALL, OFF);
  }

  const FINE := C.Faults(false, false, false)
  const UNFILLED := C.Faults(false, true, false)

  /** An engine serving INSTALL from a netlink sink it built, or was given. */
  function Installing(injected: bool): System {
    System(INSTALL, 0, [],
           C.Plane(true, injected, map[0 := C.Sink(true, true, true)], 0, 1, C.SpecOf(INSTALL), Some(INSTALL)))
  }

  /** A change of table: the new sink cannot be filled, nor can the old one be
      filled again.  It is reported rolled back, with the sink shut. */
  lemma LostSinkIsNotReported(s: Script)
    requires !s.coreRejects
    requires s.core == C.Script(UNFILLED, UNFILLED, false, FINE, FINE, false)
    ensures AllHold(Installing(false))
    ensures var (sys', r) := Apply(Installing(false), ELSEWHERE, s);
      && r == Failed(0, true) && sys'.document == INSTALL
      && sys'.plane.active == 0 && 0 in sys'.plane.sinks && sys'.plane.sinks[0] == C.Sink(true, false, false)
      && !CoreHolds(sys')
  {
    hide DiffDocuments, C.SpecOf, C.Wanted;
    TheDocuments();
  }

  /** Turning installing off on an injected sink, when applying the rest of the
      document raises: reported rolled back, with the sink left shut. */
  lemma InjectedSinkStaysShut(s: Script)
    requires !s.coreRejects
    requires s.core == C.Script(FINE, FINE, true, FINE, FINE, false)
    ensures AllHold(Installing(true))
    ensures var (sys', r) := Apply(Installing(true), OFF, s);
      && r == Failed(0, true) && sys'.document == INSTALL
      && sys'.plane.active == 0 && 0 in sys'.plane.sinks && sys'.plane.sinks[0] == C.Sink(true, false, false)
      && !CoreHolds(sys')
  {
    hide DiffDocuments, C.SpecOf, C.Wanted;
    TheDocuments();
  }
}
