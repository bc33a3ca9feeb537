/** The policy store: a configuration document loaded into named objects,
    leaving alone what did not change. */
module Policy {
  import opened Routes
  import opened Documents

  datatype Kind = V4List | V6List | AsPathList | RouteMap

  /** Which object: names are separate for each kind. */
  datatype Id = Id(kind: Kind, name: string)

  /** The arguments one document entry gives to `add` or `add_clause`. */
  datatype Args = Args(seqno: Json, action: Json, rest: seq<Json>)

  /** What the object classes decide: which arguments they take, which lists a
      match names, and which regexes are safe on AS paths up to a length (0: any). */
  datatype Rules = Rules(accepts: (Kind, Args) -> bool, refs: Json -> set<Id>, fits: (Json, nat) -> bool)

  // ----- reading entries out of a document ------------------------------------------------

  predicate OnlyKeys(entry: Json, keys: set<string>) {
    entry.Obj? && entry.fields.Keys <= keys
  }

  function Given(entry: Json, key: string, default_: Json): Json {
    if entry.Obj? && key in entry.fields then entry.fields[key] else default_
  }

  function Numbered(entry: Json, index: nat, step: nat): Json {
    Given(entry, "seq", Num((index + 1) * step))
  }

  /** `_entry_args`. */
  function PrefixArgs(entry: Json, index: nat): Option<Args> {
    if !OnlyKeys(entry, {"seq", "action", "prefix", "le", "ge"}) then None
    else if "action" !in entry.fields || "prefix" !in entry.fields then None
    else Some(Args(Numbered(entry, index, 5), entry.fields["action"],
                   [entry.fields["prefix"], Given(entry, "le", Num(0)), Given(entry, "ge", Num(0))]))
  }

  /** `_as_path_args`. */
  function AsPathArgs(entry: Json, index: nat): Option<Args> {
    if !OnlyKeys(entry, {"seq", "action", "regex", "pattern"}) then None
    else if "action" !in entry.fields || ("regex" in entry.fields && "pattern" in entry.fields) then None
    else
      var regex := Given(entry, "regex", Given(entry, "pattern", Null));
      if regex == Null then None else Some(Args(Numbered(entry, index, 5), entry.fields["action"], [regex]))
  }

  /** `_clause_args`. */
  function ClauseArgs(entry: Json, index: nat): (r: Option<Args>)
    ensures r.Some? ==> |r.value.rest| == 2
  {
    if !OnlyKeys(entry, {"seq", "action", "match", "set"}) then None
    else if "action" !in entry.fields then None
    else Some(Args(Numbered(entry, index, 10), entry.fields["action"],
      [Given(entry, "match", Null), Given(entry, "set", Null)]))
  }

  function ArgsOf(kind: Kind, entry: Json, index: nat): Option<Args> {
    match kind
    case V4List => PrefixArgs(entry, index)
    case V6List => PrefixArgs(entry, index)
    case AsPathList => AsPathArgs(entry, index)
    case RouteMap => ClauseArgs(entry, index)
  }

  /** `_section`: what is missing, null or below a value is an empty section. */
  function Section(document: Json, keys: seq<string>): Json {
    match Get(document, keys)
    case None => EMPTY
    case Some(node) => if node == Null then EMPTY else node
  }

  function SectionOf(document: Json, kind: Kind): Json {
    match kind
    case V4List => Section(document, ["ip", "prefix-list"])
    case V6List => Section(document, ["ipv6", "prefix-list"])
    case AsPathList => Section(document, ["ip", "as-path-access-list"])
    case RouteMap => Section(document, ["route-map"])
  }

  // ----- validation ------------------------------------------------------------------------

  predicate GoodEntry(rules: Rules, kind: Kind, entry: Json, index: nat) {
    ArgsOf(kind, entry, index).Some? && rules.accepts(kind, ArgsOf(kind, entry, index).value)
  }

  predicate GoodList(rules: Rules, kind: Kind, name: string, entries: Json) {
    name != "" && entries.List? && forall i :: 0 <= i < |entries.items| ==> GoodEntry(rules, kind, entries.items[i], i)
  }

  predicate GoodSection(rules: Rules, document: Json, kind: Kind) {
    SectionOf(document, kind).Obj?
    && forall name | name in SectionOf(document, kind).fields ::
        GoodList(rules, kind, name, SectionOf(document, kind).fields[name])
  }

  /** The document defines every list a clause's match names. */
  predicate Defined(rules: Rules, document: Json, clause: Json, index: nat) {
    var args := ClauseArgs(clause, index);
    args.Some? && forall k | k in rules.refs(args.value.rest[0]) :: Names(document, k)
  }

  predicate Names(document: Json, k: Id) {
    k.kind != RouteMap && SectionOf(document, k.kind).Obj? && k.name in SectionOf(document, k.kind).fields
  }

  /** What `validate` accepts. */
  predicate Acceptable(rules: Rules, document: Json) {
    && (document.Null? || document.Obj?)
    && GoodSection(rules, document, V4List) && GoodSection(rules, document, V6List)
    && GoodSection(rules, document, AsPathList) && GoodSection(rules, document, RouteMap)
    && forall name | name in SectionOf(document, RouteMap).fields ::
         AllDefined(rules, document, SectionOf(document, RouteMap).fields[name])
  }

  /** The regexes one entry of a list of that kind holds. */
  function Regexes(kind: Kind, entry: Json): seq<Json> {
    match kind
    case AsPathList => [Given(entry, "regex", Given(entry, "pattern", Null))]
    case RouteMap =>
      var found := Given(Given(entry, "match", EMPTY), "as-path", Null);
      if found.Str? then [found] else if found.List? then found.items else []
    case _ => []
  }

  predicate EntryFits(rules: Rules, kind: Kind, entry: Json, longest: nat) {
    forall regex | regex in Regexes(kind, entry) :: rules.fits(regex, longest)
  }

  predicate ListFits(rules: Rules, kind: Kind, entries: Json, longest: nat) {
    entries.List? && forall i :: 0 <= i < |entries.items| ==> EntryFits(rules, kind, entries.items[i], longest)
  }

  /** Every regex of a section is safe on the longest AS path it can meet. */
  predicate SectionFits(rules: Rules, document: Json, kind: Kind, longest: nat) {
    var section := SectionOf(document, kind);
    section.Obj? && forall name | name in section.fields :: ListFits(rules, kind, section.fields[name], longest)
  }

  predicate LengthsFit(rules: Rules, document: Json, longest: nat) {
    SectionFits(rules, document, AsPathList, longest) && SectionFits(rules, document, RouteMap, longest)
  }

  predicate AllDefined(rules: Rules, document: Json, clauses: Json) {
    clauses.List? && forall i :: 0 <= i < |clauses.items| ==> Defined(rules, document, clauses.items[i], i)
  }

  /** The entries of every object the document defines. */
  function Wanted(document: Json): map<Id, seq<Json>> {
    WantedOf(document, V4List) + WantedOf(document, V6List) + WantedOf(document, AsPathList) +
      WantedOf(document, RouteMap)
  }

  function WantedOf(document: Json, kind: Kind): (r: map<Id, seq<Json>>)
    ensures forall k | k in r :: k.kind == kind
  {
    var section := SectionOf(document, kind);
    if !section.Obj? then map[]
    else map name | name in section.fields && section.fields[name].List? :: Id(kind, name) := section.fields[name].items
  }

  // ----- loading ------------------------------------------------------------------------------

  /** A policy object's meaning: what was added since it was last cleared, and
      its version. */
  datatype Object = Object(contents: seq<Args>, version: nat)

  /** Building from scratch. */
  function Build(kind: Kind, entries: seq<Json>): seq<Args> {
    seq(|entries|, i requires 0 <= i < |entries| =>
      match ArgsOf(kind, entries[i], i) case Some(args) => args case None => Args(Null, Null, []))
  }

  /** One object after a load: left alone, refilled, or made. */
  function LoadedObject(objects: map<Id, Object>, snapshots: map<Id, seq<Json>>, k: Id, entries: seq<Json>): Object {
    if k in objects && k in snapshots && snapshots[k] == entries then objects[k]
    else Object(Build(k.kind, entries), (if k in objects then objects[k].version + 1 else 0) + |entries|)
  }

  function Loaded(objects: map<Id, Object>, snapshots: map<Id, seq<Json>>, wanted: map<Id, seq<Json>>)
    : map<Id, Object>
  {
    map k | k in wanted :: LoadedObject(objects, snapshots, k, wanted[k])
  }

  predicate Differs(snapshots: map<Id, seq<Json>>, wanted: map<Id, seq<Json>>, k: Id) {
    (k in snapshots) != (k in wanted) || (k in wanted && snapshots[k] != wanted[k])
  }

  /** The objects created, changed or removed. */
  function Changed(snapshots: map<Id, seq<Json>>, wanted: map<Id, seq<Json>>): set<Id> {
    set k | k in snapshots.Keys + wanted.Keys && Differs(snapshots, wanted, k)
  }

  /** Every object holds what its recorded configuration builds. */
  ghost predicate Consistent(objects: map<Id, Object>, snapshots: map<Id, seq<Json>>) {
    objects.Keys == snapshots.Keys && forall k | k in snapshots :: objects[k].contents == Build(k.kind, snapshots[k])
  }

  datatype Policies = Policies(objects: map<Id, Object>, snapshots: map<Id, seq<Json>>)

  ghost predicate Faithful(p: Policies) {
    Consistent(p.objects, p.snapshots)
  }

  function AfterLoad(p: Policies, document: Json): Policies {
    Policies(Loaded(p.objects, p.snapshots, Wanted(document)), Wanted(document))
  }

  /** How many objects a load creates, changes or removes. */
  function Moves(p: Policies, document: Json): nat {
    |Changed(p.snapshots, Wanted(document))|
  }

  /** None exactly when the document defines the same configuration as before. */
  lemma NothingMovesIff(p: Policies, document: Json)
    requires Faithful(p)
    ensures Moves(p, document) == 0 <==> p.snapshots == Wanted(document)
    ensures Moves(p, document) == 0 ==> AfterLoad(p, document) == p
  {
    hide Wanted;
    var snaps, wanted := p.snapshots, Wanted(document);
    NoneDiffers(snaps, wanted);
    if snaps == wanted {
      RepeatChangesNothing(p.objects, snaps, wanted);
      assert Loaded(p.objects, snaps, wanted) == p.objects;
    }
    if Changed(snaps, wanted) == {} { assert |Changed(snaps, wanted)| == 0; }
  }

  lemma NoneDiffers(snaps: map<Id, seq<Json>>, wanted: map<Id, seq<Json>>)
    ensures Changed(snaps, wanted) == {} <==> snaps == wanted
  {
    if Changed(snaps, wanted) == {} {
      forall k ensures !Differs(snaps, wanted, k) { assert k !in Changed(snaps, wanted); }
      forall k ensures k in snaps <==> k in wanted { assert !Differs(snaps, wanted, k); }
      forall k | k in snaps ensures snaps[k] == wanted[k] { assert !Differs(snaps, wanted, k); }
    }
  }

  lemma LoadFaithful(p: Policies, document: Json)
    requires Faithful(p)
    ensures Faithful(AfterLoad(p, document))
  {
    LoadIsRebuild(p.objects, p.snapshots, Wanted(document));
  }

  /** Incremental loading is rebuilding: the names and contents depend only on the
      document loaded, whatever was there before. */
  lemma LoadIsRebuild(objects: map<Id, Object>, snapshots: map<Id, seq<Json>>, wanted: map<Id, seq<Json>>)
    requires Consistent(objects, snapshots)
    ensures var after := Loaded(objects, snapshots, wanted);
      && Consistent(after, wanted) && after.Keys == wanted.Keys
      && forall k | k in wanted ::
          after[k].contents == Loaded(map[], map[], wanted)[k].contents == Build(k.kind, wanted[k])
  {
  }

  /** A prefix-list of one entry, and a route-map of one clause that matches `named`. */
  function SmallDocument(named: string): Json {
    Obj(map["ip" := Obj(map["prefix-list" := Obj(map["A" := List([SmallEntry()])])]),
            "route-map" := Obj(map["M" := List([SmallClause(named)])])])
  }

  function SmallEntry(): Json {
    Obj(map["action" := Str("permit"), "prefix" := Str("10.0.0.0/8"), "le" := Num(24)])
  }

  function SmallClause(named: string): Json {
    Obj(map["action" := Str("permit"), "match" := Obj(map["ip-prefix-list" := Str(named)])])
  }

  /** Such a document is accepted exactly when the entry and the clause are, and the
      list the clause names is the one that is there. */
  lemma SmallDocumentAcceptedIff(rules: Rules, named: string)
    requires rules.refs(Obj(map["ip-prefix-list" := Str(named)])) == {Id(V4List, named)}
    ensures Acceptable(rules, SmallDocument(named)) <==>
      && rules.accepts(V4List, Args(Num(5), Str("permit"), [Str("10.0.0.0/8"), Num(24), Num(0)]))
      && rules.accepts(RouteMap, Args(Num(10), Str("permit"), [Obj(map["ip-prefix-list" := Str(named)]), Null]))
      && named == "A"
  {
    var d := SmallDocument(named);
    GetTwo(d, "ip", "prefix-list");
    GetTwo(d, "ipv6", "prefix-list");
    GetTwo(d, "ip", "as-path-access-list");
    GetField(d, "route-map");
    hide Get, GoodSection, GoodList, AllDefined, Acceptable, SmallEntry, SmallClause;
    assert "ip" != "route-map" && "ip" != "ipv6" && "prefix-list" != "as-path-access-list" && "route-map" != "ipv6";
    assert SectionOf(d, V6List) == EMPTY && SectionOf(d, AsPathList) == EMPTY;
    SmallLists(rules, d, named);
    SmallNames(rules, d, named);
    NoLists(rules, d, V6List);
    NoLists(rules, d, AsPathList);
    SmallIs(rules, d, named);
  }

  lemma SmallIs(rules: Rules, d: Json, named: string)
    requires d.Obj? && SectionOf(d, RouteMap) == Obj(map["M" := List([SmallClause(named)])])
    requires GoodSection(rules, d, V6List) && GoodSection(rules, d, AsPathList)
    ensures Acceptable(rules, d) <==>
      GoodSection(rules, d, V4List) && GoodSection(rules, d, RouteMap)
        && AllDefined(rules, d, List([SmallClause(named)]))
  {
    hide SectionOf, GoodSection, AllDefined, SmallClause;
    assert "M" in SectionOf(d, RouteMap).fields;
  }

  lemma GetTwo(d: Json, a: string, b: string)
    ensures Get(d, [a, b]) == match FieldOf(d, a) case None => None case Some(v) => FieldOf(v, b)
  {
    GetField(d, a);
    GetBelow(d, [a], b);
    assert [a] + [b] == [a, b];
  }

  lemma NoLists(rules: Rules, d: Json, kind: Kind)
    requires SectionOf(d, kind) == EMPTY
    ensures GoodSection(rules, d, kind)
  {
  }

  lemma OneList(rules: Rules, d: Json, kind: Kind, name: string, entry: Json)
    requires SectionOf(d, kind) == Obj(map[name := List([entry])]) && name != ""
    ensures GoodSection(rules, d, kind) <==> GoodEntry(rules, kind, entry, 0)
  {
    hide SectionOf, GoodEntry;
    assert name in SectionOf(d, kind).fields;
    assert List([entry]).items[0] == entry;
  }

  lemma SmallLists(rules: Rules, d: Json, named: string)
    requires SectionOf(d, V4List) == Obj(map["A" := List([SmallEntry()])])
    requires SectionOf(d, RouteMap) == Obj(map["M" := List([SmallClause(named)])])
    ensures GoodSection(rules, d, V4List) <==>
      rules.accepts(V4List, Args(Num(5), Str("permit"), [Str("10.0.0.0/8"), Num(24), Num(0)]))
    ensures GoodSection(rules, d, RouteMap) <==>
      rules.accepts(RouteMap, Args(Num(10), Str("permit"), [Obj(map["ip-prefix-list" := Str(named)]), Null]))
  {
    hide SectionOf, GoodSection;
    OneList(rules, d, V4List, "A", SmallEntry());
    OneList(rules, d, RouteMap, "M", SmallClause(named));
  }

  lemma SmallNames(rules: Rules, d: Json, named: string)
    requires rules.refs(Obj(map["ip-prefix-list" := Str(named)])) == {Id(V4List, named)}
    requires SectionOf(d, V4List) == Obj(map["A" := List([SmallEntry()])])
    ensures AllDefined(rules, d, List([SmallClause(named)])) <==> named == "A"
  {
    hide SectionOf;
    var clause := SmallClause(named);
    assert List([clause]).items[0] == clause;
    assert ClauseArgs(clause, 0).value.rest[0] == Obj(map["ip-prefix-list" := Str(named)]);
    assert Defined(rules, d, clause, 0) <==> Names(d, Id(V4List, named));
  }

  // ----- what a loaded object holds ---------------------------------------------------------

  /** A field of an entry, or what stands for it. */
  function FieldOr(entry: Json, key: string, default_: Json): Json {
    match Get(entry, [key]) case None => default_ case Some(v) => v
  }

  /** After any load of an accepted document, a prefix-list holds its entries in order:
      the number given, or five for each place; the action, the prefix, and the two
      bounds, `le` before `ge`, 0 where absent. */
  lemma PrefixListHolds(rules: Rules, p: Policies, document: Json, v6: bool, name: string, items: seq<Json>)
    requires Faithful(p) && Acceptable(rules, document)
    requires Get(document, [if v6 then "ipv6" else "ip", "prefix-list", name]) == Some(List(items))
    ensures var k, after := Id(if v6 then V6List else V4List, name), AfterLoad(p, document).objects;
      && k in after && |after[k].contents| == |items|
      && forall i :: 0 <= i < |items| ==>
          && Get(items[i], ["action"]).Some? && Get(items[i], ["prefix"]).Some?
          && after[k].contents[i].seqno == FieldOr(items[i], "seq", Num(5 * (i + 1)))
          && after[k].contents[i].action == Get(items[i], ["action"]).value
          && after[k].contents[i].rest ==
              [Get(items[i], ["prefix"]).value, FieldOr(items[i], "le", Num(0)), FieldOr(items[i], "ge", Num(0))]
  {
    hide Acceptable, GoodList, Wanted, GoodSection;
    var kind := if v6 then V6List else V4List;
    ListIsGood(rules, document, kind, [if v6 then "ipv6" else "ip", "prefix-list"], name, items);
    LoadIsRebuild(p.objects, p.snapshots, Wanted(document));
    forall i | 0 <= i < |items| ensures PrefixArgs(items[i], i).Some? {
      assert ArgsOf(kind, items[i], i).Some?;
    }
    forall i, key | 0 <= i < |items| ensures Get(items[i], [key]) == FieldOf(items[i], key) { GetField(items[i], key); }
  }

  function FieldOf(entry: Json, key: string): Option<Json> {
    if entry.Obj? && key in entry.fields then Some(entry.fields[key]) else None
  }

  lemma GetField(entry: Json, key: string)
    ensures Get(entry, [key]) == FieldOf(entry, key)
  {
  }

  /** An AS-path list: the regex, under either of its names. */
  lemma AsPathListHolds(rules: Rules, p: Policies, document: Json, name: string, items: seq<Json>)
    requires Faithful(p) && Acceptable(rules, document)
    requires Get(document, ["ip", "as-path-access-list", name]) == Some(List(items))
    ensures var k, after := Id(AsPathList, name), AfterLoad(p, document).objects;
      && k in after && |after[k].contents| == |items|
      && forall i :: 0 <= i < |items| ==>
          && (Get(items[i], ["regex"]).Some? <==> Get(items[i], ["pattern"]).None?) && Get(items[i], ["action"]).Some?
          && after[k].contents[i].seqno == FieldOr(items[i], "seq", Num(5 * (i + 1)))
          && after[k].contents[i].action == Get(items[i], ["action"]).value
          && after[k].contents[i].rest == [FieldOr(items[i], "regex", FieldOr(items[i], "pattern", Null))]
  {
    hide Acceptable, GoodList, Wanted, GoodSection;
    ListIsGood(rules, document, AsPathList, ["ip", "as-path-access-list"], name, items);
    LoadIsRebuild(p.objects, p.snapshots, Wanted(document));
    forall i | 0 <= i < |items| ensures AsPathArgs(items[i], i).Some? {
      assert ArgsOf(AsPathList, items[i], i).Some?;
    }
    forall i, key | 0 <= i < |items| ensures Get(items[i], [key]) == FieldOf(items[i], key) { GetField(items[i], key); }
  }

  /** A route-map: ten for each place, and what to match before what to set. */
  lemma RouteMapHolds(rules: Rules, p: Policies, document: Json, name: string, items: seq<Json>)
    requires Faithful(p) && Acceptable(rules, document)
    requires Get(document, ["route-map", name]) == Some(List(items))
    ensures var k, after := Id(RouteMap, name), AfterLoad(p, document).objects;
      && k in after && |after[k].contents| == |items|
      && forall i :: 0 <= i < |items| ==>
          && Get(items[i], ["action"]).Some?
          && after[k].contents[i].seqno == FieldOr(items[i], "seq", Num(10 * (i + 1)))
          && after[k].contents[i].action == Get(items[i], ["action"]).value
          && after[k].contents[i].rest == [FieldOr(items[i], "match", Null), FieldOr(items[i], "set", Null)]
  {
    hide Acceptable, GoodList, Wanted, GoodSection;
    ListIsGood(rules, document, RouteMap, ["route-map"], name, items);
    LoadIsRebuild(p.objects, p.snapshots, Wanted(document));
    forall i | 0 <= i < |items| ensures ClauseArgs(items[i], i).Some? {
      assert ArgsOf(RouteMap, items[i], i).Some?;
    }
    forall i, key | 0 <= i < |items| ensures Get(items[i], [key]) == FieldOf(items[i], key) { GetField(items[i], key); }
  }

  /** A list named in an accepted document is wanted as it stands, and well formed. */
  lemma ListIsGood(rules: Rules, document: Json, kind: Kind, section: Path, name: string, items: seq<Json>)
    requires Acceptable(rules, document) && Get(document, section + [name]) == Some(List(items))
    requires SectionOf(document, kind) == Section(document, section)
    ensures Id(kind, name) in Wanted(document) && Wanted(document)[Id(kind, name)] == items
    ensures forall i :: 0 <= i < |items| ==> ArgsOf(kind, items[i], i).Some?
  {
    hide SectionOf, Acceptable, GoodSection, Wanted;
    ListIsNamed(document, section, name, items);
    NamedIsWanted(document, kind, name, items);
    EachSectionIsGood(rules, document, kind);
    NamedIsGood(rules, document, kind, name, items);
  }

  lemma ListIsNamed(document: Json, section: Path, name: string, items: seq<Json>)
    requires Get(document, section + [name]) == Some(List(items))
    ensures FieldOf(Section(document, section), name) == Some(List(items))
  {
    GetBelow(document, section, name);
  }

  lemma NamedIsWanted(document: Json, kind: Kind, name: string, items: seq<Json>)
    requires FieldOf(SectionOf(document, kind), name) == Some(List(items))
    ensures Id(kind, name) in Wanted(document) && Wanted(document)[Id(kind, name)] == items
  {
    hide SectionOf;
    assert Id(kind, name) in WantedOf(document, kind);
  }

  lemma EachSectionIsGood(rules: Rules, document: Json, kind: Kind)
    requires Acceptable(rules, document)
    ensures GoodSection(rules, document, kind)
  {
    hide SectionOf, GoodSection, AllDefined;
  }

  lemma NamedIsGood(rules: Rules, document: Json, kind: Kind, name: string, items: seq<Json>)
    requires GoodSection(rules, document, kind) && FieldOf(SectionOf(document, kind), name) == Some(List(items))
    ensures forall i :: 0 <= i < |items| ==> ArgsOf(kind, items[i], i).Some?
  {
    hide ArgsOf, SectionOf;
    assert GoodList(rules, kind, name, List(items));
    forall i | 0 <= i < |items| ensures ArgsOf(kind, items[i], i).Some? {
      assert GoodEntry(rules, kind, List(items).items[i], i);
    }
  }

  lemma {:induction false} GetBelow(d: Json, section: Path, name: string)
    ensures Get(d, section + [name]) == match Get(d, section) case None => None case Some(v) => FieldOf(v, name)
    decreases |section|
  {
    if section == [] {
      assert section + [name] == [name];
    } else {
      assert (section + [name])[1..] == section[1..] + [name];
      if d.Obj? && section[0] in d.fields { GetBelow(d.fields[section[0]], section[1..], name); }
    }
  }

  /** Loading the same document again changes nothing at all. */
  lemma RepeatChangesNothing(objects: map<Id, Object>, snapshots: map<Id, seq<Json>>, wanted: map<Id, seq<Json>>)
    ensures Loaded(Loaded(objects, snapshots, wanted), wanted, wanted) == Loaded(objects, snapshots, wanted)
    ensures Changed(wanted, wanted) == {}
  {
  }

  /** A surviving object's version rises exactly when its configuration changed,
      and otherwise stays. */
  lemma VersionRisesIff(objects: map<Id, Object>, snapshots: map<Id, seq<Json>>, wanted: map<Id, seq<Json>>, k: Id)
    requires Consistent(objects, snapshots) && k in objects && k in wanted
    ensures var v, v' := objects[k].version, Loaded(objects, snapshots, wanted)[k].version;
      && v' >= v && (v' > v <==> snapshots[k] != wanted[k])
  {
  }

  /** The versions of a store over a run of accepted documents. */
  function AfterLoads(objects: map<Id, Object>, snapshots: map<Id, seq<Json>>,
        docs: seq<map<Id, seq<Json>>>): map<Id, Object>
    decreases |docs|
  {
    if docs == [] then objects
    else AfterLoads(Loaded(objects, snapshots, docs[0]), docs[0], docs[1..])
  }

  /** Over any run of documents: contents depend only on the last one. */
  lemma {:induction false} RunIsLastDocument(objects: map<Id, Object>, snapshots: map<Id, seq<Json>>,
      docs: seq<map<Id, seq<Json>>>)
    requires Consistent(objects, snapshots) && docs != []
    ensures Consistent(AfterLoads(objects, snapshots, docs), docs[|docs| - 1])
    decreases |docs|
  {
    LoadIsRebuild(objects, snapshots, docs[0]);
    var after := Loaded(objects, snapshots, docs[0]);
    if |docs| == 1 {
      assert AfterLoads(objects, snapshots, docs) == AfterLoads(after, docs[0], docs[1..]) == after;
    } else {
      RunIsLastDocument(after, docs[0], docs[1..]);
    }
  }

  /** Every document of a run defines `k`. */
  predicate Throughout(docs: seq<map<Id, seq<Json>>>, k: Id) {
    forall i :: 0 <= i < |docs| ==> k in docs[i]
  }

  /** Every document of a run defines `k`, and as `entries`. */
  predicate Constantly(docs: seq<map<Id, seq<Json>>>, k: Id, entries: seq<Json>) {
    forall i :: 0 <= i < |docs| ==> k in docs[i] && docs[i][k] == entries
  }

  /** An object that survives a whole run never loses version, and ends with the
      version it had exactly when no document of the run changed it. */
  lemma {:induction false} VersionStaysIff(objects: map<Id, Object>, snapshots: map<Id, seq<Json>>,
      docs: seq<map<Id, seq<Json>>>, k: Id)
    requires Consistent(objects, snapshots) && k in objects && Throughout(docs, k)
    ensures var after := AfterLoads(objects, snapshots, docs);
      && k in after && after[k].version >= objects[k].version
      && (after[k].version == objects[k].version <==> Constantly(docs, k, snapshots[k]))
    decreases |docs|
  {
    if docs != [] {
      LoadIsRebuild(objects, snapshots, docs[0]);
      VersionRisesIff(objects, snapshots, docs[0], k);
      VersionStaysIff(Loaded(objects, snapshots, docs[0]), docs[0], docs[1..], k);
      ConstantlySplits(docs, k, snapshots[k]);
    }
  }

  lemma ConstantlySplits(docs: seq<map<Id, seq<Json>>>, k: Id, entries: seq<Json>)
    requires docs != [] && k in docs[0]
    ensures Constantly(docs, k, entries) <==> docs[0][k] == entries && Constantly(docs[1..], k, entries)
  {
    if docs[0][k] == entries && Constantly(docs[1..], k, entries) {
      forall i | 0 <= i < |docs| ensures k in docs[i] && docs[i][k] == entries {
        if i > 0 { assert docs[i] == docs[1..][i - 1]; }
      }
    }
    if Constantly(docs, k, entries) {
      forall i | 0 <= i < |docs[1..]| ensures k in docs[1..][i] && docs[1..][i][k] == entries {
        assert docs[1..][i] == docs[i + 1];
      }
    }
  }

  /** So a version is reused for another configuration only across a removal. */
  lemma ReuseNeedsRemoval(objects: map<Id, Object>, snapshots: map<Id, seq<Json>>, docs: seq<map<Id, seq<Json>>>, k: Id)
    requires Consistent(objects, snapshots) && docs != [] && k in objects
    requires k in docs[|docs| - 1] && docs[|docs| - 1][k] != snapshots[k]
    requires k in AfterLoads(objects, snapshots, docs)
    requires AfterLoads(objects, snapshots, docs)[k].version == objects[k].version
    ensures exists i :: 0 <= i < |docs| && k !in docs[i]
  {
    if Throughout(docs, k) { VersionStaysIff(objects, snapshots, docs, k); }
  }

  /** And across one it is reused exactly when the list comes back with as many
      entries as its version counted, whatever they are. */
  lemma VersionReusedIff(objects: map<Id, Object>, snapshots: map<Id, seq<Json>>,
      gone: map<Id, seq<Json>>, wanted: map<Id, seq<Json>>, k: Id)
    requires Consistent(objects, snapshots) && k in objects && k !in gone && k in wanted
    ensures var again := Loaded(Loaded(objects, snapshots, gone), gone, wanted);
      && again[k].contents == Build(k.kind, wanted[k])
      && (again[k].version == objects[k].version <==> |wanted[k]| == objects[k].version)
  {
  }

  /** It does happen: two prefix lists with nothing in common and one version. */
  lemma VersionReusedAfterRemoval(permit: Json, deny: Json)
    requires permit == Obj(map["action" := Str("permit"), "prefix" := Str("10.0.0.0/8")])
    requires deny == Obj(map["action" := Str("deny"), "prefix" := Str("0.0.0.0/0")])
    ensures var k := Id(V4List, "edge");
      var first := Loaded(map[], map[], map[k := [permit]]);
      var again := Loaded(Loaded(first, map[k := [permit]], map[]), map[], map[k := [deny]]);
      && ArgsOf(V4List, permit, 0).Some? && ArgsOf(V4List, deny, 0).Some?
      && first[k].version == again[k].version && first[k].contents != again[k].contents
  {
    var k := Id(V4List, "edge");
    var first := Loaded(map[], map[], map[k := [permit]]);
    assert permit.fields["action"] != deny.fields["action"] by { assert "permit"[0] != "deny"[0]; }
    assert first[k].contents[0].action == permit.fields["action"];
    assert Build(V4List, [deny])[0].action == deny.fields["action"];
  }

  lemma WantedAt(document: Json, k: Id)
    ensures k in Wanted(document) <==> k in WantedOf(document, k.kind)
    ensures k in Wanted(document) ==> Wanted(document)[k] == WantedOf(document, k.kind)[k]
  {
    hide WantedOf;
  }

  /** A name the document defines has an object after the load. */
  lemma DefinedIsWanted(rules: Rules, document: Json, k: Id)
    requires GoodSection(rules, document, k.kind) && Names(document, k)
    ensures k in Wanted(document)
  {
    hide GoodEntry;
    WantedAt(document, k);
    assert GoodList(rules, k.kind, k.name, SectionOf(document, k.kind).fields[k.name]);
  }

  /** Every reference a loaded route-map makes resolves in the store it was loaded
      into. */
  lemma ReferencesResolve(rules: Rules, document: Json, objects: map<Id, Object>, snapshots: map<Id, seq<Json>>,
      m: Id, i: nat, target: Id)
    requires Acceptable(rules, document) && Consistent(objects, snapshots)
    requires m.kind == RouteMap && m in Wanted(document) && i < |Wanted(document)[m]|
    requires ClauseArgs(Wanted(document)[m][i], i).Some?
    requires target in rules.refs(ClauseArgs(Wanted(document)[m][i], i).value.rest[0])
    ensures var after := Loaded(objects, snapshots, Wanted(document));
      && m in after && |after[m].contents| == |Wanted(document)[m]|
      && after[m].contents[i] == ClauseArgs(Wanted(document)[m][i], i).value
      && target in after
  {
    hide GoodEntry, GoodSection, GoodList, LoadedObject, Wanted, Consistent, SectionOf, ClauseArgs;
    WantedAt(document, m);
    LoadIsRebuild(objects, snapshots, Wanted(document));
    var clauses := SectionOf(document, RouteMap).fields[m.name];
    assert AllDefined(rules, document, clauses);
    assert clauses.items == Wanted(document)[m];
    assert Defined(rules, document, clauses.items[i], i);
    assert Names(document, target);
    assert GoodSection(rules, document, target.kind);
    DefinedIsWanted(rules, document, target);
  }
}
