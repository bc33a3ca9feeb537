/** The policy store as it runs: objects refilled in place, name by name. */
module PolicyStore {
  import opened Routes
  import opened Documents
  import opened Policy

  /** A prefix-list, as-path list or route-map.  Clearing and adding each move
      the version. */
  class PolicyObject {
    const kind: Kind
    var contents: seq<Args>
    var version: nat

    constructor (kind: Kind)
      ensures this.kind == kind && Value() == Object([], 0)
    {
      this.kind, contents, version := kind, [], 0;
    }

    function Value(): Object
      reads this
    {
      Object(contents, version)
    }

    method Clear()
      modifies this
      ensures Value() == Object([], old(version) + 1)
    {
      contents, version := [], version + 1;
    }

    /** False is the ValueError of arguments the object does not take. */
    method Add(rules: Rules, args: Args) returns (ok: bool)
      modifies this
      ensures ok <==> rules.accepts(kind, args)
      ensures ok ==> Value() == Object(old(contents) + [args], old(version) + 1)
      ensures !ok ==> Value() == old(Value())
    {
      ok := rules.accepts(kind, args);
      if ok {
        contents, version := contents + [args], version + 1;
      }
    }
  }

  /** Key `k` is as loading `wanted` leaves it. */
  ghost predicate IsLoaded(before: map<Id, Object>, snaps: map<Id, seq<Json>>, wanted: map<Id, seq<Json>>,
      now: map<Id, Object>, snapsNow: map<Id, seq<Json>>, k: Id) {
    && (k in now <==> k in wanted) && (k in snapsNow <==> k in wanted)
    && (k in wanted ==> now[k] == LoadedObject(before, snaps, k, wanted[k]) && snapsNow[k] == wanted[k])
  }

  /** Key `k` is as it was. */
  ghost predicate IsSame(before: map<Id, Object>, snaps: map<Id, seq<Json>>,
      now: map<Id, Object>, snapsNow: map<Id, seq<Json>>, k: Id) {
    && (k in now <==> k in before) && (k in before ==> now[k] == before[k])
    && (k in snapsNow <==> k in snaps) && (k in snaps ==> snapsNow[k] == snaps[k])
  }

  /** The keys in `done` are loaded, the others as they were. */
  ghost predicate Midway(before: map<Id, Object>, snaps: map<Id, seq<Json>>, wanted: map<Id, seq<Json>>,
      now: map<Id, Object>, snapsNow: map<Id, seq<Json>>, done: set<Id>) {
    forall k :: if k in done then IsLoaded(before, snaps, wanted, now, snapsNow, k)
        else IsSame(before, snaps, now, snapsNow, k)
  }

  class Store {
    const rules: Rules
    var objects: map<Id, PolicyObject>
    var snapshots: map<Id, seq<Json>>
    var revision: nat
    var loads: nat
    var changes: nat

    constructor (rules: Rules)
      ensures this.rules == rules && Valid() && Objects() == map[] && snapshots == map[]
      ensures revision == 0 && loads == 0 && changes == 0
    {
      this.rules, objects, snapshots, revision, loads, changes := rules, map[], map[], 0, 0, 0;
    }

    ghost function Objects(): map<Id, Object>
      reads this`objects, objects.Values
    {
      map k | k in objects :: objects[k].Value()
    }

    ghost function State(): Policies
      reads this`objects, this`snapshots, objects.Values
    {
      Policies(Objects(), snapshots)
    }

    ghost predicate Separate()
      reads this`objects, objects.Values
    {
      && (forall k | k in objects :: objects[k].kind == k.kind)
      && (forall j, k | j in objects && k in objects && j != k :: objects[j] != objects[k])
    }

    ghost predicate Valid()
      reads this`objects, this`snapshots, objects.Values
    {
      Separate() && Faithful(State())
    }

    // ----- validation -----------------------------------------------------------------

    /** Build one list in a scratch object. */
    method ScratchList(kind: Kind, name: string, entries: Json) returns (ok: bool)
      ensures ok <==> GoodList(rules, kind, name, entries)
    {
      if name == "" || !entries.List? {
        return false;
      }
      var scratch := new PolicyObject(kind);
      for i := 0 to |entries.items|
        invariant forall j :: 0 <= j < i ==> GoodEntry(rules, kind, entries.items[j], j)
      {
        var args := ArgsOf(kind, entries.items[i], i);
        if args == None {
          assert !GoodEntry(rules, kind, entries.items[i], i);
          return false;
        }
        var taken := scratch.Add(rules, args.value);
        if !taken {
          assert !GoodEntry(rules, kind, entries.items[i], i);
          return false;
        }
      }
      ok := true;
    }

    method ValidateSection(document: Json, kind: Kind) returns (ok: bool)
      ensures ok <==> GoodSection(rules, document, kind)
    {
      var section := SectionOf(document, kind);
      if !section.Obj? {
        return false;
      }
      var todo := section.fields.Keys;
      while todo != {}
        invariant todo <= section.fields.Keys
        invariant forall name | name in section.fields && name !in todo ::
            GoodList(rules, kind, name, section.fields[name])
        decreases todo
      {
        var name :| name in todo;
        var good := ScratchList(kind, name, section.fields[name]);
        if !good {
          return false;
        }
        todo := todo - {name};
      }
      ok := true;
    }

    /** Every name a route-map's clauses refer to is defined. */
    method ValidateReferences(document: Json) returns (ok: bool)
      requires GoodSection(rules, document, RouteMap)
      ensures ok <==> forall name | name in SectionOf(document, RouteMap).fields ::
        AllDefined(rules, document, SectionOf(document, RouteMap).fields[name])
    {
      var maps := SectionOf(document, RouteMap).fields;
      var todo := maps.Keys;
      while todo != {}
        invariant todo <= maps.Keys
        invariant forall name | name in maps && name !in todo :: AllDefined(rules, document, maps[name])
        decreases todo
      {
        var name :| name in todo;
        assert GoodList(rules, RouteMap, name, maps[name]);
        var clauses := maps[name].items;
        for i := 0 to |clauses|
          invariant forall j :: 0 <= j < i ==> Defined(rules, document, clauses[j], j)
        {
          if !Defined(rules, document, clauses[i], i) {
            assert !AllDefined(rules, document, maps[name]);
            return false;
          }
        }
        todo := todo - {name};
      }
      ok := true;
    }

    /** Every regex of one section against the longest AS path: a pass of its own,
        after the structural one. */
    method ValidateLengths(document: Json, kind: Kind, longest: nat) returns (ok: bool)
      requires GoodSection(rules, document, kind)
      ensures ok <==> SectionFits(rules, document, kind, longest)
    {
      hide GoodEntry, EntryFits;
      var lists := SectionOf(document, kind).fields;
      var todo := lists.Keys;
      while todo != {}
        invariant todo <= lists.Keys
        invariant forall name | name in lists && name !in todo :: ListFits(rules, kind, lists[name], longest)
        decreases todo
      {
        var name :| name in todo;
        assert GoodList(rules, kind, name, lists[name]);
        var entries := lists[name].items;
        for i := 0 to |entries|
          invariant forall j :: 0 <= j < i ==> EntryFits(rules, kind, entries[j], longest)
        {
          var fits := RegexesFit(Regexes(kind, entries[i]), longest);
          EntryFitsIff(rules, kind, entries[i], longest);
          if !fits {
            assert !ListFits(rules, kind, lists[name], longest);
            return false;
          }
        }
        todo := todo - {name};
      }
      ok := true;
    }

    method RegexesFit(regexes: seq<Json>, longest: nat) returns (ok: bool)
      ensures ok <==> forall regex | regex in regexes :: rules.fits(regex, longest)
    {
      for i := 0 to |regexes|
        invariant forall j :: 0 <= j < i ==> rules.fits(regexes[j], longest)
      {
        if !rules.fits(regexes[i], longest) {
          return false;
        }
      }
      ok := true;
    }

    /** `validate`: changes nothing.  `longest` is None when no protocol hands AS
        paths to policy. */
    method Validate(document: Json, longest: Option<nat>) returns (ok: bool)
      ensures ok <==> Acceptable(rules, document) && (longest.Some? ==> LengthsFit(rules, document, longest.value))
    {
      hide GoodSection, AllDefined, SectionFits;
      if !document.Null? && !document.Obj? {
        return false;
      }
      ok := ValidateSection(document, V4List);
      if !ok { return; }
      ok := ValidateSection(document, V6List);
      if !ok { return; }
      ok := ValidateSection(document, AsPathList);
      if !ok { return; }
      ok := ValidateSection(document, RouteMap);
      if !ok { return; }
      ok := ValidateReferences(document);
      if !ok || longest == None { return; }
      ok := ValidateLengths(document, AsPathList, longest.value);
      if !ok { return; }
      ok := ValidateLengths(document, RouteMap, longest.value);
    }

    // ----- loading -----------------------------------------------------------------------

    /** Fill an empty object; what validation accepted cannot fail here. */
    method Fill(o: PolicyObject, entries: seq<Json>)
      requires o.contents == []
      requires forall i :: 0 <= i < |entries| ==> GoodEntry(rules, o.kind, entries[i], i)
      modifies o
      ensures o.Value() == Object(Build(o.kind, entries), old(o.version) + |entries|)
    {
      for i := 0 to |entries|
        invariant o.contents == Build(o.kind, entries)[..i] && o.version == old(o.version) + i
      {
        assert GoodEntry(rules, o.kind, entries[i], i);
        var taken := o.Add(rules, ArgsOf(o.kind, entries[i], i).value);
        assert taken;
      }
    }

    /** One name of the document: skipped if its configuration is the recorded one. */
    method Refresh(k: Id, entries: seq<Json>) returns (changed: bool)
      requires Separate() && forall i :: 0 <= i < |entries| ==> GoodEntry(rules, k.kind, entries[i], i)
      modifies this`objects, this`snapshots, objects.Values
      ensures Separate() && k in objects
          && (if k in old(objects) then objects[k] == old(objects[k]) else fresh(objects[k]))
      ensures objects == old(objects)[k := objects[k]]
      ensures Objects() == old(Objects())[k := old(LoadedObject(Objects(), snapshots, k, entries))]
      ensures snapshots == old(snapshots)[k := entries]
      ensures !changed <==> k in old(objects) && k in old(snapshots) && old(snapshots)[k] == entries
    {
      hide LoadedObject, Build, GoodEntry;
      ghost var before := Objects();
      LoadedCases(before, snapshots, k, entries);
      if k in objects && k in snapshots && snapshots[k] == entries {
        changed := false;
        assert objects == objects[k := objects[k]] && snapshots == snapshots[k := entries];
        return;
      }
      changed := true;
      Refill(k, entries);
      snapshots := snapshots[k := entries];
    }

    /** The object of that name, made or cleared, and filled. */
    method Refill(k: Id, entries: seq<Json>)
      requires Separate() && forall i :: 0 <= i < |entries| ==> GoodEntry(rules, k.kind, entries[i], i)
      modifies this`objects, objects.Values
      ensures Separate() && k in objects
          && (if k in old(objects) then objects[k] == old(objects[k]) else fresh(objects[k]))
      ensures objects == old(objects)[k := objects[k]]
      ensures Objects() == old(Objects())[k := Object(Build(k.kind, entries),
                (if k in old(objects) then old(objects[k].version) + 1 else 0) + |entries|)]
    {
      hide Build, GoodEntry;
      Emptied(k);
      label emptied:
      Fill(objects[k], entries);
      OneTouched@emptied(k);
    }

    twostate lemma OneTouched(k: Id)
      requires objects == old(objects) && k in objects
      requires forall x | x in objects && x != k :: objects[x].Value() == old(objects[x].Value())
      ensures Objects() == old(Objects())[k := objects[k].Value()]
    {
    }

    /** The object of that name cleared, or a new one. */
    method Emptied(k: Id)
      requires Separate()
      modifies this`objects, objects.Values
      ensures Separate() && k in objects
          && (if k in old(objects) then objects[k] == old(objects[k]) else fresh(objects[k]))
      ensures objects == old(objects)[k := objects[k]]
      ensures objects[k].Value() == Object([], if k in old(objects) then old(objects[k].version) + 1 else 0)
      ensures Objects() == old(Objects())[k := objects[k].Value()]
    {
      if k in objects {
        objects[k].Clear();
        assert objects == objects[k := objects[k]];
      } else {
        var o := new PolicyObject(k.kind);
        objects := objects[k := o];
      }
    }

    /** One name the document no longer has. */
    method Remove(k: Id)
      requires Separate()
      modifies this`objects, this`snapshots
      ensures Separate() && objects == old(objects) - {k} && Objects() == old(Objects()) - {k}
          && snapshots == old(snapshots) - {k}
    {
      objects := objects - {k};
      snapshots := snapshots - {k};
    }

    /** Part-way through a load that found `before` and `snaps`: the keys in `done`
        are loaded, and `touched` are those of them that differed. */
    ghost predicate Going(before: map<Id, Object>, snaps: map<Id, seq<Json>>, wanted: map<Id, seq<Json>>,
          done: set<Id>, touched: set<Id>)
      reads this`objects, this`snapshots, objects.Values
    {
      && Separate() && Objects().Keys == snapshots.Keys && before.Keys == snaps.Keys
      && Midway(before, snaps, wanted, Objects(), snapshots, done) && Counted(snaps, wanted, done, touched)
    }

    /** Of one kind, refresh every name the document has.  `before` and `snaps` are
        the store when the load began. */
    method RefreshAll(kind: Kind, section: map<string, Json>, ghost wanted: map<Id, seq<Json>>,
        ghost before: map<Id, Object>, ghost snaps: map<Id, seq<Json>>, ghost done: set<Id>, ghost touched: set<Id>)
      returns (changed: nat, ghost done': set<Id>, ghost touched': set<Id>)
      requires (forall name | name in section :: GoodList(rules, kind, name, section[name]))
          && SectionIs(kind, section, wanted)
      requires Going(before, snaps, wanted, done, touched)
      requires forall k | k in done :: k.kind != kind
      modifies this`objects, this`snapshots, objects.Values
      ensures Going(before, snaps, wanted, done', touched')
      ensures done' == done + (set name | name in section :: Id(kind, name))
      ensures |touched'| == |touched| + changed
      ensures Kept(old(objects), objects) && old(objects).Keys <= objects.Keys
      ensures forall k | k in objects && k !in old(objects) :: fresh(objects[k]) && k.kind == kind
    {
      hide Going, GoodList, SectionIs;
      changed, done', touched' := 0, done, touched;
      var todo := section.Keys;
      ghost var seen: set<string> := {};
      KeepsItself(objects);
      while todo != {}
        invariant todo == section.Keys - seen && seen <= section.Keys
        invariant done' == done + (set name | name in seen :: Id(kind, name))
        invariant Going(before, snaps, wanted, done', touched')
        invariant |touched'| == |touched| + changed
        invariant Kept(old(objects), objects) && old(objects).Keys <= objects.Keys
        invariant forall k | k in objects && k !in old(objects) :: fresh(objects[k]) && k.kind == kind
        decreases todo
      {
        var name :| name in todo;
        ghost var objs := objects;
        var moved;
        moved, touched' := RefreshOne(kind, name, section, wanted, before, snaps, done', touched');
        KeptChains(old(objects), objs, objects, Id(kind, name));
        changed := changed + if moved then 1 else 0;
        OneMoreSeen(kind, done, seen, name);
        done' := done' + {Id(kind, name)};
        seen := seen + {name};
        todo := todo - {name};
      }
      assert seen == section.Keys;
    }

    method RefreshOne(kind: Kind, name: string, section: map<string, Json>, ghost wanted: map<Id, seq<Json>>,
        ghost before: map<Id, Object>, ghost snaps: map<Id, seq<Json>>, ghost done: set<Id>, ghost touched: set<Id>)
      returns (moved: bool, ghost touched': set<Id>)
      requires name in section && GoodList(rules, kind, name, section[name]) && SectionIs(kind, section, wanted)
      requires Going(before, snaps, wanted, done, touched)
      requires Id(kind, name) !in done
      modifies this`objects, this`snapshots, objects.Values
      ensures var k := Id(kind, name);
        && Going(before, snaps, wanted, done + {k}, touched')
        && |touched'| == |touched| + (if moved then 1 else 0)
        && k in objects && objects == old(objects)[k := objects[k]]
        && (if k in old(objects) then objects[k] == old(objects[k]) else fresh(objects[k]))
    {
      hide Midway, Separate, GoodList, LoadedObject, SectionIs, Counted;
      var k := Id(kind, name);
      GoodEntries(rules, kind, name, section[name]);
      SectionAt(kind, section, wanted, name);
      ghost var now, snapsNow := Objects(), snapshots;
      moved := Refresh(k, section[name].items);
      LoadOne(before, snaps, wanted, now, snapsNow, Objects(), snapshots, done, k);
      CountOne(snaps, wanted, done, touched, k);
      touched' := if moved then touched + {k} else touched;
    }

    /** Of one kind, remove what the document has not. */
    method RemoveStale(kind: Kind, section: map<string, Json>, ghost wanted: map<Id, seq<Json>>,
        ghost before: map<Id, Object>, ghost snaps: map<Id, seq<Json>>, ghost done: set<Id>, ghost touched: set<Id>)
      returns (changed: nat, ghost done': set<Id>, ghost touched': set<Id>)
      requires SectionIs(kind, section, wanted)
      requires Going(before, snaps, wanted, done, touched)
      requires forall k | k in done && k.kind == kind :: k.name in section
      requires forall name | name in section :: Id(kind, name) in done
      modifies this`objects, this`snapshots
      ensures Going(before, snaps, wanted, done', touched')
      ensures Covers(before, wanted, done', kind) && done <= done' && forall k | k in done' - done :: k.kind == kind
      ensures |touched'| == |touched| + changed
      ensures Kept(old(objects), objects) && objects.Keys <= old(objects).Keys
    {
      hide *;
      changed, done', touched' := 0, done, touched;
      GoingNames(before, snaps, wanted, done, touched);
      var todo := set k | k in objects && k.kind == kind && k.name !in section;
      ghost var gone := todo;
      KeepsItself(objects);
      while todo != {}
        invariant todo <= gone && todo <= objects.Keys && done <= done' <= done + gone
        invariant forall k | k in gone :: k in todo <==> k !in done'
        invariant Going(before, snaps, wanted, done', touched')
        invariant |touched'| == |touched| + changed
        invariant Kept(old(objects), objects) && objects.Keys <= old(objects).Keys
        decreases todo
      {
        var k :| k in todo;
        assert k in gone && k !in done';
        ghost var objs := objects;
        touched' := RemoveOne(k, section, wanted, before, snaps, done', touched');
        KeptLess(old(objects), objs, k);
        changed := changed + 1;
        done' := done' + {k};
        todo := todo - {k};
      }
      assert done' == done + gone;
      AllCovered(kind, section, wanted, before, done, done', gone, old(objects).Keys);
    }

    method RemoveOne(k: Id, section: map<string, Json>, ghost wanted: map<Id, seq<Json>>,
        ghost before: map<Id, Object>, ghost snaps: map<Id, seq<Json>>, ghost done: set<Id>, ghost touched: set<Id>)
      returns (ghost touched': set<Id>)
      requires SectionIs(k.kind, section, wanted) && k.name !in section && k in objects && k !in done
      requires Going(before, snaps, wanted, done, touched)
      modifies this`objects, this`snapshots
      ensures Going(before, snaps, wanted, done + {k}, touched') && objects == old(objects) - {k}
      ensures |touched'| == |touched| + 1
    {
      hide Midway, Separate, SectionIs, Counted;
      NotWanted(k.kind, section, wanted, k);
      ghost var now, snapsNow := Objects(), snapshots;
      Remove(k);
      DropOne(before, snaps, wanted, now, snapsNow, Objects(), snapshots, done, k);
      CountOne(snaps, wanted, done, touched, k);
      touched' := touched + {k};
    }

    /** Every kind in turn. */
    method LoadKinds(document: Json) returns (changed: nat)
      requires Valid() && Acceptable(rules, document)
      modifies this`objects, this`snapshots, objects.Values
      ensures Separate() && State() == AfterLoad(old(State()), document)
      ensures changed == Moves(old(State()), document)
      ensures Kept(old(objects), objects)
    {
      hide Going, GoodList, SectionIs, Covers, Acceptable, Wanted, SectionOf, Valid, Objects;
      ghost var before, snaps, wanted := Objects(), snapshots, Wanted(document);
      GoingStarts(wanted);
      KeepsItself(objects);
      changed := 0;
      ghost var done: set<Id>, touched: set<Id> := {}, {};
      var kinds := [V4List, V6List, AsPathList, RouteMap];
      for i := 0 to 4
        invariant Going(before, snaps, wanted, done, touched)
        invariant |touched| == changed
        invariant forall j :: 0 <= j < i ==> Covers(before, wanted, done, kinds[j])
        invariant forall k | k in done :: k.kind in kinds[..i]
        invariant Kept(old(objects), objects) && forall k | k in objects && k !in old(objects) :: fresh(objects[k])
      {
        var kind := kinds[i];
        SectionIsGood(rules, document, kind);
        var section := SectionOf(document, kind).fields;
        ghost var done0, objs := done, objects;
        assert kind !in kinds[..i];
        GoingNames(before, snaps, wanted, done, touched);
        var some, more;
        some, done, touched := RefreshAll(kind, section, wanted, before, snaps, done, touched);
        ghost var objs1 := objects;
        assert forall k | k in old(objects) && k in objs1 :: k in objs;
        more, done, touched := RemoveStale(kind, section, wanted, before, snaps, done, touched);
        changed := changed + some + more;
        KeptTwice(old(objects), objs, objs1, objects);
        assert kinds[..i + 1] == kinds[..i] + [kind];
        forall j | 0 <= j < i ensures Covers(before, wanted, done, kinds[j]) {
          CoversMore(before, wanted, done0, done, kinds[j]);
        }
      }
      GoingEnds(before, snaps, document, done, touched, kinds);
    }

    lemma GoingStarts(wanted: map<Id, seq<Json>>)
      requires Valid()
      ensures Going(Objects(), snapshots, wanted, {}, {}) && Objects().Keys == objects.Keys
    {
      MidwayStarts(Objects(), snapshots, wanted);
    }

    lemma GoingNames(before: map<Id, Object>, snaps: map<Id, seq<Json>>, wanted: map<Id, seq<Json>>, done: set<Id>,
          touched: set<Id>)
      requires Going(before, snaps, wanted, done, touched)
      ensures forall k | k in before && k !in done :: k in objects
    {
      NotDoneIsThere(before, snaps, wanted, Objects(), snapshots, done);
    }

    lemma GoingEnds(before: map<Id, Object>, snaps: map<Id, seq<Json>>, document: Json, done: set<Id>,
          touched: set<Id>, kinds: seq<Kind>)
      requires Going(before, snaps, Wanted(document), done, touched)
      requires kinds == [V4List, V6List, AsPathList, RouteMap]
      requires forall j :: 0 <= j < 4 ==> Covers(before, Wanted(document), done, kinds[j])
      ensures Separate() && State() == AfterLoad(Policies(before, snaps), document)
      ensures |touched| == Moves(Policies(before, snaps), document)
    {
      MidwayEnds(before, snaps, Wanted(document), Objects(), snapshots, done, touched, kinds);
    }

    /** `load`: None is a rejected document, and then nothing was touched. */
    method Load(document: Json) returns (r: Option<nat>)
      requires Valid()
      modifies this, objects.Values
      ensures Valid() && (r.Some? <==> Acceptable(rules, document))
      ensures r.None? ==> State() == old(State()) && unchanged(this)
      ensures r.Some? ==>
        && State() == AfterLoad(old(State()), document) && r.value == Moves(old(State()), document)
        && (revision == old(revision) <==> r.value == 0) && old(revision) <= revision <= old(revision) + 1
      ensures Kept(old(objects), objects)
    {
      hide Acceptable, Separate, AfterLoad, Moves, Faithful;
      var ok := Validate(document, None);
      if !ok {
        KeepsItself(objects);
        return None;
      }
      ghost var before := State();
      var changed := LoadKinds(document);
      LoadFaithful(before, document);
      loads := loads + 1;
      if changed > 0 {
        revision, changes := revision + 1, changes + changed;
      }
      r := Some(changed);
    }
  }

  /** An object that was there keeps its identity while it stays. */
  predicate Kept(before: map<Id, PolicyObject>, after: map<Id, PolicyObject>) {
    forall k | k in before && k in after :: after[k] == before[k]
  }

  /** `section` is what the document has of one kind. */
  ghost predicate SectionIs(kind: Kind, section: map<string, Json>, wanted: map<Id, seq<Json>>) {
    && (forall name | name in section ::
        section[name].List? && Id(kind, name) in wanted && wanted[Id(kind, name)] == section[name].items)
    && (forall k | k in wanted && k.kind == kind :: k.name in section)
  }

  /** Of the keys done with, those that differed. */
  ghost predicate Counted(snaps: map<Id, seq<Json>>, wanted: map<Id, seq<Json>>, done: set<Id>, touched: set<Id>) {
    touched <= done && forall k | k in done :: k in touched <==> Differs(snaps, wanted, k)
  }

  /** Every key of one kind, old or new, is done with. */
  ghost predicate Covers(before: map<Id, Object>, wanted: map<Id, seq<Json>>, done: set<Id>, kind: Kind) {
    forall k: Id | k.kind == kind && (k in before || k in wanted) :: k in done
  }

  lemma GoodEntries(rules: Rules, kind: Kind, name: string, entries: Json)
    requires GoodList(rules, kind, name, entries)
    ensures entries.List? && forall i :: 0 <= i < |entries.items| ==> GoodEntry(rules, kind, entries.items[i], i)
  {
  }

  lemma LoadOne(before: map<Id, Object>, snaps: map<Id, seq<Json>>, wanted: map<Id, seq<Json>>,
      now: map<Id, Object>, snapsNow: map<Id, seq<Json>>, then_: map<Id, Object>, snapsThen: map<Id, seq<Json>>,
        done: set<Id>, k: Id)
    requires Midway(before, snaps, wanted, now, snapsNow, done) && k !in done && k in wanted
    requires then_ == now[k := LoadedObject(now, snapsNow, k, wanted[k])] && snapsThen == snapsNow[k := wanted[k]]
    ensures Midway(before, snaps, wanted, then_, snapsThen, done + {k})
    ensures (k in now && k in snapsNow && snapsNow[k] == wanted[k]) ==
        (k in before && k in snaps && snaps[k] == wanted[k])
  {
    assert IsSame(before, snaps, now, snapsNow, k);
    forall x ensures if x in done + {k} then IsLoaded(before, snaps, wanted, then_, snapsThen, x)
        else IsSame(before, snaps, then_, snapsThen, x) {
      assert if x in done then IsLoaded(before, snaps, wanted, now, snapsNow, x)
          else IsSame(before, snaps, now, snapsNow, x);
    }
  }

  lemma CountOne(snaps: map<Id, seq<Json>>, wanted: map<Id, seq<Json>>, done: set<Id>, touched: set<Id>, k: Id)
    requires Counted(snaps, wanted, done, touched) && k !in done
    ensures k !in touched
    ensures Counted(snaps, wanted, done + {k}, if Differs(snaps, wanted, k) then touched + {k} else touched)
  {
  }

  lemma LoadedCases(objects: map<Id, Object>, snapshots: map<Id, seq<Json>>, k: Id, entries: seq<Json>)
    ensures if k in objects && k in snapshots && snapshots[k] == entries
            then objects == objects[k := LoadedObject(objects, snapshots, k, entries)]
            else LoadedObject(objects, snapshots, k, entries) ==
                 Object(Build(k.kind, entries), (if k in objects then objects[k].version + 1 else 0) + |entries|)
  {
  }

  lemma OneMoreSeen(kind: Kind, done: set<Id>, seen: set<string>, name: string)
    ensures (done + (set x | x in seen :: Id(kind, x))) + {Id(kind, name)} == done +
        (set x | x in seen + {name} :: Id(kind, x))
  {
  }

  lemma NotDoneIsThere(before: map<Id, Object>, snaps: map<Id, seq<Json>>, wanted: map<Id, seq<Json>>,
      now: map<Id, Object>, snapsNow: map<Id, seq<Json>>, done: set<Id>)
    requires Midway(before, snaps, wanted, now, snapsNow, done)
    ensures forall k | k in before && k !in done :: k in now
  {
    forall k | k in before && k !in done ensures k in now { assert IsSame(before, snaps, now, snapsNow, k); }
  }

  lemma KeepsItself(objects: map<Id, PolicyObject>)
    ensures Kept(objects, objects)
  {
  }

  lemma KeptChains(first: map<Id, PolicyObject>, before: map<Id, PolicyObject>, after: map<Id, PolicyObject>, k: Id)
    requires Kept(first, before) && first.Keys <= before.Keys && k in after && after == before[k := after[k]]
    requires k in before ==> after[k] == before[k]
    ensures Kept(first, after) && first.Keys <= after.Keys
    ensures forall x | x in before :: after[x] == before[x]
  {
  }

  lemma KeptLess(first: map<Id, PolicyObject>, before: map<Id, PolicyObject>, k: Id)
    requires Kept(first, before)
    ensures Kept(first, before - {k})
  {
  }

  lemma KeptTwice(first: map<Id, PolicyObject>, a: map<Id, PolicyObject>, b: map<Id, PolicyObject>,
        c: map<Id, PolicyObject>)
    requires Kept(first, a) && Kept(a, b) && Kept(b, c) && a.Keys <= b.Keys && c.Keys <= b.Keys
    requires forall k | k in first && k in b :: k in a
    ensures Kept(first, c)
  {
  }

  lemma SectionAt(kind: Kind, section: map<string, Json>, wanted: map<Id, seq<Json>>, name: string)
    requires SectionIs(kind, section, wanted) && name in section
    ensures section[name].List? && Id(kind, name) in wanted && wanted[Id(kind, name)] == section[name].items
  {
  }

  lemma NotWanted(kind: Kind, section: map<string, Json>, wanted: map<Id, seq<Json>>, k: Id)
    requires SectionIs(kind, section, wanted) && k.kind == kind && k.name !in section
    ensures k !in wanted
  {
  }

  lemma DropOne(before: map<Id, Object>, snaps: map<Id, seq<Json>>, wanted: map<Id, seq<Json>>,
      now: map<Id, Object>, snapsNow: map<Id, seq<Json>>, then_: map<Id, Object>, snapsThen: map<Id, seq<Json>>,
        done: set<Id>, k: Id)
    requires Midway(before, snaps, wanted, now, snapsNow, done) && k !in done && k !in wanted && k in now
    requires now.Keys == snapsNow.Keys && then_ == now - {k} && snapsThen == snapsNow - {k}
    ensures Midway(before, snaps, wanted, then_, snapsThen, done + {k}) && Differs(snaps, wanted, k)
  {
    assert IsSame(before, snaps, now, snapsNow, k);
    forall x ensures if x in done + {k} then IsLoaded(before, snaps, wanted, then_, snapsThen, x)
        else IsSame(before, snaps, then_, snapsThen, x) {
      assert if x in done then IsLoaded(before, snaps, wanted, now, snapsNow, x)
          else IsSame(before, snaps, now, snapsNow, x);
    }
  }

  lemma AllCovered(kind: Kind, section: map<string, Json>, wanted: map<Id, seq<Json>>, before: map<Id, Object>,
      done: set<Id>, done': set<Id>, gone: set<Id>, names: set<Id>)
    requires SectionIs(kind, section, wanted) && (forall k | k in before && k !in done :: k in names)
    requires forall name | name in section :: Id(kind, name) in done
    requires (forall k | k in names && k.kind == kind && k.name !in section :: k in gone) && done' == done + gone
    ensures Covers(before, wanted, done', kind)
  {
    forall k: Id | k.kind == kind && (k in before || k in wanted) ensures k in done' {
      if k.name in section { assert k == Id(kind, k.name); }
    }
  }

  lemma MidwayStarts(before: map<Id, Object>, snaps: map<Id, seq<Json>>, wanted: map<Id, seq<Json>>)
    ensures Midway(before, snaps, wanted, before, snaps, {}) && Counted(snaps, wanted, {}, {})
  {
    forall k ensures IsSame(before, snaps, before, snaps, k) {}
  }

  lemma CoversMore(before: map<Id, Object>, wanted: map<Id, seq<Json>>, done: set<Id>, more: set<Id>, kind: Kind)
    requires Covers(before, wanted, done, kind) && done <= more
    ensures Covers(before, wanted, more, kind)
  {
  }

  lemma AcceptableSection(rules: Rules, document: Json, kind: Kind)
    requires Acceptable(rules, document)
    ensures GoodSection(rules, document, kind)
  {
    hide GoodSection, AllDefined;
  }

  lemma SectionIsGood(rules: Rules, document: Json, kind: Kind)
    requires Acceptable(rules, document)
    ensures SectionOf(document, kind).Obj?
    ensures var section := SectionOf(document, kind).fields;
      (forall name | name in section :: GoodList(rules, kind, name, section[name]))
        && SectionIs(kind, section, Wanted(document))
  {
    hide GoodEntry, AllDefined, Acceptable, Wanted, SectionOf;
    AcceptableSection(rules, document, kind);
    var section := SectionOf(document, kind);
    forall name | name in section.fields
      ensures section.fields[name].List? && Id(kind, name) in Wanted(document)
          && Wanted(document)[Id(kind, name)] == section.fields[name].items
    {
      assert GoodList(rules, kind, name, section.fields[name]);
      WantedAt(document, Id(kind, name));
    }
    forall k | k in Wanted(document) && k.kind == kind ensures k.name in section.fields { WantedAt(document, k); }
  }

  /** All four kinds done: the store is what loading says. */
  lemma MidwayEnds(before: map<Id, Object>, snaps: map<Id, seq<Json>>, wanted: map<Id, seq<Json>>,
      now: map<Id, Object>, snapsNow: map<Id, seq<Json>>, done: set<Id>, touched: set<Id>, kinds: seq<Kind>)
    requires Midway(before, snaps, wanted, now, snapsNow, done) && Counted(snaps, wanted, done, touched)
    requires kinds == [V4List, V6List, AsPathList, RouteMap] && before.Keys == snaps.Keys
    requires forall j :: 0 <= j < 4 ==> Covers(before, wanted, done, kinds[j])
    ensures now == Loaded(before, snaps, wanted) && snapsNow == wanted && touched == Changed(snaps, wanted)
  {
    forall k: Id ensures k in before || k in wanted ==> k in done {
      assert k.kind == kinds[0] || k.kind == kinds[1] || k.kind == kinds[2] || k.kind == kinds[3];
    }
    forall k ensures IsLoaded(before, snaps, wanted, now, snapsNow, k) {
      assert if k in done then IsLoaded(before, snaps, wanted, now, snapsNow, k)
          else IsSame(before, snaps, now, snapsNow, k);
    }
    forall k ensures (k in now <==> k in wanted) && (k in snapsNow <==> k in wanted) {
      assert IsLoaded(before, snaps, wanted, now, snapsNow, k);
    }
    forall k | k in wanted ensures now[k] == LoadedObject(before, snaps, k, wanted[k]) && snapsNow[k] == wanted[k] {
      assert IsLoaded(before, snaps, wanted, now, snapsNow, k);
    }
    forall k | k in touched ensures k in Changed(snaps, wanted) { assert Differs(snaps, wanted, k); }
    forall k | k in Changed(snaps, wanted) ensures k in touched { assert k in done; }
  }

  lemma EntryFitsIff(rules: Rules, kind: Kind, entry: Json, longest: nat)
    ensures EntryFits(rules, kind, entry, longest)
      <==> forall regex | regex in Regexes(kind, entry) :: rules.fits(regex, longest)
  {
  }
}
