/** Writing a redacted document back: the sentinel means "keep what is stored". */
module WriteBack {
  import opened Routes
  import opened Documents
  import opened Secrets

  /** What the stored document holds under `k` of a node it may not have. */
  function Child(st: Option<Json>, k: string): Option<Json> {
    if st.Some? && st.value.Obj? && k in st.value.fields then Some(st.value.fields[k]) else None
  }

  /** The resolving visitor: None is the error "no stored value to keep". */
  function Keep(kept: Option<Json>, j: Json): Option<Json> {
    if j != MASK then Some(j)
    else if kept == None || kept == Some(MASK) then None
    else kept
  }

  /** `_walk_one` with the resolving visitor. */
  function ResolveOne(stored: Json, d: Json, pat: Pattern, path: Path): Option<Json>
    decreases |pat|
  {
    if pat == [] || !d.Obj? then Some(d)
    else if pat[0].None? then
      if forall k | k in d.fields :: ResolveOne(stored, d.fields[k], pat[1..], path + [k]).Some?
      then Some(Obj(map k | k in d.fields :: ResolveOne(stored, d.fields[k], pat[1..], path + [k]).value))
      else None
    else
      var k := pat[0].value;
      if k !in d.fields then Some(d)
      else
        var r := if |pat| == 1 then Keep(Get(stored, path + [k]), d.fields[k])
                 else ResolveOne(stored, d.fields[k], pat[1..], path + [k]);
        if r.None? then None else Some(Obj(d.fields[k := r.value]))
  }

  /** `_resolve_secrets`. */
  function Resolve(stored: Json, d: Json, pats: seq<Pattern>): Option<Json> {
    if pats == [] then Some(d)
    else
      match Resolve(stored, d, pats[..|pats| - 1])
      case None => None
      case Some(sofar) => ResolveOne(stored, sofar, pats[|pats| - 1], [])
  }

  // ----- all patterns at once -------------------------------------------------------

  function Resolved(st: Option<Json>, d: Json, ps: set<Pattern>): Option<Json>
    decreases d, 0
  {
    if !d.Obj? then Some(d)
    else if forall k | k in d.fields :: ResolvedAt(st, d.fields[k], ps, k).Some?
    then Some(Obj(map k | k in d.fields :: ResolvedAt(st, d.fields[k], ps, k).value))
    else None
  }

  function ResolvedAt(st: Option<Json>, j: Json, ps: set<Pattern>, k: string): Option<Json>
    decreases j, 1
  {
    if Names(ps, k) && j == MASK then Keep(Child(st, k), j)
    else Resolved(Child(st, k), j, Below(ps, k))
  }

  /** No named position of the stored document holds an object. */
  predicate PlainSecrets(d: Json, ps: set<Pattern>) {
    d.Obj? ==> forall k | k in d.fields ::
      (Names(ps, k) ==> !d.fields[k].Obj?) && PlainSecrets(d.fields[k], Below(ps, k))
  }

  predicate PlainChild(st: Option<Json>, ps: set<Pattern>) {
    st.Some? ==> PlainSecrets(st.value, ps)
  }

  lemma {:induction false} ResolvedNone(st: Option<Json>, d: Json)
    ensures Resolved(st, d, {}) == Some(d)
    decreases d
  {
    if d.Obj? {
      forall k | k in d.fields ensures ResolvedAt(st, d.fields[k], {}, k) == Some(d.fields[k]) {
        assert Below({}, k) == {};
        ResolvedNone(Child(st, k), d.fields[k]);
      }
      assert Resolved(st, d, {}).value.fields == d.fields;
    }
  }

  /** What one more pattern does to the value under `k`. */
  function OneMore(stored: Json, j: Json, p: Pattern, path: Path, k: string): Option<Json>
    requires p != []
  {
    if p[0].Some? && p[0].value != k then Some(j)
    else if |p| > 1 then ResolveOne(stored, j, p[1..], path + [k])
    else if p[0].None? then Some(j)
    else Keep(Get(stored, path + [k]), j)
  }

  lemma ResolveOneByKey(stored: Json, d: Json, p: Pattern, path: Path)
    requires d.Obj? && p != []
    ensures ResolveOne(stored, d, p, path).Some? <==> forall k | k in d.fields ::
        OneMore(stored, d.fields[k], p, path, k).Some?
    ensures ResolveOne(stored, d, p, path).Some? ==>
      ResolveOne(stored, d, p, path).value ==
        Obj(map k | k in d.fields :: OneMore(stored, d.fields[k], p, path, k).value)
  {
    if p[0].None? {
      forall k | k in d.fields
        ensures OneMore(stored, d.fields[k], p, path, k) == ResolveOne(stored, d.fields[k], p[1..], path + [k]) {}
    }
    if ResolveOne(stored, d, p, path).Some? {
      assert ResolveOne(stored, d, p, path).value.fields == map k | k in d.fields ::
          OneMore(stored, d.fields[k], p, path, k).value;
    }
  }

  lemma {:induction false} ResolvedAdd(stored: Json, path: Path, d: Json, ps: set<Pattern>, p: Pattern)
    requires PlainChild(Get(stored, path), ps + {p})
    ensures var st := Get(stored, path);
      Resolved(st, d, ps + {p}) ==
        match Resolved(st, d, ps) case None => None case Some(r) => ResolveOne(stored, r, p, path)
    decreases |p|
  {
    hide ResolvedAt, Below, PlainSecrets;
    var st := Get(stored, path);
    if d.Obj? {
      forall k | k in d.fields
        ensures ResolvedAt(st, d.fields[k], ps + {p}, k) ==
          if p == [] || ResolvedAt(st, d.fields[k], ps, k).None? then ResolvedAt(st, d.fields[k], ps, k)
          else OneMore(stored, ResolvedAt(st, d.fields[k], ps, k).value, p, path, k)
      {
        ResolvedAddAt(stored, path, d.fields[k], ps, p, k);
      }
      if Resolved(st, d, ps).Some? {
        var r := Resolved(st, d, ps).value;
        if p != [] { ResolveOneByKey(stored, r, p, path); }
        if Resolved(st, d, ps + {p}).Some? {
          var r' := Resolved(st, d, ps + {p}).value;
          forall k | k in d.fields ensures r'.fields[k] == if p == [] then r.fields[k]
              else OneMore(stored, r.fields[k], p, path, k).value {
            assert r'.fields[k] == ResolvedAt(st, d.fields[k], ps + {p}, k).value;
          }
          assert r'.fields == ResolveOne(stored, r, p, path).value.fields;
        }
      }
    }
  }

  lemma {:induction false} ResolvedAddAt(stored: Json, path: Path, j: Json, ps: set<Pattern>, p: Pattern, k: string)
    requires PlainChild(Get(stored, path), ps + {p})
    ensures var st := Get(stored, path);
      ResolvedAt(st, j, ps + {p}, k) ==
        if p == [] || ResolvedAt(st, j, ps, k).None? then ResolvedAt(st, j, ps, k)
        else OneMore(stored, ResolvedAt(st, j, ps, k).value, p, path, k)
    decreases |p|, 0
  {
    hide Below, Resolved, PlainSecrets, PlainChild, Keep, ResolveOne;
    var st := Get(stored, path);
    BelowAdd(ps, p, k);
    assert Names(ps + {p}, k) <==> Names(ps, k) || p == [Some(k)];
    if |p| > 1 && (p[0].None? || p[0] == Some(k)) {
      GetConcat(stored, path, [k]);
      ChildIsGet(st, k);
      ChildIsPlain(st, ps + {p}, k);
      if Names(ps, k) && j == MASK {
        KeptIsPlain(stored, Child(st, k), j, p[1..], path + [k]);
      } else {
        ResolvedAdd(stored, path + [k], j, Below(ps, k), p[1..]);
      }
    } else if p == [Some(k)] {
      GetConcat(stored, path, [k]);
      ChildIsGet(st, k);
      ResolvedAddHere(Child(st, k), j, Below(ps, k));
    }
  }

  /** One level down, the patterns that go on name no object either. */
  lemma ChildIsPlain(st: Option<Json>, ps: set<Pattern>, k: string)
    requires PlainChild(st, ps)
    ensures PlainChild(Child(st, k), Below(ps, k))
    ensures Names(ps, k) && Child(st, k).Some? ==> !Child(st, k).value.Obj?
  {
    hide Below;
  }

  /** What is kept is no section, so no pattern goes on below it. */
  lemma KeptIsPlain(stored: Json, child: Option<Json>, j: Json, p: Pattern, path: Path)
    requires p != [] && j == MASK && (child.Some? ==> !child.value.Obj?)
    ensures Keep(child, j).Some? ==> ResolveOne(stored, Keep(child, j).value, p, path) == Keep(child, j)
  {
  }

  /** Keeping once more changes nothing more. */
  lemma ResolvedAddHere(child: Option<Json>, j: Json, below: set<Pattern>)
    ensures j == MASK ==> Resolved(child, j, below) == Some(j)
    ensures Keep(child, j).Some? ==> Keep(child, Keep(child, j).value) == Keep(child, j)
    ensures j != MASK && Resolved(child, j, below).Some? ==>
      Keep(child, Resolved(child, j, below).value) == Resolved(child, j, below)
  {
  }

  lemma ChildIsGet(st: Option<Json>, k: string)
    ensures Child(st, k) == match st case None => None case Some(node) => Get(node, [k])
  {
    assert [k][1..] == [];
  }

  /** Walking pattern after pattern resolves as one pass does. */
  lemma {:induction false} ResolveIsResolved(stored: Json, d: Json, pats: seq<Pattern>)
    requires PlainSecrets(stored, PatternSet(pats))
    ensures Resolve(stored, d, pats) == Resolved(Some(stored), d, PatternSet(pats))
  {
    if pats == [] {
      assert PatternSet(pats) == {};
      ResolvedNone(Some(stored), d);
    } else {
      var front := pats[..|pats| - 1];
      PatternSetSnoc(pats);
      FewerStillPlain(stored, PatternSet(front), PatternSet(pats));
      ResolveIsResolved(stored, d, front);
      ResolvedAdd(stored, [], d, PatternSet(front), pats[|pats| - 1]);
    }
  }

  lemma {:induction false} FewerStillPlain(d: Json, fewer: set<Pattern>, ps: set<Pattern>)
    requires PlainSecrets(d, ps) && fewer <= ps
    ensures PlainSecrets(d, fewer)
  {
    if d.Obj? {
      forall k | k in d.fields ensures PlainSecrets(d.fields[k], Below(fewer, k)) {
        FewerStillPlain(d.fields[k], Below(fewer, k), Below(ps, k));
      }
    }
  }
}
