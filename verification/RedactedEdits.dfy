/** Editing a redacted copy and writing it back is editing the document. */
module RedactedEdits {
  import opened Routes
  import opened Documents
  import opened Secrets
  import opened WriteBack

  /** `_deep_merge`: null removes a key, objects merge, anything else replaces. */
  function DeepMerge(current: Json, patch: Json): Json
    requires current.Obj? && patch.Obj?
    decreases patch, 0
  {
    Obj(map k | k in current.fields.Keys + patch.fields.Keys && !(k in patch.fields && patch.fields[k] == Null) ::
          if k !in patch.fields then current.fields[k] else Merged(current, k, patch.fields[k]))
  }

  /** The value a non-null patch leaves under `k`. */
  function Merged(current: Json, k: string, value: Json): Json
    requires current.Obj?
    decreases value, 1
  {
    if value.Obj? && k in current.fields && current.fields[k].Obj? then DeepMerge(current.fields[k], value) else value
  }

  // ----- what a merge leaves, path by path --------------------------------------------

  predicate IsSection(v: Option<Json>) {
    v.Some? && v.value.Obj?
  }

  /** A document holds objects at every proper prefix of `q`. */
  predicate Sections(d: Json, q: Path) {
    forall i :: 0 <= i < |q| ==> IsSection(Get(d, q[..i]))
  }

  /** The patch says nothing about `q`: as far as it goes there, it holds objects. */
  predicate Silent(patch: Json, q: Path) {
    Get(patch, q).None? && forall i :: 0 <= i < |q| && Get(patch, q[..i]).Some? ==> IsSection(Get(patch, q[..i]))
  }

  lemma MergeStep(current: Json, patch: Json, k: string)
    requires current.Obj? && patch.Obj?
    ensures var fields := DeepMerge(current, patch).fields;
      && DeepMerge(current, patch).Obj?
      && (k !in patch.fields ==>
           (k in fields <==> k in current.fields) && (k in fields ==> fields[k] == current.fields[k]))
      && (k in patch.fields ==>
           var value := patch.fields[k];
           if value == Null then k !in fields
           else if value.Obj? && k in current.fields && current.fields[k].Obj?
           then k in fields && fields[k] == DeepMerge(current.fields[k], value) && fields[k].Obj?
           else k in fields && fields[k] == value)
  {
  }

  /** Below a section the merge goes on; a value the patch puts over anything else
      stands as it is, nulls in it and all. */
  lemma {:induction false} MergeAt(current: Json, patch: Json, q: Path)
    requires current.Obj? && patch.Obj? && q != []
    ensures var was, said, is_ := Get(current, q), Get(patch, q), Get(DeepMerge(current, patch), q);
      && (Silent(patch, q) && Sections(current, q) ==> is_ == was)
      && (said == Some(Null) && Sections(current, q) ==> is_ == None)
      && (said.Some? && !said.value.Obj? && said.value != Null ==> is_ == said)
      && (said.Some? && !Sections(current, q) ==> is_ == said)
      && (IsSection(said) ==> IsSection(is_) && (!IsSection(was) ==> is_ == said))
    decreases |q|
  {
    hide DeepMerge;
    var k, merged := q[0], DeepMerge(current, patch);
    MergeStep(current, patch, k);
    assert q[..0] == [] && q[..1] == [k];
    Steps(current, q);
    Steps(patch, q);
    Steps(merged, q);
    if |q| == 1 {
      assert q[1..] == [];
    } else if k in patch.fields && patch.fields[k].Obj? && k in current.fields && current.fields[k].Obj? {
      assert merged.fields[k] == DeepMerge(current.fields[k], patch.fields[k]);
      MergeAt(current.fields[k], patch.fields[k], q[1..]);
      SectionsBelow(current, q);
      SilentBelow(patch, q);
    } else {
      SectionsBelow(current, q);
      SilentBelow(patch, q);
    }
  }

  lemma Steps(d: Json, q: Path)
    requires d.Obj? && q != []
    ensures Get(d, q) == if q[0] in d.fields then Get(d.fields[q[0]], q[1..]) else None
  {
  }

  lemma SectionsBelow(d: Json, q: Path)
    requires d.Obj? && |q| > 1
    ensures Sections(d, q) <==> q[0] in d.fields && d.fields[q[0]].Obj? && Sections(d.fields[q[0]], q[1..])
  {
    assert q[..1][1..] == [];
    forall i | 0 < i < |q|
      ensures Get(d, q[..i]) == if q[0] in d.fields then Get(d.fields[q[0]], q[1..][..i - 1]) else None {
      assert q[..i][0] == q[0] && q[..i][1..] == q[1..][..i - 1];
    }
    if Sections(d, q) {
      assert IsSection(Get(d, q[..1]));
      forall i | 0 <= i < |q[1..]| ensures IsSection(Get(d.fields[q[0]], q[1..][..i])) {
        assert IsSection(Get(d, q[..i + 1]));
      }
    }
    if q[0] in d.fields && d.fields[q[0]].Obj? && Sections(d.fields[q[0]], q[1..]) {
      forall i | 0 <= i < |q| ensures IsSection(Get(d, q[..i])) {
        if i > 0 { assert IsSection(Get(d.fields[q[0]], q[1..][..i - 1])); }
      }
    }
  }

  lemma SilentBelow(d: Json, q: Path)
    requires d.Obj? && |q| > 1
    ensures Silent(d, q) && q[0] in d.fields ==> d.fields[q[0]].Obj? && Silent(d.fields[q[0]], q[1..])
  {
    if Silent(d, q) && q[0] in d.fields {
      assert q[..1][0] == q[0] && q[..1][1..] == [];
      assert Get(d, q[..1]) == Some(d.fields[q[0]]);
      forall i | 0 <= i < |q[1..]| && Get(d.fields[q[0]], q[1..][..i]).Some?
        ensures IsSection(Get(d.fields[q[0]], q[1..][..i]))
      {
        assert q[..i + 1][0] == q[0] && q[..i + 1][1..] == q[1..][..i];
        assert Get(d, q[..i + 1]).Some?;
      }
    }
  }

  /** The same, in the document the section belongs to: what a patch at `p` leaves
      at `p + q`, and that nothing beside `p` is touched. */
  lemma PatchAt(d: Json, p: Path, patch: Json, q: Path)
    requires d.Obj? && p != [] && IsSection(Get(d, p)) && patch.Obj? && q != []
    requires Set(d, p, DeepMerge(Get(d, p).value, patch)).Some?
    ensures var d', section := Set(d, p, DeepMerge(Get(d, p).value, patch)).value, Get(d, p).value;
      && (Silent(patch, q) && Sections(section, q) ==> Get(d', p + q) == Get(d, p + q))
      && (Get(patch, q) == Some(Null) && Sections(section, q) ==> Get(d', p + q) == None)
      && (Get(patch, q).Some? && !IsSection(Get(patch, q)) && Get(patch, q) != Some(Null) ==>
           Get(d', p + q) == Get(patch, q))
      && (forall r | !Comparable(p, r) :: Get(d', r) == Get(d, r))
  {
    var section := Get(d, p).value;
    var d' := Set(d, p, DeepMerge(section, patch)).value;
    MergeAt(section, patch, q);
    GetConcat(d, p, q);
    GetConcat(d', p, q);
    SetThenGet(d, p, DeepMerge(section, patch), p);
    forall r | !Comparable(p, r) ensures Get(d', r) == Get(d, r) { SetThenGet(d, p, DeepMerge(section, patch), r); }
  }

  // ----- the relation between a document and its redacted copy ------------------------

  /** No named position holds the sentinel. */
  predicate Clean(d: Json, ps: set<Pattern>)
    decreases d, 0
  {
    d.Obj? ==> forall k | k in d.fields :: CleanAt(d.fields[k], ps, k)
  }

  predicate CleanAt(j: Json, ps: set<Pattern>, k: string)
    decreases j, 1
  {
    (Names(ps, k) ==> j != MASK) && Clean(j, Below(ps, k))
  }

  /** `y` is `x` with some named positions masked, each of which still holds what
      is stored there. */
  predicate Masks(st: Option<Json>, x: Json, y: Json, ps: set<Pattern>)
    decreases x, 0
  {
    if x.Obj? && y.Obj? then
      x.fields.Keys == y.fields.Keys && forall k | k in x.fields :: MasksAt(st, x.fields[k], y.fields[k], ps, k)
    else x == y
  }

  predicate MasksAt(st: Option<Json>, x: Json, y: Json, ps: set<Pattern>, k: string)
    decreases x, 1
  {
    if Names(ps, k) && y == MASK then Child(st, k) == Some(x) && x.Str? && x != MASK
    else Masks(Child(st, k), x, y, Below(ps, k))
  }

  lemma MasksKey(st: Option<Json>, x: Json, y: Json, ps: set<Pattern>, k: string)
    requires Masks(st, x, y, ps) && x.Obj? && y.Obj?
    ensures k in x.fields <==> k in y.fields
    ensures k in x.fields ==> MasksAt(st, x.fields[k], y.fields[k], ps, k)
  {
    assert k in x.fields.Keys <==> k in y.fields.Keys;
  }

  /** Resolving a masked copy gives the document back. */
  lemma {:induction false} MasksResolve(st: Option<Json>, x: Json, y: Json, ps: set<Pattern>)
    requires Masks(st, x, y, ps)
    ensures Resolved(st, y, ps) == Some(x)
    decreases x
  {
    if x.Obj? && y.Obj? {
      forall k | k in y.fields ensures ResolvedAt(st, y.fields[k], ps, k) == Some(x.fields[k]) {
        MasksKey(st, x, y, ps, k);
        if !(Names(ps, k) && y.fields[k] == MASK) {
          MasksResolve(Child(st, k), x.fields[k], y.fields[k], Below(ps, k));
        }
      }
      assert Resolved(st, y, ps).value.fields == x.fields;
    }
  }

  /** The redacted document is a masked copy of the stored one. */
  lemma {:induction false} RedactionMasks(d: Json, ps: set<Pattern>)
    requires Clean(d, ps)
    ensures Masks(Some(d), d, Masked(d, ps), ps)
  {
    if d.Obj? {
      forall k | k in d.fields ensures MasksAt(Some(d), d.fields[k], Masked(d, ps).fields[k], ps, k) {
        RedactionMasks(d.fields[k], Below(ps, k));
        MaskedKind(d.fields[k], Below(ps, k));
        assert Masked(d, ps).fields[k] == MaskedAt(d.fields[k], ps, k);
      }
    }
  }

  /** A clean value is a masked copy of itself, whatever is stored. */
  lemma {:induction false} CleanMasksItself(st: Option<Json>, v: Json, ps: set<Pattern>)
    requires Clean(v, ps)
    ensures Masks(st, v, v, ps)
    decreases v
  {
    if v.Obj? {
      forall k | k in v.fields ensures MasksAt(st, v.fields[k], v.fields[k], ps, k) {
        CleanMasksItself(Child(st, k), v.fields[k], Below(ps, k));
      }
    }
  }

  // ----- edits --------------------------------------------------------------------------

  /** `v` and `w` stand at `p` below a node, as document and masked copy. */
  predicate MasksAlong(st: Option<Json>, p: Path, v: Json, w: Json, ps: set<Pattern>)
    requires p != []
    decreases |p|
  {
    if |p| == 1 then MasksAt(st, v, w, ps, p[0])
    else MasksAlong(Child(st, p[0]), p[1..], v, w, Below(ps, p[0]))
  }

  function Section(d: Json, k: string): Json
    requires d.Obj?
  {
    if k in d.fields && d.fields[k] != Null then d.fields[k] else EMPTY
  }

  lemma SectionMasks(st: Option<Json>, x: Json, y: Json, ps: set<Pattern>, k: string)
    requires Masks(st, x, y, ps) && x.Obj? && y.Obj?
    ensures Section(x, k).Obj? <==> Section(y, k).Obj?
    ensures Section(x, k).Obj? ==> Masks(Child(st, k), Section(x, k), Section(y, k), Below(ps, k))
  {
    MasksKey(st, x, y, ps, k);
  }

  lemma PutMasks(st: Option<Json>, x: Json, y: Json, ps: set<Pattern>, k: string, a: Json, b: Json)
    requires Masks(st, x, y, ps) && x.Obj? && y.Obj? && MasksAt(st, a, b, ps, k)
    ensures Masks(st, Obj(x.fields[k := a]), Obj(y.fields[k := b]), ps)
  {
    var x', y' := x.fields[k := a], y.fields[k := b];
    assert x'.Keys == x.fields.Keys + {k} && y'.Keys == y.fields.Keys + {k};
    forall n | n in x' ensures MasksAt(st, x'[n], y'[n], ps, n) {
      if n != k { MasksKey(st, x, y, ps, n); }
    }
  }

  lemma RemoveMasks(st: Option<Json>, x: Json, y: Json, ps: set<Pattern>, k: string)
    requires Masks(st, x, y, ps) && x.Obj? && y.Obj?
    ensures Masks(st, Obj(x.fields - {k}), Obj(y.fields - {k}), ps)
  {
    var x', y' := x.fields - {k}, y.fields - {k};
    assert x'.Keys == x.fields.Keys - {k} && y'.Keys == y.fields.Keys - {k};
    forall n | n in x' ensures MasksAt(st, x'[n], y'[n], ps, n) {
      MasksKey(st, x, y, ps, n);
    }
  }

  lemma {:induction false} SetMasks(st: Option<Json>, x: Json, y: Json, p: Path, v: Json, w: Json, ps: set<Pattern>)
    requires Masks(st, x, y, ps) && x.Obj? && y.Obj? && p != [] && MasksAlong(st, p, v, w, ps)
    ensures Set(x, p, v).Some? <==> Set(y, p, w).Some?
    ensures Set(x, p, v).Some? ==> Masks(st, Set(x, p, v).value, Set(y, p, w).value, ps)
    decreases |p|
  {
    hide Masks;
    var k := p[0];
    if |p| == 1 {
      PutMasks(st, x, y, ps, k, v, w);
    } else {
      SectionMasks(st, x, y, ps, k);
      if Section(x, k).Obj? {
        SetMasks(Child(st, k), Section(x, k), Section(y, k), p[1..], v, w, Below(ps, k));
        if Set(x, p, v).Some? {
          SetIsSection(Section(y, k), p[1..], w);
          PutMasks(st, x, y, ps, k, Set(Section(x, k), p[1..], v).value, Set(Section(y, k), p[1..], w).value);
        }
      }
    }
  }

  lemma SetIsSection(d: Json, p: Path, v: Json)
    requires d.Obj? && p != []
    ensures Set(d, p, v).Some? ==> Set(d, p, v).value.Obj?
  {
  }

  lemma {:induction false} DelMasks(st: Option<Json>, x: Json, y: Json, p: Path, ps: set<Pattern>)
    requires Masks(st, x, y, ps) && p != []
    ensures Del(x, p).Some? <==> Del(y, p).Some?
    ensures Del(x, p).Some? ==> Masks(st, Del(x, p).value, Del(y, p).value, ps)
    decreases |p|
  {
    var k := p[0];
    if x.Obj? && y.Obj? {
      MasksKey(st, x, y, ps, k);
      RemoveMasks(st, x, y, ps, k);
      if k in x.fields && |p| > 1 && !(Names(ps, k) && y.fields[k] == MASK) {
        DelMasks(Child(st, k), x.fields[k], y.fields[k], p[1..], Below(ps, k));
        if Del(x, p).Some? {
          var a, b := Del(x.fields[k], p[1..]).value, Del(y.fields[k], p[1..]).value;
          EmptyMasks(Child(st, k), a, b, Below(ps, k));
          DelIsSection(y.fields[k], p[1..]);
          PutMasks(st, x, y, ps, k, a, b);
        }
      }
    }
  }

  lemma DelIsSection(d: Json, p: Path)
    requires p != []
    ensures Del(d, p).Some? ==> Del(d, p).value.Obj?
  {
  }

  lemma EmptyMasks(st: Option<Json>, x: Json, y: Json, ps: set<Pattern>)
    requires Masks(st, x, y, ps)
    ensures x == EMPTY <==> y == EMPTY
  {
    if x == EMPTY && y.Obj? { assert y.fields.Keys == {}; }
    if y == EMPTY && x.Obj? { assert x.fields.Keys == {}; }
  }

  lemma {:induction false} MergeMasks(st: Option<Json>, x: Json, y: Json, patch: Json, ps: set<Pattern>)
    requires Masks(st, x, y, ps) && x.Obj? && y.Obj? && patch.Obj? && Clean(patch, ps)
    ensures Masks(st, DeepMerge(x, patch), DeepMerge(y, patch), ps)
    decreases patch, 0
  {
    var x', y' := DeepMerge(x, patch), DeepMerge(y, patch);
    assert x'.fields.Keys == y'.fields.Keys by {
      forall k ensures k in x'.fields <==> k in y'.fields { MasksKey(st, x, y, ps, k); }
    }
    forall k | k in x'.fields ensures MasksAt(st, x'.fields[k], y'.fields[k], ps, k) {
      MasksKey(st, x, y, ps, k);
      if k in patch.fields { MergeMasksAt(st, x, y, k, patch.fields[k], ps); }
    }
  }

  lemma {:induction false} MergeMasksAt(st: Option<Json>, x: Json, y: Json, k: string, value: Json, ps: set<Pattern>)
    requires Masks(st, x, y, ps) && x.Obj? && y.Obj? && CleanAt(value, ps, k)
    ensures MasksAt(st, Merged(x, k, value), Merged(y, k, value), ps, k)
    decreases value, 1
  {
    MasksKey(st, x, y, ps, k);
    CleanMasksItself(Child(st, k), value, Below(ps, k));
    if value.Obj? && k in x.fields && x.fields[k].Obj? {
      MergeMasks(Child(st, k), x.fields[k], y.fields[k], value, Below(ps, k));
    }
  }

  /** Reading a section out of both copies. */
  lemma {:induction false} GetMasks(st: Option<Json>, x: Json, y: Json, p: Path, ps: set<Pattern>)
    requires Masks(st, x, y, ps) && p != []
    ensures Get(x, p).Some? <==> Get(y, p).Some?
    ensures Get(x, p).Some? ==> (Get(x, p).value.Obj? <==> Get(y, p).value.Obj?)
    ensures Get(x, p).Some? && Get(x, p).value.Obj? ==>
      Masks(Along(st, p), Get(x, p).value, Get(y, p).value, BelowAlong(ps, p))
    decreases |p|
  {
    var k := p[0];
    if x.Obj? && y.Obj? { MasksKey(st, x, y, ps, k); }
    if x.Obj? && y.Obj? && k in x.fields {
      if |p| == 1 {
        OneKey(x, p);
        OneKey(y, p);
        assert Along(st, p) == Along(Child(st, k), p[1..]) == Child(st, k);
        assert BelowAlong(ps, p) == BelowAlong(Below(ps, k), p[1..]) == Below(ps, k);
      } else if !(Names(ps, k) && y.fields[k] == MASK) {
        GetMasks(Child(st, k), x.fields[k], y.fields[k], p[1..], Below(ps, k));
      }
    }
  }

  lemma OneKey(d: Json, p: Path)
    requires |p| == 1
    ensures Get(d, p) == if d.Obj? && p[0] in d.fields then Some(d.fields[p[0]]) else None
  {
    assert p[1..] == [];
  }

  function Along(st: Option<Json>, p: Path): Option<Json>
    decreases |p|
  {
    if p == [] then st else Along(Child(st, p[0]), p[1..])
  }

  function BelowAlong(ps: set<Pattern>, p: Path): set<Pattern>
    decreases |p|
  {
    if p == [] then ps else BelowAlong(Below(ps, p[0]), p[1..])
  }

  lemma {:induction false} SectionsMaskAlong(st: Option<Json>, p: Path, v: Json, w: Json, ps: set<Pattern>)
    requires p != [] && w.Obj? && Masks(Along(st, p), v, w, BelowAlong(ps, p))
    ensures MasksAlong(st, p, v, w, ps)
    decreases |p|
  {
    if |p| > 1 {
      SectionsMaskAlong(Child(st, p[0]), p[1..], v, w, Below(ps, p[0]));
    } else {
      assert Along(st, p) == Along(Child(st, p[0]), p[1..]) == Child(st, p[0]);
      assert BelowAlong(ps, p) == BelowAlong(Below(ps, p[0]), p[1..]) == Below(ps, p[0]);
    }
  }

  /** A value a client writes at `p` holds the sentinel at no named position. */
  predicate CleanAlong(v: Json, p: Path, ps: set<Pattern>)
    requires p != []
    decreases |p|
  {
    if |p| == 1 then CleanAt(v, ps, p[0]) else CleanAlong(v, p[1..], Below(ps, p[0]))
  }

  lemma {:induction false} CleanMasksAlong(st: Option<Json>, v: Json, p: Path, ps: set<Pattern>)
    requires p != [] && CleanAlong(v, p, ps)
    ensures MasksAlong(st, p, v, v, ps)
    decreases |p|
  {
    if |p| == 1 { CleanMasksItself(Child(st, p[0]), v, Below(ps, p[0])); }
    else { CleanMasksAlong(Child(st, p[0]), v, p[1..], Below(ps, p[0])); }
  }

  datatype Edit =
    | SetAt(path: Path, value: Json)
    | DelAt(path: Path)
    | MergeAt(path: Path, patch: Json)

  /** An edit that writes no sentinel at a secret position. */
  predicate CleanEdit(e: Edit, ps: set<Pattern>) {
    && Writable(e)
    && (e.SetAt? ==> CleanAlong(e.value, e.path, ps))
    && (e.MergeAt? ==> Clean(e.patch, BelowAlong(ps, e.path)))
  }

  predicate Writable(e: Edit) {
    e.path != [] && (e.MergeAt? ==> e.patch.Obj?)
  }

  /** One edit of a client's copy; None when it does not apply. */
  function Apply(d: Json, e: Edit): (r: Option<Json>)
    requires d.Obj? && Writable(e)
    ensures r.Some? ==> r.value.Obj?
  {
    match e
    case SetAt(p, v) => Set(d, p, v)
    case DelAt(p) => Del(d, p)
    case MergeAt(p, patch) =>
      var current := Get(d, p);
      if current.None? || !current.value.Obj? then None else Set(d, p, DeepMerge(current.value, patch))
  }

  function ApplyAll(d: Json, es: seq<Edit>): Option<Json>
    requires d.Obj? && forall e | e in es :: Writable(e)
    decreases |es|
  {
    if es == [] then Some(d)
    else
      match Apply(d, es[0])
      case None => None
      case Some(d') => ApplyAll(d', es[1..])
  }

  lemma ApplyMasks(st: Option<Json>, x: Json, y: Json, e: Edit, ps: set<Pattern>)
    requires Masks(st, x, y, ps) && x.Obj? && y.Obj? && CleanEdit(e, ps)
    ensures Apply(x, e).Some? <==> Apply(y, e).Some?
    ensures Apply(x, e).Some? ==> Masks(st, Apply(x, e).value, Apply(y, e).value, ps)
  {
    match e
    case SetAt(p, v) =>
      CleanMasksAlong(st, v, p, ps);
      SetMasks(st, x, y, p, v, v, ps);
    case DelAt(p) => DelMasks(st, x, y, p, ps);
    case MergeAt(p, patch) =>
      GetMasks(st, x, y, p, ps);
      if Get(x, p).Some? && Get(x, p).value.Obj? {
        var v, w := DeepMerge(Get(x, p).value, patch), DeepMerge(Get(y, p).value, patch);
        MergeMasks(Along(st, p), Get(x, p).value, Get(y, p).value, patch, BelowAlong(ps, p));
        SectionsMaskAlong(st, p, v, w, ps);
        SetMasks(st, x, y, p, v, w, ps);
      }
  }

  lemma {:induction false} ApplyAllMasks(st: Option<Json>, x: Json, y: Json, es: seq<Edit>, ps: set<Pattern>)
    requires Masks(st, x, y, ps) && x.Obj? && y.Obj?
    requires forall e | e in es :: Writable(e) && CleanEdit(e, ps)
    ensures ApplyAll(x, es).Some? <==> ApplyAll(y, es).Some?
    ensures ApplyAll(x, es).Some? ==> Masks(st, ApplyAll(x, es).value, ApplyAll(y, es).value, ps)
    decreases |es|
  {
    if es != [] {
      ApplyMasks(st, x, y, es[0], ps);
      if Apply(x, es[0]).Some? { ApplyAllMasks(st, Apply(x, es[0]).value, Apply(y, es[0]).value, es[1..], ps); }
    }
  }

  // ----- the theorems ------------------------------------------------------------------

  /** Edit the redacted document, write the whole of it back, and the proposal is
      the same edits of the stored document. */
  lemma WriteBackIsEdit(d: Json, pats: seq<Pattern>, es: seq<Edit>)
    requires d.Obj? && PlainSecrets(d, PatternSet(pats)) && Clean(d, PatternSet(pats))
    requires forall e | e in es :: CleanEdit(e, PatternSet(pats))
    ensures Redact(d, pats).Obj? && forall e | e in es :: Writable(e)
    ensures match ApplyAll(Redact(d, pats), es)
            case None => ApplyAll(d, es) == None
            case Some(edited) => Resolve(d, edited, pats) == ApplyAll(d, es)
  {
    var ps := PatternSet(pats);
    RedactIsMasked(d, pats);
    MaskedKind(d, ps);
    RedactionMasks(d, ps);
    ApplyAllMasks(Some(d), d, Masked(d, ps), es, ps);
    if ApplyAll(d, es).Some? {
      var edited := ApplyAll(Masked(d, ps), es).value;
      MasksResolve(Some(d), ApplyAll(d, es).value, edited, ps);
      ResolveIsResolved(d, edited, pats);
    }
  }

  /** Writing the redacted document back unedited gives exactly the stored one
      when no stored secret is the sentinel itself, and is refused otherwise. */
  lemma UnchangedWriteBackIff(d: Json, pats: seq<Pattern>)
    requires d.Obj? && PlainSecrets(d, PatternSet(pats))
    ensures Resolve(d, Redact(d, pats), pats) == if Clean(d, PatternSet(pats)) then Some(d) else None
  {
    var ps := PatternSet(pats);
    RedactIsMasked(d, pats);
    ResolveIsResolved(d, Redact(d, pats), pats);
    if Clean(d, ps) {
      RedactionMasks(d, ps);
      MasksResolve(Some(d), d, Masked(d, ps), ps);
    } else {
      SentinelRefused(d, ps);
    }
  }

  lemma {:induction false} SentinelRefused(d: Json, ps: set<Pattern>)
    requires !Clean(d, ps)
    ensures Resolved(Some(d), Masked(d, ps), ps).None?
  {
    var k :| k in d.fields && !CleanAt(d.fields[k], ps, k);
    var m := Masked(d, ps);
    MaskedKind(d.fields[k], Below(ps, k));
    assert m.fields[k] == MaskedAt(d.fields[k], ps, k);
    if !(Names(ps, k) && d.fields[k] == MASK) { SentinelRefused(d.fields[k], Below(ps, k)); }
    assert ResolvedAt(Some(d), m.fields[k], ps, k).None?;
  }

  /** PATCH: the client's patch is merged into the redacted section, and the result
      is set in the stored document.  That proposes what merging into the stored
      section would have. */
  lemma PatchIsMerge(d: Json, pats: seq<Pattern>, p: Path, patch: Json)
    requires d.Obj? && PlainSecrets(d, PatternSet(pats)) && Clean(d, PatternSet(pats))
    requires p != [] && patch.Obj? && Clean(patch, BelowAlong(PatternSet(pats), p))
    ensures var shown := Get(Redact(d, pats), p);
      && (shown.Some? && shown.value.Obj? <==> Get(d, p).Some? && Get(d, p).value.Obj?)
      && (shown.Some? && shown.value.Obj? ==>
           var proposed := Set(d, p, DeepMerge(shown.value, patch));
           && proposed.Some?
           && Resolve(d, proposed.value, pats) == Set(d, p, DeepMerge(Get(d, p).value, patch)))
  {
    var ps, st := PatternSet(pats), Some(d);
    RedactIsMasked(d, pats);
    RedactionMasks(d, ps);
    CleanMasksItself(st, d, ps);
    GetMasks(st, d, Masked(d, ps), p, ps);
    if Get(d, p).Some? && Get(d, p).value.Obj? {
      var v, w := DeepMerge(Get(d, p).value, patch), DeepMerge(Get(Masked(d, ps), p).value, patch);
      MergeMasks(Along(st, p), Get(d, p).value, Get(Masked(d, ps), p).value, patch, BelowAlong(ps, p));
      SectionsMaskAlong(st, p, v, w, ps);
      SetMasks(st, d, d, p, v, w, ps);
      SetOverSection(d, p, w);
      MasksResolve(st, Set(d, p, v).value, Set(d, p, w).value, ps);
      ResolveIsResolved(d, Set(d, p, w).value, pats);
    }
  }

  lemma {:induction false} SetOverSection(d: Json, p: Path, v: Json)
    requires d.Obj? && p != [] && Get(d, p).Some?
    ensures Set(d, p, v).Some?
    decreases |p|
  {
    if |p| > 1 { SetOverSection(d.fields[p[0]], p[1..], v); }
  }
}
