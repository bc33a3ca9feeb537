/** The structural difference between two configuration documents. */
module Diffs {
  import opened Routes
  import opened Documents

  /** One change; None on either side is MISSING. */
  datatype Change = Change(path: Path, before: Option<Json>, after: Option<Json>)

  type Diff = set<Change>

  /** `_diff_into`: recurse while both sides are objects. */
  function DiffInto(old_: Json, new_: Json, path: Path): Diff {
    if old_.Obj? && new_.Obj? then
      (set k, c | k in old_.fields.Keys * new_.fields.Keys
        && c in DiffInto(old_.fields[k], new_.fields[k], path + [k]) :: c)
      + (set k | k in old_.fields.Keys - new_.fields.Keys :: Change(path + [k], Some(old_.fields[k]), None))
      + (set k | k in new_.fields.Keys - old_.fields.Keys :: Change(path + [k], None, Some(new_.fields[k])))
    else if old_ == new_ then {}
    else {Change(path, Some(old_), Some(new_))}
  }

  function DiffDocuments(old_: Json, new_: Json): Diff {
    DiffInto(old_, new_, [])
  }

  function Invert(c: Change): Change {
    Change(c.path, c.after, c.before)
  }

  function Inverse(d: Diff): Diff {
    set c | c in d :: Invert(c)
  }

  /** `Diff.under`: the changes at, below or above a section. */
  function Under(d: Diff, section: Path): Diff {
    set c | c in d && Comparable(section, c.path)
  }

  // ----- what the difference is, without the recursion ---------------------------

  predicate BothSections(a: Option<Json>, b: Option<Json>) {
    a.Some? && b.Some? && a.value.Obj? && b.value.Obj?
  }

  /** Both documents hold sections at every proper prefix of `q`. */
  ghost predicate Reached(old_: Json, new_: Json, q: Path) {
    forall i :: 0 <= i < |q| ==> SectionsAt(old_, new_, q, i)
  }

  predicate SectionsAt(old_: Json, new_: Json, q: Path, i: nat)
    requires i <= |q|
  {
    BothSections(Get(old_, q[..i]), Get(new_, q[..i]))
  }

  /** The first place on a path where the documents stop being two sections, and
      what each holds there. */
  ghost predicate IsChange(old_: Json, new_: Json, c: Change) {
    && Reached(old_, new_, c.path)
    && c.before == Get(old_, c.path) && c.after == Get(new_, c.path)
    && c.before != c.after && !BothSections(c.before, c.after)
  }

  lemma {:induction false} ReachedBelow(old_: Json, new_: Json, k: string, q: Path)
    requires old_.Obj? && new_.Obj? && k in old_.fields && k in new_.fields
    ensures Reached(old_, new_, [k] + q) <==> Reached(old_.fields[k], new_.fields[k], q)
    ensures Get(old_, [k] + q) == Get(old_.fields[k], q) && Get(new_, [k] + q) == Get(new_.fields[k], q)
  {
    var p := [k] + q;
    assert p[1..] == q;
    forall i | 0 < i <= |p| ensures p[..i][1..] == q[..i - 1] && p[..i][0] == k {}
    if Reached(old_, new_, p) {
      forall i | 0 <= i < |q| ensures SectionsAt(old_.fields[k], new_.fields[k], q, i) {
        assert SectionsAt(old_, new_, p, i + 1);
      }
    }
    if Reached(old_.fields[k], new_.fields[k], q) {
      forall i | 0 <= i < |p| ensures SectionsAt(old_, new_, p, i) {
        if i > 0 { assert SectionsAt(old_.fields[k], new_.fields[k], q, i - 1); }
      }
    }
  }

  /** The recursion finds exactly the changes. */
  lemma {:induction false} DiffIntoExact(old_: Json, new_: Json, path: Path, c: Change)
    ensures c in DiffInto(old_, new_, path) <==>
      path <= c.path && IsChange(old_, new_, c.(path := c.path[|path|..]))
    decreases old_
  {
    if path <= c.path {
      var rest := c.path[|path|..];
      var r := c.(path := rest);
      assert c.path == path + rest;
      if old_.Obj? && new_.Obj? {
        if rest == [] {
          assert forall k | k in old_.fields.Keys * new_.fields.Keys ::
              c !in DiffInto(old_.fields[k], new_.fields[k], path + [k]) by {
            forall k | k in old_.fields.Keys * new_.fields.Keys {
              DiffIntoExact(old_.fields[k], new_.fields[k], path + [k], c);
            }
          }
        } else {
          StepExact(old_, new_, path, c);
        }
      } else if rest != [] {
        assert rest[..0] == [];
        assert !SectionsAt(old_, new_, rest, 0);
        assert c.path != path;
      } else {
        assert c.path == path;
      }
    } else if old_.Obj? && new_.Obj? {
      forall k | k in old_.fields.Keys * new_.fields.Keys
        ensures c !in DiffInto(old_.fields[k], new_.fields[k], path + [k]) {
        DiffIntoExact(old_.fields[k], new_.fields[k], path + [k], c);
        ShorterPrefix(path, k, c.path);
      }
    }
  }

  lemma ShorterPrefix(p: Path, k: string, q: Path)
    ensures p + [k] <= q ==> p <= q
  {
    assert p <= p + [k];
  }

  lemma {:induction false} StepExact(old_: Json, new_: Json, path: Path, c: Change)
    requires old_.Obj? && new_.Obj? && path < c.path
    ensures c in DiffInto(old_, new_, path) <==> IsChange(old_, new_, c.(path := c.path[|path|..]))
    decreases old_, 0
  {
    var rest := c.path[|path|..];
    var k, below := rest[0], rest[1..];
    assert rest == [k] + below && c.path == path + rest;
    forall x | x in old_.fields.Keys * new_.fields.Keys
      ensures c in DiffInto(old_.fields[x], new_.fields[x], path + [x]) <==>
        x == k && IsChange(old_.fields[x], new_.fields[x], c.(path := below))
    {
      DiffIntoExact(old_.fields[x], new_.fields[x], path + [x], c);
      if path + [x] <= c.path { assert c.path[|path|] == x; assert c.path[|path + [x]|..] == below; }
      if x == k { assert path + [x] <= c.path; }
    }
    if k in old_.fields && k in new_.fields {
      ReachedBelow(old_, new_, k, below);
    } else {
      LeafExact(old_, new_, path, c);
    }
  }

  lemma {:induction false} LeafExact(old_: Json, new_: Json, path: Path, c: Change)
    requires old_.Obj? && new_.Obj? && path < c.path
    requires !(c.path[|path|] in old_.fields && c.path[|path|] in new_.fields)
    requires forall x | x in old_.fields.Keys * new_.fields.Keys ::
        c !in DiffInto(old_.fields[x], new_.fields[x], path + [x])
    ensures c in DiffInto(old_, new_, path) <==> IsChange(old_, new_, c.(path := c.path[|path|..]))
  {
    var rest := c.path[|path|..];
    var k := rest[0];
    assert c.path == path + rest;
    if |rest| == 1 {
      assert rest == [k] && rest[..0] == [] && rest[1..] == [];
      assert c.path == path + [k];
      assert SectionsAt(old_, new_, rest, 0);
      assert forall x :: path + [x] == c.path ==> x == k by {
        forall x | path + [x] == c.path ensures x == k { assert (path + [x])[|path|] == x; }
      }
      assert Get(old_, rest) == (if k in old_.fields then Some(old_.fields[k]) else None);
      assert Get(new_, rest) == (if k in new_.fields then Some(new_.fields[k]) else None);
    } else {
      assert rest[..1] == [k];
      assert !SectionsAt(old_, new_, rest, 1);
      forall x ensures c.path != path + [x] {}
    }
  }

  /** The difference is exactly the set of changes: each carries the values found
      at its path on either side, and they differ. */
  lemma DiffExact(old_: Json, new_: Json, c: Change)
    ensures c in DiffDocuments(old_, new_) <==> IsChange(old_, new_, c)
  {
    DiffIntoExact(old_, new_, [], c);
    assert c.path[0..] == c.path;
  }

  /** No change is at or below another. */
  lemma ChangesAreAntichain(old_: Json, new_: Json, a: Change, b: Change)
    requires a in DiffDocuments(old_, new_) && b in DiffDocuments(old_, new_) && Comparable(a.path, b.path)
    ensures a == b
  {
    DiffExact(old_, new_, a);
    DiffExact(old_, new_, b);
    NothingBelow(old_, new_, a, b.path);
    NothingBelow(old_, new_, b, a.path);
    if |a.path| == |b.path| { assert a.path == b.path; }
  }

  lemma NothingBelow(old_: Json, new_: Json, a: Change, q: Path)
    requires IsChange(old_, new_, a)
    ensures a.path < q ==> !Reached(old_, new_, q)
  {
    if a.path < q {
      assert q[..|a.path|] == a.path;
      assert !SectionsAt(old_, new_, q, |a.path|);
    }
  }

  lemma ChangeDisturbs(old_: Json, new_: Json, c: Change, section: Path)
    requires IsChange(old_, new_, c) && Comparable(section, c.path)
    ensures !Undisturbed(old_, new_, section)
  {
    if c.path < section {
      assert section[..|c.path|] == c.path;
      assert !AgreeOrSections(old_, new_, section, |c.path|);
    } else {
      var below := c.path[|section|..];
      assert c.path == section + below;
      GetConcat(old_, section, below);
      GetConcat(new_, section, below);
    }
  }

  /** Undoing: the inverse is the difference the other way round. */
  lemma InverseIsSwapped(old_: Json, new_: Json)
    ensures Inverse(DiffDocuments(old_, new_)) == DiffDocuments(new_, old_)
  {
    forall c ensures c in Inverse(DiffDocuments(old_, new_)) <==> c in DiffDocuments(new_, old_) {
      DiffExact(old_, new_, Invert(c));
      DiffExact(new_, old_, c);
      SwappedIsChange(old_, new_, Invert(c));
      assert Invert(Invert(c)) == c;
    }
  }

  lemma SwappedIsChange(old_: Json, new_: Json, c: Change)
    ensures IsChange(old_, new_, c) <==> IsChange(new_, old_, Invert(c))
  {
    if Reached(old_, new_, c.path) {
      forall i | 0 <= i < |c.path| ensures SectionsAt(new_, old_, c.path, i) {
        assert SectionsAt(old_, new_, c.path, i);
      }
    }
    if Reached(new_, old_, c.path) {
      forall i | 0 <= i < |c.path| ensures SectionsAt(old_, new_, c.path, i) {
        assert SectionsAt(new_, old_, c.path, i);
      }
    }
  }

  // ----- where the documents agree -------------------------------------------------

  /** Two documents that hold different things at a path have a change at, above
      or below it. */
  lemma {:induction false} DifferenceIsReported(old_: Json, new_: Json, q: Path)
    requires Get(old_, q) != Get(new_, q)
    ensures exists c :: c in DiffDocuments(old_, new_) && Comparable(q, c.path)
  {
    var i := FirstSplit(old_, new_, q);
    if i < |q| || !BothSections(Get(old_, q), Get(new_, q)) {
      var p := q[..i];
      var c := Change(p, Get(old_, p), Get(new_, p));
      if i < |q| { SplitDiffers(old_, new_, q, i); } else { assert p == q; }
      forall j | 0 <= j < |p| ensures SectionsAt(old_, new_, p, j) {
        assert p[..j] == q[..j];
        assert SectionsAt(old_, new_, q, j);
      }
      DiffExact(old_, new_, c);
    } else {
      var below := SplitBelow(Get(old_, q).value, Get(new_, q).value);
      GetConcat(old_, q, below);
      GetConcat(new_, q, below);
      var c := Change(q + below, Get(old_, q + below), Get(new_, q + below));
      forall j | 0 <= j < |q + below| ensures SectionsAt(old_, new_, q + below, j) {
        if j < |q| { assert (q + below)[..j] == q[..j]; assert SectionsAt(old_, new_, q, j); }
        else {
          assert (q + below)[..j] == q + below[..j - |q|];
          GetConcat(old_, q, below[..j - |q|]);
          GetConcat(new_, q, below[..j - |q|]);
          assert SectionsAt(Get(old_, q).value, Get(new_, q).value, below, j - |q|);
        }
      }
      DiffExact(old_, new_, c);
      assert q <= q + below;
    }
  }

  /** How far along `q` both documents hold sections. */
  ghost function FirstSplit(old_: Json, new_: Json, q: Path): (i: nat)
    ensures i <= |q| && (forall j :: 0 <= j < i ==> SectionsAt(old_, new_, q, j))
    ensures i < |q| ==> !SectionsAt(old_, new_, q, i)
  {
    if forall j :: 0 <= j < |q| ==> SectionsAt(old_, new_, q, j) then |q|
    else FirstFalse(old_, new_, q, 0)
  }

  ghost function FirstFalse(old_: Json, new_: Json, q: Path, from: nat): (i: nat)
    requires from <= |q| && forall j :: 0 <= j < from ==> SectionsAt(old_, new_, q, j)
    ensures from <= i <= |q| && (forall j :: 0 <= j < i ==> SectionsAt(old_, new_, q, j))
    ensures i < |q| ==> !SectionsAt(old_, new_, q, i)
    decreases |q| - from
  {
    if from == |q| || !SectionsAt(old_, new_, q, from) then from else FirstFalse(old_, new_, q, from + 1)
  }

  lemma SplitDiffers(old_: Json, new_: Json, q: Path, i: nat)
    requires i <= |q| && Get(old_, q) != Get(new_, q)
    ensures Get(old_, q[..i]) != Get(new_, q[..i])
  {
    assert q == q[..i] + q[i..];
    GetConcat(old_, q[..i], q[i..]);
    GetConcat(new_, q[..i], q[i..]);
  }

  /** A change between two different documents. */
  lemma {:induction false} SplitBelow(old_: Json, new_: Json) returns (q: Path)
    requires old_ != new_
    ensures IsChange(old_, new_, Change(q, Get(old_, q), Get(new_, q)))
    decreases old_
  {
    if old_.Obj? && new_.Obj? {
      assert old_.fields != new_.fields;
      var k :| (k in old_.fields) != (k in new_.fields)
          || (k in old_.fields && k in new_.fields && old_.fields[k] != new_.fields[k]);
      if k in old_.fields && k in new_.fields {
        var below := SplitBelow(old_.fields[k], new_.fields[k]);
        ReachedBelow(old_, new_, k, below);
        q := [k] + below;
      } else {
        q := [k];
        assert q[..0] == [];
      }
    } else {
      q := [];
    }
  }

  /** The difference is empty exactly when nothing changed, so a no-op is
      recognised as one. */
  lemma EmptyDiffIff(old_: Json, new_: Json)
    ensures DiffDocuments(old_, new_) == {} <==> old_ == new_
  {
    if old_ != new_ {
      assert Get(old_, []) != Get(new_, []);
      DifferenceIsReported(old_, new_, []);
    } else {
      forall c ensures c !in DiffDocuments(old_, new_) { DiffExact(old_, new_, c); }
    }
  }

  /** Where `section` is not disturbed: the documents agree at it, and above it
      they hold sections wherever they do not agree. */
  ghost predicate Undisturbed(old_: Json, new_: Json, section: Path) {
    && Get(old_, section) == Get(new_, section)
    && forall i :: 0 <= i < |section| ==> AgreeOrSections(old_, new_, section, i)
  }

  predicate AgreeOrSections(old_: Json, new_: Json, section: Path, i: nat)
    requires i <= |section|
  {
    SectionsAt(old_, new_, section, i) || Get(old_, section[..i]) == Get(new_, section[..i])
  }

  /** `under` is empty exactly when the section is unchanged and nothing above it
      was replaced by, or with, something that is not a section. */
  lemma UnderEmptyIff(old_: Json, new_: Json, section: Path)
    ensures Under(DiffDocuments(old_, new_), section) == {} <==> Undisturbed(old_, new_, section)
  {
    var d := DiffDocuments(old_, new_);
    if Undisturbed(old_, new_, section) {
      forall c | c in d ensures !Comparable(section, c.path) {
        DiffExact(old_, new_, c);
        if Comparable(section, c.path) { ChangeDisturbs(old_, new_, c, section); }
      }
    } else {
      var i := Disturbance(old_, new_, section);
      if i == |section| {
        DifferenceIsReported(old_, new_, section);
        var c :| c in d && Comparable(section, c.path);
        assert c in Under(d, section);
      } else {
        var j := FirstSplit(old_, new_, section);
        var p := section[..j];
        if j <= i { assert section[..i] == section[..j] + section[j..i];
          GetConcat(old_, section[..j], section[j..i]); GetConcat(new_, section[..j], section[j..i]); }
        var c := Change(p, Get(old_, p), Get(new_, p));
        forall m | 0 <= m < |p| ensures SectionsAt(old_, new_, p, m) {
          assert p[..m] == section[..m];
          assert SectionsAt(old_, new_, section, m);
        }
        DiffExact(old_, new_, c);
        assert c in Under(d, section);
      }
    }
  }

  lemma Disturbance(old_: Json, new_: Json, section: Path) returns (i: nat)
    requires !Undisturbed(old_, new_, section)
    ensures i <= |section|
    ensures if i == |section| then Get(old_, section) != Get(new_, section)
        else !AgreeOrSections(old_, new_, section, i)
  {
    if Get(old_, section) != Get(new_, section) { i := |section|; }
    else { i :| 0 <= i < |section| && !AgreeOrSections(old_, new_, section, i); }
  }

  /** A plugin not told of a change has an unchanged section. */
  lemma UnaffectedIsUnchanged(old_: Json, new_: Json, section: Path)
    requires Under(DiffDocuments(old_, new_), section) == {}
    ensures Get(old_, section) == Get(new_, section)
  {
    UnderEmptyIff(old_, new_, section);
  }

  /** But a plugin may be told of a change that leaves its section as it was: an
      empty `router` object written into an empty document. */
  lemma UnderMayBeNoisy()
    ensures var old_, new_, section := EMPTY, Obj(map["router" := EMPTY]), ["router", "bgp"];
      && Get(old_, section) == Get(new_, section) == None
      && Under(DiffDocuments(old_, new_), section) != {}
  {
    var old_, new_, section := EMPTY, Obj(map["router" := EMPTY]), ["router", "bgp"];
    assert section[1..] == ["bgp"] && section[..1] == ["router"];
    assert ["router"][1..] == [];
    assert Get(old_, section[..1]) == None && Get(new_, section[..1]) == Some(EMPTY);
    assert !AgreeOrSections(old_, new_, section, 1);
    UnderEmptyIff(old_, new_, section);
  }

  /** The old document and the difference determine the new one. */
  lemma DiffDetermines(old_: Json, a: Json, b: Json)
    requires DiffDocuments(old_, a) == DiffDocuments(old_, b)
    ensures a == b
  {
    if a != b {
      var q := SplitBelow(a, b);
      if Get(old_, q) != Get(a, q) {
        DifferenceIsReported(old_, a, q);
        var c :| c in DiffDocuments(old_, a) && Comparable(q, c.path);
        SharedChange(old_, a, b, c, q);
      } else {
        DifferenceIsReported(old_, b, q);
        var c :| c in DiffDocuments(old_, b) && Comparable(q, c.path);
        SharedChange(old_, a, b, c, q);
      }
    }
  }

  /** Near a change both share, two documents agree or both hold sections. */
  lemma SharedChange(old_: Json, a: Json, b: Json, c: Change, q: Path)
    requires c in DiffDocuments(old_, a) && c in DiffDocuments(old_, b) && Comparable(q, c.path)
    ensures Get(a, q) == Get(b, q) || BothSections(Get(a, q), Get(b, q))
  {
    DiffExact(old_, a, c);
    DiffExact(old_, b, c);
    if c.path <= q {
      assert q == c.path + q[|c.path|..];
      GetConcat(a, c.path, q[|c.path|..]);
      GetConcat(b, c.path, q[|c.path|..]);
    } else {
      assert c.path[..|q|] == q;
      assert SectionsAt(old_, a, c.path, |q|) && SectionsAt(old_, b, c.path, |q|);
    }
  }
}
