/** JSON configuration documents and the path operations on them. */
module Documents {
  import opened Routes

  datatype Json =
    | Null
    | Bool(b: bool)
    | Num(n: int)
    | Str(s: string)
    | List(items: seq<Json>)
    | Obj(fields: map<string, Json>)

  type Path = seq<string>

  const EMPTY: Json := Obj(map[])

  /** `get_path`; None is MISSING. */
  function Get(d: Json, p: Path): Option<Json> {
    if p == [] then Some(d)
    else if d.Obj? && p[0] in d.fields then Get(d.fields[p[0]], p[1..])
    else None
  }

  /** `set_path`: an absent or null intermediate becomes a section; None is the
      error "is a value, not a section". */
  function Set(d: Json, p: Path, v: Json): Option<Json>
    requires d.Obj? && p != []
    decreases |p|
  {
    if |p| == 1 then Some(Obj(d.fields[p[0] := v]))
    else
      var next := if p[0] in d.fields && d.fields[p[0]] != Null then d.fields[p[0]] else EMPTY;
      if !next.Obj? then None
      else
        match Set(next, p[1..], v)
        case None => None
        case Some(child) => Some(Obj(d.fields[p[0] := child]))
  }

  /** `del_path`, pruning the sections it empties; None when nothing is there. */
  function Del(d: Json, p: Path): Option<Json>
    requires p != []
    decreases |p|
  {
    if !d.Obj? || p[0] !in d.fields then None
    else if |p| == 1 then Some(Obj(d.fields - {p[0]}))
    else
      match Del(d.fields[p[0]], p[1..])
      case None => None
      case Some(child) => Some(Obj(if child == EMPTY then d.fields - {p[0]} else d.fields[p[0] := child]))
  }

  // ----- paths ----------------------------------------------------------------

  /** One path is at or below the other. */
  predicate Comparable(p: Path, q: Path) {
    p <= q || q <= p
  }

  lemma {:induction false} GetConcat(d: Json, p: Path, q: Path)
    ensures Get(d, p + q) == match Get(d, p) case None => None case Some(node) => Get(node, q)
    decreases |p|
  {
    if p == [] {
      assert p + q == q;
    } else if d.Obj? && p[0] in d.fields {
      assert (p + q)[1..] == p[1..] + q;
      GetConcat(d.fields[p[0]], p[1..], q);
    } else {
      assert (p + q)[0] == p[0];
    }
  }

  // ----- set ------------------------------------------------------------------

  /** What is stored can be read back, and only paths above or below it change. */
  lemma {:induction false} SetThenGet(d: Json, p: Path, v: Json, q: Path)
    requires d.Obj? && p != [] && Set(d, p, v).Some?
    ensures var d' := Set(d, p, v).value;
      && d'.Obj? && Get(d', p) == Some(v)
      && (!Comparable(p, q) ==> Get(d', q) == Get(d, q))
    decreases |p|
  {
    var d' := Set(d, p, v).value;
    if |p| > 1 {
      var next := if p[0] in d.fields && d.fields[p[0]] != Null then d.fields[p[0]] else EMPTY;
      if q != [] && q[0] == p[0] {
        SetThenGet(next, p[1..], v, q[1..]);
        if !Comparable(p, q) {
          TailsComparable(p, q);
          assert q[1..] != [];
        }
      } else {
        SetThenGet(next, p[1..], v, []);
      }
    }
  }

  lemma TailsComparable(p: Path, q: Path)
    requires p != [] && q != [] && p[0] == q[0]
    ensures Comparable(p, q) <==> Comparable(p[1..], q[1..])
  {
    assert p == [p[0]] + p[1..] && q == [q[0]] + q[1..];
  }

  /** Something that is not a section stands in the way of a path. */
  predicate Blocked(d: Json, p: Path, i: nat)
    requires i <= |p|
  {
    var node := Get(d, p[..i]);
    node.Some? && !node.value.Obj? && !node.value.Null?
  }

  /** Setting fails exactly when a proper, nonempty part of the path holds a
      value other than a section or null. */
  lemma {:induction false} SetFailsIff(d: Json, p: Path, v: Json)
    requires d.Obj? && p != []
    ensures Set(d, p, v).None? <==> exists i :: 0 < i < |p| && Blocked(d, p, i)
    decreases |p|
  {
    if |p| > 1 {
      forall i | 0 < i <= |p| ensures p[..i][1..] == p[1..][..i - 1] && p[..i][0] == p[0] {}
      if p[0] in d.fields && d.fields[p[0]] != Null {
        var next := d.fields[p[0]];
        assert p[1..][..0] == [];
        assert Get(d, p[..1]) == Some(next);
        if next.Obj? {
          SetFailsIff(next, p[1..], v);
          forall i | 0 < i < |p| - 1 && Blocked(next, p[1..], i) ensures Blocked(d, p, i + 1) {}
          forall i | 1 < i < |p| && Blocked(d, p, i) ensures Blocked(next, p[1..], i - 1) {}
        } else {
          assert Blocked(d, p, 1);
        }
      } else {
        SetFailsIff(EMPTY, p[1..], v);
        forall i | 0 < i < |p| - 1 ensures !Blocked(EMPTY, p[1..], i) {}
        forall i | 0 < i < |p| ensures !Blocked(d, p, i) {
          if p[0] in d.fields { assert Get(d, p[..i]) == Get(Null, p[1..][..i - 1]); }
        }
      }
    }
  }

  // ----- delete ---------------------------------------------------------------

  /** Deleting succeeds exactly when something is there, removes it, and changes
      nothing the path is not above or below. */
  lemma {:induction false} DelThenGet(d: Json, p: Path, q: Path)
    requires p != []
    ensures Del(d, p).Some? <==> Get(d, p).Some?
    ensures Del(d, p).Some? ==>
      var d' := Del(d, p).value;
      && d'.Obj? && Get(d', p).None?
      && (!Comparable(p, q) ==> Get(d', q) == Get(d, q))
    decreases |p|
  {
    if d.Obj? && p[0] in d.fields && |p| > 1 {
      if q != [] && q[0] == p[0] {
        DelThenGet(d.fields[p[0]], p[1..], q[1..]);
        TailsComparable(p, q);
      } else {
        DelThenGet(d.fields[p[0]], p[1..], []);
      }
    } else if |p| == 1 {
      assert p[1..] == [];
      if !Comparable(p, q) && q != [] && q[0] == p[0] { TailsComparable(p, q); }
    }
  }

  /** No section below the root is empty. */
  predicate NoEmptySections(d: Json) {
    d.Obj? ==> forall k | k in d.fields :: d.fields[k] != EMPTY && NoEmptySections(d.fields[k])
  }

  /** Pruning keeps a document free of empty sections. */
  lemma {:induction false} DelKeepsNoEmpty(d: Json, p: Path)
    requires p != [] && Del(d, p).Some? && NoEmptySections(d)
    ensures NoEmptySections(Del(d, p).value)
    decreases |p|
  {
    if |p| > 1 { DelKeepsNoEmpty(d.fields[p[0]], p[1..]); }
  }

  lemma {:induction false} SetKeepsNoEmpty(d: Json, p: Path, v: Json)
    requires d.Obj? && p != [] && Set(d, p, v).Some?
    requires NoEmptySections(d) && NoEmptySections(v) && v != EMPTY
    ensures NoEmptySections(Set(d, p, v).value) && Set(d, p, v).value != EMPTY
    decreases |p|
  {
    if |p| > 1 {
      var next := if p[0] in d.fields && d.fields[p[0]] != Null then d.fields[p[0]] else EMPTY;
      SetKeepsNoEmpty(next, p[1..], v);
    }
    assert p[0] in Set(d, p, v).value.fields;
  }

  /** A null or an empty section stands on a path. */
  predicate Hollow(d: Json, p: Path, i: nat)
    requires i <= |p|
  {
    Get(d, p[..i]) == Some(Null) || Get(d, p[..i]) == Some(EMPTY)
  }

  /** Deleting undoes setting a previously absent path exactly when no null and
      no empty section lies along it: both come back as absent. */
  lemma {:induction false} DelUndoesSetIff(d: Json, p: Path, v: Json)
    requires d.Obj? && p != [] && Get(d, p).None? && Set(d, p, v).Some?
    ensures Del(Set(d, p, v).value, p) == Some(d) <==> forall i :: 0 < i < |p| ==> !Hollow(d, p, i)
    decreases |p|
  {
    var d' := Set(d, p, v).value;
    SetThenGet(d, p, v, p);
    DelThenGet(d', p, p);
    if |p| == 1 {
      assert Del(d', p).value.fields == d.fields;
    } else {
      forall i | 0 < i <= |p| ensures p[..i][1..] == p[1..][..i - 1] && p[..i][0] == p[0] {}
      assert p[1..][..0] == [];
      if p[0] !in d.fields {
        UnsetChain(p[1..], v);
        assert Del(d', p).value.fields == d.fields;
      } else if d.fields[p[0]] == Null {
        assert Hollow(d, p, 1);
        NullIsLost(d, p, v);
      } else {
        var next := d.fields[p[0]];
        DelUndoesSetIff(next, p[1..], v);
        if next == EMPTY {
          assert Hollow(d, p, 1);
          EmptyIsLost(d, p, v);
        } else {
          assert Get(d, p[..1]) == Some(next);
          forall i | 0 < i < |p| - 1 && Hollow(next, p[1..], i) ensures Hollow(d, p, i + 1) {}
          forall i | 1 < i < |p| && Hollow(d, p, i) ensures Hollow(next, p[1..], i - 1) {}
          var child := Del(d'.fields[p[0]], p[1..]).value;
          if child == next { assert Del(d', p).value.fields == d.fields; }
        }
      }
    }
  }

  /** A null, for instance, does not come back. */
  lemma NullDoesNotComeBack(v: Json)
    ensures var d, p := Obj(map["ip" := Null]), ["ip", "route"];
      && Get(d, p).None? && Set(d, p, v).Some?
      && Del(Set(d, p, v).value, p) != Some(d)
  {
    var d, p := Obj(map["ip" := Null]), ["ip", "route"];
    assert p[1..] == ["route"] && p[..1] == ["ip"] && ["ip"][1..] == [];
    assert Set(EMPTY, ["route"], v).Some?;
    assert Get(d, p[..1]) == Some(Null);
    assert Hollow(d, p, 1);
    DelUndoesSetIff(d, p, v);
  }

  lemma {:induction false} UnsetChain(p: Path, v: Json)
    requires p != []
    ensures Set(EMPTY, p, v).Some? && Del(Set(EMPTY, p, v).value, p) == Some(EMPTY)
    decreases |p|
  {
    if |p| == 1 {
      assert Del(Set(EMPTY, p, v).value, p).value.fields == map[];
    } else {
      UnsetChain(p[1..], v);
      assert Del(Set(EMPTY, p, v).value, p).value.fields == map[];
    }
  }

  lemma NullIsLost(d: Json, p: Path, v: Json)
    requires d.Obj? && |p| > 1 && p[0] in d.fields && d.fields[p[0]] == Null && Set(d, p, v).Some?
    ensures Del(Set(d, p, v).value, p) != Some(d)
  {
    UnsetChain(p[1..], v);
  }

  lemma EmptyIsLost(d: Json, p: Path, v: Json)
    requires d.Obj? && |p| > 1 && p[0] in d.fields && d.fields[p[0]] == EMPTY && Set(d, p, v).Some?
    ensures Del(Set(d, p, v).value, p) != Some(d)
  {
    UnsetChain(p[1..], v);
  }
}
