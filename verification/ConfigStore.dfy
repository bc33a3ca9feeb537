/** The running configuration: proposals, commits, revisions, redaction. */
module ConfigStore {
  import opened Routes
  import opened Documents
  import opened Secrets
  import opened WriteBack
  import opened RedactedEdits
  import opened RenderedChanges
  import Diffs

  datatype ConfigError = PathRequired | NotASection | NothingThere | NothingToKeep | NotAnObject | Invalid

  datatype Proposal = Proposed(document: Json) | Error(error: ConfigError)

  // ----- the path edits, as the loops they are -----------------------------------------

  /** The sections from `d` down to the one that will hold `p`'s last key. */
  ghost predicate SectionChain(d: Json, p: Path, chain: seq<Json>) {
    && 0 < |chain| <= |p| && chain[0] == d
    && (forall j :: 0 <= j < |chain| ==> chain[j].Obj?)
    && (forall j :: 0 <= j < |chain| - 1 ==> chain[j + 1] == Section(chain[j], p[j]))
  }

  method WalkSections(d: Json, p: Path, ghost v: Json) returns (chain: seq<Json>, open_: bool)
    requires d.Obj? && p != []
    ensures open_ <==> Set(d, p, v).Some?
    ensures open_ ==> SectionChain(d, p, chain) && |chain| == |p|
  {
    var node, i := d, 0;
    chain, open_ := [d], true;
    assert p[0..] == p;
    while i < |p| - 1
      invariant 0 <= i < |p| && |chain| == i + 1 && chain[i] == node && SectionChain(d, p, chain)
      invariant Set(d, p, v).Some? <==> Set(node, p[i..], v).Some?
    {
      assert p[i..][1..] == p[i + 1..];
      var next := Section(node, p[i]);
      if !next.Obj? {
        return chain, false;
      }
      node := next;
      chain := chain + [node];
      i := i + 1;
    }
    assert p[i..] == [p[i]];
  }

  /** Walk down creating sections, then put the value in. */
  method SetPath(d: Json, p: Path, v: Json) returns (r: Option<Json>)
    requires d.Obj? && p != []
    ensures r == Set(d, p, v)
  {
    var chain, open_ := WalkSections(d, p, v);
    if !open_ {
      return None;
    }
    var i := |p| - 1;
    assert p[i..] == [p[i]];
    var built := Obj(chain[i].fields[p[i] := v]);
    while i > 0
      invariant 0 <= i < |p|
      invariant Set(chain[i], p[i..], v) == Some(built)
    {
      assert p[i - 1..][1..] == p[i..] && p[i - 1..][0] == p[i - 1];
      assert chain[i] == Section(chain[i - 1], p[i - 1]);
      i := i - 1;
      built := Obj(chain[i].fields[p[i] := built]);
    }
    assert p[0..] == p;
    r := Some(built);
  }

  /** Walk down keeping the chain of sections, delete, then prune upwards. */
  method DelPath(d: Json, p: Path) returns (r: Option<Json>)
    requires p != []
    ensures r == Del(d, p)
  {
    var chain, node, i := [d], d, 0;
    assert p[0..] == p;
    while i < |p| - 1
      invariant 0 <= i < |p| && |chain| == i + 1 && chain[i] == node && chain[0] == d
      invariant forall j :: 0 <= j < i ==>
          chain[j].Obj? && p[j] in chain[j].fields && chain[j + 1] == chain[j].fields[p[j]]
      invariant Del(d, p).Some? <==> Del(node, p[i..]).Some?
    {
      assert p[i..][1..] == p[i + 1..];
      if !node.Obj? || p[i] !in node.fields {
        return None;
      }
      node := node.fields[p[i]];
      chain := chain + [node];
      i := i + 1;
    }
    assert p[i..] == [p[i]];
    if !node.Obj? || p[i] !in node.fields {
      return None;
    }
    var built := Obj(node.fields - {p[i]});
    while i > 0
      invariant 0 <= i < |p|
      invariant Del(chain[i], p[i..]) == Some(built)
    {
      assert p[i - 1..][1..] == p[i..] && p[i - 1..][0] == p[i - 1];
      i := i - 1;
      built := Obj(if built == EMPTY then chain[i].fields - {p[i]} else chain[i].fields[p[i] := built]);
    }
    r := Some(built);
  }

  /** `_deep_merge`: a copy of the current section, edited key by key. */
  method MergeSection(current: Json, patch: Json) returns (merged: Json)
    requires current.Obj? && patch.Obj?
    ensures merged == DeepMerge(current, patch)
    decreases patch
  {
    var fields, todo := current.fields, patch.fields.Keys;
    while todo != {}
      invariant todo <= patch.fields.Keys
      invariant forall k :: MergedSoFar(current, patch, fields, todo, k)
      decreases todo
    {
      var key :| key in todo;
      var value := patch.fields[key];
      assert MergedSoFar(current, patch, fields, todo, key);
      ghost var before := fields;
      if value == Null {
        fields := fields - {key};
      } else if value.Obj? && key in fields && fields[key].Obj? {
        var below := MergeSection(fields[key], value);
        fields := fields[key := below];
      } else {
        fields := fields[key := value];
      }
      forall k ensures MergedSoFar(current, patch, fields, todo - {key}, k) {
        assert MergedSoFar(current, patch, before, todo, k);
      }
      todo := todo - {key};
    }
    forall k ensures k in fields <==> k in DeepMerge(current, patch).fields {
      assert MergedSoFar(current, patch, fields, {}, k);
    }
    forall k | k in fields ensures fields[k] == DeepMerge(current, patch).fields[k] {
      assert MergedSoFar(current, patch, fields, {}, k);
    }
    assert fields == DeepMerge(current, patch).fields;
    merged := Obj(fields);
  }

  /** Keys visited are merged; keys to come are as they were. */
  ghost predicate MergedSoFar(current: Json, patch: Json, fields: map<string, Json>, todo: set<string>, k: string)
    requires current.Obj? && patch.Obj?
  {
    var final := DeepMerge(current, patch).fields;
    if k in todo then (k in fields <==> k in current.fields) && (k in fields ==> fields[k] == current.fields[k])
    else (k in fields <==> k in final) && (k in fields ==> fields[k] == final[k])
  }

  function OrEmpty(d: Json): Json {
    if d in {Null, Bool(false), Num(0), Str(""), List([])} then EMPTY else d
  }

  // ----- the store ------------------------------------------------------------------------

  class Store {
    const schema: Schema
    const further: Json -> bool    // what `validate` checks beyond shape
    var document: Json
    var revision: nat
    ghost var history: seq<Json>   // the document each revision named

    predicate Accepts(d: Json) {
      Shaped(d, schema) && further(d)
    }

    /** The running document is valid, and the revision counts the documents. */
    ghost predicate Valid()
      reads this
    {
      && Distinct(schema) && document.Obj? && Accepts(document)
      && |history| == revision + 1 && history[revision] == document
    }

    constructor (document: Json, schema: Schema, further: Json -> bool)
      requires document.Obj? && Distinct(schema) && Shaped(document, schema) && further(document)
      ensures Valid() && this.document == document && revision == 0
      ensures this.schema == schema && this.further == further
    {
      this.document, this.schema, this.further, revision := document, schema, further, 0;
      history := [document];
    }

    /** Pattern after pattern. */
    method RedactInto(d: Json) returns (r: Json)
      ensures r == Redact(d, SecretPaths(schema))
    {
      var pats := SecretPaths(schema);
      r := d;
      var i := 0;
      while i < |pats|
        invariant 0 <= i <= |pats| && r == Redact(d, pats[..i])
      {
        assert pats[..i + 1][..i] == pats[..i];
        r := RedactOne(r, pats[i]);
        i := i + 1;
      }
      assert pats[..i] == pats;
    }

    method ResolveSecrets(d: Json) returns (r: Option<Json>)
      ensures r == Resolve(document, d, SecretPaths(schema))
    {
      var pats := SecretPaths(schema);
      r := Some(d);
      var i := 0;
      while i < |pats| && r.Some?
        invariant 0 <= i <= |pats| && r == Resolve(document, d, pats[..i])
      {
        assert pats[..i + 1][..i] == pats[..i];
        r := ResolveOne(document, r.value, pats[i], []);
        i := i + 1;
      }
      if r.None? { FailureStays(document, d, pats, i); }
      assert r.Some? ==> pats[..i] == pats;
    }

    /** A copy of the running document; redacted, it shows no stored secret. */
    method Document(redact: bool) returns (d: Json)
      requires Valid()
      ensures d == if redact then Redact(document, SecretPaths(schema)) else document
      ensures redact && NamedSecrets(schema) ==>
        forall q: Path, secret: string | SecretAt(schema, q) && q != [] && Get(document, q) == Some(Str(secret))
          && secret != "" ::
          Get(d, q) == Some(MASK)
    {
      d := document;
      if redact {
        d := RedactInto(d);
        if NamedSecrets(schema) {
          forall q: Path, secret: string | SecretAt(schema, q) && q != [] && Get(document, q) == Some(Str(secret))
            && secret != ""
            ensures Get(d, q) == Some(MASK)
          {
            NoSecretShown(schema, document, q, secret);
          }
        }
      }
    }

    /** What the proposal would be, before validation. */
    ghost function Written(d: Option<Json>): Option<Json>
      reads this
    {
      if d.None? then None else Resolve(document, d.value, SecretPaths(schema))
    }

    /** A proposal that was made and validates. */
    ghost predicate Admits(d: Option<Json>)
      reads this
    {
      d.Some? && Accepts(d.value)
    }

    method ProposeSet(p: Path, value: Json) returns (r: Proposal)
      requires Valid()
      ensures r.Proposed? <==>
          p != [] && Written(Set(document, p, value)).Some? && Accepts(Written(Set(document, p, value)).value)
      ensures r.Proposed? ==> Some(r.document) == Written(Set(document, p, value)) && r.document.Obj?
    {
      if p == [] {
        return Error(PathRequired);
      }
      var proposed := SetPath(document, p, value);
      if proposed.None? {
        return Error(NotASection);
      }
      SetIsSection(document, p, value);
      r := Judge(proposed.value);
    }

    method ProposeDelete(p: Path) returns (r: Proposal)
      requires Valid()
      ensures r.Proposed? <==> p != [] && Del(document, p).Some? && Accepts(Del(document, p).value)
      ensures r.Proposed? ==> Some(r.document) == Del(document, p) && r.document.Obj?
    {
      if p == [] {
        return Error(PathRequired);
      }
      var proposed := DelPath(document, p);
      if proposed.None? {
        return Error(NothingThere);
      }
      DelIsSection(document, p);
      r := if Accepts(proposed.value) then Proposed(proposed.value) else Error(Invalid);
    }

    /** Anything Python calls false stands for the empty document. */
    method ProposeReplace(d: Json) returns (r: Proposal)
      requires Valid()
      ensures r.Proposed? <==>
        OrEmpty(d).Obj? && Written(Some(OrEmpty(d))).Some? && Accepts(Written(Some(OrEmpty(d))).value)
      ensures r.Proposed? ==> Some(r.document) == Written(Some(OrEmpty(d))) && r.document.Obj?
    {
      var proposed := OrEmpty(d);
      if !proposed.Obj? {
        return Error(NotAnObject);
      }
      r := Judge(proposed);
    }

    /** Resolve write-back sentinels, then validate. */
    method Judge(d: Json) returns (r: Proposal)
      requires Valid() && d.Obj?
      ensures r.Proposed? <==> Written(Some(d)).Some? && Accepts(Written(Some(d)).value)
      ensures r.Proposed? ==> Some(r.document) == Written(Some(d)) && r.document.Obj?
    {
      var resolved := ResolveSecrets(d);
      if resolved.None? {
        return Error(NothingToKeep);
      }
      ResolveKeepsKind(document, d, SecretPaths(schema));
      r := if Accepts(resolved.value) then Proposed(resolved.value) else Error(Invalid);
    }

    method Commit(proposed: Json) returns (r: nat)
      requires Valid() && proposed.Obj? && Accepts(proposed)
      modifies this
      ensures Valid() && document == proposed && r == revision == old(revision) + 1
      ensures history == old(history) + [proposed]
    {
      document, revision := proposed, revision + 1;
      history := history + [proposed];
      r := revision;
    }

    /** The optimistic-concurrency guard: True lets the write go on. */
    method CheckRevision(ifRevision: Option<int>) returns (ok: bool)
      requires Valid()
      ensures ok <==> ifRevision.None? || ifRevision.value == revision
      ensures ok && ifRevision.Some? ==> 0 <= ifRevision.value < |history| && history[ifRevision.value] == document
    {
      ok := ifRevision.None? || ifRevision.value == revision;
    }
  }

  lemma {:induction false} FailureStays(stored: Json, d: Json, pats: seq<Pattern>, i: nat)
    requires i <= |pats| && Resolve(stored, d, pats[..i]).None?
    ensures Resolve(stored, d, pats).None?
  {
    if i < |pats| {
      assert pats[..|pats| - 1][..i] == pats[..i];
      FailureStays(stored, d, pats[..|pats| - 1], i);
    } else {
      assert pats[..i] == pats;
    }
  }

  lemma {:induction false} ResolveKeepsKind(stored: Json, d: Json, pats: seq<Pattern>)
    requires d.Obj?
    ensures Resolve(stored, d, pats).Some? ==> Resolve(stored, d, pats).value.Obj?
  {
    if pats != [] { ResolveKeepsKind(stored, d, pats[..|pats| - 1]); }
  }

  /** A client that reads the redacted document, edits it without touching a
      secret, and replaces the document with the result proposes exactly the
      same edits of the running one. */
  lemma ReplaceIsEdit(schema: Schema, stored: Json, es: seq<Edit>)
    requires stored.Obj? && Distinct(schema) && Shaped(stored, schema)
    requires Clean(stored, PatternSet(SecretPaths(schema)))
    requires forall e | e in es :: CleanEdit(e, PatternSet(SecretPaths(schema)))
    ensures var pats := SecretPaths(schema);
      && Redact(stored, pats).Obj? && (forall e | e in es :: Writable(e))
      && match ApplyAll(Redact(stored, pats), es)
         case None => ApplyAll(stored, es) == None
         case Some(edited) => Resolve(stored, edited, pats) == ApplyAll(stored, es)
  {
    ShapedHoldsText(stored, schema);
    TextIsPlain(stored, PatternSet(SecretPaths(schema)));
    WriteBackIsEdit(stored, SecretPaths(schema), es);
  }

  /** The identity edit changes nothing: its difference is empty. */
  lemma IdentityIsNoChange(schema: Schema, stored: Json)
    requires stored.Obj? && Distinct(schema) && Shaped(stored, schema)
    ensures var pats := SecretPaths(schema);
      var written := Resolve(stored, Redact(stored, pats), pats);
      if Clean(stored, PatternSet(pats)) then written.Some? && Diffs.DiffDocuments(stored, written.value) == {}
      else written.None?
  {
    ShapedHoldsText(stored, schema);
    TextIsPlain(stored, PatternSet(SecretPaths(schema)));
    UnchangedWriteBackIff(stored, SecretPaths(schema));
    Diffs.EmptyDiffIff(stored, stored);
  }
}
