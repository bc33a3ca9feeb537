/** Schema-directed redaction of secrets, and resolving them on write-back. */
module Secrets {
  import opened Routes
  import opened Documents

  const REDACTED := "<redacted>"

  const MASK: Json := Str(REDACTED)

  // ----- which positions are secret ---------------------------------------------

  datatype Schema =
    | Open                     // unconstrained
    | Secret
    | Scalar                   // any other leaf
    | Fixed(keys: Fields)      // an object with named keys
    | Keyed(value: Schema)     // an object with arbitrary keys
    | Items(item: Schema)      // a list

  datatype Fields = NoFields | Field(name: string, node: Schema, rest: Fields)

  /** A path where None matches any key. */
  type Pattern = seq<Option<string>>

  function Under(k: Option<string>, ps: seq<Pattern>): (r: seq<Pattern>)
    ensures |r| == |ps| && forall i :: 0 <= i < |ps| ==> r[i] == [k] + ps[i]
  {
    seq(|ps|, i requires 0 <= i < |ps| => [k] + ps[i])
  }

  /** `secret_paths`. */
  function SecretPaths(s: Schema): seq<Pattern> {
    match s
    case Open => []
    case Scalar => []
    case Secret => [[]]
    case Fixed(keys) => FixedPaths(keys)
    case Keyed(value) => Under(None, SecretPaths(value))
    case Items(item) => Under(None, SecretPaths(item))
  }

  function FixedPaths(keys: Fields): seq<Pattern> {
    match keys
    case NoFields => []
    case Field(name, node, rest) => Under(Some(name), SecretPaths(node)) + FixedPaths(rest)
  }

  function Lookup(keys: Fields, k: string): Option<Schema> {
    match keys
    case NoFields => None
    case Field(name, node, rest) => if name == k then Some(node) else Lookup(rest, k)
  }

  /** `_matches`. */
  predicate Matches(p: Path, pat: Pattern) {
    |p| == |pat| && forall i :: 0 <= i < |p| ==> pat[i].None? || pat[i] == Some(p[i])
  }

  // ----- redaction, one pattern at a time -----------------------------------------

  /** A nonempty string is hidden; nothing else is. */
  function Hide(j: Json): Json {
    if j.Str? && j.s != "" then MASK else j
  }

  /** `_walk_one` with the redacting visitor.  A pattern that ends in the wildcard
      visits nothing. */
  function RedactOne(d: Json, pat: Pattern): Json
    decreases |pat|
  {
    if pat == [] || !d.Obj? then d
    else if pat[0].None? then Obj(map k | k in d.fields :: RedactOne(d.fields[k], pat[1..]))
    else if pat[0].value !in d.fields then d
    else if |pat| == 1 then Obj(d.fields[pat[0].value := Hide(d.fields[pat[0].value])])
    else Obj(d.fields[pat[0].value := RedactOne(d.fields[pat[0].value], pat[1..])])
  }

  /** `_redact_into`. */
  function Redact(d: Json, pats: seq<Pattern>): Json {
    if pats == [] then d else RedactOne(Redact(d, pats[..|pats| - 1]), pats[|pats| - 1])
  }

  // ----- redaction, all patterns at once --------------------------------------------

  /** The patterns that name `k` as a secret here. */
  predicate Names(ps: set<Pattern>, k: string) {
    [Some(k)] in ps
  }

  /** The patterns that go on below `k`. */
  function Below(ps: set<Pattern>, k: string): set<Pattern> {
    set p: Pattern | p in ps && |p| > 1 && (p[0].None? || p[0] == Some(k)) :: p[1..]
  }

  function Masked(d: Json, ps: set<Pattern>): Json
    decreases d, 0
  {
    if !d.Obj? then d else Obj(map k | k in d.fields :: MaskedAt(d.fields[k], ps, k))
  }

  /** What the value under key `k` becomes. */
  function MaskedAt(d: Json, ps: set<Pattern>, k: string): Json
    decreases d, 1
  {
    var inner := Masked(d, Below(ps, k));
    if Names(ps, k) then Hide(inner) else inner
  }

  lemma {:induction false} MaskedNone(d: Json)
    ensures Masked(d, {}) == d
  {
    if d.Obj? {
      forall k | k in d.fields ensures MaskedAt(d.fields[k], {}, k) == d.fields[k] {
        assert Below({}, k) == {};
        MaskedNone(d.fields[k]);
      }
      assert Masked(d, {}).fields == d.fields;
    }
  }

  lemma BelowAdd(ps: set<Pattern>, p: Pattern, k: string)
    ensures Below(ps + {p}, k) ==
            if |p| > 1 && (p[0].None? || p[0] == Some(k)) then Below(ps, k) + {p[1..]} else Below(ps, k)
  {
  }

  /** One more pattern is one more walk. */
  lemma {:induction false} MaskedAdd(d: Json, ps: set<Pattern>, p: Pattern)
    ensures Masked(d, ps + {p}) == RedactOne(Masked(d, ps), p)
    decreases |p|
  {
    hide Below, Names, MaskedAt;
    if d.Obj? && p != [] {
      var m, m' := Masked(d, ps), Masked(d, ps + {p});
      WalkKeepsKeys(m, p);
      forall k | k in d.fields ensures m'.fields[k] == WalkedAt(m.fields[k], p, k) {
        MaskedAddAt(d.fields[k], ps, p, k);
      }
      assert m'.fields == RedactOne(m, p).fields;
    } else {
      if d.Obj? { SamePatterns(d, ps, p); }
    }
  }

  /** What one walk makes of the value under key `k`. */
  function WalkedAt(d: Json, p: Pattern, k: string): Json
    requires p != []
  {
    if p[0].None? then RedactOne(d, p[1..])
    else if p[0].value != k then d
    else if |p| == 1 then Hide(d)
    else RedactOne(d, p[1..])
  }

  lemma WalkKeepsKeys(d: Json, p: Pattern)
    requires d.Obj? && p != []
    ensures RedactOne(d, p).Obj? && RedactOne(d, p).fields.Keys == d.fields.Keys
    ensures forall k | k in d.fields :: RedactOne(d, p).fields[k] == WalkedAt(d.fields[k], p, k)
  {
  }

  lemma {:induction false} MaskedAddAt(d: Json, ps: set<Pattern>, p: Pattern, k: string)
    requires p != []
    ensures MaskedAt(d, ps + {p}, k) == WalkedAt(MaskedAt(d, ps, k), p, k)
    decreases |p|, 0
  {
    BelowAdd(ps, p, k);
    assert Names(ps + {p}, k) <==> Names(ps, k) || p == [Some(k)];
    if |p| > 1 && (p[0].None? || p[0] == Some(k)) {
      MaskedAdd(d, Below(ps, k), p[1..]);
      HideLeavesSections(Masked(d, Below(ps, k)), p[1..]);
    } else if p == [Some(k)] {
      HideTwice(Masked(d, Below(ps, k)));
    }
  }

  lemma HideTwice(d: Json)
    ensures Hide(Hide(d)) == Hide(d)
  {
  }

  lemma HideLeavesSections(d: Json, p: Pattern)
    ensures RedactOne(Hide(d), p) == Hide(RedactOne(d, p))
  {
  }

  lemma SamePatterns(d: Json, ps: set<Pattern>, p: Pattern)
    requires d.Obj? && p == []
    ensures Masked(d, ps + {p}) == Masked(d, ps)
  {
    forall k | k in d.fields ensures MaskedAt(d.fields[k], ps + {p}, k) == MaskedAt(d.fields[k], ps, k) {
      BelowAdd(ps, p, k);
    }
    assert Masked(d, ps + {p}).fields == Masked(d, ps).fields;
  }

  function PatternSet(pats: seq<Pattern>): set<Pattern> {
    set p | p in pats
  }

  lemma PatternSetSnoc(pats: seq<Pattern>)
    requires pats != []
    ensures PatternSet(pats) == PatternSet(pats[..|pats| - 1]) + {pats[|pats| - 1]}
  {
    assert pats == pats[..|pats| - 1] + [pats[|pats| - 1]];
  }

  /** Walking pattern after pattern hides exactly what one pass over the document
      hides, in whatever order the patterns come. */
  lemma {:induction false} RedactIsMasked(d: Json, pats: seq<Pattern>)
    ensures Redact(d, pats) == Masked(d, PatternSet(pats))
  {
    if pats == [] {
      assert PatternSet(pats) == {};
      MaskedNone(d);
    } else {
      RedactIsMasked(d, pats[..|pats| - 1]);
      MaskedAdd(d, PatternSet(pats[..|pats| - 1]), pats[|pats| - 1]);
      PatternSetSnoc(pats);
    }
  }

  lemma {:induction false} MaskedTwice(d: Json, ps: set<Pattern>)
    ensures Masked(Masked(d, ps), ps) == Masked(d, ps)
  {
    if d.Obj? {
      var m := Masked(d, ps);
      forall k | k in d.fields ensures MaskedAt(m.fields[k], ps, k) == m.fields[k] {
        MaskedTwice(d.fields[k], Below(ps, k));
        assert m.fields[k] == MaskedAt(d.fields[k], ps, k);
      }
      assert Masked(m, ps).fields == m.fields;
    }
  }

  /** Redaction is idempotent. */
  lemma RedactTwice(d: Json, pats: seq<Pattern>)
    ensures Redact(Redact(d, pats), pats) == Redact(d, pats)
  {
    RedactIsMasked(d, pats);
    RedactIsMasked(Redact(d, pats), pats);
    MaskedTwice(d, PatternSet(pats));
  }

  // ----- what is hidden ---------------------------------------------------------------

  /** A pattern the walk acts on: it ends in a name. */
  predicate Named(pat: Pattern) {
    pat != [] && pat[|pat| - 1].Some?
  }

  ghost predicate Hits(ps: set<Pattern>, q: Path) {
    exists p :: p in ps && Named(p) && Matches(q, p)
  }

  lemma HitsHead(ps: set<Pattern>, q: Path)
    requires q != []
    ensures Hits(ps, q) <==> if |q| == 1 then Names(ps, q[0]) else Hits(Below(ps, q[0]), q[1..])
  {
    if |q| == 1 {
      if Names(ps, q[0]) { assert Named([Some(q[0])]) && Matches(q, [Some(q[0])]); }
      if Hits(ps, q) {
        var p :| p in ps && Named(p) && Matches(q, p);
        assert p == [Some(q[0])];
      }
    } else {
      if Hits(ps, q) {
        var p :| p in ps && Named(p) && Matches(q, p);
        assert p[1..] in Below(ps, q[0]) && Named(p[1..]) && Matches(q[1..], p[1..]);
      }
      if Hits(Below(ps, q[0]), q[1..]) {
        var t :| t in Below(ps, q[0]) && Named(t) && Matches(q[1..], t);
        var p: Pattern :| p in ps && |p| > 1 && (p[0].None? || p[0] == Some(q[0])) && p[1..] == t;
        TailMatches(q, p);
      }
    }
  }

  lemma TailMatches(q: Path, p: Pattern)
    requires q != [] && |p| > 1 && (p[0].None? || p[0] == Some(q[0])) && Matches(q[1..], p[1..]) && Named(p[1..])
    ensures Named(p) && Matches(q, p)
  {
    forall i | 0 <= i < |q| ensures p[i].None? || p[i] == Some(q[i]) {
      if i > 0 { assert p[i] == p[1..][i - 1] && q[i] == q[1..][i - 1]; }
    }
  }

  lemma MaskedKind(d: Json, ps: set<Pattern>)
    ensures if d.Obj? then Masked(d, ps).Obj? else Masked(d, ps) == d
  {
  }

  /** Redaction never moves a value: at every path it leaves the same kind of
      thing, and replaces exactly the nonempty strings a named pattern matches. */
  lemma {:induction false} MaskedGet(d: Json, ps: set<Pattern>, q: Path)
    ensures Get(Masked(d, ps), q).Some? <==> Get(d, q).Some?
    ensures q != [] && Get(d, q).Some? && !Get(d, q).value.Obj? ==>
      Get(Masked(d, ps), q) == Some(if Hits(ps, q) then Hide(Get(d, q).value) else Get(d, q).value)
    ensures Get(d, q).Some? && Get(d, q).value.Obj? ==> Get(Masked(d, ps), q).value.Obj?
    decreases |q|
  {
    if q != [] && d.Obj? && q[0] in d.fields {
      var k := q[0];
      HitsHead(ps, q);
      assert Masked(d, ps).fields[k] == MaskedAt(d.fields[k], ps, k);
      if |q| == 1 {
        assert q[1..] == [];
        assert Get(d, q) == Some(d.fields[k]) && Get(Masked(d, ps), q) == Some(MaskedAt(d.fields[k], ps, k));
        MaskedKind(d.fields[k], Below(ps, k));
      } else {
        MaskedGet(d.fields[k], Below(ps, k), q[1..]);
      }
    }
  }

  /** A stored secret is hidden exactly when a pattern that ends in a name matches
      its path: a secret stored directly under a wildcard key is shown. */
  lemma HiddenIff(d: Json, pats: seq<Pattern>, q: Path, secret: string)
    requires q != [] && Get(d, q) == Some(Str(secret)) && secret != "" && secret != REDACTED
    ensures Get(Redact(d, pats), q) == Some(MASK) <==> exists p :: p in pats && Named(p) && Matches(q, p)
    ensures Get(Redact(d, pats), q) != Some(MASK) ==> Get(Redact(d, pats), q) == Get(d, q)
  {
    RedactIsMasked(d, pats);
    MaskedGet(d, PatternSet(pats), q);
  }

  /** The schema's own notion of a secret position, through object keys. */
  predicate SecretAt(s: Schema, q: Path)
    decreases |q|
  {
    if q == [] then s.Secret?
    else match s
      case Fixed(keys) => Lookup(keys, q[0]).Some? && SecretAt(Lookup(keys, q[0]).value, q[1..])
      case Keyed(value) => SecretAt(value, q[1..])
      case _ => false
  }

  /** Every secret position matches one of the schema's patterns. */
  lemma {:induction false} SecretsHavePatterns(s: Schema, q: Path)
    requires SecretAt(s, q)
    ensures exists p :: p in SecretPaths(s) && Matches(q, p)
    decreases |q|
  {
    if q == [] {
      assert [] in SecretPaths(s) && Matches(q, []);
    } else {
      match s
      case Keyed(value) =>
        SecretsHavePatterns(value, q[1..]);
        var p :| p in SecretPaths(value) && Matches(q[1..], p);
        InUnder(None, SecretPaths(value), p);
        ConsMatches(q, None, p);
      case Fixed(keys) =>
        var node := Lookup(keys, q[0]).value;
        SecretsHavePatterns(node, q[1..]);
        var p :| p in SecretPaths(node) && Matches(q[1..], p);
        InFixed(keys, q[0], p);
        ConsMatches(q, Some(q[0]), p);
    }
  }

  lemma ConsMatches(q: Path, k: Option<string>, p: Pattern)
    requires q != [] && (k.None? || k == Some(q[0])) && Matches(q[1..], p)
    ensures Matches(q, [k] + p)
  {
    forall i | 0 <= i < |q| ensures ([k] + p)[i].None? || ([k] + p)[i] == Some(q[i]) {
      if i > 0 { assert q[i] == q[1..][i - 1]; }
    }
  }

  lemma InUnder(k: Option<string>, ps: seq<Pattern>, p: Pattern)
    requires p in ps
    ensures [k] + p in Under(k, ps)
  {
    var i :| 0 <= i < |ps| && ps[i] == p;
    assert Under(k, ps)[i] == [k] + p;
  }

  lemma {:induction false} InFixed(keys: Fields, k: string, p: Pattern)
    requires Lookup(keys, k).Some? && p in SecretPaths(Lookup(keys, k).value)
    ensures [Some(k)] + p in FixedPaths(keys)
  {
    if keys.name == k { InUnder(Some(k), SecretPaths(keys.node), p); }
    else { InFixed(keys.rest, k, p); }
  }

  /** Every secret of the schema sits under a named key. */
  predicate NamedSecrets(s: Schema) {
    forall p | p in SecretPaths(s) :: Named(p)
  }

  /** For a schema whose secrets sit under named keys, no stored secret is left in
      a redacted document. */
  lemma NoSecretShown(s: Schema, d: Json, q: Path, secret: string)
    requires NamedSecrets(s) && SecretAt(s, q) && q != []
    requires Get(d, q) == Some(Str(secret)) && secret != ""
    ensures Get(Redact(d, SecretPaths(s)), q) == Some(MASK)
  {
    SecretsHavePatterns(s, q);
    RedactIsMasked(d, SecretPaths(s));
    MaskedGet(d, PatternSet(SecretPaths(s)), q);
  }

  /** Otherwise one can be: a keyed collection of secrets is not redacted. */
  lemma KeyedSecretIsShown()
    ensures var s, d, q := Keyed(Secret), Obj(map["k1" := Str("hunter2")]), ["k1"];
      SecretAt(s, q) && Get(Redact(d, SecretPaths(s)), q) == Some(Str("hunter2"))
  {
    var s, d, q := Keyed(Secret), Obj(map["k1" := Str("hunter2")]), ["k1"];
    assert q[1..] == [];
    var pats := SecretPaths(s);
    forall p | p in pats ensures !Named(p) {
      var i :| 0 <= i < |pats| && pats[i] == p;
      assert p == [None];
    }
    HiddenIff(d, pats, q, "hunter2");
  }
}
