/** Rendering a difference with its secrets redacted, and what validation of a
    document says about its secret positions. */
module RenderedChanges {
  import opened Routes
  import opened Documents
  import opened Secrets
  import opened WriteBack
  import opened RedactedEdits
  import Diffs

  // ----- redacting one side of a change ---------------------------------------------

  /** A secret pattern reaches this path, or a part of it. */
  ghost predicate Caught(path: Path, ps: set<Pattern>) {
    exists p :: p in ps && |p| <= |path| && Matches(path[..|p|], p)
  }

  /** What is left below `path` of the patterns that go on there. */
  function Remaining(path: Path, ps: set<Pattern>): set<Pattern> {
    set p: Pattern | p in ps && |path| < |p| && Matches(path, p[..|path|]) :: p[|path|..]
  }

  /** `_redact_value`. */
  ghost function RedactValue(path: Path, value: Option<Json>, ps: set<Pattern>): Option<Json> {
    if value == None || value == Some(Null) then value
    else if Caught(path, ps) then (if value == Some(Str("")) then value else Some(MASK))
    else Some(Masked(value.value, Remaining(path, ps)))
  }

  ghost predicate AllNamed(ps: set<Pattern>) {
    forall p | p in ps :: Named(p)
  }

  /** Every named position holds text, or null. */
  predicate TextSecrets(d: Json, ps: set<Pattern>)
    decreases d
  {
    d.Obj? ==> forall k | k in d.fields ::
      (Names(ps, k) ==> d.fields[k].Str? || d.fields[k].Null?) && TextSecrets(d.fields[k], Below(ps, k))
  }

  lemma CaughtHead(path: Path, ps: set<Pattern>)
    requires path != [] && AllNamed(ps)
    ensures Caught(path, ps) <==> Names(ps, path[0]) || Caught(path[1..], Below(ps, path[0]))
  {
    if Names(ps, path[0]) { assert Matches(path[..1], [Some(path[0])]); }
    if Caught(path, ps) {
      var p: Pattern :| p in ps && |p| <= |path| && Matches(path[..|p|], p);
      if |p| == 1 {
        assert p == [Some(path[0])];
      } else {
        assert path[..|p|][0] == path[0];
        forall i | 0 <= i < |p| - 1 ensures p[1..][i].None? || p[1..][i] == Some(path[1..][..|p| - 1][i]) {
          assert p[i + 1] == p[1..][i] && path[..|p|][i + 1] == path[1..][..|p| - 1][i];
        }
        assert p[1..] in Below(ps, path[0]) && Matches(path[1..][..|p| - 1], p[1..]);
      }
    }
    if Caught(path[1..], Below(ps, path[0])) {
      var t :| t in Below(ps, path[0]) && |t| <= |path| - 1 && Matches(path[1..][..|t|], t);
      var p: Pattern :| p in ps && |p| > 1 && (p[0].None? || p[0] == Some(path[0])) && p[1..] == t;
      forall i | 0 <= i < |p| ensures p[i].None? || p[i] == Some(path[..|p|][i]) {
        if i > 0 { assert p[i] == t[i - 1] && path[..|p|][i] == path[1..][..|t|][i - 1]; }
      }
      assert Matches(path[..|p|], p);
    }
  }

  lemma RemainingHead(path: Path, ps: set<Pattern>)
    requires path != []
    ensures Remaining(path, ps) == Remaining(path[1..], Below(ps, path[0]))
  {
    var k, rest := path[0], path[1..];
    forall r | r in Remaining(path, ps) ensures r in Remaining(rest, Below(ps, k)) {
      var p: Pattern :| p in ps && |path| < |p| && Matches(path, p[..|path|]) && p[|path|..] == r;
      assert p[..|path|][0] == p[0];
      assert p[1..] in Below(ps, k) && p[1..][|rest|..] == r;
      forall i | 0 <= i < |rest| ensures p[1..][..|rest|][i].None? || p[1..][..|rest|][i] == Some(rest[i]) {
        assert p[..|path|][i + 1] == p[1..][..|rest|][i] && path[i + 1] == rest[i];
      }
    }
    forall r | r in Remaining(rest, Below(ps, k)) ensures r in Remaining(path, ps) {
      var t: Pattern :| t in Below(ps, k) && |rest| < |t| && Matches(rest, t[..|rest|]) && t[|rest|..] == r;
      var p: Pattern :| p in ps && |p| > 1 && (p[0].None? || p[0] == Some(k)) && p[1..] == t;
      forall i | 0 <= i < |path| ensures p[..|path|][i].None? || p[..|path|][i] == Some(path[i]) {
        if i > 0 { assert p[..|path|][i] == t[..|rest|][i - 1] && path[i] == rest[i - 1]; }
      }
      assert p[|path|..] == r;
    }
  }

  lemma NothingRemaining(ps: set<Pattern>)
    requires AllNamed(ps)
    ensures Remaining([], ps) == ps && !Caught([], ps)
  {
    forall p | p in ps ensures p in Remaining([], ps) { assert p[..0] == [] && p[0..] == p; }
    forall r | r in Remaining([], ps) ensures r in ps {
      var p: Pattern :| p in ps && 0 < |p| && p[0..] == r;
      assert r == p;
    }
  }

  lemma BelowNamed(ps: set<Pattern>, k: string)
    requires AllNamed(ps)
    ensures AllNamed(Below(ps, k))
  {
  }

  /** Redacting a value taken out of a document is taking it out of the redacted
      document, when every secret sits under a named key and holds text. */
  lemma {:induction false} RedactCommutesWithGet(d: Json, path: Path, ps: set<Pattern>)
    requires AllNamed(ps) && TextSecrets(d, ps)
    ensures RedactValue(path, Get(d, path), ps) == Get(Masked(d, ps), path)
    decreases |path|
  {
    if path == [] {
      NothingRemaining(ps);
    } else if d.Obj? && path[0] in d.fields {
      var k, rest := path[0], path[1..];
      var c := d.fields[k];
      CaughtHead(path, ps);
      RemainingHead(path, ps);
      BelowNamed(ps, k);
      assert Get(Masked(d, ps), path) == Get(MaskedAt(c, ps, k), rest);
      RedactCommutesWithGet(c, rest, Below(ps, k));
    }
  }

  /** Either side of a reported change, redacted, is what the redacted documents
      show at its path. */
  lemma RenderedChangeIsProjection(old_: Json, new_: Json, s: Schema, c: Diffs.Change)
    requires NamedSecrets(s) && c in Diffs.DiffDocuments(old_, new_)
    requires TextSecrets(old_, PatternSet(SecretPaths(s))) && TextSecrets(new_, PatternSet(SecretPaths(s)))
    ensures var pats := SecretPaths(s);
      && RedactValue(c.path, c.before, PatternSet(pats)) == Get(Redact(old_, pats), c.path)
      && RedactValue(c.path, c.after, PatternSet(pats)) == Get(Redact(new_, pats), c.path)
  {
    var pats := SecretPaths(s);
    Diffs.DiffExact(old_, new_, c);
    RedactIsMasked(old_, pats);
    RedactIsMasked(new_, pats);
    RedactCommutesWithGet(old_, c.path, PatternSet(pats));
    RedactCommutesWithGet(new_, c.path, PatternSet(pats));
  }

  // ----- what validation guarantees ----------------------------------------------------

  /** The part of `validate` that constrains shape; ranges, choices and name
      syntax are left out. */
  predicate Shaped(d: Json, s: Schema)
    decreases d
  {
    match s
    case Open => true
    case Secret => d.Str?
    case Scalar => d.Bool? || d.Num? || d.Str?
    case Fixed(keys) =>
      d.Obj? && forall k | k in d.fields :: Lookup(keys, k).Some? && Shaped(d.fields[k], Lookup(keys, k).value)
    case Keyed(value) => d.Obj? && forall k | k in d.fields :: Shaped(d.fields[k], value)
    case Items(item) => d.List? && forall i :: 0 <= i < |d.items| ==> Shaped(d.items[i], item)
  }

  /** Keys of a schema object are distinct. */
  predicate Distinct(s: Schema) {
    match s
    case Fixed(keys) => DistinctFields(keys)
    case Keyed(value) => Distinct(value)
    case Items(item) => Distinct(item)
    case _ => true
  }

  predicate DistinctFields(keys: Fields) {
    keys.Field? ==> Lookup(keys.rest, keys.name).None? && Distinct(keys.node) && DistinctFields(keys.rest)
  }

  lemma {:induction false} LookupDistinct(keys: Fields, k: string)
    requires DistinctFields(keys) && Lookup(keys, k).Some?
    ensures Distinct(Lookup(keys, k).value)
  {
    if keys.name != k { LookupDistinct(keys.rest, k); }
  }

  lemma EmptyPatternIff(s: Schema)
    ensures [] in SecretPaths(s) <==> s.Secret?
  {
    if s.Fixed? { FixedNonempty(s.keys); }
  }

  lemma {:induction false} FixedNonempty(keys: Fields)
    ensures [] !in FixedPaths(keys)
  {
    if keys.Field? { FixedNonempty(keys.rest); }
  }

  lemma UnderSet(k: Option<string>, ps: seq<Pattern>, p: Pattern)
    ensures p in Under(k, ps) <==> p != [] && p[0] == k && p[1..] in ps
  {
    if p in Under(k, ps) {
      var i :| 0 <= i < |ps| && Under(k, ps)[i] == p;
      assert p[1..] == ps[i];
    }
    if p != [] && p[0] == k && p[1..] in ps {
      InUnder(k, ps, p[1..]);
      assert p == [k] + p[1..];
    }
  }

  lemma {:induction false} FixedSet(keys: Fields, p: Pattern)
    requires DistinctFields(keys)
    ensures p in FixedPaths(keys) <==>
      p != [] && p[0].Some? && Lookup(keys, p[0].value).Some? && p[1..] in SecretPaths(Lookup(keys, p[0].value).value)
  {
    if keys.Field? {
      UnderSet(Some(keys.name), SecretPaths(keys.node), p);
      FixedSet(keys.rest, p);
    }
  }

  /** The patterns below a key of a fixed object are its own schema's. */
  lemma BelowFixed(keys: Fields, k: string)
    requires DistinctFields(keys)
    ensures var ps := PatternSet(FixedPaths(keys));
      && (Names(ps, k) <==> Lookup(keys, k).Some? && Lookup(keys, k).value.Secret?)
      && Below(ps, k) == if Lookup(keys, k).None? then {} else PatternSet(SecretPaths(Lookup(keys, k).value)) - {[]}
  {
    var ps := PatternSet(FixedPaths(keys));
    FixedSet(keys, [Some(k)]);
    assert [Some(k)][1..] == [];
    if Lookup(keys, k).Some? { EmptyPatternIff(Lookup(keys, k).value); }
    forall t | t in Below(ps, k) ensures Lookup(keys, k).Some? && t in SecretPaths(Lookup(keys, k).value) && t != [] {
      var p: Pattern :| p in ps && |p| > 1 && (p[0].None? || p[0] == Some(k)) && p[1..] == t;
      FixedSet(keys, p);
    }
    if Lookup(keys, k).Some? {
      forall t | t in SecretPaths(Lookup(keys, k).value) && t != [] ensures t in Below(ps, k) {
        FixedSet(keys, [Some(k)] + t);
        assert ([Some(k)] + t)[1..] == t;
      }
    }
  }

  lemma BelowKeyed(value: Schema, k: string)
    ensures var ps := PatternSet(Under(None, SecretPaths(value)));
      !Names(ps, k) && Below(ps, k) == PatternSet(SecretPaths(value)) - {[]}
  {
    var ps := PatternSet(Under(None, SecretPaths(value)));
    UnderSet(None, SecretPaths(value), [Some(k)]);
    forall t | t in Below(ps, k) ensures t in SecretPaths(value) && t != [] {
      var p: Pattern :| p in ps && |p| > 1 && (p[0].None? || p[0] == Some(k)) && p[1..] == t;
      UnderSet(None, SecretPaths(value), p);
    }
    forall t | t in SecretPaths(value) && t != [] ensures t in Below(ps, k) {
      UnderSet(None, SecretPaths(value), [None] + t);
      assert ([None] + t)[1..] == t;
    }
  }

  /** In a document of the schema's shape a pattern reaches nothing but secrets. */
  lemma {:induction false} PatternReachesSecret(s: Schema, d: Json, q: Path, p: Pattern)
    requires Distinct(s) && Shaped(d, s) && p in SecretPaths(s) && Matches(q, p) && Get(d, q).Some?
    ensures SecretAt(s, q)
    decreases |q|
  {
    if q == [] {
      assert p == [];
      EmptyPatternIff(s);
    } else {
      assert p[0].None? || p[0] == Some(q[0]);
      assert Matches(q[1..], p[1..]) by {
        assert forall i :: 0 <= i < |q| - 1 ==> q[1..][i] == q[i + 1] && p[1..][i] == p[i + 1];
      }
      match s
      case Fixed(keys) =>
        FixedSet(keys, p);
        LookupDistinct(keys, q[0]);
        PatternReachesSecret(Lookup(keys, q[0]).value, d.fields[q[0]], q[1..], p[1..]);
      case Keyed(value) =>
        UnderSet(None, SecretPaths(value), p);
        PatternReachesSecret(value, d.fields[q[0]], q[1..], p[1..]);
      case _ =>
    }
  }

  /** Redacting a document of the schema's shape shows every other value as it is. */
  lemma OnlySecretsHidden(s: Schema, d: Json, q: Path)
    requires Distinct(s) && Shaped(d, s) && q != [] && !SecretAt(s, q)
    requires Get(d, q).Some? && !Get(d, q).value.Obj?
    ensures Get(Redact(d, SecretPaths(s)), q) == Get(d, q)
  {
    var pats := SecretPaths(s);
    RedactIsMasked(d, pats);
    MaskedGet(d, PatternSet(pats), q);
    if p :| p in PatternSet(pats) && Named(p) && Matches(q, p) { PatternReachesSecret(s, d, q, p); }
  }

  /** The empty pattern visits nothing. */
  lemma EmptyPatternIsIdle(d: Json, ps: set<Pattern>)
    requires TextSecrets(d, ps)
    ensures TextSecrets(d, ps - {[]})
  {
    if d.Obj? {
      forall k | k in d.fields
        ensures (Names(ps - {[]}, k) ==> d.fields[k].Str? || d.fields[k].Null?)
            && TextSecrets(d.fields[k], Below(ps - {[]}, k))
      {
        assert Below(ps - {[]}, k) == Below(ps, k);
      }
    }
  }

  predicate TextAt(d: Json, ps: set<Pattern>, k: string) {
    (Names(ps, k) ==> d.Str? || d.Null?) && TextSecrets(d, Below(ps, k))
  }

  lemma {:induction false} FixedHoldsText(d: Json, keys: Fields, k: string)
    requires d.Obj? && Distinct(Fixed(keys)) && Shaped(d, Fixed(keys)) && k in d.fields
    ensures TextAt(d.fields[k], PatternSet(FixedPaths(keys)), k)
    decreases d, 0
  {
    hide TextSecrets, FixedPaths, PatternSet, Below;
    var node := Lookup(keys, k).value;
    BelowFixed(keys, k);
    LookupDistinct(keys, k);
    ShapedHoldsText(d.fields[k], node);
    EmptyPatternIsIdle(d.fields[k], PatternSet(SecretPaths(node)));
  }

  lemma {:induction false} KeyedHoldsText(d: Json, value: Schema, k: string)
    requires d.Obj? && Distinct(value) && Shaped(d, Keyed(value)) && k in d.fields
    ensures TextAt(d.fields[k], PatternSet(SecretPaths(Keyed(value))), k)
    decreases d, 0
  {
    BelowKeyed(value, k);
    ShapedHoldsText(d.fields[k], value);
    EmptyPatternIsIdle(d.fields[k], PatternSet(SecretPaths(value)));
  }

  /** A document of the schema's shape holds text at every secret position. */
  lemma {:induction false} ShapedHoldsText(d: Json, s: Schema)
    requires Distinct(s) && Shaped(d, s)
    ensures TextSecrets(d, PatternSet(SecretPaths(s)))
    decreases d
  {
    hide PatternSet, Below, FixedPaths;
    if d.Obj? {
      var ps := PatternSet(SecretPaths(s));
      match s
      case Fixed(keys) =>
        forall k | k in d.fields ensures TextAt(d.fields[k], ps, k) { FixedHoldsText(d, keys, k); }
      case Keyed(value) =>
        forall k | k in d.fields ensures TextAt(d.fields[k], ps, k) { KeyedHoldsText(d, value, k); }
      case Open => NoPatternsText(d);
    }
  }

  lemma {:induction false} NoPatternsText(d: Json)
    ensures TextSecrets(d, PatternSet([]))
  {
    assert PatternSet([]) == {};
    if d.Obj? {
      forall k | k in d.fields ensures TextSecrets(d.fields[k], Below({}, k)) {
        assert Below({}, k) == {};
        NoPatternsText(d.fields[k]);
      }
    }
  }

  lemma {:induction false} TextIsPlain(d: Json, ps: set<Pattern>)
    requires TextSecrets(d, ps)
    ensures PlainSecrets(d, ps)
  {
    if d.Obj? {
      forall k | k in d.fields ensures PlainSecrets(d.fields[k], Below(ps, k)) {
        TextIsPlain(d.fields[k], Below(ps, k));
      }
    }
  }
}
