/**
 `normalize`: null fields, server-managed fields and ignored paths are taken out of
 a resource body before it is compared. This module states what the result is; the
 in-place form of the code is in NormalizeInPlace.
 */
module Normalize {
  import opened Json
  import opened Options
  import opened Text
  import opened Positions

  const CRD := "CustomResourceDefinition"
  const SERVER_FIELDS: set<string> :=
    {"managedFields", "resourceVersion", "uid", "creationTimestamp", "generation"}
  const LAST_APPLIED := "kubectl.kubernetes.io/last-applied-configuration"
  const FLUX_LABELS: set<string> :=
    {"kustomize.toolkit.fluxcd.io/name", "kustomize.toolkit.fluxcd.io/namespace"}

  /** A field path: the parts of a dotted ignore entry. */
  type FieldPath = seq<string>

  predicate IsMap(m: Fields, k: string) {
    k in m && m[k].Obj?
  }

  // ----- Null fields -----

  function Prune(v: Value): (r: Value)
    ensures r == Null <==> v == Null
    ensures r.Obj? <==> v.Obj?
  {
    match v
    case Obj(m) => Obj(map k | k in m && Prune(m[k]) != Null :: Prune(m[k]))
    case Arr(items) => Arr(seq(|items|, i requires 0 <= i < |items| => Prune(items[i])))
    case _ => v
  }

  function PruneFields(m: Fields): (r: Fields) {
    Prune(Obj(m)).fields
  }

  /** Pruning leaves no null map value at any depth. */
  lemma {:induction false} PruneRemovesNulls(v: Value)
    ensures NoNullFields(Prune(v))
  {
    match v
    case Obj(m) => forall k | k in m { PruneRemovesNulls(m[k]); }
    case Arr(items) => forall i | 0 <= i < |items| { PruneRemovesNulls(items[i]); }
    case _ =>
  }

  lemma {:induction false} PruneKeepsNullFree(v: Value)
    requires NoNullFields(v)
    ensures Prune(v) == v
  {
    match v
    case Obj(m) =>
      forall k | k in m { PruneKeepsNullFree(m[k]); }
      assert Prune(v).fields == m;
    case Arr(items) =>
      forall i | 0 <= i < |items| { PruneKeepsNullFree(items[i]); }
      assert Prune(v).items == items;
    case _ =>
  }

  /** On the way to p some key step reads a null. */
  predicate ThroughNull(v: Option<Value>, p: Path)
    decreases |p|
  {
    p != [] && ((p[0].Key? && Child(v, p[0]) == Some(Null)) || ThroughNull(Child(v, p[0]), p[1..]))
  }

  /** r is v without its null map values: a position is there exactly when it was and no
      key step on the way reads a null, and what is there is the same scalar, a map, or
      an array of the same length. */
  ghost predicate PrunedFrom(r: Value, v: Value) {
    forall p :: PrunedAt(r, v, p)
  }

  ghost predicate PrunedAt(r: Value, v: Value, p: Path) {
    if Look(v, p).None? || ThroughNull(Some(v), p) then Look(r, p).None?
    else Look(r, p).Some? && SameShape(Look(v, p).value, Look(r, p).value)
  }

  lemma {:induction false} PrunePositions(v: Value, p: Path)
    ensures PrunedAt(Prune(v), v, p)
    decreases |p|
  {
    if p != [] {
      var s, rest := p[0], p[1..];
      var x := Child(Some(v), s);
      if x.Some? && !(s.Key? && x == Some(Null)) {
        assert Child(Some(Prune(v)), s) == Some(Prune(x.value));
        PrunePositions(x.value, rest);
      } else {
        assert Child(Some(Prune(v)), s) == None;
        LookFromNone(rest);
      }
    }
  }

  /** Exactly one tree is v without its null map values, and Prune gives it. */
  lemma PruneExact(r: Value, v: Value)
    ensures r == Prune(v) <==> PrunedFrom(r, v)
  {
    forall p ensures PrunedAt(Prune(v), v, p) { PrunePositions(v, p); }
    if PrunedFrom(r, v) {
      forall p ensures SameAt(r, Prune(v), p) {
        assert PrunedAt(r, v, p) && PrunedAt(Prune(v), v, p);
      }
      SameEverywhere(r, Prune(v));
    }
  }

  // ----- Server-managed fields -----

  function StripAnnotations(m: Fields): (r: Fields) {
    if IsMap(m, "annotations") then
      var anns := m["annotations"].fields - {LAST_APPLIED};
      if |anns| == 0 then m - {"annotations"} else m["annotations" := Obj(anns)]
    else m
  }

  function StripLabels(m: Fields): (r: Fields) {
    if IsMap(m, "labels") then m["labels" := Obj(m["labels"].fields - FLUX_LABELS)] else m
  }

  function StripMetadata(m: Fields): (r: Fields) {
    StripLabels(StripAnnotations(m - SERVER_FIELDS))
  }

  function StripServer(c: Fields): (r: Fields) {
    var c := c - {"status"};
    if IsMap(c, "metadata") then c["metadata" := Obj(StripMetadata(c["metadata"].fields))] else c
  }

  /** The conversion an API server defaults to. */
  predicate DefaultConversion(conv: Fields) {
    "strategy" in conv && conv["strategy"].Str? && ToLower(conv["strategy"].s) == "none"
  }

  function StripConversion(c: Fields): (r: Fields) {
    if IsMap(c, "spec") && IsMap(c["spec"].fields, "conversion")
       && DefaultConversion(c["spec"].fields["conversion"].fields)
    then c["spec" := Obj(c["spec"].fields - {"conversion"})]
    else c
  }

  // ----- Ignored paths -----

  function Delete(v: Value, p: FieldPath): (r: Value)
    requires |p| > 0
    ensures r.Obj? <==> v.Obj?
    decreases |p|
  {
    if !v.Obj? then v
    else if |p| == 1 then Obj(v.fields - {p[0]})
    else if p[0] !in v.fields then v
    else Obj(v.fields[p[0] := Delete(v.fields[p[0]], p[1..])])
  }

  ghost predicate Proper(ps: seq<FieldPath>) {
    forall p :: p in ps ==> |p| > 0
  }

  function DeleteAll(v: Value, ps: seq<FieldPath>): (r: Value)
    requires Proper(ps)
    ensures r.Obj? <==> v.Obj?
    decreases |ps|
  {
    if ps == [] then v else DeleteAll(Delete(v, ps[0]), ps[1..])
  }

  function IgnorePaths(ignore: seq<string>): (ps: seq<FieldPath>)
    ensures Proper(ps)
    ensures |ps| == |ignore|
  {
    seq(|ignore|, i requires 0 <= i < |ignore| => Split(ignore[i], '.'))
  }

  /** The body before the ignore loop, and the whole of `normalize`. */
  function Stripped(kind: string, body: Fields): (r: Fields) {
    var c := StripServer(PruneFields(body));
    if kind == CRD then StripConversion(c) else c
  }

  function Normalized(kind: string, body: Fields, ignore: seq<string>): (r: Fields) {
    DeleteAll(Obj(Stripped(kind, body)), IgnorePaths(ignore)).fields
  }

  // ----- The ignore loop depends only on the set of paths -----

  function Tails(paths: set<FieldPath>, k: string): (ts: set<FieldPath>) {
    set p | p in paths && |p| > 1 && p[0] == k :: p[1..]
  }

  /** All listed paths taken out at once. */
  function Without(v: Value, paths: set<FieldPath>): (r: Value)
    ensures r.Obj? <==> v.Obj?
    ensures !v.Obj? ==> r == v
  {
    match v
    case Obj(m) => Obj(map k | k in m && [k] !in paths :: Without(m[k], Tails(paths, k)))
    case _ => v
  }

  lemma {:induction false} WithoutNothing(v: Value)
    ensures Without(v, {}) == v
  {
    if v.Obj? {
      forall k | k in v.fields ensures Without(v.fields[k], Tails({}, k)) == v.fields[k] {
        assert Tails({}, k) == {};
        WithoutNothing(v.fields[k]);
      }
      assert Without(v, {}).fields == v.fields;
    }
  }

  lemma {:induction false} DeleteThenWithout(v: Value, p: FieldPath, paths: set<FieldPath>)
    requires |p| > 0
    ensures Without(Delete(v, p), paths) == Without(v, paths + {p})
    decreases |p|
  {
    if v.Obj? {
      var m := v.fields;
      var l, r := Without(Delete(v, p), paths).fields, Without(v, paths + {p}).fields;
      assert |p| == 1 ==> p == [p[0]];
      assert l.Keys == r.Keys;
      forall k | k in l ensures l[k] == r[k] {
        if |p| > 1 && k == p[0] {
          DeleteThenWithout(m[k], p[1..], Tails(paths, k));
          assert Tails(paths + {p}, k) == Tails(paths, k) + {p[1..]};
        } else {
          assert Tails(paths + {p}, k) == Tails(paths, k);
        }
      }
      assert l == r;
    }
  }

  /** The loop takes out exactly the set of listed paths: order and repetition
      do not matter. */
  lemma {:induction false} IgnoreLoopIsWithout(v: Value, ps: seq<FieldPath>)
    requires Proper(ps)
    ensures DeleteAll(v, ps) == Without(v, set p | p in ps)
    decreases |ps|
  {
    if ps == [] {
      assert (set p | p in ps) == {};
      WithoutNothing(v);
    } else {
      IgnoreLoopIsWithout(Delete(v, ps[0]), ps[1..]);
      DeleteThenWithout(v, ps[0], set p | p in ps[1..]);
      assert (set p | p in ps) == (set p | p in ps[1..]) + {ps[0]};
    }
  }

  lemma IgnoreOrderIrrelevant(v: Value, ps: seq<FieldPath>, qs: seq<FieldPath>)
    requires Proper(ps) && Proper(qs)
    requires forall p :: p in ps <==> p in qs
    ensures DeleteAll(v, ps) == DeleteAll(v, qs)
    ensures DeleteAll(DeleteAll(v, ps), qs) == DeleteAll(v, ps)
  {
    IgnoreLoopIsWithout(v, ps);
    IgnoreLoopIsWithout(v, qs);
    assert (set p | p in ps) == (set p | p in qs);
    IgnoreLoopIsWithout(v, ps + qs);
    DeleteAllConcat(v, ps, qs);
    assert (set p | p in ps + qs) == (set p | p in ps);
  }

  lemma {:induction false} DeleteAllConcat(v: Value, ps: seq<FieldPath>, qs: seq<FieldPath>)
    requires Proper(ps) && Proper(qs)
    ensures DeleteAll(v, ps + qs) == DeleteAll(DeleteAll(v, ps), qs)
    decreases |ps|
  {
    if ps == [] {
      assert ps + qs == qs;
    } else {
      assert (ps + qs)[1..] == ps[1..] + qs;
      DeleteAllConcat(Delete(v, ps[0]), ps[1..], qs);
    }
  }

  // ----- What the ignore loop leaves alone -----

  /** The value at a field path, if there is one. */
  function At(v: Value, q: FieldPath): (r: Option<Value>)
    decreases |q|
  {
    if q == [] then Some(v)
    else if v.Obj? && q[0] in v.fields then At(v.fields[q[0]], q[1..])
    else None
  }

  /** Some listed path ends at q or above it. */
  ghost predicate Covered(paths: set<FieldPath>, q: FieldPath) {
    exists p :: p in paths && p <= q
  }

  /** The listed paths below q, read from q. */
  function Suffixes(paths: set<FieldPath>, q: FieldPath): (ts: set<FieldPath>)
  {
    set p | p in paths && q <= p :: p[|q|..]
  }

  /** Every position after the ignore loop: gone if a listed path ends there or
      above, otherwise what was there without the listed paths below it. */
  lemma {:induction false} PositionsAfterIgnore(v: Value, paths: set<FieldPath>, q: FieldPath)
    requires forall p :: p in paths ==> |p| > 0
    ensures At(Without(v, paths), q) ==
      if Covered(paths, q) || At(v, q).None? then None
      else Some(Without(At(v, q).value, Suffixes(paths, q)))
    decreases |q|
  {
    if q == [] {
      assert Suffixes(paths, []) == paths by {
        assert forall p: FieldPath :: p[0..] == p;
      }
    } else {
      var k, rest := q[0], q[1..];
      var ts := Tails(paths, k);
      if v.Obj? && k in v.fields {
        if [k] in paths {
          assert [k] <= q;
        } else {
          PositionsAfterIgnore(v.fields[k], ts, rest);
          assert Covered(ts, rest) <==> Covered(paths, q) by { CoveredTails(paths, q); }
          assert Suffixes(ts, rest) == Suffixes(paths, q) by { SuffixTails(paths, q); }
        }
      }
    }
  }

  lemma CoveredTails(paths: set<FieldPath>, q: FieldPath)
    requires q != [] && [q[0]] !in paths && [] !in paths
    ensures Covered(Tails(paths, q[0]), q[1..]) <==> Covered(paths, q)
  {
    if Covered(paths, q) {
      var p :| p in paths && p <= q;
      assert |p| > 0 && p == [q[0]] + p[1..];
      assert [q[0]] + [] == [q[0]];
      assert p[1..] in Tails(paths, q[0]) && p[1..] <= q[1..];
    }
    if Covered(Tails(paths, q[0]), q[1..]) {
      var t :| t in Tails(paths, q[0]) && t <= q[1..];
      var p :| p in paths && |p| > 1 && p[0] == q[0] && t == p[1..];
      assert p == [q[0]] + t && q == [q[0]] + q[1..];
      assert p <= q;
    }
  }

  lemma SuffixTails(paths: set<FieldPath>, q: FieldPath)
    requires q != [] && [q[0]] !in paths && [] !in paths
    ensures Suffixes(Tails(paths, q[0]), q[1..]) == Suffixes(paths, q)
  {
    var k, rest := q[0], q[1..];
    assert q == [k] + rest;
    forall s | s in Suffixes(paths, q) ensures s in Suffixes(Tails(paths, k), rest) {
      var p :| p in paths && q <= p && s == p[|q|..];
      assert p == [k] + p[1..];
      assert [k] + [] == [k];
      assert p[1..] in Tails(paths, k);
      assert rest <= p[1..] && p[1..][|rest|..] == s;
    }
    forall s | s in Suffixes(Tails(paths, k), rest) ensures s in Suffixes(paths, q) {
      var t :| t in Tails(paths, k) && rest <= t && s == t[|rest|..];
      var p :| p in paths && |p| > 1 && p[0] == k && t == p[1..];
      assert p == [k] + t;
      assert q <= p && p[|q|..] == s;
    }
  }

  /** A position that is not on, above or below a listed path keeps its value. */
  lemma IgnoreLeavesOthersAlone(v: Value, ps: seq<FieldPath>, q: FieldPath)
    requires Proper(ps)
    requires forall p :: p in ps ==> !(p <= q) && !(q <= p)
    ensures At(DeleteAll(v, ps), q) == At(v, q)
  {
    var paths := set p | p in ps;
    IgnoreLoopIsWithout(v, ps);
    PositionsAfterIgnore(v, paths, q);
    assert Suffixes(paths, q) == {};
    if At(v, q).Some? { WithoutNothing(At(v, q).value); }
  }
}
