/**
 What normalization takes out of a body, and nothing else: the normal form is the
 pruned body without exactly the paths of its noise and the listed ones.
 */
module NoisePaths {
  import opened Json
  import opened Options
  import opened Text
  import opened Normalize

  /** The paths at which a pruned body holds noise: status, the server's metadata fields,
      the last-applied annotation (with the annotations map if that leaves it empty), the
      Flux labels, and the default conversion of a custom resource definition. */
  ghost predicate IsNoise(kind: string, c: Fields, p: FieldPath) {
    || p == ["status"]
    || (exists f :: f in SERVER_FIELDS && p == ["metadata", f])
    || p == ["metadata", "annotations", LAST_APPLIED]
    || (p == ["metadata", "annotations"] && OnlyLastApplied(c))
    || (exists l :: l in FLUX_LABELS && p == ["metadata", "labels", l])
    || (p == ["spec", "conversion"] && kind == CRD && HasDefaultConversion(c))
  }

  predicate OnlyLastApplied(c: Fields) {
    && IsMap(c, "metadata") && IsMap(c["metadata"].fields, "annotations")
    && c["metadata"].fields["annotations"].fields.Keys <= {LAST_APPLIED}
  }

  predicate HasDefaultConversion(c: Fields) {
    && IsMap(c, "spec") && IsMap(c["spec"].fields, "conversion")
    && DefaultConversion(c["spec"].fields["conversion"].fields)
  }

  /** The same as a set. */
  function PathsOf(kind: string, c: Fields): (ps: set<FieldPath>)
    ensures forall p :: p in ps <==> IsNoise(kind, c, p)
  {
    {["status"], ["metadata", "annotations", LAST_APPLIED]}
    + (set f | f in SERVER_FIELDS :: ["metadata", f])
    + (set l | l in FLUX_LABELS :: ["metadata", "labels", l])
    + (if OnlyLastApplied(c) then {["metadata", "annotations"]} else {})
    + (if kind == CRD && HasDefaultConversion(c) then {["spec", "conversion"]} else {})
  }

  /** The noise below metadata, read from there. */
  function MetadataNoise(only: bool): (ps: set<FieldPath>) {
    (set f | f in SERVER_FIELDS :: [f]) + {["annotations", LAST_APPLIED]} + (set l | l in FLUX_LABELS :: ["labels", l])
    + (if only then {["annotations"]} else {})
  }

  lemma WithoutKeys(m: Fields, gone: set<string>)
    ensures Without(Obj(m), set x | x in gone :: [x]) == Obj(m - gone)
  {
    var paths := set x | x in gone :: [x];
    var r := Without(Obj(m), paths).fields;
    forall k ensures [k] in paths <==> k in gone {
      if [k] in paths {
        var x :| x in gone && [k] == [x];
        assert [k][0] == [x][0];
      }
    }
    forall k | k in r ensures r[k] == m[k] {
      assert Tails(paths, k) == {};
      WithoutNothing(m[k]);
    }
    assert r == m - gone;
  }

  lemma WithoutKey(m: Fields, k: string)
    ensures Without(Obj(m), {[k]}) == Obj(m - {k})
  {
    DeleteThenWithout(Obj(m), [k], {});
    WithoutNothing(Delete(Obj(m), [k]));
    assert {} + {[k]} == {[k]};
  }

  lemma TailsMeans(paths: set<FieldPath>, k: string, t: FieldPath)
    ensures t in Tails(paths, k) <==> t != [] && [k] + t in paths
  {
    if t in Tails(paths, k) {
      var p :| p in paths && |p| > 1 && p[0] == k && t == p[1..];
      assert p == [k] + t;
    }
    if t != [] && [k] + t in paths {
      assert ([k] + t)[1..] == t;
    }
  }

  lemma Pair(a: string, b: string, k: string, t: FieldPath)
    ensures [k] + t == [a, b] <==> k == a && t == [b]
  {
    if [k] + t == [a, b] {
      assert ([k] + t)[0] == a && ([k] + t)[1..] == t && [a, b][1..] == [b];
    }
  }

  lemma MetadataTails(only: bool, k: string)
    ensures [k] in MetadataNoise(only) <==> k in SERVER_FIELDS || (k == "annotations" && only)
    ensures Tails(MetadataNoise(only), k) ==
      if k == "annotations" then {[LAST_APPLIED]} else if k == "labels" then (set l | l in FLUX_LABELS :: [l]) else {}
  {
    var n := MetadataNoise(only);
    var r: set<FieldPath> := if k == "annotations" then {[LAST_APPLIED]} else if k == "labels" then (set l | l in FLUX_LABELS :: [l]) else {};
    ShortNoise(only, k);
    forall t ensures t in Tails(n, k) <==> t in r {
      TailsMeans(n, k, t);
      LongNoise(only, k, t);
    }
  }

  lemma LongNoise(only: bool, k: string, t: FieldPath)
    ensures t != [] && [k] + t in MetadataNoise(only) <==>
      (k == "annotations" && t == [LAST_APPLIED]) || (k == "labels" && exists l :: l in FLUX_LABELS && t == [l])
  {
    Pair("annotations", LAST_APPLIED, k, t);
    forall l ensures [k] + t == ["labels", l] <==> k == "labels" && t == [l] { Pair("labels", l, k, t); }
    if t != [] {
      assert |[k] + t| > 1;
      assert forall f :: [k] + t != [f];
    }
  }

  lemma ShortNoise(only: bool, k: string)
    ensures [k] in MetadataNoise(only) <==> k in SERVER_FIELDS || (k == "annotations" && only)
  {
    if [k] in MetadataNoise(only) && !(only && [k] == ["annotations"]) {
      var f :| f in SERVER_FIELDS && [k] == [f];
      assert [k][0] == [f][0];
    }
    assert [k] == ["annotations"] ==> [k][0] == "annotations";
  }

  lemma WithoutAt(m: Fields, paths: set<FieldPath>, k: string)
    ensures var r := Without(Obj(m), paths).fields;
      && (k in r <==> k in m && [k] !in paths)
      && (k in r ==> r[k] == Without(m[k], Tails(paths, k)))
  {
  }

  predicate OnlyIn(m: Fields) {
    IsMap(m, "annotations") && m["annotations"].fields.Keys <= {LAST_APPLIED}
  }

  lemma MetadataAt(m: Fields, k: string)
    ensures var r, q := Without(Obj(m), MetadataNoise(OnlyIn(m))).fields, StripMetadata(m);
      (k in r <==> k in q) && (k in r ==> r[k] == q[k])
  {
    WithoutAt(m, MetadataNoise(OnlyIn(m)), k);
    MetadataTails(OnlyIn(m), k);
    StripMetadataKeys(m, k);
    if k in StripMetadata(m) { MetadataValue(m[k], k); }
  }

  lemma MetadataValue(v: Value, k: string)
    ensures Without(v, if k == "annotations" then {[LAST_APPLIED]} else if k == "labels" then (set l | l in FLUX_LABELS :: [l]) else {}) ==
      StrippedValue(v, k)
  {
    if k == "annotations" {
      if v.Obj? { WithoutKey(v.fields, LAST_APPLIED); }
    } else if k == "labels" {
      if v.Obj? { WithoutKeys(v.fields, FLUX_LABELS); }
    } else {
      WithoutNothing(v);
    }
  }

  /** Stripping metadata takes exactly its noise out. */
  lemma MetadataWithout(m: Fields)
    ensures Without(Obj(m), MetadataNoise(OnlyIn(m))) == Obj(StripMetadata(m))
  {
    forall k ensures SameField(Without(Obj(m), MetadataNoise(OnlyIn(m))).fields, StripMetadata(m), k) { MetadataAt(m, k); }
    SameFields(Without(Obj(m), MetadataNoise(OnlyIn(m))).fields, StripMetadata(m));
  }

  ghost predicate SameField(r: Fields, q: Fields, k: string) {
    (k in r <==> k in q) && (k in r ==> r[k] == q[k])
  }

  lemma SameFields(r: Fields, q: Fields)
    requires forall k :: SameField(r, q, k)
    ensures r == q
  {
    forall k ensures k in r <==> k in q { assert SameField(r, q, k); }
    forall k | k in r ensures r[k] == q[k] { assert SameField(r, q, k); }
    assert r == q;
  }

  function StrippedValue(v: Value, k: string): Value {
    if k == "annotations" && v.Obj? then Obj(v.fields - {LAST_APPLIED})
    else if k == "labels" && v.Obj? then Obj(v.fields - FLUX_LABELS)
    else v
  }

  lemma NoneLeft(anns: Fields)
    ensures |anns - {LAST_APPLIED}| == 0 <==> anns.Keys <= {LAST_APPLIED}
  {
    var left := anns - {LAST_APPLIED};
    assert left.Keys == anns.Keys - {LAST_APPLIED};
    assert |left| == |left.Keys|;
    assert |left.Keys| == 0 <==> left.Keys == {};
  }

  lemma StripAnnotationsKeys(m: Fields, k: string)
    ensures k in StripAnnotations(m) <==> k in m && !(k == "annotations" && OnlyIn(m))
    ensures k in StripAnnotations(m) ==>
      StripAnnotations(m)[k] == if k == "annotations" && m[k].Obj? then Obj(m[k].fields - {LAST_APPLIED}) else m[k]
  {
    if IsMap(m, "annotations") { NoneLeft(m["annotations"].fields); }
  }

  lemma StripLabelsKeys(m: Fields, k: string)
    ensures k in StripLabels(m) <==> k in m
    ensures k in StripLabels(m) ==> StripLabels(m)[k] == if k == "labels" && m[k].Obj? then Obj(m[k].fields - FLUX_LABELS) else m[k]
  {
  }

  lemma StripMetadataKeys(m: Fields, k: string)
    ensures k in StripMetadata(m) <==> k in m && k !in SERVER_FIELDS && !(k == "annotations" && OnlyIn(m))
    ensures k in StripMetadata(m) ==> StripMetadata(m)[k] == StrippedValue(m[k], k)
  {
    assert "annotations" != "labels" && "annotations" !in SERVER_FIELDS;
    var m0 := m - SERVER_FIELDS;
    assert OnlyIn(m0) == OnlyIn(m);
    StripAnnotationsKeys(m0, k);
    StripLabelsKeys(StripAnnotations(m0), k);
  }

  function TailNoise(kind: string, c: Fields, k: string): (ps: set<FieldPath>) {
    if k == "metadata" then MetadataNoise(OnlyLastApplied(c))
    else if k == "spec" && kind == CRD && HasDefaultConversion(c) then {["conversion"]}
    else {}
  }

  lemma BodyTails(kind: string, c: Fields, k: string)
    ensures [k] in PathsOf(kind, c) <==> k == "status"
    ensures Tails(PathsOf(kind, c), k) == TailNoise(kind, c, k)
  {
    var n := PathsOf(kind, c);
    TopNoise(kind, c, k);
    forall t ensures t in Tails(n, k) <==> t in TailNoise(kind, c, k) {
      TailsMeans(n, k, t);
      NoiseBelow(kind, c, k, t);
    }
  }

  lemma TopNoise(kind: string, c: Fields, k: string)
    ensures IsNoise(kind, c, [k]) <==> k == "status"
  {
    assert [k] == ["status"] ==> [k][0] == "status";
    assert |[k]| == 1;
  }

  lemma NoiseBelow(kind: string, c: Fields, k: string, t: FieldPath)
    ensures t != [] && IsNoise(kind, c, [k] + t) <==> t in TailNoise(kind, c, k)
  {
    assert "metadata" != "spec";
    var p := [k] + t;
    assert p[0] == k && p[1..] == t;
    Pair("spec", "conversion", k, t);
    Pair("metadata", "annotations", k, t);
    forall f ensures p == ["metadata", f] <==> k == "metadata" && t == [f] { Pair("metadata", f, k, t); }
    Triple("metadata", "annotations", LAST_APPLIED, k, t);
    forall l ensures p == ["metadata", "labels", l] <==> k == "metadata" && t == ["labels", l] { Triple("metadata", "labels", l, k, t); }
    assert p == ["status"] ==> t == [];
  }

  lemma Triple(a: string, b: string, d: string, k: string, t: FieldPath)
    ensures [k] + t == [a, b, d] <==> k == a && t == [b, d]
  {
    if [k] + t == [a, b, d] {
      assert ([k] + t)[0] == a && ([k] + t)[1..] == t && [a, b, d][1..] == [b, d];
    }
  }

  function StrippedAt(kind: string, c: Fields, k: string): Value
    requires k in c
  {
    if k == "metadata" && c[k].Obj? then Obj(StripMetadata(c[k].fields))
    else if k == "spec" && kind == CRD && HasDefaultConversion(c) then Obj(c[k].fields - {"conversion"})
    else c[k]
  }

  lemma StrippedKeys(kind: string, body: Fields, k: string)
    ensures var c := PruneFields(body);
      && (k in Stripped(kind, body) <==> k in c && k != "status")
      && (k in Stripped(kind, body) ==> Stripped(kind, body)[k] == StrippedAt(kind, c, k))
  {
    assert "metadata" != "status" && "spec" != "status" && "spec" != "metadata";
  }

  lemma BodyValue(kind: string, c: Fields, k: string)
    requires k in c
    ensures Without(c[k], TailNoise(kind, c, k)) == StrippedAt(kind, c, k)
  {
    assert "metadata" != "spec";
    if k == "metadata" {
      if c[k].Obj? { MetadataWithout(c[k].fields); }
    } else if k == "spec" && kind == CRD && HasDefaultConversion(c) {
      WithoutKey(c[k].fields, "conversion");
    } else {
      WithoutNothing(c[k]);
    }
  }

  lemma BodyAt(kind: string, body: Fields, k: string)
    ensures SameField(Without(Obj(PruneFields(body)), PathsOf(kind, PruneFields(body))).fields, Stripped(kind, body), k)
  {
    var c := PruneFields(body);
    WithoutAt(c, PathsOf(kind, c), k);
    BodyTails(kind, c, k);
    StrippedKeys(kind, body, k);
    if k in c { BodyValue(kind, c, k); }
  }

  /** Before the ignore loop, the body is the pruned one without exactly its noise. */
  lemma StrippedIsWithoutNoise(kind: string, body: Fields)
    ensures Obj(Stripped(kind, body)) == Without(Prune(Obj(body)), PathsOf(kind, PruneFields(body)))
  {
    var c := PruneFields(body);
    forall k ensures SameField(Without(Obj(c), PathsOf(kind, c)).fields, Stripped(kind, body), k) { BodyAt(kind, body, k); }
    SameFields(Without(Obj(c), PathsOf(kind, c)).fields, Stripped(kind, body));
  }

  /** The normal form of a body: pruned, without exactly its noise and the listed paths. */
  lemma NormalizedIsWithout(kind: string, body: Fields, ignore: seq<string>)
    ensures Obj(Normalized(kind, body, ignore)) ==
      Without(Prune(Obj(body)), PathsOf(kind, PruneFields(body)) + set p | p in IgnorePaths(ignore))
  {
    var noise := PathsOf(kind, PruneFields(body));
    var ps := set p | p in IgnorePaths(ignore);
    StrippedIsWithoutNoise(kind, body);
    IgnoreLoopIsWithout(Obj(Stripped(kind, body)), IgnorePaths(ignore));
    WithoutTwice(Prune(Obj(body)), noise, ps);
  }

  lemma {:induction false} WithoutTwice(v: Value, ps: set<FieldPath>, qs: set<FieldPath>)
    ensures Without(Without(v, ps), qs) == Without(v, ps + qs)
  {
    if v.Obj? {
      var l, r := Without(Without(v, ps), qs).fields, Without(v, ps + qs).fields;
      assert l.Keys == r.Keys;
      forall k | k in l ensures l[k] == r[k] {
        WithoutTwice(v.fields[k], Tails(ps, k), Tails(qs, k));
        assert Tails(ps + qs, k) == Tails(ps, k) + Tails(qs, k);
      }
      assert l == r;
    }
  }

  /** The listed paths are the entries of the ignore list, taken apart at their dots. */
  lemma IgnorePathsMean(ignore: seq<string>, i: nat)
    requires i < |ignore|
    ensures |IgnorePaths(ignore)| == |ignore|
    ensures JoinWith(IgnorePaths(ignore)[i], ".") == ignore[i] && forall part :: part in IgnorePaths(ignore)[i] ==> '.' !in part
  {
    JoinOfSplit(ignore[i], '.');
  }

  /** So every position of a normal form: gone if noise or a listed path ends there or
      above, and otherwise what the pruned body has there without those below. */
  lemma NormalizedPositions(kind: string, body: Fields, ignore: seq<string>, q: FieldPath)
    ensures var gone := PathsOf(kind, PruneFields(body)) + set p | p in IgnorePaths(ignore);
      At(Obj(Normalized(kind, body, ignore)), q) ==
        if Covered(gone, q) || At(Prune(Obj(body)), q).None? then None
        else Some(Without(At(Prune(Obj(body)), q).value, Suffixes(gone, q)))
  {
    var gone := PathsOf(kind, PruneFields(body)) + set p | p in IgnorePaths(ignore);
    NormalizedIsWithout(kind, body, ignore);
    forall p | p in gone ensures |p| > 0 {
      if p in PathsOf(kind, PruneFields(body)) { assert IsNoise(kind, PruneFields(body), p); }
    }
    PositionsAfterIgnore(Prune(Obj(body)), gone, q);
  }
}
