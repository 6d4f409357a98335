/**
 Properties of `normalize` as a whole: when it is idempotent, and the edits of a
 live resource that it cannot see.
 */
module NormalForm {
  import opened Json
  import opened Options
  import opened Text
  import opened Normalize

  // ----- Idempotence -----

  /** What a second strip would leave alone, apart from an empty annotations map. */
  predicate MetadataClean(m: Fields) {
    && m.Keys !! SERVER_FIELDS
    && (IsMap(m, "annotations") ==> LAST_APPLIED !in m["annotations"].fields)
    && (IsMap(m, "labels") ==> m["labels"].fields.Keys !! FLUX_LABELS)
  }

  predicate ServerClean(c: Fields) {
    && "status" !in c
    && (IsMap(c, "metadata") ==> MetadataClean(c["metadata"].fields))
  }

  predicate ConversionClean(c: Fields) {
    IsMap(c, "spec") && IsMap(c["spec"].fields, "conversion") ==>
      !DefaultConversion(c["spec"].fields["conversion"].fields)
  }

  predicate AnnotationsKept(c: Fields) {
    IsMap(c, "metadata") && IsMap(c["metadata"].fields, "annotations") ==>
      c["metadata"].fields["annotations"].fields != map[]
  }

  lemma StripMetadataCleans(m: Fields)
    ensures MetadataClean(StripMetadata(m))
    ensures IsMap(StripMetadata(m), "annotations") ==> StripMetadata(m)["annotations"].fields != map[]
  {
  }

  lemma StripMetadataOfClean(m: Fields)
    requires MetadataClean(m)
    requires IsMap(m, "annotations") ==> m["annotations"].fields != map[]
    ensures StripMetadata(m) == m
  {
    var m0 := m - SERVER_FIELDS;
    assert m0 == m;
    if IsMap(m, "annotations") {
      assert m["annotations"].fields - {LAST_APPLIED} == m["annotations"].fields;
    }
    var m1 := StripAnnotations(m0);
    assert m1 == m;
    if IsMap(m, "labels") {
      assert m["labels"].fields - FLUX_LABELS == m["labels"].fields;
    }
  }

  lemma StrippedIsClean(kind: string, body: Fields)
    ensures var c := Stripped(kind, body);
      && NoNullFields(Obj(c)) && ServerClean(c) && AnnotationsKept(c)
      && (kind == CRD ==> ConversionClean(c))
  {
    PruneRemovesNulls(Obj(body));
    var c0 := PruneFields(body);
    StripServerCleans(c0);
    var c1 := StripServer(c0);
    if kind == CRD { StripConversionCleans(c1); }
  }

  lemma StripServerCleans(c: Fields)
    requires NoNullFields(Obj(c))
    ensures var r := StripServer(c); NoNullFields(Obj(r)) && ServerClean(r) && AnnotationsKept(r)
  {
    if IsMap(c, "metadata") {
      var m := c["metadata"].fields;
      assert NoNullFields(Obj(m));
      StripMetadataCleans(m);
      StripMetadataNoNull(m);
    }
  }

  lemma StripMetadataNoNull(m: Fields)
    requires NoNullFields(Obj(m))
    ensures NoNullFields(Obj(StripMetadata(m)))
  {
    var m0 := m - SERVER_FIELDS;
    var m1 := StripAnnotations(m0);
    assert NoNullFields(Obj(m1)) by {
      if IsMap(m0, "annotations") { SubmapNoNull(m0["annotations"].fields, {LAST_APPLIED}); }
    }
    if IsMap(m1, "labels") { SubmapNoNull(m1["labels"].fields, FLUX_LABELS); }
  }

  lemma SubmapNoNull(m: Fields, gone: set<string>)
    requires NoNullFields(Obj(m))
    ensures NoNullFields(Obj(m - gone))
  {
  }

  lemma StripConversionCleans(c: Fields)
    requires NoNullFields(Obj(c)) && ServerClean(c) && AnnotationsKept(c)
    ensures var r := StripConversion(c);
      NoNullFields(Obj(r)) && ServerClean(r) && AnnotationsKept(r) && ConversionClean(r)
  {
    assert "spec" != "metadata" && "spec" != "status";
    if IsMap(c, "spec") { SubmapNoNull(c["spec"].fields, {"conversion"}); }
  }

  /** A body that is already clean is what `Stripped` returns for it. */
  lemma StrippedOfClean(kind: string, c: Fields)
    requires NoNullFields(Obj(c)) && ServerClean(c) && AnnotationsKept(c)
    requires kind == CRD ==> ConversionClean(c)
    ensures Stripped(kind, c) == c
  {
    PruneKeepsNullFree(Obj(c));
    assert c - {"status"} == c;
    if IsMap(c, "metadata") { StripMetadataOfClean(c["metadata"].fields); }
  }

  lemma {:induction false} WithoutKeepsNoNull(v: Value, paths: set<FieldPath>)
    requires NoNullFields(v)
    ensures NoNullFields(Without(v, paths))
  {
    if v.Obj? {
      forall k | k in v.fields { WithoutKeepsNoNull(v.fields[k], Tails(paths, k)); }
    }
  }

  /** Taking paths out keeps everything a strip achieved except a non-empty
      annotations map. */
  lemma WithoutKeepsClean(c: Fields, paths: set<FieldPath>)
    requires ServerClean(c)
    ensures ServerClean(Without(Obj(c), paths).fields)
    ensures ConversionClean(c) ==> ConversionClean(Without(Obj(c), paths).fields)
  {
    var r := Without(Obj(c), paths).fields;
    if IsMap(r, "metadata") {
      WithoutKeepsMetadataClean(c["metadata"].fields, Tails(paths, "metadata"));
    }
    if ConversionClean(c) && IsMap(r, "spec") && IsMap(r["spec"].fields, "conversion") {
      var s := c["spec"].fields;
      assert r["spec"] == Without(c["spec"], Tails(paths, "spec"));
      assert "conversion" in s;
      assert r["spec"].fields["conversion"] == Without(s["conversion"], Tails(Tails(paths, "spec"), "conversion"));
    }
  }

  lemma WithoutKeepsMetadataClean(m: Fields, paths: set<FieldPath>)
    requires MetadataClean(m)
    ensures MetadataClean(Without(Obj(m), paths).fields)
  {
    var r := Without(Obj(m), paths).fields;
    assert r.Keys <= m.Keys;
    if IsMap(r, "annotations") {
      assert r["annotations"] == Without(m["annotations"], Tails(paths, "annotations"));
    }
    if IsMap(r, "labels") {
      assert r["labels"] == Without(m["labels"], Tails(paths, "labels"));
      assert r["labels"].fields.Keys <= m["labels"].fields.Keys;
    }
  }

  const ANNOTATIONS: FieldPath := ["metadata", "annotations"]

  /** No listed path takes a single annotation away and leaves the map behind. */
  ghost predicate SparesAnnotations(ps: seq<FieldPath>) {
    (exists x :: ANNOTATIONS + [x] in ps) ==> ["metadata"] in ps || ANNOTATIONS in ps
  }

  lemma AnnotationsSurvive(c: Fields, ps: seq<FieldPath>)
    requires Proper(ps) && SparesAnnotations(ps) && AnnotationsKept(c)
    ensures AnnotationsKept(Without(Obj(c), set p | p in ps).fields)
  {
    var paths := set p | p in ps;
    var r := Without(Obj(c), paths);
    PositionsAfterIgnore(Obj(c), paths, ANNOTATIONS);
    AtAnnotations(r);
    AtAnnotations(Obj(c));
    if At(r, ANNOTATIONS).Some? && At(r, ANNOTATIONS).value.Obj? {
      assert ANNOTATIONS !in ps by { assert ANNOTATIONS <= ANNOTATIONS; }
      assert ["metadata"] !in ps by { assert ["metadata"] <= ANNOTATIONS; }
      NoSingleAnnotation(ps);
      var anns := At(Obj(c), ANNOTATIONS).value;
      assert Without(anns, Suffixes(paths, ANNOTATIONS)).fields.Keys == anns.fields.Keys;
    }
  }

  lemma NoSingleAnnotation(ps: seq<FieldPath>)
    requires SparesAnnotations(ps) && ANNOTATIONS !in ps && ["metadata"] !in ps
    ensures forall x :: [x] !in Suffixes((set p | p in ps), ANNOTATIONS)
  {
    var paths := set p | p in ps;
    assert forall p :: p in paths && ANNOTATIONS <= p ==> p == ANNOTATIONS + p[2..];
  }

  lemma AtAnnotations(v: Value)
    requires v.Obj?
    ensures At(v, ANNOTATIONS) ==
      if IsMap(v.fields, "metadata") && "annotations" in v.fields["metadata"].fields
      then Some(v.fields["metadata"].fields["annotations"]) else None
  {
    assert ANNOTATIONS[1..] == ["annotations"];
    assert ["annotations"][1..] == [];
  }

  /** Normalizing a normalized body changes nothing when the ignore list spares
      annotations. */
  lemma NormalizeIdempotent(kind: string, body: Fields, ignore: seq<string>)
    requires SparesAnnotations(IgnorePaths(ignore))
    ensures Normalized(kind, Normalized(kind, body, ignore), ignore) == Normalized(kind, body, ignore)
  {
    var ps := IgnorePaths(ignore);
    var paths := set p | p in ps;
    var c := Stripped(kind, body);
    var n := Normalized(kind, body, ignore);
    StrippedIsClean(kind, body);
    IgnoreLoopIsWithout(Obj(c), ps);
    WithoutKeepsNoNull(Obj(c), paths);
    WithoutKeepsClean(c, paths);
    AnnotationsSurvive(c, ps);
    StrippedOfClean(kind, n);
    IgnoreOrderIrrelevant(Obj(c), ps, ps);
  }

  /** Otherwise it is not: the annotation it takes away can be the last one, and
      the second pass then takes the empty map too. */
  lemma NormalizeNotIdempotent(ignore: seq<string>) returns (body: Fields)
    requires !SparesAnnotations(IgnorePaths(ignore))
    ensures Normalized("", Normalized("", body, ignore), ignore) != Normalized("", body, ignore)
  {
    var ps := IgnorePaths(ignore);
    var x :| ANNOTATIONS + [x] in ps;
    assert x != LAST_APPLIED by {
      var i :| 0 <= i < |ps| && ps[i] == ANNOTATIONS + [x];
      assert x == ps[i][2] && x in Split(ignore[i], '.');
      assert LAST_APPLIED[7] == '.';
    }
    var anns: Fields := map[x := Str("v")];
    body := Nest(anns);
    assert x in anns;
    NestClean(anns);
    StrippedOfClean("", body);
    var n := Normalized("", body, ignore);
    AnnotationGone(x, ps);
    assert n == Nest(map[]);
    NestStripsEmpty();
    var again := Normalized("", n, ignore);
    IgnoreLoopIsWithout(Obj(map["metadata" := Obj(map[])]), ps);
    assert At(Obj(again), ANNOTATIONS).None? by {
      PositionsAfterIgnore(Obj(map["metadata" := Obj(map[])]), (set p | p in ps), ANNOTATIONS);
      AtAnnotations(Obj(map["metadata" := Obj(map[])]));
    }
    AtAnnotations(Obj(n));
  }

  function Nest(anns: Fields): (body: Fields) {
    map["metadata" := Obj(map["annotations" := Obj(anns)])]
  }

  lemma NestClean(anns: Fields)
    requires anns != map[] && LAST_APPLIED !in anns && NoNullFields(Obj(anns))
    ensures var c := Nest(anns); NoNullFields(Obj(c)) && ServerClean(c) && AnnotationsKept(c)
  {
    var m: Fields := map["annotations" := Obj(anns)];
    assert m.Keys == {"annotations"};
    assert "annotations" != "labels";
    assert "annotations" !in SERVER_FIELDS;
    assert NoNullFields(Obj(m));
  }

  lemma NestStripsEmpty()
    ensures Stripped("", Nest(map[])) == map["metadata" := Obj(map[])]
  {
    var m: Fields := map["annotations" := Obj(map[])];
    var c := Nest(map[]);
    assert NoNullFields(Obj(m));
    PruneKeepsNullFree(Obj(c));
    StripsEmptyAnnotations(m);
    StripsNested(c, m);
  }

  lemma StripsNested(c: Fields, m: Fields)
    requires c == map["metadata" := Obj(m)] && StripMetadata(m) == map[]
    ensures StripServer(c) == map["metadata" := Obj(map[])]
  {
    assert "metadata" != "status";
    assert c - {"status"} == c;
    assert c["metadata" := Obj(map[])] == map["metadata" := Obj(map[])];
  }

  lemma StripsEmptyAnnotations(m: Fields)
    requires m == map["annotations" := Obj(map[])]
    ensures StripMetadata(m) == map[]
  {
    assert "annotations" !in SERVER_FIELDS;
    assert m - SERVER_FIELDS == m;
    assert m["annotations"].fields - {LAST_APPLIED} == map[];
    assert StripAnnotations(m) == map[];
  }

  lemma WithoutSingleton(k: string, v: Value, paths: set<FieldPath>)
    ensures Without(Obj(map[k := v]), paths) ==
      Obj(if [k] in paths then map[] else map[k := Without(v, Tails(paths, k))])
  {
    var m: Fields := map[k := v];
    if [k] in paths {
      assert Without(Obj(m), paths).fields == map[];
    } else {
      assert Without(Obj(m), paths).fields == map[k := Without(v, Tails(paths, k))];
    }
  }

  lemma AnnotationGone(x: string, ps: seq<FieldPath>)
    requires Proper(ps) && ANNOTATIONS + [x] in ps && ["metadata"] !in ps && ANNOTATIONS !in ps
    ensures DeleteAll(Obj(Nest(map[x := Str("v")])), ps) == Obj(Nest(map[]))
  {
    var paths := set p | p in ps;
    var anns := Obj(map[x := Str("v")]);
    IgnoreLoopIsWithout(Obj(Nest(anns.fields)), ps);
    var t1 := Tails(paths, "metadata");
    var t2 := Tails(t1, "annotations");
    WithoutSingleton("metadata", Obj(map["annotations" := anns]), paths);
    WithoutSingleton("annotations", anns, t1);
    WithoutSingleton(x, Str("v"), t2);
    AnnotationTails(x, paths);
  }

  lemma AnnotationTails(x: string, paths: set<FieldPath>)
    requires ANNOTATIONS + [x] in paths && ["metadata"] !in paths && ANNOTATIONS !in paths
    ensures ["annotations"] !in Tails(paths, "metadata") && [x] in Tails(Tails(paths, "metadata"), "annotations")
  {
    assert ["annotations"] !in Tails(paths, "metadata") by {
      assert forall p :: p in paths && |p| > 1 && p[0] == "metadata" ==> p == ["metadata"] + p[1..];
      assert ["metadata"] + ["annotations"] == ANNOTATIONS;
    }
    var p := ANNOTATIONS + [x];
    assert p in paths && p[1..] == ["annotations", x] && p[1..][1..] == [x];
    assert p[1..] in Tails(paths, "metadata");
  }

  /** The exact condition on the ignore list under which normalizing is idempotent. */
  lemma NormalizeIdempotentIff(ignore: seq<string>)
    ensures SparesAnnotations(IgnorePaths(ignore)) <==>
      forall kind, body :: Normalized(kind, Normalized(kind, body, ignore), ignore) == Normalized(kind, body, ignore)
  {
    if SparesAnnotations(IgnorePaths(ignore)) {
      forall kind, body { NormalizeIdempotent(kind, body, ignore); }
    } else {
      var body := NormalizeNotIdempotent(ignore);
    }
  }
}
