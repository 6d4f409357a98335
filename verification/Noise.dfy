/**
 The edits an API server or Flux makes to a live resource behind the repository's
 back, and the proof that normalization cannot see them.
 */
module Noise {
  import opened Json
  import opened Options
  import opened Normalize

  /** One edit; a value of None removes the field. */
  datatype Edit =
    | Status(value: Option<Value>)
    | ServerField(name: string, value: Option<Value>)
    | LastApplied(value: Option<Value>)
    | FluxLabel(name: string, value: Option<Value>)
    | Conversion(conv: Fields)

  function Put(m: Fields, k: string, v: Option<Value>): (r: Fields) {
    if v.Some? then m[k := v.value] else m - {k}
  }

  function EditMetadata(m: Fields, e: Edit): (r: Fields) {
    match e
    case ServerField(name, v) => if name in SERVER_FIELDS then Put(m, name, v) else m
    case LastApplied(v) =>
      if IsMap(m, "annotations") then m["annotations" := Obj(Put(m["annotations"].fields, LAST_APPLIED, v))]
      else if ("annotations" !in m || m["annotations"] == Null) && v.Some? then m["annotations" := Obj(map[LAST_APPLIED := v.value])]
      else m
    case FluxLabel(name, v) =>
      if name in FLUX_LABELS && IsMap(m, "labels") then m["labels" := Obj(Put(m["labels"].fields, name, v))]
      else m
    case _ => m
  }

  function Perturb(kind: string, body: Fields, e: Edit): (r: Fields) {
    match e
    case Status(v) => Put(body, "status", v)
    case Conversion(conv) =>
      if kind == CRD && IsMap(body, "spec") && "conversion" !in body["spec"].fields && DefaultConversion(conv)
      then body["spec" := Obj(body["spec"].fields["conversion" := Obj(conv)])]
      else body
    case _ =>
      if IsMap(body, "metadata") then body["metadata" := Obj(EditMetadata(body["metadata"].fields, e))]
      else body
  }

  function PerturbAll(kind: string, body: Fields, es: seq<Edit>): (r: Fields)
    decreases |es|
  {
    if es == [] then body else PerturbAll(kind, Perturb(kind, body, es[0]), es[1..])
  }

  lemma UpdateMinus(m: Fields, k: string, v: Value, gone: set<string>)
    ensures m[k := v] - gone == if k in gone then m - gone else (m - gone)[k := v]
  {
    var l := m[k := v] - gone;
    var r := if k in gone then m - gone else (m - gone)[k := v];
    assert l.Keys == r.Keys;
  }

  lemma UpdateTwice(m: Fields, k: string, v: Value, w: Value)
    ensures m[k := v][k := w] == m[k := w]
  {
  }

  lemma PruneWithMap(m: Fields, k: string, sub: Fields)
    ensures PruneFields(m[k := Obj(sub)]) == PruneFields(m)[k := Obj(PruneFields(sub))]
  {
  }

  lemma PruneHides(m: Fields, gone: set<string>, k: string, v: Option<Value>)
    requires k in gone
    ensures PruneFields(Put(m, k, v)) - gone == PruneFields(m) - gone
  {
  }

  lemma ServerFieldInvisible(m: Fields, e: Edit)
    requires e.ServerField?
    ensures StripMetadata(PruneFields(EditMetadata(m, e))) == StripMetadata(PruneFields(m))
  {
    if e.name in SERVER_FIELDS { PruneHides(m, SERVER_FIELDS, e.name, e.value); }
  }

  lemma LastAppliedInvisible(m: Fields, e: Edit)
    requires e.LastApplied?
    ensures StripMetadata(PruneFields(EditMetadata(m, e))) == StripMetadata(PruneFields(m))
  {
    var p := PruneFields(m);
    if IsMap(m, "annotations") {
      var anns := m["annotations"].fields;
      var anns' := Put(anns, LAST_APPLIED, e.value);
      PruneWithMap(m, "annotations", anns');
      PruneHides(anns, {LAST_APPLIED}, LAST_APPLIED, e.value);
      AnnotationsUpTo(p, PruneFields(anns'));
    } else if ("annotations" !in m || m["annotations"] == Null) && e.value.Some? {
      var only: Fields := map[LAST_APPLIED := e.value.value];
      PruneWithMap(m, "annotations", only);
      assert PruneFields(only) - {LAST_APPLIED} == map[];
      EmptyAnnotations(p, PruneFields(only));
    }
  }

  lemma AnnotationsUpTo(p: Fields, anns: Fields)
    requires IsMap(p, "annotations") && p["annotations"].fields - {LAST_APPLIED} == anns - {LAST_APPLIED}
    ensures StripMetadata(p["annotations" := Obj(anns)]) == StripMetadata(p)
  {
    assert "annotations" !in SERVER_FIELDS;
    UpdateMinus(p, "annotations", Obj(anns), SERVER_FIELDS);
    var q := p - SERVER_FIELDS;
    SameAnnotations(q, q["annotations" := Obj(anns)]);
  }

  lemma EmptyAnnotations(p: Fields, anns: Fields)
    requires "annotations" !in p && anns - {LAST_APPLIED} == map[]
    ensures StripMetadata(p["annotations" := Obj(anns)]) == StripMetadata(p)
  {
    assert "annotations" !in SERVER_FIELDS;
    UpdateMinus(p, "annotations", Obj(anns), SERVER_FIELDS);
    var q := p - SERVER_FIELDS;
    UpdateMinus(q, "annotations", Obj(anns), {"annotations"});
    assert q - {"annotations"} == q;
  }

  lemma SameAnnotations(q: Fields, q': Fields)
    requires IsMap(q, "annotations") && IsMap(q', "annotations")
    requires q' == q["annotations" := q'["annotations"]]
    requires q["annotations"].fields - {LAST_APPLIED} == q'["annotations"].fields - {LAST_APPLIED}
    ensures StripAnnotations(q) == StripAnnotations(q')
  {
    assert q - {"annotations"} == q' - {"annotations"};
  }

  lemma FluxLabelInvisible(m: Fields, e: Edit)
    requires e.FluxLabel?
    ensures StripMetadata(PruneFields(EditMetadata(m, e))) == StripMetadata(PruneFields(m))
  {
    if e.name in FLUX_LABELS && IsMap(m, "labels") {
      var labels := m["labels"].fields;
      var labels' := Put(labels, e.name, e.value);
      var p := PruneFields(m);
      PruneWithMap(m, "labels", labels');
      PruneHides(labels, FLUX_LABELS, e.name, e.value);
      assert "labels" !in SERVER_FIELDS && "labels" != "annotations";
      SameLabels(p, Obj(PruneFields(labels')));
    }
  }

  lemma SameLabels(p: Fields, labels: Value)
    requires IsMap(p, "labels") && labels.Obj?
    requires p["labels"].fields - FLUX_LABELS == labels.fields - FLUX_LABELS
    ensures StripMetadata(p["labels" := labels]) == StripMetadata(p)
  {
    assert "labels" !in SERVER_FIELDS;
    UpdateMinus(p, "labels", labels, SERVER_FIELDS);
    var q := p - SERVER_FIELDS;
    StripAnnotationsSkipsLabels(q, labels);
    UpdateTwice(StripAnnotations(q), "labels", labels, Obj(labels.fields - FLUX_LABELS));
  }

  lemma StripAnnotationsSkipsLabels(q: Fields, labels: Value)
    requires IsMap(q, "labels")
    ensures StripAnnotations(q["labels" := labels]) == StripAnnotations(q)["labels" := labels]
    ensures IsMap(StripAnnotations(q), "labels") && StripAnnotations(q)["labels"] == q["labels"]
  {
    assert "labels" != "annotations";
    if IsMap(q, "annotations") {
      var anns := q["annotations"].fields - {LAST_APPLIED};
      UpdateMinus(q, "labels", labels, {"annotations"});
      assert q["labels" := labels]["annotations" := Obj(anns)] == q["annotations" := Obj(anns)]["labels" := labels];
    }
  }

  lemma ConversionInvisible(body: Fields, conv: Fields)
    requires IsMap(body, "spec") && "conversion" !in body["spec"].fields && DefaultConversion(conv)
    ensures Stripped(CRD, Perturb(CRD, body, Conversion(conv))) == Stripped(CRD, body)
  {
    var spec := body["spec"].fields;
    var spec' := spec["conversion" := Obj(conv)];
    var c := PruneFields(body);
    PruneWithMap(body, "spec", spec');
    PruneWithMap(spec, "conversion", conv);
    var p := PruneFields(spec);
    assert PruneFields(spec') - {"conversion"} == p;
    assert Prune(conv["strategy"]) == conv["strategy"];
    assert PruneFields(conv)["strategy"] == conv["strategy"];
    assert DefaultConversion(PruneFields(conv));
    StripServerSkipsSpec(c, Obj(PruneFields(spec')));
    var s := StripServer(c);
    assert s["spec"] == Obj(p) && "conversion" !in p;
    UpdateTwice(s, "spec", Obj(PruneFields(spec')), Obj(p));
    assert s["spec" := Obj(p)] == s;
  }

  lemma StripServerSkipsSpec(c: Fields, spec: Value)
    requires IsMap(c, "spec")
    ensures StripServer(c["spec" := spec]) == StripServer(c)["spec" := spec]
    ensures IsMap(StripServer(c), "spec") && StripServer(c)["spec"] == c["spec"]
  {
    assert "spec" != "status" && "spec" != "metadata";
    assert c["spec" := spec] - {"status"} == (c - {"status"})["spec" := spec];
  }

  /** No edit changes what is compared. */
  lemma NoiseInvisible(kind: string, body: Fields, e: Edit)
    ensures Stripped(kind, Perturb(kind, body, e)) == Stripped(kind, body)
  {
    match e
    case Status(v) =>
      PruneHides(body, {"status"}, "status", v);
    case Conversion(conv) =>
      if kind == CRD && IsMap(body, "spec") && "conversion" !in body["spec"].fields && DefaultConversion(conv) {
        ConversionInvisible(body, conv);
      }
    case _ =>
      if IsMap(body, "metadata") { MetadataEditInvisible(kind, body, e); }
  }

  lemma MetadataEditInvisible(kind: string, body: Fields, e: Edit)
    requires IsMap(body, "metadata") && !e.Status? && !e.Conversion?
    ensures Stripped(kind, Perturb(kind, body, e)) == Stripped(kind, body)
  {
    var m := body["metadata"].fields;
    var m' := EditMetadata(m, e);
    if e.ServerField? { ServerFieldInvisible(m, e); }
    else if e.LastApplied? { LastAppliedInvisible(m, e); }
    else { FluxLabelInvisible(m, e); }
    PruneWithMap(body, "metadata", m');
    MetadataUpTo(PruneFields(body), PruneFields(m'));
  }

  lemma MetadataUpTo(c: Fields, m: Fields)
    requires IsMap(c, "metadata") && StripMetadata(c["metadata"].fields) == StripMetadata(m)
    ensures StripServer(c["metadata" := Obj(m)]) == StripServer(c)
  {
    assert "metadata" != "status";
    UpdateMinus(c, "metadata", Obj(m), {"status"});
    UpdateTwice(c - {"status"}, "metadata", Obj(m), Obj(StripMetadata(m)));
  }

  lemma {:induction false} AllNoiseInvisible(kind: string, body: Fields, es: seq<Edit>, ignore: seq<string>)
    ensures Normalized(kind, PerturbAll(kind, body, es), ignore) == Normalized(kind, body, ignore)
    decreases |es|
  {
    if es != [] {
      NoiseInvisible(kind, body, es[0]);
      AllNoiseInvisible(kind, Perturb(kind, body, es[0]), es[1..], ignore);
    }
  }

  /** The edits are what they say: each sets or removes the field it names. */
  lemma EditsTakeEffect(kind: string, body: Fields, name: string, v: Option<Value>)
    ensures Field(Perturb(kind, body, Status(v)), "status") == v
    ensures IsMap(body, "metadata") && name in SERVER_FIELDS ==>
      var r := Perturb(kind, body, ServerField(name, v)); IsMap(r, "metadata") && Field(r["metadata"].fields, name) == v
    ensures IsMap(body, "metadata") && IsMap(body["metadata"].fields, "annotations") ==>
      var r := Perturb(kind, body, LastApplied(v));
      IsMap(r, "metadata") && IsMap(r["metadata"].fields, "annotations") && Field(r["metadata"].fields["annotations"].fields, LAST_APPLIED) == v
    ensures IsMap(body, "metadata") && IsMap(body["metadata"].fields, "labels") && name in FLUX_LABELS ==>
      var r := Perturb(kind, body, FluxLabel(name, v));
      IsMap(r, "metadata") && IsMap(r["metadata"].fields, "labels") && Field(r["metadata"].fields["labels"].fields, name) == v
  {
  }

  function Field(m: Fields, k: string): Option<Value> {
    if k in m then Some(m[k]) else None
  }
}
