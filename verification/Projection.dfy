/**
 `projectActualToDesired`: the part of the live tree that the desired tree
 mentions. Its meaning is `Embeds`: a desired tree equals the projection exactly
 when it is contained in the live tree.
 */
module Projection {
  import opened Json
  import opened Options
  import opened Positions

  function Project(d: Value, a: Value): (p: Value)
  {
    match d
    case Obj(dm) =>
      if !a.Obj? then a
      else Obj(map k | k in dm && k in a.fields :: Project(dm[k], a.fields[k]))
    case Arr(ds) =>
      if !a.Arr? then a
      else Arr(seq(|ds|, i requires 0 <= i < |ds| =>
        if i >= |a.items| then Null else Project(ds[i], a.items[i])))
    case _ => a
  }

  /** d is contained in a: every key d mentions is there, arrays match index by
      index, and desired entries past the live end are null. */
  predicate Embeds(d: Value, a: Value)
  {
    match d
    case Obj(dm) =>
      a.Obj? && forall k :: k in dm ==> k in a.fields && Embeds(dm[k], a.fields[k])
    case Arr(ds) =>
      a.Arr? && forall i :: 0 <= i < |ds| ==>
        if i < |a.items| then Embeds(ds[i], a.items[i]) else ds[i] == Null
    case _ => d == a
  }

  /** The projection reproduces d exactly when d embeds in a. */
  lemma {:induction false} ProjectEqualsIffEmbeds(d: Value, a: Value)
    ensures d == Project(d, a) <==> Embeds(d, a)
  {
    match d
    case Obj(dm) =>
      if a.Obj? {
        var p := Project(d, a).fields;
        forall k | k in dm && k in a.fields
          ensures dm[k] == p[k] <==> Embeds(dm[k], a.fields[k])
        {
          ProjectEqualsIffEmbeds(dm[k], a.fields[k]);
        }
        if Embeds(d, a) { assert dm == p; }
        if d == Project(d, a) { assert dm.Keys == p.Keys; }
      }
    case Arr(ds) =>
      if a.Arr? {
        var p := Project(d, a).items;
        forall i | 0 <= i < |ds| && i < |a.items|
          ensures ds[i] == p[i] <==> Embeds(ds[i], a.items[i])
        {
          ProjectEqualsIffEmbeds(ds[i], a.items[i]);
        }
        if Embeds(d, a) { assert ds == p; }
      }
    case _ =>
  }

  /** What is projected out is itself contained in the live tree. */
  lemma {:induction false} ProjectionEmbeds(d: Value, a: Value)
    ensures Embeds(Project(d, a), a)
  {
    match d
    case Obj(dm) =>
      if a.Obj? {
        forall k | k in dm && k in a.fields { ProjectionEmbeds(dm[k], a.fields[k]); }
      } else {
        EmbedsReflexive(a);
      }
    case Arr(ds) =>
      if a.Arr? {
        forall i | 0 <= i < |ds| && i < |a.items| { ProjectionEmbeds(ds[i], a.items[i]); }
      } else {
        EmbedsReflexive(a);
      }
    case _ => EmbedsReflexive(a);
  }

  lemma {:induction false} EmbedsReflexive(d: Value)
    ensures Embeds(d, d)
  {
    match d
    case Obj(dm) => forall k | k in dm { EmbedsReflexive(dm[k]); }
    case Arr(ds) => forall i | 0 <= i < |ds| { EmbedsReflexive(ds[i]); }
    case _ =>
  }

  lemma ProjectSelf(d: Value)
    ensures Project(d, d) == d
  {
    EmbedsReflexive(d);
    ProjectEqualsIffEmbeds(d, d);
  }

  /** Projecting twice changes nothing. */
  lemma {:induction false} ProjectIdempotent(d: Value, a: Value)
    ensures Project(d, Project(d, a)) == Project(d, a)
  {
    match d
    case Obj(dm) =>
      if a.Obj? {
        forall k | k in dm && k in a.fields { ProjectIdempotent(dm[k], a.fields[k]); }
        assert Project(d, Project(d, a)).fields == Project(d, a).fields;
      }
    case Arr(ds) =>
      if a.Arr? {
        var p := Project(d, a);
        forall i | 0 <= i < |ds| ensures Project(d, p).items[i] == p.items[i] {
          if i < |a.items| {
            ProjectIdempotent(ds[i], a.items[i]);
          } else {
            assert p.items[i] == Null;
          }
        }
        assert Project(d, p).items == p.items;
      }
    case _ =>
  }

  lemma {:induction false} ProjectKeepsNoNullFields(d: Value, a: Value)
    requires NoNullFields(a)
    ensures NoNullFields(Project(d, a))
    ensures a != Null ==> Project(d, a) != Null
  {
    match d
    case Obj(dm) =>
      if a.Obj? {
        forall k | k in dm && k in a.fields { ProjectKeepsNoNullFields(dm[k], a.fields[k]); }
      }
    case Arr(ds) =>
      if a.Arr? {
        forall i | 0 <= i < |ds| && i < |a.items| { ProjectKeepsNoNullFields(ds[i], a.items[i]); }
      }
    case _ =>
  }

  // ----- The projection, position by position -----

  predicate SameKind(x: Option<Value>, y: Option<Value>) {
    x.Some? && y.Some? && ((x.value.Obj? && y.value.Obj?) || (x.value.Arr? && y.value.Arr?))
  }

  /** All the way down to q, short of q itself, the two trees have maps at the same
      positions and arrays at the same positions. */
  predicate Aligned(d: Option<Value>, a: Option<Value>, q: Path)
    decreases |q|
  {
    q != [] ==> SameKind(d, a) && Aligned(Child(d, q[0]), Child(a, q[0]), q[1..])
  }

  /** What a projection of a onto d has at q: nothing that d does not mention; the live
      value as it is where one of the two is not a map and not an array like the other;
      null past the end of a live array; and a container where both have one, an array
      as long as the desired one. */
  ghost predicate ProjectedAt(p: Value, d: Value, a: Value, q: Path) {
    match (Look(d, q), Look(a, q))
    case (None, _) => Look(p, q).None?
    case (Some(_), None) => Look(p, q) == if q != [] && q[|q| - 1].Index? then Some(Null) else None
    case (Some(x), Some(y)) =>
      if SameKind(Some(x), Some(y)) then SameKind(Look(p, q), Some(x)) && (x.Arr? ==> |Look(p, q).value.items| == |x.items|)
      else Look(p, q) == Some(y)
  }

  ghost predicate ProjectedFrom(p: Value, d: Value, a: Value) {
    forall q :: Aligned(Some(d), Some(a), q) ==> ProjectedAt(p, d, a, q)
  }

  lemma {:induction false} ProjectPositions(d: Value, a: Value, q: Path)
    requires Aligned(Some(d), Some(a), q)
    ensures ProjectedAt(Project(d, a), d, a, q)
    decreases |q|
  {
    if q != [] {
      var s, rest, p := q[0], q[1..], Project(d, a);
      var x, y := Child(Some(d), s), Child(Some(a), s);
      if x.Some? && y.Some? {
        assert Child(Some(p), s) == Some(Project(x.value, y.value));
        ProjectPositions(x.value, y.value, rest);
        if rest != [] { assert rest[|rest| - 1] == q[|q| - 1]; }
      } else {
        assert rest == [] && q == [s];
        assert Look(p, q) == LookFrom(Child(Some(p), s), []) == Child(Some(p), s);
        assert Look(d, q) == LookFrom(x, []) == x && Look(a, q) == LookFrom(y, []) == y;
      }
    }
  }

  /** Exactly one tree has the projected value at every position, and Project gives it. */
  lemma {:induction false} ProjectionExact(p: Value, d: Value, a: Value)
    ensures p == Project(d, a) <==> ProjectedFrom(p, d, a)
  {
    if p == Project(d, a) {
      forall q | Aligned(Some(d), Some(a), q) ensures ProjectedAt(p, d, a, q) {
        ProjectPositions(d, a, q);
      }
    }
    if ProjectedFrom(p, d, a) {
      OnlyProjection(p, d, a);
    }
  }

  lemma {:induction false} OnlyProjection(p: Value, d: Value, a: Value)
    requires ProjectedFrom(p, d, a)
    ensures p == Project(d, a)
    decreases d
  {
    assert ProjectedAt(p, d, a, []);
    if SameKind(Some(d), Some(a)) {
      if d.Obj? {
        forall k ensures k in p.fields <==> k in d.fields && k in a.fields {
          OneDown(p, d, a, Key(k));
        }
        forall k | k in p.fields ensures p.fields[k] == Project(d.fields[k], a.fields[k]) {
          ProjectedBelow(p, d, a, Key(k));
          OnlyProjection(p.fields[k], d.fields[k], a.fields[k]);
        }
        assert p.fields == Project(d, a).fields;
      } else {
        forall i | 0 <= i < |d.items| ensures p.items[i] == Project(d, a).items[i] {
          OneDown(p, d, a, Index(i));
          if i < |a.items| {
            ProjectedBelow(p, d, a, Index(i));
            OnlyProjection(p.items[i], d.items[i], a.items[i]);
          }
        }
        assert p.items == Project(d, a).items;
      }
    }
  }

  lemma OneDown(p: Value, d: Value, a: Value, s: Step)
    requires ProjectedFrom(p, d, a) && SameKind(Some(d), Some(a))
    ensures ProjectedAt(p, d, a, [s])
    ensures Look(p, [s]) == Child(Some(p), s) && Look(d, [s]) == Child(Some(d), s) && Look(a, [s]) == Child(Some(a), s)
  {
    assert [s] + [] == [s] && [s][1..] == [];
    LookStep(Some(p), s, []);
    LookStep(Some(d), s, []);
    LookStep(Some(a), s, []);
    assert Aligned(Child(Some(d), s), Child(Some(a), s), []);
    assert Aligned(Some(d), Some(a), [s]);
  }

  lemma ProjectedBelow(p: Value, d: Value, a: Value, s: Step)
    requires ProjectedFrom(p, d, a) && SameKind(Some(d), Some(a))
    requires Child(Some(p), s).Some? && Child(Some(d), s).Some? && Child(Some(a), s).Some?
    ensures ProjectedFrom(Child(Some(p), s).value, Child(Some(d), s).value, Child(Some(a), s).value)
  {
    var x, y, z := Child(Some(d), s), Child(Some(a), s), Child(Some(p), s);
    forall q | Aligned(x, y, q) ensures ProjectedAt(z.value, x.value, y.value, q) {
      assert ([s] + q)[1..] == q;
      assert Aligned(Some(d), Some(a), [s] + q);
      assert ProjectedAt(p, d, a, [s] + q);
      LookStep(Some(p), s, q);
      LookStep(Some(d), s, q);
      LookStep(Some(a), s, q);
    }
  }
}
