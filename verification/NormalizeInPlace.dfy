/**
 The in-place part of `normalize`: the maps of the private copy are objects, and
 the code deletes from them through the references it holds. Each method is proved
 to change the tree it works on exactly as the functions of Normalize say.
 */
module NormalizeInPlace {
  import opened Json
  import opened Options
  import opened Text
  import opened Normalize

  /** A map entry: another map object, or any other value. */
  datatype Cell = Leaf(v: Value) | Sub(node: Node)

  /** A Go map inside a JSON tree. */
  class Node {
    var fields: map<string, Cell>
    ghost var repr: set<Node>

    predicate HasSub(k: string)
      reads this
    {
      k in fields && fields[k].Sub?
    }

    /** The maps reachable from here form a tree. */
    ghost predicate Valid()
      reads this, repr
      decreases repr
    {
      && this in repr
      && (forall k :: HasSub(k) ==>
            && fields[k].node in repr
            && fields[k].node.repr <= repr - {this}
            && fields[k].node.Valid())
      && (forall j, k :: HasSub(j) && HasSub(k) && j != k ==> fields[j].node.repr !! fields[k].node.repr)
      && (forall k :: k in fields && fields[k].Leaf? ==> !fields[k].v.Obj?)
    }

    /** The tree as a value. */
    ghost function View(): (m: Fields)
      requires Valid()
      reads this, repr
      ensures m.Keys == fields.Keys
      ensures forall k :: IsMap(m, k) <==> HasSub(k)
      decreases repr
    {
      map k | k in fields :: if HasSub(k) then Obj(fields[k].node.View()) else fields[k].v
    }
  }

  /** The map object a path deletes from, if the walk gets there. */
  ghost function Target(n: Node, p: FieldPath): (t: Option<Node>)
    requires n.Valid() && |p| > 0
    reads n, n.repr
    ensures t.Some? ==> t.value in n.repr && t.value.repr <= n.repr
    decreases |p|
  {
    if |p| == 1 then Some(n)
    else if n.HasSub(p[0]) then Target(n.fields[p[0]].node, p[1..])
    else None
  }

  lemma {:induction false} NoTarget(n: Node, p: FieldPath)
    requires n.Valid() && |p| > 0 && Target(n, p).None?
    ensures Delete(Obj(n.View()), p) == Obj(n.View())
    decreases |p|
  {
    if n.HasSub(p[0]) {
      NoTarget(n.fields[p[0]].node, p[1..]);
      assert n.View()[p[0] := n.View()[p[0]]] == n.View();
    } else if p[0] in n.fields {
      assert Delete(n.View()[p[0]], p[1..]) == n.View()[p[0]];
      assert n.View()[p[0] := n.View()[p[0]]] == n.View();
    }
  }

  /** Deleting keys of one map leaves the maps below it alone. */
  twostate lemma OwnKeysDeleted(new n: Node, gone: set<string>)
    requires old(allocated(n)) && old(n.Valid())
    requires forall x :: x in old(n.repr) && x != n ==> unchanged(x)
    requires n.repr == old(n.repr) && n.fields == old(n.fields) - gone
    ensures n.Valid() && n.View() == old(n.View()) - gone
  {
    forall k | n.HasSub(k) ensures n.fields[k].node.Valid() && n.fields[k].node.View() == old(n.fields[k].node.View()) {
      assert n !in old(n.fields[k].node.repr);
    }
    assert n.View() == old(n.View()) - gone;
  }

  /** A change inside one submap is a change of that entry only. */
  twostate lemma ChildChanged(new n: Node, k: string, new c: Node)
    requires old(allocated(n)) && old(allocated(c))
    requires old(n.Valid()) && old(n.HasSub(k)) && old(n.fields[k].node) == c
    requires forall x :: x in old(n.repr) && x !in old(c.repr) ==> unchanged(x)
    requires c.repr == old(c.repr) && c.Valid()
    ensures n.repr == old(n.repr) && n.Valid() && n.HasSub(k)
    ensures n.View() == old(n.View())[k := Obj(c.View())]
  {
    assert unchanged(n);
    forall j | n.HasSub(j) && j != k
      ensures n.fields[j].node.Valid() && n.fields[j].node.repr == old(n.fields[j].node.repr)
      ensures n.fields[j].node.View() == old(n.fields[j].node.View())
    {
      assert n.fields[j].node.repr !! c.repr;
    }
    assert n.View() == old(n.View())[k := Obj(c.View())];
  }

  /** Deleting a key from the target map changes the whole tree as Delete does. */
  twostate lemma {:induction false} TargetDeleted(new n: Node, p: FieldPath, new t: Node)
    requires old(allocated(n)) && old(allocated(t))
    requires old(n.Valid()) && |p| > 0 && old(Target(n, p)) == Some(t)
    requires forall x :: x in old(n.repr) && x != t ==> unchanged(x)
    requires t.repr == old(t.repr) && t.fields == old(t.fields) - {p[|p| - 1]}
    ensures n.repr == old(n.repr) && n.Valid()
    ensures Obj(n.View()) == Delete(Obj(old(n.View())), p)
    decreases |p|
  {
    if |p| == 1 {
      OwnKeysDeleted(n, {p[0]});
    } else {
      var c := old(n.fields[p[0]].node);
      TargetDeleted(c, p[1..], t);
      ChildChanged(n, p[0], c);
    }
  }

  /** `deletePath`: walk down to the last map of the path and delete from it. */
  method DeletePath(obj: Node, parts: FieldPath)
    requires obj.Valid() && |parts| > 0
    modifies obj.repr
    ensures obj.Valid() && obj.repr == old(obj.repr)
    ensures Obj(obj.View()) == Delete(Obj(old(obj.View())), parts)
  {
    var cur := obj;
    var i := 0;
    while i < |parts| - 1
      invariant 0 <= i <= |parts| - 1
      invariant cur.Valid() && cur in obj.repr && cur.repr <= obj.repr
      invariant Target(obj, parts) == Target(cur, parts[i..])
    {
      assert parts[i..][0] == parts[i] && parts[i..][1..] == parts[i + 1..];
      if !cur.HasSub(parts[i]) {
        NoTarget(obj, parts);
        return;
      }
      cur := cur.fields[parts[i]].node;
      i := i + 1;
    }
    cur.fields := cur.fields - {parts[|parts| - 1]};
    TargetDeleted(obj, parts, cur);
  }

  /** `delete` on one map. */
  method Remove(n: Node, gone: set<string>)
    requires n.Valid()
    modifies n
    ensures n.Valid() && n.repr == old(n.repr)
    ensures n.View() == old(n.View()) - gone
  {
    n.fields := n.fields - gone;
    OwnKeysDeleted(n, gone);
  }

  /** `delete` on a map held through its parent. */
  method RemoveBelow(n: Node, k: string, gone: set<string>)
    requires n.Valid() && n.HasSub(k)
    modifies n.repr
    ensures n.Valid() && n.repr == old(n.repr) && n.HasSub(k)
    ensures n.View() == old(n.View())[k := Obj(old(n.View())[k].fields - gone)]
    ensures n.fields[k].node.fields.Keys == old(n.View())[k].fields.Keys - gone
  {
    var c := n.fields[k].node;
    Remove(c, gone);
    ChildChanged(n, k, c);
  }

  method StripMetadataInPlace(m: Node)
    requires m.Valid()
    modifies m.repr
    ensures m.Valid() && m.repr == old(m.repr)
    ensures m.View() == StripMetadata(old(m.View()))
  {
    Remove(m, SERVER_FIELDS);
    StripAnnotationsInPlace(m);
    if m.HasSub("labels") {
      RemoveBelow(m, "labels", FLUX_LABELS);
    }
  }

  lemma DropUpdated(m: Fields, k: string, v: Value)
    ensures m[k := v] - {k} == m - {k}
  {
  }

  method StripAnnotationsInPlace(m: Node)
    requires m.Valid()
    modifies m.repr
    ensures m.Valid() && m.repr == old(m.repr)
    ensures m.View() == StripAnnotations(old(m.View()))
  {
    if m.HasSub("annotations") {
      ghost var before := m.View();
      ghost var anns := before["annotations"].fields - {LAST_APPLIED};
      RemoveBelow(m, "annotations", {LAST_APPLIED});
      assert anns.Keys == m.fields["annotations"].node.fields.Keys;
      if |m.fields["annotations"].node.fields.Keys| == 0 {
        Remove(m, {"annotations"});
        DropUpdated(before, "annotations", Obj(anns));
      }
    }
  }

  method StripServerInPlace(cp: Node)
    requires cp.Valid()
    modifies cp.repr
    ensures cp.Valid() && cp.repr == old(cp.repr)
    ensures cp.View() == StripServer(old(cp.View()))
  {
    Remove(cp, {"status"});
    if cp.HasSub("metadata") {
      label held:
      var m := cp.fields["metadata"].node;
      StripMetadataInPlace(m);
      ChildChanged@held(cp, "metadata", m);
    }
  }

  method StripConversionInPlace(cp: Node)
    requires cp.Valid()
    modifies cp.repr
    ensures cp.Valid() && cp.repr == old(cp.repr)
    ensures cp.View() == StripConversion(old(cp.View()))
  {
    if cp.HasSub("spec") {
      var spec := cp.fields["spec"].node;
      if spec.HasSub("conversion") {
        var conv := spec.fields["conversion"].node;
        ghost var c := cp.View()["spec"].fields["conversion"].fields;
        assert cp.View()["spec"] == Obj(spec.View()) && spec.View()["conversion"] == Obj(conv.View());
        var none := "strategy" in conv.fields && conv.fields["strategy"].Leaf?
          && conv.fields["strategy"].v.Str? && ToLower(conv.fields["strategy"].v.s) == "none";
        assert none <==> DefaultConversion(c);
        if none {
          RemoveBelow(cp, "spec", {"conversion"});
        }
      }
    }
  }

  /** `normalize` on its private, already pruned copy of the body. */
  method NormalizeInPlace(cp: Node, kind: string, ignore: seq<string>, ghost body: Fields)
    requires cp.Valid() && cp.View() == PruneFields(body)
    modifies cp.repr
    ensures cp.Valid() && cp.repr == old(cp.repr)
    ensures cp.View() == Normalized(kind, body, ignore)
  {
    StripServerInPlace(cp);
    if kind == CRD {
      StripConversionInPlace(cp);
    }
    ghost var ps := IgnorePaths(ignore);
    for i := 0 to |ignore|
      invariant cp.Valid() && cp.repr == old(cp.repr)
      invariant DeleteAll(Obj(cp.View()), ps[i..]) == Obj(Normalized(kind, body, ignore))
    {
      assert ps[i..][0] == ps[i] && ps[i..][1..] == ps[i + 1..];
      DeletePath(cp, Split(ignore[i], '.'));
    }
  }
}
