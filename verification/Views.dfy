/**
 The two other descriptions of a patch, `changedTopLevelKeys` and
 `changedFieldPaths`, and their agreement with the +/- lines. Both read a missing
 key as null, the lines do not; without null fields the three say the same.
 */
module Views {
  import opened Json
  import opened Text
  import opened AttributeDiff
  import opened Positions

  /** The top-level keys whose values differ. */
  function ChangedKeySet(dm: Fields, am: Fields): (ks: set<string>) {
    set k | k in dm.Keys + am.Keys && Get(dm, k) != Get(am, k)
  }

  /** The paths the walk of `changedFieldPaths` records, relative to the two trees. */
  function ChangedPaths(d: Value, a: Value): (ps: set<Path>)
    decreases d, 1
  {
    if d == a then {}
    else if d.Obj? && a.Obj? then
      set k, p | k in d.fields.Keys + a.fields.Keys && p in PathsAt(d, a, k) :: [Key(k)] + p
    else {[]}
  }

  /** The walk below one key. A key the desired side lacks reads as null there. */
  function PathsAt(d: Value, a: Value, k: string): (ps: set<Path>)
    requires d.Obj? && a.Obj?
    decreases d, 0
  {
    if k in d.fields then ChangedPaths(d.fields[k], Get(a.fields, k))
    else if Get(a.fields, k) == Null then {}
    else {[]}
  }

  // ----- Agreement -----

  /** The part of a path before its first array index. */
  function KeyPrefix(p: Path): (q: Path)
    ensures q <= p
  {
    if p == [] || p[0].Index? then [] else [p[0]] + KeyPrefix(p[1..])
  }

  function KeyPrefixes(ls: seq<Line>): (ps: set<Path>) {
    set l | l in ls :: KeyPrefix(l.path)
  }

  /** The same paths below another path. */
  function Prefixed(path: Path, ps: set<Path>): (qs: set<Path>) {
    set p | p in ps :: path + p
  }

  lemma KeyPrefixesConcat(xs: seq<Line>, ys: seq<Line>)
    ensures KeyPrefixes(xs + ys) == KeyPrefixes(xs) + KeyPrefixes(ys)
  {
    assert forall l :: l in xs + ys <==> l in xs || l in ys;
  }

  lemma KeyPrefixesUnder(k: string, ls: seq<Line>)
    ensures KeyPrefixes(Under(Key(k), ls)) == Prefixed([Key(k)], KeyPrefixes(ls))
  {
    var us := Under(Key(k), ls);
    forall p | p in KeyPrefixes(us) ensures p in Prefixed([Key(k)], KeyPrefixes(ls)) {
      var l :| l in us && p == KeyPrefix(l.path);
      var i :| 0 <= i < |us| && us[i] == l;
      KeyPrefixStep(k, ls[i].path);
      assert ls[i] in ls;
    }
    forall p | p in Prefixed([Key(k)], KeyPrefixes(ls)) ensures p in KeyPrefixes(us) {
      var l :| l in ls && p == [Key(k)] + KeyPrefix(l.path);
      var i :| 0 <= i < |ls| && ls[i] == l;
      KeyPrefixStep(k, l.path);
      assert us[i] in us;
    }
  }

  lemma KeyPrefixStep(k: string, p: Path)
    ensures KeyPrefix([Key(k)] + p) == [Key(k)] + KeyPrefix(p)
  {
    assert ([Key(k)] + p)[1..] == p;
  }

  /** Cutting the path of every +/- line at its first array index gives exactly
      the changed paths, at every depth. */
  lemma {:induction false} PathsAreLinePrefixes(d: Value, a: Value)
    requires NoNullFields(d) && NoNullFields(a)
    ensures ChangedPaths(d, a) == KeyPrefixes(Lines(d, a))
    decreases d, 1, 0
  {
    if d == a {
      NoLinesIffEqual(d, a);
    } else if d.Obj? && a.Obj? {
      var ks := SortedKeys(d.fields.Keys + a.fields.Keys);
      KeyPathsAreLinePrefixes(d, a, ks);
      PathsOfObjects(d, a, ks);
    } else if d.Arr? && a.Arr? && |d.items| == |a.items| {
      ArrayPathsAreLinePrefixes(d, a);
    } else {
      assert Lines(d, a) == Replace(d, a);
      assert Replace(d, a)[0] in Lines(d, a);
      assert KeyPrefix([]) == [];
    }
  }

  lemma PathsOfObjects(d: Value, a: Value, ks: seq<string>)
    requires d.Obj? && a.Obj? && d != a && ks == SortedKeys(d.fields.Keys + a.fields.Keys)
    ensures ChangedPaths(d, a) == PathsUnder(d, a, ks) && Lines(d, a) == KeyLines(d, a, ks)
  {
  }

  lemma ArrayPathsAreLinePrefixes(d: Value, a: Value)
    requires d.Arr? && a.Arr? && |d.items| == |a.items| && d != a
    ensures ChangedPaths(d, a) == KeyPrefixes(Lines(d, a))
  {
    var ls := Lines(d, a);
    NoLinesIffEqual(d, a);
    ItemLinesStartWithIndex(d, a, |d.items|);
    assert ls[0] in ls && KeyPrefix(ls[0].path) == [];
    assert forall l :: l in ls ==> KeyPrefix(l.path) == [];
  }

  ghost function PathsUnder(d: Value, a: Value, ks: seq<string>): set<Path>
    requires d.Obj? && a.Obj?
  {
    set k, p | k in ks && p in PathsAt(d, a, k) :: [Key(k)] + p
  }

  lemma {:induction false} KeyPathsAreLinePrefixes(d: Value, a: Value, ks: seq<string>)
    requires d.Obj? && a.Obj? && NoNullFields(d) && NoNullFields(a)
    requires forall k :: k in ks ==> k in d.fields || k in a.fields
    ensures PathsUnder(d, a, ks) == KeyPrefixes(KeyLines(d, a, ks))
    decreases d, 0, |ks|
  {
    if ks != [] {
      var k := ks[0];
      PathsAtAreLinePrefixes(d, a, k);
      KeyPrefixesUnder(k, AtKey(d, a, k));
      KeyPathsAreLinePrefixes(d, a, ks[1..]);
      KeyPrefixesConcat(Under(Key(k), AtKey(d, a, k)), KeyLines(d, a, ks[1..]));
      assert PathsUnder(d, a, ks) == Prefixed([Key(k)], PathsAt(d, a, k)) + PathsUnder(d, a, ks[1..]);
    }
  }

  lemma {:induction false} PathsAtAreLinePrefixes(d: Value, a: Value, k: string)
    requires d.Obj? && a.Obj? && NoNullFields(d) && NoNullFields(a)
    requires k in d.fields || k in a.fields
    ensures PathsAt(d, a, k) == KeyPrefixes(AtKey(d, a, k))
    decreases d, 0, 0
  {
    if k in d.fields && k in a.fields {
      PathsAreLinePrefixes(d.fields[k], a.fields[k]);
    } else {
      var l := if k in d.fields then Plus([], d.fields[k]) else Minus([], a.fields[k]);
      assert AtKey(d, a, k) == [l];
      assert KeyPrefixes([l]) == {[]};
    }
  }

  lemma {:induction false} ItemLinesStartWithIndex(d: Value, a: Value, n: nat)
    requires d.Arr? && a.Arr? && n <= |d.items| && n <= |a.items|
    ensures forall l :: l in ItemLines(d, a, n) ==> l.path != [] && l.path[0].Index?
    decreases n
  {
    if n > 0 { ItemLinesStartWithIndex(d, a, n - 1); }
  }

  /** Some path, or some line, starts at key k. */
  ghost predicate PathStartsWith(ps: set<Path>, k: string) {
    exists p :: p in ps && p != [] && p[0] == Key(k)
  }

  ghost predicate LineStartsWith(ls: seq<Line>, k: string) {
    exists l :: l in ls && l.path != [] && l.path[0] == Key(k)
  }

  /** The three views of a patch agree: a key is reported as changed exactly when
      some changed path starts with it, and exactly when some line does; and two
      different bodies leave none of the views empty. */
  lemma ViewsAgree(dm: Fields, am: Fields)
    requires NoNullFields(Obj(dm)) && NoNullFields(Obj(am))
    ensures forall k :: k in ChangedKeySet(dm, am) <==> PathStartsWith(ChangedPaths(Obj(dm), Obj(am)), k)
    ensures forall k :: k in ChangedKeySet(dm, am) <==> LineStartsWith(Lines(Obj(dm), Obj(am)), k)
    ensures dm != am ==>
      ChangedKeySet(dm, am) != {} && ChangedPaths(Obj(dm), Obj(am)) != {} && Lines(Obj(dm), Obj(am)) != []
  {
    forall k
      ensures k in ChangedKeySet(dm, am) <==> PathStartsWith(ChangedPaths(Obj(dm), Obj(am)), k)
      ensures k in ChangedKeySet(dm, am) <==> LineStartsWith(Lines(Obj(dm), Obj(am)), k)
    {
      KeyChangedIffPath(dm, am, k);
      HeadsMatch(Obj(dm), Obj(am), k);
    }
    if dm != am { ViewsNonEmpty(dm, am); }
  }

  lemma ViewsNonEmpty(dm: Fields, am: Fields)
    requires NoNullFields(Obj(dm)) && NoNullFields(Obj(am)) && dm != am
    ensures ChangedKeySet(dm, am) != {} && ChangedPaths(Obj(dm), Obj(am)) != {} && Lines(Obj(dm), Obj(am)) != []
  {
    var k := DifferingKey(dm, am);
    assert k in ChangedKeySet(dm, am);
    KeyChangedIffPath(dm, am, k);
    NoLinesIffEqual(Obj(dm), Obj(am));
  }

  lemma DifferingKey(dm: Fields, am: Fields) returns (k: string)
    requires NoNullFields(Obj(dm)) && NoNullFields(Obj(am)) && dm != am
    ensures Get(dm, k) != Get(am, k)
  {
    if k' :| k' in dm && k' !in am {
      k := k';
    } else if k' :| k' in am && k' !in dm {
      k := k';
    } else {
      assert dm.Keys == am.Keys;
      k :| k in dm && dm[k] != am[k];
    }
  }

  lemma KeyChangedIffPath(dm: Fields, am: Fields, k: string)
    requires NoNullFields(Obj(dm)) && NoNullFields(Obj(am))
    ensures k in ChangedKeySet(dm, am) <==> PathStartsWith(ChangedPaths(Obj(dm), Obj(am)), k)
  {
    var d, a := Obj(dm), Obj(am);
    var ps := ChangedPaths(d, a);
    if k in ChangedKeySet(dm, am) {
      PathsAtAreLinePrefixes(d, a, k);
      var ls := AtKey(d, a, k);
      if k in dm && k in am { NoLinesIffEqual(dm[k], am[k]); }
      assert ls != [] && ls[0] in ls;
      var p := KeyPrefix(ls[0].path);
      assert p in PathsAt(d, a, k);
      assert [Key(k)] + p in ps;
      assert ([Key(k)] + p)[0] == Key(k);
    }
    if PathStartsWith(ps, k) {
      var p :| p in ps && p != [] && p[0] == Key(k);
      var k', q :| k' in dm.Keys + am.Keys && q in PathsAt(d, a, k') && p == [Key(k')] + q;
      assert k' == k;
      assert PathsAt(d, a, k) != {};
    }
  }

  lemma HeadsMatch(d: Value, a: Value, k: string)
    requires d.Obj? && a.Obj? && NoNullFields(d) && NoNullFields(a)
    ensures PathStartsWith(ChangedPaths(d, a), k) <==> LineStartsWith(Lines(d, a), k)
  {
    PathsAreLinePrefixes(d, a);
    var ls := Lines(d, a);
    if PathStartsWith(ChangedPaths(d, a), k) {
      var p :| p in ChangedPaths(d, a) && p != [] && p[0] == Key(k);
      var l :| l in ls && p == KeyPrefix(l.path);
      assert l.path[0] == p[0];
    }
    if LineStartsWith(ls, k) {
      var l :| l in ls && l.path != [] && l.path[0] == Key(k);
      var p := KeyPrefix(l.path);
      assert p in ChangedPaths(d, a) && p[0] == Key(k);
    }
  }

  /** Without the null-free form the views can disagree: a null field the live
      side lacks is a line, but neither a changed key nor a changed path. */
  lemma NullFieldsSplitTheViews()
    ensures var d, a := Obj(map["x" := Null]), Obj(map[]);
      d != a && ChangedPaths(d, a) == {} && ChangedKeySet(d.fields, a.fields) == {} && Lines(d, a) != []
  {
    var d, a := Obj(map["x" := Null]), Obj(map[]);
    assert "x" in d.fields && "x" !in a.fields;
    assert d.fields.Keys + a.fields.Keys == {"x"};
    assert PathsAt(d, a, "x") == ChangedPaths(Null, Null) == {};
    NoLinesIffEqual(d, a);
  }

  // ----- The loops -----

  method ChangedTopLevelKeys(dm: Fields, am: Fields) returns (out: seq<string>)
    ensures StrictlySorted(out)
    ensures forall k :: k in out <==> Get(dm, k) != Get(am, k)
    ensures out == SortedKeys(ChangedKeySet(dm, am))
  {
    var todo := dm.Keys + am.Keys;
    var changed: set<string> := {};
    while todo != {}
      invariant forall k :: k in todo || k in changed ==> k in dm.Keys + am.Keys
      invariant forall k :: k in changed ==> Get(dm, k) != Get(am, k)
      invariant forall k :: Get(dm, k) != Get(am, k) ==> k in changed || k in todo
      decreases |todo|
    {
      var k :| k in todo;
      if Get(dm, k) != Get(am, k) {
        changed := changed + {k};
      }
      todo := todo - {k};
    }
    assert changed == ChangedKeySet(dm, am);
    out := SortedKeys(changed);
  }

  /** The closure of `changedFieldPaths` and the set it fills. */
  class PathWalker {
    var seen: set<Path>

    constructor ()
      ensures seen == {}
    {
      seen := {};
    }

    method Walk(path: Path, d: Value, a: Value)
      modifies this
      ensures seen == old(seen) + Prefixed(path, ChangedPaths(d, a))
      decreases d.Obj?, d, 1, 0
    {
      if d == a {
        return;
      }
      if d.Obj? && a.Obj? {
        WalkKeys(path, d, a);
        return;
      }
      assert path + [] == path && ChangedPaths(d, a) == {[]};
      assert Prefixed(path, {[]}) == {path};
      seen := seen + {path};
    }

    method WalkKeys(path: Path, d: Value, a: Value)
      requires d.Obj? && a.Obj? && d != a
      modifies this
      ensures seen == old(seen) + Prefixed(path, ChangedPaths(d, a))
      decreases d.Obj?, d, 0, 1
    {
      var sorted := SortedKeys(d.fields.Keys + a.fields.Keys);
      var n := 0;
      while n < |sorted|
        invariant 0 <= n <= |sorted|
        invariant seen == old(seen) + Prefixed(path, PathsUnder(d, a, sorted[..n]))
      {
        WalkAt(path, d, a, sorted[n]);
        GrowPaths(path, d, a, sorted, n);
        n := n + 1;
      }
      assert sorted[..n] == sorted;
      assert PathsUnder(d, a, sorted) == ChangedPaths(d, a);
    }

    method WalkAt(path: Path, d: Value, a: Value, k: string)
      requires d.Obj? && a.Obj?
      modifies this
      ensures seen == old(seen) + Prefixed(path + [Key(k)], PathsAt(d, a, k))
      decreases d.Obj?, d, 0, 0
    {
      Walk(path + [Key(k)], Get(d.fields, k), Get(a.fields, k));
      assert PathsAt(d, a, k) == ChangedPaths(Get(d.fields, k), Get(a.fields, k));
    }
  }

  lemma GrowPaths(path: Path, d: Value, a: Value, ks: seq<string>, n: nat)
    requires d.Obj? && a.Obj? && n < |ks|
    ensures Prefixed(path, PathsUnder(d, a, ks[..n + 1]))
         == Prefixed(path, PathsUnder(d, a, ks[..n])) + Prefixed(path + [Key(ks[n])], PathsAt(d, a, ks[n]))
  {
    var k := ks[n];
    var here := PathsAt(d, a, k);
    assert ks[..n + 1] == ks[..n] + [k];
    assert PathsUnder(d, a, ks[..n + 1]) == PathsUnder(d, a, ks[..n]) + Prefixed([Key(k)], here);
    PrefixedUnion(path, PathsUnder(d, a, ks[..n]), Prefixed([Key(k)], here));
    PrefixedTwice(path, [Key(k)], here);
  }

  lemma PrefixedUnion(path: Path, ps: set<Path>, qs: set<Path>)
    ensures Prefixed(path, ps + qs) == Prefixed(path, ps) + Prefixed(path, qs)
  {
  }

  lemma PrefixedTwice(path: Path, more: Path, ps: set<Path>)
    ensures Prefixed(path, Prefixed(more, ps)) == Prefixed(path + more, ps)
  {
    assert forall p: Path :: path + (more + p) == path + more + p;
    forall q | q in Prefixed(path + more, ps) ensures q in Prefixed(path, Prefixed(more, ps)) {
      var p :| p in ps && q == path + more + p;
      assert more + p in Prefixed(more, ps);
      assert q == path + (more + p);
    }
  }

  // ----- Paths as texts -----

  /** The dotted text the walks carry for a path; the root is empty. */
  function Dotted(p: Path): (s: string) {
    if p == [] then ""
    else
      var above := Dotted(p[..|p| - 1]);
      match p[|p| - 1]
      case Key(k) => if above == "" then k else above + "." + k
      case Index(i) => DisplayPath(above) + "[" + Digits(i) + "]"
  }

  function DisplayPath(text: string): (s: string) {
    if text == "" then "<root>" else text
  }

  function PathTexts(ps: set<Path>): (texts: set<string>) {
    set p | p in ps :: DisplayPath(Dotted(p))
  }

  /** The keys of a path. */
  function KeysOf(p: Path): (ks: seq<string>) {
    if p == [] then []
    else KeysOf(p[..|p| - 1]) + if p[|p| - 1].Key? then [p[|p| - 1].k] else []
  }

  /** The text of a path of keys, none of them empty, is the keys joined by dots. */
  lemma {:induction false} DottedIsJoin(p: Path)
    requires p != [] && forall i :: 0 <= i < |p| ==> p[i].Key? && p[i].k != ""
    ensures Dotted(p) == JoinWith(KeysOf(p), ".") && Dotted(p) != "" && |KeysOf(p)| == |p|
    decreases |p|
  {
    var n := |p| - 1;
    if n == 0 {
      assert p[..0] == [] && KeysOf([]) == [] && Dotted([]) == "";
    } else {
      DottedIsJoin(p[..n]);
      JoinOneMore(KeysOf(p[..n]), p[n].k, ".");
    }
  }

  lemma {:induction false} JoinOneMore(parts: seq<string>, x: string, sep: string)
    requires |parts| > 0
    ensures JoinWith(parts + [x], sep) == JoinWith(parts, sep) + sep + x
    decreases |parts|
  {
    if |parts| == 1 {
      assert (parts + [x])[1..] == [x];
    } else {
      JoinOneMore(parts[1..], x, sep);
      assert (parts + [x])[1..] == parts[1..] + [x];
    }
  }

  /** Different paths can have one text, so the texts may be fewer than the paths. */
  lemma DottedTextsCollide()
    ensures Dotted([Key("a"), Key("b")]) == Dotted([Key("a.b")])
    ensures [Key("a"), Key("b")] != [Key("a.b")]
  {
    var p, q := [Key("a"), Key("b")], [Key("a.b")];
    assert p[..1] == [Key("a")] && p[..1][..0] == [] && q[..0] == [];
    assert Dotted(p[..1]) == "a" && Dotted(q) == "a.b";
    assert "a" + "." + "b" == "a.b";
    assert p != q by { assert |p| != |q|; }
  }

  /** `changedFieldPaths`: the changed paths, and the sorted list of their texts. */
  method ChangedFieldPaths(d: Value, a: Value) returns (out: seq<string>, paths: set<Path>)
    ensures paths == ChangedPaths(d, a)
    ensures StrictlySorted(out) && forall t :: t in out <==> t in PathTexts(paths)
    ensures out == SortedKeys(PathTexts(paths))
  {
    var w := new PathWalker();
    w.Walk([], d, a);
    paths := w.seen;
    assert forall p: Path :: [] + p == p;
    assert Prefixed([], ChangedPaths(d, a)) == ChangedPaths(d, a);
    out := SortedKeys(PathTexts(w.seen));
  }
}
