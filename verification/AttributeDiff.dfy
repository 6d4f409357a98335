/**
 `buildAttributeDiffLines`: the +/- lines of a patch. `Lines` is what the walk
 appends; `Run` gives the lines their meaning as an edit script. The main result
 is that the script turns the live tree into the desired one.
 */
module AttributeDiff {
  import opened Json
  import opened Options
  import opened Text
  import opened Projection
  import opened Positions

  datatype Line = Minus(path: Path, value: Value) | Plus(path: Path, value: Value)

  /** The same lines one step further down, and below a whole path. */
  function Under(step: Step, ls: seq<Line>): (r: seq<Line>)
    ensures |r| == |ls|
  {
    seq(|ls|, i requires 0 <= i < |ls| => ls[i].(path := [step] + ls[i].path))
  }

  function Below(path: Path, ls: seq<Line>): (r: seq<Line>)
    ensures |r| == |ls|
  {
    seq(|ls|, i requires 0 <= i < |ls| => ls[i].(path := path + ls[i].path))
  }

  function Replace(d: Value, a: Value): seq<Line> {
    [Minus([], a), Plus([], d)]
  }

  /** The lines for two trees that are both present, paths relative to them. */
  function Lines(d: Value, a: Value): (ls: seq<Line>)
    decreases d, 1, 0
  {
    if d.Obj? && a.Obj? then
      KeyLines(d, a, SortedKeys(d.fields.Keys + a.fields.Keys))
    else if d.Arr? && a.Arr? then
      if |d.items| != |a.items| then Replace(d, a) else ItemLines(d, a, |d.items|)
    else if d == a then []
    else Replace(d, a)
  }

  function KeyLines(d: Value, a: Value, ks: seq<string>): (ls: seq<Line>)
    requires d.Obj? && a.Obj?
    requires forall k :: k in ks ==> k in d.fields || k in a.fields
    decreases d, 0, |ks|
  {
    if ks == [] then []
    else Under(Key(ks[0]), AtKey(d, a, ks[0])) + KeyLines(d, a, ks[1..])
  }

  /** The lines for one key of two maps; a key of one side only is added or removed. */
  function AtKey(d: Value, a: Value, k: string): (ls: seq<Line>)
    requires d.Obj? && a.Obj?
    requires k in d.fields || k in a.fields
    decreases d, 0, 0
  {
    if k !in a.fields then [Plus([], d.fields[k])]
    else if k !in d.fields then [Minus([], a.fields[k])]
    else Lines(d.fields[k], a.fields[k])
  }

  /** The lines for the first n elements of two arrays of one length. */
  function ItemLines(d: Value, a: Value, n: nat): (ls: seq<Line>)
    requires d.Arr? && a.Arr? && n <= |d.items| && n <= |a.items|
    decreases d, 0, n
  {
    if n == 0 then []
    else ItemLines(d, a, n - 1) + Under(Index(n - 1), AtIndex(d, a, n - 1))
  }

  function AtIndex(d: Value, a: Value, i: nat): (ls: seq<Line>)
    requires d.Arr? && a.Arr? && i < |d.items| && i < |a.items|
    decreases d, 0, 0
  {
    Lines(d.items[i], a.items[i])
  }

  // ----- The lines as an edit script -----

  /**
   One line acts on the tree on its own. A minus line must show the value that is
   there; it takes a key out of its map, and leaves any other position vacant,
   which is null. A plus line fills a vacant position. None is a line that does
   not apply.
   */
  function Apply(v: Value, path: Path, l: Line): (r: Option<Value>)
    decreases |path|
  {
    if path == [] then
      if l.Minus? then (if v == l.value then Some(Null) else None)
      else (if v == Null then Some(l.value) else None)
    else match path[0]
      case Index(i) =>
        if !v.Arr? || i >= |v.items| then None
        else (match Apply(v.items[i], path[1..], l)
              case None => None
              case Some(w) => Some(Arr(v.items[i := w])))
      case Key(k) =>
        if !v.Obj? then None
        else if |path| == 1 then
          if l.Minus? then
            if k in v.fields && v.fields[k] == l.value then Some(Obj(v.fields - {k})) else None
          else
            if k !in v.fields then Some(Obj(v.fields[k := l.value])) else None
        else if k !in v.fields then None
        else (match Apply(v.fields[k], path[1..], l)
              case None => None
              case Some(w) => Some(Obj(v.fields[k := w])))
  }

  /** Applying the lines in order. */
  function Run(v: Value, ls: seq<Line>): (r: Option<Value>)
    decreases |ls|
  {
    if ls == [] then Some(v)
    else match Apply(v, ls[0].path, ls[0])
      case None => None
      case Some(w) => Run(w, ls[1..])
  }

  lemma {:induction false} RunConcat(v: Value, xs: seq<Line>, ys: seq<Line>)
    requires Run(v, xs).Some?
    ensures Run(v, xs + ys) == Run(Run(v, xs).value, ys)
    decreases |xs|
  {
    if xs == [] {
      assert xs + ys == ys;
    } else {
      assert (xs + ys)[1..] == xs[1..] + ys;
      RunConcat(Apply(v, xs[0].path, xs[0]).value, xs[1..], ys);
    }
  }

  /** Lines below an array element act on that element alone. */
  lemma {:induction false} RunUnderIndex(items: seq<Value>, i: nat, ls: seq<Line>)
    requires i < |items| && Run(items[i], ls).Some?
    ensures Run(Arr(items), Under(Index(i), ls)) == Some(Arr(items[i := Run(items[i], ls).value]))
    decreases |ls|
  {
    var us := Under(Index(i), ls);
    if ls == [] {
      assert items[i := items[i]] == items;
    } else {
      assert us[0].path[1..] == ls[0].path;
      ApplyUnder(items[i], ls[0], Index(i));
      var w := Apply(items[i], ls[0].path, ls[0]).value;
      var next := items[i := w];
      assert us[1..] == Under(Index(i), ls[1..]);
      RunUnderIndex(next, i, ls[1..]);
      assert next[i := Run(w, ls[1..]).value] == items[i := Run(w, ls[1..]).value];
    }
  }

  /** Which position a line names does not depend on how its path is stored. */
  lemma {:induction false} ApplyUnder(v: Value, l: Line, step: Step)
    ensures Apply(v, l.path, l.(path := [step] + l.path)) == Apply(v, l.path, l)
  {
    ApplyIgnoresStoredPath(v, l.path, l, l.(path := [step] + l.path));
  }

  lemma {:induction false} ApplyIgnoresStoredPath(v: Value, path: Path, l: Line, l': Line)
    requires l.Minus? == l'.Minus? && l.value == l'.value
    ensures Apply(v, path, l) == Apply(v, path, l')
    decreases |path|
  {
    if path != [] {
      match path[0]
      case Index(i) =>
        if v.Arr? && i < |v.items| { ApplyIgnoresStoredPath(v.items[i], path[1..], l, l'); }
      case Key(k) =>
        if v.Obj? && k in v.fields { ApplyIgnoresStoredPath(v.fields[k], path[1..], l, l'); }
    }
  }

  ghost predicate Deep(ls: seq<Line>) {
    forall i :: 0 <= i < |ls| ==> ls[i].path != []
  }

  /** Lines strictly below a map entry act on that entry alone. */
  lemma {:induction false} RunUnderKey(m: Fields, k: string, ls: seq<Line>)
    requires k in m && Deep(ls) && Run(m[k], ls).Some?
    ensures Run(Obj(m), Under(Key(k), ls)) == Some(Obj(m[k := Run(m[k], ls).value]))
    decreases |ls|
  {
    var us := Under(Key(k), ls);
    if ls == [] {
      assert m[k := m[k]] == m;
    } else {
      assert us[0].path[1..] == ls[0].path;
      ApplyUnder(m[k], ls[0], Key(k));
      var w := Apply(m[k], ls[0].path, ls[0]).value;
      var next := m[k := w];
      assert us[1..] == Under(Key(k), ls[1..]);
      RunUnderKey(next, k, ls[1..]);
      assert next[k := Run(w, ls[1..]).value] == m[k := Run(w, ls[1..]).value];
    }
  }

  // Two trees give either a replacement of the whole, or only deeper lines.
  lemma {:induction false} LinesShape(d: Value, a: Value)
    ensures Lines(d, a) == Replace(d, a) || Deep(Lines(d, a))
  {
    if d.Obj? && a.Obj? {
      KeyLinesDeep(d, a, SortedKeys(d.fields.Keys + a.fields.Keys));
    } else if d.Arr? && a.Arr? && |d.items| == |a.items| {
      ItemLinesDeep(d, a, |d.items|);
    }
  }

  lemma {:induction false} KeyLinesDeep(d: Value, a: Value, ks: seq<string>)
    requires d.Obj? && a.Obj?
    requires forall k :: k in ks ==> k in d.fields || k in a.fields
    ensures Deep(KeyLines(d, a, ks))
    decreases |ks|
  {
    if ks != [] { KeyLinesDeep(d, a, ks[1..]); }
  }

  lemma {:induction false} ItemLinesDeep(d: Value, a: Value, n: nat)
    requires d.Arr? && a.Arr? && n <= |d.items| && n <= |a.items|
    ensures Deep(ItemLines(d, a, n))
    decreases n
  {
    if n > 0 { ItemLinesDeep(d, a, n - 1); }
  }

  /** cur with every key of ks brought to the state it has in target. */
  function Settle(cur: Fields, target: Fields, ks: seq<string>): Fields {
    map k | k in cur.Keys + target.Keys && (if k in ks then k in target else k in cur)
      :: if k in ks then target[k] else cur[k]
  }

  lemma SettleAll(cur: Fields, target: Fields, ks: seq<string>)
    requires forall k :: k in ks <==> k in target.Keys + cur.Keys
    ensures Settle(cur, target, ks) == target
  {
  }

  lemma SettleSplit(cur: Fields, target: Fields, ks: seq<string>)
    requires ks != [] && ks[0] !in ks[1..]
    ensures Settle(Settle(cur, target, [ks[0]]), target, ks[1..]) == Settle(cur, target, ks)
  {
    assert ks == [ks[0]] + ks[1..];
    assert forall k :: k in ks <==> k == ks[0] || k in ks[1..];
  }

  /** The +/- lines are a complete edit script: applied in order to the live
      tree, each line applies and the result is the desired tree. */
  lemma {:induction false} LinesAreAnEditScript(d: Value, a: Value)
    ensures Run(a, Lines(d, a)) == Some(d)
    decreases d, 1, 0
  {
    if d.Obj? && a.Obj? {
      var ks := SortedKeys(d.fields.Keys + a.fields.Keys);
      KeyLinesRun(d, a, ks, a.fields);
      SettleAll(a.fields, d.fields, ks);
    } else if d.Arr? && a.Arr? && |d.items| == |a.items| {
      ItemLinesRun(d, a, |d.items|);
      assert d.items[..|d.items|] + a.items[|d.items|..] == d.items;
    } else if d != a {
      ReplaceRuns(d, a);
    }
  }

  lemma ReplaceRuns(d: Value, a: Value)
    ensures Run(a, Replace(d, a)) == Some(d)
  {
    assert Replace(d, a)[1..] == [Plus([], d)];
    assert Run(Null, [Plus([], d)]) == Some(d);
  }

  lemma {:induction false} KeyLinesRun(d: Value, a: Value, ks: seq<string>, cur: Fields)
    requires d.Obj? && a.Obj? && Distinct(ks)
    requires forall k :: k in ks ==> k in d.fields || k in a.fields
    requires forall k :: k in ks ==> (k in cur <==> k in a.fields)
    requires forall k :: k in ks && k in cur ==> cur[k] == a.fields[k]
    ensures Run(Obj(cur), KeyLines(d, a, ks)) == Some(Obj(Settle(cur, d.fields, ks)))
    decreases d, 0, |ks|
  {
    if ks == [] {
      assert Settle(cur, d.fields, ks) == cur;
    } else {
      var k, rest := ks[0], ks[1..];
      var next := Settle(cur, d.fields, [k]);
      KeyRun(d, a, k, cur);
      RunConcat(Obj(cur), Under(Key(k), AtKey(d, a, k)), KeyLines(d, a, rest));
      assert k !in rest;
      KeyLinesRun(d, a, rest, next);
      SettleSplit(cur, d.fields, ks);
    }
  }

  lemma {:induction false} KeyRun(d: Value, a: Value, k: string, cur: Fields)
    requires d.Obj? && a.Obj? && (k in d.fields || k in a.fields)
    requires k in cur <==> k in a.fields
    requires k in cur ==> cur[k] == a.fields[k]
    ensures Run(Obj(cur), Under(Key(k), AtKey(d, a, k))) == Some(Obj(Settle(cur, d.fields, [k])))
    decreases d, 0, 0
  {
    var next := Settle(cur, d.fields, [k]);
    var us := Under(Key(k), AtKey(d, a, k));
    assert [Key(k)] + [] == [Key(k)];
    if k !in a.fields {
      assert us == [Plus([Key(k)], d.fields[k])];
      assert next == cur[k := d.fields[k]];
      assert Run(Obj(next), us[1..]) == Some(Obj(next));
    } else if k !in d.fields {
      assert us == [Minus([Key(k)], a.fields[k])];
      assert next == cur - {k};
      assert Run(Obj(next), us[1..]) == Some(Obj(next));
    } else {
      var dv, av := d.fields[k], a.fields[k];
      assert next == cur[k := dv];
      LinesAreAnEditScript(dv, av);
      LinesShape(dv, av);
      if Deep(Lines(dv, av)) {
        RunUnderKey(cur, k, Lines(dv, av));
      } else {
        assert us == [Minus([Key(k)], av), Plus([Key(k)], dv)];
        ReplaceKeyRuns(cur, k, dv);
      }
    }
  }

  lemma ReplaceKeyRuns(m: Fields, k: string, v: Value)
    requires k in m
    ensures Run(Obj(m), [Minus([Key(k)], m[k]), Plus([Key(k)], v)]) == Some(Obj(m[k := v]))
  {
    var ls := [Minus([Key(k)], m[k]), Plus([Key(k)], v)];
    assert ls[1..] == [Plus([Key(k)], v)];
    assert ls[1..][1..] == [];
    assert (m - {k})[k := v] == m[k := v];
    assert Run(Obj(m - {k}), ls[1..]) == Some(Obj(m[k := v]));
  }

  lemma {:induction false} ItemRun(d: Value, a: Value, i: nat, cur: seq<Value>)
    requires d.Arr? && a.Arr? && i < |d.items| && i < |a.items| && i < |cur| && cur[i] == a.items[i]
    ensures Run(Arr(cur), Under(Index(i), AtIndex(d, a, i))) == Some(Arr(cur[i := d.items[i]]))
    decreases d, 0, 0
  {
    LinesAreAnEditScript(d.items[i], a.items[i]);
    RunUnderIndex(cur, i, AtIndex(d, a, i));
  }

  lemma {:induction false} ItemLinesRun(d: Value, a: Value, n: nat)
    requires d.Arr? && a.Arr? && |d.items| == |a.items| && n <= |d.items|
    ensures Run(a, ItemLines(d, a, n)) == Some(Arr(d.items[..n] + a.items[n..]))
    decreases d, 0, n
  {
    if n == 0 {
      assert d.items[..0] + a.items[0..] == a.items;
    } else {
      var i := n - 1;
      var cur := d.items[..i] + a.items[i..];
      var here := AtIndex(d, a, i);
      ItemLinesRun(d, a, i);
      ItemRun(d, a, i, cur);
      RunConcat(a, ItemLines(d, a, i), Under(Index(i), here));
      assert cur[i := d.items[i]] == d.items[..n] + a.items[n..];
    }
  }

  /** There is nothing to show exactly when the trees are equal. */
  lemma NoLinesIffEqual(d: Value, a: Value)
    ensures Lines(d, a) == [] <==> d == a
  {
    if d == a {
      LinesOfEqual(d);
    } else {
      LinesAreAnEditScript(d, a);
    }
  }

  lemma {:induction false} LinesOfEqual(d: Value)
    ensures Lines(d, d) == []
    decreases d, 1, 0
  {
    if d.Obj? {
      var ks := SortedKeys(d.fields.Keys + d.fields.Keys);
      assert forall k :: k in ks ==> k in d.fields;
      KeyLinesOfEqual(d, ks);
    } else if d.Arr? {
      ItemLinesOfEqual(d, |d.items|);
    }
  }

  lemma {:induction false} KeyLinesOfEqual(d: Value, ks: seq<string>)
    requires d.Obj? && forall k :: k in ks ==> k in d.fields
    ensures KeyLines(d, d, ks) == []
    decreases d, 0, |ks|
  {
    if ks != [] {
      LinesOfEqual(d.fields[ks[0]]);
      KeyLinesOfEqual(d, ks[1..]);
    }
  }

  lemma {:induction false} ItemLinesOfEqual(d: Value, n: nat)
    requires d.Arr? && n <= |d.items|
    ensures ItemLines(d, d, n) == []
    decreases d, 0, n
  {
    if n > 0 {
      LinesOfEqual(d.items[n - 1]);
      ItemLinesOfEqual(d, n - 1);
    }
  }

  // ----- After projection -----

  /** Every minus line is followed at once by the plus line of the same path, and
      the two values are never both arrays nor both maps. */
  ghost predicate Paired(ls: seq<Line>) {
    forall i :: 0 <= i < |ls| && ls[i].Minus? ==>
      && i + 1 < |ls|
      && ls[i + 1].Plus?
      && ls[i + 1].path == ls[i].path
      && !(ls[i].value.Arr? && ls[i + 1].value.Arr?)
      && !(ls[i].value.Obj? && ls[i + 1].value.Obj?)
  }

  lemma PairedConcat(xs: seq<Line>, ys: seq<Line>)
    requires Paired(xs) && Paired(ys)
    ensures Paired(xs + ys)
  {
    var zs := xs + ys;
    forall i | 0 <= i < |zs| && zs[i].Minus?
      ensures i + 1 < |zs| && zs[i + 1].Plus? && zs[i + 1].path == zs[i].path
      ensures !(zs[i].value.Arr? && zs[i + 1].value.Arr?) && !(zs[i].value.Obj? && zs[i + 1].value.Obj?)
    {
      if i < |xs| {
        assert zs[i] == xs[i] && zs[i + 1] == xs[i + 1];
      } else {
        assert zs[i] == ys[i - |xs|];
        assert zs[i + 1] == ys[i - |xs| + 1];
      }
    }
  }

  lemma PairedUnder(step: Step, ls: seq<Line>)
    requires Paired(ls)
    ensures Paired(Under(step, ls))
  {
    var us := Under(step, ls);
    forall i | 0 <= i < |us| && us[i].Minus?
      ensures i + 1 < |us| && us[i + 1].Plus? && us[i + 1].path == us[i].path
      ensures !(us[i].value.Arr? && us[i + 1].value.Arr?) && !(us[i].value.Obj? && us[i + 1].value.Obj?)
    {
      assert ls[i].Minus?;
    }
  }

  /** Against a projected live tree the lines only add or replace: no field is
      shown as removed and no array is replaced for its length. */
  lemma {:induction false} ProjectedLinesPaired(d: Value, a: Value)
    ensures Paired(Lines(d, Project(d, a)))
    decreases d, 1, 0
  {
    var p := Project(d, a);
    if d.Obj? && p.Obj? {
      ProjectedKeyLinesPaired(d, a, SortedKeys(d.fields.Keys + p.fields.Keys));
    } else if d.Arr? && p.Arr? {
      ProjectedItemLinesPaired(d, a, |d.items|);
    }
  }

  lemma {:induction false} ProjectedKeyLinesPaired(d: Value, a: Value, ks: seq<string>)
    requires d.Obj? && a.Obj?
    requires forall k :: k in ks ==> k in d.fields
    ensures Paired(KeyLines(d, Project(d, a), ks))
    decreases d, 0, |ks|
  {
    var p := Project(d, a);
    if ks != [] {
      var k := ks[0];
      if k in p.fields { ProjectedLinesPaired(d.fields[k], a.fields[k]); }
      PairedUnder(Key(k), AtKey(d, p, k));
      ProjectedKeyLinesPaired(d, a, ks[1..]);
      PairedConcat(Under(Key(k), AtKey(d, p, k)), KeyLines(d, p, ks[1..]));
    }
  }

  lemma {:induction false} ProjectedItemPaired(d: Value, a: Value, i: nat)
    requires d.Arr? && a.Arr? && i < |d.items|
    ensures Paired(AtIndex(d, Project(d, a), i))
    decreases d, 0, 0
  {
    if i < |a.items| {
      ProjectedLinesPaired(d.items[i], a.items[i]);
    } else {
      assert Project(d, a).items[i] == Null;
    }
  }

  lemma {:induction false} ProjectedItemLinesPaired(d: Value, a: Value, n: nat)
    requires d.Arr? && a.Arr? && n <= |d.items|
    ensures Paired(ItemLines(d, Project(d, a), n))
    decreases d, 0, n
  {
    var p := Project(d, a);
    if n > 0 {
      var i := n - 1;
      ProjectedItemPaired(d, a, i);
      var ls := AtIndex(d, p, i);
      PairedUnder(Index(i), ls);
      ProjectedItemLinesPaired(d, a, i);
      PairedConcat(ItemLines(d, p, i), Under(Index(i), ls));
    }
  }

  // ----- The walk itself -----

  lemma BelowConcat(path: Path, xs: seq<Line>, ys: seq<Line>)
    ensures Below(path, xs + ys) == Below(path, xs) + Below(path, ys)
  {
  }

  lemma BelowUnder(path: Path, step: Step, ls: seq<Line>)
    ensures Below(path, Under(step, ls)) == Below(path + [step], ls)
  {
    var l, r := Below(path, Under(step, ls)), Below(path + [step], ls);
    forall i | 0 <= i < |ls| ensures l[i] == r[i] {
      assert path + ([step] + ls[i].path) == (path + [step]) + ls[i].path;
    }
  }

  lemma KeyStep(acc: seq<Line>, path: Path, d: Value, a: Value, ks: seq<string>)
    requires d.Obj? && a.Obj? && ks != []
    requires forall k :: k in ks ==> k in d.fields || k in a.fields
    ensures acc + Below(path, KeyLines(d, a, ks))
         == acc + Below(path + [Key(ks[0])], AtKey(d, a, ks[0])) + Below(path, KeyLines(d, a, ks[1..]))
  {
    BelowUnder(path, Key(ks[0]), AtKey(d, a, ks[0]));
    BelowConcat(path, Under(Key(ks[0]), AtKey(d, a, ks[0])), KeyLines(d, a, ks[1..]));
  }

  lemma ItemStep(acc: seq<Line>, path: Path, d: Value, a: Value, i: nat)
    requires d.Arr? && a.Arr? && i < |d.items| && i < |a.items|
    ensures acc + Below(path, ItemLines(d, a, i + 1))
         == acc + Below(path, ItemLines(d, a, i)) + Below(path + [Index(i)], AtIndex(d, a, i))
  {
    var here := AtIndex(d, a, i);
    BelowUnder(path, Index(i), here);
    BelowConcat(path, ItemLines(d, a, i), Under(Index(i), here));
  }

  /** The closure of `buildAttributeDiffLines` and the slice it appends to. */
  class Walker {
    var lines: seq<Line>

    constructor ()
      ensures lines == []
    {
      lines := [];
    }

    method Walk(path: Path, d: Value, a: Value)
      modifies this
      ensures lines == old(lines) + Below(path, Lines(d, a))
      decreases d, 1, 0
    {
      if d.Obj? && a.Obj? {
        var sorted := SortedKeys(d.fields.Keys + a.fields.Keys);
        WalkKeys(path, d, a, sorted);
      } else if d.Arr? && a.Arr? {
        if |d.items| != |a.items| {
          EmitReplace(path, d, a);
        } else {
          WalkItems(path, d, a);
        }
      } else if d != a {
        EmitReplace(path, d, a);
      }
    }

    method EmitReplace(path: Path, d: Value, a: Value)
      modifies this
      ensures lines == old(lines) + Below(path, Replace(d, a))
    {
      lines := lines + [Minus(path, a)];
      lines := lines + [Plus(path, d)];
      assert path + [] == path;
      assert Below(path, Replace(d, a)) == [Minus(path, a), Plus(path, d)];
    }

    method WalkKeys(path: Path, d: Value, a: Value, sorted: seq<string>)
      requires d.Obj? && a.Obj?
      requires forall k :: k in sorted ==> k in d.fields || k in a.fields
      modifies this
      ensures lines == old(lines) + Below(path, KeyLines(d, a, sorted))
      decreases d, 0, |sorted|
    {
      var n := 0;
      assert sorted[0..] == sorted;
      while n < |sorted|
        invariant 0 <= n <= |sorted|
        invariant lines + Below(path, KeyLines(d, a, sorted[n..])) == old(lines) + Below(path, KeyLines(d, a, sorted))
      {
        KeyStep(lines, path, d, a, sorted[n..]);
        assert sorted[n..][1..] == sorted[n + 1..];
        WalkAt(path, d, a, sorted[n]);
        n := n + 1;
      }
    }

    method WalkAt(path: Path, d: Value, a: Value, k: string)
      requires d.Obj? && a.Obj? && (k in d.fields || k in a.fields)
      modifies this
      ensures lines == old(lines) + Below(path + [Key(k)], AtKey(d, a, k))
      decreases d, 0, 0
    {
      var child := path + [Key(k)];
      if k in d.fields && k in a.fields {
        Walk(child, d.fields[k], a.fields[k]);
      } else if k in d.fields {
        lines := lines + [Plus(child, d.fields[k])];
        assert child + [] == child;
        assert Below(child, [Plus([], d.fields[k])]) == [Plus(child, d.fields[k])];
      } else {
        lines := lines + [Minus(child, a.fields[k])];
        assert child + [] == child;
        assert Below(child, [Minus([], a.fields[k])]) == [Minus(child, a.fields[k])];
      }
    }

    method WalkItem(path: Path, d: Value, a: Value, i: nat)
      requires d.Arr? && a.Arr? && i < |d.items| && i < |a.items|
      modifies this
      ensures lines == old(lines) + Below(path + [Index(i)], AtIndex(d, a, i))
      decreases d, 0, 0
    {
      Walk(path + [Index(i)], d.items[i], a.items[i]);
    }

    method WalkItems(path: Path, d: Value, a: Value)
      requires d.Arr? && a.Arr? && |d.items| == |a.items|
      modifies this
      ensures lines == old(lines) + Below(path, ItemLines(d, a, |d.items|))
      decreases d, 0, 1
    {
      var i := 0;
      while i < |d.items|
        invariant 0 <= i <= |d.items|
        invariant lines == old(lines) + Below(path, ItemLines(d, a, i))
      {
        ItemStep(old(lines), path, d, a, i);
        WalkItem(path, d, a, i);
        i := i + 1;
      }
    }
  }

  method BuildAttributeDiffLines(d: Value, a: Value) returns (lines: seq<Line>)
    ensures lines == Lines(d, a)
    ensures Run(a, lines) == Some(d)
    ensures lines == [] <==> d == a
  {
    var w := new Walker();
    w.Walk([], d, a);
    lines := w.lines;
    assert Below([], Lines(d, a)) == Lines(d, a) by {
      var ls := Lines(d, a);
      forall i | 0 <= i < |ls| ensures Below([], ls)[i] == ls[i] {
        assert [] + ls[i].path == ls[i].path;
      }
    }
    LinesAreAnEditScript(d, a);
    NoLinesIffEqual(d, a);
  }
}
