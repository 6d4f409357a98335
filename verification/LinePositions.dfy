/**
 Which lines a patch has, position by position: exactly those at the highest positions
 where the two trees differ and cannot be compared further down, each showing the value
 that is there.
 */
module LinePositions {
  import opened Json
  import opened Options
  import opened Text
  import opened Positions
  import opened AttributeDiff

  /** Two maps, or two arrays of one length: what differs is further down. */
  predicate Alike(x: Option<Value>, y: Option<Value>) {
    x.Some? && y.Some? && ((x.value.Obj? && y.value.Obj?) || (x.value.Arr? && y.value.Arr? && |x.value.items| == |y.value.items|))
  }

  /** The two sides are alike all the way to p, and at p they differ and are not alike. */
  predicate Differ(d: Option<Value>, a: Option<Value>, p: Path)
    decreases |p|
  {
    if p == [] then d != a && !Alike(d, a)
    else Alike(d, a) && Differ(Child(d, p[0]), Child(a, p[0]), p[1..])
  }

  /** A line for this position, with the value of the side it stands for. */
  ghost predicate Shows(l: Line, d: Option<Value>, a: Option<Value>) {
    Differ(d, a, l.path) && LookFrom(if l.Minus? then a else d, l.path) == Some(l.value)
  }

  function Deeper(l: Line): Line
    requires l.path != []
  {
    l.(path := l.path[1..])
  }

  lemma InUnder(l: Line, step: Step, ls: seq<Line>)
    ensures l in Under(step, ls) <==> l.path != [] && l.path[0] == step && Deeper(l) in ls
  {
    var us := Under(step, ls);
    if l in us {
      var i :| 0 <= i < |us| && us[i] == l;
      assert l.path[1..] == ls[i].path;
      assert Deeper(l) == ls[i];
    }
    if l.path != [] && l.path[0] == step && Deeper(l) in ls {
      var i :| 0 <= i < |ls| && ls[i] == Deeper(l);
      assert [step] + l.path[1..] == l.path;
      assert us[i] == l;
    }
  }

  /** The lines of a patch are exactly those that show a difference. */
  lemma {:induction false} LinesAtDifferences(d: Value, a: Value, l: Line)
    ensures l in Lines(d, a) <==> Shows(l, Some(d), Some(a))
    decreases d, 1, 0
  {
    if d.Obj? && a.Obj? {
      var ks := SortedKeys(d.fields.Keys + a.fields.Keys);
      KeyLinesAt(d, a, ks, l);
      ShowsBelow(l, d, a, l in KeyLines(d, a, ks));
    } else if d.Arr? && a.Arr? && |d.items| == |a.items| {
      ItemLinesAt(d, a, |d.items|, l);
      ShowsBelow(l, d, a, l in ItemLines(d, a, |d.items|));
    } else {
      assert Lines(d, a) == if d == a then [] else Replace(d, a);
      ReplaceAt(d, a, l);
    }
  }

  // Two sides that are alike show what some child shows.
  lemma ShowsBelow(l: Line, d: Value, a: Value, shown: bool)
    requires Alike(Some(d), Some(a))
    requires shown <==>
      && l.path != [] && (Child(Some(d), l.path[0]).Some? || Child(Some(a), l.path[0]).Some?)
      && Shows(Deeper(l), Child(Some(d), l.path[0]), Child(Some(a), l.path[0]))
    ensures shown <==> Shows(l, Some(d), Some(a))
  {
    if l.path != [] && Child(Some(d), l.path[0]).None? && Child(Some(a), l.path[0]).None? { NoneBelow(l, d, a); }
  }

  lemma ReplaceAt(d: Value, a: Value, l: Line)
    requires !Alike(Some(d), Some(a))
    ensures l in (if d == a then [] else Replace(d, a)) <==> Shows(l, Some(d), Some(a))
  {
    assert LookFrom(Some(a), []) == Some(a) && LookFrom(Some(d), []) == Some(d);
  }

  // A step that leads nowhere on either side shows nothing.
  lemma NoneBelow(l: Line, d: Value, a: Value)
    requires l.path != [] && Child(Some(d), l.path[0]).None? && Child(Some(a), l.path[0]).None?
    ensures !Shows(l, Some(d), Some(a))
  {
    LookFromNone(l.path[1..]);
  }

  lemma {:induction false} KeyLinesAt(d: Value, a: Value, ks: seq<string>, l: Line)
    requires d.Obj? && a.Obj? && forall k :: k in ks ==> k in d.fields || k in a.fields
    ensures l in KeyLines(d, a, ks) <==>
      l.path != [] && l.path[0].Key? && l.path[0].k in ks && Shows(Deeper(l), Child(Some(d), l.path[0]), Child(Some(a), l.path[0]))
    decreases d, 0, |ks|
  {
    if ks != [] {
      var k := ks[0];
      KeyLinesAt(d, a, ks[1..], l);
      InUnder(l, Key(k), AtKey(d, a, k));
      if l.path != [] && l.path[0] == Key(k) { AtKeyAt(d, a, k, Deeper(l)); }
      assert ks == [k] + ks[1..];
    }
  }

  lemma {:induction false} AtKeyAt(d: Value, a: Value, k: string, l: Line)
    requires d.Obj? && a.Obj? && (k in d.fields || k in a.fields)
    ensures l in AtKey(d, a, k) <==> Shows(l, Child(Some(d), Key(k)), Child(Some(a), Key(k)))
    decreases d, 0, 0
  {
    if k in d.fields && k in a.fields {
      LinesAtDifferences(d.fields[k], a.fields[k], l);
    } else {
      var x, y := Child(Some(d), Key(k)), Child(Some(a), Key(k));
      assert LookFrom(x, []) == x && LookFrom(y, []) == y;
      assert !Alike(x, y);
    }
  }

  lemma {:induction false} ItemLinesAt(d: Value, a: Value, n: nat, l: Line)
    requires d.Arr? && a.Arr? && n <= |d.items| && n <= |a.items|
    ensures l in ItemLines(d, a, n) <==>
      l.path != [] && l.path[0].Index? && l.path[0].i < n && Shows(Deeper(l), Child(Some(d), l.path[0]), Child(Some(a), l.path[0]))
    decreases d, 0, n
  {
    if n > 0 {
      ItemLinesAt(d, a, n - 1, l);
      InUnder(l, Index(n - 1), AtIndex(d, a, n - 1));
      if l.path != [] && l.path[0] == Index(n - 1) { AtIndexAt(d, a, n - 1, Deeper(l)); }
    }
  }

  lemma {:induction false} AtIndexAt(d: Value, a: Value, i: nat, l: Line)
    requires d.Arr? && a.Arr? && i < |d.items| && i < |a.items|
    ensures l in AtIndex(d, a, i) <==> Shows(l, Child(Some(d), Index(i)), Child(Some(a), Index(i)))
    decreases d, 0, 0
  {
    var x, y := d.items[i], a.items[i];
    LinesAtDifferences(x, y, l);
    assert AtIndex(d, a, i) == Lines(x, y);
    assert Child(Some(d), Index(i)) == Some(x) && Child(Some(a), Index(i)) == Some(y);
  }

  // ----- Order -----

  ghost predicate InKeyOrder(ls: seq<Line>) {
    && (forall i :: 0 <= i < |ls| ==> ls[i].path != [] && ls[i].path[0].Key?)
    && (forall i, j :: 0 <= i < j < |ls| ==> !Less(ls[j].path[0].k, ls[i].path[0].k))
  }

  /** The lines of two maps come in the order of their keys. */
  lemma LinesInKeyOrder(d: Value, a: Value)
    requires d.Obj? && a.Obj?
    ensures InKeyOrder(Lines(d, a))
  {
    KeyLinesInOrder(d, a, SortedKeys(d.fields.Keys + a.fields.Keys));
  }

  lemma {:induction false} KeyLinesInOrder(d: Value, a: Value, ks: seq<string>)
    requires d.Obj? && a.Obj? && StrictlySorted(ks) && forall k :: k in ks ==> k in d.fields || k in a.fields
    ensures InKeyOrder(KeyLines(d, a, ks))
    ensures forall i :: 0 <= i < |KeyLines(d, a, ks)| ==> KeyLines(d, a, ks)[i].path[0].k in ks
    decreases |ks|
  {
    if ks != [] {
      var k, first, rest := ks[0], Under(Key(ks[0]), AtKey(d, a, ks[0])), KeyLines(d, a, ks[1..]);
      KeyLinesInOrder(d, a, ks[1..]);
      var ls := first + rest;
      assert KeyLines(d, a, ks) == ls;
      forall i | 0 <= i < |ls|
        ensures ls[i].path != [] && ls[i].path[0].Key?
        ensures i < |first| ==> ls[i].path[0].k == k
        ensures i >= |first| ==> ls[i].path[0].k in ks[1..]
      {
        if i >= |first| { assert ls[i] == rest[i - |first|]; }
      }
      forall i, j | 0 <= i < j < |ls| ensures !Less(ls[j].path[0].k, ls[i].path[0].k) {
        if i >= |first| {
          assert ls[i] == rest[i - |first|] && ls[j] == rest[j - |first|];
        } else {
          FirstIsLeast(ks, ls[j].path[0].k);
        }
      }
    }
  }

  lemma FirstIsLeast(ks: seq<string>, x: string)
    requires ks != [] && StrictlySorted(ks) && (x == ks[0] || x in ks[1..])
    ensures !Less(x, ks[0])
  {
    LessTrichotomy(x, ks[0]);
    if x in ks[1..] {
      var i :| 0 <= i < |ks[1..]| && ks[1..][i] == x;
      assert Less(ks[0], ks[i + 1]);
      LessTrichotomy(ks[0], x);
    }
  }
}
