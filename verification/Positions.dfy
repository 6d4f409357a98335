/**
 Positions in a JSON tree. What an operation on trees does is stated position by
 position, without reference to the operation.
 */
module Positions {
  import opened Json
  import opened Options

  /** One step of a field path; paths are lists of steps, the root is []. */
  datatype Step = Key(k: string) | Index(i: nat)
  type Path = seq<Step>

  /** What is one step below, if there is anything. */
  function Child(v: Option<Value>, s: Step): (r: Option<Value>) {
    match v
    case None => None
    case Some(x) =>
      match s
      case Key(k) => if x.Obj? && k in x.fields then Some(x.fields[k]) else None
      case Index(i) => if x.Arr? && i < |x.items| then Some(x.items[i]) else None
  }

  function LookFrom(v: Option<Value>, p: Path): (r: Option<Value>)
    decreases |p|
  {
    if p == [] then v else LookFrom(Child(v, p[0]), p[1..])
  }

  /** The value at a position, if there is one. */
  function Look(v: Value, p: Path): (r: Option<Value>) {
    LookFrom(Some(v), p)
  }

  lemma {:induction false} LookFromNone(p: Path)
    ensures LookFrom(None, p) == None
    decreases |p|
  {
    if p != [] { LookFromNone(p[1..]); }
  }

  lemma LookStep(v: Option<Value>, s: Step, p: Path)
    ensures LookFrom(v, [s] + p) == LookFrom(Child(v, s), p)
  {
    assert ([s] + p)[1..] == p;
  }

  /** Equal apart from what is below: the same scalar, two maps, or two arrays of one length. */
  predicate SameShape(x: Value, y: Value) {
    if x.Obj? then y.Obj?
    else if x.Arr? then y.Arr? && |x.items| == |y.items|
    else x == y
  }

  ghost predicate SameAt(x: Value, y: Value, p: Path) {
    if Look(x, p).None? then Look(y, p).None?
    else Look(y, p).Some? && SameShape(Look(x, p).value, Look(y, p).value)
  }

  /** Two trees that are alike at every position are equal. */
  lemma {:induction false} SameEverywhere(x: Value, y: Value)
    requires forall p :: SameAt(x, y, p)
    ensures x == y
  {
    assert SameAt(x, y, []);
    if x.Obj? {
      forall k ensures k in x.fields <==> k in y.fields {
        assert SameAt(x, y, [Key(k)]);
        LookStep(Some(x), Key(k), []);
        LookStep(Some(y), Key(k), []);
        assert [Key(k)] + [] == [Key(k)];
      }
      forall k | k in x.fields ensures x.fields[k] == y.fields[k] {
        SameBelow(x, y, Key(k));
        SameEverywhere(x.fields[k], y.fields[k]);
      }
      assert x.fields == y.fields;
    } else if x.Arr? {
      forall i | 0 <= i < |x.items| ensures x.items[i] == y.items[i] {
        SameBelow(x, y, Index(i));
        SameEverywhere(x.items[i], y.items[i]);
      }
      assert x.items == y.items;
    }
  }

  lemma SameBelow(x: Value, y: Value, s: Step)
    requires forall p :: SameAt(x, y, p)
    requires Child(Some(x), s).Some? && Child(Some(y), s).Some?
    ensures forall p :: SameAt(Child(Some(x), s).value, Child(Some(y), s).value, p)
  {
    forall p ensures SameAt(Child(Some(x), s).value, Child(Some(y), s).value, p) {
      assert SameAt(x, y, [s] + p);
      LookStep(Some(x), s, p);
      LookStep(Some(y), s, p);
    }
  }
}
