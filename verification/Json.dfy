/**
 Resource bodies: the trees that survive the JSON round trip of `deepCopyMap`.
 Two such trees have the same JSON text exactly when they are the same tree, so
 `equal` and `equalAny` are equality on `Value`.
 */
module Json {

  /** A number is identified by its canonical JSON literal. */
  datatype Value =
    | Null
    | Bool(b: bool)
    | Num(literal: string)
    | Str(s: string)
    | Arr(items: seq<Value>)
    | Obj(fields: map<string, Value>)

  type Fields = map<string, Value>

  /** Indexing a Go map: a missing key reads as nil. */
  function Get(m: Fields, k: string): Value {
    if k in m then m[k] else Null
  }

  /** No map below v, at any depth, holds a null. */
  predicate NoNullFields(v: Value) {
    match v
    case Arr(items) => forall i :: 0 <= i < |items| ==> NoNullFields(items[i])
    case Obj(m) => forall k :: k in m ==> m[k] != Null && NoNullFields(m[k])
    case _ => true
  }
}
