/**
 * Untyped row values as the generic table sees them (`T extends Record<string, any>`):
 * optional property access `o?.[k]`, a `reduce` of it over a property path, and the
 * text `String(v ?? '')` that filtering and sorting compare.
 */
module JsValue {
  import opened Text

  datatype Value =
    | Undefined
    | Null
    | Bool(b: bool)
    | Num(n: int)
    | Str(s: string)
    | Obj(fields: map<string, Value>)

  /** A table row: an object from property names to values. */
  type Row = map<string, Value>

  /** `o?.[k]`: an own property of an object, `undefined` for anything missing or not an object. */
  function Prop(o: Value, k: string): (r: Value)
    ensures !o.Obj? ==> r == Undefined
    ensures o.Obj? && k !in o.fields ==> r == Undefined
    ensures o.Obj? && k in o.fields ==> r == o.fields[k]
  {
    match o
    case Obj(fields) => if k in fields then fields[k] else Undefined
    case _ => Undefined
  }

  /** `path.reduce((o, k) => o?.[k], v)`. */
  function Walk(v: Value, path: seq<string>): Value
    decreases |path|
  {
    if path == [] then v else Walk(Prop(v, path[0]), path[1..])
  }

  /** Nothing can be read out of `undefined`: the walk stays there. */
  lemma {:induction false} WalkUndefined(path: seq<string>)
    ensures Walk(Undefined, path) == Undefined
    decreases |path|
  {
    if path != [] {
      WalkUndefined(path[1..]);
    }
  }

  /** Walking `p + q` is walking `p`, then walking `q` from where `p` ended. */
  lemma {:induction false} WalkAppend(v: Value, p: seq<string>, q: seq<string>)
    ensures Walk(v, p + q) == Walk(Walk(v, p), q)
    decreases |p|
  {
    if p == [] {
      assert p + q == q;
    } else {
      assert (p + q)[0] == p[0];
      assert (p + q)[1..] == p[1..] + q;
      WalkAppend(Prop(v, p[0]), p[1..], q);
    }
  }

  /**
   * A walk that reaches a value without the next property yields `undefined`,
   * whatever segments follow: a missing nested property never fails.
   */
  lemma WalkMissing(v: Value, path: seq<string>, i: nat)
    requires i < |path|
    requires Prop(Walk(v, path[..i]), path[i]) == Undefined
    ensures Walk(v, path) == Undefined
  {
    var rest := [path[i]] + path[i + 1..];
    assert path == path[..i] + rest;
    WalkAppend(v, path[..i], rest);
    assert rest[0] == path[i] && rest[1..] == path[i + 1..];
    assert Walk(Walk(v, path[..i]), rest) == Walk(Undefined, path[i + 1..]);
    WalkUndefined(path[i + 1..]);
  }

  /** `String(v ?? '')`. */
  function Display(v: Value): (r: string)
    ensures v.Undefined? || v.Null? ==> r == []
    ensures v.Str? ==> r == v.s
  {
    match v
    case Undefined => []
    case Null => []
    case Bool(b) => if b then "true" else "false"
    case Num(n) => IntToString(n)
    case Str(s) => s
    case Obj(_) => "[object Object]"
  }
}
