/**
  The slice of JavaScript value semantics the views depend on: a document
  field may be absent (`undefined`), explicitly `null`, or hold a value, and
  the views branch on the *truthiness* of such fields.
 */
module JsValues {

  /** A document field: absent, `null`, or a value. */
  datatype Field<+T> = Undefined | Null | Val(v: T)

  /** JavaScript truthiness of a field whose type has a single falsy value
      `zero` (`0` for numbers, `""` for strings). `NaN` is not modelled. */
  predicate Truthy<T(==)>(f: Field<T>, zero: T) {
    f.Val? && f.v != zero
  }

  /** `a || b` on numeric fields: `a` when it is truthy, `b` otherwise. */
  function Or(a: Field<int>, b: int): (r: int)
    ensures Truthy(a, 0) ==> r == a.v && r != 0
    ensures !Truthy(a, 0) ==> r == b
  {
    if a.Val? && a.v != 0 then a.v else b
  }

  /** `Array.prototype.indexOf` with strict equality: the first position of `x`
      in `s`, or -1. */
  function IndexOf<T(==)>(s: seq<T>, x: T): (r: int)
    ensures -1 <= r < |s|
    ensures r >= 0 <==> x in s
    ensures r >= 0 ==> s[r] == x && x !in s[..r]
  {
    if |s| == 0 then -1
    else if s[0] == x then 0
    else
      var i := IndexOf(s[1..], x);
      if i < 0 then -1
      else
        assert s[..1 + i] == [s[0]] + s[1..][..i];
        1 + i
  }
}
