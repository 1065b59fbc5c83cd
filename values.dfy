/** JavaScript values the simulation kernel relies on: optional results and numbers that may be `undefined`. */
module Values {

  /** A result that may be absent (the source returns `null`). */
  datatype Option<T> = None | Some(value: T)

  /**
   * A JavaScript number slot. `NaN` stands both for `undefined` (an array hole left by `new Array(n)`,
   * or a read past the end of an array) and for the NaN that arithmetic on `undefined` produces:
   * the two behave alike in every sum, product, comparison and `Boolean(...)` this code performs.
   */
  datatype Number = Num(value: real) | NaN

  /** `a + b` */
  function Add(a: Number, b: Number): (r: Number)
    ensures r.Num? <==> a.Num? && b.Num?
    ensures r.Num? ==> r.value == a.value + b.value
  {
    if a.Num? && b.Num? then Num(a.value + b.value) else NaN
  }

  /** `a * b` */
  function Mul(a: Number, b: Number): (r: Number)
    ensures r.Num? <==> a.Num? && b.Num?
    ensures r.Num? ==> r.value == a.value * b.value
  {
    if a.Num? && b.Num? then Num(a.value * b.value) else NaN
  }

  /** `a > b`: false as soon as either side is not a number. */
  predicate Greater(a: Number, b: Number)
  {
    a.Num? && b.Num? && a.value > b.value
  }

  /** `Boolean(a)`: zero, NaN and `undefined` are falsy. */
  predicate Truthy(a: Number)
  {
    a.Num? && a.value != 0.0
  }

  /** `s[i]`: a read past either end gives `undefined`. */
  function At(s: seq<Number>, i: int): (r: Number)
    ensures 0 <= i < |s| ==> r == s[i]
    ensures !(0 <= i < |s|) ==> r == NaN
  {
    if 0 <= i < |s| then s[i] else NaN
  }

  /** The numbers of `xs` as defined slots. */
  function Nums(xs: seq<real>): (r: seq<Number>)
    ensures |r| == |xs|
    ensures forall i :: 0 <= i < |xs| ==> r[i] == Num(xs[i])
  {
    seq(|xs|, i requires 0 <= i < |xs| => Num(xs[i]))
  }

  /** A parameter default: it applies only when the argument is absent (a 0 argument is kept). */
  function OrDefault<T>(option: Option<T>, fallback: T): (r: T)
    ensures option.Some? ==> r == option.value
    ensures option.None? ==> r == fallback
  {
    if option.Some? then option.value else fallback
  }

  /** `Math.round(x)`: the nearest integer, halves rounded towards positive infinity. */
  function Round(x: real): (r: int)
    ensures r as real - 0.5 <= x < r as real + 0.5
  {
    (x + 0.5).Floor
  }
}
