/**
 * The few JavaScript value semantics the converters lean on: optional values,
 * numeric JSON fields that may be absent or null, truthiness (`x || d`),
 * comparisons of a possibly-missing number, and `Math.round`.
 */
module JsValues {

  datatype Option<+T> = None | Some(value: T)

  /** A numeric JSON field: absent (`undefined`), explicitly `null`, or a number. */
  datatype Num = Undefined | Null | Val(v: real)

  /** JavaScript truthiness of a numeric field: only a non-zero number is truthy. */
  predicate Truthy(n: Num)
  {
    n.Val? && n.v != 0.0
  }

  /** `n || d` */
  function Or(n: Num, d: real): real
  {
    if Truthy(n) then n.v else d
  }

  /** `s || d` for a string field (an absent string is modelled as the empty one). */
  function OrText(s: string, d: string): string
  {
    if s != "" then s else d
  }

  /** The number JavaScript compares: `null` is 0, `undefined` is NaN (never compares true). */
  predicate Comparable(n: Num)
  {
    !n.Undefined?
  }

  function AsNumber(n: Num): real
    requires Comparable(n)
  {
    if n.Null? then 0.0 else n.v
  }

  /** `n < c` */
  predicate Below(n: Num, c: real)
  {
    Comparable(n) && AsNumber(n) < c
  }

  /** `n > c` */
  predicate Above(n: Num, c: real)
  {
    Comparable(n) && AsNumber(n) > c
  }

  /** `n <= c` */
  predicate AtMost(n: Num, c: real)
  {
    Comparable(n) && AsNumber(n) <= c
  }

  function Max(a: real, b: real): real
  {
    if a >= b then a else b
  }

  function Min(a: real, b: real): real
  {
    if a <= b then a else b
  }

  /** `Math.max(lo, Math.min(hi, x))` */
  function Clamp(lo: real, hi: real, x: real): real
  {
    Max(lo, Min(hi, x))
  }

  /** `Math.round`: halves round towards positive infinity. */
  function Round(x: real): int
  {
    (x + 0.5).Floor
  }

  function MinInt(a: int, b: int): int
  {
    if a <= b then a else b
  }
}
