/** The scanner's float64 values: a real number, or NaN for a feature that is not yet warmed up.
    Rounding and infinities are abstracted away. */
module Numbers {
  import opened Core

  datatype Num = NaN | Val(v: real)

  function Add(a: Num, b: Num): Num { if a.NaN? || b.NaN? then NaN else Val(a.v + b.v) }

  function Sub(a: Num, b: Num): Num { if a.NaN? || b.NaN? then NaN else Val(a.v - b.v) }

  /** Division by a non-zero constant. */
  function Over(a: Num, d: real): Num
    requires d != 0.0
  {
    if a.NaN? then NaN else Val(a.v / d)
  }

  /** Any comparison with NaN is false. */
  predicate Greater(a: Num, b: Num) { a.Val? && b.Val? && a.v > b.v }

  predicate AtMost(a: Num, b: Num) { a.Val? && b.Val? && a.v <= b.v }

  /** NaN is stored as SQL NULL. */
  function Nz(a: Num): Option<real> { if a.NaN? then None else Some(a.v) }
}
