/** Floating point numbers as the model sees them: an exact real, or not-a-number. Rounding,
    infinities and the sign of zero are not modelled. */
module Floats {
  import opened Wrappers
  import opened Text

  datatype Float = Finite(r: real) | NaN

  /** The result of a comparison (Rust's `Ordering`). */
  datatype Ordering = Less | Equal | Greater
  {
    /** The same comparison seen from the other operand. */
    function Reverse(): Ordering
    {
      match this
      case Less => Greater
      case Equal => Equal
      case Greater => Less
    }
  }

  /** IEEE equality: NaN equals nothing, itself included. */
  predicate FloatEq(a: Float, b: Float)
  {
    a.Finite? && b.Finite? && a.r == b.r
  }

  /** IEEE comparison (Rust's `partial_cmp` on `f64`): none as soon as one side is NaN. */
  function FloatCmp(a: Float, b: Float): (r: Option<Ordering>)
    ensures r.None? <==> a.NaN? || b.NaN?
    ensures r == Some(Equal) <==> FloatEq(a, b)
  {
    if a.NaN? || b.NaN? then None
    else if a.r < b.r then Some(Less)
    else if a.r == b.r then Some(Equal)
    else Some(Greater)
  }

  /** Widening of an integer to a float. */
  function FromInt(i: int): (f: Float)
    ensures f.Finite? && f.r == i as real
  {
    Finite(i as real)
  }

  /** The text of a float (Rust's `{}` on an `f64`) for NaN and whole numbers; the digits of
      any other number are not modelled and written as `<float>`. */
  function FloatText(f: Float): (r: string)
    ensures |r| > 0
  {
    if f.NaN? then "NaN"
    else if f.r == f.r.Floor as real then IntText(f.r.Floor)
    else "<float>"
  }
}
