/** JavaScript numbers as the core sees them after `Number(...)`. */
module Numbers {
  /** A finite value, `NaN`, or an infinity. */
  datatype JsNumber = Finite(value: real) | NaN | Infinity(positive: bool) {
    /** `Number.isFinite(n)`. */
    predicate IsFinite() { Finite? }
  }

  /**
   * `Math.max(lo, Math.min(n, hi))` for a finite range, on any JavaScript
   * number except NaN (`n || 0` has already replaced NaN by 0 where it is used).
   */
  function ClampJs(n: JsNumber, lo: real, hi: real): (r: real)
    requires lo <= hi && !n.NaN?
    ensures lo <= r <= hi
    ensures n.Finite? && lo <= n.value <= hi ==> r == n.value
    ensures n == Infinity(true) ==> r == hi
    ensures n == Infinity(false) ==> r == lo
  {
    match n
    case Finite(v) => if v < lo then lo else if hi < v then hi else v
    case Infinity(pos) => if pos then hi else lo
  }

  /** `n || 0`: NaN (and zero) become 0. */
  function OrZero(n: JsNumber): (r: JsNumber)
    ensures !r.NaN?
    ensures n.NaN? ==> r == Finite(0.0)
    ensures !n.NaN? ==> r == n
  {
    if n.NaN? then Finite(0.0) else n
  }
}
