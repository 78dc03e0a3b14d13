/** Floating-point values as the resource accounting sees them: a real number or
    the special not-a-number value, with Python's comparison and arithmetic rules
    for that value (every comparison with NaN is false; NaN absorbs + and /). */
module Numbers {

  datatype Option<+T> = None | Some(value: T)

  datatype Result<+R, +E> = Ok(value: R) | Err(error: E)

  datatype Num = Val(r: real) | NaN

  /** `x == 0` in Python: false for NaN. */
  predicate IsZero(x: Num) {
    x == Val(0.0)
  }

  /** `x > 0` in Python: false for NaN. */
  predicate IsPositive(x: Num) {
    x.Val? && x.r > 0.0
  }

  /** The chained comparison `lo <= x <= hi` in Python: false when x is NaN. */
  predicate Within(lo: real, x: Num, hi: real) {
    x.Val? && lo <= x.r <= hi
  }

  /** `a + b` on floats. */
  function Add(a: Num, b: Num): (s: Num)
    ensures s.NaN? <==> a.NaN? || b.NaN?
    ensures s.Val? ==> s.r == a.r + b.r
  {
    if a.NaN? || b.NaN? then NaN else Val(a.r + b.r)
  }

  /** `a / b` on floats, for a divisor that is not zero. */
  function Div(a: Num, b: Num): (q: Num)
    requires !IsZero(b)
    ensures q.NaN? <==> a.NaN? || b.NaN?
    ensures q.Val? ==> q.r * b.r == a.r
  {
    if a.NaN? || b.NaN? then NaN else Val(a.r / b.r)
  }

  lemma AddCommutes(a: Num, b: Num)
    ensures Add(a, b) == Add(b, a)
  {
  }

  lemma AddAssociates(a: Num, b: Num, c: Num)
    ensures Add(Add(a, b), c) == Add(a, Add(b, c))
  {
  }

  lemma AddZero(a: Num)
    ensures Add(Val(0.0), a) == a && Add(a, Val(0.0)) == a
  {
  }
}
