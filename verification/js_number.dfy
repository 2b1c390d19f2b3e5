/** JavaScript numbers as the formulas use them.

    A value is an idealised double: finite values are exact reals (no
    rounding, no signed zero), extended with the three IEEE-754 special
    values. The arithmetic below follows the IEEE rules for how the special
    values combine, which is what decides whether a card shows a number, the
    infinity glyph, or nothing sensible at all. */
module JsNumber {

  datatype Num = Fin(r: real) | PosInf | NegInf | NaN

  /** `Number.isFinite`. */
  predicate IsFinite(a: Num) {
    a.Fin?
  }

  /** Sign of a non-NaN value: -1, 0 or 1. */
  function Sign(a: Num): int
    requires !a.NaN?
  {
    match a
    case Fin(x) => if x > 0.0 then 1 else if x < 0.0 then -1 else 0
    case PosInf => 1
    case NegInf => -1
  }

  /** An infinity with the given non-zero sign. */
  function Inf(sign: int): Num
    requires sign != 0
  {
    if sign > 0 then PosInf else NegInf
  }

  /** Unary `-`. */
  function Neg(a: Num): Num {
    match a
    case Fin(x) => Fin(-x)
    case PosInf => NegInf
    case NegInf => PosInf
    case NaN => NaN
  }

  /** Binary `+`: infinities of opposite sign cancel to NaN. */
  function Add(a: Num, b: Num): (r: Num)
    ensures r.NaN? <==> a.NaN? || b.NaN? || (a.PosInf? && b.NegInf?) || (a.NegInf? && b.PosInf?)
  {
    if a.NaN? || b.NaN? then NaN
    else if a.Fin? && b.Fin? then Fin(a.r + b.r)
    else if a.Fin? then b
    else if b.Fin? || a == b then a
    else NaN
  }

  /** Binary `-`. */
  function Sub(a: Num, b: Num): Num {
    Add(a, Neg(b))
  }

  /** Binary `*`: an infinity times zero is NaN. */
  function Mul(a: Num, b: Num): (r: Num)
    ensures a.Fin? && b.Fin? ==> r.Fin?
  {
    if a.NaN? || b.NaN? then NaN
    else if a.Fin? && b.Fin? then Fin(a.r * b.r)
    else if Sign(a) == 0 || Sign(b) == 0 then NaN
    else if (Sign(a) > 0) == (Sign(b) > 0) then PosInf
    else NegInf
  }

  /** Binary `/`: a non-zero finite value over zero is a signed infinity,
      zero over zero and infinity over infinity are NaN. */
  function Div(a: Num, b: Num): (r: Num)
    ensures a.Fin? && b.Fin? && b.r != 0.0 ==> r.Fin?
    ensures a.Fin? && b == Fin(0.0) ==> !r.Fin?
  {
    if a.NaN? || b.NaN? then NaN
    else if a.Fin? && b.Fin? then
      if b.r != 0.0 then Fin(a.r / b.r)
      else if Sign(a) == 0 then NaN
      else Inf(Sign(a))
    else if a.Fin? then Fin(0.0)
    else if b.Fin? then Inf(if b.r < 0.0 then -Sign(a) else Sign(a))
    else NaN
  }

  /** `x ** 2`. */
  function Sq(a: Num): Num {
    Mul(a, a)
  }

  /** `x ** 3`. */
  function Cube(a: Num): Num {
    Mul(Sq(a), a)
  }

  /** `a < b`: false whenever either side is NaN. */
  predicate Lt(a: Num, b: Num) {
    !a.NaN? && !b.NaN? &&
    ((a.NegInf? && !b.NegInf?) || (a.Fin? && (b.PosInf? || (b.Fin? && a.r < b.r))))
  }

  /** `a <= b`: false whenever either side is NaN. */
  predicate Le(a: Num, b: Num) {
    !a.NaN? && !b.NaN? &&
    (a.NegInf? || b.PosInf? || (a.Fin? && b.Fin? && a.r <= b.r))
  }

  /** `a === b` on numbers: NaN equals nothing, not even itself. */
  predicate StrictEq(a: Num, b: Num) {
    !a.NaN? && a == b
  }

  /** The least integer not below `x`. */
  function CeilReal(x: real): (c: int)
    ensures c as real - 1.0 < x <= c as real
  {
    -((-x).Floor)
  }

  /** `Math.ceil`. */
  function Ceil(a: Num): (r: Num)
    ensures a.Fin? ==> r.Fin? && r.r == r.r.Floor as real
    ensures a.Fin? ==> r.r - 1.0 < a.r <= r.r
    ensures !a.Fin? ==> r == a
  {
    if a.Fin? then Fin(CeilReal(a.r) as real) else a
  }

  /** The floating-point library the formulas call, left abstract:
      `Math.exp`, `Math.log`, `**` with a non-integer exponent,
      `Math.sqrt`, `Math.PI`, and the error-function approximation. */
  datatype MathLib = MathLib(
    exp: Num -> Num,
    log: Num -> Num,
    pow: (Num, Num) -> Num,
    sqrt: Num -> Num,
    pi: Num,
    erf: Num -> Num)

  lemma LtIsStrictLe(a: Num, b: Num)
    ensures Lt(a, b) <==> Le(a, b) && !StrictEq(a, b)
  {
  }

  /** Comparisons on finite values are the real comparisons. */
  lemma FiniteComparisons(x: real, y: real)
    ensures Lt(Fin(x), Fin(y)) <==> x < y
    ensures Le(Fin(x), Fin(y)) <==> x <= y
    ensures StrictEq(Fin(x), Fin(y)) <==> x == y
  {
  }
}
