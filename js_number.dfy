/** JavaScript numbers where the source relies on their IEEE special values:
    the infinities that seed a min/max scan, and NaN, which is what `parseFloat`
    yields on bad text and what arithmetic on `undefined` (a read past the end
    of an array) yields. Finite values are exact reals; signed zero and
    rounding are not modelled. */
module JsNumber {

  datatype Number = Fin(r: real) | PosInf | NegInf | NaN

  /** -1, 0 or 1 for a number that is not NaN. */
  function Sign(a: Number): int
  {
    match a
    case Fin(x) => if x < 0.0 then -1 else if x == 0.0 then 0 else 1
    case PosInf => 1
    case NegInf => -1
    case NaN => 0
  }

  function Neg(a: Number): Number
  {
    match a
    case Fin(x) => Fin(-x)
    case PosInf => NegInf
    case NegInf => PosInf
    case NaN => NaN
  }

  function Add(a: Number, b: Number): Number
  {
    match (a, b)
    case (NaN, _) => NaN
    case (_, NaN) => NaN
    case (PosInf, NegInf) => NaN
    case (NegInf, PosInf) => NaN
    case (PosInf, _) => PosInf
    case (_, PosInf) => PosInf
    case (NegInf, _) => NegInf
    case (_, NegInf) => NegInf
    case (Fin(x), Fin(y)) => Fin(x + y)
  }

  function Sub(a: Number, b: Number): Number
  {
    Add(a, Neg(b))
  }

  function Mul(a: Number, b: Number): Number
  {
    if a.NaN? || b.NaN? then NaN
    else if a.Fin? && b.Fin? then Fin(a.r * b.r)
    else if Sign(a) * Sign(b) == 0 then NaN
    else if Sign(a) * Sign(b) > 0 then PosInf
    else NegInf
  }

  function Div(a: Number, b: Number): Number
  {
    if a.NaN? || b.NaN? then NaN
    else if b.Fin? && b.r != 0.0 then
      (if a.Fin? then Fin(a.r / b.r) else if Sign(a) * Sign(b) > 0 then PosInf else NegInf)
    else if b.Fin? then
      (if Sign(a) == 0 then NaN else if Sign(a) > 0 then PosInf else NegInf)
    else if a.Fin? then Fin(0.0)
    else NaN
  }

  function Abs(a: Number): Number
  {
    match a
    case Fin(x) => Fin(if x < 0.0 then -x else x)
    case NegInf => PosInf
    case _ => a
  }

  /** `a < b`; every comparison with NaN is false. */
  predicate Less(a: Number, b: Number)
  {
    match (a, b)
    case (NaN, _) => false
    case (_, NaN) => false
    case (Fin(x), Fin(y)) => x < y
    case (NegInf, _) => !b.NegInf?
    case (_, PosInf) => !a.PosInf?
    case _ => false
  }

  /** `a === b`: NaN equals nothing, not even itself. */
  predicate StrictEq(a: Number, b: Number)
  {
    !a.NaN? && a == b
  }

  /** `Math.sqrt`, with the root of a non-negative finite value left to the
      uninterpreted `sqrt`. */
  function Sqrt(a: Number, sqrt: real -> real): Number
  {
    match a
    case Fin(x) => if x < 0.0 then NaN else Fin(sqrt(x))
    case PosInf => PosInf
    case _ => NaN
  }

  /** `s[idx]` for a JavaScript array of numbers: the element when `idx` is an
      integral in-range index, otherwise `undefined`, which behaves as NaN. */
  function Get(s: seq<Number>, idx: Number): Number
  {
    if idx.Fin? && idx.r == idx.r.Floor as real && 0 <= idx.r.Floor < |s| then s[idx.r.Floor] else NaN
  }

  /** `a[i] = v` on a JavaScript array: writing past the end lengthens the
      array and leaves holes, which read as `undefined` (NaN). */
  function SetAt(s: seq<Number>, i: nat, v: Number): (r: seq<Number>)
    ensures |r| == if i < |s| then |s| else i + 1
    ensures r[i] == v
    ensures forall k :: 0 <= k < |s| && k != i ==> r[k] == s[k]
    ensures forall k :: |s| <= k < i ==> r[k] == NaN
  {
    if i < |s| then s[i := v] else s + seq(i - |s|, _ => NaN) + [v]
  }
}
