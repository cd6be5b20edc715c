/**
 * Values shared by the trading bot's modules: optional values, results with
 * an error, Python floats that may be NaN, the trade signal, and Python's
 * `round(x, 4)` on exact reals.
 */
module Common {

  datatype Option<+T> = None | Some(value: T)

  datatype Result<+T, +E> = Ok(value: T) | Err(error: E)

  /** A Python float as the indicator library produces it: a number or NaN. */
  datatype Float = NaN | Real(v: real)

  /** The three verdicts of the signal engine; only BUY and SELL are traded. */
  datatype Signal = BUY | SELL | HOLD

  // Python's comparison operators on floats: every comparison with NaN is false.
  predicate Gt(a: Float, b: Float) { a.Real? && b.Real? && a.v > b.v }
  predicate Lt(a: Float, b: Float) { a.Real? && b.Real? && a.v < b.v }
  predicate Ge(a: Float, b: Float) { a.Real? && b.Real? && a.v >= b.v }
  predicate Le(a: Float, b: Float) { a.Real? && b.Real? && a.v <= b.v }

  function Abs(x: real): real { if x < 0.0 then -x else x }

  /** True when `x` has at most four decimals. */
  predicate OnGrid(x: real) { (x * 10000.0).Floor as real == x * 10000.0 }

  /**
   * Python's `round(x, 4)`: the nearest multiple of 0.0001, a tie going to
   * the even multiple.
   */
  function Round4(x: real): (r: real)
    ensures OnGrid(r)
    ensures -0.00005 <= r - x <= 0.00005
    ensures r - x == 0.00005 || x - r == 0.00005 ==> (r * 10000.0).Floor % 2 == 0
  {
    var y := x * 10000.0;
    var f := y.Floor;
    var d := y - f as real;
    var n := if d < 0.5 then f else if d > 0.5 then f + 1 else if f % 2 == 0 then f else f + 1;
    n as real / 10000.0
  }

  /** Rounding never reverses the order of two values. */
  lemma Round4Monotone(x: real, y: real)
    requires x <= y
    ensures Round4(x) <= Round4(y)
  {
    var fx, fy := (x * 10000.0).Floor, (y * 10000.0).Floor;
    if fx == fy {
      assert x * 10000.0 - fx as real <= y * 10000.0 - fy as real;
    } else {
      assert fx < fy;
    }
  }

  /** A value that already has four decimals is left as it is. */
  lemma Round4OnGrid(x: real)
    requires OnGrid(x)
    ensures Round4(x) == x
  {
    var f := (x * 10000.0).Floor;
    assert x * 10000.0 - f as real == 0.0;
  }
}
