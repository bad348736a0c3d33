/** `float(f'{x:.6f}')`: rounding an amount to six decimal places. */
module Numeric {

  const Scale: real := 1000000.0

  /** Rounds half up to a multiple of 1/1000000.  Amounts are modelled as
      reals, so this is the rounding of the exact value; the binary
      floating-point representation and Python's half-even tie breaking are
      not part of the model. */
  function Round6(x: real): (r: real)
    ensures -1.0 / (2.0 * Scale) < r - x <= 1.0 / (2.0 * Scale)
    ensures (r * Scale).Floor as real == r * Scale
  {
    var n := (x * Scale + 0.5).Floor;
    assert n as real <= x * Scale + 0.5 < n as real + 1.0;
    n as real / Scale
  }

  /** Rounding an already rounded amount changes nothing. */
  lemma Round6Idempotent(x: real)
    ensures Round6(Round6(x)) == Round6(x)
  {
    var r := Round6(x);
    var n := (r * Scale).Floor;
    assert r * Scale == n as real;
    assert (r * Scale + 0.5).Floor == n;
    assert r == n as real / Scale;
  }

  /** Whole numbers are left alone. */
  lemma Round6Integer(i: int)
    ensures Round6(i as real) == i as real
  {
    assert (i as real * Scale + 0.5).Floor == i * 1000000;
  }
}
