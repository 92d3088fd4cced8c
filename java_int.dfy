/**
 * Java `int` arithmetic: results wrap modulo 2^32 into [-2^31, 2^31), and
 * integer division truncates toward zero.
 */
module JavaInt {

  const MinInt: int := -0x8000_0000
  const MaxInt: int := 0x7fff_ffff

  predicate IsInt(x: int) {
    MinInt <= x <= MaxInt
  }

  /** The `int` that a mathematical result wraps to. */
  function Wrap(x: int): (r: int)
    ensures IsInt(r)
    ensures (r - x) % 0x1_0000_0000 == 0
    ensures IsInt(x) ==> r == x
  {
    (x - MinInt) % 0x1_0000_0000 + MinInt
  }

  /** Unary minus on `int`: the negation of MinInt is MinInt itself. */
  function Neg(x: int): (r: int)
    requires IsInt(x)
    ensures IsInt(r)
    ensures x != MinInt ==> r == -x
    ensures x == MinInt ==> r == MinInt
  {
    Wrap(-x)
  }

  /** `a / 100` on `int`: the quotient truncated toward zero (the only division the loan service does). */
  function Div100(a: int): (q: int)
    ensures a >= 0 ==> 0 <= 100 * q <= a < 100 * q + 100
    ensures a < 0 ==> a <= 100 * q <= 0 && 100 * q < a + 100
  {
    if a >= 0 then a / 100 else -((-a) / 100)
  }

  /** Truncating division is odd in its dividend, unlike Euclidean division. */
  lemma Div100Negate(a: int)
    ensures Div100(-a) == -Div100(a)
  {
  }

  /** Truncation and floor agree on non-negative dividends and differ on inexact negative ones. */
  lemma Div100VersusFloor(a: int)
    ensures a >= 0 ==> Div100(a) == a / 100
    ensures a < 0 && a % 100 != 0 ==> Div100(a) == a / 100 + 1
  {
  }
}
