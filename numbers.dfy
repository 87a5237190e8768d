/** JavaScript's Math.ceil / Math.round, taken over exact reals. */
module Numbers {
  import opened Wrappers

  /** `parseFloat(text) || fallback`: an unparseable input (None, standing for NaN) and zero both give the
      fallback. */
  function NumberOr(parsed: Option<real>, fallback: real): (r: real)
    ensures parsed.Some? && parsed.value != 0.0 ==> r == parsed.value
    ensures parsed.None? || parsed.value == 0.0 ==> r == fallback
    ensures fallback != 0.0 ==> r != 0.0
  {
    match parsed
    case Some(v) => if v != 0.0 then v else fallback
    case None => fallback
  }

  /** Math.ceil */
  function Ceil(x: real): (r: int)
    ensures x <= r as real < x + 1.0
  {
    -((-x).Floor)
  }

  /** The rounded quotient stays within bounds the quotient itself keeps. */
  lemma RoundDivBounds(n: int, d: int, lo: int, hi: int)
    requires d > 0 && lo * d <= n <= hi * d
    ensures lo <= RoundDiv(n, d) <= hi
  {
    var q := n as real / d as real;
    assert q * d as real == n as real;
    QuotientBounds(q, d as real, lo as real, hi as real);
  }

  lemma QuotientBounds(q: real, d: real, lo: real, hi: real)
    requires d > 0.0 && lo * d <= q * d <= hi * d
    ensures lo <= q <= hi
  {
  }

  /** Math.round: the nearest integer, halves rounded towards +infinity. */
  function JsRound(x: real): (r: int)
    ensures x - 0.5 < r as real <= x + 0.5
  {
    (x + 0.5).Floor
  }

  /** Math.ceil(x * 100) / 100: x rounded up to the hundredth. */
  function CeilHundredth(x: real): (r: real)
    ensures x <= r < x + 0.01
    ensures (r * 100.0).Floor as real == r * 100.0
  {
    var n := Ceil(x * 100.0);
    assert (n as real / 100.0) * 100.0 == n as real;
    n as real / 100.0
  }

  /** Math.round(n / d) for integers, d > 0, in integer arithmetic. */
  function RoundDiv(n: int, d: int): (r: int)
    requires d > 0
    ensures r == JsRound(n as real / d as real)
  {
    var a, b := 2 * n + d, 2 * d;
    DivIsFloor(a, b);
    HalfShift(n as real, d as real);
    a / b
  }

  lemma HalfShift(x: real, y: real)
    requires y > 0.0
    ensures (2.0 * x + y) / (2.0 * y) == x / y + 0.5
  {
    var z := x / y;
    assert z * y == x;
    assert (z + 0.5) * (2.0 * y) == 2.0 * x + y;
    QuotientOfProduct(2.0 * x + y, 2.0 * y, z + 0.5);
  }

  lemma QuotientOfProduct(p: real, q: real, w: real)
    requires q != 0.0 && w * q == p
    ensures p / q == w
  {
  }

  /** Integer division by a positive divisor is the floor of the real quotient. */
  lemma DivIsFloor(a: int, b: int)
    requires b > 0
    ensures a / b == (a as real / b as real).Floor
  {
    var q, m := a / b, a % b;
    assert a == q * b + m && 0 <= m < b;
    assert a as real / b as real == q as real + m as real / b as real;
    assert 0.0 <= m as real / b as real < 1.0;
  }
}
