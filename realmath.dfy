/** The JavaScript number operations the pace computation uses, on exact reals:
    Math.floor, Math.round (halves round up) and the remainder operator `%`
    for a non-negative dividend and a positive divisor. */
module RealMath {

  /** Math.floor: the largest integer not above `x`. */
  function Floor(x: real): (r: int)
    ensures r as real <= x < r as real + 1.0
  {
    x.Floor
  }

  /** Math.round: the nearest integer, with halves going up (towards +infinity). */
  function Round(x: real): (r: int)
    ensures x - 0.5 < r as real <= x + 0.5
  {
    Floor(x + 0.5)
  }

  /** The integer nearest to `x` (halves up) is the only one in (x - 1/2, x + 1/2]. */
  lemma RoundUnique(x: real, n: int)
    requires x - 0.5 < n as real <= x + 0.5
    ensures Round(x) == n
  {
  }

  /** Multiplying out a bound on a quotient. */
  lemma DivBounds(x: real, m: real, c: real)
    requires m > 0.0
    ensures x / m < c ==> x < c * m
    ensures c <= x / m ==> c * m <= x
  {
  }

  /** x % m in JavaScript, for x >= 0 and m > 0: what remains after taking out
      whole multiples of m. */
  function Remainder(x: real, m: real): (r: real)
    requires x >= 0.0 && m > 0.0
    ensures 0.0 <= r < m
    ensures ((x - r) / m).Floor as real == (x - r) / m
  {
    var qr := Floor(x / m) as real;
    DivBounds(x, m, qr);
    DivBounds(x, m, qr + 1.0);
    assert x - qr * m < m;
    assert (m * qr) / m == qr;
    x - m * qr
  }
}
