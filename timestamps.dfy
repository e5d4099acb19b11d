/**
 * Time bases and the exact comparison of timestamps expressed in different
 * time bases (the behaviour of av_compare_ts as the muxer uses it).
 */
module Timestamps {

  /** A time base num/den: one tick lasts num/den seconds. */
  datatype Rational = Rational(num: int, den: int)

  /** Every time base the muxer builds has a positive numerator and denominator. */
  predicate Positive(tb: Rational)
  {
    tb.num > 0 && tb.den > 0
  }

  /** The number of seconds that ts ticks of tb stand for: the meaning of a timestamp. */
  function Seconds(ts: int, tb: Rational): real
    requires tb.den > 0
  {
    (ts * tb.num) as real / tb.den as real
  }

  /** x/dx compared with y/dy is x*dy compared with y*dx when both denominators are positive. */
  lemma CrossMultiply(x: int, dx: int, y: int, dy: int)
    requires dx > 0 && dy > 0
    ensures (x as real / dx as real < y as real / dy as real) <==> x * dy < y * dx
    ensures (x as real / dx as real == y as real / dy as real) <==> x * dy == y * dx
  {
    var p, q := x as real / dx as real, y as real / dy as real;
    var d := (dx * dy) as real;
    assert d > 0.0;
    assert p * d == (x * dy) as real by {
      assert p * dx as real == x as real;
      assert d == dx as real * dy as real;
    }
    assert q * d == (y * dx) as real by {
      assert q * dy as real == y as real;
      assert d == dx as real * dy as real;
    }
    assert p < q <==> p * d < q * d;
    assert p == q <==> p * d == q * d;
  }

  /**
   * Sign of tsA*tbA - tsB*tbB, computed by cross-multiplication over unbounded
   * integers: -1 when the first timestamp is earlier, 0 when both denote the
   * same instant, 1 when it is later.
   */
  function CompareTs(tsA: int, tbA: Rational, tsB: int, tbB: Rational): (r: int)
    ensures r == -1 || r == 0 || r == 1
    ensures tbA.den > 0 && tbB.den > 0 ==>
      && (r < 0 <==> Seconds(tsA, tbA) < Seconds(tsB, tbB))
      && (r == 0 <==> Seconds(tsA, tbA) == Seconds(tsB, tbB))
      && (r > 0 <==> Seconds(tsA, tbA) > Seconds(tsB, tbB))
  {
    var a := tsA * tbA.num * tbB.den;
    var b := tsB * tbB.num * tbA.den;
    var sign := if a > b then 1 else if a < b then -1 else 0;
    if tbA.den > 0 && tbB.den > 0 then
      CrossMultiply(tsA * tbA.num, tbA.den, tsB * tbB.num, tbB.den);
      sign
    else
      sign
  }

  /** With a non-negative tick length, a later tick count never denotes an earlier instant. */
  lemma SecondsMonotone(p: int, q: int, tb: Rational)
    requires p <= q && tb.num >= 0 && tb.den > 0
    ensures Seconds(p, tb) <= Seconds(q, tb)
  {
    assert p * tb.num <= q * tb.num by {
      assert (q - p) * tb.num >= 0;
    }
    CrossMultiply(q * tb.num, tb.den, p * tb.num, tb.den);
  }

  /** A timestamp is within a whole number of seconds exactly when its cross product is. */
  lemma SecondsAtMost(ts: int, tb: Rational, limit: int)
    requires tb.den > 0
    ensures Seconds(ts, tb) <= limit as real <==> ts * tb.num <= limit * tb.den
  {
    CrossMultiply(limit, 1, ts * tb.num, tb.den);
    assert limit as real / 1 as real == limit as real;
  }
}
