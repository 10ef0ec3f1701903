/** Fixed-point currency conversion with banker's rounding. */
module Fx {
  import opened Int64

  const RATE_SCALE: int64 := 1_000_000

  function Abs(x: int): nat {
    if x < 0 then -x else x
  }

  /** q is n/d rounded to the nearest integer, ties to even. */
  predicate NearestEven(q: int, n: int, d: int)
    requires d != 0
  {
    && 2 * Abs(q * d - n) <= Abs(d)
    && (2 * Abs(q * d - n) == Abs(d) ==> q % 2 == 0)
  }

  lemma NearestUnique(q: int, p: int, n: int, d: int)
    requires d != 0 && NearestEven(q, n, d) && NearestEven(p, n, d)
    ensures q == p
  {
    var b := Abs(d);
    Distance(q, p, d, n);
    if 2 <= Abs(q - p) {
      ScaleUp(2, Abs(q - p), b);
    }
    if Abs(q - p) == 1 {
      assert 2 * Abs(q * d - n) == b && 2 * Abs(p * d - n) == b;
    }
  }

  lemma Distance(q: int, p: int, d: int, n: int)
    ensures Abs(q - p) * Abs(d) <= Abs(q * d - n) + Abs(p * d - n)
  {
    AbsProduct(q - p, d);
    assert (q - p) * d == (q * d - n) - (p * d - n);
  }

  lemma AbsProduct(x: int, y: int)
    ensures Abs(x) * Abs(y) == Abs(x * y)
  {
    if x < 0 && y < 0 {
      assert (-x) * (-y) == x * y;
    } else if x < 0 {
      assert (-x) * y == -(x * y);
      SignOfProduct(-x, y);
    } else if y < 0 {
      assert x * (-y) == -(x * y);
      SignOfProduct(x, -y);
    } else {
      SignOfProduct(x, y);
    }
    if x < 0 && y < 0 {
      SignOfProduct(-x, -y);
    }
  }

  lemma SignOfProduct(x: int, y: int)
    requires 0 <= x && 0 <= y
    ensures 0 <= x * y
  {
  }

  lemma ScaleUp(x: int, y: int, k: int)
    requires x <= y && 0 <= k
    ensures x * k <= y * k
  {
  }

  /** The reference rounding: the floor of n/d, or its successor, whichever is nearer. */
  function Nearest(n: int, d: int): (q: int)
    requires d != 0
  {
    var m := if d < 0 then -n else n;
    var b := Abs(d);
    var f, r := m / b, m % b;
    if 2 * r < b || (2 * r == b && f % 2 == 0) then f else f + 1
  }

  lemma NearestIs(n: int, d: int)
    requires d != 0
    ensures NearestEven(Nearest(n, d), n, d)
  {
    var m := if d < 0 then -n else n;
    var b := Abs(d);
    FloorParts(m, b);
    UpOrDown(Nearest(n, d), m, b, m / b, m % b);
    Negations(Nearest(n, d), d);
  }

  lemma FloorParts(m: int, b: int)
    requires 0 < b
    ensures m == (m / b) * b + m % b && 0 <= m % b < b
  {
  }

  /** v * num / den over unbounded integers; None is a zero denominator or a result outside 64 bits. */
  function MulDiv(v: int64, num: int64, den: int64): Option<int64> {
    if den == 0 then None
    else
      var q := Nearest(v * num, den);
      if Fits(q) then Some(q) else None
  }

  lemma MulDivExact(v: int64, num: int64, den: int64)
    ensures MulDiv(v, num, den).Some? <==> den != 0 && exists q: int64 :: NearestEven(q, v * num, den)
    ensures MulDiv(v, num, den).Some? ==> NearestEven(MulDiv(v, num, den).value, v * num, den)
  {
    if den != 0 {
      NearestIs(v * num, den);
      if q: int64 :| NearestEven(q, v * num, den) {
        NearestUnique(q, Nearest(v * num, den), v * num, den);
      }
    }
  }

  /** Quotient truncated toward zero, as big.Int.QuoRem gives it. */
  function Quo(n: int, d: int): int
    requires d != 0
  {
    var q := Abs(n) / Abs(d);
    if (n < 0) != (d < 0) then -q else q
  }

  lemma QuoParts(n: int, d: int)
    requires d != 0
    ensures Abs(n - Quo(n, d) * d) == Abs(n) % Abs(d)
    ensures Abs(Quo(n, d)) == Abs(n) / Abs(d)
  {
    DivMod(Abs(n), Abs(d));
    SignedRemainder(n, d, Abs(n) / Abs(d), Abs(n) % Abs(d));
  }

  lemma DivMod(a: nat, b: int)
    requires 0 < b
    ensures a == (a / b) * b + a % b && 0 <= a / b && 0 <= a % b < b
  {
  }

  lemma SignedRemainder(n: int, d: int, q: int, r: int)
    requires d != 0 && 0 <= q && 0 <= r && Abs(n) == q * Abs(d) + r
    ensures Abs(n - (if (n < 0) != (d < 0) then -q else q) * d) == r
  {
    Negations(q, d);
  }

  /** The sign rule of the division lifts a rounding of the magnitudes. */
  lemma SignedNearest(m: int, n: int, d: int)
    requires 0 <= m && d != 0 && NearestEven(m, Abs(n), Abs(d))
    ensures NearestEven(if (n < 0) != (d < 0) then -m else m, n, d)
  {
    Negations(m, d);
  }

  lemma Negations(m: int, d: int)
    ensures (-m) * d == -(m * d) && m * (-d) == -(m * d)
  {
  }

  /** Truncate, then move away from zero when more than half is left, or exactly half and the
      quotient is odd. */
  method RoundQuotient(n: int, d: int) returns (q: int)
    requires d != 0
    ensures q == Nearest(n, d)
    ensures NearestEven(q, n, d)
  {
    q := Quo(n, d);
    var rem := n - q * d;
    QuoParts(n, d);
    if rem != 0 {
      var twice := 2 * Abs(rem);
      var roundAway := twice > Abs(d) || (twice == Abs(d) && q % 2 == 1);
      if roundAway {
        if (n < 0) != (d < 0) {
          q := q - 1;
        } else {
          q := q + 1;
        }
      }
    }
    RoundedMagnitude(n, d, Abs(q));
    NearestIs(n, d);
    NearestUnique(q, Nearest(n, d), n, d);
  }

  method MulDivHalfEven(v: int64, num: int64, den: int64) returns (r: Option<int64>)
    ensures r == MulDiv(v, num, den)
    ensures r.Some? ==> NearestEven(r.value, v * num, den)
  {
    if den == 0 {
      return None;
    }
    var q := RoundQuotient(v * num, den);
    if !Fits(q) {
      return None;
    }
    return Some(q);
  }

  lemma UpOrDown(m: int, a: int, b: int, f: int, r: int)
    requires 0 < b && a == f * b + r && 0 <= r < b
    requires m == if 2 * r > b || (2 * r == b && f % 2 == 1) then f + 1 else f
    ensures NearestEven(m, a, b)
  {
    assert (f + 1) * b == f * b + b;
  }

  lemma RoundedMagnitude(n: int, d: int, m: int)
    requires d != 0
    requires var f, r := Abs(n) / Abs(d), Abs(n) % Abs(d);
             m == if 2 * r > Abs(d) || (2 * r == Abs(d) && f % 2 == 1) then f + 1 else f
    ensures NearestEven(if (n < 0) != (d < 0) then -m else m, n, d)
  {
    var a, b := Abs(n), Abs(d);
    DivMod(a, b);
    UpOrDown(m, a, b, a / b, a % b);
    SignedNearest(m, n, d);
  }

  // ---------------------------------------------------------------- conversion

  /** From the base currency of the pair. */
  function Convert(value: int64, rateMicros: int64): Option<int64> {
    MulDiv(value, rateMicros, RATE_SCALE)
  }

  /** To the base currency of the pair. */
  function ConvertInverse(value: int64, rateMicros: int64): Option<int64> {
    if rateMicros == 0 then None else MulDiv(value, RATE_SCALE, rateMicros)
  }

  /** A rate is in millionths: converting multiplies by rate / 1000000, converting back divides by it,
      each rounded to the nearest unit with ties to even, or nothing if that leaves 64 bits. */
  lemma ConvertExact(v: int64, rate: int64)
    ensures Convert(v, rate).Some? <==> exists q: int64 :: NearestEven(q, v * rate, 1_000_000)
    ensures Convert(v, rate).Some? ==> NearestEven(Convert(v, rate).value, v * rate, 1_000_000)
    ensures ConvertInverse(v, rate).Some? <==> rate != 0 && exists q: int64 :: NearestEven(q, v * 1_000_000, rate)
    ensures ConvertInverse(v, rate).Some? ==> NearestEven(ConvertInverse(v, rate).value, v * 1_000_000, rate)
  {
    MulDivExact(v, rate, 1_000_000);
    MulDivExact(v, 1_000_000, rate);
  }

  /** A dollar at 450 tenge, and back. */
  lemma DollarAtPar()
    ensures Convert(100, 450_000_000) == Some(45_000) && ConvertInverse(45_000, 450_000_000) == Some(100)
  {
  }

  lemma NearExact(q: int, v: int, d: int)
    requires 0 < d && 2 * Abs(q * d - v * d) <= d
    ensures q == v
  {
    if v < q {
      NextMultiple(v, q, d);
    } else if q < v {
      NextMultiple(q, v, d);
    }
  }

  /** At rates of at least one, converting back at the same rate restores the amount exactly. */
  lemma RoundTrip(v: int64, rate: int64)
    requires 1_000_000 <= rate
    requires Convert(v, rate).Some?
    ensures ConvertInverse(Convert(v, rate).value, rate) == Some(v)
  {
    var k := Convert(v, rate).value;
    MulDivExact(v, rate, RATE_SCALE);
    assert 2 * Abs(k * RATE_SCALE - v * rate) <= RATE_SCALE;
    if 2 * Abs(v * rate - k * RATE_SCALE) == rate {
      NearExact(k, v, RATE_SCALE);
    }
    assert NearestEven(v, k * RATE_SCALE, rate);
    NearestIs(k * RATE_SCALE, rate);
    NearestUnique(v, Nearest(k * RATE_SCALE, rate), k * RATE_SCALE, rate);
  }

  lemma GrowLeft(v: int, x: int, y: int)
    requires 0 <= v && x <= y
    ensures v * x <= v * y
  {
  }

  lemma NextMultiple(v: int, m: int, s: int)
    requires v < m && 0 <= s
    ensures v * s + s <= m * s
  {
    assert v * s + s == (v + 1) * s;
    ScaleUp(v + 1, m, s);
  }

  lemma NoGain(v: int, k: int, m: int, b: int, s: int, S: int)
    requires 0 <= v && 0 < S <= b <= s
    requires 2 * Abs(k * S - v * b) <= S && 2 * Abs(m * s - k * S) <= s
    ensures m <= v
  {
    if v < m {
      GrowLeft(v, b, s);
      NextMultiple(v, m, s);
      GainNeedsPar(k * S, v * b, v * s, m * s, s, S);
      NearExact(k, v, S);
      NearExact(m, v, S);
    }
  }

  /** Selling dollars at the buy rate and buying them back at a sell rate no lower never gains. */
  lemma NoRoundTripGain(v: int64, buy: int64, sell: int64)
    requires 0 <= v && 1_000_000 <= buy <= sell
    requires Convert(v, buy).Some? && ConvertInverse(Convert(v, buy).value, sell).Some?
    ensures ConvertInverse(Convert(v, buy).value, sell).value <= v
  {
    var k := Convert(v, buy).value;
    MulDivExact(v, buy, RATE_SCALE);
    MulDivExact(k, RATE_SCALE, sell);
    NoGain(v, k, ConvertInverse(k, sell).value, buy, sell, RATE_SCALE);
  }

  /** With the products as plain numbers: gaining a unit forces the sell rate down to the scale. */
  lemma GainNeedsPar(kS: int, vb: int, vs: int, ms: int, s: int, S: int)
    requires 2 * Abs(kS - vb) <= S && 2 * Abs(ms - kS) <= s && vb <= vs && vs + s <= ms && S <= s
    ensures s == S
  {
  }
}
