/** Integer models of the Arduino core routines and the C conversions the firmware relies on:
    unsigned 32-bit time differences, C division, `map`, `constrain`, `round`, and the
    float-to-int casts of the retrigger multiplier. */
module ArduinoMath {

  /** Number of values of a 32-bit `unsigned long`, the type of `millis()`. */
  const TimeModulus: int := 0x1_0000_0000

  /** A `millis()` timestamp. */
  type Time = t: int | 0 <= t < 0x1_0000_0000

  /** A 10-bit `analogRead` result. */
  type Reading = r: int | 0 <= r <= 1023

  /** The two values `digitalRead` returns. */
  datatype Level = Low | High

  function Abs(x: int): nat { if x < 0 then -x else x }

  /** The `max` macro of the Arduino core. */
  function Max(a: int, b: int): int { if a > b then a else b }

  /** The `min` macro of the Arduino core. */
  function Min(a: int, b: int): int { if a < b then a else b }

  /** `now - since` evaluated on `unsigned long`: the number of milliseconds that, added to
      `since`, wraps around to `now`. */
  function Elapsed(now: Time, since: Time): (d: Time)
    ensures (since + d) % TimeModulus == now
    ensures since <= now ==> d == now - since
    ensures now < since ==> d == now - since + TimeModulus
  {
    (now - since) % TimeModulus
  }

  /** C's integer `/` by a positive divisor: the quotient truncated toward zero (section 6.5.5
      of ISO C99), so the remainder has the sign of the dividend. Dafny's own `/` rounds toward
      minus infinity instead, which differs for a negative dividend. */
  function TruncDiv(a: int, b: int): (q: int)
    requires b > 0
    ensures a >= 0 ==> q * b <= a < q * b + b
    ensures a < 0 ==> q * b - b < a <= q * b
  {
    if a >= 0 then a / b else -((-a) / b)
  }

  /** x * c <= y * c for x <= y and c >= 0. */
  lemma MulMonotone(x: int, y: int, c: nat)
    requires x <= y
    ensures x * c <= y * c
  {
    var e := y - x;
    assert y * c == x * c + e * c;
  }

  /** Euclidean division of naturals by a positive divisor is monotone in the dividend. */
  lemma DivMonotone(x: nat, y: nat, d: nat)
    requires d > 0 && x <= y
    ensures x / d <= y / d
  {
    if x / d > y / d {
      MulMonotone(y / d + 1, x / d, d);
    }
  }

  /** Truncated division by a positive divisor is monotone in the dividend. */
  lemma {:induction false} TruncDivMonotone(a1: int, a2: int, b: int)
    requires b > 0 && a1 <= a2
    ensures TruncDiv(a1, b) <= TruncDiv(a2, b)
  {
    if a1 >= 0 {
      DivMonotone(a1, a2, b);
    } else if a2 < 0 {
      DivMonotone(-a2, -a1, b);
    } else {
      DivMonotone(0, -a1, b);
      DivMonotone(0, a2, b);
    }
  }

  /** `TruncDiv(k * b, b) == k`: an exact multiple divides without rounding. */
  lemma {:induction false} TruncDivExact(k: int, b: int)
    requires b > 0
    ensures TruncDiv(k * b, b) == k
  {
    var q := TruncDiv(k * b, b);
    if q < k {
      MulMonotone(q + 1, k, b);
    } else if q > k {
      MulMonotone(k + 1, q, b);
    }
  }

  /** Arduino's `map(x, inMin, inMax, outMin, outMax)` for an increasing input range, the only
      form the firmware uses: `(x - inMin) * (outMax - outMin) / (inMax - inMin) + outMin` in
      `long` arithmetic, with C's truncating division. */
  function Map(x: int, inMin: int, inMax: int, outMin: int, outMax: int): (r: int)
    requires inMin < inMax
    ensures x == inMin ==> r == outMin
    ensures x == inMax ==> r == outMax
  {
    var r := TruncDiv((x - inMin) * (outMax - outMin), inMax - inMin) + outMin;
    MapEndpoints(x, inMin, inMax, outMin, outMax);
    r
  }

  lemma MapEndpoints(x: int, inMin: int, inMax: int, outMin: int, outMax: int)
    requires inMin < inMax
    ensures x == inMin ==> TruncDiv((x - inMin) * (outMax - outMin), inMax - inMin) == 0
    ensures x == inMax ==> TruncDiv((x - inMin) * (outMax - outMin), inMax - inMin) == outMax - outMin
  {
    var k, b := outMax - outMin, inMax - inMin;
    if x == inMax {
      assert (x - inMin) * k == k * b;
      TruncDivExact(k, b);
    } else if x == inMin {
      assert (x - inMin) * k == 0 * b;
      TruncDivExact(0, b);
    }
  }

  /** Arduino's `constrain(x, lo, hi)`. */
  function Constrain(x: int, lo: int, hi: int): (r: int)
    requires lo <= hi
    ensures lo <= r <= hi
    ensures lo <= x <= hi ==> r == x
    ensures x < lo ==> r == lo
    ensures x > hi ==> r == hi
  {
    if x < lo then lo else if x > hi then hi else x
  }

  /** `round(x * gain)` for a reading x >= 0 and a gain given in tenths (12 stands for 1.2).
      The Arduino `round` macro adds 0.5 and truncates when its argument is non-negative, so the
      result is the integer nearest to x * gain / 10, halves rounded up. */
  function RoundTenths(x: nat, gainTenths: nat): (r: nat)
    ensures 10 * r <= x * gainTenths + 5 < 10 * r + 10
  {
    (x * gainTenths + 5) / 10
  }

  /** `(int)(t * 1.5)` for t >= 0: the cast truncates, which for a non-negative product is the
      floor of one and a half times t. */
  function OneAndHalf(t: nat): (r: nat)
    ensures 2 * r <= 3 * t < 2 * r + 2
  {
    t * 3 / 2
  }
}
