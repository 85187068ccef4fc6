/** SunSpec value / scale-factor pairs: a raw register value v with scale
    factor sf stands for v * 10^sf, and the hubs publish it rounded to |sf|
    decimal places. Arithmetic here is exact (real), not floating point. */
module Scaling {

  /** What a snapshot key maps to: a raw value with the power of ten it is
      scaled by, kept exact as that pair, or a status code stored unscaled. */
  datatype Value = Scaled(raw: int, exponent: int) | Code(n: int)
  {
    /** The number the value stands for. */
    function Real(): real
    {
      match this
      case Scaled(raw, exponent) => raw as real * Pow10(exponent)
      case Code(n) => n as real
    }
  }

  function Abs(x: int): (r: nat)
    ensures r == x || r == -x
  {
    if x < 0 then -x else x
  }

  /** 10^n as an integer. */
  function IntPow10(n: nat): (r: nat)
    ensures r >= 1
  {
    if n == 0 then 1 else 10 * IntPow10(n - 1)
  }

  /** 10^e for any integer exponent e. */
  function Pow10(e: int): (r: real)
    ensures r > 0.0
    ensures e >= 0 ==> r == IntPow10(e) as real
  {
    if e >= 0 then IntPow10(e) as real else 1.0 / (IntPow10(-e) as real)
  }

  lemma Pow10Inverse(e: int)
    ensures Pow10(e) * Pow10(-e) == 1.0
  {
    if e < 0 {
      assert Pow10(-e) == IntPow10(-e) as real;
    } else if e > 0 {
      assert Pow10(-e) == 1.0 / (IntPow10(e) as real);
    }
  }

  /** The physical value of raw field `value` under scale factor `sf`.
      Undoing the scaling gives the raw value back, and a non-negative scale
      factor gives a whole number. */
  function CalculateValue(value: int, sf: int): (r: real)
    ensures r * Pow10(-sf) == value as real
    ensures sf >= 0 ==> r == (value * IntPow10(sf)) as real
  {
    Pow10Inverse(sf);
    value as real * Pow10(sf)
  }

  /** x has at most d digits after the decimal point. */
  predicate IsDecimal(x: real, d: nat)
  {
    (x * Pow10(d)).Floor as real == x * Pow10(d)
  }

  /** Nearest integer to y, ties to the even neighbour (Python's round). */
  function RoundHalfEven(y: real): (n: int)
    ensures n as real - 0.5 <= y <= n as real + 0.5
    ensures y.Floor as real == y ==> n == y.Floor
    ensures y - y.Floor as real == 0.5 ==> n % 2 == 0
  {
    var f := y.Floor;
    var frac := y - f as real;
    if frac < 0.5 then f
    else if frac > 0.5 then f + 1
    else if f % 2 == 0 then f
    else f + 1
  }

  /** A value that already has at most d decimals survives rounding to d
      decimals. */
  lemma RoundExact(x: real, d: nat)
    ensures IsDecimal(x, d) ==> RoundHalfEven(x * Pow10(d)) as real / Pow10(d) == x
  {
  }

  /** x has at most d decimals when x * 10^d is a whole number. */
  lemma WholeIsDecimal(x: real, d: nat, n: int)
    requires x * Pow10(d) == n as real
    ensures IsDecimal(x, d)
  {
    assert (n as real).Floor == n;
  }

  /** x rounded to d decimal places. The result has at most d decimals, is
      at most half a unit in the last place away from x, and is x itself
      when x already has at most d decimals. */
  function Round(x: real, d: nat): (r: real)
    ensures IsDecimal(r, d)
    ensures IsDecimal(x, d) ==> r == x
    ensures -0.5 <= (r - x) * Pow10(d) <= 0.5
  {
    RoundExact(x, d);
    var n := RoundHalfEven(x * Pow10(d));
    assert (n as real / Pow10(d)) * Pow10(d) == n as real;
    WholeIsDecimal(n as real / Pow10(d), d, n);
    n as real / Pow10(d)
  }

  /** A scaled register value never has more than |sf| decimals. */
  lemma ScaledIsDecimal(value: int, sf: int)
    ensures IsDecimal(CalculateValue(value, sf), Abs(sf))
  {
    var x := CalculateValue(value, sf);
    if sf >= 0 {
      assert x * Pow10(sf) == (value * IntPow10(sf) * IntPow10(sf)) as real;
      WholeIsDecimal(x, sf, value * IntPow10(sf) * IntPow10(sf));
    } else {
      WholeIsDecimal(x, -sf, value);
    }
  }

  /** round(calculate_value(value, sf), abs(sf)): in exact arithmetic the
      rounding is the identity. */
  function RoundedValue(value: int, sf: int): (r: real)
    ensures r == CalculateValue(value, sf)
  {
    ScaledIsDecimal(value, sf);
    Round(CalculateValue(value, sf), Abs(sf))
  }

  /** round(x * 0.001, 3): watt-hours to kilowatt-hours. For a whole number
      of watt-hours nothing is lost to the rounding. */
  function RoundedKilo(wh: real): (r: real)
    ensures wh.Floor as real == wh ==> r * 1000.0 == wh
  {
    assert wh.Floor as real == wh ==> IsDecimal(wh * 0.001, 3) by {
      if wh.Floor as real == wh {
        WholeIsDecimal(wh * 0.001, 3, wh.Floor);
      }
    }
    Round(wh * 0.001, 3)
  }

  /** 10^(n + 3) is 1000 times 10^n. */
  lemma {:induction false} Pow10Kilo(sf: nat)
    ensures Pow10(sf - 3) * 1000.0 == Pow10(sf)
  {
    if sf >= 3 {
      var n := IntPow10(sf - 3);
      assert IntPow10(sf - 2) == 10 * n;
      assert IntPow10(sf - 1) == 100 * n;
      assert IntPow10(sf) == 1000 * n;
      assert Pow10(sf - 3) == n as real;
    } else if sf == 0 {
      assert Pow10(-3) == 1.0 / 1000.0;
    } else if sf == 1 {
      assert Pow10(-2) == 1.0 / 100.0;
    } else {
      assert Pow10(-1) == 1.0 / 10.0;
    }
  }

  /** 2^n as an integer. */
  function IntPow2(n: nat): (r: nat)
    ensures r >= 1
  {
    if n == 0 then 1 else 2 * IntPow2(n - 1)
  }

  /** An IEEE 754 double has a 53-bit significand and is finite below
      2^1024. */
  const DoubleSignificandBits: nat := 53
  const DoubleExponentLimit: nat := 1024

  /** The largest unsigned scale factor for which every 32-bit counter times
      10^sf still converts, and the least for which every non-zero one fails. */
  const LargestFittingScale: nat := 298
  const LeastOverflowingScale: nat := 309

  /** The least integer that Python cannot convert to a double,
      2^1024 - 2^970. The largest finite double is 2^1024 - 2^971, and the
      midpoint 2^1024 - 2^970 already rounds (to even) up to 2^1024. */
  const FloatOverflowBound: int :=
    IntPow2(DoubleExponentLimit) - IntPow2(DoubleExponentLimit - DoubleSignificandBits - 1)

  /** Mixing the integer n into float arithmetic raises OverflowError. */
  predicate FloatOverflows(n: int)
  {
    Abs(n) >= FloatOverflowBound
  }

  lemma {:induction false} IntPow10Add(a: nat, b: nat)
    ensures IntPow10(a + b) == IntPow10(a) * IntPow10(b)
  {
    if a > 0 {
      IntPow10Add(a - 1, b);
      assert IntPow10(a + b) == 10 * IntPow10(a - 1 + b);
    }
  }

  lemma {:induction false} IntPow2Add(a: nat, b: nat)
    ensures IntPow2(a + b) == IntPow2(a) * IntPow2(b)
  {
    if a > 0 {
      IntPow2Add(a - 1, b);
      assert IntPow2(a + b) == 2 * IntPow2(a - 1 + b);
    }
  }

  lemma MulMono(a: nat, b: nat, c: nat, d: nat)
    requires a <= b && c <= d
    ensures a * c <= b * d
  {
    assert a * c <= b * c;
    assert b * c <= b * d;
  }

  /** The powers of ten the bounds below are assembled from. */
  lemma Pow10Values()
    ensures IntPow10(9) == 1000000000 && IntPow10(19) == 10000000000000000000
    ensures IntPow10(25) == 10000000000000000000000000
    ensures IntPow10(31) == 10000000000000000000000000000000
  {
    assert IntPow10(4) == 10000 && IntPow10(5) == 100000;
    IntPow10Add(5, 4);
    IntPow10Add(5, 5);
    assert IntPow10(10) == 10000000000;
    IntPow10Add(10, 9);
    IntPow10Add(10, 10);
    assert IntPow10(20) == 100000000000000000000;
    IntPow10Add(20, 5);
    IntPow10Add(25, 5);
    assert IntPow10(30) == 1000000000000000000000000000000;
    IntPow10Add(30, 1);
  }

  /** The powers of two the bounds below are assembled from. */
  lemma Pow2Values()
    ensures IntPow2(29) == 536870912 && IntPow2(64) == 18446744073709551616
    ensures IntPow2(83) == 9671406556917033397649408
    ensures IntPow2(103) == 10141204801825835211973625643008
  {
    assert IntPow2(3) == 8 && IntPow2(4) == 16 && IntPow2(5) == 32;
    IntPow2Add(5, 5);
    assert IntPow2(10) == 1024;
    IntPow2Add(10, 10);
    assert IntPow2(20) == 1048576;
    IntPow2Add(20, 5);
    IntPow2Add(25, 4);
    IntPow2Add(20, 20);
    assert IntPow2(40) == 1099511627776;
    IntPow2Add(40, 20);
    assert IntPow2(60) == 1152921504606846976;
    IntPow2Add(60, 4);
    IntPow2Add(40, 40);
    assert IntPow2(80) == 1208925819614629174706176;
    IntPow2Add(80, 3);
    IntPow2Add(80, 20);
    assert IntPow2(100) == 1267650600228229401496703205376;
    IntPow2Add(100, 3);
  }

  /** 10^31 <= 2^103 and 10^25 >= 2^83: the ratios the bounds are built from. */
  lemma BlockRatios()
    ensures IntPow10(31) <= IntPow2(103)
    ensures IntPow10(25) >= IntPow2(83)
  {
    Pow10Values();
    Pow2Values();
  }

  /** 10^19 <= 2^64, 10^9 >= 2^29 and 2^32, for the ends of the bounds. */
  lemma EdgeRatios()
    ensures IntPow10(19) <= IntPow2(64)
    ensures IntPow10(9) >= IntPow2(29)
    ensures IntPow2(32) == 0x1_0000_0000
  {
    Pow10Values();
    Pow2Values();
    IntPow2Add(29, 3);
    assert IntPow2(3) == 8;
  }

  /** 10^25 >= 2^83, raised to the power q. */
  lemma {:induction false} Pow10LowerBlocks(q: nat)
    ensures IntPow10(25 * q) >= IntPow2(83 * q)
  {
    if q > 0 {
      Pow10LowerBlocks(q - 1);
      LowerBlockStep(25 * (q - 1), 83 * (q - 1));
      assert 25 * (q - 1) + 25 == 25 * q;
      assert 83 * (q - 1) + 83 == 83 * q;
    }
  }

  lemma LowerBlockStep(n: nat, m: nat)
    requires IntPow10(n) >= IntPow2(m)
    ensures IntPow10(n + 25) >= IntPow2(m + 83)
  {
    BlockRatios();
    IntPow10Add(n, 25);
    IntPow2Add(m, 83);
    MulMono(IntPow2(m), IntPow10(n), IntPow2(83), IntPow10(25));
  }

  /** 10^31 <= 2^103, raised to the power q. */
  lemma {:induction false} Pow10UpperBlocks(q: nat)
    ensures IntPow10(31 * q) <= IntPow2(103 * q)
  {
    if q > 0 {
      Pow10UpperBlocks(q - 1);
      UpperBlockStep(31 * (q - 1), 103 * (q - 1));
      assert 31 * (q - 1) + 31 == 31 * q;
      assert 103 * (q - 1) + 103 == 103 * q;
    }
  }

  lemma UpperBlockStep(n: nat, m: nat)
    requires IntPow10(n) <= IntPow2(m)
    ensures IntPow10(n + 31) <= IntPow2(m + 103)
  {
    BlockRatios();
    IntPow10Add(n, 31);
    IntPow2Add(m, 103);
    MulMono(IntPow10(n), IntPow2(m), IntPow10(31), IntPow2(103));
  }

  /** The bound lies in [2^1023, 2^1024). */
  lemma OverflowBoundBetween()
    ensures IntPow2(DoubleExponentLimit - 1) <= FloatOverflowBound < IntPow2(DoubleExponentLimit)
  {
    DifferenceBetween(DoubleExponentLimit, DoubleExponentLimit - DoubleSignificandBits - 1);
  }

  /** 2^(k-1) <= 2^k - 2^j < 2^k whenever j < k. */
  lemma DifferenceBetween(k: nat, j: nat)
    requires j < k
    ensures IntPow2(k - 1) <= IntPow2(k) - IntPow2(j) < IntPow2(k)
  {
    assert IntPow2(k) == 2 * IntPow2(k - 1);
    IntPow2Add(j, k - 1 - j);
    MulMono(IntPow2(j), IntPow2(j), 1, IntPow2(k - 1 - j));
  }

  /** 10^298 <= 2^991, from nine upper blocks and 10^19 <= 2^64. */
  lemma Pow10BelowPow2()
    ensures IntPow10(298) <= IntPow2(991)
  {
    Pow10UpperBlocks(9);
    EdgeRatios();
    IntPow10Add(279, 19);
    IntPow2Add(927, 64);
    MulMono(IntPow10(279), IntPow2(927), IntPow10(19), IntPow2(64));
  }

  /** 10^309 >= 2^1025, from twelve lower blocks and 10^9 >= 2^29. */
  lemma Pow10AbovePow2()
    ensures IntPow10(309) >= IntPow2(1025)
  {
    Pow10LowerBlocks(12);
    EdgeRatios();
    IntPow10Add(300, 9);
    IntPow2Add(996, 29);
    MulMono(IntPow2(996), IntPow10(300), IntPow2(29), IntPow10(9));
  }

  /** 2^32 * 10^298 <= 2^1023. */
  lemma FittingScaleBound()
    ensures IntPow10(LargestFittingScale) * 0x1_0000_0000 <= IntPow2(DoubleExponentLimit - 1)
  {
    Pow10BelowPow2();
    EdgeRatios();
    IntPow2Add(991, 32);
    MulMono(IntPow10(298), IntPow2(991), IntPow2(32), IntPow2(32));
  }

  /** 10^309 >= 2^1024. */
  lemma OverflowingScaleBound()
    ensures IntPow10(LeastOverflowingScale) >= IntPow2(DoubleExponentLimit)
  {
    Pow10AbovePow2();
    assert IntPow2(1025) == 2 * IntPow2(1024);
  }

  /** 10^a <= 10^b when a <= b. */
  lemma IntPow10Mono(a: nat, b: nat)
    requires a <= b
    ensures IntPow10(a) <= IntPow10(b)
  {
    IntPow10Add(a, b - a);
    MulMono(IntPow10(a), IntPow10(a), 1, IntPow10(b - a));
  }

  /** The integer e * 10^sf, for a 32-bit counter e, still converts to a
      double while sf is at most 298. */
  lemma FitsInDouble(e: nat, sf: nat)
    requires e < 0x1_0000_0000 && sf <= LargestFittingScale
    ensures !FloatOverflows(e * IntPow10(sf))
  {
    ScaledCounterBelow(e, sf);
    MulMono(0, e, IntPow10(sf), IntPow10(sf));
    BelowBound(e * IntPow10(sf));
  }

  /** For any non-zero e, the integer e * 10^sf no longer converts to a
      double once sf is at least 309. */
  lemma OverflowsDouble(e: nat, sf: nat)
    requires e >= 1 && sf >= LeastOverflowingScale
    ensures FloatOverflows(e * IntPow10(sf))
  {
    ScaledCounterAbove(e, sf);
    AboveBound(e * IntPow10(sf));
  }

  lemma ScaledCounterBelow(e: nat, sf: nat)
    requires e < 0x1_0000_0000 && sf <= LargestFittingScale
    ensures e * IntPow10(sf) < IntPow2(DoubleExponentLimit - 1)
  {
    var p, x := IntPow10(LargestFittingScale), IntPow10(sf);
    FittingScaleBound();
    IntPow10Mono(sf, LargestFittingScale);
    MulMono(e, 0xFFFF_FFFF, x, p);
    assert 0xFFFF_FFFF * p < p * 0x1_0000_0000;
  }

  lemma ScaledCounterAbove(e: nat, sf: nat)
    requires e >= 1 && sf >= LeastOverflowingScale
    ensures e * IntPow10(sf) >= IntPow2(DoubleExponentLimit)
  {
    var p, x := IntPow10(LeastOverflowingScale), IntPow10(sf);
    OverflowingScaleBound();
    IntPow10Mono(LeastOverflowingScale, sf);
    MulMono(1, e, p, x);
  }

  lemma BelowBound(n: int)
    requires 0 <= n < IntPow2(DoubleExponentLimit - 1)
    ensures !FloatOverflows(n)
  {
    OverflowBoundBetween();
    assert Abs(n) == n;
  }

  lemma AboveBound(n: int)
    requires n >= IntPow2(DoubleExponentLimit)
    ensures FloatOverflows(n)
  {
    OverflowBoundBetween();
    assert Abs(n) == n;
  }

  /** The pair (value, sf) the decoders store stands for exactly what the
      source stores, round(calculate_value(value, sf), abs(sf)). */
  lemma StoredScaled(value: int, sf: int)
    ensures Scaled(value, sf).Real() == RoundedValue(value, sf)
  {
  }

  /** The pair (value, sf - 3) stands for exactly the energy the ABB decoder
      stores, round(calculate_value(value, sf) * 0.001, 3), for its unsigned
      scale factor sf. */
  lemma StoredKilo(value: int, sf: nat)
    ensures Scaled(value, sf - 3).Real() == RoundedKilo(CalculateValue(value, sf))
  {
    var x := CalculateValue(value, sf);
    var r := RoundedKilo(x);
    KiloWhole(value, sf);
    Pow10Kilo(sf);
    KiloCancel(value as real, Pow10(sf - 3), Pow10(sf), r);
  }

  lemma KiloWhole(value: int, sf: nat)
    ensures CalculateValue(value, sf).Floor as real == CalculateValue(value, sf)
    ensures CalculateValue(value, sf) == value as real * Pow10(sf)
  {
    assert CalculateValue(value, sf) == (value * IntPow10(sf)) as real;
  }

  /** If r * 1000 = v * q and p * 1000 = q, then r = v * p. */
  lemma KiloCancel(v: real, p: real, q: real, r: real)
    requires p * 1000.0 == q && r * 1000.0 == v * q
    ensures v * p == r
  {
    assert (v * p) * 1000.0 == v * (p * 1000.0);
  }
}
