/** `Math.round(riskPoints * 0.7)` (supabase/functions/analyze-micro-transactions/index.ts:141)
    in exact integer arithmetic: once as the IEEE-754 binary64 computation the
    line performs, and once as the rounding it is meant to compute. */
module Rounding {

  function Pow2(k: nat): (r: nat)
    ensures r >= 1
  {
    if k == 0 then 1 else 2 * Pow2(k - 1)
  }

  /** 2^52: a binary64 number in [1, 2) has 52 bits after the point. */
  const Unit: nat := 0x10_0000_0000_0000

  /** 2^53: one past the largest integer a binary64 significand holds. */
  const SignificandLimit: nat := 0x20_0000_0000_0000

  /** The literal `0.7` as a binary64 value: `SevenTenths / 2^52`, the nearest
      double to 7/10 (it lies 0.2 / 2^52 below it). */
  const SevenTenths: nat := 3152519739159347

  /** How many low bits of `n` a 53-bit significand cannot hold. */
  function Excess(n: nat): (s: nat)
    ensures n / Pow2(s) < SignificandLimit
  {
    if n < SignificandLimit then 0
    else
      var s := Excess(n / 2);
      HalvingDivides(n, s);
      1 + s
  }

  lemma HalvingDivides(n: nat, s: nat)
    ensures n / 2 / Pow2(s) == n / Pow2(s + 1)
  {
    var p := Pow2(s);
    var h := n / 2;
    var a, b := h / p, h % p;
    assert h == a * p + b;
    assert Pow2(s + 1) == 2 * p;
    assert 2 * (a * p) == a * (2 * p);
    assert n == a * (2 * p) + (2 * b + n % 2);
    DivUnique(n, 2 * p, a, 2 * b + n % 2);
  }

  lemma MulMono(a: nat, b: nat, d: nat)
    requires a <= b
    ensures a * d <= b * d
  {
    assert b * d == a * d + (b - a) * d;
  }

  /** Division by `d` has one quotient and remainder. */
  lemma DivUnique(n: nat, d: nat, q: nat, r: nat)
    requires d > 0 && r < d && n == q * d + r
    ensures n / d == q && n % d == r
  {
    var q0, r0 := n / d, n % d;
    assert n == q0 * d + r0;
    if q > q0 {
      MulMono(q0 + 1, q, d);
    } else if q < q0 {
      MulMono(q + 1, q0, d);
    }
  }

  /** The nearest multiple of the unit in the last place of `n`, ties to even:
      `n` rounded to a binary64 significand, scaled back to an integer. */
  function RoundToDouble(n: nat): (d: nat)
    ensures d % Pow2(Excess(n)) == 0
    ensures 2 * (d - n) <= Pow2(Excess(n)) && 2 * (n - d) <= Pow2(Excess(n))
  {
    RoundToMultiple(n, Pow2(Excess(n)))
  }

  /** `n` rounded to a multiple of `u`, ties to an even multiple. */
  function RoundToMultiple(n: nat, u: nat): (d: nat)
    requires u >= 1
    ensures d % u == 0
    ensures 2 * (d - n) <= u && 2 * (n - d) <= u
  {
    var q, rem := n / u, n % u;
    var k := if 2 * rem > u || (2 * rem == u && q % 2 == 1) then q + 1 else q;
    NearestMultiple(n, u, q, rem, k);
    k * u
  }

  /** Rounding `n` down to the multiple `q * u`, or up to the next one when
      the remainder is at least half of `u`, lands within half of `u` of `n`. */
  lemma NearestMultiple(n: nat, u: nat, q: int, rem: int, k: int)
    requires u >= 1 && q == n / u && rem == n % u
    requires (k == q + 1 && 2 * rem >= u) || (k == q && 2 * rem <= u)
    ensures k >= 0 && (k * u) % u == 0
    ensures 2 * (k * u - n) <= u && 2 * (n - k * u) <= u
  {
    assert n == q * u + rem;
    if k == q + 1 {
      assert k * u == q * u + u;
    }
    DivUnique(k * u, u, k, 0);
  }

  /** `Math.round(p * 0.7)` as line 141 computes it: the product rounded to a
      double, then rounded to the nearest integer with halves going up. */
  function DampenAsWritten(p: nat): nat
  {
    (RoundToDouble(p * SevenTenths) + Unit / 2) / Unit
  }

  /** Seventy percent of `p`, rounded to the nearest integer, halves up: what
      the dampener is meant to compute. */
  function Dampen(p: nat): (r: nat)
    ensures 10 * r - 5 <= 7 * p < 10 * r + 5
  {
    (7 * p + 5) / 10
  }

  /** Dampening never raises the points and keeps their order. */
  lemma DampenMonotone(p: nat, q: nat)
    requires p <= q
    ensures Dampen(p) <= Dampen(q)
    ensures Dampen(p) <= p
  {
  }

  lemma Pow2Small()
    ensures Pow2(4) == 16 && Pow2(5) == 32 && Pow2(6) == 64
  {
    assert Pow2(1) == 2;
    assert Pow2(2) == 4;
    assert Pow2(3) == 8;
  }

  /** 85 points are 59.5 after dampening, so the intended result is 60; the
      double product `85 * 0.7` is 59.49999999999999, which rounds to 59. */
  lemma DampenAsWrittenAt85()
    ensures DampenAsWritten(85) == 59
    ensures Dampen(85) == 60
  {
    var n := 267964177828544495;
    assert n == 85 * SevenTenths;
    ExcessAt85();
    DivUnique(n, 32, 8373880557142015, 15);
    assert RoundToDouble(n) == 267964177828544480;
    DivUnique(267964177828544480 + 2251799813685248, 4503599627370496, 59, 4503599627370464);
  }

  /** The product `85 * 0.7`, scaled by 2^52, needs 58 bits: five too many. */
  lemma ExcessAt85()
    ensures Excess(267964177828544495) == 5 && Pow2(5) == 32
  {
    Pow2Small();
    assert Excess(8373880557142015) == 0;
    assert Excess(16747761114284030) == 1;
    assert Excess(33495522228568061) == 2;
    assert Excess(66991044457136123) == 3;
    assert Excess(133982088914272247) == 4;
  }

  /** A double rounding above 2^53 drops `Excess(n)` bits; the unit it drops
      them in is at most `n / 2^52`. */
  lemma {:induction false} ExcessUnit(n: nat)
    ensures Pow2(Excess(n)) == 1 || Pow2(Excess(n)) * Unit <= n
    decreases n
  {
    if n >= SignificandLimit {
      ExcessUnit(n / 2);
      assert Pow2(Excess(n)) == 2 * Pow2(Excess(n / 2));
    }
  }

  /** For any realistic point total (below 2^49) the product `p * 0.7` is off
      by far less than a tenth, so the result differs from the intended one
      only where seventy percent of `p` is a half, that is where `p` ends in
      5, and then it is at most one lower. */
  lemma DampenAsWrittenClose(p: nat)
    requires p <= Unit / 8
    ensures p % 10 != 5 ==> DampenAsWritten(p) == Dampen(p)
    ensures p % 10 == 5 ==> Dampen(p) - 1 <= DampenAsWritten(p) <= Dampen(p)
  {
    var n := p * SevenTenths;
    ExcessUnit(n);
    CloseToSeventyPercent(p, n, RoundToDouble(n), Pow2(Excess(n)));
  }

  /** The arithmetic behind `DampenAsWrittenClose`: `n` is `p` times the double
      0.7 scaled by 2^52 (4503599627370496), and `d` is within half a unit `u`
      of it. */
  lemma CloseToSeventyPercent(p: nat, n: nat, d: nat, u: nat)
    requires p <= 562949953421312
    requires n == p * 3152519739159347
    requires 2 * (d - n) <= u && 2 * (n - d) <= u
    requires u == 1 || u * 4503599627370496 <= n
    ensures p % 10 != 5 ==> (d + 2251799813685248) / 4503599627370496 == (7 * p + 5) / 10
    ensures p % 10 == 5 ==>
      (7 * p + 5) / 10 - 1 <= (d + 2251799813685248) / 4503599627370496 <= (7 * p + 5) / 10
  {
    assert 10 * n == 7 * p * 4503599627370496 - 2 * p;
    assert 10 * u <= 7 * p || u == 1;
    RoundHalfUpFrom(p, d + 2251799813685248);
  }

  /** A value `x` within a tenth of a unit of `(7p + 5) / 10` units has the
      floor `(7p + 5) / 10`, unless that quotient is exact, when it may be one
      less. */
  lemma RoundHalfUpFrom(p: nat, x: nat)
    requires (7 * p + 5) * 4503599627370496 - 4503599627370496 < 10 * x
    requires 10 * x < (7 * p + 5) * 4503599627370496 + 4503599627370496
    ensures p % 10 != 5 ==> x / 4503599627370496 == (7 * p + 5) / 10
    ensures p % 10 == 5 ==> (7 * p + 5) / 10 - 1 <= x / 4503599627370496 <= (7 * p + 5) / 10
  {
    var r := (7 * p + 5) / 10;
    var t := 7 * p + 5 - 10 * r;
    assert t == 0 <==> p % 10 == 5;
    if t > 0 {
      DivUnique(x, 4503599627370496, r, x - r * 4503599627370496);
    } else if x < r * 4503599627370496 {
      DivUnique(x, 4503599627370496, r - 1, x - (r - 1) * 4503599627370496);
    } else {
      DivUnique(x, 4503599627370496, r, x - r * 4503599627370496);
    }
  }

  /** Where seventy percent of the points is not a half, the two agree: at 100
      points both give 70. */
  lemma DampenAgreesAt100()
    ensures DampenAsWritten(100) == Dampen(100) == 70
  {
    Pow2Small();
    var n := 315251973915934700;
    assert n == 100 * SevenTenths;
    assert Excess(n / 64) == 0;
    assert Excess(n / 32) == 1;
    assert Excess(n / 16) == 2;
    assert Excess(n / 8) == 3;
    assert Excess(n / 4) == 4;
    assert Excess(n / 2) == 5;
    assert Excess(n) == 6;
    DivUnique(n, 64, 4925812092436479, 44);
    assert RoundToDouble(n) == 4925812092436480 * 64;
  }

  /** Some halves do come out as intended: `25 * 0.7` rounds to exactly 17.5,
      and both give 18. */
  lemma DampenAgreesAt25()
    ensures DampenAsWritten(25) == Dampen(25) == 18
  {
    Pow2Small();
    var m := 78812993478983675;
    assert m == 25 * SevenTenths;
    assert Excess(m / 16) == 0;
    assert Excess(m / 8) == 1;
    assert Excess(m / 4) == 2;
    assert Excess(m / 2) == 3;
    assert Excess(m) == 4;
    DivUnique(m, 16, 4925812092436479, 11);
    assert RoundToDouble(m) == 4925812092436480 * 16;
  }

  /** `n` needs exactly `e` bits more than a significand holds when
      `n / 2^e` fits and `n / 2^(e - 1)` does not. */
  lemma {:induction false} ExcessIs(n: nat, e: nat)
    requires n / Pow2(e) < SignificandLimit
    requires e > 0 ==> n / Pow2(e - 1) >= SignificandLimit
    ensures Excess(n) == e
    decreases e
  {
    if e == 0 {
      assert n / 1 == n;
    } else {
      var p := Pow2(e - 1);
      var q := n / p;
      assert n == q * p + n % p;
      MulMono(1, p, q);
      assert n >= SignificandLimit;
      HalvingDivides(n, e - 1);
      if e > 1 {
        HalvingDivides(n, e - 2);
      }
      ExcessIs(n / 2, e - 1);
    }
  }

  /** Line 141 at `p` points when the product `p * 0.7`, scaled by 2^52, is
      `q` units of 2^e and a remainder past half a unit: the double rounds up
      to `q + 1` units, and `Math.round` of it is `res`. */
  lemma AsWrittenRoundsUp(p: nat, e: nat, q: nat, rem: nat, res: nat, low: nat)
    requires e >= 1 && q < SignificandLimit
    requires p * SevenTenths == q * Pow2(e) + rem && rem < Pow2(e) && 2 * rem > Pow2(e)
    requires p * SevenTenths / Pow2(e - 1) >= SignificandLimit
    requires (q + 1) * Pow2(e) + Unit / 2 == res * Unit + low && low < Unit
    ensures DampenAsWritten(p) == res
  {
    var n := p * SevenTenths;
    DivUnique(n, Pow2(e), q, rem);
    ExcessIs(n, e);
    assert RoundToDouble(n) == (q + 1) * Pow2(e);
    DivUnique((q + 1) * Pow2(e) + Unit / 2, Unit, res, low);
  }

  /** The point totals below 145 that end in 5 and that a dampened batch can
      reach (30 plus multiples of 40, 25 and 60): at each of them the double
      product lies above the half, so line 141 rounds up as intended. */
  lemma ReachableHalvesAgree()
    ensures DampenAsWritten(55) == Dampen(55) == 39
    ensures DampenAsWritten(95) == Dampen(95) == 67
    ensures DampenAsWritten(105) == Dampen(105) == 74
    ensures DampenAsWritten(115) == Dampen(115) == 81
    ensures DampenAsWritten(135) == Dampen(135) == 95
  {
    Pow2Small();
    AsWrittenRoundsUp(55, 5, 5418393301680127, 21, 39, 0);
    AsWrittenRoundsUp(95, 6, 4679521487814655, 45, 67, 0);
    AsWrittenRoundsUp(105, 6, 5172102697058303, 43, 74, 0);
    AsWrittenRoundsUp(115, 6, 5664683906301951, 41, 81, 0);
    AsWrittenRoundsUp(135, 6, 6649846324789247, 37, 95, 0);
  }

  /** From 1000 points up, line 141 gives at least 100: the double product is
      within half a unit of the exact one, and that unit is far below it. */
  lemma AsWrittenLarge(p: nat)
    requires p >= 1000
    ensures DampenAsWritten(p) >= 100
  {
    var n := p * SevenTenths;
    var u := Pow2(Excess(n));
    var d := RoundToDouble(n);
    ExcessUnit(n);
    MulMono(1000, p, SevenTenths);
    assert 2 * d >= n by {
      if u != 1 && d < n {
        var k: nat := n - d;
        MulMono(2 * k, u, Unit);
        MulMono(1, Unit, 2 * k);
        assert Unit * (2 * k) == 2 * k * Unit;
      }
    }
    assert d + Unit / 2 >= 100 * Unit;
  }

  /** A dampened batch always carries the isolation tag, so its points are
      `30 + 40a + 25b + 60c`. Below 145 line 141 gives the intended result;
      from 145 up both are at least 100, which the score clamps to 100. */
  lemma DampenedTotals(a: nat, b: nat, c: nat)
    ensures 30 + 40 * a + 25 * b + 60 * c < 145 ==>
      DampenAsWritten(30 + 40 * a + 25 * b + 60 * c) == Dampen(30 + 40 * a + 25 * b + 60 * c)
    ensures 30 + 40 * a + 25 * b + 60 * c >= 145 ==>
      DampenAsWritten(30 + 40 * a + 25 * b + 60 * c) >= 100 && Dampen(30 + 40 * a + 25 * b + 60 * c) >= 100
  {
    var p := 30 + 40 * a + 25 * b + 60 * c;
    if p >= 1000 {
      AsWrittenLarge(p);
    } else if p % 10 == 5 && p < 145 {
      assert b == 1 || b == 3;
      assert p == 55 || p == 95 || p == 105 || p == 115 || p == 135;
      ReachableHalvesAgree();
    } else {
      DampenAsWrittenClose(p);
    }
  }
}
