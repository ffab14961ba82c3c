// Non-negative binary64 arithmetic with roundTiesToEven (section 4.3.1 of IEEE 754-2019), as much of it
// as the amount conversions use.
module Binary64 {

  /** A double. The sign of zero is not recorded: no conversion here looks at it. */
  datatype Double = Finite(value: real) | Infinity(negative: bool) | NaN

  const MIN_EXPONENT := -1074
  const MAX_EXPONENT := 971

  function Pow2(e: int): (p: real)
    ensures p > 0.0
    decreases if e >= 0 then e else -e
  {
    if e == 0 then 1.0 else if e > 0 then 2.0 * Pow2(e - 1) else Pow2(e + 1) / 2.0
  }

  /** The exponent of the last place of x: the largest e <= top whose 53-bit binade starts at
      or below x, or the subnormal exponent. */
  function Exponent(x: real, top: int): (e: int)
    requires MIN_EXPONENT <= top <= MAX_EXPONENT
    ensures MIN_EXPONENT <= e <= top
    ensures e == MIN_EXPONENT || x >= 4503599627370496.0 * Pow2(e)
    ensures e < top ==> x < 4503599627370496.0 * Pow2(e + 1)
    decreases top - MIN_EXPONENT
  {
    if top == MIN_EXPONENT || x >= 4503599627370496.0 * Pow2(top) then top else Exponent(x, top - 1)
  }

  /** The integer nearest to q, the even one when q lies half-way. */
  function NearestEven(q: real): (n: int)
    ensures -0.5 <= n as real - q <= 0.5
    ensures n as real - q == 0.5 || n as real - q == -0.5 ==> n % 2 == 0
    ensures q >= 0.0 ==> n >= 0
  {
    var n := q.Floor;
    if q - n as real < 0.5 || (q - n as real == 0.5 && n % 2 == 0) then n else n + 1
  }

  /** The multiple of unit nearest to x, the even one when x lies half-way. */
  function OnGrid(x: real, unit: real): (r: real)
    requires x >= 0.0 && unit > 0.0
    ensures r >= 0.0
  {
    NonNegativeProduct(NearestEven(x / unit) as real, unit);
    NearestEven(x / unit) as real * unit
  }

  /** x rounded to a double. */
  function Round(x: real): (d: Double)
    requires x >= 0.0
    ensures d.Finite? ==> d.value >= 0.0
    ensures !d.NaN?
  {
    var r := OnGrid(x, Pow2(Exponent(x, MAX_EXPONENT)));
    if r >= Pow2(1024) then Infinity(false) else Finite(r)
  }

  lemma {:induction false} Pow2Monotone(a: int, b: int)
    requires a <= b
    ensures Pow2(a) <= Pow2(b)
    decreases b - a
  {
    if a < b {
      Pow2Monotone(a, b - 1);
      assert Pow2(b) == 2.0 * Pow2(b - 1);
    }
  }

  lemma Pow2Negative()
    ensures Pow2(-1) == 0.5 && Pow2(-8) == 0.00390625
  {
    assert Pow2(-1) == 0.5;
    assert Pow2(-2) == 0.25;
    assert Pow2(-3) == 0.125;
    assert Pow2(-4) == 0.0625;
    assert Pow2(-5) == 0.03125;
    assert Pow2(-6) == 0.015625;
    assert Pow2(-7) == 0.0078125;
  }

  lemma Pow2Times16(e: nat)
    ensures Pow2(e + 4) == 16.0 * Pow2(e)
  {
    assert Pow2(e + 1) == 2.0 * Pow2(e);
    assert Pow2(e + 2) == 2.0 * Pow2(e + 1);
    assert Pow2(e + 3) == 2.0 * Pow2(e + 2);
  }

  lemma Pow2Zero()
    ensures Pow2(0) == 1.0
  {
  }

  /** No number below 2^60 rounds to infinity. */
  lemma Pow2Large()
    ensures Pow2(1024) >= 1152921504606846976.0
  {
    hide Pow2;
    Pow2Times16(0); Pow2Times16(4); Pow2Times16(8); Pow2Times16(12); Pow2Times16(16);
    Pow2Times16(20); Pow2Times16(24); Pow2Times16(28); Pow2Times16(32); Pow2Times16(36);
    Pow2Times16(40); Pow2Times16(44); Pow2Times16(48); Pow2Times16(52); Pow2Times16(56);
    Pow2Monotone(60, 1024);
    Pow2Zero();
  }

  lemma GridError(x: real, unit: real)
    requires x >= 0.0 && unit > 0.0
    ensures -unit / 2.0 <= OnGrid(x, unit) - x <= unit / 2.0
  {
    var d := NearestEven(x / unit) as real - x / unit;
    assert (x / unit) * unit == x;
    assert OnGrid(x, unit) - x == d * unit;
    NonNegativeProduct(0.5 - d, unit);
    NonNegativeProduct(0.5 + d, unit);
  }

  lemma NonNegativeProduct(x: real, y: real)
    requires x >= 0.0 && y >= 0.0
    ensures x * y >= 0.0
  {
  }

  /** Below the binade of unit 2^k the last place is worth at most that unit. */
  lemma ExponentBound(x: real, k: int)
    requires 0.0 <= x < 9007199254740992.0 * Pow2(k)
    requires MIN_EXPONENT <= k < MAX_EXPONENT
    ensures Pow2(Exponent(x, MAX_EXPONENT)) <= Pow2(k)
  {
    var e := Exponent(x, MAX_EXPONENT);
    assert Pow2(k + 1) == 2.0 * Pow2(k);
    if e <= k {
      Pow2Monotone(e, k);
    } else {
      Pow2Monotone(k + 1, e);
    }
  }

  /** Rounding below the binade of unit 2^k moves a number by at most half that unit. */
  lemma RoundError(x: real, k: int)
    requires 0.0 <= x < 9007199254740992.0 * Pow2(k)
    requires MIN_EXPONENT <= k <= 0
    ensures Round(x).Finite?
    ensures -Pow2(k) / 2.0 <= Round(x).value - x <= Pow2(k) / 2.0
  {
    ExponentBound(x, k);
    GridError(x, Pow2(Exponent(x, MAX_EXPONENT)));
    Pow2Large();
    Pow2Monotone(k, 0);
  }

  /** An error of half a unit is one half. */
  lemma HalfUnits(d: real, unit: real)
    requires unit > 0.0 && (d * unit == 0.5 * unit || d * unit == -(0.5 * unit))
    ensures d == 0.5 || d == -0.5
  {
    assert (d - 0.5) * unit == 0.0 || (d + 0.5) * unit == 0.0;
  }

  lemma GridIsNearest(x: real, unit: real) returns (n: nat)
    requires x >= 0.0 && unit > 0.0
    ensures OnGrid(x, unit) == n as real * unit
    ensures OnGrid(x, unit) - x == 0.5 * unit || OnGrid(x, unit) - x == -(0.5 * unit) ==> n % 2 == 0
  {
    hide NearestEven;
    n := NearestEven(x / unit);
    var d := n as real - x / unit;
    assert (x / unit) * unit == x;
    assert OnGrid(x, unit) - x == d * unit;
    if d * unit == 0.5 * unit || d * unit == -(0.5 * unit) {
      HalfUnits(d, unit);
    }
  }

  function Multiple(n: nat, unit: real): real {
    n as real * unit
  }

  /** The unit of a number's last place: the largest with 53 bits, or the smallest there is. */
  lemma UnitOf(x: real)
    requires x >= 0.0
    ensures var e := Exponent(x, MAX_EXPONENT);
            && -1074 <= e <= 971
            && (e == -1074 || x >= 4503599627370496.0 * Pow2(e))
            && (e == 971 || x < 9007199254740992.0 * Pow2(e))
  {
    DoublePow2(Exponent(x, MAX_EXPONENT));
    hide Pow2;
  }

  /** Rounding gives the multiple of that unit that is nearest, the even one at a tie, and infinity when it
      is too large. */
  lemma RoundIsNearest(x: real) returns (n: nat)
    requires x >= 0.0
    ensures var unit := Pow2(Exponent(x, MAX_EXPONENT));
            var r := Multiple(n, unit);
            && Round(x) == (if r >= Pow2(1024) then Infinity(false) else Finite(r))
            && -unit / 2.0 <= r - x <= unit / 2.0
            && (r - x == 0.5 * unit || r - x == -(0.5 * unit) ==> n % 2 == 0)
  {
    hide Pow2, Exponent, OnGrid;
    var unit := Pow2(Exponent(x, MAX_EXPONENT));
    n := GridIsNearest(x, unit);
    GridError(x, unit);
    assert OnGrid(x, unit) == Multiple(n, unit);
    hide Multiple;
  }

  lemma DoublePow2(e: int)
    ensures Pow2(e + 1) == 2.0 * Pow2(e)
  {
  }

  /** std::round on a non-negative double: half away from zero. */
  function RoundHalfAway(x: real): (n: int)
    requires x >= 0.0
    ensures x - 0.5 < n as real <= x + 0.5
  {
    (x + 0.5).Floor
  }
}
