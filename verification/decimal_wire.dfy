// decimal_t to and from the JSON number that carries an amount on the wire.
module DecimalWire {
  import opened Wrappers
  import opened Numerals
  import opened Strings
  import opened Binary64
  import opened Decimal

  /** 2^45 whole units less one hundredth. */
  const MAX_MINOR_UNITS := 35184372088832 * 100 - 1

  /** 2^53 - 1, above which a double skips integers. */
  const MAX_EXACT := 9007199254740991

  /** A value a decimal_t can hold: its own normal form. */
  ghost predicate IsDecimal(d: string) {
    Normalize(d) == Ok(d)
  }

  function TwoDigits(n: nat): string
    requires n < 100
  {
    (if n < 10 then "0" else "") + ToText(n)
  }

  /** Hundredths written with two fractional digits. */
  function Cents(units: nat): string {
    ToText(units / 100) + "." + TwoDigits(units % 100)
  }

  /** The quotient of an integer number of hundredths by 100, as a double. */
  function WireNumber(minor: nat): Double {
    Round(minor as real / 100.0)
  }

  function FromWire(value: Double): Result<string, Error> {
    match value
    case NaN => Err(InvalidArgument)
    case Infinity(_) => Err(InvalidArgument)
    case Finite(v) =>
      if v < 0.0 then Err(InvalidArgument) else
      match Round(v * 100.0)
      case Finite(product) =>
        var minor := RoundHalfAway(product);
        if minor > MAX_EXACT || WireNumber(minor) != value then Err(OutOfRange)
        else if minor > MAX_MINOR_UNITS then Err(OutOfRange)
        else Normalize(Cents(minor))
      case _ => Err(OutOfRange)
  }

  lemma RenderStart(q: Parts)
    requires Digits(q)
    ensures Render(q) != "" && Render(q)[0] == if q.negative then '-' else q.integral[0]
  {
  }

  /** A decimal value is the rendering of its own parts, so it starts with '-' or a digit. */
  lemma DecimalIsRendered(d: string)
    requires IsDecimal(d)
    ensures Parse(d).Some? && Canonical(Parse(d).value) && d == Render(Parse(d).value)
    ensures d != "" && d[0] != '+'
  {
    var q := Reduce(Parse(d).value);
    ReduceKeepsNumber(Parse(d).value);
    RenderReadsBack(q);
    hide Parse, Reduce, Render, Normalize;
    RenderStart(q);
    assert IsDigit(q.integral[0]);
  }

  function ToWire(d: string): Result<Double, Error>
    requires IsDecimal(d)
  {
    DecimalIsRendered(d);
    if d[0] == '-' then Err(InvalidArgument) else
    var point := Find(d, '.');
    var whole := d[..point];
    var fraction := if point == |d| then "" else d[point + 1..];
    if |fraction| > 2 || |whole| > 14 then Err(OutOfRange) else
    var minor := MinorUnits(whole, fraction);
    if minor > MAX_MINOR_UNITS then Err(OutOfRange) else Ok(WireNumber(minor))
  }

  function MinorUnits(whole: string, fraction: string): nat
    requires AllDigits(whole) && AllDigits(fraction)
  {
    NatOf(whole) * 100
    + (if fraction == "" then 0 else NatOf(fraction) * (if |fraction| == 1 then 10 else 1))
  }

  // ---- Rounding --------------------------------------------------------------------

  lemma QuotientError(x: real)
    requires 0.0 <= x < 35184372088832.0
    ensures Round(x).Finite? && -0.001953125 <= Round(x).value - x <= 0.001953125
  {
    hide Round;
    Pow2Negative();
    RoundError(x, -8);
  }

  lemma ProductError(y: real)
    requires 0.0 <= y < 4503599627370496.0
    ensures Round(y).Finite? && -0.25 <= Round(y).value - y <= 0.25
  {
    hide Round;
    Pow2Negative();
    RoundError(y, -1);
  }

  /** Dividing by 100 and multiplying back loses less than half a minor unit in all:
      at most 100 * 2^-9 in the quotient and 2^-2 in the product. */
  lemma RoundingStaysUnderHalf(m: real, d: real)
    requires 0.0 <= m <= 3518437208883199.0 && d >= 0.0
    requires Round(m / 100.0) == Finite(d)
    ensures Round(d * 100.0).Finite? && m - 0.5 < Round(d * 100.0).value < m + 0.5
  {
    hide *;
    QuotientError(m / 100.0);
    ProductError(d * 100.0);
  }

  // ---- Digits ----------------------------------------------------------------------

  lemma TwoDigitsReadBack(n: nat)
    requires n < 100
    ensures AllDigits(TwoDigits(n)) && |TwoDigits(n)| == 2 && NatOf(TwoDigits(n)) == n
  {
    ToTextReadsBack(n);
    if n < 10 {
      assert TwoDigits(n)[..1] == "0" && "0"[..0] == "";
    } else {
      assert ToText(n) == [DigitChar(n / 10)] + [DigitChar(n % 10)];
    }
  }

  ghost function CentsParts(units: nat): Parts {
    Parts(false, ToText(units / 100), TwoDigits(units % 100))
  }

  lemma CentsRender(units: nat)
    ensures Cents(units) == Render(CentsParts(units)) && Digits(CentsParts(units))
  {
    ToTextReadsBack(units / 100);
    TwoDigitsReadBack(units % 100);
  }

  lemma CentsMagnitude(units: nat)
    requires Digits(CentsParts(units))
    ensures Magnitude(CentsParts(units)) == units && |TwoDigits(units % 100)| == 2
  {
    ToTextReadsBack(units / 100);
    TwoDigitsReadBack(units % 100);
    NatOfConcat(ToText(units / 100), TwoDigits(units % 100));
    assert Pow10(2) == 100;
  }

  lemma WholeUnitsLength(units: nat)
    requires units <= MAX_MINOR_UNITS
    ensures |ToText(units / 100)| <= 14
  {
    assert Pow10(3) == 1000 && Pow10(6) == 1000000;
    Pow10Add(6, 6);
    Pow10Add(2, 12);
    ToTextLength(units / 100, 14);
  }

  lemma ReducedCents(units: nat)
    requires units <= MAX_MINOR_UNITS
    ensures var q := Reduce(CentsParts(units));
            Digits(q) && !q.negative && q.integral == ToText(units / 100) && |q.fractional| <= 2
            && MinorUnits(q.integral, q.fractional) == units
  {
    var p := CentsParts(units);
    ToTextReadsBack(units / 100);
    TwoDigitsReadBack(units % 100);
    StripLeadingKeeps(p.integral);
    StripTrailingKeeps(p.fractional);
    assert Pow10(0) == 1 && Pow10(1) == 10 && Pow10(2) == 100;
  }

  /** The text from_wire builds denotes exactly that many hundredths, and is accepted. */
  lemma CentsDenotes(units: nat)
    requires units <= MAX_MINOR_UNITS
    ensures Parse(Cents(units)) == Some(CentsParts(units)) && Digits(CentsParts(units))
    ensures Magnitude(CentsParts(units)) == units && |TwoDigits(units % 100)| == 2
    ensures Normalize(Cents(units)).Ok?
  {
    hide Parse, Render, Cents, ToText, TwoDigits, Reduce, CentsParts, MinorUnits;
    CentsRender(units);
    RenderReadsBack(CentsParts(units));
    CentsMagnitude(units);
    WholeUnitsLength(units);
    ReducedCents(units);
  }

  /** The decimal d is worth this many hundredths. */
  ghost predicate IsAmount(d: string, units: nat) {
    units <= MAX_MINOR_UNITS && Normalize(Cents(units)) == Ok(d)
  }

  lemma MinorUnitsNumber(p: Parts)
    requires Digits(p) && !p.negative && |p.fractional| <= 2
    ensures var units := MinorUnits(p.integral, p.fractional);
            Magnitude(p) * 100 == units * Pow10(|p.fractional|)
  {
    NatOfConcat(p.integral, p.fractional);
    assert Pow10(0) == 1 && Pow10(1) == 10 && Pow10(2) == 100;
  }

  /** to_wire_number divides the value's minor units by 100. */
  lemma ToWireParts(d: string, p: Parts)
    requires IsDecimal(d) && Parse(d) == Some(p) && ToWire(d).Ok?
    ensures !p.negative && |p.fractional| <= 2
    ensures MinorUnits(p.integral, p.fractional) <= MAX_MINOR_UNITS
    ensures ToWire(d) == Ok(WireNumber(MinorUnits(p.integral, p.fractional)))
  {
    hide WireNumber, MinorUnits, Normalize;
    DecimalIsRendered(d);
  }

  /** A decimal that to_wire_number accepts is the normal form of its minor units. */
  lemma MinorUnitsDetermine(d: string) returns (units: nat)
    requires IsDecimal(d) && ToWire(d).Ok?
    ensures IsAmount(d, units) && ToWire(d) == Ok(WireNumber(units))
  {
    DecimalIsRendered(d);
    var p := Parse(d).value;
    ToWireParts(d, p);
    units := MinorUnits(p.integral, p.fractional);
    hide Parse, Cents, MinorUnits, ToText, TwoDigits, Normalize, Reduce, Render, ToWire, WireNumber;
    MinorUnitsNumber(p);
    CentsDenotes(units);
    assert Pow10(2) == 100;
    NormalizeCanonical(d, Cents(units));
  }

  /** Every amount up to the limit is recovered from its wire number. */
  lemma AmountSurvives(units: nat)
    requires units <= MAX_MINOR_UNITS
    ensures FromWire(WireNumber(units)) == Normalize(Cents(units))
    ensures Normalize(Cents(units)).Ok?
  {
    hide Round, Normalize, Cents;
    QuotientError(units as real / 100.0);
    RoundingStaysUnderHalf(units as real, WireNumber(units).value);
    CentsDenotes(units);
  }

  /** from_wire undoes to_wire_number, for every decimal to_wire_number accepts. */
  lemma FromWireUndoesToWire(d: string)
    requires IsDecimal(d) && ToWire(d).Ok?
    ensures FromWire(ToWire(d).value) == Ok(d)
  {
    hide FromWire, WireNumber, Normalize, Cents, ToWire;
    var units := MinorUnitsDetermine(d);
    AmountSurvives(units);
  }

  lemma AmountToWire(d: string, units: nat)
    requires IsAmount(d, units)
    ensures IsDecimal(d) && ToWire(d) == Ok(WireNumber(units))
  {
    hide Parse, Cents, WireNumber, MinorUnits, Reduce, ToText, TwoDigits, CentsParts;
    var q := Reduce(CentsParts(units));
    CentsDenotes(units);
    NormalizeIdempotent(Cents(units));
    ReducedCents(units);
    RenderReadsBack(q);
    WholeUnitsLength(units);
    RenderToWire(q, units);
  }

  lemma RenderToWire(q: Parts, units: nat)
    requires Digits(q) && !q.negative && |q.integral| <= 14 && |q.fractional| <= 2
    requires IsDecimal(Render(q)) && MinorUnits(q.integral, q.fractional) == units <= MAX_MINOR_UNITS
    ensures ToWire(Render(q)) == Ok(WireNumber(units))
  {
    hide Normalize, WireNumber, MinorUnits;
    var tail := if q.fractional == "" then "" else "." + q.fractional;
    var d := Render(q);
    assert d == q.integral + tail;
    FindSkips(q.integral, tail, '.');
    RenderStart(q);
    assert IsDigit(q.integral[0]);
    assert d[..|q.integral|] == q.integral;
    assert tail != "" ==> d[|q.integral| + 1..] == q.fractional;
  }

  /** The decimal read from a wire number is written back as that very number. */
  lemma ToWireUndoesFromWire(value: Double)
    requires FromWire(value).Ok?
    ensures IsDecimal(FromWire(value).value)
    ensures ToWire(FromWire(value).value) == Ok(value)
  {
    hide Round, Normalize, Cents, ToWire, WireNumber;
    var units := RoundHalfAway(Round(value.value * 100.0).value);
    AmountToWire(FromWire(value).value, units);
  }

  /** from_wire accepts a double exactly when it is the quotient of some amount in range. */
  lemma FromWireAcceptsExactly(value: Double)
    ensures FromWire(value).Ok? <==> exists units: nat :: units <= MAX_MINOR_UNITS && value == WireNumber(units)
  {
    hide Round, Normalize, Cents, WireNumber;
    if units: nat :| units <= MAX_MINOR_UNITS && value == WireNumber(units) {
      AmountSurvives(units);
    }
    if FromWire(value).Ok? {
      var units: nat := RoundHalfAway(Round(value.value * 100.0).value);
      assert value == WireNumber(units);
    }
  }

  // ---- What is refused, and why ------------------------------------------------------

  /** The text from_wire builds is never refused. */
  lemma ReadAmountIsOk(v: real)
    requires v >= 0.0 && Round(v * 100.0).Finite?
    ensures var minor := RoundHalfAway(Round(v * 100.0).value);
            minor >= 0 && (minor <= MAX_MINOR_UNITS ==> Normalize(Cents(minor)).Ok?)
  {
    hide Round, Normalize, Cents;
    var minor := RoundHalfAway(Round(v * 100.0).value);
    if minor <= MAX_MINOR_UNITS {
      CentsDenotes(minor);
    }
  }

  /** from_wire throws invalid_argument exactly for what is no finite non-negative number, and out_of_range
      exactly for the other numbers that are no wire number of at most 3518437208883199 minor units. */
  lemma FromWireRefuses(value: Double)
    ensures FromWire(value) == Err(InvalidArgument) <==> !value.Finite? || value.value < 0.0
    ensures FromWire(value) == Err(OutOfRange) <==>
              value.Finite? && value.value >= 0.0
              && forall units: nat | units <= 3518437208883199 :: WireNumber(units) != value
  {
    FromWireAcceptsExactly(value);
    hide Round, Normalize, Cents, WireNumber;
    if value.Finite? && value.value >= 0.0 && Round(value.value * 100.0).Finite? {
      ReadAmountIsOk(value.value);
    }
  }

  /** A numeral that does not begin with '0' is at least the power of ten of its length. */
  lemma {:induction false} NatOfAtLeast(s: string)
    requires AllDigits(s) && s != "" && s[0] != '0'
    ensures NatOf(s) >= Pow10(|s| - 1)
  {
    if |s| > 1 {
      NatOfAtLeast(s[..|s| - 1]);
    } else {
      assert s[..0] == "";
    }
  }

  lemma {:induction false} Pow10AtLeast(n: nat)
    requires n >= 14
    ensures Pow10(n) >= 100000000000000
  {
    if n == 14 {
      assert Pow10(3) == 1000 && Pow10(6) == 1000000;
      Pow10Add(6, 6);
      Pow10Add(2, 12);
    } else {
      Pow10AtLeast(n - 1);
    }
  }

  /** The minor units of a decimal are its digits scaled to two behind the point. */
  lemma MinorUnitsScale(p: Parts)
    requires Digits(p) && |p.fractional| <= 2
    ensures MinorUnits(p.integral, p.fractional) == Magnitude(p) * Pow10(2 - |p.fractional|)
  {
    assert Pow10(0) == 1 && Pow10(1) == 10 && Pow10(2) == 100;
    hide Pow10;
    NatOfConcat(p.integral, p.fractional);
    if p.fractional == "" {
      assert p.integral + p.fractional == p.integral;
    }
    hide NatOf;
  }

  /** With more than fourteen digits before the point they are too many. */
  lemma LongWholesExceed(p: Parts)
    requires Canonical(p) && |p.integral| > 14
    ensures MinorUnits(p.integral, p.fractional) > MAX_MINOR_UNITS
  {
    hide Pow10, NatOf, AllDigits;
    NatOfAtLeast(p.integral);
    Pow10AtLeast(|p.integral| - 1);
  }

  /** to_wire_number refuses a negative decimal as invalid, and as out of range exactly one with more than two
      digits behind the point or more than 3518437208883199 minor units. */
  lemma ToWireRefuses(d: string, p: Parts)
    requires IsDecimal(d) && Parse(d) == Some(p)
    ensures ToWire(d) == Err(InvalidArgument) <==> p.negative
    ensures ToWire(d) == Err(OutOfRange) <==>
              !p.negative && (|p.fractional| > 2 || Magnitude(p) * Pow10(2 - |p.fractional|) > 3518437208883199)
  {
    hide Normalize, WireNumber, MinorUnits, Pow10, Magnitude;
    DecimalIsRendered(d);
    if |p.fractional| <= 2 {
      MinorUnitsScale(p);
      if |p.integral| > 14 {
        LongWholesExceed(p);
      }
    }
  }
}
