// decimal_t: the canonical text of a decimal amount.
module Decimal {
  import opened Wrappers
  import opened Numerals
  import opened Arith
  import opened Strings

  datatype Error = InvalidArgument | OutOfRange

  /** A numeral in ordinary JSON number syntax, cut at its sign and point. */
  datatype Parts = Parts(negative: bool, integral: string, fractional: string)

  ghost predicate Digits(p: Parts) {
    AllDigits(p.integral) && AllDigits(p.fractional) && p.integral != ""
  }

  /** An unsigned numeral cut at its point: None where normalize throws invalid_argument. */
  function Cut(body: string, negative: bool): (r: Option<Parts>)
    ensures r.Some? ==> AllDigits(r.value.integral) && AllDigits(r.value.fractional) && r.value.integral != ""
  {
    var point := Find(body, '.');
    var integral := body[..point];
    var fractional := if point == |body| then "" else body[point + 1..];
    if integral == "" || (point < |body| && fractional == "")
       || !AllDigits(integral) || !AllDigits(fractional) then None
    else Some(Parts(negative, integral, fractional))
  }

  /** The syntax check: one optional sign, digits, and an optional point with digits. */
  function Parse(value: string): (r: Option<Parts>)
    ensures r.Some? ==> AllDigits(r.value.integral) && AllDigits(r.value.fractional) && r.value.integral != ""
  {
    if value == "" then None else
    Cut(if value[0] == '-' || value[0] == '+' then value[1..] else value, value[0] == '-')
  }

  /** The integral digits from the first one that is not '0'; "0" if there is none. */
  function StripLeading(s: string): string {
    if s == "" then "0" else if s[0] == '0' then StripLeading(s[1..]) else s
  }

  function StripTrailing(s: string): string {
    if s != "" && s[|s| - 1] == '0' then StripTrailing(s[..|s| - 1]) else s
  }

  predicate IsZero(p: Parts) {
    p.integral == "0" && p.fractional == ""
  }

  function Reduce(p: Parts): Parts {
    var q := Parts(p.negative, StripLeading(p.integral), StripTrailing(p.fractional));
    q.(negative := p.negative && !IsZero(q))
  }

  function Render(p: Parts): string {
    (if p.negative then "-" else "") + p.integral
    + (if p.fractional == "" then "" else "." + p.fractional)
  }

  predicate InRange(p: Parts) {
    (if p.integral == "0" then 0 else |p.integral|) + |p.fractional| <= 29 && |p.fractional| <= 28
  }

  /** What normalize returns or throws. */
  function Normalize(value: string): Result<string, Error> {
    match Parse(value)
    case None => Err(InvalidArgument)
    case Some(p) =>
      var q := Reduce(p);
      if InRange(q) then Ok(Render(q)) else Err(OutOfRange)
  }

  /** The source's own loops on the digits: a search for the first non-zero digit, and
      trailing zeros popped one at a time. */
  method NormalizeParts(p: Parts) returns (r: Result<string, Error>)
    requires p.integral != ""
    ensures r == if InRange(Reduce(p)) then Ok(Render(Reduce(p))) else Err(OutOfRange)
  {
    var negative, integral, fractional := p.negative, p.integral, p.fractional;
    var first := 0;
    while first < |integral| && integral[first] == '0'
      invariant first <= |integral|
      invariant StripLeading(integral[first..]) == StripLeading(p.integral)
    {
      assert integral[first..][1..] == integral[first + 1..];
      first := first + 1;
    }
    integral := if first == |integral| then "0" else integral[first..];
    while fractional != "" && fractional[|fractional| - 1] == '0'
      invariant StripTrailing(fractional) == StripTrailing(p.fractional)
      decreases |fractional|
    {
      fractional := fractional[..|fractional| - 1];
    }
    assert integral == Reduce(p).integral && fractional == Reduce(p).fractional;
    var significant := (if integral == "0" then 0 else |integral|) + |fractional|;
    if significant > 29 || |fractional| > 28 {
      return Err(OutOfRange);
    }
    if integral == "0" && fractional == "" {
      negative := false;
    }
    r := Ok(Render(Parts(negative, integral, fractional)));
  }

  method NormalizeText(value: string) returns (r: Result<string, Error>)
    ensures r == Normalize(value)
  {
    hide StripLeading, StripTrailing, Reduce, Render, InRange, Cut;
    if value == "" {
      return Err(InvalidArgument);
    }
    var negative := false;
    var rest := value;
    if rest[0] == '-' || rest[0] == '+' {
      negative := rest[0] == '-';
      rest := rest[1..];
    }
    var parts := CutAtPoint(rest, negative);
    if parts == None {
      return Err(InvalidArgument);
    }
    r := NormalizeParts(parts.value);
  }

  /** The digits before and after the point; None when they are not digits or missing. */
  method CutAtPoint(body: string, negative: bool) returns (parts: Option<Parts>)
    ensures parts == Cut(body, negative)
  {
    var point := Find(body, '.');
    var integral := body[..point];
    var fractional := if point == |body| then "" else body[point + 1..];
    if integral == "" || (point < |body| && fractional == "")
       || !AllDigits(integral) || !AllDigits(fractional) {
      return None;
    }
    parts := Some(Parts(negative, integral, fractional));
  }

  // ---- The number a numeral denotes -------------------------------------------------

  ghost function Magnitude(p: Parts): nat
    requires Digits(p)
  {
    NatOf(p.integral + p.fractional)
  }

  /** The numeral p denotes Mantissa(p) / 10^|p.fractional|. */
  ghost function Mantissa(p: Parts): int
    requires Digits(p)
  {
    if p.negative then -(Magnitude(p) as int) else Magnitude(p)
  }

  /** Both numerals denote the same rational number (compared by cross-multiplication). */
  ghost predicate SameNumber(p: Parts, q: Parts)
    requires Digits(p) && Digits(q)
  {
    Mantissa(p) * Pow10(|q.fractional|) == Mantissa(q) * Pow10(|p.fractional|)
  }

  /** The one way normalize writes each number. */
  ghost predicate Canonical(p: Parts) {
    && Digits(p)
    && (|p.integral| == 1 || p.integral[0] != '0')
    && (p.fractional == "" || p.fractional[|p.fractional| - 1] != '0')
    && (p.negative ==> !IsZero(p))
  }

  lemma {:induction false} StripLeadingKeeps(s: string)
    requires AllDigits(s)
    ensures AllDigits(StripLeading(s)) && StripLeading(s) != ""
    ensures NatOf(StripLeading(s)) == NatOf(s)
    ensures |StripLeading(s)| == 1 || StripLeading(s)[0] != '0'
    ensures s != "" && (|s| == 1 || s[0] != '0') ==> StripLeading(s) == s
  {
    if s == "" {
      assert "0"[..0] == "";
    } else if s[0] == '0' {
      StripLeadingKeeps(s[1..]);
      assert s == "0" + s[1..];
      NatOfConcat("0", s[1..]);
      assert "0"[..0] == "";
    }
  }

  lemma {:induction false} StripTrailingKeeps(s: string)
    requires AllDigits(s)
    ensures AllDigits(StripTrailing(s)) && |StripTrailing(s)| <= |s|
    ensures NatOf(s) == NatOf(StripTrailing(s)) * Pow10(|s| - |StripTrailing(s)|)
    ensures StripTrailing(s) == "" || StripTrailing(s)[|StripTrailing(s)| - 1] != '0'
  {
    if s != "" && s[|s| - 1] == '0' {
      var init := s[..|s| - 1];
      StripTrailingKeeps(init);
      MulTen(NatOf(StripTrailing(init)), Pow10(|init| - |StripTrailing(init)|));
    }
  }

  /** Reducing changes the spelling and not the number. */
  lemma ReduceKeepsMagnitude(p: Parts)
    requires Digits(p)
    ensures Digits(Reduce(p))
    ensures Magnitude(p) * Pow10(|Reduce(p).fractional|) == Magnitude(Reduce(p)) * Pow10(|p.fractional|)
  {
    var q := Reduce(p);
    StripLeadingKeeps(p.integral);
    StripTrailingKeeps(p.fractional);
    NatOfConcat(p.integral, p.fractional);
    NatOfConcat(q.integral, q.fractional);
    var g := |p.fractional| - |q.fractional|;
    Pow10Add(|q.fractional|, g);
    ScaleUp(NatOf(p.integral), NatOf(q.fractional), Pow10(|q.fractional|), Pow10(g));
  }

  lemma ScaleUp(i: int, f: int, q: int, g: int)
    ensures (i * (q * g) + f * g) * q == (i * q + f) * (q * g)
  {
    Associate(i, q, g);
    Distribute(i * q, f, g);
    Associate(i * q + f, g, q);
  }

  lemma ReduceKeepsNumber(p: Parts)
    requires Digits(p)
    ensures Canonical(Reduce(p)) && SameNumber(p, Reduce(p))
  {
    var q := Reduce(p);
    StripLeadingKeeps(p.integral);
    StripTrailingKeeps(p.fractional);
    ReduceKeepsMagnitude(p);
    Signed(Magnitude(p), Pow10(|q.fractional|));
    Signed(Magnitude(q), Pow10(|p.fractional|));
    if IsZero(q) {
      assert "0"[..0] == "" && q.integral + q.fractional == "0";
      assert Magnitude(q) == 0;
      ProductZero(Magnitude(p), Pow10(|q.fractional|));
    }
  }

  lemma Signed(m: int, p: int)
    ensures (-m) * p == -(m * p)
  {
  }

  /** Fractions of canonical numerals for one non-negative number agree digit for digit. */
  lemma CanonicalDigits(p: Parts, q: Parts)
    requires Canonical(p) && Canonical(q) && |p.fractional| <= |q.fractional|
    requires Magnitude(p) * Pow10(|q.fractional|) == Magnitude(q) * Pow10(|p.fractional|)
    ensures p.integral == q.integral && p.fractional == q.fractional
  {
    hide NatOf, Pow10, AllDigits;
    var g := |q.fractional| - |p.fractional|;
    Pow10Add(|p.fractional|, g);
    NatOfConcat(p.integral, p.fractional);
    NatOfConcat(q.integral, q.fractional);
    NatOfBound(p.fractional);
    NatOfBound(q.fractional);
    ScaledDigits(NatOf(p.integral), NatOf(p.fractional), NatOf(q.integral), NatOf(q.fractional),
                 Pow10(|p.fractional|), Pow10(g));
    LastDigitNotZero(q.fractional, NatOf(p.fractional), g);
    Pow10Zero();
    SameLengthInjective(p.fractional, q.fractional);
    ToTextIsOnlyNumeral(p.integral);
    ToTextIsOnlyNumeral(q.integral);
  }

  lemma Pow10Zero()
    ensures Pow10(0) == 1
  {
  }

  lemma ScaledDigits(i: int, f: int, j: int, k: int, p: int, g: int)
    requires 0 <= f < p && g > 0 && 0 <= k < p * g
    requires (i * p + f) * (p * g) == (j * (p * g) + k) * p
    ensures i == j && f * g == k
  {
    Associate(i * p + f, g, p);
    CancelFactor((i * p + f) * g, j * (p * g) + k, p);
    Distribute(i * p, f, g);
    Associate(i, p, g);
    SmallerTimes(f, p, g);
    DigitsUnique(i, f * g, j, k, p * g);
  }

  /** A fraction without trailing zeros is no multiple of a positive power of ten. */
  lemma LastDigitNotZero(s: string, f: nat, g: nat)
    requires AllDigits(s) && |s| >= g && NatOf(s) == f * Pow10(g)
    requires s == "" || s[|s| - 1] != '0'
    ensures g == 0
  {
    if g > 0 {
      MulTen(f, Pow10(g - 1));
      NoTens(f * Pow10(g - 1), NatOf(s[..|s| - 1]), DigitValue(s[|s| - 1]));
    }
  }

  lemma NoTens(x: int, y: int, last: nat)
    requires x * 10 == y * 10 + last && last < 10
    ensures last == 0
  {
  }

  lemma MagnitudeZero(p: Parts)
    requires Canonical(p) && Magnitude(p) == 0
    ensures IsZero(p)
  {
    NatOfConcat(p.integral, p.fractional);
    ProductZero(NatOf(p.integral), Pow10(|p.fractional|));
    ToTextIsOnlyNumeral(p.integral);
    LastDigitNotZero(p.fractional, 0, |p.fractional|);
  }

  /** Equal signed products by positive numbers have equal magnitudes, and are zero when the signs
      differ. */
  lemma SignedProducts(s: bool, m: int, t: bool, n: int, a: int, b: int)
    requires a > 0 && b > 0 && m >= 0 && n >= 0
    requires (if s then -m else m) * a == (if t then -n else n) * b
    ensures m * a == n * b
    ensures s != t ==> m == 0 && n == 0
  {
    Signed(m, a);
    Signed(n, b);
    assert m * a >= 0 && n * b >= 0;
    if s != t {
      ProductZero(m, a);
      ProductZero(n, b);
    }
  }

  lemma SignsAgree(p: Parts, q: Parts)
    requires Canonical(p) && Canonical(q) && SameNumber(p, q)
    ensures p.negative == q.negative
    ensures Magnitude(p) * Pow10(|q.fractional|) == Magnitude(q) * Pow10(|p.fractional|)
  {
    hide Magnitude, Pow10, Digits, IsZero;
    SignedProducts(p.negative, Magnitude(p), q.negative, Magnitude(q), Pow10(|q.fractional|), Pow10(|p.fractional|));
    if p.negative != q.negative {
      MagnitudeZero(p);
      MagnitudeZero(q);
    }
  }

  /** One canonical numeral per number. */
  lemma CanonicalUnique(p: Parts, q: Parts)
    requires Canonical(p) && Canonical(q)
    ensures SameNumber(p, q) <==> p == q
  {
    if SameNumber(p, q) {
      SignsAgree(p, q);
      if |p.fractional| <= |q.fractional| {
        CanonicalDigits(p, q);
      } else {
        CanonicalDigits(q, p);
      }
    }
  }

  lemma SameNumberTransitive(p: Parts, q: Parts, r: Parts)
    requires Digits(p) && Digits(q) && Digits(r)
    requires SameNumber(p, q) && SameNumber(q, r)
    ensures SameNumber(p, r)
  {
    CrossTransitive(Mantissa(p), Mantissa(q), Mantissa(r),
                    Pow10(|p.fractional|), Pow10(|q.fractional|), Pow10(|r.fractional|));
  }

  lemma CrossTransitive(m: int, n: int, k: int, a: int, b: int, c: int)
    requires a > 0 && b > 0 && c > 0
    requires m * b == n * a && n * c == k * b
    ensures m * c == k * a
  {
    calc {
      (m * c) * b;
      { Associate(m, c, b); Associate(m, b, c); }
      (n * a) * c;
      { Associate(n, a, c); }
      (k * b) * a;
      { Associate(k, b, a); }
      (k * a) * b;
    }
    CancelFactor(m * c, k * a, b);
  }

  lemma CutReadsBack(p: Parts)
    requires Digits(p)
    ensures var body := p.integral + (if p.fractional == "" then "" else "." + p.fractional);
            Cut(body, p.negative) == Some(p) && body[0] == p.integral[0] && IsDigit(body[0])
  {
    var tail := if p.fractional == "" then "" else "." + p.fractional;
    var body := p.integral + tail;
    FindSkips(p.integral, tail, '.');
    assert body[..|p.integral|] == p.integral;
    assert tail != "" ==> body[|p.integral| + 1..] == p.fractional;
    assert IsDigit(p.integral[0]);
  }

  /** What normalize writes reads back as the same parts. */
  lemma RenderReadsBack(p: Parts)
    requires Digits(p)
    ensures Parse(Render(p)) == Some(p)
  {
    hide Cut, Find;
    var body := p.integral + (if p.fractional == "" then "" else "." + p.fractional);
    CutReadsBack(p);
    if p.negative {
      assert Render(p) == "-" + body;
      assert Render(p)[1..] == body;
    } else {
      assert Render(p) == body;
    }
  }

  lemma CanonicalReducesToItself(p: Parts)
    requires Canonical(p)
    ensures Reduce(p) == p
  {
    StripLeadingKeeps(p.integral);
  }

  /** normalize is idempotent. */
  lemma NormalizeIdempotent(value: string)
    requires Normalize(value).Ok?
    ensures Normalize(Normalize(value).value) == Normalize(value)
  {
    var q := Reduce(Parse(value).value);
    ReduceKeepsNumber(Parse(value).value);
    RenderReadsBack(q);
    CanonicalReducesToItself(q);
  }

  /** normalize is canonical: equality of decimal_t values is equality of numbers. */
  lemma NormalizeCanonical(a: string, b: string)
    requires Normalize(a).Ok? && Normalize(b).Ok?
    ensures Normalize(a) == Normalize(b) <==> SameNumber(Parse(a).value, Parse(b).value)
  {
    var p, q := Parse(a).value, Parse(b).value;
    ReduceKeepsNumber(p);
    ReduceKeepsNumber(q);
    RenderReadsBack(Reduce(p));
    RenderReadsBack(Reduce(q));
    CanonicalUnique(Reduce(p), Reduce(q));
    if SameNumber(p, q) {
      SameNumberTransitive(Reduce(p), p, q);
      SameNumberTransitive(Reduce(p), q, Reduce(q));
    }
    if Reduce(p) == Reduce(q) {
      SameNumberTransitive(p, Reduce(p), q);
    }
  }

  // ---- The grammar and the range ------------------------------------------------------

  function Unsigned(p: Parts): string {
    p.integral + if p.fractional == "" then "" else "." + p.fractional
  }

  /** An optional sign, at least one digit, and optionally a point with at least one digit. */
  ghost predicate Spells(value: string, p: Parts) {
    && Digits(p)
    && (value == (if p.negative then "-" else "") + Unsigned(p) || (!p.negative && value == "+" + Unsigned(p)))
  }

  lemma CutSpells(body: string, negative: bool, p: Parts)
    requires Cut(body, negative) == Some(p)
    ensures body == Unsigned(p) && Digits(p) && p.negative == negative
  {
    var point := Find(body, '.');
    assert point < |body| ==> body == body[..point] + ("." + body[point + 1..]);
  }

  /** The syntax check accepts exactly the numerals of that grammar, cut at their sign and point. */
  lemma ParseExactly(value: string, p: Parts)
    ensures Parse(value) == Some(p) <==> Spells(value, p)
  {
    hide Cut, Find;
    if Parse(value) == Some(p) {
      var signed := value[0] == '-' || value[0] == '+';
      CutSpells(if signed then value[1..] else value, value[0] == '-', p);
      assert signed ==> value == [value[0]] + value[1..];
    }
    if Spells(value, p) {
      CutReadsBack(p);
      var body := Unsigned(p);
      assert ("-" + body)[1..] == body && ("+" + body)[1..] == body && "" + body == body;
    }
  }

  /** The digits that count, and those behind the point, are as many as a decimal holds. */
  predicate Holds(q: Parts) {
    |q.fractional| <= 28 && (if q.integral == "0" then 0 else |q.integral|) + |q.fractional| <= 29
  }

  /** normalize writes the canonical numeral of the number that was spelled, and is out of range exactly when
      that has more than 28 digits behind the point or more than 29 that count. */
  lemma NormalizeMeans(value: string, p: Parts) returns (q: Parts)
    requires Spells(value, p)
    ensures Canonical(q) && SameNumber(p, q)
    ensures Normalize(value) == if Holds(q) then Ok((if q.negative then "-" else "") + Unsigned(q)) else Err(OutOfRange)
  {
    hide Parse, Reduce, Spells, Cut;
    ParseExactly(value, p);
    q := Reduce(p);
    ReduceKeepsNumber(p);
    assert Render(q) == (if q.negative then "-" else "") + Unsigned(q);
  }

  /** It refuses as invalid exactly what spells nothing. */
  lemma InvalidExactly(value: string)
    ensures Normalize(value) == Err(InvalidArgument) <==> forall p :: !Spells(value, p)
  {
    hide Parse, Reduce, Spells, Cut;
    forall p: Parts ensures Parse(value) == Some(p) <==> Spells(value, p) {
      ParseExactly(value, p);
    }
    if Parse(value).Some? {
      assert Spells(value, Parse(value).value);
    }
  }
}
