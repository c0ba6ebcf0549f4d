/** Fixed-point decimal text with 18 fractional places, and the ledger totals kept in it. */
module Decimals {
  import opened Wrappers
  import opened Numerals

  const PLACES: nat := 18
  const WHOLE_DIGITS: nat := 24
  const SCALE: nat := 1_000_000_000_000_000_000

  predicate IsDigit(c: char) {
    '0' <= c <= '9'
  }

  predicate AllNumeric(s: string) {
    forall i | 0 <= i < |s| :: IsDigit(s[i])
  }

  function DigitOf(c: char): (d: nat)
    requires IsDigit(c)
    ensures d < 10
  {
    c as int - '0' as int
  }

  function CharOf(d: nat): (c: char)
    requires d < 10
    ensures IsDigit(c) && DigitOf(c) == d
  {
    ('0' as int + d) as char
  }

  function DigitsOf(s: string): (ds: seq<nat>)
    requires AllNumeric(s)
    ensures |ds| == |s| && AllDigits(ds, 10)
    ensures forall i | 0 <= i < |s| :: ds[i] == DigitOf(s[i])
  {
    seq(|s|, i requires 0 <= i < |s| => DigitOf(s[i]))
  }

  function TextOf(ds: seq<nat>): (s: string)
    requires AllDigits(ds, 10)
    ensures |s| == |ds| && AllNumeric(s) && DigitsOf(s) == ds
  {
    seq(|ds|, i requires 0 <= i < |ds| => CharOf(ds[i]))
  }

  /** Decimal text of a natural number, as `toString` prints it. */
  function NatText(v: nat): (s: string)
    ensures s != [] && AllNumeric(s)
  {
    if v == 0 then "0" else TextOf(Minimal(v, 10))
  }

  function TextValue(s: string): nat
    requires AllNumeric(s)
  {
    Value(DigitsOf(s), 10)
  }

  // ----------------------------------------------------------------- text shapes

  function ZeroText(n: nat): (s: string)
    ensures |s| == n && AllNumeric(s) && DigitsOf(s) == Zeros(n)
  {
    seq(n, _ => '0')
  }

  predicate IsWhole(w: string) {
    AllNumeric(w) && 1 <= |w| <= WHOLE_DIGITS && (w[0] == '0' ==> |w| == 1)
  }

  predicate IsFraction(f: string) {
    AllNumeric(f) && 1 <= |f| <= PLACES
  }

  /** Where the first point stands, or the length when there is none. */
  function PointAt(s: string): (p: nat)
    ensures p <= |s| && (forall i | 0 <= i < p :: s[i] != '.') && (p < |s| ==> s[p] == '.')
  {
    if s == [] || s[0] == '.' then 0 else PointAt(s[1..]) + 1
  }

  function WholePart(s: string): string {
    s[..PointAt(s)]
  }

  function FractionPart(s: string): string {
    if PointAt(s) < |s| then s[PointAt(s) + 1..] else ""
  }

  predicate IsAmount(s: string) {
    && IsWhole(WholePart(s))
    && (PointAt(s) < |s| ==> IsFraction(FractionPart(s)))
  }

  /** The text without its trailing zeros. */
  function Stripped(f: string): (r: string)
    ensures |r| <= |f| && r == f[..|r|]
    ensures forall i | |r| <= i < |f| :: f[i] == '0'
    ensures r != "" ==> r[|r| - 1] != '0'
  {
    if f == "" || f[|f| - 1] != '0' then f else Stripped(f[..|f| - 1])
  }

  /** Two parts put back together, with a point only when there is a fraction. */
  function Joined(w: string, f: string): string {
    if f == "" then w else w + "." + f
  }

  // ----------------------------------------------------------- the two conversions

  datatype AmountError = MalformedAmount

  function Units(s: string): Result<nat, AmountError> {
    if !IsAmount(s) then Err(MalformedAmount)
    else
      var f := FractionPart(s);
      Ok(TextValue(WholePart(s)) * SCALE + TextValue(f + ZeroText(PLACES - |f|)))
  }

  /** A number below the scale, printed over exactly 18 places. */
  function LeftPadded(r: nat): (s: string)
    requires r < SCALE
    ensures AllNumeric(s) && |s| == PLACES
  {
    FitsInPlaces(r);
    ZeroText(PLACES - |NatText(r)|) + NatText(r)
  }

  function FractionText(r: nat): string
    requires r < SCALE
  {
    Stripped(LeftPadded(r))
  }

  function Decimal(v: nat): string {
    Joined(NatText(v / SCALE), FractionText(v % SCALE))
  }

  lemma ScaleIsPower()
    ensures Pow(10, PLACES) == SCALE
  {
    assert Pow(10, 6) == 1_000_000;
    assert Pow(10, 12) == 1_000_000_000_000;
  }

  lemma FitsInPlaces(r: nat)
    requires r < SCALE
    ensures |NatText(r)| <= PLACES
  {
    ScaleIsPower();
    FitsInDigits(r, 10, PLACES);
  }

  // ------------------------------------------------------- printing, then parsing

  lemma TextValueOfNat(v: nat)
    ensures TextValue(NatText(v)) == v
  {
    if v > 0 {
      ValueOfMinimal(v, 10);
    } else {
      assert DigitsOf("0") == [0];
      assert Value([0], 10) == 0;
    }
  }

  lemma NatTextIsWhole(v: nat)
    ensures IsWhole(NatText(v)) <==> v < Pow(10, WHOLE_DIGITS)
  {
    FitsInDigits(v, 10, WHOLE_DIGITS);
    if v > 0 {
      var ds := Minimal(v, 10);
      assert NatText(v)[0] == CharOf(ds[0]);
    } else {
      PowMonotone(10, 0, WHOLE_DIGITS);
    }
  }

  lemma {:induction false} PointUnique(s: string, p: nat)
    requires p <= |s| && (forall i | 0 <= i < p :: s[i] != '.') && (p < |s| ==> s[p] == '.')
    ensures PointAt(s) == p
  {
  }

  lemma PartsOfJoined(w: string, f: string)
    requires AllNumeric(w)
    ensures WholePart(Joined(w, f)) == w && FractionPart(Joined(w, f)) == f
    ensures PointAt(Joined(w, f)) < |Joined(w, f)| <==> f != ""
  {
    PointUnique(Joined(w, f), |w|);
  }

  /** Padding to the right undoes the stripping, and padding to the left keeps the value. */
  lemma FractionRoundTrip(r: nat)
    requires r < SCALE
    ensures var f := FractionText(r);
      && AllNumeric(f) && |f| <= PLACES && (f != "" ==> f[|f| - 1] != '0')
      && TextValue(f + ZeroText(PLACES - |f|)) == r
  {
    hide Value, NatText, Stripped, LeftPadded;
    var padded := LeftPadded(r);
    var f := Stripped(padded);
    assert f + ZeroText(PLACES - |f|) == padded;
    ValueOfLeftPadded(r);
  }

  lemma ValueOfLeftPadded(r: nat)
    requires r < SCALE
    ensures TextValue(LeftPadded(r)) == r
  {
    hide Value, NatText;
    FitsInPlaces(r);
    var text, n := NatText(r), PLACES - |NatText(r)|;
    var ds := DigitsOf(LeftPadded(r));
    assert ds == Zeros(n) + DigitsOf(text);
    ValueSkipsZeros(ds, 10, n);
    assert ds[n..] == DigitsOf(text);
    TextValueOfNat(r);
  }

  /** The ledger reads back exactly what it prints, for every number its grammar can hold and no other. */
  lemma UnitsOfDecimal(v: nat)
    ensures v < Pow(10, WHOLE_DIGITS) * SCALE ==> Units(Decimal(v)) == Ok(v)
    ensures v >= Pow(10, WHOLE_DIGITS) * SCALE ==> Units(Decimal(v)).Err?
  {
    hide Pow, Stripped, PointAt, NatText, FractionText, TextValue, WholePart, FractionPart;
    var q, r := v / SCALE, v % SCALE;
    var w, f := NatText(q), FractionText(r);
    FractionRoundTrip(r);
    PartsOfJoined(w, f);
    NatTextIsWhole(q);
    TextValueOfNat(q);
    QuotientBelow(v, Pow(10, WHOLE_DIGITS));
  }

  lemma QuotientBelow(v: nat, p: nat)
    ensures v < p * SCALE <==> v / SCALE < p
    ensures v / SCALE * SCALE + v % SCALE == v
  {
  }

  // ------------------------------------------------------- parsing, then printing

  /** The unique shortest spelling of an amount: trailing zeros of the fraction dropped. */
  function Canonical(s: string): string {
    Joined(WholePart(s), Stripped(FractionPart(s)))
  }

  lemma NatTextOfWhole(w: string)
    requires IsWhole(w)
    ensures NatText(TextValue(w)) == w
  {
    var ds := DigitsOf(w);
    if w[0] == '0' {
      assert w == "0" && ds == [0];
      assert Value(ds, 10) == 0;
    } else {
      MinimalOfValue(ds, 10);
      ValuePositive(ds, 10);
      assert TextOf(ds) == w;
    }
  }

  lemma {:induction false} StrippedPadded(f: string, n: nat)
    ensures Stripped(f + ZeroText(n)) == Stripped(f)
    decreases n
  {
    if n == 0 {
      assert f + ZeroText(0) == f;
    } else {
      var g := f + ZeroText(n);
      assert g[..|g| - 1] == f + ZeroText(n - 1);
      StrippedPadded(f, n - 1);
    }
  }

  /** A text of exactly 18 digits is its own value, printed and padded on the left. */
  lemma {:induction false} PaddedText(g: string)
    requires AllNumeric(g) && |g| == PLACES
    ensures TextValue(g) < SCALE && FractionText(TextValue(g)) == Stripped(g)
  {
    hide Value, Pow, Stripped, LeftPadded;
    var v := TextValue(g);
    ScaleIsPower();
    ValueBound(DigitsOf(g), 10);
    ValueOfLeftPadded(v);
    SameValueSameDigits(DigitsOf(LeftPadded(v)), DigitsOf(g), 10);
    SameDigits(LeftPadded(v), g);
  }

  lemma SameDigits(a: string, b: string)
    requires AllNumeric(a) && AllNumeric(b) && DigitsOf(a) == DigitsOf(b)
    ensures a == b
  {
    forall i | 0 <= i < |a|
      ensures a[i] == b[i]
    {
      assert DigitsOf(a)[i] == DigitsOf(b)[i];
    }
  }

  lemma DecimalOfUnits(s: string)
    requires IsAmount(s)
    ensures Units(s).Ok? && Decimal(Units(s).value) == Canonical(s)
  {
    hide Pow, Stripped, PointAt, NatText, TextValue, FractionText, Decimal;
    var w, f := WholePart(s), FractionPart(s);
    var g := f + ZeroText(PLACES - |f|);
    PaddedText(g);
    StrippedPadded(f, PLACES - |f|);
    DecimalOfParts(TextValue(w), TextValue(g));
    NatTextOfWhole(w);
  }

  lemma DecimalOfParts(q: nat, r: nat)
    requires r < SCALE
    ensures Decimal(q * SCALE + r) == Joined(NatText(q), FractionText(r))
  {
    hide NatText, FractionText;
    DivModUnique(q, SCALE, r);
  }

  // ------------------------------------------------------------- exact comparison

  /** The rational number a text denotes: whole part plus fraction over a power of ten. */
  ghost function Denoted(s: string): real
    requires IsAmount(s)
  {
    var f := FractionPart(s);
    TextValue(WholePart(s)) as real + TextValue(f) as real / Pow(10, |f|) as real
  }

  lemma {:induction false} PowSplits(m: nat, n: nat)
    ensures Pow(10, m + n) == Pow(10, m) * Pow(10, n)
    decreases m
  {
    if m > 0 {
      PowSplits(m - 1, n);
      assert m + n - 1 == (m - 1) + n;
      MulRotate3(10, Pow(10, m - 1), Pow(10, n));
    }
  }

  lemma MulRotate3(a: nat, b: nat, c: nat)
    ensures a * (b * c) == (a * b) * c
  {
  }

  lemma FractionScaled(x: nat, p: nat, q: nat)
    requires p > 0 && p * q == SCALE
    ensures (x * q) as real == x as real / p as real * SCALE as real
  {
    assert x as real / p as real * (p * q) as real == (x as real / p as real * p as real) * q as real;
  }

  lemma UnitsAreExact(s: string)
    requires IsAmount(s)
    ensures Units(s).value as real == Denoted(s) * SCALE as real
  {
    hide Pow, PointAt, Value;
    var w, f := WholePart(s), FractionPart(s);
    var n := PLACES - |f|;
    assert DigitsOf(f + ZeroText(n)) == DigitsOf(f) + Zeros(n);
    ValueShifts(DigitsOf(f), 10, n);
    PowSplits(|f|, n);
    ScaleIsPower();
    FractionScaled(TextValue(f), Pow(10, |f|), Pow(10, n));
  }

  lemma ComparisonIsExact(a: string, b: string)
    requires IsAmount(a) && IsAmount(b)
    ensures Units(a).value <= Units(b).value <==> Denoted(a) <= Denoted(b)
    ensures Units(a).value == Units(b).value <==> Denoted(a) == Denoted(b)
  {
    UnitsAreExact(a);
    UnitsAreExact(b);
  }
}
