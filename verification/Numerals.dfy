/** Positional numerals, most significant digit first, in any base from 2 up. */
module Numerals {

  ghost predicate AllDigits(ds: seq<nat>, base: nat) {
    forall i | 0 <= i < |ds| :: ds[i] < base
  }

  /** The number a digit sequence denotes. Leading zeros are allowed. */
  function Value(ds: seq<nat>, base: nat): nat {
    if ds == [] then 0 else Value(ds[..|ds| - 1], base) * base + ds[|ds| - 1]
  }

  /** The digits of `v` without leading zeros: none at all for zero. */
  function Minimal(v: nat, base: nat): (ds: seq<nat>)
    requires base >= 2
    ensures AllDigits(ds, base)
    ensures ds == [] <==> v == 0
    ensures ds != [] ==> ds[0] != 0
  {
    if v == 0 then []
    else
      QuotientSmaller(v, base);
      Minimal(v / base, base) + [v % base]
  }

  lemma {:induction false} MinimalStep(v: nat, base: nat, done: seq<nat>)
    requires base >= 2 && v > 0
    ensures Minimal(v, base) + done == Minimal(v / base, base) + ([v % base] + done)
  {
    var q, d := Minimal(v / base, base), [v % base];
    assert Minimal(v, base) == q + d;
    assert (q + d) + done == q + (d + done);
  }

  lemma QuotientSmaller(v: nat, base: nat)
    requires base >= 2 && v > 0
    ensures 0 <= v / base < v
  {
  }

  lemma MulMonotone(a: nat, b: nat, c: nat)
    requires a <= b
    ensures a * c <= b * c
  {
  }

  lemma DivModSplit(v: nat, base: nat)
    requires base >= 2
    ensures (v / base) * base + v % base == v
  {
  }

  lemma DivModUnique(q: nat, base: nat, r: nat)
    requires r < base
    ensures (q * base + r) / base == q && (q * base + r) % base == r
  {
    var n := q * base + r;
    var q1, r1 := n / base, n % base;
    assert q1 * base + r1 == q * base + r;
    assert (q1 - q) * base == r - r1;
    if q1 > q {
      MulMonotone(1, q1 - q, base);
    } else if q1 < q {
      MulMonotone(1, q - q1, base);
    }
  }

  lemma {:induction false} ValueOfMinimal(v: nat, base: nat)
    requires base >= 2
    ensures Value(Minimal(v, base), base) == v
    decreases v
  {
    if v > 0 {
      QuotientSmaller(v, base);
      var q, r := v / base, v % base;
      DivModSplit(v, base);
      ValueOfMinimal(q, base);
      ValueSnoc(Minimal(q, base), r, base);
    }
  }

  lemma {:induction false} ValueSnoc(ds: seq<nat>, d: nat, base: nat)
    ensures Value(ds + [d], base) == Value(ds, base) * base + d
  {
    assert (ds + [d])[..|ds|] == ds;
  }

  lemma {:induction false} ValuePositive(ds: seq<nat>, base: nat)
    requires base >= 2 && ds != [] && ds[0] != 0
    ensures Value(ds, base) > 0
    decreases |ds|
  {
    if |ds| > 1 {
      ValuePositive(ds[..|ds| - 1], base);
      MulMonotone(1, Value(ds[..|ds| - 1], base), base);
    }
  }

  /** A numeral with no leading zero is the minimal numeral of its value. */
  lemma {:induction false} MinimalOfValue(ds: seq<nat>, base: nat)
    requires base >= 2 && AllDigits(ds, base)
    requires ds != [] ==> ds[0] != 0
    ensures Minimal(Value(ds, base), base) == ds
    decreases |ds|
  {
    if ds != [] {
      var front, last := ds[..|ds| - 1], ds[|ds| - 1];
      ValuePositive(ds, base);
      MinimalOfValue(front, base);
      DivModUnique(Value(front, base), base, last);
      assert ds == front + [last];
    }
  }

  function Zeros(n: nat): (s: seq<nat>)
    ensures |s| == n && forall i | 0 <= i < n :: s[i] == 0
  {
    seq(n, _ => 0)
  }

  /** How many leading entries equal `zero`. */
  function Leading<T(==)>(s: seq<T>, zero: T): (n: nat)
    ensures n <= |s|
    ensures forall i | 0 <= i < n :: s[i] == zero
    ensures n < |s| ==> s[n] != zero
  {
    if s == [] || s[0] != zero then 0 else
      var n := Leading(s[1..], zero);
      assert forall i | 0 <= i < n :: s[1..][i] == s[i + 1];
      n + 1
  }

  lemma {:induction false} LeadingUnique<T>(s: seq<T>, zero: T, n: nat)
    requires n <= |s| && (forall i | 0 <= i < n :: s[i] == zero) && (n < |s| ==> s[n] != zero)
    ensures Leading(s, zero) == n
  {
  }

  lemma {:induction false} ValueSkipsZeros(ds: seq<nat>, base: nat, n: nat)
    requires base >= 2 && n <= |ds| && forall i | 0 <= i < n :: ds[i] == 0
    ensures Value(ds, base) == Value(ds[n..], base)
    decreases |ds|
  {
    if |ds| > n {
      ValueSkipsZeros(ds[..|ds| - 1], base, n);
      assert ds[n..][..|ds[n..]| - 1] == ds[..|ds| - 1][n..];
    } else if ds != [] {
      var front := ds[..|ds| - 1];
      ValueSkipsZeros(front, base, n - 1);
      assert front[n - 1..] == [] == ds[n..];
    }
  }

  function Pow(base: nat, n: nat): (p: nat)
    ensures base > 0 ==> p > 0
  {
    if n == 0 then 1
    else
      MulPositive(base, Pow(base, n - 1));
      base * Pow(base, n - 1)
  }

  lemma MulPositive(a: nat, b: nat)
    ensures a * b >= 0
    ensures a > 0 && b > 0 ==> a * b > 0
  {
  }

  lemma {:induction false} ValueBound(ds: seq<nat>, base: nat)
    requires base >= 2 && AllDigits(ds, base)
    ensures Value(ds, base) < Pow(base, |ds|)
    decreases |ds|
  {
    if ds != [] {
      var front := ds[..|ds| - 1];
      ValueBound(front, base);
      DigitBound(Value(front, base), ds[|ds| - 1], Pow(base, |front|), base);
    }
  }

  lemma DigitBound(v: nat, d: nat, p: nat, base: nat)
    requires v < p && d < base
    ensures v * base + d < base * p
  {
    MulMonotone(v + 1, p, base);
  }

  lemma {:induction false} ValueAtLeast(ds: seq<nat>, base: nat)
    requires base >= 2 && ds != [] && ds[0] != 0
    ensures Value(ds, base) >= Pow(base, |ds| - 1)
    decreases |ds|
  {
    if |ds| > 1 {
      var front := ds[..|ds| - 1];
      ValueAtLeast(front, base);
      MulMonotone(Pow(base, |front| - 1), Value(front, base), base);
    }
  }

  lemma {:induction false} PowMonotone(base: nat, m: nat, n: nat)
    requires base >= 1 && m <= n
    ensures Pow(base, m) <= Pow(base, n)
    decreases n
  {
    if m < n {
      PowMonotone(base, m, n - 1);
      MulMonotone(1, base, Pow(base, n - 1));
    }
  }

  /** A number fits in `n` digits exactly when it is below the `n`-th power of the base. */
  lemma {:induction false} FitsInDigits(v: nat, base: nat, n: nat)
    requires base >= 2
    ensures |Minimal(v, base)| <= n <==> v < Pow(base, n)
  {
    hide Value, Pow;
    var ds := Minimal(v, base);
    ValueOfMinimal(v, base);
    ValueBound(ds, base);
    if |ds| <= n {
      PowMonotone(base, |ds|, n);
    } else {
      ValueAtLeast(ds, base);
      PowMonotone(base, n, |ds| - 1);
    }
  }

  /** Two numerals of one length and one value are the same numeral. */
  lemma {:induction false} SameValueSameDigits(a: seq<nat>, b: seq<nat>, base: nat)
    requires base >= 2 && |a| == |b| && AllDigits(a, base) && AllDigits(b, base)
    requires Value(a, base) == Value(b, base)
    ensures a == b
    decreases |a|
  {
    if a != [] {
      var n := |a| - 1;
      DivModUnique(Value(a[..n], base), base, a[n]);
      DivModUnique(Value(b[..n], base), base, b[n]);
      SameValueSameDigits(a[..n], b[..n], base);
      assert a == a[..n] + [a[n]] && b == b[..n] + [b[n]];
    }
  }

  /** Appending zeros multiplies by a power of the base. */
  lemma {:induction false} ValueShifts(ds: seq<nat>, base: nat, n: nat)
    requires base >= 2
    ensures Value(ds + Zeros(n), base) == Value(ds, base) * Pow(base, n)
    decreases n
  {
    if n == 0 {
      assert ds + Zeros(0) == ds;
    } else {
      ValueShifts(ds, base, n - 1);
      assert ds + Zeros(n) == (ds + Zeros(n - 1)) + [0];
      ValueSnoc(ds + Zeros(n - 1), 0, base);
      MulRotate(Value(ds, base), Pow(base, n - 1), base);
    }
  }

  lemma MulRotate(a: nat, b: nat, c: nat)
    ensures a * b * c == a * (c * b)
  {
  }
}
