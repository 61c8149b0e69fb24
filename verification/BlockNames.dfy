/** Names of block files: an index printed with at least five digits and the suffix `.block`.
    The store finds its newest block by the byte order of the names. */
module BlockNames {

  const WIDTH: nat := 5
  const SUFFIX: string := ".block"

  function Digit(d: nat): (c: char)
    requires d < 10
    ensures '0' <= c <= '9' && c as int - '0' as int == d
  {
    '0' + d as char
  }

  /** Decimal digits of n, padded with zeros to the width; longer numbers are not cut. */
  function Decimal(n: nat, width: nat): string
    decreases n + width
  {
    if n == 0 && width == 0 then ""
    else Decimal(n / 10, if width == 0 then 0 else width - 1) + [Digit(n % 10)]
  }

  function Name(index: nat): string {
    Decimal(index, WIDTH) + SUFFIX
  }

  predicate IsDigit(c: char) {
    '0' <= c <= '9'
  }

  predicate AllDigits(s: string) {
    forall i :: 0 <= i < |s| ==> IsDigit(s[i])
  }

  function Value(s: string): nat
    requires AllDigits(s)
  {
    if s == "" then 0 else 10 * Value(s[..|s| - 1]) + (s[|s| - 1] as int - '0' as int)
  }

  /** One or more digits followed by the suffix, nothing else. */
  predicate IsBlockName(s: string) {
    |s| > |SUFFIX| && s[|s| - |SUFFIX|..] == SUFFIX && AllDigits(s[..|s| - |SUFFIX|])
  }

  function IndexOf(s: string): nat
    requires IsBlockName(s)
  {
    Value(s[..|s| - |SUFFIX|])
  }

  function Pow10(k: nat): (p: nat)
    ensures p >= 1
  {
    if k == 0 then 1 else 10 * Pow10(k - 1)
  }

  lemma {:induction false} Pow10Monotone(j: nat, k: nat)
    requires j <= k
    ensures Pow10(j) <= Pow10(k)
    decreases k
  {
    if j < k {
      Pow10Monotone(j, k - 1);
    }
  }

  /** Byte order of strings. */
  predicate Before(a: string, b: string) {
    b != "" && (a == "" || a[0] < b[0] || (a[0] == b[0] && Before(a[1..], b[1..])))
  }

  predicate AtMost(a: string, b: string) {
    a == b || Before(a, b)
  }

  lemma {:induction false} BeforeStrict(a: string, b: string)
    requires Before(a, b)
    ensures a != b && !Before(b, a)
    decreases |a|
  {
    if a != "" && a[0] == b[0] {
      BeforeStrict(a[1..], b[1..]);
    }
  }

  lemma {:induction false} BeforeTotal(a: string, b: string)
    ensures a == b || Before(a, b) || Before(b, a)
    decreases |a|
  {
    if a != "" && b != "" && a[0] == b[0] {
      assert a == [a[0]] + a[1..] && b == [b[0]] + b[1..];
      BeforeTotal(a[1..], b[1..]);
    }
  }

  lemma {:induction false} BeforeTransitive(a: string, b: string, c: string)
    requires Before(a, b) && Before(b, c)
    ensures Before(a, c)
    decreases |a|
  {
    if a != "" && a[0] == b[0] && b[0] == c[0] {
      BeforeTransitive(a[1..], b[1..], c[1..]);
    }
  }

  lemma {:induction false} BeforeCommonPrefix(p: string, s: string, t: string)
    requires Before(s, t)
    ensures Before(p + s, p + t)
    decreases |p|
  {
    if p == "" {
      assert p + s == s && p + t == t;
    } else {
      assert (p + s)[1..] == p[1..] + s && (p + t)[1..] == p[1..] + t;
      BeforeCommonPrefix(p[1..], s, t);
    }
  }

  // ------------------------------------------------------------ digit strings

  lemma SnocValue(t: string, c: char)
    requires AllDigits(t) && IsDigit(c)
    ensures AllDigits(t + [c]) && Value(t + [c]) == 10 * Value(t) + (c as int - '0' as int)
  {
    assert (t + [c])[..|t|] == t;
  }

  /** s spells n with at least `width` digits and no needless leading zero. */
  ghost predicate Spells(s: string, n: nat, width: nat) {
    && |s| >= width && AllDigits(s) && Value(s) == n && n < Pow10(|s|)
    && (|s| > width ==> n >= Pow10(|s| - 1))
  }

  lemma SpellsSnoc(t: string, q: nat, d: nat, width: nat)
    requires Spells(t, q, if width == 0 then 0 else width - 1) && d < 10 && (q > 0 || d > 0 || width > 0)
    ensures Spells(t + [Digit(d)], 10 * q + d, width)
  {
    SnocValue(t, Digit(d));
  }

  lemma {:induction false} DecimalShape(n: nat, width: nat)
    ensures Spells(Decimal(n, width), n, width)
    decreases n + width
  {
    if n != 0 || width != 0 {
      var w := if width == 0 then 0 else width - 1;
      DecimalShape(n / 10, w);
      SpellsSnoc(Decimal(n / 10, w), n / 10, n % 10, width);
    }
  }

  lemma {:induction false} ValueBound(s: string)
    requires AllDigits(s)
    ensures Value(s) < Pow10(|s|)
  {
    if s != "" {
      ValueBound(s[..|s| - 1]);
    }
  }

  lemma {:induction false} ValueInjective(a: string, b: string)
    requires AllDigits(a) && AllDigits(b) && |a| == |b| && Value(a) == Value(b)
    ensures a == b
  {
    if a != "" {
      var k := |a| - 1;
      ValueInjective(a[..k], b[..k]);
      assert a == a[..k] + [a[k]] && b == b[..k] + [b[k]];
    }
  }

  /** For equal lengths byte order is numeric order, whatever follows. */
  lemma {:induction false} SameLengthOrder(a: string, b: string, s: string, t: string)
    requires AllDigits(a) && AllDigits(b) && |a| == |b| && Value(a) < Value(b)
    ensures Before(a + s, b + t)
    decreases |a|
  {
    var k := |a| - 1;
    var a', b' := a[..k], b[..k];
    assert a + s == a' + ([a[k]] + s) && b + t == b' + ([b[k]] + t);
    if Value(a') < Value(b') {
      SameLengthOrder(a', b', [a[k]] + s, [b[k]] + t);
    } else {
      ValueInjective(a', b');
      BeforeCommonPrefix(a', [a[k]] + s, [b[k]] + t);
    }
  }

  /** A shorter number that the longer one does not start below comes first. */
  lemma ShorterFirst(a: string, b: string)
    requires AllDigits(a) && AllDigits(b) && |a| < |b| && Value(a) <= Value(b[..|a|])
    ensures Before(a + SUFFIX, b + SUFFIX)
  {
    var p, q := b[..|a|], b[|a|..];
    assert b + SUFFIX == p + (q + SUFFIX);
    if Value(a) < Value(p) {
      SameLengthOrder(a, p, SUFFIX, q + SUFFIX);
    } else {
      ValueInjective(a, p);
      assert IsDigit((q + SUFFIX)[0]);
      BeforeCommonPrefix(a, SUFFIX, q + SUFFIX);
    }
  }

  lemma LongerFirst(a: string, b: string)
    requires AllDigits(a) && AllDigits(b) && |a| < |b| && Value(a) > Value(b[..|a|])
    ensures Before(b + SUFFIX, a + SUFFIX)
  {
    var p, q := b[..|a|], b[|a|..];
    assert b + SUFFIX == p + (q + SUFFIX);
    SameLengthOrder(p, a, q + SUFFIX, SUFFIX);
  }

  // ------------------------------------------------------------------- names

  /** A name reads back as its index. */
  lemma NameRoundTrip(n: nat)
    ensures IsBlockName(Name(n)) && IndexOf(Name(n)) == n
  {
    DecimalShape(n, WIDTH);
    var s := Name(n);
    assert s[..|s| - |SUFFIX|] == Decimal(n, WIDTH) && s[|s| - |SUFFIX|..] == SUFFIX;
  }

  function Length(n: nat): nat {
    |Decimal(n, WIDTH)|
  }

  lemma FiveDigits(n: nat)
    ensures n < 100000 <==> Length(n) == WIDTH
  {
    DecimalShape(n, WIDTH);
    assert Pow10(5) == 100000;
    if Length(n) > 5 {
      Pow10Monotone(5, Length(n) - 1);
    }
  }

  lemma {:induction false} LengthMonotone(m: nat, n: nat)
    requires m <= n
    ensures Length(m) <= Length(n)
  {
    DecimalShape(m, WIDTH);
    DecimalShape(n, WIDTH);
    if Length(m) > Length(n) {
      Pow10Monotone(Length(n), Length(m) - 1);
    }
  }

  /** Every digit but the last is a nine. */
  predicate NinesButLast(n: nat) {
    n / 10 + 1 == Pow10(Length(n) - 1)
  }

  lemma {:induction false} AllNines(s: string, k: nat)
    requires AllDigits(s) && k <= |s| && Value(s) + 1 == Pow10(|s|)
    ensures Value(s[..k]) + 1 == Pow10(k)
    decreases |s|
  {
    if k == |s| {
      assert s[..k] == s;
    } else {
      var t := s[..|s| - 1];
      ValueBound(t);
      assert Value(t) + 1 == Pow10(|t|);
      AllNines(t, k);
      assert t[..k] == s[..k];
    }
  }

  /** Whether the name of index n comes last among the names of 1 to n. */
  ghost predicate LastName(n: nat) {
    forall m :: 1 <= m <= n ==> AtMost(Name(m), Name(n))
  }

  lemma LastAmongFive(n: nat)
    requires n < 100000
    ensures LastName(n)
  {
    FiveDigits(n);
    DecimalShape(n, WIDTH);
    forall m | 1 <= m < n ensures AtMost(Name(m), Name(n)) {
      FiveDigits(m);
      DecimalShape(m, WIDTH);
      SameLengthOrder(Decimal(m, WIDTH), Decimal(n, WIDTH), SUFFIX, SUFFIX);
    }
  }

  /** The digits of n without the last one. */
  lemma LeadingDigits(n: nat) returns (t: string)
    requires n >= 100000
    ensures var s := Decimal(n, WIDTH);
      && |s| > WIDTH && AllDigits(s) && Value(s) == n && Pow10(|s| - 1) <= n
      && t == s[..|s| - 1] && AllDigits(t) && Value(t) == n / 10 < Pow10(|t|)
  {
    var s := Decimal(n, WIDTH);
    DecimalShape(n, WIDTH);
    FiveDigits(n);
    t := s[..|s| - 1];
    assert t == Decimal(n / 10, WIDTH - 1);
    DecimalShape(n / 10, WIDTH - 1);
  }

  lemma NinesDominate(r: string, s: string)
    requires AllDigits(r) && AllDigits(s) && |r| < |s| && Value(s[..|s| - 1]) + 1 == Pow10(|s| - 1)
    ensures Before(r + SUFFIX, s + SUFFIX)
  {
    var t := s[..|s| - 1];
    AllNines(t, |r|);
    assert t[..|r|] == s[..|r|];
    ValueBound(r);
    ShorterFirst(r, s);
  }

  lemma NinesOvertake(r: string, s: string)
    requires AllDigits(r) && AllDigits(s) && |r| + 1 == |s|
    requires Value(r) + 1 == Pow10(|r|) && Value(s[..|r|]) + 1 != Pow10(|r|)
    ensures Before(s + SUFFIX, r + SUFFIX)
  {
    ValueBound(s[..|r|]);
    LongerFirst(r, s);
  }

  lemma BeforeNines(m: nat, n: nat)
    requires 1 <= m < n && n >= 100000 && NinesButLast(n)
    ensures AtMost(Name(m), Name(n))
  {
    var t := LeadingDigits(n);
    DecimalShape(m, WIDTH);
    LengthMonotone(m, n);
    if Length(m) == Length(n) {
      SameLengthOrder(Decimal(m, WIDTH), Decimal(n, WIDTH), SUFFIX, SUFFIX);
    } else {
      NinesDominate(Decimal(m, WIDTH), Decimal(n, WIDTH));
    }
  }

  lemma NotLast(m: nat, n: nat)
    requires 1 <= m <= n && Before(Name(n), Name(m))
    ensures !LastName(n)
  {
    BeforeStrict(Name(n), Name(m));
  }

  /** The index spelled with k nines. */
  lemma NinesLength(k: nat) returns (m: nat)
    requires k >= WIDTH
    ensures 1 <= m && m + 1 == Pow10(k)
    ensures var r := Decimal(m, WIDTH); |r| == k && AllDigits(r) && Value(r) == m
  {
    m := Pow10(k) - 1;
    DecimalShape(m, WIDTH);
    if Length(m) < k {
      Pow10Monotone(Length(m), k - 1);
    } else if Length(m) > k {
      Pow10Monotone(k, Length(m) - 1);
    }
  }

  lemma OvertakenByNines(n: nat)
    requires n >= 100000 && !NinesButLast(n)
    ensures !LastName(n)
  {
    var t := LeadingDigits(n);
    var m := NinesLength(|t|);
    NinesOvertake(Decimal(m, WIDTH), Decimal(n, WIDTH));
    NotLast(m, n);
  }

  /** The newest name sorts last up to 99999, and beyond only while every digit but the last is
      a nine. */
  lemma LastNameIff(n: nat)
    ensures LastName(n) <==> n < 100000 || NinesButLast(n)
  {
    if n < 100000 {
      LastAmongFive(n);
    } else if NinesButLast(n) {
      forall m | 1 <= m < n ensures AtMost(Name(m), Name(n)) {
        BeforeNines(m, n);
      }
    } else {
      OvertakenByNines(n);
    }
  }

  lemma NameInjective(m: nat, n: nat)
    requires Name(m) == Name(n)
    ensures m == n
  {
    NameRoundTrip(m);
    NameRoundTrip(n);
  }
}
