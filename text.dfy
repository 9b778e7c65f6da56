/** The bits of Python text formatting the simulator relies on: str(n) for a
    non-negative int, the "{n:03d}" zero-padded format, and Python's
    ordering of strings (code point by code point). */
module Text {

  predicate IsDigit(c: char) { '0' <= c <= '9' }

  predicate AllDigits(s: string) { forall i :: 0 <= i < |s| ==> IsDigit(s[i]) }

  /** The decimal digit character for d. */
  function Digit(d: nat): (c: char)
    requires d < 10
    ensures IsDigit(c) && c as int - '0' as int == d
  {
    ('0' as int + d) as char
  }

  /** Python's str(n) for a non-negative integer. */
  function DecimalString(n: nat): (s: string)
    ensures |s| >= 1 && AllDigits(s)
    ensures |s| == 1 <==> n < 10
    ensures n >= 10 ==> s[0] != '0'
  {
    if n < 10 then [Digit(n)] else DecimalString(n / 10) + [Digit(n % 10)]
  }

  /** The number a string of decimal digits denotes, most significant digit first. */
  function DigitsValue(s: string): nat
    requires AllDigits(s)
  {
    if s == [] then 0 else DigitsValue(s[..|s| - 1]) * 10 + (s[|s| - 1] as int - '0' as int)
  }

  /** DigitsValue undoes DecimalString: str(n) reads back as n. */
  lemma {:induction false} DecimalStringRoundTrip(n: nat)
    ensures DigitsValue(DecimalString(n)) == n
  {
    if n >= 10 {
      var s := DecimalString(n);
      assert s[..|s| - 1] == DecimalString(n / 10);
      DecimalStringRoundTrip(n / 10);
    }
  }

  /** Python's f"{n:03d}" for n >= 0: str(n), left-padded with zeros to width 3. */
  function ZeroPad3(n: nat): (s: string)
  {
    var d := DecimalString(n);
    if |d| >= 3 then d else seq(3 - |d|, _ => '0') + d
  }

  /** Below 1000 the padded form is exactly three digits: hundreds, tens, units. */
  lemma ZeroPad3Digits(n: nat)
    requires n < 1000
    ensures ZeroPad3(n) == [Digit(n / 100), Digit(n / 10 % 10), Digit(n % 10)]
  {
    if n < 10 {
    } else if n < 100 {
      assert DecimalString(n) == [Digit(n / 10), Digit(n % 10)];
    } else {
      assert n / 10 / 10 == n / 100;
      assert DecimalString(n / 10) == [Digit(n / 100), Digit(n / 10 % 10)];
      assert DecimalString(n) == [Digit(n / 100), Digit(n / 10 % 10), Digit(n % 10)];
    }
  }

  /** Python's a < b on strings: the first differing character decides, and a
      proper prefix is smaller. */
  predicate LexLess(a: string, b: string)
  {
    |b| > 0 && (|a| == 0 || a[0] < b[0] || (a[0] == b[0] && LexLess(a[1..], b[1..])))
  }

  /** A common prefix does not change the order of two strings. */
  lemma {:induction false} LexLessCommonPrefix(p: string, a: string, b: string)
    ensures LexLess(p + a, p + b) <==> LexLess(a, b)
  {
    if p != [] {
      assert (p + a)[0] == p[0] == (p + b)[0];
      assert (p + a)[1..] == p[1..] + a;
      assert (p + b)[1..] == p[1..] + b;
      LexLessCommonPrefix(p[1..], a, b);
    } else {
      assert p + a == a && p + b == b;
    }
  }

  /** A number below 1000 is its hundreds, tens and units digits. */
  lemma ThreeDigits(n: nat)
    requires n < 1000
    ensures n / 100 < 10 && n / 10 % 10 < 10 && n % 10 < 10
    ensures n == 100 * (n / 100) + 10 * (n / 10 % 10) + n % 10
  {
    assert n / 10 / 10 == n / 100;
  }

  /** Below 1000, the zero-padded forms are ordered like the numbers. */
  lemma ZeroPad3Ordered(i: nat, j: nat)
    requires i < j < 1000
    ensures LexLess(ZeroPad3(i), ZeroPad3(j))
  {
    ZeroPad3Digits(i);
    ZeroPad3Digits(j);
    ThreeDigits(i);
    ThreeDigits(j);
    var hi, ti, ui := i / 100, i / 10 % 10, i % 10;
    var hj, tj, uj := j / 100, j / 10 % 10, j % 10;
    var a, b := [Digit(hi), Digit(ti), Digit(ui)], [Digit(hj), Digit(tj), Digit(uj)];
    assert ZeroPad3(i) == a && ZeroPad3(j) == b;
    if hi == hj {
      if ti == tj {
        assert ui < uj;
        assert a[1..][1..] == [Digit(ui)] && b[1..][1..] == [Digit(uj)];
        assert LexLess(a[1..][1..], b[1..][1..]);
      } else {
        assert ti < tj;
        assert LexLess(a[1..], b[1..]);
      }
    } else {
      assert hi < hj;
    }
  }

  /** Below 1000, distinct numbers have distinct zero-padded forms. */
  lemma ZeroPad3Injective(i: nat, j: nat)
    requires i < 1000 && j < 1000 && i != j
    ensures ZeroPad3(i) != ZeroPad3(j)
  {
    if i < j { ZeroPad3Ordered(i, j); } else { ZeroPad3Ordered(j, i); }
    LexLessIrreflexive(ZeroPad3(i));
    LexLessIrreflexive(ZeroPad3(j));
  }

  lemma {:induction false} LexLessIrreflexive(a: string)
    ensures !LexLess(a, a)
  {
    if a != [] { LexLessIrreflexive(a[1..]); }
  }
}
