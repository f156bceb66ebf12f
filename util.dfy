/** `shorten(s, width)`: a string of at least `width` characters is cut and ends in a
    marker `..(c)..` naming how many characters were cut, where `c` counts the marker's
    own digits too. */
module Util {
  import opened Py

  function Pow10(k: nat): (p: nat)
    ensures p >= 1
  {
    if k == 0 then 1 else 10 * Pow10(k - 1)
  }

  function DigitChar(d: nat): (c: char)
    requires d < 10
    ensures '0' <= c <= '9'
    ensures c as int - '0' as int == d
  {
    ('0' as int + d) as char
  }

  /** `str(n)` for a non-negative integer: its decimal digits, most significant first. */
  function DecimalString(n: nat): (s: string)
    ensures |s| >= 1
    ensures forall i :: 0 <= i < |s| ==> '0' <= s[i] <= '9'
    ensures n >= 10 ==> s[0] != '0'
    decreases n
  {
    if n < 10 then [DigitChar(n)] else DecimalString(n / 10) + [DigitChar(n % 10)]
  }

  /** The value of a string of decimal digits (`int(s)`). */
  function DecimalValue(s: string): nat
    requires forall i :: 0 <= i < |s| ==> '0' <= s[i] <= '9'
  {
    if s == [] then 0 else 10 * DecimalValue(s[..|s| - 1]) + (s[|s| - 1] as int - '0' as int)
  }

  /** `int(str(n)) == n`. */
  lemma {:induction false} DecimalRoundTrip(n: nat)
    ensures DecimalValue(DecimalString(n)) == n
    decreases n
  {
    if n >= 10 {
      DecimalRoundTrip(n / 10);
      var s := DecimalString(n);
      assert s[..|s| - 1] == DecimalString(n / 10);
    }
  }

  /** `len(str(n))`. */
  function Digits(n: nat): nat {
    |DecimalString(n)|
  }

  /** `n` has `Digits(n)` digits: below `10^Digits(n)`, and at least `10^(Digits(n)-1)`
      unless it is a single digit. */
  lemma {:induction false} DigitsBounds(n: nat)
    ensures Digits(n) >= 1 && n < Pow10(Digits(n))
    ensures Digits(n) == 1 || Pow10(Digits(n) - 1) <= n
    decreases n
  {
    if n >= 10 {
      DigitsBounds(n / 10);
      var k := Digits(n / 10);
      assert Digits(n) == k + 1;
      assert n == 10 * (n / 10) + n % 10;
      assert Pow10(k + 1) == 10 * Pow10(k);
      if k > 1 {
        assert Pow10(k) == 10 * Pow10(k - 1);
      }
    }
  }

  /** A number in `[10^(k-1), 10^k)` (or below 10, for `k == 1`) has exactly `k` digits. */
  lemma {:induction false} DigitsExact(n: nat, k: nat)
    requires k >= 1 && n < Pow10(k) && (k == 1 || Pow10(k - 1) <= n)
    ensures Digits(n) == k
    decreases k
  {
    if k > 1 {
      assert Pow10(k) == 10 * Pow10(k - 1);
      if k > 2 {
        assert Pow10(k - 1) == 10 * Pow10(k - 2);
      }
      assert n / 10 < Pow10(k - 1);
      DigitsExact(n / 10, k - 1);
    }
  }

  lemma {:induction false} Pow10Monotone(a: nat, b: nat)
    requires a <= b
    ensures Pow10(a) <= Pow10(b)
    decreases b
  {
    if a < b {
      Pow10Monotone(a, b - 1);
    }
  }

  lemma {:induction false} Pow10Exceeds(k: nat)
    ensures k < Pow10(k)
    decreases k
  {
    if k > 0 {
      Pow10Exceeds(k - 1);
    }
  }

  lemma DigitsMonotone(m: nat, n: nat)
    requires m <= n
    ensures Digits(m) <= Digits(n)
  {
    DigitsBounds(m);
    DigitsBounds(n);
    if Digits(n) < Digits(m) {
      Pow10Monotone(Digits(n), Digits(m) - 1);
    }
  }

  /** Lines 23-29 of `shorten`, given `base == length - width + 6`: add the digit count of
      `base`, then one more if that addition changed the digit count. The result is the
      least `c` that is `base` plus its own digit count, i.e. the total length of the
      cut when the marker's digits are cut too. */
  function CutLength(base: nat): (c: nat)
    requires base >= 1
    ensures c == base + Digits(c)
    ensures forall c': nat :: c' == base + Digits(c') ==> c <= c'
  {
    var x := Digits(base);
    var c1 := base + x;
    DigitsBounds(base);
    DigitsMonotone(base, c1);
    LeastAbove(base, c1);
    if x != Digits(c1) then
      BumpKeepsDigits(base);
      c1 + 1
    else c1
  }

  /** No `c` below `base + Digits(base)` counts itself. */
  lemma LeastAbove(base: nat, c1: nat)
    requires c1 == base + Digits(base)
    ensures forall c': nat :: c' == base + Digits(c') ==> c1 <= c'
  {
    forall c': nat | c' == base + Digits(c') ensures c1 <= c' {
      DigitsMonotone(base, c');
    }
  }

  /** When adding its digit count to `base` adds a digit, one more character brings the
      count to a fixed point: `base + x + 1` is still below `10^(x+1)`. */
  lemma BumpKeepsDigits(base: nat)
    requires base >= 1
    requires Digits(base + Digits(base)) != Digits(base)
    ensures Digits(base + Digits(base) + 1) == Digits(base) + 1
  {
    var x := Digits(base);
    var c1 := base + x;
    DigitsBounds(base);
    if c1 < Pow10(x) {
      DigitsExact(c1, x);
    }
    Pow10Exceeds(x);
    assert Pow10(x + 1) == 10 * Pow10(x);
    DigitsExact(c1 + 1, x + 1);
  }

  /** `s[:end]` with Python's slice rules: a negative end counts from the back, and a
      slice bound past either end is clipped. */
  function PyPrefix(s: string, end: int): (p: string)
    ensures p <= s
    ensures |p| == (if end >= 0 then Min(end, |s|) else if |s| + end >= 0 then |s| + end else 0)
  {
    if end >= 0 then s[..Min(end, |s|)]
    else if |s| + end >= 0 then s[..|s| + end]
    else []
  }

  /** `'..(%d)..' % c`. */
  function Marker(c: nat): (m: string)
    ensures |m| == Digits(c) + 6
    ensures m[..3] == "..(" && m[|m| - 3..] == ").."
  {
    "..(" + DecimalString(c) + ").."
  }

  /** `shorten(s, width)` on a string: shorter than `width` it comes back unchanged;
      otherwise it is the Python prefix that leaves out `c` characters, then the marker
      naming `c`. */
  function Shorten(s: string, width: int := 80): (r: string)
    ensures |s| < width ==> r == s
    ensures |s| >= width ==> var c := CutLength(|s| - width + 6);
      r == PyPrefix(s, |s| - c) + Marker(c) && c == |s| - width + 6 + Digits(c)
  {
    if |s| < width then s
    else
      var c := CutLength(|s| - width + 6);
      PyPrefix(s, |s| - c) + Marker(c)
  }

  /** When the cut fits in the string (`end_pos >= 0`), the shortened string starts with
      the first `|s| - c` characters of `s`, exactly `c` characters are dropped, and the
      result is exactly `width` long. */
  lemma ShortenExact(s: string, width: int)
    requires |s| >= width && CutLength(|s| - width + 6) <= |s|
    ensures var c := CutLength(|s| - width + 6); var r := Shorten(s, width);
      |r| == width && r[..|s| - c] == s[..|s| - c] && r[|s| - c..] == Marker(c) &&
      |s| - |PyPrefix(s, |s| - c)| == c
  {
    var c := CutLength(|s| - width + 6);
    var p := PyPrefix(s, |s| - c);
    assert p == s[..|s| - c];
    assert Shorten(s, width) == p + Marker(c);
  }

  /** The example in the function's documentation: 35 characters cut down to 20, of which
      23 are dropped. */
  lemma ShortenExample()
    ensures Shorten("a very very very very long sentence", 20) == "a very very ..(23).."
  {
    var s := "a very very very very long sentence";
    assert |s| == 35;
    CutOfTwoDigits(21, 23);
    MarkerOfTwoDigits(23, "23");
    assert PyPrefix(s, 12) == "a very very ";
    assert Shorten(s, 20) == PyPrefix(s, 12) + Marker(23);
  }

  /** Below a width of about 8 the cut no longer fits: `end_pos` goes negative, Python
      counts it from the back, and the result is longer than `width`. */
  lemma ShortenNarrow()
    ensures Shorten("abcdefgh", 3) == "abc..(13).."
  {
    CutOfTwoDigits(11, 13);
    MarkerOfTwoDigits(13, "13");
    assert PyPrefix("abcdefgh", -5) == "abc";
    assert Shorten("abcdefgh", 3) == PyPrefix("abcdefgh", -5) + Marker(13);
  }

  /** A two-digit base whose cut stays below 100 gains two characters. */
  lemma CutOfTwoDigits(base: nat, c: nat)
    requires 10 <= base && c == base + 2 && c < 100
    ensures CutLength(base) == c
  {
    DigitsExact(base, 2);
    DigitsExact(c, 2);
  }

  /** The marker of a two-digit count. */
  lemma MarkerOfTwoDigits(c: nat, digits: string)
    requires 10 <= c < 100 && digits == [DigitChar(c / 10), DigitChar(c % 10)]
    ensures Marker(c) == "..(" + digits + ").."
  {
    assert DecimalString(c / 10) == [DigitChar(c / 10)];
  }
}
