/**
 * String helpers shared by the client and the server model:
 * the two notions of "trim" (JavaScript's and Java's), ASCII lower-casing,
 * and decimal numerals (`Number#toString`, `String.format("%06d", n)`).
 */
module Text {

  // ---------------------------------------------------------------------
  // Whitespace and trimming
  // ---------------------------------------------------------------------

  /** The characters removed by JavaScript's `String.prototype.trim` and matched by the regular-expression class `\s`. */
  predicate IsJsSpace(c: char) {
    || c == ' ' || c == '\t' || c == '\n' || c == '\U{000B}' || c == '\U{000C}' || c == '\r'
    || c == '\U{00A0}' || c == '\U{1680}' || ('\U{2000}' <= c <= '\U{200A}')
    || c == '\U{2028}' || c == '\U{2029}' || c == '\U{202F}' || c == '\U{205F}'
    || c == '\U{3000}' || c == '\U{FEFF}'
  }

  /** The characters removed by Java's `String.trim`: every code point up to U+0020. */
  predicate IsJavaSpace(c: char) {
    c <= ' '
  }

  /** Number of `blank` characters at the start of `s`. */
  function LeadingCount(s: string, blank: char -> bool): (n: nat)
    ensures n <= |s|
    ensures forall k :: 0 <= k < n ==> blank(s[k])
    ensures n < |s| ==> !blank(s[n])
  {
    if s == [] || !blank(s[0]) then 0 else 1 + LeadingCount(s[1..], blank)
  }

  /** Number of `blank` characters at the end of `s`. */
  function TrailingCount(s: string, blank: char -> bool): (n: nat)
    ensures n <= |s|
    ensures forall k :: |s| - n <= k < |s| ==> blank(s[k])
    ensures n < |s| ==> !blank(s[|s| - 1 - n])
  {
    if s == [] || !blank(s[|s| - 1]) then 0 else 1 + TrailingCount(s[..|s| - 1], blank)
  }

  /** `s` without its leading and trailing `blank` characters. */
  function Trim(s: string, blank: char -> bool): (r: string)
    ensures |r| <= |s|
    ensures r == [] <==> forall k :: 0 <= k < |s| ==> blank(s[k])
    ensures r != [] ==> !blank(r[0]) && !blank(r[|r| - 1])
    ensures r != [] ==>
              LeadingCount(s, blank) + |r| <= |s| && r == s[LeadingCount(s, blank) .. LeadingCount(s, blank) + |r|]
    ensures r != [] ==> forall k :: LeadingCount(s, blank) + |r| <= k < |s| ==> blank(s[k])
  {
    var lead := LeadingCount(s, blank);
    if lead == |s| then []
    else
      var trail := TrailingCount(s, blank);
      assert !blank(s[lead]);
      assert trail < |s| - lead;
      s[lead .. |s| - trail]
  }

  /** JavaScript `s.trim()`. */
  function JsTrim(s: string): string {
    Trim(s, IsJsSpace)
  }

  /** Java `s.trim()`. */
  function JavaTrim(s: string): string {
    Trim(s, IsJavaSpace)
  }

  /** Trimming a string that has no blank at either end changes nothing. */
  lemma TrimUntrimmed(s: string, blank: char -> bool)
    requires s != [] ==> !blank(s[0]) && !blank(s[|s| - 1])
    ensures Trim(s, blank) == s
  {
    if s != [] {
      assert LeadingCount(s, blank) == 0;
      assert TrailingCount(s, blank) == 0;
    }
  }

  // ---------------------------------------------------------------------
  // Lower case
  // ---------------------------------------------------------------------

  /** Lower-case mapping of one character, restricted to ASCII letters. */
  function LowerChar(c: char): char {
    if 'A' <= c <= 'Z' then (c as int - 'A' as int + 'a' as int) as char else c
  }

  /** Java `s.toLowerCase()`, restricted to ASCII letters. */
  function LowerAscii(s: string): (r: string)
    ensures |r| == |s|
    ensures forall k :: 0 <= k < |s| ==> r[k] == LowerChar(s[k])
  {
    seq(|s|, k requires 0 <= k < |s| => LowerChar(s[k]))
  }

  /** The form in which the server stores and looks up e-mail addresses: `email.toLowerCase().trim()`. */
  function NormaliseEmail(email: string): string {
    JavaTrim(LowerAscii(email))
  }

  /** Normalising an already normalised address changes nothing, so a stored address finds its own record. */
  lemma NormaliseIdempotent(email: string)
    ensures NormaliseEmail(NormaliseEmail(email)) == NormaliseEmail(email)
  {
    var t := NormaliseEmail(email);
    var l := LowerAscii(t);
    assert l == t;
    TrimUntrimmed(t, IsJavaSpace);
  }

  // ---------------------------------------------------------------------
  // Decimal numerals
  // ---------------------------------------------------------------------

  predicate IsDigit(c: char) {
    '0' <= c <= '9'
  }

  predicate AllDigits(s: string) {
    forall k :: 0 <= k < |s| ==> IsDigit(s[k])
  }

  function DigitChar(d: nat): (c: char)
    requires d < 10
    ensures IsDigit(c)
  {
    ('0' as int + d) as char
  }

  function DigitValue(c: char): (d: nat)
    requires IsDigit(c)
    ensures d < 10 && DigitChar(d) == c
  {
    c as int - '0' as int
  }

  /** The number a string of decimal digits denotes (leading zeros allowed). */
  function DecimalValue(s: string): nat
    requires AllDigits(s)
  {
    if s == [] then 0 else 10 * DecimalValue(s[..|s| - 1]) + DigitValue(s[|s| - 1])
  }

  /** The shortest decimal numeral of `n`, as JavaScript's `String(n)` or Java's `%d` print it. */
  function DecimalString(n: nat): (s: string)
    ensures s != [] && AllDigits(s)
    ensures DecimalValue(s) == n
    ensures s[0] == '0' ==> n == 0
  {
    if n < 10 then [DigitChar(n)]
    else
      var s := DecimalString(n / 10) + [DigitChar(n % 10)];
      assert s[..|s| - 1] == DecimalString(n / 10);
      s
  }

  /** A numeral without a leading zero (other than `0` itself). */
  predicate Canonical(d: string) {
    d != [] && AllDigits(d) && (d[0] == '0' ==> |d| == 1)
  }

  /** A numeral whose first digit is not zero denotes a positive number. */
  lemma {:induction false} LeadingDigitPositive(d: string)
    requires d != [] && AllDigits(d) && d[0] != '0'
    ensures DecimalValue(d) >= 1
  {
    if |d| > 1 {
      var front := d[..|d| - 1];
      assert front[0] == d[0];
      LeadingDigitPositive(front);
    }
  }

  /** The canonical numerals are exactly the shortest ones: printing the value gives the numeral back. */
  lemma {:induction false} DecimalStringOfCanonical(d: string)
    requires Canonical(d)
    ensures DecimalString(DecimalValue(d)) == d
  {
    if |d| > 1 {
      var front := d[..|d| - 1];
      assert front[0] == d[0];
      LeadingDigitPositive(front);
      DecimalStringOfCanonical(front);
      assert d == front + [d[|d| - 1]];
    }
  }

  function Pow10(w: nat): (p: nat)
    ensures p >= 1
  {
    if w == 0 then 1 else 10 * Pow10(w - 1)
  }

  /** Java `String.format("%0<width>d", n)` for `n >= 0`: the numeral, left-padded with zeros to `width`. */
  function ZeroPadded(n: nat, width: nat): string {
    var digits := DecimalString(n);
    if |digits| >= width then digits else seq(width - |digits|, _ => '0') + digits
  }

  lemma {:induction false} DecimalStringLength(n: nat, w: nat)
    requires 1 <= w && n < Pow10(w)
    ensures |DecimalString(n)| <= w
  {
    if n >= 10 {
      assert Pow10(1) == 10;
      assert w >= 2;
      assert n / 10 < Pow10(w - 1);
      DecimalStringLength(n / 10, w - 1);
    }
  }

  lemma {:induction false} AllZerosValue(z: string)
    requires forall k :: 0 <= k < |z| ==> z[k] == '0'
    ensures AllDigits(z) && DecimalValue(z) == 0
  {
    if z != [] {
      AllZerosValue(z[..|z| - 1]);
    }
  }

  /** Leading zeros do not change the value of a numeral. */
  lemma {:induction false} LeadingZerosValue(z: string, s: string)
    requires forall k :: 0 <= k < |z| ==> z[k] == '0'
    requires AllDigits(s)
    ensures AllDigits(z + s) && DecimalValue(z + s) == DecimalValue(s)
  {
    if s == [] {
      assert z + s == z;
      AllZerosValue(z);
    } else {
      var s' := s[..|s| - 1];
      LeadingZerosValue(z, s');
      assert (z + s)[..|z + s| - 1] == z + s';
    }
  }

  /** `%0<w>d` of a number below 10^w is exactly `w` digits and denotes that number. */
  lemma ZeroPaddedExact(n: nat, w: nat)
    requires 1 <= w && n < Pow10(w)
    ensures |ZeroPadded(n, w)| == w
    ensures AllDigits(ZeroPadded(n, w))
    ensures DecimalValue(ZeroPadded(n, w)) == n
  {
    var digits := DecimalString(n);
    DecimalStringLength(n, w);
    if |digits| < w {
      LeadingZerosValue(seq(w - |digits|, _ => '0'), digits);
    }
  }

  /** Length of the run of digits at the start of `s`. */
  function DigitRun(s: string): (n: nat)
    ensures n <= |s|
    ensures AllDigits(s[..n])
    ensures n < |s| ==> !IsDigit(s[n])
  {
    if s == [] || !IsDigit(s[0]) then 0
    else
      var n := 1 + DigitRun(s[1..]);
      assert s[..n] == [s[0]] + s[1..][..n - 1];
      n
  }
}
