/**
  The JavaScript string and number built-ins the application relies on,
  written out over `seq<char>`: `Number.prototype.toString` for integers,
  `toFixed(2)` on a price held in cents, `${rating}` on a rating held in
  tenths, `toLowerCase` (ASCII letters only), `includes`, `Array.prototype.join`
  and `trim`.
*/
module Text {

  // ---------------------------------------------------------------------------
  // Decimal digits

  predicate IsDigit(c: char) {
    '0' <= c <= '9'
  }

  function DigitChar(d: nat): (c: char)
    requires d < 10
    ensures IsDigit(c)
  {
    (('0' as int) + d) as char
  }

  function DigitValue(c: char): nat
    requires IsDigit(c)
  {
    (c as int) - ('0' as int)
  }

  predicate AllDigits(s: string) {
    forall i :: 0 <= i < |s| ==> IsDigit(s[i])
  }

  /**
    Decimal digits as JavaScript prints a non-negative integer: at least one
    digit, and no leading zero unless the number is zero itself.
  */
  predicate CanonicalDigits(s: string) {
    |s| >= 1 && AllDigits(s) && (s[0] == '0' ==> |s| == 1)
  }

  /** Decimal rendering of a non-negative integer, as `String(n)` gives it. */
  function NatToString(n: nat): (s: string)
    ensures CanonicalDigits(s)
    ensures s[0] == '0' <==> n == 0
    decreases n
  {
    if n < 10 then [DigitChar(n)] else NatToString(n / 10) + [DigitChar(n % 10)]
  }

  /** The value of a string of decimal digits (the empty string reads as 0). */
  function ParseNat(s: string): nat
    requires AllDigits(s)
  {
    if s == [] then 0 else ParseNat(s[..|s| - 1]) * 10 + DigitValue(s[|s| - 1])
  }

  lemma {:induction false} ParseNatToString(n: nat)
    ensures ParseNat(NatToString(n)) == n
    decreases n
  {
    if n >= 10 {
      var s := NatToString(n / 10);
      assert NatToString(n) == s + [DigitChar(n % 10)];
      assert NatToString(n)[..|NatToString(n)| - 1] == s;
      ParseNatToString(n / 10);
    }
  }

  /** A digit string that does not start with zero reads as a positive number. */
  lemma {:induction false} LeadingDigitPositive(s: string)
    requires |s| >= 1 && AllDigits(s) && s[0] != '0'
    ensures ParseNat(s) >= 1
    decreases |s|
  {
    if |s| > 1 {
      LeadingDigitPositive(s[..|s| - 1]);
    }
  }

  /** A canonical digit string is the rendering of the number it reads as: there is no other. */
  lemma {:induction false} CanonicalDigitsUnique(s: string)
    requires CanonicalDigits(s)
    ensures s == NatToString(ParseNat(s))
    decreases |s|
  {
    var n := ParseNat(s);
    if |s| > 1 {
      var init := s[..|s| - 1];
      assert init[0] == s[0] != '0';
      LeadingDigitPositive(init);
      CanonicalDigitsUnique(init);
      assert n / 10 == ParseNat(init) && n % 10 == DigitValue(s[|s| - 1]);
      assert s == init + [s[|s| - 1]];
    }
  }

  /** Different numbers never render to the same digits. */
  lemma NatToStringInjective(a: nat, b: nat)
    requires NatToString(a) == NatToString(b)
    ensures a == b
  {
    ParseNatToString(a);
    ParseNatToString(b);
  }

  // ---------------------------------------------------------------------------
  // Number formatting

  function TwoDigits(n: nat): (s: string)
    requires n < 100
    ensures |s| == 2 && AllDigits(s)
  {
    [DigitChar(n / 10), DigitChar(n % 10)]
  }

  /**
    `price.toFixed(2)` for a price of `cents` hundredths: the whole part,
    a point, and exactly two decimals; parsing the two parts back gives the
    amount again.
  */
  function FormatCents(cents: nat): (r: string)
    ensures |r| >= 4 && r[|r| - 3] == '.'
    ensures forall i :: 0 <= i < |r| && i != |r| - 3 ==> IsDigit(r[i])
    ensures CanonicalDigits(r[..|r| - 3]) && AllDigits(r[|r| - 2..])
    ensures ParseNat(r[..|r| - 3]) * 100 + ParseNat(r[|r| - 2..]) == cents
  {
    var whole := NatToString(cents / 100);
    var frac := TwoDigits(cents % 100);
    var r := whole + "." + frac;
    assert r[..|r| - 3] == whole;
    assert r[|r| - 2..] == frac;
    assert frac[..1] == [frac[0]];
    assert ParseNat(frac[..1]) == DigitValue(frac[0]) == (cents % 100) / 10;
    assert ParseNat(frac) == ParseNat(frac[..1]) * 10 + DigitValue(frac[1]);
    assert DigitValue(frac[1]) == cents % 10;
    ParseNatToString(cents / 100);
    r
  }

  /**
    The shortest rendering of `n` tenths: the whole part alone when `n` is
    whole, otherwise the whole part, a point and the one decimal.
  */
  function TenthsUnsigned(n: nat): (r: string)
    ensures |r| >= 1 && IsDigit(r[0])
    ensures ('.' in r) <==> n % 10 != 0
    ensures n % 10 == 0 ==> CanonicalDigits(r) && ParseNat(r) == n / 10
    ensures n % 10 != 0 ==>
              |r| >= 3 && r[|r| - 2] == '.' && CanonicalDigits(r[..|r| - 2]) &&
              ParseNat(r[..|r| - 2]) == n / 10 && r[|r| - 1] == DigitChar(n % 10)
  {
    var whole := NatToString(n / 10);
    ParseNatToString(n / 10);
    assert '.' !in whole;
    if n % 10 == 0 then whole
    else
      var r := whole + "." + [DigitChar(n % 10)];
      assert r[..|r| - 2] == whole;
      r
  }

  /**
    `${x}` for a number `x` of `tenths` tenths: the shortest rendering, so
    4.8 prints as "4.8" and 5 prints as "5", with a leading minus sign for a
    negative number. The text has a decimal point exactly when the number is
    not whole, and after the sign it reads back as the magnitude of `x`.
  */
  function FormatTenths(tenths: int): (r: string)
    ensures |r| >= 1
    ensures ('.' in r) <==> tenths % 10 != 0
    ensures r[0] == '-' <==> tenths < 0
    ensures var n := if tenths < 0 then -tenths else tenths;
            var digits := if tenths < 0 then r[1..] else r;
            (n % 10 == 0 ==> CanonicalDigits(digits) && ParseNat(digits) == n / 10) &&
            (n % 10 != 0 ==>
               |digits| >= 3 && digits[|digits| - 2] == '.' && CanonicalDigits(digits[..|digits| - 2]) &&
               ParseNat(digits[..|digits| - 2]) == n / 10 && digits[|digits| - 1] == DigitChar(n % 10))
  {
    if tenths < 0 then
      assert (-tenths) % 10 == 0 <==> tenths % 10 == 0 by {
        assert tenths == -((-tenths) / 10) * 10 - (-tenths) % 10;
      }
      var u := TenthsUnsigned(-tenths);
      var r := "-" + u;
      assert r[1..] == u;
      r
    else
      TenthsUnsigned(tenths)
  }

  // ---------------------------------------------------------------------------
  // Case folding

  function LowerChar(c: char): char {
    if 'A' <= c <= 'Z' then ((c as int) + 32) as char else c
  }

  predicate IsUpperAscii(c: char) {
    'A' <= c <= 'Z'
  }

  /**
    `toLowerCase`, restricted to the ASCII letters: the text keeps its length,
    no capital letter is left, and every other character is kept.
  */
  function ToLowerAscii(s: string): (r: string)
    ensures |r| == |s|
    ensures forall i :: 0 <= i < |r| ==> !IsUpperAscii(r[i])
    ensures forall i :: 0 <= i < |s| && !IsUpperAscii(s[i]) ==> r[i] == s[i]
    ensures forall i :: 0 <= i < |s| && IsUpperAscii(s[i]) ==> r[i] as int == s[i] as int + 32
  {
    seq(|s|, i requires 0 <= i < |s| => LowerChar(s[i]))
  }

  /** Lower-casing twice is lower-casing once. */
  lemma ToLowerAsciiIdempotent(s: string)
    ensures ToLowerAscii(ToLowerAscii(s)) == ToLowerAscii(s)
  {
  }

  // ---------------------------------------------------------------------------
  // Substrings

  predicate StartsWith(s: string, prefix: string) {
    |prefix| <= |s| && s[..|prefix|] == prefix
  }

  /** `pattern` occurs in `s` starting at position `i`. */
  predicate OccursAt(s: string, pattern: string, i: int) {
    0 <= i <= |s| - |pattern| && s[i..i + |pattern|] == pattern
  }

  /** `s.includes(pattern)`: the pattern occurs at some position of `s`. */
  predicate Contains(s: string, pattern: string) {
    exists i | 0 <= i <= |s| - |pattern| :: OccursAt(s, pattern, i)
  }

  /** A string contains each of its prefixes. */
  lemma StartsWithContains(s: string, prefix: string)
    requires StartsWith(s, prefix)
    ensures Contains(s, prefix)
  {
    assert OccursAt(s, prefix, 0);
  }

  /** A string contains every piece it is built around. */
  lemma ContainsInfix(before: string, pattern: string, after: string)
    ensures Contains(before + pattern + after, pattern)
  {
    var s := before + pattern + after;
    assert s[|before|..|before| + |pattern|] == pattern;
    assert OccursAt(s, pattern, |before|);
  }

  /** Containment is transitive. */
  lemma ContainsTransitive(s: string, middle: string, pattern: string)
    requires Contains(s, middle) && Contains(middle, pattern)
    ensures Contains(s, pattern)
  {
    var i :| 0 <= i <= |s| - |middle| && OccursAt(s, middle, i);
    var j :| 0 <= j <= |middle| - |pattern| && OccursAt(middle, pattern, j);
    assert s[i..i + |middle|] == middle;
    assert middle[j..j + |pattern|] == pattern;
    forall k | 0 <= k < |pattern| ensures s[i + j + k] == pattern[k] {
      assert pattern[k] == middle[j + k];
      assert middle[j + k] == s[i..i + |middle|][j + k];
    }
    assert s[i + j..i + j + |pattern|] == pattern;
    assert OccursAt(s, pattern, i + j);
  }

  /** Every character of a contained pattern occurs in the text. */
  lemma ContainsOnlyPresentChars(s: string, pattern: string, c: char)
    requires c in pattern && c !in s
    ensures !Contains(s, pattern)
  {
    forall i | 0 <= i <= |s| - |pattern| ensures !OccursAt(s, pattern, i) {
      var k :| 0 <= k < |pattern| && pattern[k] == c;
      assert s[i..i + |pattern|][k] == s[i + k] != pattern[k];
    }
  }

  // ---------------------------------------------------------------------------
  // Concatenation of several pieces

  /** The pieces written one after the other, as a template literal does. */
  function Concat(pieces: seq<string>): string {
    if pieces == [] then "" else pieces[0] + Concat(pieces[1..])
  }

  /** Every piece of a template appears in its text. */
  lemma {:induction false} ConcatContainsEach(pieces: seq<string>, i: nat)
    requires i < |pieces|
    ensures Contains(Concat(pieces), pieces[i])
  {
    var rest := Concat(pieces[1..]);
    if i == 0 {
      ContainsInfix("", pieces[0], rest);
      assert "" + pieces[0] + rest == Concat(pieces);
    } else {
      ConcatContainsEach(pieces[1..], i - 1);
      ContainsInfix(pieces[0], rest, "");
      assert pieces[0] + rest + "" == Concat(pieces);
      ContainsTransitive(Concat(pieces), rest, pieces[i]);
    }
  }

  // ---------------------------------------------------------------------------
  // Joining

  /** `parts.join(separator)`. */
  function Join(parts: seq<string>, separator: string): string {
    if |parts| == 0 then ""
    else if |parts| == 1 then parts[0]
    else parts[0] + separator + Join(parts[1..], separator)
  }

  /** Every part appears in the joined text. */
  lemma {:induction false} JoinContainsEach(parts: seq<string>, separator: string, i: nat)
    requires i < |parts|
    ensures Contains(Join(parts, separator), parts[i])
  {
    if |parts| == 1 {
      ContainsInfix("", parts[0], "");
      assert "" + parts[0] + "" == Join(parts, separator);
    } else if i == 0 {
      ContainsInfix("", parts[0], separator + Join(parts[1..], separator));
      assert "" + parts[0] + (separator + Join(parts[1..], separator)) == Join(parts, separator);
    } else {
      JoinContainsEach(parts[1..], separator, i - 1);
      ContainsInfix(parts[0] + separator, Join(parts[1..], separator), "");
      assert parts[0] + separator + Join(parts[1..], separator) + "" == Join(parts, separator);
      ContainsTransitive(Join(parts, separator), Join(parts[1..], separator), parts[i]);
    }
  }

  // ---------------------------------------------------------------------------
  // Trimming

  /** The characters `String.prototype.trim` removes: white space and line terminators. */
  predicate IsWhitespace(c: char) {
    c == '\t' || c == '\n' || c == '\U{000B}' || c == '\U{000C}' || c == '\r' || c == ' '
    || c == '\U{00A0}' || c == '\U{1680}' || ('\U{2000}' <= c <= '\U{200A}')
    || c == '\U{2028}' || c == '\U{2029}' || c == '\U{202F}' || c == '\U{205F}'
    || c == '\U{3000}' || c == '\U{FEFF}'
  }

  function TrimStart(s: string): (r: string)
    ensures |r| <= |s| && r == s[|s| - |r|..]
    ensures forall i :: 0 <= i < |s| - |r| ==> IsWhitespace(s[i])
    ensures r == [] || !IsWhitespace(r[0])
  {
    if s == [] || !IsWhitespace(s[0]) then s else TrimStart(s[1..])
  }

  function TrimEnd(s: string): (r: string)
    ensures |r| <= |s| && r == s[..|r|]
    ensures forall i :: |r| <= i < |s| ==> IsWhitespace(s[i])
    ensures r == [] || !IsWhitespace(r[|r| - 1])
  {
    if s == [] || !IsWhitespace(s[|s| - 1]) then s else TrimEnd(s[..|s| - 1])
  }

  /** A prefix of a suffix of `s` occurs in `s` where the suffix starts. */
  lemma SliceOccurs(s: string, k: nat, r: string)
    requires k <= |s| && |r| <= |s| - k && r == s[k..][..|r|]
    ensures OccursAt(s, r, k)
  {
    assert s[k..k + |r|] == s[k..][..|r|];
  }

  /** `s.trim()`: white space removed from both ends. */
  function Trim(s: string): (r: string)
    ensures |r| <= |s| && Contains(s, r)
    ensures r == [] || (!IsWhitespace(r[0]) && !IsWhitespace(r[|r| - 1]))
    ensures exists k :: 0 <= k <= |s| - |r| && OccursAt(s, r, k) &&
                        (forall i :: 0 <= i < k ==> IsWhitespace(s[i])) &&
                        (forall i :: k + |r| <= i < |s| ==> IsWhitespace(s[i]))
  {
    var start := TrimStart(s);
    var r := TrimEnd(start);
    TrimWindow(s, start, r);
    r
  }

  /** The trimmed text sits in `s` after the leading white space and before only white space. */
  lemma TrimWindow(s: string, start: string, r: string)
    requires start == TrimStart(s) && r == TrimEnd(start)
    ensures var k := |s| - |start|;
            0 <= k <= |s| - |r| && OccursAt(s, r, k) &&
            (forall i :: 0 <= i < k ==> IsWhitespace(s[i])) &&
            (forall i :: k + |r| <= i < |s| ==> IsWhitespace(s[i]))
  {
    var k := |s| - |start|;
    assert start == s[k..];
    assert r == start[..|r|];
    SliceOccurs(s, k, r);
    assert forall j :: |r| <= j < |start| ==> IsWhitespace(start[j]);
    forall i | k + |r| <= i < |s| ensures IsWhitespace(s[i]) {
      assert s[i] == s[k..][i - k];
    }
  }

  /** The trimmed text is empty exactly when every character is white space. */
  lemma TrimEmptyIff(s: string)
    ensures Trim(s) == [] <==> forall i :: 0 <= i < |s| ==> IsWhitespace(s[i])
  {
  }
}
