/** Character and string helpers shared by the codecs: decimal numerals,
    substring search and JavaScript's `String.prototype.trim`. */
module Text {

  predicate IsDigit(c: char) {
    '0' <= c <= '9'
  }

  predicate AllDigits(s: string) {
    forall i :: 0 <= i < |s| ==> IsDigit(s[i])
  }

  /** A non-empty run of ASCII digits, the shape `\d+` matches. */
  predicate IsNumeral(s: string) {
    |s| > 0 && AllDigits(s)
  }

  function DigitChar(d: nat): (c: char)
    requires d < 10
    ensures IsDigit(c)
  {
    match d
    case 0 => '0' case 1 => '1' case 2 => '2' case 3 => '3' case 4 => '4'
    case 5 => '5' case 6 => '6' case 7 => '7' case 8 => '8' case _ => '9'
  }

  function DigitValue(c: char): (d: nat)
    requires IsDigit(c)
    ensures d < 10 && DigitChar(d) == c
  {
    (c as int - '0' as int) as nat
  }

  /** The value JavaScript's unary `+` gives a string of decimal digits. */
  function DecimalValue(s: string): nat
    requires AllDigits(s)
  {
    if s == [] then 0 else DecimalValue(s[..|s| - 1]) * 10 + DigitValue(s[|s| - 1])
  }

  /** Unpadded decimal rendering of a natural number (no leading zeros). */
  function NatToString(n: nat): (s: string)
    ensures IsNumeral(s)
  {
    if n < 10 then [DigitChar(n)] else NatToString(n / 10) + [DigitChar(n % 10)]
  }

  /** Rendering of an integer as template-literal interpolation gives it. */
  function IntToString(n: int): (s: string)
    ensures |s| > 0
  {
    if n < 0 then "-" + NatToString(-n) else NatToString(n)
  }

  /** A numeral without a leading zero is the decimal text of its value:
      `+keyword` loses only leading zeros. */
  lemma {:induction false} NumberOfNumeral(s: string)
    requires IsNumeral(s)
    ensures NatToString(DecimalValue(s)) == s || s[0] == '0'
  {
    if s[0] != '0' {
      NumeralOfValue(s);
    }
  }

  lemma {:induction false} NumeralOfValue(s: string)
    requires IsNumeral(s) && s[0] != '0'
    ensures NatToString(DecimalValue(s)) == s
    decreases |s|
  {
    var init := s[..|s| - 1];
    var last := s[|s| - 1];
    assert AllDigits(init);
    if |s| == 1 {
      assert DecimalValue(s) == DecimalValue(init) * 10 + DigitValue(last);
      assert init == [];
    } else {
      assert init[0] == s[0];
      NumeralOfValue(init);
      var n := DecimalValue(init);
      assert n > 0 by { LeadingDigitPositive(init); }
      assert DecimalValue(s) == n * 10 + DigitValue(last);
      AppendDigit(n, DigitValue(last));
      assert s == init + [last];
    }
  }

  /** `+` ignores a leading zero: `+"012" === +"12"`. */
  lemma {:induction false} LeadingZeroIgnored(s: string)
    requires AllDigits(s)
    ensures AllDigits(['0'] + s) && DecimalValue(['0'] + s) == DecimalValue(s)
    decreases |s|
  {
    var z := ['0'] + s;
    assert AllDigits(z) by {
      forall i | 0 <= i < |z|
        ensures IsDigit(z[i])
      {
        if i > 0 {
          assert z[i] == s[i - 1];
        }
      }
    }
    if s == [] {
      assert z[..0] == [];
    } else {
      var init := s[..|s| - 1];
      assert AllDigits(init);
      LeadingZeroIgnored(init);
      assert z[..|z| - 1] == ['0'] + init;
      assert z[|z| - 1] == s[|s| - 1];
    }
  }

  /** Appending a digit to the text of a positive number gives the text of
      ten times the number plus the digit. */
  lemma AppendDigit(n: nat, d: nat)
    requires n > 0 && d < 10
    ensures NatToString(n * 10 + d) == NatToString(n) + [DigitChar(d)]
  {
    var m := n * 10 + d;
    assert m / 10 == n && m % 10 == d;
  }

  lemma {:induction false} LeadingDigitPositive(s: string)
    requires IsNumeral(s) && s[0] != '0'
    ensures DecimalValue(s) > 0
    decreases |s|
  {
    var init := s[..|s| - 1];
    assert AllDigits(init);
    if |s| == 1 {
      assert init == [];
    } else {
      assert init[0] == s[0];
      LeadingDigitPositive(init);
    }
  }

  /** Two-digit zero-padded rendering, as moment's `HH`, `mm` and `ss` tokens give it. */
  function Pad2(n: nat): (s: string)
    requires n < 100
    ensures |s| == 2 && AllDigits(s)
  {
    [DigitChar(n / 10), DigitChar(n % 10)]
  }

  lemma {:induction false} DecimalValueOfNatToString(n: nat)
    ensures DecimalValue(NatToString(n)) == n
  {
    var s := NatToString(n);
    if n < 10 {
      assert s[..|s| - 1] == [];
    } else {
      assert s[..|s| - 1] == NatToString(n / 10);
      DecimalValueOfNatToString(n / 10);
    }
  }

  lemma Pad2Value(n: nat)
    requires n < 100
    ensures DecimalValue(Pad2(n)) == n
  {
    var s := Pad2(n);
    assert s[..1] == [DigitChar(n / 10)];
    assert s[..1][..0] == [];
    assert DecimalValue(s[..1]) == n / 10;
  }

  /** A string built as prefix, middle and suffix starts with the prefix
      and ends with the suffix. */
  lemma Framed(prefix: string, middle: string, suffix: string)
    ensures var r := prefix + middle + suffix;
      && |r| == |prefix| + |middle| + |suffix|
      && r[..|prefix|] == prefix
      && r[|r| - |suffix|..] == suffix
  {
    var r := prefix + middle + suffix;
    assert r[..|prefix|] == prefix;
    assert r[|r| - |suffix|..] == suffix;
  }

  /** `needle` occurs in `haystack` starting at index `i`. */
  predicate OccursAt(haystack: string, needle: string, i: int) {
    0 <= i <= |haystack| - |needle| && haystack[i..i + |needle|] == needle
  }

  /** `haystack.includes(needle)`. */
  predicate Contains(haystack: string, needle: string) {
    exists i :: 0 <= i <= |haystack| - |needle| && OccursAt(haystack, needle, i)
  }

  lemma ContainsPrefixOfNeedle(haystack: string, needle: string, k: nat)
    requires k <= |needle|
    requires Contains(haystack, needle)
    ensures Contains(haystack, needle[..k])
  {
    var i :| 0 <= i <= |haystack| - |needle| && OccursAt(haystack, needle, i);
    assert haystack[i..i + |needle|] == needle;
    assert haystack[i..i + k] == haystack[i..i + |needle|][..k];
    assert OccursAt(haystack, needle[..k], i);
  }

  /** Every character of a contained string occurs in the container. */
  lemma ContainedCharacters(haystack: string, needle: string)
    requires Contains(haystack, needle)
    ensures forall c :: c in needle ==> c in haystack
  {
    var i :| 0 <= i <= |haystack| - |needle| && OccursAt(haystack, needle, i);
    forall c | c in needle
      ensures c in haystack
    {
      var j :| 0 <= j < |needle| && needle[j] == c;
      assert haystack[i..i + |needle|][j] == haystack[i + j];
    }
  }

  /** What a prefix contains, the whole string contains. */
  lemma ContainsInLonger(haystack: string, k: nat, needle: string)
    requires k <= |haystack|
    requires Contains(haystack[..k], needle)
    ensures Contains(haystack, needle)
  {
    var i :| 0 <= i <= k - |needle| && OccursAt(haystack[..k], needle, i);
    assert haystack[..k][i..i + |needle|] == haystack[i..i + |needle|];
    assert OccursAt(haystack, needle, i);
  }

  /** The characters `String.prototype.trim` strips: WhiteSpace and
      LineTerminator of ECMAScript. */
  predicate IsJsWhitespace(c: char) {
    c in JS_WHITESPACE
  }

  const JS_WHITESPACE: set<char> := {
    '\t', '\n', '\U{B}', '\U{C}', '\r', ' ', '\U{A0}', '\U{1680}',
    '\U{2000}', '\U{2001}', '\U{2002}', '\U{2003}', '\U{2004}', '\U{2005}',
    '\U{2006}', '\U{2007}', '\U{2008}', '\U{2009}', '\U{200A}',
    '\U{2028}', '\U{2029}', '\U{202F}', '\U{205F}', '\U{3000}', '\U{FEFF}'
  }

  /** `s` without its leading whitespace. */
  function TrimStart(s: string): (r: string)
    ensures |r| <= |s| && r == s[|s| - |r|..]
    ensures r == [] || !IsJsWhitespace(r[0])
  {
    if s != [] && IsJsWhitespace(s[0]) then TrimStart(s[1..]) else s
  }

  /** Every character of `s` from `lo` up to `hi` is whitespace. */
  predicate WhitespaceBetween(s: string, lo: int, hi: int)
    requires 0 <= lo <= hi <= |s|
  {
    forall i :: lo <= i < hi ==> IsJsWhitespace(s[i])
  }

  /** Everything `TrimStart` removes is whitespace. */
  lemma {:induction false} LeadingSpaces(s: string)
    ensures WhitespaceBetween(s, 0, |s| - |TrimStart(s)|)
  {
    if s != [] && IsJsWhitespace(s[0]) {
      LeadingSpaces(s[1..]);
      forall i | 0 < i < |s| - |TrimStart(s)|
        ensures IsJsWhitespace(s[i])
      {
        assert s[i] == s[1..][i - 1];
      }
    }
  }

  /** `s` without its trailing whitespace. */
  function TrimEnd(s: string): (r: string)
    ensures |r| <= |s| && r == s[..|r|]
    ensures r == [] || !IsJsWhitespace(r[|r| - 1])
  {
    if s != [] && IsJsWhitespace(s[|s| - 1]) then TrimEnd(s[..|s| - 1]) else s
  }

  /** Everything `TrimEnd` removes is whitespace. */
  lemma {:induction false} TrailingSpaces(s: string)
    ensures WhitespaceBetween(s, |TrimEnd(s)|, |s|)
  {
    if s != [] && IsJsWhitespace(s[|s| - 1]) {
      TrailingSpaces(s[..|s| - 1]);
      forall i | |TrimEnd(s)| <= i < |s| - 1
        ensures IsJsWhitespace(s[i])
      {
        assert s[i] == s[..|s| - 1][i];
      }
    }
  }

  /** `r` is the piece of `s` at index `k`, and every character of `s`
      around it is whitespace. */
  predicate StrippedAt(s: string, r: string, k: int) {
    && 0 <= k <= |s| - |r| && r == s[k..k + |r|]
    && WhitespaceBetween(s, 0, k) && WhitespaceBetween(s, k + |r|, |s|)
  }

  /** The first `n` characters of the suffix of `s` at `k`. */
  lemma PieceOfSuffix(s: string, k: nat, n: nat)
    requires k + n <= |s|
    ensures s[k..][..n] == s[k..k + n]
  {
  }

  /** A suffix `start` of `s` cut down to its prefix `r` is a piece of `s`
      with only whitespace around it when the two cuts removed only spaces. */
  lemma StrippedOfPieces(s: string, start: string, r: string)
    requires |start| <= |s| && start == s[|s| - |start|..]
    requires |r| <= |start| && r == start[..|r|]
    requires WhitespaceBetween(s, 0, |s| - |start|)
    requires WhitespaceBetween(start, |r|, |start|)
    ensures StrippedAt(s, r, |s| - |start|)
  {
    var k := |s| - |start|;
    PieceOfSuffix(s, k, |r|);
    forall i | k + |r| <= i < |s|
      ensures IsJsWhitespace(s[i])
    {
      assert s[i] == start[i - k];
    }
  }

  /** Trimming both ends leaves a piece of `s` with only whitespace around it. */
  lemma TrimmedMiddle(s: string)
    ensures var start := TrimStart(s);
      StrippedAt(s, TrimEnd(start), |s| - |start|)
  {
    var start := TrimStart(s);
    LeadingSpaces(s);
    TrailingSpaces(start);
    StrippedOfPieces(s, start, TrimEnd(start));
  }

  /** The middle `TrimEnd(TrimStart(s))` occurs in `s`, has no whitespace
      at either end, and is `s` itself when `s` has none there. */
  lemma TrimmedEnds(s: string)
    ensures var start := TrimStart(s);
      var r := TrimEnd(start);
      && Contains(s, r)
      && (r == [] || (!IsJsWhitespace(r[0]) && !IsJsWhitespace(r[|r| - 1])))
      && (s != [] && !IsJsWhitespace(s[0]) && !IsJsWhitespace(s[|s| - 1]) ==> r == s)
  {
    var start := TrimStart(s);
    var r := TrimEnd(start);
    PieceOfSuffix(s, |s| - |start|, |r|);
    assert OccursAt(s, r, |s| - |start|);
  }

  /** `String.prototype.trim`: the middle of `s` between its leading and
      trailing whitespace. */
  function Trim(s: string): (r: string)
    ensures Contains(s, r)
    ensures r == [] || (!IsJsWhitespace(r[0]) && !IsJsWhitespace(r[|r| - 1]))
    ensures s != [] && !IsJsWhitespace(s[0]) && !IsJsWhitespace(s[|s| - 1]) ==> r == s
  {
    var start := TrimStart(s);
    var r := TrimEnd(start);
    TrimmedEnds(s);
    r
  }

  /** What `Trim` keeps is a piece of `s` whose surroundings are all
      whitespace: it strips nothing but the two whitespace ends. */
  lemma TrimStrips(s: string)
    ensures exists k :: StrippedAt(s, Trim(s), k)
  {
    var start := TrimStart(s);
    assert Trim(s) == TrimEnd(start);
    TrimmedMiddle(s);
    assert StrippedAt(s, Trim(s), |s| - |start|);
  }
}
