/**
 * The PHP string built-ins the API transport relies on, over `string` (a
 * sequence of characters standing for PHP's byte strings):
 *  - `strtolower`, ASCII-only (the locale-independent behaviour);
 *  - `explode` with a limit of 2 and a one-character delimiter;
 *  - `empty()` on a value that is null or a string;
 *  - the conversion of an `int` to its decimal string by `.`.
 */
module PhpText {
  import opened Wrappers

  // ---------------------------------------------------------------------
  // strtolower
  // ---------------------------------------------------------------------

  predicate IsAsciiUpper(c: char) { 'A' <= c <= 'Z' }

  predicate IsAsciiLower(c: char) { 'a' <= c <= 'z' }

  /** `strtolower` on one character: A..Z move to a..z, everything else is kept. */
  function LowerChar(c: char): char
  {
    if IsAsciiUpper(c) then (c as int + 32) as char else c
  }

  /** PHP `strtolower`: every character lower-cased, the length kept. */
  function Lower(s: string): (r: string)
    ensures |r| == |s|
    ensures forall i :: 0 <= i < |s| ==> r[i] == LowerChar(s[i])
    ensures forall i :: 0 <= i < |r| ==> !IsAsciiUpper(r[i])
  {
    if |s| == 0 then "" else [LowerChar(s[0])] + Lower(s[1..])
  }

  /** `w` contains no ASCII capital, so it is a possible output of `Lower`. */
  predicate IsLowerWord(w: string)
  {
    forall i :: 0 <= i < |w| ==> !IsAsciiUpper(w[i])
  }

  /**
   * `s` spells the lower-case word `w` up to ASCII case: position by position
   * it holds either `w`'s letter or that letter's capital.
   */
  predicate SpellsIgnoringCase(s: string, w: string)
  {
    && |s| == |w|
    && forall i :: 0 <= i < |s| ==>
         s[i] == w[i] || (IsAsciiLower(w[i]) && s[i] as int == w[i] as int - 32)
  }

  /** Lower-casing twice is lower-casing once. */
  lemma LowerIdempotent(s: string)
    ensures Lower(Lower(s)) == Lower(s)
  {
  }

  /**
   * Comparing `strtolower($s)` with a lower-case literal is exactly a
   * case-insensitive comparison of `s` with that literal.
   */
  lemma LowerEqualsIffSpells(s: string, w: string)
    requires IsLowerWord(w)
    ensures Lower(s) == w <==> SpellsIgnoringCase(s, w)
  {
  }

  // ---------------------------------------------------------------------
  // explode($sep, $s, 2)
  // ---------------------------------------------------------------------

  /** Position of the first occurrence of `c` in `s`, if any. */
  function IndexOf(s: string, c: char): (r: Option<nat>)
    ensures r.None? <==> c !in s
    ensures r.Some? ==> r.value < |s| && s[r.value] == c
    ensures r.Some? ==> forall j :: 0 <= j < r.value ==> s[j] != c
  {
    if |s| == 0 then None
    else if s[0] == c then Some(0)
    else
      match IndexOf(s[1..], c)
      case None => None
      case Some(i) => Some(i + 1)
  }

  /** PHP `implode`: the pieces joined with `sep` between neighbours. */
  function Implode(sep: char, parts: seq<string>): string
  {
    if |parts| == 0 then ""
    else if |parts| == 1 then parts[0]
    else parts[0] + [sep] + Implode(sep, parts[1..])
  }

  /**
   * PHP `explode($sep, $s, 2)`: the text before the first `sep` and, when
   * there is one, everything after it (further delimiters included).
   */
  function Explode2(sep: char, s: string): (parts: seq<string>)
    ensures 1 <= |parts| <= 2
    ensures sep !in parts[0]
    ensures |parts| == 1 <==> sep !in s
    ensures Implode(sep, parts) == s
  {
    match IndexOf(s, sep)
    case None => [s]
    case Some(i) =>
      assert s == s[..i] + [sep] + s[i + 1..];
      [s[..i], s[i + 1..]]
  }

  /**
   * `explode('?', $url, 2)[0]`: the URL cut at its first `?`. The result is
   * the longest prefix of `url` that holds no `?`.
   */
  function StripQuery(url: string): (host: string)
    ensures '?' !in host
    ensures host <= url
    ensures '?' !in url ==> host == url
    ensures '?' in url ==> |host| < |url| && url[|host|] == '?'
  {
    var parts := Explode2('?', url);
    assert parts[0] <= url by {
      if |parts| == 2 {
        assert url == parts[0] + ['?'] + parts[1];
      }
    }
    parts[0]
  }

  /** Stripping the query part twice is stripping it once. */
  lemma StripQueryIdempotent(url: string)
    ensures StripQuery(StripQuery(url)) == StripQuery(url)
  {
  }

  /** Whatever follows the first `?` has no influence on the host. */
  lemma StripQueryIgnoresQuery(base: string, query: string)
    requires '?' !in base
    ensures StripQuery(base + ['?'] + query) == base
  {
    var url := base + ['?'] + query;
    var host := StripQuery(url);
    assert url[|base|] == '?';
    assert '?' in url;
  }

  // ---------------------------------------------------------------------
  // empty()
  // ---------------------------------------------------------------------

  /**
   * PHP `empty()` on null or a string: null, `""` and `"0"` are empty. An
   * empty value is null or at most one character long, and of the
   * one-character strings only `"0"` is empty.
   */
  predicate IsEmpty(v: Option<string>): (b: bool)
    ensures b ==> v.None? || |v.value| <= 1
    ensures v.Some? && |v.value| == 1 ==> (b <==> v.value[0] == '0')
  {
    v.None? || v.value == "" || v.value == "0"
  }

  /** Strings that other languages treat as false or zero are not PHP-empty; only `""` and `"0"` are. */
  lemma EmptyExamples()
    ensures IsEmpty(None) && IsEmpty(Some("")) && IsEmpty(Some("0"))
    ensures !IsEmpty(Some("00")) && !IsEmpty(Some("0.0")) && !IsEmpty(Some(" "))
    ensures !IsEmpty(Some("false")) && !IsEmpty(Some("admin"))
  {
  }

  // ---------------------------------------------------------------------
  // int to string
  // ---------------------------------------------------------------------

  predicate IsDigit(c: char) { '0' <= c <= '9' }

  predicate IsDigits(s: string)
  {
    |s| > 0 && forall i :: 0 <= i < |s| ==> IsDigit(s[i])
  }

  function DigitChar(d: nat): (c: char)
    requires d < 10
    ensures IsDigit(c) && c as int - '0' as int == d
  {
    ('0' as int + d) as char
  }

  function DigitValue(c: char): (d: nat)
    requires IsDigit(c)
    ensures d < 10
  {
    c as int - '0' as int
  }

  /** The value of a run of decimal digits, most significant first. */
  function DigitsValue(s: string): nat
    requires forall i :: 0 <= i < |s| ==> IsDigit(s[i])
  {
    if |s| == 0 then 0
    else DigitsValue(s[..|s| - 1]) * 10 + DigitValue(s[|s| - 1])
  }

  /** A run of digits with no leading zero: `"0"` itself, or digits starting with 1..9. */
  predicate IsCanonicalDigits(s: string)
  {
    IsDigits(s) && (s[0] == '0' ==> s == "0")
  }

  /** The decimal spelling of a natural number, without leading zeros. */
  function NatToString(n: nat): (r: string)
    ensures IsDigits(r)
    ensures r[0] == '0' ==> r == "0"
    ensures DigitsValue(r) == n
    decreases n
  {
    if n < 10 then [DigitChar(n)]
    else
      var prefix := NatToString(n / 10);
      var r := prefix + [DigitChar(n % 10)];
      assert r[..|r| - 1] == prefix;
      r
  }

  /** Each canonical run of digits is the spelling `NatToString` gives its value. */
  lemma {:induction false} CanonicalDigitsAreNatToString(s: string)
    requires IsCanonicalDigits(s)
    ensures NatToString(DigitsValue(s)) == s
    decreases |s|
  {
    if |s| > 1 {
      var prefix := s[..|s| - 1];
      assert prefix[0] == s[0];
      CanonicalDigitsAreNatToString(prefix);
      var v := DigitsValue(prefix);
      assert v != 0 by {
        assert NatToString(0) == "0";
      }
      var n := DigitsValue(s);
      assert n / 10 == v && n % 10 == DigitValue(s[|s| - 1]);
      assert s == prefix + [s[|s| - 1]];
    }
  }

  /**
   * PHP's conversion of an `int` to a string: the digits of the value with no
   * leading zero, preceded by `-` exactly when it is negative.
   */
  function IntToString(n: int): (r: string)
    ensures |r| > 0
    ensures n >= 0 ==> IsCanonicalDigits(r) && DigitsValue(r) == n
    ensures n < 0 ==> r[0] == '-' && IsCanonicalDigits(r[1..]) && r[1] != '0' && DigitsValue(r[1..]) == -n
  {
    if n < 0 then
      var r := "-" + NatToString(-n);
      assert r[1..] == NatToString(-n);
      r
    else NatToString(n)
  }

  /**
   * Reads back a decimal integer in the canonical form PHP prints: no leading
   * zero and no `-0`. Anything else is `None`.
   */
  function ParseInt(s: string): Option<int>
  {
    if |s| > 0 && s[0] == '-' then
      if IsCanonicalDigits(s[1..]) && s[1] != '0' then
        var magnitude: int := DigitsValue(s[1..]);
        Some(-magnitude)
      else None
    else if IsCanonicalDigits(s) then Some(DigitsValue(s))
    else None
  }

  /** The decimal spelling of an int reads back as that int. */
  lemma IntToStringRoundTrip(n: int)
    ensures ParseInt(IntToString(n)) == Some(n)
  {
  }

  /** Distinct ints have distinct decimal spellings. */
  lemma IntToStringInjective(a: int, b: int)
    requires IntToString(a) == IntToString(b)
    ensures a == b
  {
  }

  /** The decimal spelling of an int is the only string that reads back as that int. */
  lemma ParseIntOnlyCanonical(s: string, n: int)
    requires ParseInt(s) == Some(n)
    ensures s == IntToString(n)
  {
    if |s| > 0 && s[0] == '-' {
      CanonicalDigitsAreNatToString(s[1..]);
      assert s == "-" + s[1..];
    } else {
      CanonicalDigitsAreNatToString(s);
    }
  }
}
