/**
 * The string operations the client and the backend share: trimming white
 * space (JavaScript's `String.prototype.trim`, Python's `str.strip`), the
 * "first n characters plus an ellipsis" truncation rule, and the decimal
 * rendering of an integer id (`f"{id}"`).
 */
module Text {

  /** White space as `String.prototype.trim` removes it: the WhiteSpace and
      LineTerminator code points of ECMA-262 (section 12.2 and 12.3). */
  predicate IsJsSpace(c: char) {
    c == '\t' || c == '\n' || c == '\U{B}' || c == '\U{C}' || c == '\r' || c == ' '
    || c == '\U{A0}' || c == '\U{1680}' || ('\U{2000}' <= c <= '\U{200A}')
    || c == '\U{2028}' || c == '\U{2029}' || c == '\U{202F}' || c == '\U{205F}'
    || c == '\U{3000}' || c == '\U{FEFF}'
  }

  /** White space as Python's `str.strip()` removes it (`str.isspace`): unlike
      JavaScript it includes the information separators U+001C..U+001F and
      NEXT LINE U+0085, and it excludes U+FEFF. */
  predicate IsPySpace(c: char) {
    c == '\t' || c == '\n' || c == '\U{B}' || c == '\U{C}' || c == '\r'
    || ('\U{1C}' <= c <= '\U{1F}') || c == ' ' || c == '\U{85}'
    || c == '\U{A0}' || c == '\U{1680}' || ('\U{2000}' <= c <= '\U{200A}')
    || c == '\U{2028}' || c == '\U{2029}' || c == '\U{202F}' || c == '\U{205F}'
    || c == '\U{3000}'
  }

  /** Every character of `s` is white space according to `ws`. */
  predicate AllSpace(s: string, ws: char -> bool) {
    forall i :: 0 <= i < |s| ==> ws(s[i])
  }

  /** `s` without its leading white space: a suffix of `s`. */
  function TrimStart(s: string, ws: char -> bool): (r: string)
    ensures |r| <= |s| && r == s[|s| - |r|..]
    ensures AllSpace(s[..|s| - |r|], ws)
    ensures r != [] ==> !ws(r[0])
  {
    if s != [] && ws(s[0]) then TrimStart(s[1..], ws) else s
  }

  /** `s` without its trailing white space: a prefix of `s`. */
  function TrimEnd(s: string, ws: char -> bool): (r: string)
    ensures |r| <= |s| && r == s[..|r|]
    ensures AllSpace(s[|r|..], ws)
    ensures r != [] ==> !ws(r[|r| - 1])
  {
    if s != [] && ws(s[|s| - 1]) then TrimEnd(s[..|s| - 1], ws) else s
  }

  /** `s` with leading and trailing white space removed: what `trim()` and
      `strip()` return for their respective white-space sets. The result
      starts and ends with a non-space, and it is empty exactly when `s` is
      all white space. */
  function Strip(s: string, ws: char -> bool): (r: string)
    ensures r == [] <==> AllSpace(s, ws)
    ensures r != [] ==> !ws(r[0]) && !ws(r[|r| - 1])
  {
    var t := TrimStart(s, ws);
    var r := TrimEnd(t, ws);
    assert r == [] ==> s == s[..|s| - |t|] + t && t == t[|r|..];
    r
  }

  /** What `Strip` removes is white space and nothing else: the result is the
      slice of `s` between an all-white-space prefix and suffix. */
  lemma StripIsSlice(s: string, ws: char -> bool)
    ensures exists i :: 0 <= i <= |s| - |Strip(s, ws)|
                        && Strip(s, ws) == s[i..i + |Strip(s, ws)|]
                        && AllSpace(s[..i], ws) && AllSpace(s[i + |Strip(s, ws)|..], ws)
  {
    var t := TrimStart(s, ws);
    var r := Strip(s, ws);
    var i := |s| - |t|;
    assert r == s[i..i + |r|] && s[i + |r|..] == t[|r|..];
  }

  /** The truncation rule of the sidebar labels and of the backend's titles
      and previews: the text itself when it has at most `max` characters,
      otherwise its first `max` characters followed by "...". */
  function Truncate(s: string, max: nat): (r: string)
    ensures |r| <= max + 3
    ensures |s| <= max ==> r == s
    ensures |s| > max ==> |r| == max + 3 && r[..max] == s[..max] && r[max..] == "..."
  {
    if |s| > max then s[..max] + "..." else s
  }

  /** Truncating an already truncated text changes nothing. */
  lemma TruncateIdempotent(s: string, max: nat)
    ensures Truncate(Truncate(s, max), max) == Truncate(s, max)
  {
    if |s| > max {
      var r := Truncate(s, max);
      assert r[..max] + "..." == r;
    }
  }

  /** The value of a decimal digit character. */
  function DigitValue(c: char): int {
    c as int - '0' as int
  }

  /** The decimal digit for `d`. */
  function Digit(d: nat): (c: char)
    requires d < 10
    ensures '0' <= c <= '9' && DigitValue(c) == d
  {
    ('0' as int + d) as char
  }

  /** The number a string of decimal digits denotes, most significant first. */
  function DigitsValue(s: string): int {
    if s == [] then 0 else 10 * DigitsValue(s[..|s| - 1]) + DigitValue(s[|s| - 1])
  }

  /** The decimal rendering of `n`, as Python's `str(n)` and `f"{n}"` write
      it: a non-empty string of digits without leading zeros that denotes
      `n`. */
  function Decimal(n: nat): (r: string)
    ensures r != []
    ensures forall i :: 0 <= i < |r| ==> '0' <= r[i] <= '9'
    ensures (r[0] == '0') == (n == 0)
    ensures DigitsValue(r) == n
  {
    if n < 10 then [Digit(n)]
    else
      var r := Decimal(n / 10) + [Digit(n % 10)];
      assert r[..|r| - 1] == Decimal(n / 10);
      r
  }

  /** A string of decimal digits, either "0" or without a leading zero. */
  predicate Canonical(s: string) {
    && s != []
    && (forall i :: 0 <= i < |s| ==> '0' <= s[i] <= '9')
    && (s[0] == '0' ==> s == "0")
  }

  /** Reading a canonical digit string back and rendering it again gives
      the same string. */
  lemma {:induction false} DecimalOfDigits(s: string)
    requires Canonical(s)
    ensures DigitsValue(s) >= 0 && Decimal(DigitsValue(s)) == s
  {
    var n := DigitsValue(s);
    var d := DigitValue(s[|s| - 1]);
    if |s| == 1 {
      assert s[..0] == [];
      assert n == d && 0 <= d < 10;
      assert Decimal(n) == [Digit(d)];
      assert Digit(d) == s[0];
    } else {
      var p := s[..|s| - 1];
      assert p[0] == s[0] && s[0] != '0';
      assert Canonical(p);
      DecimalOfDigits(p);
      var m := DigitsValue(p);
      assert m != 0;
      assert n == 10 * m + d && 0 <= d < 10;
      assert n / 10 == m && n % 10 == d;
      assert Digit(d) == s[|s| - 1];
      assert Decimal(n) == Decimal(m) + [Digit(d)];
      assert s == p + [s[|s| - 1]];
    }
  }

  /** Distinct numbers have distinct decimal renderings: the rendering is
      read back by `DigitsValue`. */
  lemma DecimalInjective(a: nat, b: nat)
    ensures Decimal(a) == Decimal(b) ==> a == b
  {
    if Decimal(a) == Decimal(b) {
      assert DigitsValue(Decimal(a)) == a && DigitsValue(Decimal(b)) == b;
    }
  }
}
