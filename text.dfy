/**
 * The string operations the pipeline relies on, as Python defines them:
 * `str.isspace`, `str.strip()`, `str(int)` and slicing `s[:n]`.
 */
module Text {

  /** Python's `str.isspace` for one character (the Unicode white-space characters). */
  predicate IsSpace(c: char)
  {
    || c == ' '
    || ('\t' <= c <= '\r')
    || ('\U{1C}' <= c <= '\U{1F}')
    || c == '\U{85}' || c == '\U{A0}' || c == '\U{1680}'
    || ('\U{2000}' <= c <= '\U{200A}')
    || c == '\U{2028}' || c == '\U{2029}' || c == '\U{202F}' || c == '\U{205F}' || c == '\U{3000}'
  }

  /** `not s.strip()`: the string is empty or made only of white space. */
  predicate IsBlank(s: string)
  {
    forall i :: 0 <= i < |s| ==> IsSpace(s[i])
  }

  /** `s.lstrip()` */
  function TrimLeft(s: string): (r: string)
    ensures |r| <= |s| && r == s[|s| - |r|..]
    ensures forall i :: 0 <= i < |s| - |r| ==> IsSpace(s[i])
    ensures r != [] ==> !IsSpace(r[0])
  {
    if s != [] && IsSpace(s[0]) then TrimLeft(s[1..]) else s
  }

  /** `s.rstrip()` */
  function TrimRight(s: string): (r: string)
    ensures |r| <= |s| && r == s[..|r|]
    ensures forall i :: |r| <= i < |s| ==> IsSpace(s[i])
    ensures r != [] ==> !IsSpace(r[|r| - 1])
  {
    if s != [] && IsSpace(s[|s| - 1]) then TrimRight(s[..|s| - 1]) else s
  }

  /**
   * `s.strip()`: `s` without its leading and trailing white space. The result
   * is empty exactly when `s` is blank, and otherwise starts and ends with a
   * character that is not white space.
   */
  function Strip(s: string): (r: string)
    ensures |r| <= |s|
    ensures r == [] <==> IsBlank(s)
    ensures r != [] ==> !IsSpace(r[0]) && !IsSpace(r[|r| - 1])
  {
    var l := TrimLeft(s);
    var r := TrimRight(l);
    if r != [] then
      assert r[0] == l[0] == s[|s| - |l|];
      r
    else
      r
  }

  /** A concatenation is blank exactly when both parts are. */
  lemma BlankConcatIff(a: string, b: string)
    ensures IsBlank(a + b) <==> IsBlank(a) && IsBlank(b)
  {
    if IsBlank(a + b) {
      assert forall i :: 0 <= i < |a| ==> a[i] == (a + b)[i];
      assert forall i :: 0 <= i < |b| ==> b[i] == (a + b)[|a| + i];
    }
  }

  /** A blank string never hides a non-blank part: if `a` is not blank, neither is `a + b` nor `b + a`. */
  lemma NotBlankConcat(a: string, b: string)
    requires !IsBlank(a)
    ensures !IsBlank(a + b) && !IsBlank(b + a)
  {
    var i :| 0 <= i < |a| && !IsSpace(a[i]);
    assert (a + b)[i] == a[i];
    assert (b + a)[|b| + i] == a[i];
  }

  /** The character for a decimal digit. */
  function DigitChar(d: nat): (c: char)
    requires d < 10
    ensures '0' <= c <= '9' && c as int - '0' as int == d
  {
    ('0' as int + d) as char
  }

  predicate IsDigits(s: string)
  {
    forall i :: 0 <= i < |s| ==> '0' <= s[i] <= '9'
  }

  /** Python's `str(n)` for a natural number: its decimal digits, without leading zeros. */
  function NatToString(n: nat): (r: string)
    ensures |r| >= 1 && IsDigits(r)
    ensures r[0] == '0' ==> n == 0
  {
    if n < 10 then [DigitChar(n)] else NatToString(n / 10) + [DigitChar(n % 10)]
  }

  /** The number a string of decimal digits denotes (Python's `int(s)` on digits). */
  function DigitsValue(s: string): nat
    requires IsDigits(s)
  {
    if s == [] then 0
    else DigitsValue(s[..|s| - 1]) * 10 + (s[|s| - 1] as int - '0' as int)
  }

  /** Reading back the decimal rendering of `n` gives `n`. */
  lemma {:induction false} DecimalRoundTrip(n: nat)
    ensures DigitsValue(NatToString(n)) == n
  {
    var r := NatToString(n);
    if n >= 10 {
      DecimalRoundTrip(n / 10);
      assert r[..|r| - 1] == NatToString(n / 10);
    }
  }

  /** Distinct numbers render as distinct strings. */
  lemma NatToStringInjective(a: nat, b: nat)
    requires NatToString(a) == NatToString(b)
    ensures a == b
  {
    DecimalRoundTrip(a);
    DecimalRoundTrip(b);
  }

  /** Python's `str(i)` for an integer. */
  function IntToString(i: int): (r: string)
    ensures r != [] && !IsSpace(r[0])
  {
    if i < 0 then "-" + NatToString(-i) else NatToString(i)
  }

  /** Python's `s[:n]` for `n >= 0`. */
  function Prefix<T>(s: seq<T>, n: nat): (r: seq<T>)
    ensures |r| == if n < |s| then n else |s|
    ensures r == s[..|r|]
  {
    if n < |s| then s[..n] else s
  }

  predicate StartsWith(s: string, prefix: string)
  {
    |prefix| <= |s| && s[..|prefix|] == prefix
  }

  predicate EndsWith(s: string, suffix: string)
  {
    |suffix| <= |s| && s[|s| - |suffix|..] == suffix
  }

  lemma AppendAssoc(x: string, y: string, z: string)
    ensures x + y + z == x + (y + z)
  {
  }

  /** A concatenation starts with its first part and ends with its last. */
  lemma Framed(x: string, y: string, z: string)
    ensures StartsWith(x + y + z, x) && EndsWith(x + y + z, z)
  {
    assert (x + y + z)[..|x|] == x;
    assert (x + y + z)[|x + y + z| - |z|..] == z;
  }
}
