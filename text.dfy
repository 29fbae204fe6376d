/** The few pieces of .NET string behaviour the gateway relies on: `Int32.ToString()`,
    `int.Parse`, ordinal `String.Contains`, `string.IsNullOrEmpty`,
    `string.IsNullOrWhiteSpace`, and `Length`/`Substring` as they count. A Dafny `char`
    is a Unicode scalar value, while a C# `char` is a UTF-16 code unit: a character
    outside the Basic Multilingual Plane is one element here and two in C#, so lengths
    and cuts that C# takes in code units are stated with `Utf16Length` and
    `Utf16Prefix`. */
module Text {
  import opened Wrappers

  /** C#'s `int` (System.Int32). */
  type Int32 = x: int | -0x8000_0000 <= x <= 0x7FFF_FFFF

  const Int32Min: int := -0x8000_0000
  const Int32Max: int := 0x7FFF_FFFF

  predicate IsDigit(c: char) {
    '0' <= c <= '9'
  }

  predicate AllDigits(s: string) {
    forall i :: 0 <= i < |s| ==> IsDigit(s[i])
  }

  function DigitValue(c: char): nat
    requires IsDigit(c)
  {
    c as int - '0' as int
  }

  function DigitChar(d: nat): (c: char)
    requires d < 10
    ensures IsDigit(c) && DigitValue(c) == d
  {
    ('0' as int + d) as char
  }

  /** The number a string of decimal digits denotes (most significant digit first). */
  function DigitsValue(s: string): nat
    requires AllDigits(s)
  {
    if |s| == 0 then 0 else DigitsValue(s[..|s| - 1]) * 10 + DigitValue(s[|s| - 1])
  }

  /** The decimal digits of `n` without leading zeros: what `ToString()` prints for a
      non-negative `int`. Reading the digits back gives `n`. */
  function NatString(n: nat): (s: string)
    ensures |s| >= 1 && AllDigits(s)
    ensures DigitsValue(s) == n
    ensures n >= 10 <==> |s| >= 2
  {
    if n < 10 then
      [DigitChar(n)]
    else
      var front := NatString(n / 10);
      var s := front + [DigitChar(n % 10)];
      assert s[..|s| - 1] == front;
      s
  }

  /** `Int32.ToString()` with the invariant culture's minus sign. */
  function DecimalString(n: int): string
  {
    if n < 0 then "-" + NatString(-n) else NatString(n)
  }

  /** The white space `int.Parse` skips around a number (`NumberStyles.Integer`). */
  predicate IsNumberWhite(c: char) {
    c == ' ' || '\t' <= c <= '\r'
  }

  function TrimStart(s: string): string
  {
    if |s| > 0 && IsNumberWhite(s[0]) then TrimStart(s[1..]) else s
  }

  function TrimEnd(s: string): string
  {
    if |s| > 0 && IsNumberWhite(s[|s| - 1]) then TrimEnd(s[..|s| - 1]) else s
  }

  /** `int.Parse(s)`: optional surrounding white space, an optional sign, one or more
      decimal digits, and a value that fits an `int`. `None` stands for the
      `FormatException` or `OverflowException` the parser throws otherwise. */
  function ParseInt32(s: string): Option<Int32>
  {
    var t := TrimEnd(TrimStart(s));
    var signed := |t| > 0 && (t[0] == '-' || t[0] == '+');
    var digits := if signed then t[1..] else t;
    if |digits| == 0 || !AllDigits(digits) then
      None
    else
      var v: int := if signed && t[0] == '-' then -(DigitsValue(digits) as int) else DigitsValue(digits);
      if Int32Min <= v <= Int32Max then Some(v) else None
  }

  /** Parsing what `ToString()` printed gives back the number: the round trip an
      identifier makes through a claim or a session field. */
  lemma ParseDecimalRoundTrip(n: Int32)
    ensures ParseInt32(DecimalString(n)) == Some(n)
  {
    var s := DecimalString(n);
    var m: nat := if n < 0 then -(n as int) else n;
    var digits := NatString(m);
    assert !IsNumberWhite(s[0]) && !IsNumberWhite(s[|s| - 1]);
    assert TrimEnd(TrimStart(s)) == s;
    if n < 0 {
      assert s[1..] == digits;
    } else {
      assert s[0] != '-' && s[0] != '+';
    }
  }

  /** An empty string, or one of white space alone, does not parse. */
  lemma ParseBlankFails(s: string)
    requires forall i :: 0 <= i < |s| ==> IsNumberWhite(s[i])
    ensures ParseInt32(s) == None
  {
    TrimStartOfWhite(s);
  }

  lemma {:induction false} TrimStartOfWhite(s: string)
    requires forall i :: 0 <= i < |s| ==> IsNumberWhite(s[i])
    ensures TrimStart(s) == ""
  {
    if |s| > 0 {
      TrimStartOfWhite(s[1..]);
    }
  }

  /** `t` occurs in `s` starting at position `i`. */
  predicate OccursAt(s: string, t: string, i: int) {
    0 <= i && i + |t| <= |s| && s[i..i + |t|] == t
  }

  /** Ordinal `String.Contains`: `t` occurs in `s` at some position. */
  predicate Contains(s: string, t: string) {
    exists i :: 0 <= i <= |s| && OccursAt(s, t, i)
  }

  /** No position of `s` holds `c`. */
  predicate Lacks(s: string, c: char) {
    forall j :: 0 <= j < |s| ==> s[j] != c
  }

  /** `string.IsNullOrEmpty`. */
  predicate NullOrEmpty(s: Option<string>) {
    s.None? || s.value == ""
  }

  /** `Char.IsWhiteSpace`: the Unicode space, line and paragraph separators, the
      control characters U+0009 to U+000D and U+0085. */
  predicate IsWhiteSpace(c: char) {
    ('\U{9}' <= c <= '\U{D}') || c == ' ' || c == '\U{85}' || c == '\U{A0}'
    || c == '\U{1680}' || ('\U{2000}' <= c <= '\U{200A}') || c == '\U{2028}' || c == '\U{2029}'
    || c == '\U{202F}' || c == '\U{205F}' || c == '\U{3000}'
  }

  /** `string.IsNullOrWhiteSpace`. */
  predicate NullOrWhiteSpace(s: Option<string>) {
    s.None? || forall i :: 0 <= i < |s.value| ==> IsWhiteSpace(s.value[i])
  }

  /** Every null-or-empty string is null-or-white-space, not conversely: `" "` passes
      the empty check but fails the white-space check. */
  lemma EmptyIsBlank(s: Option<string>)
    ensures NullOrEmpty(s) ==> NullOrWhiteSpace(s)
    ensures !NullOrEmpty(Some(" ")) && NullOrWhiteSpace(Some(" "))
  {
  }

  // ---------------------------------------------------------------------------
  // UTF-16 lengths

  /** The UTF-16 code units a character takes: two for a character outside the Basic
      Multilingual Plane (a surrogate pair), one otherwise. */
  function CodeUnits(c: char): nat {
    if c as int > 0xFFFF then 2 else 1
  }

  /** `String.Length`: the number of UTF-16 code units. */
  function Utf16Length(s: string): nat {
    if |s| == 0 then 0 else CodeUnits(s[0]) + Utf16Length(s[1..])
  }

  lemma {:induction false} Utf16LengthAppend(a: string, b: string)
    ensures Utf16Length(a + b) == Utf16Length(a) + Utf16Length(b)
  {
    if |a| > 0 {
      assert (a + b)[1..] == a[1..] + b;
      Utf16LengthAppend(a[1..], b);
    } else {
      assert a + b == b;
    }
  }

  /** On text inside the Basic Multilingual Plane both counts agree. */
  lemma {:induction false} Utf16LengthOfBmp(s: string)
    requires forall i :: 0 <= i < |s| ==> s[i] as int <= 0xFFFF
    ensures Utf16Length(s) == |s|
  {
    if |s| > 0 {
      Utf16LengthOfBmp(s[1..]);
    }
  }

  /** The longest prefix of `s` that fits in `n` UTF-16 code units: what
      `Substring(0, n)` keeps, except that where the cut falls inside a surrogate pair
      .NET keeps the pair's lone first half, which a Dafny string cannot hold, and this
      prefix stops before the pair. */
  function Utf16Prefix(s: string, n: nat): (p: string)
    ensures p <= s && Utf16Length(p) <= n
    ensures Utf16Length(s) <= n ==> p == s
    ensures Utf16Length(s) > n ==> |p| < |s| && Utf16Length(p) + CodeUnits(s[|p|]) > n
  {
    if |s| == 0 || CodeUnits(s[0]) > n then ""
    else
      var rest := Utf16Prefix(s[1..], n - CodeUnits(s[0]));
      assert ([s[0]] + rest)[1..] == rest;
      assert s == [s[0]] + s[1..];
      [s[0]] + rest
  }
}
