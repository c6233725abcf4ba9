/// Character classes and decimal conversions shared by the lexer, the error report
/// and the `str`/`int` built-ins.
module Text {
  import opened Results

  predicate IsDigit(c: char) {
    '0' <= c <= '9'
  }

  predicate AllDigits(s: string) {
    forall i :: 0 <= i < |s| ==> IsDigit(s[i])
  }

  /// The characters for which the host's `str.isspace` holds; they are what `rstrip()`
  /// and `strip()` remove.
  predicate IsSpace(c: char) {
    var n := c as int;
    || (0x09 <= n <= 0x0d) || (0x1c <= n <= 0x20) || n == 0x85 || n == 0xa0 || n == 0x1680
    || (0x2000 <= n <= 0x200a) || n == 0x2028 || n == 0x2029 || n == 0x202f || n == 0x205f
    || n == 0x3000
  }

  function DigitValue(c: char): (d: nat)
    requires IsDigit(c)
    ensures d < 10
  {
    (c as int) - ('0' as int)
  }

  function DigitChar(d: nat): (c: char)
    requires d < 10
    ensures IsDigit(c) && DigitValue(c) == d
  {
    (('0' as int) + d) as char
  }

  /// The value of a non-empty run of decimal digits (leading zeros allowed).
  function DigitsValue(s: string): nat
    requires AllDigits(s)
  {
    if s == [] then 0 else DigitsValue(s[..|s| - 1]) * 10 + DigitValue(s[|s| - 1])
  }

  /// Decimal text of a natural number, without leading zeros.
  function ShowNat(n: nat): (s: string)
    ensures |s| > 0 && AllDigits(s)
    ensures |s| > 1 ==> s[0] != '0'
  {
    if n < 10 then [DigitChar(n)] else ShowNat(n / 10) + [DigitChar(n % 10)]
  }

  /// Decimal text of an integer, with a leading `-` when negative (the host's `str(int)`).
  function ShowInt(i: int): string {
    if i < 0 then "-" + ShowNat(-i) else ShowNat(i)
  }

  lemma {:induction false} DigitsValueOfShowNat(n: nat)
    ensures DigitsValue(ShowNat(n)) == n
  {
    if n >= 10 {
      var s := ShowNat(n);
      assert s[..|s| - 1] == ShowNat(n / 10);
      DigitsValueOfShowNat(n / 10);
    }
  }

  /// `n` copies of `c`; the host's `c * n`, which is empty for `n <= 0`.
  function Repeat(c: char, n: int): (s: string)
    ensures |s| == if n <= 0 then 0 else n
    ensures forall i :: 0 <= i < |s| ==> s[i] == c
    decreases n
  {
    if n <= 0 then "" else [c] + Repeat(c, n - 1)
  }

  /// Drop the leading and trailing `IsSpace` characters (the host's `strip()`).
  function Strip(s: string): (r: string)
    ensures |r| <= |s|
    decreases |s|
  {
    if s != [] && IsSpace(s[0]) then Strip(s[1..])
    else if s != [] && IsSpace(s[|s| - 1]) then Strip(s[..|s| - 1])
    else s
  }

  /// Drop the trailing `IsSpace` characters (the host's `rstrip()`).
  function RStrip(s: string): (r: string)
    ensures |r| <= |s| && r == s[..|r|]
    ensures r == [] || !IsSpace(r[|r| - 1])
    ensures forall i :: |r| <= i < |s| ==> IsSpace(s[i])
  {
    if s != [] && IsSpace(s[|s| - 1]) then RStrip(s[..|s| - 1]) else s
  }

  /// Decimal digits in which single underscores may separate two digits, as the host's
  /// `int()` accepts them.
  predicate DigitGroups(s: string) {
    && |s| > 0 && IsDigit(s[0]) && IsDigit(s[|s| - 1])
    && forall i :: 0 <= i < |s| ==> GroupChar(s, i)
  }

  /// A digit, or an underscore between two digits.
  predicate GroupChar(s: string, i: nat)
    requires i < |s|
  {
    IsDigit(s[i]) || (s[i] == '_' && 0 < i < |s| - 1 && IsDigit(s[i - 1]) && IsDigit(s[i + 1]))
  }

  function RemoveUnderscores(s: string): (r: string)
    ensures |r| <= |s|
  {
    if s == [] then [] else (if s[0] == '_' then [] else [s[0]]) + RemoveUnderscores(s[1..])
  }

  lemma {:induction false} RemoveUnderscoresDigits(s: string)
    requires forall c :: c in s ==> IsDigit(c) || c == '_'
    ensures AllDigits(RemoveUnderscores(s))
  {
    if s != [] {
      assert s[0] in s;
      assert forall c :: c in s[1..] ==> c in s;
      RemoveUnderscoresDigits(s[1..]);
    }
  }

  lemma DigitGroupsChars(s: string)
    requires DigitGroups(s)
    ensures forall c :: c in s ==> IsDigit(c) || c == '_'
  {
    forall c | c in s
      ensures IsDigit(c) || c == '_'
    {
      var i :| 0 <= i < |s| && s[i] == c;
      assert GroupChar(s, i);
    }
  }

  lemma AllDigitsGroups(s: string)
    requires |s| > 0 && AllDigits(s)
    ensures DigitGroups(s)
  {
    forall i | 0 <= i < |s|
      ensures GroupChar(s, i)
    {
      assert IsDigit(s[i]);
    }
  }

  lemma {:induction false} RemoveUnderscoresNone(s: string)
    requires AllDigits(s)
    ensures RemoveUnderscores(s) == s
  {
    if s != [] {
      RemoveUnderscoresNone(s[1..]);
    }
  }

  /// The value of a decimal literal in the host's `int(text)` syntax: surrounding
  /// white space, an optional sign, then digit groups; `None` where `int()` raises
  /// a ValueError.
  function ParseInt(text: string): (r: Option<int>)
    ensures r.Some? ==> |Strip(text)| > 0
  {
    var s := Strip(text);
    if s == [] then None
    else
      var sign := if s[0] == '-' then -1 else 1;
      var digits := if s[0] == '-' || s[0] == '+' then s[1..] else s;
      if !DigitGroups(digits) then None
      else
        DigitGroupsChars(digits);
        RemoveUnderscoresDigits(digits);
        Some(sign * DigitsValue(RemoveUnderscores(digits)))
  }

  lemma StripNoSpace(s: string)
    requires s == [] || (!IsSpace(s[0]) && !IsSpace(s[|s| - 1]))
    ensures Strip(s) == s
  {
  }

  /// `int(str(i)) == i`: the two conversions of the built-ins are inverse on integers.
  lemma {:induction false} ParseIntShowInt(i: int)
    ensures ParseInt(ShowInt(i)) == Some(i)
  {
    var n: nat := if i < 0 then -i else i;
    var digits := ShowNat(n);
    var s := ShowInt(i);
    assert IsDigit(s[|s| - 1]);
    assert s[0] == '-' || IsDigit(s[0]);
    StripNoSpace(s);
    assert Strip(s) == s;
    var body := if s[0] == '-' || s[0] == '+' then s[1..] else s;
    assert body == digits by {
      if i < 0 { assert s[1..] == digits; }
    }
    AllDigitsGroups(digits);
    RemoveUnderscoresNone(digits);
    DigitsValueOfShowNat(n);
  }
}
