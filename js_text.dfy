/** The pieces of JavaScript's string and number semantics that the movie
    front end relies on: values that may be `undefined`, truthiness of
    strings, `String.prototype.trim`, `Number.prototype.toString` on
    integers and `parseInt(s) || 0`. */
module JsText {

  /** A value that may be `undefined`. */
  datatype Option<+T> = None | Some(value: T) {
    /** `x ?? fallback` */
    function GetOr(fallback: T): T {
      if Some? then value else fallback
    }
  }

  /** A string that JavaScript treats as true in a condition: present and non-empty. */
  predicate Truthy(s: Option<string>) {
    s.Some? && s.value != ""
  }

  /** `s || fallback` on a string that may be undefined. */
  function OrElse(s: Option<string>, fallback: string): (r: string)
    ensures Truthy(s) ==> r == s.value
    ensures !Truthy(s) ==> r == fallback
    ensures fallback != "" ==> r != ""
  {
    if Truthy(s) then s.value else fallback
  }

  /** The characters `trim` removes: WhiteSpace and LineTerminator of
      section 12.2 and 12.3 of ECMA-262 (space separators of category Zs included). */
  predicate IsWhitespace(c: char) {
    || c == '\t' || c == '\n' || c == '\U{000B}' || c == '\U{000C}' || c == '\r' || c == ' '
    || c == '\U{00A0}' || c == '\U{1680}' || ('\U{2000}' <= c <= '\U{200A}')
    || c == '\U{2028}' || c == '\U{2029}' || c == '\U{202F}' || c == '\U{205F}'
    || c == '\U{3000}' || c == '\U{FEFF}'
  }

  predicate AllWhitespace(s: string) {
    forall i :: 0 <= i < |s| ==> IsWhitespace(s[i])
  }

  /** `s.trimStart()`: the suffix of `s` that starts at its first non-whitespace character. */
  function TrimStart(s: string): (r: string)
    ensures |r| <= |s|
    ensures r == "" <==> AllWhitespace(s)
    ensures r != "" ==> !IsWhitespace(r[0])
  {
    if |s| > 0 && IsWhitespace(s[0]) then TrimStart(s[1..]) else s
  }

  /** What `trimStart` keeps is a suffix of its input, and what it drops is whitespace. */
  lemma {:induction false} TrimStartSuffix(s: string)
    ensures var r := TrimStart(s); r == s[|s| - |r|..] && AllWhitespace(s[..|s| - |r|])
  {
    if |s| > 0 && IsWhitespace(s[0]) {
      TrimStartSuffix(s[1..]);
      var r := TrimStart(s);
      assert s[1..][|s| - 1 - |r|..] == s[|s| - |r|..];
      assert s[..|s| - |r|] == [s[0]] + s[1..][..|s| - 1 - |r|];
    }
  }

  /** `s.trimEnd()`: the prefix of `s` that ends at its last non-whitespace character. */
  function TrimEnd(s: string): (r: string)
    ensures |r| <= |s| && r == s[..|r|]
    ensures r == "" <==> AllWhitespace(s)
    ensures r != "" ==> !IsWhitespace(r[|r| - 1])
  {
    if |s| > 0 && IsWhitespace(s[|s| - 1]) then TrimEnd(s[..|s| - 1]) else s
  }

  /** What `trimEnd` drops is whitespace. */
  lemma {:induction false} TrimEndPrefix(s: string)
    ensures var r := TrimEnd(s); r == s[..|r|] && AllWhitespace(s[|r|..])
  {
    if |s| > 0 && IsWhitespace(s[|s| - 1]) {
      var init := s[..|s| - 1];
      TrimEndPrefix(init);
      var r := TrimEnd(s);
      assert init[|r|..] + [s[|s| - 1]] == s[|r|..];
    }
  }

  /** `s.trim()` */
  function Trim(s: string): (r: string)
    ensures r == "" <==> AllWhitespace(s)
    ensures r != "" ==> !IsWhitespace(r[0]) && !IsWhitespace(r[|r| - 1])
  {
    TrimEnd(TrimStart(s))
  }

  /** `s.trim()` is the middle of `s`: what it drops before and after is
      whitespace, and what it keeps is a contiguous part of `s`. */
  lemma TrimMiddle(s: string)
    ensures var r, i := Trim(s), |s| - |TrimStart(s)|;
      && i + |r| <= |s| && r == s[i..i + |r|]
      && AllWhitespace(s[..i]) && AllWhitespace(s[i + |r|..])
  {
    var t := TrimStart(s);
    TrimStartSuffix(s);
    TrimEndPrefix(t);
    MiddleOfTwoCuts(s, t, TrimEnd(t));
  }

  /** Cutting whitespace off the front of `s`, giving `t`, and then off the
      back of `t`, giving `r`, leaves a slice of `s` between two runs of
      whitespace. */
  lemma MiddleOfTwoCuts(s: string, t: string, r: string)
    requires |t| <= |s| && t == s[|s| - |t|..] && AllWhitespace(s[..|s| - |t|])
    requires |r| <= |t| && r == t[..|r|] && AllWhitespace(t[|r|..])
    ensures var i := |s| - |t|;
      && i + |r| <= |s| && r == s[i..i + |r|]
      && AllWhitespace(s[..i]) && AllWhitespace(s[i + |r|..])
  {
    var i := |s| - |t|;
    assert t[|r|..] == s[i + |r|..];
  }

  /** `!s.trim()`: the string holds nothing but whitespace. */
  predicate IsBlank(s: string) {
    Trim(s) == ""
  }

  predicate IsDigit(c: char) {
    '0' <= c <= '9'
  }

  predicate AllDigits(s: string) {
    forall i :: 0 <= i < |s| ==> IsDigit(s[i])
  }

  function DigitChar(d: nat): (c: char)
    requires d < 10
    ensures IsDigit(c) && DigitValue(c) == d
  {
    "0123456789"[d]
  }

  function DigitValue(c: char): int
    requires IsDigit(c)
  {
    c as int - '0' as int
  }

  /** The decimal digits of a natural number, most significant first. */
  function Digits(n: nat): (r: string)
    ensures |r| > 0 && AllDigits(r)
    ensures r[0] == '0' ==> n == 0
  {
    if n < 10 then [DigitChar(n)] else Digits(n / 10) + [DigitChar(n % 10)]
  }

  /** `n.toString()` for an integer `n`: a minus sign for a negative number,
      then its digits, with no leading zero. */
  function DecimalText(n: int): (r: string)
    ensures n >= 0 ==> r != "" && AllDigits(r) && (r[0] == '0' ==> r == "0")
    ensures n < 0 ==> |r| > 1 && r[0] == '-' && AllDigits(r[1..]) && r[1] != '0'
  {
    if n < 0 then "-" + Digits(-n) else Digits(n)
  }

  /** The longest prefix of `s` made of decimal digits. */
  function LeadingDigits(s: string): (r: string)
    ensures AllDigits(r) && |r| <= |s|
  {
    if |s| > 0 && IsDigit(s[0]) then [s[0]] + LeadingDigits(s[1..]) else ""
  }

  /** The number a string of decimal digits denotes. */
  function DigitsValue(s: string): (v: nat)
    requires AllDigits(s)
  {
    if s == "" then 0 else DigitsValue(s[..|s| - 1]) * 10 + DigitValue(s[|s| - 1])
  }

  /** `parseInt(s) || 0`: skip leading whitespace, read an optional sign and the
      decimal digits that follow; no digits at all gives 0. */
  function ParseCount(s: string): (r: int)
    ensures r < 0 ==> TrimStart(s) != "" && TrimStart(s)[0] == '-'
    ensures var t := TrimStart(s);
      t == "" || !(IsDigit(t[0]) || t[0] == '-' || t[0] == '+') ==> r == 0
  {
    var t := TrimStart(s);
    var negative := |t| > 0 && t[0] == '-';
    var u := if |t| > 0 && (t[0] == '-' || t[0] == '+') then t[1..] else t;
    var v: int := DigitsValue(LeadingDigits(u));
    if negative then -v else v
  }

  lemma {:induction false} DigitsValueOfDigits(n: nat)
    ensures DigitsValue(Digits(n)) == n
  {
    if n >= 10 {
      DigitsValueOfDigits(n / 10);
      var s := Digits(n);
      assert s[..|s| - 1] == Digits(n / 10);
    }
  }

  lemma {:induction false} LeadingDigitsOfDigits(ds: string, rest: string)
    requires AllDigits(ds)
    requires rest == "" || !IsDigit(rest[0])
    ensures LeadingDigits(ds + rest) == ds
  {
    if ds != "" {
      LeadingDigitsOfDigits(ds[1..], rest);
      assert (ds + rest)[1..] == ds[1..] + rest;
      assert [ds[0]] + ds[1..] == ds;
    }
  }

  /** `parseInt` of a digit string followed by non-digit text reads the digits. */
  lemma ParseCountOfDigits(ds: string, rest: string)
    requires ds != "" && AllDigits(ds)
    requires rest == "" || !IsDigit(rest[0])
    ensures ParseCount(ds + rest) == DigitsValue(ds)
  {
    var text := ds + rest;
    assert IsDigit(text[0]);
    assert !IsWhitespace(text[0]);
    assert TrimStart(text) == text;
    assert text[0] != '-' && text[0] != '+';
    LeadingDigitsOfDigits(ds, rest);
  }

  /** `parseInt` of a minus sign, a digit string and non-digit text reads a negative number. */
  lemma ParseCountOfNegative(ds: string, rest: string)
    requires ds != "" && AllDigits(ds)
    requires rest == "" || !IsDigit(rest[0])
    ensures ParseCount("-" + ds + rest) == 0 - DigitsValue(ds) as int
  {
    var text := "-" + ds + rest;
    assert text[0] == '-';
    assert TrimStart(text) == text;
    assert text[1..] == ds + rest;
    LeadingDigitsOfDigits(ds, rest);
  }

  /** Reading back the text of an integer gives the integer, whatever non-digit
      text follows it. */
  lemma ParseCountDecimalText(n: int, rest: string)
    requires rest == "" || !IsDigit(rest[0])
    ensures ParseCount(DecimalText(n) + rest) == n
  {
    if n < 0 {
      DigitsValueOfDigits(-n);
      ParseCountOfNegative(Digits(-n), rest);
    } else {
      DigitsValueOfDigits(n);
      ParseCountOfDigits(Digits(n), rest);
    }
  }
}
