/** String helpers the screens share: JavaScript's trim, decimal integers in
    text (String(n) and parseInt). */
module Text {
  import opened Types

  /** The characters String.prototype.trim removes: white space and line terminators. */
  predicate IsJsSpace(c: char)
  {
    c == ' ' || c == '\t' || c == '\n' || c == '\r' || c == '\U{000B}' || c == '\U{000C}'
    || c == '\U{00A0}' || c == '\U{1680}' || ('\U{2000}' <= c <= '\U{200A}')
    || c == '\U{2028}' || c == '\U{2029}' || c == '\U{202F}' || c == '\U{205F}'
    || c == '\U{3000}' || c == '\U{FEFF}'
  }

  /** Text made of white space only (the empty text included). */
  predicate IsBlank(s: string)
  {
    forall k :: 0 <= k < |s| ==> IsJsSpace(s[k])
  }

  /** How many white-space characters open s. */
  function LeadingSpaces(s: string): (n: nat)
    ensures n <= |s|
    ensures forall k :: 0 <= k < n ==> IsJsSpace(s[k])
    ensures n < |s| ==> !IsJsSpace(s[n])
  {
    if s == [] || !IsJsSpace(s[0]) then 0 else 1 + LeadingSpaces(s[1..])
  }

  /** The index after the last character of s that is not white space (0 if none). */
  function ContentEnd(s: string): (m: nat)
    ensures m <= |s|
    ensures forall k :: m <= k < |s| ==> IsJsSpace(s[k])
    ensures m > 0 ==> !IsJsSpace(s[m - 1])
  {
    if s == [] || !IsJsSpace(s[|s| - 1]) then |s| else ContentEnd(s[..|s| - 1])
  }

  /** String.prototype.trim: the text with white space removed at both ends. */
  function Trim(s: string): (r: string)
    ensures r == [] <==> IsBlank(s)
    ensures r != [] ==> !IsJsSpace(r[0]) && !IsJsSpace(r[|r| - 1])
    ensures exists a, b :: 0 <= a <= b <= |s| && r == s[a..b] && IsBlank(s[..a]) && IsBlank(s[b..])
  {
    var a := LeadingSpaces(s);
    var b := ContentEnd(s);
    if b <= a then
      assert a < |s| ==> a < b;
      assert [] == s[a..a] && IsBlank(s[..a]) && IsBlank(s[a..]);
      []
    else
      assert IsBlank(s[..a]) && IsBlank(s[b..]);
      s[a..b]
  }

  /** Trimming twice is trimming once. */
  lemma TrimIdempotent(s: string)
    ensures Trim(Trim(s)) == Trim(s)
  {
    var r := Trim(s);
    if r != [] {
      assert LeadingSpaces(r) == 0;
      assert ContentEnd(r) == |r|;
      assert r[0..|r|] == r;
    }
  }

  predicate IsDigit(c: char)
  {
    '0' <= c <= '9'
  }

  function DigitChar(d: nat): (c: char)
    requires d < 10
    ensures IsDigit(c)
  {
    ('0' as int + d) as char
  }

  function DigitValue(c: char): (d: nat)
    requires IsDigit(c)
    ensures d < 10 && DigitChar(d) == c
  {
    c as int - '0' as int
  }

  predicate AllDigits(s: string)
  {
    forall k :: 0 <= k < |s| ==> IsDigit(s[k])
  }

  /** The value of a run of decimal digits, most significant first. */
  function DigitsValue(ds: string): nat
    requires AllDigits(ds)
  {
    if ds == [] then 0 else DigitsValue(ds[..|ds| - 1]) * 10 + DigitValue(ds[|ds| - 1])
  }

  /** String(n) for a non-negative integer: its decimal digits. */
  function NatToText(n: nat): (s: string)
    ensures s != [] && AllDigits(s)
    ensures DigitsValue(s) == n
    ensures |s| > 1 ==> s[0] != '0'
  {
    if n < 10 then [DigitChar(n)]
    else
      var s := NatToText(n / 10) + [DigitChar(n % 10)];
      assert s[..|s| - 1] == NatToText(n / 10);
      s
  }

  /** String(i) for any integer: a minus sign before the digits of a negative one. */
  function IntToText(i: int): (s: string)
    ensures s != []
    ensures s[0] == '-' <==> i < 0
  {
    if i < 0 then "-" + NatToText(-i) else NatToText(i)
  }

  /** Length of the longest run of digits that opens s. */
  function DigitRun(s: string): (n: nat)
    ensures n <= |s| && AllDigits(s[..n])
    ensures n < |s| ==> !IsDigit(s[n])
  {
    if s == [] || !IsDigit(s[0]) then 0
    else
      var n := 1 + DigitRun(s[1..]);
      assert s[..n] == [s[0]] + s[1..][..n - 1];
      n
  }

  /** Reads an optional minus sign and at least one digit; gives the value and the rest. */
  function ParseIntToken(s: string): (r: Option<(int, string)>)
    ensures r.Some? ==> |r.value.1| < |s| && r.value.1 == s[|s| - |r.value.1|..]
  {
    var neg := s != [] && s[0] == '-';
    var body := if neg then s[1..] else s;
    var n := DigitRun(body);
    if n == 0 then None
    else
      var v: int := DigitsValue(body[..n]);
      Some((if neg then -v else v, body[n..]))
  }

  /** A run of digits followed by anything that does not start with a digit is read whole. */
  lemma {:induction false} DigitRunOfDigits(d: string, rest: string)
    requires AllDigits(d)
    requires rest == [] || !IsDigit(rest[0])
    ensures DigitRun(d + rest) == |d|
  {
    if d != [] {
      assert (d + rest)[1..] == d[1..] + rest;
      DigitRunOfDigits(d[1..], rest);
    } else {
      assert d + rest == rest;
    }
  }

  /** String(i) read back by the integer reader gives i and leaves the rest alone. */
  lemma ParseIntTokenRoundTrip(i: int, rest: string)
    requires rest == [] || !IsDigit(rest[0])
    ensures ParseIntToken(IntToText(i) + rest) == Some((i, rest))
  {
    var m: nat := if i < 0 then -i else i;
    var d := NatToText(m);
    DigitRunOfDigits(d, rest);
    var body := d + rest;
    assert body[..|d|] == d;
    assert body[|d|..] == rest;
    if i < 0 {
      var s := "-" + d + rest;
      assert s == IntToText(i) + rest;
      assert s[1..] == body;
    } else {
      assert d + rest == IntToText(i) + rest;
      assert d[0] != '-';
    }
  }

  /** parseInt on base-ten text: leading white space, an optional sign, then digits up
      to the first non-digit; None stands for NaN. */
  function ParseIntText(s: string): (r: Option<int>)
    ensures r.Some? ==> exists k :: 0 <= k < |s| && IsDigit(s[k])
  {
    var t := s[LeadingSpaces(s)..];
    if t != [] && t[0] == '+' then
      var u := t[1..];
      if u != [] && IsDigit(u[0]) then
        assert u[0] in s;
        match ParseIntToken(u)
        case Some((v, _)) => Some(v)
        case None => None
      else None
    else
      match ParseIntToken(t)
      case Some((v, rest)) =>
        var body := if t[0] == '-' then t[1..] else t;
        assert IsDigit(body[0]);
        assert body[0] in s;
        Some(v)
      case None => None
  }

  /** A plus sign must be followed by a digit: "+-0" is NaN, "+7" is 7. */
  lemma PlusSignExample()
    ensures ParseIntText("+-0") == None
    ensures ParseIntText("+7") == Some(7)
  {
    assert LeadingSpaces("+-0") == 0 && "+-0"[0..] == "+-0" && "+-0"[1..] == "-0";
    assert LeadingSpaces("+7") == 0 && "+7"[0..] == "+7" && "+7"[1..] == "7";
    ParseIntTokenRoundTrip(7, []);
    assert IntToText(7) + [] == "7";
  }

  /** parseInt(String(i)) == i. */
  lemma ParseIntTextRoundTrip(i: int)
    ensures ParseIntText(IntToText(i)) == Some(i)
  {
    var s := IntToText(i);
    assert s[0] == '-' || IsDigit(s[0]);
    assert LeadingSpaces(s) == 0;
    assert s[0..] == s;
    ParseIntTokenRoundTrip(i, []);
    assert s + [] == s;
  }
}
