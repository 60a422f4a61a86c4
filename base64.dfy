/** btoa: the base64 text the store keeps in place of the PIN. It is an
    encoding, not a hash; all the store relies on is that two different PINs
    never share a text, which follows from the decoder below. */
module Base64 {

  /** btoa accepts only text whose characters fit in one byte. */
  predicate IsLatin1(s: string)
  {
    forall k :: 0 <= k < |s| ==> s[k] as int < 256
  }

  /** The base64 alphabet: A-Z, a-z, 0-9, '+', '/'. */
  function SextetChar(v: nat): (c: char)
    requires v < 64
    ensures c != '='
  {
    if v < 26 then ('A' as int + v) as char
    else if v < 52 then ('a' as int + (v - 26)) as char
    else if v < 62 then ('0' as int + (v - 52)) as char
    else if v == 62 then '+'
    else '/'
  }

  /** The value of an alphabet character; anything else reads as 0. */
  function SextetValue(c: char): nat
  {
    if 'A' <= c <= 'Z' then c as int - 'A' as int
    else if 'a' <= c <= 'z' then c as int - 'a' as int + 26
    else if '0' <= c <= '9' then c as int - '0' as int + 52
    else if c == '+' then 62
    else if c == '/' then 63
    else 0
  }

  lemma SextetRoundTrip(v: nat)
    requires v < 64
    ensures SextetValue(SextetChar(v)) == v
  {
  }

  /** Three bytes as four characters. */
  function Group3(a: nat, b: nat, c: nat): string
    requires a < 256 && b < 256 && c < 256
  {
    [SextetChar(a / 4), SextetChar((a % 4) * 16 + b / 16),
     SextetChar((b % 16) * 4 + c / 64), SextetChar(c % 64)]
  }

  /** Two final bytes as three characters and one '='. */
  function Group2(a: nat, b: nat): string
    requires a < 256 && b < 256
  {
    [SextetChar(a / 4), SextetChar((a % 4) * 16 + b / 16), SextetChar((b % 16) * 4), '=']
  }

  /** One final byte as two characters and two '='. */
  function Group1(a: nat): string
    requires a < 256
  {
    [SextetChar(a / 4), SextetChar((a % 4) * 16), '=', '=']
  }

  /** btoa: every three bytes become four characters; a short last group is padded with '='. */
  function Btoa(s: string): (t: string)
    requires IsLatin1(s)
    ensures |s| > 0 ==> |t| >= 4
  {
    if |s| == 0 then []
    else if |s| == 1 then Group1(s[0] as int)
    else if |s| == 2 then Group2(s[0] as int, s[1] as int)
    else Group3(s[0] as int, s[1] as int, s[2] as int) + Btoa(s[3..])
  }

  /** Every three bytes, and a short last group, become four characters. */
  lemma {:induction false} BtoaLength(s: string)
    requires IsLatin1(s)
    ensures |Btoa(s)| == 4 * ((|s| + 2) / 3)
  {
    if |s| > 2 {
      BtoaLength(s[3..]);
      assert (|s| + 2) / 3 == (|s[3..]| + 2) / 3 + 1;
    }
  }

  /** atob on well-formed input: four characters back to at most three bytes. */
  function Atob(t: string): string
  {
    if |t| < 4 then []
    else
      var v0, v1, v2, v3 := SextetValue(t[0]), SextetValue(t[1]), SextetValue(t[2]), SextetValue(t[3]);
      var a := (v0 * 4 + v1 / 16) as char;
      if t[2] == '=' then [a]
      else
        var b := ((v1 % 16) * 16 + v2 / 4) as char;
        if t[3] == '=' then [a, b]
        else
          var c := ((v2 % 4) * 64 + v3) as char;
          [a, b, c] + Atob(t[4..])
  }

  lemma ByteSplit(a: nat, b: nat, c: nat)
    requires a < 256 && b < 256 && c < 256
    ensures ((a % 4) * 16 + b / 16) / 16 == a % 4 && ((a % 4) * 16 + b / 16) % 16 == b / 16
    ensures ((b % 16) * 4 + c / 64) / 4 == b % 16 && ((b % 16) * 4 + c / 64) % 4 == c / 64
    ensures (a / 4) * 4 + a % 4 == a
    ensures (b / 16) * 16 + b % 16 == b
    ensures (c / 64) * 64 + c % 64 == c
  {
  }

  lemma Group3RoundTrip(a: nat, b: nat, c: nat, rest: string)
    requires a < 256 && b < 256 && c < 256
    ensures Atob(Group3(a, b, c) + rest) == [a as char, b as char, c as char] + Atob(rest)
  {
    ByteSplit(a, b, c);
    SextetRoundTrip(a / 4);
    SextetRoundTrip((a % 4) * 16 + b / 16);
    SextetRoundTrip((b % 16) * 4 + c / 64);
    SextetRoundTrip(c % 64);
    assert (Group3(a, b, c) + rest)[4..] == rest;
  }

  lemma Group2RoundTrip(a: nat, b: nat)
    requires a < 256 && b < 256
    ensures Atob(Group2(a, b)) == [a as char, b as char]
  {
    ByteSplit(a, b, 0);
    SextetRoundTrip(a / 4);
    SextetRoundTrip((a % 4) * 16 + b / 16);
    SextetRoundTrip((b % 16) * 4);
  }

  lemma Group1RoundTrip(a: nat)
    requires a < 256
    ensures Atob(Group1(a)) == [a as char]
  {
    ByteSplit(a, 0, 0);
    SextetRoundTrip(a / 4);
    SextetRoundTrip((a % 4) * 16);
  }

  /** One full group: if atob undoes btoa after the first three characters, it
      undoes it on the whole text. */
  lemma AtobBtoaGroup(s: string)
    requires IsLatin1(s) && |s| > 2
    requires Atob(Btoa(s[3..])) == s[3..]
    ensures Atob(Btoa(s)) == s
  {
    var rest := s[3..];
    var a, b, c := s[0] as int, s[1] as int, s[2] as int;
    var head := [a as char, b as char, c as char];
    assert Btoa(s) == Group3(a, b, c) + Btoa(rest);
    assert Atob(Group3(a, b, c) + Btoa(rest)) == head + rest by {
      Group3RoundTrip(a, b, c, Btoa(rest));
    }
    assert head + rest == s by {
      assert head == s[..3];
    }
  }

  /** atob undoes btoa. */
  lemma {:induction false} AtobBtoa(s: string)
    requires IsLatin1(s)
    ensures Atob(Btoa(s)) == s
  {
    if |s| == 1 {
      Group1RoundTrip(s[0] as int);
    } else if |s| == 2 {
      Group2RoundTrip(s[0] as int, s[1] as int);
    } else if |s| > 2 {
      assert IsLatin1(s[3..]);
      AtobBtoa(s[3..]);
      AtobBtoaGroup(s);
    }
  }

  /** Two PINs with the same btoa text are the same PIN. */
  lemma BtoaInjective(p: string, q: string)
    requires IsLatin1(p) && IsLatin1(q)
    requires Btoa(p) == Btoa(q)
    ensures p == q
  {
    AtobBtoa(p);
    AtobBtoa(q);
  }
}
