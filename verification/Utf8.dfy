/** Strings the JSON library can hold: well-formed UTF-8, section 4 of RFC 3629,
    one character of the string per byte. */
module Utf8 {

  predicate Cont(c: char) { 0x80 <= c as int <= 0xBF }

  predicate Lead3(a: int, b: int) {
    || (a == 0xE0 && 0xA0 <= b <= 0xBF) || (0xE1 <= a <= 0xEC && 0x80 <= b <= 0xBF)
    || (a == 0xED && 0x80 <= b <= 0x9F) || (0xEE <= a <= 0xEF && 0x80 <= b <= 0xBF)
  }

  predicate Lead4(a: int, b: int) {
    || (a == 0xF0 && 0x90 <= b <= 0xBF) || (0xF1 <= a <= 0xF3 && 0x80 <= b <= 0xBF)
    || (a == 0xF4 && 0x80 <= b <= 0x8F)
  }

  /** How many bytes the first character has; 0 if there is no character. */
  function First(s: string): (n: nat)
    ensures n <= |s|
    ensures n > 0 ==> !Cont(s[0]) && forall i :: 0 < i < n ==> Cont(s[i])
  {
    if s == "" then 0
    else
      var a := s[0] as int;
      if a < 0x80 then 1
      else if 0xC2 <= a <= 0xDF && |s| >= 2 && Cont(s[1]) then 2
      else if |s| >= 3 && Lead3(a, s[1] as int) && Cont(s[2]) then 3
      else if |s| >= 4 && Lead4(a, s[1] as int) && Cont(s[2]) && Cont(s[3]) then 4
      else 0
  }

  predicate WellEncoded(s: string) { s == "" || (First(s) > 0 && WellEncoded(s[First(s)..])) }

  lemma {:induction false} AsciiIsUtf8(s: string)
    requires forall c :: c in s ==> c as int < 0x80
    ensures WellEncoded(s)
  {
    if s != "" {
      assert s[0] in s && forall c :: c in s[1..] ==> c in s;
      AsciiIsUtf8(s[1..]);
    }
  }

  lemma CutInside(s: string, n: nat)
    requires 0 < n < First(s)
    ensures First(s[..n]) == 0
  {
  }

  lemma CutAfter(s: string, n: nat)
    requires 0 < First(s) <= n <= |s|
    ensures First(s[..n]) == First(s)
  {
  }

  /** Cutting a well-formed string leaves one exactly when no character is split. */
  lemma {:induction false} CutIsUtf8(s: string, n: nat)
    requires WellEncoded(s) && n < |s|
    ensures WellEncoded(s[..n]) <==> !Cont(s[n])
    decreases |s|
  {
    var k := First(s);
    if n == 0 {
      assert s[..n] == "";
    } else if n < k {
      CutInside(s, n);
    } else {
      CutAfter(s, n);
      assert s[..n][k..] == s[k..][..n - k];
      if n < |s| { assert s[k..][n - k] == s[n]; }
      CutIsUtf8(s[k..], n - k);
    }
  }
}
