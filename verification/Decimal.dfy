/** Unsigned 64-bit values as decimal text, and lowercase-hex digests. */
module Decimal {
  import opened Types

  predicate IsDigit(c: char) { '0' <= c <= '9' }

  predicate AllDigits(s: string) { forall c :: c in s ==> IsDigit(c) }

  function DigitOf(d: nat): (c: char)
    requires d < 10
    ensures IsDigit(c) && Value(c) == d
  {
    ('0' as int + d) as char
  }

  function Value(c: char): (d: nat)
    requires IsDigit(c)
    ensures d < 10
  {
    c as int - '0' as int
  }

  /** Printed with %llu. */
  function Digits(n: nat): (s: string)
    ensures s != "" && AllDigits(s)
  {
    if n < 10 then [DigitOf(n)] else Digits(n / 10) + [DigitOf(n % 10)]
  }

  function Number(s: string): nat
    requires AllDigits(s)
  {
    if s == "" then 0 else 10 * Number(s[..|s| - 1]) + Value(s[|s| - 1])
  }

  /** Non-empty, nothing but digits, and no overflow. */
  function ParseU64(s: string): Option<nat> {
    if s != "" && AllDigits(s) && Number(s) < U64_LIMIT then Some(Number(s)) else None
  }

  lemma {:induction false} NumberOfDigits(n: nat)
    ensures Number(Digits(n)) == n
  {
    if n >= 10 {
      NumberOfDigits(n / 10);
      assert Digits(n)[..|Digits(n)| - 1] == Digits(n / 10);
    }
  }

  /** Every 64-bit value survives its decimal text. */
  lemma U64RoundTrip(n: nat)
    requires n < U64_LIMIT
    ensures ParseU64(Digits(n)) == Some(n)
  {
    NumberOfDigits(n);
  }

  lemma {:induction false} NumberGrows(s: string, k: nat)
    requires AllDigits(s) && k <= |s|
    ensures AllDigits(s[..k]) && Number(s[..k]) <= Number(s)
    decreases |s| - k
  {
    if k < |s| {
      NumberGrows(s, k + 1);
      assert s[..k + 1][..k] == s[..k];
    } else {
      assert s[..k] == s;
    }
  }

  /** The digit loop: stop at the first non-digit, remember an overflow. */
  method ParseU64Strict(s: string) returns (r: Option<nat>)
    ensures r == ParseU64(s)
  {
    if s == "" || !IsDigit(s[0]) {
      return None;
    }
    var v, i, overflow := 0, 0, false;
    while i < |s| && IsDigit(s[i])
      invariant 0 <= i <= |s| && AllDigits(s[..i])
      invariant overflow <==> Number(s[..i]) >= U64_LIMIT
      invariant !overflow ==> v == Number(s[..i])
    {
      assert s[..i + 1][..i] == s[..i];
      NumberGrows(s[..i + 1], i);
      if !overflow {
        v := 10 * v + Value(s[i]);
        overflow := v >= U64_LIMIT;
      }
      i := i + 1;
    }
    if i < |s| {
      return None;
    }
    assert s[..i] == s;
    r := if overflow then None else Some(v);
  }

  // ---- lowercase hex ----

  predicate IsHex(c: char) { '0' <= c <= '9' || 'a' <= c <= 'f' }

  predicate IsHexString(s: string, n: nat) { |s| == n && forall c :: c in s ==> IsHex(c) }

  function HexDigit(d: nat): (c: char)
    requires d < 16
    ensures IsHex(c)
  {
    if d < 10 then ('0' as int + d) as char else ('a' as int + (d - 10)) as char
  }

  /** The value of one lowercase-hex digit, if it is one. */
  function HexValue(c: char): (r: Option<nat>)
    ensures r.Some? <==> IsHex(c)
    ensures r.Some? ==> r.value < 16
  {
    if '0' <= c <= '9' then Some(c as int - '0' as int)
    else if 'a' <= c <= 'f' then Some(c as int - 'a' as int + 10)
    else None
  }

  lemma HexDigitRoundTrip(d: nat)
    requires d < 16
    ensures HexValue(HexDigit(d)) == Some(d)
  {
  }

  ghost predicate Encodes(b: seq<Byte>, s: string) {
    |s| == 2 * |b| &&
    forall i :: 0 <= i < |b| ==> s[2 * i] == HexDigit(b[i] / 16) && s[2 * i + 1] == HexDigit(b[i] % 16)
  }

  /** The one hex text of a digest. */
  function HexText(b: seq<Byte>): (s: string)
    ensures Encodes(b, s)
  {
    if b == [] then "" else HexText(b[..|b| - 1]) + [HexDigit(b[|b| - 1] / 16), HexDigit(b[|b| - 1] % 16)]
  }

  method HexEncode(b: seq<Byte>) returns (s: string)
    ensures s == HexText(b) && IsHexString(s, 2 * |b|)
  {
    s := "";
    for i := 0 to |b|
      invariant s == HexText(b[..i]) && IsHexString(s, 2 * i)
    {
      assert b[..i + 1][..i] == b[..i];
      s := s + [HexDigit(b[i] / 16), HexDigit(b[i] % 16)];
    }
    assert b[..|b|] == b;
  }

  /** Decode exactly 2n digits, refusing anything that is not lowercase hex. */
  method HexDecode(s: string, n: nat) returns (r: Option<seq<Byte>>)
    requires |s| >= 2 * n
    ensures r.Some? <==> forall i :: 0 <= i < 2 * n ==> IsHex(s[i])
    ensures r.Some? ==> |r.value| == n && Encodes(r.value, s[..2 * n])
  {
    var out: seq<Byte> := [];
    for i := 0 to n
      invariant |out| == i && Encodes(out, s[..2 * i])
      invariant forall j :: 0 <= j < 2 * i ==> IsHex(s[j])
    {
      var hi, lo := HexValue(s[2 * i]), HexValue(s[2 * i + 1]);
      if hi.None? || lo.None? {
        return None;
      }
      var b: Byte := hi.value * 16 + lo.value;
      assert b / 16 == hi.value && b % 16 == lo.value;
      out := out + [b];
    }
    r := Some(out);
  }

  /** Digests with the same hex text are the same digest. */
  lemma EncodesInjective(a: seq<Byte>, b: seq<Byte>, s: string)
    requires Encodes(a, s) && Encodes(b, s)
    ensures a == b
  {
    assert |a| == |b|;
    forall i | 0 <= i < |a| ensures a[i] == b[i] {
      HexDigitRoundTrip(a[i] / 16);
      HexDigitRoundTrip(b[i] / 16);
      HexDigitRoundTrip(a[i] % 16);
      HexDigitRoundTrip(b[i] % 16);
      assert a[i] == 16 * (a[i] / 16) + a[i] % 16;
    }
  }

  /** Comparing decoded digests is comparing hex texts. */
  lemma SameDigestSameText(a: seq<Byte>, b: seq<Byte>, s: string)
    requires Encodes(b, s)
    ensures a == b <==> HexText(a) == s
  {
    if a == b {
      forall k | 0 <= k < |s| ensures s[k] == HexText(b)[k] {
        var i := k / 2;
        assert s[2 * i] == HexDigit(b[i] / 16) == HexText(b)[2 * i];
        assert s[2 * i + 1] == HexDigit(b[i] % 16) == HexText(b)[2 * i + 1];
        assert k == 2 * i || k == 2 * i + 1;
      }
    }
    if HexText(a) == s { EncodesInjective(a, b, s); }
  }
}
