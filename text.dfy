/**
 * Decimal rendering of integers (Python's f"{n}"), its parser, and the
 * counter-derived identifiers "<prefix><n>" that the mock gateway and the
 * tasks build (cust_mock_1, order_mock_2, mandate_mock_7, pay_mock_3, ...).
 */
module Text {
  import opened Wrappers

  function DigitChar(d: nat): (c: char)
    requires d < 10
    ensures '0' <= c <= '9'
  {
    ('0' as int + d) as char
  }

  function CharDigit(c: char): (d: Option<nat>)
    ensures d.Some? <==> '0' <= c <= '9'
    ensures d.Some? ==> d.value < 10 && DigitChar(d.value) == c
  {
    if '0' <= c <= '9' then Some(c as int - '0' as int) else None
  }

  /** f"{n}" for n >= 0: the decimal digits of n, most significant first. */
  function NatToString(n: nat): (s: string)
    ensures 1 <= |s|
    ensures forall i :: 0 <= i < |s| ==> '0' <= s[i] <= '9'
    ensures n < 10 <==> |s| == 1
    decreases n
  {
    if n < 10 then [DigitChar(n)] else NatToString(n / 10) + [DigitChar(n % 10)]
  }

  /** f"{i}" for any int: a minus sign before the digits of a negative number. */
  function IntToString(i: int): (s: string)
    ensures 1 <= |s|
    ensures i < 0 <==> s[0] == '-'
    ensures i >= 0 ==> s == NatToString(i)
    ensures i < 0 ==> s[1..] == NatToString(-i)
  {
    if i < 0 then "-" + NatToString(-i) else NatToString(i)
  }

  /** Reads a non-empty string of decimal digits back as a number. */
  function ParseNat(s: string): (r: Option<nat>)
    decreases |s|
  {
    if |s| == 0 then None
    else
      var d := CharDigit(s[|s| - 1]);
      if d.None? then None
      else if |s| == 1 then Some(d.value)
      else
        match ParseNat(s[..|s| - 1])
        case None => None
        case Some(p) => Some(p * 10 + d.value)
  }

  lemma {:induction false} ParseNatRoundTrip(n: nat)
    ensures ParseNat(NatToString(n)) == Some(n)
    decreases n
  {
    var s := NatToString(n);
    if n >= 10 {
      ParseNatRoundTrip(n / 10);
      assert s[..|s| - 1] == NatToString(n / 10);
      assert s[|s| - 1] == DigitChar(n % 10);
      assert CharDigit(DigitChar(n % 10)) == Some(n % 10);
    } else {
      assert CharDigit(DigitChar(n)) == Some(n);
    }
  }

  lemma NatToStringInjective(a: nat, b: nat)
    ensures NatToString(a) == NatToString(b) <==> a == b
  {
    ParseNatRoundTrip(a);
    ParseNatRoundTrip(b);
  }

  /** Distinct integers render differently, so f"..._{id}" names one row. */
  lemma IntToStringInjective(a: int, b: int)
    ensures IntToString(a) == IntToString(b) <==> a == b
  {
    if IntToString(a) == IntToString(b) {
      if a < 0 {
        assert b < 0;
        NatToStringInjective(-a, -b);
      } else {
        assert b >= 0;
        NatToStringInjective(a, b);
      }
    }
  }

  /** The identifier f"{prefix}{n}". */
  function MockId(prefix: string, n: nat): (id: string)
    ensures |id| > |prefix| && id[..|prefix|] == prefix
  {
    prefix + NatToString(n)
  }

  /** The counter inside an identifier built by MockId, if it is one. */
  function ParseMockId(prefix: string, id: string): Option<nat> {
    if |prefix| <= |id| && id[..|prefix|] == prefix then ParseNat(id[|prefix|..]) else None
  }

  lemma MockIdRoundTrip(prefix: string, n: nat)
    ensures ParseMockId(prefix, MockId(prefix, n)) == Some(n)
  {
    var id := MockId(prefix, n);
    assert id[|prefix|..] == NatToString(n);
    ParseNatRoundTrip(n);
  }

  /** Two counters give the same identifier only when they are equal. */
  lemma MockIdInjective(prefix: string, a: nat, b: nat)
    ensures MockId(prefix, a) == MockId(prefix, b) <==> a == b
  {
    MockIdRoundTrip(prefix, a);
    MockIdRoundTrip(prefix, b);
  }

  /** Identifiers with different prefixes, neither a prefix of the other's, never collide. */
  lemma MockIdPrefixesDisjoint(p: string, q: string, a: nat, b: nat)
    requires |p| <= |q| && q[..|p|] != p
    ensures MockId(p, a) != MockId(q, b)
  {
    assert MockId(q, b)[..|p|] == q[..|p|];
  }

  predicate IsAscii(s: string) {
    forall i :: 0 <= i < |s| ==> s[i] as int < 128
  }

  /** Python's `needle in hay` on two str values. */
  predicate IsSubstring(needle: string, hay: string) {
    exists i :: 0 <= i <= |hay| - |needle| && OccursAt(needle, hay, i)
  }

  predicate OccursAt(needle: string, hay: string, i: int)
    requires 0 <= i <= |hay| - |needle|
  {
    hay[i..i + |needle|] == needle
  }
}
