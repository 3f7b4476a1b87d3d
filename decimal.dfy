/**
 Decimal rendering of integers as Rust's `Display` for `i32`/`i64` writes it
 (`format!("{}", n)`, `n.to_string()`): an optional leading '-', then the
 digits of the magnitude without leading zeros. The parser is the inverse
 used to state that nothing is lost by the rendering.
 */
module Decimal {
  import opened Basics

  predicate IsDigit(c: char) {
    '0' <= c <= '9'
  }

  function DigitChar(d: nat): (c: char)
    requires d < 10
    ensures IsDigit(c) && c as int - '0' as int == d
  {
    ('0' as int + d) as char
  }

  /** The digits of `n`, most significant first. */
  function NatDigits(n: nat): (s: string)
    ensures s != []
    ensures forall i :: 0 <= i < |s| ==> IsDigit(s[i])
    ensures n > 0 ==> s[0] != '0'
    decreases n
  {
    if n < 10 then [DigitChar(n)] else NatDigits(n / 10) + [DigitChar(n % 10)]
  }

  /** The text of `n` as Rust writes it. */
  function Render(n: int): (s: string)
    ensures s != []
    ensures (s[0] == '-') <==> n < 0
  {
    if n < 0 then "-" + NatDigits(-n) else NatDigits(n)
  }

  /** The value of a string of digits, most significant first. */
  function DigitsValue(s: string): (n: nat)
    requires forall i :: 0 <= i < |s| ==> IsDigit(s[i])
    decreases |s|
  {
    if s == [] then 0
    else
      var last := s[|s| - 1];
      assert IsDigit(last);
      DigitsValue(s[..|s| - 1]) * 10 + (last as int - '0' as int)
  }

  /** Reads an optional '-' followed by at least one digit. */
  function Parse(s: string): (r: Option<int>)
    ensures r.Some? ==> s != [] && (r.value < 0 ==> s[0] == '-')
  {
    if s != [] && s[0] == '-' then
      var t := s[1..];
      if t != [] && forall i :: 0 <= i < |t| ==> IsDigit(t[i]) then Some(0 - DigitsValue(t) as int) else None
    else if s != [] && forall i :: 0 <= i < |s| ==> IsDigit(s[i]) then Some(DigitsValue(s))
    else None
  }

  lemma {:induction false} DigitsValueOfNatDigits(n: nat)
    ensures DigitsValue(NatDigits(n)) == n
    decreases n
  {
    var s := NatDigits(n);
    if n >= 10 {
      DigitsValueOfNatDigits(n / 10);
      assert s[..|s| - 1] == NatDigits(n / 10);
    }
  }

  /** Parsing the rendering of any integer gives that integer back. */
  lemma RenderRoundTrip(n: int)
    ensures Parse(Render(n)) == Some(n)
  {
    if n < 0 {
      DigitsValueOfNatDigits(-n);
      assert Render(n)[1..] == NatDigits(-n);
    } else {
      DigitsValueOfNatDigits(n);
    }
  }

  /**
   The rendering is canonical: an optional '-' only for negative numbers,
   then digits with no leading zero, and "0" is the only text of zero.
   */
  lemma RenderCanonical(n: int)
    ensures var s := Render(n); var d := if n < 0 then s[1..] else s;
      d != [] && (forall i :: 0 <= i < |d| ==> IsDigit(d[i])) &&
      (d[0] == '0' <==> n == 0) && (n == 0 ==> s == "0")
  {
    if n < 0 {
      assert Render(n)[1..] == NatDigits(-n);
    }
  }

  /** Two different integers never render to the same text. */
  lemma RenderInjective(m: int, n: int)
    requires Render(m) == Render(n)
    ensures m == n
  {
    RenderRoundTrip(m);
    RenderRoundTrip(n);
  }
}
