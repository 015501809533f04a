/** Decimal text for integers and six-decimal fixed-point numbers, as Python's
    str(int), "%d" and "%f" print them, with the parsers that read them back. */
module Decimal {
  import opened Maybe

  predicate IsDigit(c: char) {
    '0' <= c <= '9'
  }

  predicate AllDigits(s: string) {
    forall i :: 0 <= i < |s| ==> IsDigit(s[i])
  }

  function DigitChar(d: nat): (c: char)
    requires d < 10
    ensures IsDigit(c) && (c as int) - ('0' as int) == d
  {
    (('0' as int) + d) as char
  }

  function DigitValue(c: char): (d: nat)
    requires IsDigit(c)
    ensures d < 10 && DigitChar(d) == c
  {
    (c as int) - ('0' as int)
  }

  /** str(n) for n >= 0: at least one digit, no leading zero. */
  function NatToString(n: nat): (s: string)
    ensures |s| >= 1 && AllDigits(s)
    ensures s[0] == '0' ==> n == 0 && s == "0"
    decreases n
  {
    if n < 10 then [DigitChar(n)] else NatToString(n / 10) + [DigitChar(n % 10)]
  }

  /** str(n) and "%d" % n for any integer. */
  function IntToString(n: int): string {
    if n < 0 then "-" + NatToString(-n) else NatToString(n)
  }

  function ParseNat(s: string): nat
    requires AllDigits(s)
    decreases |s|
  {
    if s == [] then 0 else ParseNat(s[..|s| - 1]) * 10 + DigitValue(s[|s| - 1])
  }

  /** Reads back what IntToString prints; None for any other text. */
  function ParseInt(s: string): Option<int> {
    if |s| >= 2 && s[0] == '-' && AllDigits(s[1..]) then Some(0 - ParseNat(s[1..]))
    else if |s| >= 1 && AllDigits(s) then Some(ParseNat(s))
    else None
  }

  lemma {:induction false} ParseNatToString(n: nat)
    ensures ParseNat(NatToString(n)) == n
    decreases n
  {
    if n >= 10 {
      var s := NatToString(n);
      assert s[..|s| - 1] == NatToString(n / 10);
      ParseNatToString(n / 10);
    }
  }

  /** Decimal printing of integers is injective: ParseInt inverts it. */
  lemma IntToStringRoundTrip(n: int)
    ensures ParseInt(IntToString(n)) == Some(n)
  {
    var t := NatToString(if n < 0 then -n else n);
    ParseNatToString(if n < 0 then -n else n);
    if n < 0 {
      var s := "-" + t;
      assert s[1..] == t;
      assert |s| >= 2 && s[0] == '-' && AllDigits(s[1..]);
      assert ParseInt(s) == Some(0 - ParseNat(t));
    } else {
      assert |t| >= 1 && AllDigits(t) && IsDigit(t[0]);
      assert ParseInt(t) == Some(ParseNat(t));
    }
  }

  lemma {:induction false} NatToStringShort(n: nat, k: nat)
    requires 1 <= k && n < Pow10(k)
    ensures |NatToString(n)| <= k
    decreases k
  {
    if n >= 10 {
      NatToStringShort(n / 10, k - 1);
    }
  }

  function Pow10(k: nat): (p: nat)
    ensures p >= 1
  {
    if k == 0 then 1 else 10 * Pow10(k - 1)
  }

  /** The six fractional digits "%f" prints, zero-padded on the left. */
  function Pad6(f: nat): (s: string)
    requires f < 1000000
    ensures |s| == 6 && AllDigits(s)
  {
    var d := NatToString(f);
    NatToStringShort(f, 6);
    seq(6 - |d|, _ => '0') + d
  }

  /** "%f" % x for x == micros / 1000000: sign, integer part, '.', six digits. */
  function FixedSix(micros: int): (s: string) {
    var a := if micros < 0 then -micros else micros;
    (if micros < 0 then "-" else "") + NatToString(a / 1000000) + "." + Pad6(a % 1000000)
  }

  /** repr(x) of a float with at most six decimals, in fixed notation:
      trailing zeros of the fraction dropped, at least one fractional digit. */
  function ShortFloat(micros: int): string {
    var a := if micros < 0 then -micros else micros;
    (if micros < 0 then "-" else "") + NatToString(a / 1000000) + "." + TrimZeros(Pad6(a % 1000000))
  }

  function TrimZeros(s: string): (r: string)
    requires |s| >= 1
    ensures 1 <= |r| <= |s| && r == s[..|r|]
    decreases |s|
  {
    if |s| > 1 && s[|s| - 1] == '0' then TrimZeros(s[..|s| - 1]) else s
  }

  lemma {:induction false} ParseNatLeadingZeros(z: nat, s: string)
    requires AllDigits(s)
    ensures AllDigits(seq(z, _ => '0') + s) && ParseNat(seq(z, _ => '0') + s) == ParseNat(s)
    decreases |s|
  {
    var t := seq(z, _ => '0') + s;
    if s == [] {
      ParseNatAllZeros(z);
      assert t == seq(z, _ => '0');
    } else {
      ParseNatLeadingZeros(z, s[..|s| - 1]);
      assert t[..|t| - 1] == seq(z, _ => '0') + s[..|s| - 1];
    }
  }

  lemma {:induction false} ParseNatAllZeros(z: nat)
    ensures AllDigits(seq(z, _ => '0')) && ParseNat(seq(z, _ => '0')) == 0
  {
    if z > 0 {
      var t := seq(z, _ => '0');
      assert t[..z - 1] == seq(z - 1, _ => '0');
      ParseNatAllZeros(z - 1);
    }
  }

  /** Reads back what FixedSix prints. */
  function ParseFixedSix(s: string): Option<int> {
    if |s| >= 1 && s[0] == '-' then
      match ParseUnsignedFixed(s[1..])
      case Some(m) => Some(-m)
      case None => None
    else ParseUnsignedFixed(s)
  }

  function ParseUnsignedFixed(body: string): Option<int> {
    if |body| >= 8 && body[|body| - 7] == '.' && AllDigits(body[..|body| - 7]) && AllDigits(body[|body| - 6..]) then
      Some(ParseNat(body[..|body| - 7]) * 1000000 + ParseNat(body[|body| - 6..]))
    else None
  }

  lemma UnsignedFixedRoundTrip(a: nat)
    ensures ParseUnsignedFixed(NatToString(a / 1000000) + "." + Pad6(a % 1000000)) == Some(a)
  {
    var ip := NatToString(a / 1000000);
    var fp := Pad6(a % 1000000);
    var body := ip + "." + fp;
    assert body[..|body| - 7] == ip;
    assert body[|body| - 6..] == fp;
    ParseNatToString(a / 1000000);
    var d := NatToString(a % 1000000);
    NatToStringShort(a % 1000000, 6);
    assert fp == seq(6 - |d|, _ => '0') + d;
    ParseNatLeadingZeros(6 - |d|, d);
    ParseNatToString(a % 1000000);
  }

  /** "%f" loses nothing on six-decimal values: ParseFixedSix inverts FixedSix. */
  lemma FixedSixRoundTrip(micros: int)
    ensures ParseFixedSix(FixedSix(micros)) == Some(micros)
  {
    var a := if micros < 0 then -micros else micros;
    var body := NatToString(a / 1000000) + "." + Pad6(a % 1000000);
    UnsignedFixedRoundTrip(a);
    if micros < 0 {
      assert FixedSix(micros)[1..] == body;
    } else {
      assert FixedSix(micros) == body;
    }
  }
}
