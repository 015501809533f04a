/** Query-string encoding as the client performs it: UTF-8 percent-encoding with
    quote_plus, key=value pairs joined by '&', and requests' unquote_unreserved
    applied afterwards (section 2.3 of RFC 3986 lists the unreserved characters). */
module Urlencode {
  import opened Values
  import opened Exceptions
  import opened Text

  newtype byte = x: int | 0 <= x < 256

  /** The UTF-8 encoding of one code point. */
  function Utf8Char(c: char): (bs: seq<byte>)
    ensures 1 <= |bs| <= 4
    ensures (c as int) < 128 <==> |bs| == 1
    ensures |bs| == 1 ==> bs[0] as int == c as int
  {
    var cp := c as int;
    if cp < 0x80 then [cp as byte]
    else if cp < 0x800 then [(0xC0 + cp / 64) as byte, (0x80 + cp % 64) as byte]
    else if cp < 0x10000 then
      [(0xE0 + cp / 4096) as byte, (0x80 + (cp / 64) % 64) as byte, (0x80 + cp % 64) as byte]
    else
      [(0xF0 + cp / 262144) as byte, (0x80 + (cp / 4096) % 64) as byte,
       (0x80 + (cp / 64) % 64) as byte, (0x80 + cp % 64) as byte]
  }

  function Utf8(s: string): (bs: seq<byte>)
    ensures |bs| >= |s|
  {
    if s == [] then [] else Utf8Char(s[0]) + Utf8(s[1..])
  }

  /** The unreserved characters of section 2.3 of RFC 3986. */
  predicate IsUnreserved(c: char) {
    'A' <= c <= 'Z' || 'a' <= c <= 'z' || '0' <= c <= '9' || c == '-' || c == '.' || c == '_' || c == '~'
  }

  /** The bytes quote() leaves alone: all unreserved characters under Python 3;
      Python 2 also escapes '~'. */
  predicate IsSafe(b: byte, py2: bool) {
    b < 128 && IsUnreserved(b as int as char) && !(py2 && b as int == '~' as int)
  }

  function HexDigit(d: int): (c: char)
    requires 0 <= d < 16
    ensures IsHexChar(c) && HexValue(c) == d
  {
    if d < 10 then ('0' as int + d) as char else ('A' as int + d - 10) as char
  }

  predicate IsHexChar(c: char) {
    '0' <= c <= '9' || 'A' <= c <= 'F' || 'a' <= c <= 'f'
  }

  function HexValue(c: char): (d: int)
    requires IsHexChar(c)
    ensures 0 <= d < 16
  {
    if '0' <= c <= '9' then c as int - '0' as int
    else if 'A' <= c <= 'F' then c as int - 'A' as int + 10
    else c as int - 'a' as int + 10
  }

  predicate IsAlnum(c: char) {
    'A' <= c <= 'Z' || 'a' <= c <= 'z' || '0' <= c <= '9'
  }

  /** How quote_plus writes one byte: itself if safe, '+' for a space, else %XX. */
  function QuoteByte(b: byte, py2: bool): (t: string)
    ensures Wellformed(t) && '&' !in t && '=' !in t
  {
    if IsSafe(b, py2) then [b as int as char]
    else if b == 0x20 then "+"
    else "%" + [HexDigit(b as int / 16), HexDigit(b as int % 16)]
  }

  function QuoteBytes(bs: seq<byte>, py2: bool): (t: string)
    ensures Wellformed(t) && '&' !in t && '=' !in t
  {
    if bs == [] then "" else
      WellformedConcat(QuoteByte(bs[0], py2), QuoteBytes(bs[1..], py2));
      QuoteByte(bs[0], py2) + QuoteBytes(bs[1..], py2)
  }

  /** quote_plus(s, safe='') */
  function QuotePlus(s: string, py2: bool): (t: string)
    ensures Wellformed(t) && '&' !in t && '=' !in t
  {
    QuoteBytes(Utf8(s), py2)
  }

  /** urlencode(pairs): "k=v" pieces joined by '&', both sides quoted. */
  function UrlencodePairs(pairs: seq<(string, string)>, py2: bool): (q: string)
    ensures Wellformed(q)
  {
    var pieces := Pieces(pairs, py2);
    WellformedJoin(pieces);
    JoinStrings("&", pieces)
  }

  function Pieces(pairs: seq<(string, string)>, py2: bool): (ps: seq<string>)
    ensures |ps| == |pairs|
    ensures forall i :: 0 <= i < |ps| ==> ps[i] == Piece(pairs[i], py2)
  {
    seq(|pairs|, i requires 0 <= i < |pairs| => Piece(pairs[i], py2))
  }

  /** One "key=value" piece of the query. */
  function Piece(pair: (string, string), py2: bool): (p: string)
    ensures Wellformed(p) && '&' !in p
  {
    var k, v := QuotePlus(pair.0, py2), QuotePlus(pair.1, py2);
    WellformedConcat(k, "=");
    WellformedConcat(k + "=", v);
    k + "=" + v
  }

  /** Every '%' starts a complete escape of two hex digits. */
  predicate Wellformed(s: string) {
    forall i :: 0 <= i < |s| && s[i] == '%' ==> i + 2 < |s| && IsHexChar(s[i + 1]) && IsHexChar(s[i + 2])
  }

  lemma WellformedConcat(a: string, b: string)
    requires Wellformed(a) && Wellformed(b)
    ensures Wellformed(a + b)
  {
    var s := a + b;
    forall i | 0 <= i < |s| && s[i] == '%' ensures i + 2 < |s| && IsHexChar(s[i + 1]) && IsHexChar(s[i + 2]) {
      if i >= |a| {
        assert b[i - |a|] == '%';
      }
    }
  }

  lemma {:induction false} WellformedJoin(parts: seq<string>)
    requires forall i :: 0 <= i < |parts| ==> Wellformed(parts[i])
    ensures Wellformed(JoinStrings("&", parts))
    decreases |parts|
  {
    if |parts| > 1 {
      WellformedJoin(parts[..|parts| - 1]);
      WellformedConcat(JoinStrings("&", parts[..|parts| - 1]), "&");
      WellformedConcat(JoinStrings("&", parts[..|parts| - 1]) + "&", parts[|parts| - 1]);
    }
  }

  /** requests.utils.unquote_unreserved: an escape of an unreserved character is
      replaced by the character, other escapes are kept, and an escape whose two
      characters are alphanumeric but not hexadecimal is an InvalidURL. */
  function UnquoteUnreserved(s: string): (r: Result<string>)
    decreases |s|
  {
    if s == [] then Ok("")
    else if s[0] == '%' && |s| >= 3 && IsAlnum(s[1]) && IsAlnum(s[2]) then
      if IsHexChar(s[1]) && IsHexChar(s[2]) then
        var b := 16 * HexValue(s[1]) + HexValue(s[2]);
        var head := if b < 128 && IsUnreserved(b as char) then [b as char] else s[..3];
        Prepend(head, UnquoteUnreserved(s[3..]))
      else Err(InvalidUrl("Invalid percent-escape sequence: '" + s[1..3] + "'"))
    else Prepend([s[0]], UnquoteUnreserved(s[1..]))
  }

  function Prepend(p: string, r: Result<string>): Result<string> {
    if r.Ok? then Ok(p + r.value) else r
  }

  lemma PrependAssoc(p: string, q: string, r: Result<string>)
    ensures Prepend(p, Prepend(q, r)) == Prepend(p + q, r)
  {
    if r.Ok? {
      assert p + (q + r.value) == (p + q) + r.value;
    }
  }

  lemma WellformedSuffix(a: string, k: nat)
    requires Wellformed(a) && k <= |a|
    ensures Wellformed(a[k..])
  {
    forall i | 0 <= i < |a[k..]| && a[k..][i] == '%'
      ensures i + 2 < |a[k..]| && IsHexChar(a[k..][i + 1]) && IsHexChar(a[k..][i + 2])
    {
      assert a[k + i] == '%';
    }
  }

  /** Unquoting a well-formed prefix does not depend on what follows it. */
  lemma {:induction false} UnquoteConcat(a: string, b: string)
    requires Wellformed(a)
    ensures UnquoteUnreserved(a).Ok?
    ensures UnquoteUnreserved(a + b) == Prepend(UnquoteUnreserved(a).value, UnquoteUnreserved(b))
    decreases |a|
  {
    if a != [] {
      var s := a + b;
      if a[0] == '%' {
        assert IsAlnum(a[1]) && IsAlnum(a[2]);
        assert s[..3] == a[..3] && s[3..] == a[3..] + b;
        WellformedSuffix(a, 3);
        UnquoteConcat(a[3..], b);
        var head := if 16 * HexValue(a[1]) + HexValue(a[2]) < 128 && IsUnreserved((16 * HexValue(a[1]) + HexValue(a[2])) as char)
          then [(16 * HexValue(a[1]) + HexValue(a[2])) as char] else a[..3];
        assert UnquoteUnreserved(a) == Prepend(head, UnquoteUnreserved(a[3..]));
        assert UnquoteUnreserved(s) == Prepend(head, UnquoteUnreserved(a[3..] + b));
        PrependAssoc(head, UnquoteUnreserved(a[3..]).value, UnquoteUnreserved(b));
      } else {
        assert s[1..] == a[1..] + b;
        WellformedSuffix(a, 1);
        UnquoteConcat(a[1..], b);
        assert UnquoteUnreserved(a) == Prepend([a[0]], UnquoteUnreserved(a[1..]));
        assert UnquoteUnreserved(s) == Prepend([a[0]], UnquoteUnreserved(a[1..] + b));
        PrependAssoc([a[0]], UnquoteUnreserved(a[1..]).value, UnquoteUnreserved(b));
      }
    } else {
      assert a + b == b;
      PrependEmpty(UnquoteUnreserved(b));
    }
  }

  lemma PrependEmpty(r: Result<string>)
    ensures Prepend("", r) == r
  {
    if r.Ok? {
      assert "" + r.value == r.value;
    }
  }

  /** unquote_unreserved on a single escape. */
  lemma UnquoteEscape(hi: char, lo: char)
    requires IsHexChar(hi) && IsHexChar(lo)
    ensures var b := 16 * HexValue(hi) + HexValue(lo);
      UnquoteUnreserved(['%', hi, lo]) ==
        Ok(if b < 128 && IsUnreserved(b as char) then [b as char] else ['%', hi, lo])
  {
    var t := ['%', hi, lo];
    assert t[3..] == "";
    assert t[..3] == t;
    var b := 16 * HexValue(hi) + HexValue(lo);
    var head := if b < 128 && IsUnreserved(b as char) then [b as char] else t;
    assert UnquoteUnreserved(t) == Prepend(head, UnquoteUnreserved(t[3..]));
    assert head + "" == head;
  }

  lemma UnquoteQuoteByte(b: byte, py2: bool)
    ensures UnquoteUnreserved(QuoteByte(b, py2)) == Ok(QuoteByte(b, false))
  {
    var t := QuoteByte(b, py2);
    if !IsSafe(b, py2) && b != 0x20 {
      var hi, lo := HexDigit(b as int / 16), HexDigit(b as int % 16);
      assert t == ['%', hi, lo];
      UnquoteEscape(hi, lo);
      assert 16 * HexValue(hi) + HexValue(lo) == b as int;
    } else {
      assert |t| == 1 && t[0] != '%';
      assert t[1..] == "";
      assert UnquoteUnreserved(t) == Prepend([t[0]], Ok(""));
      assert [t[0]] + "" == t;
      assert IsSafe(b, py2) ==> IsSafe(b, false);
      assert QuoteByte(b, false) == t;
    }
  }

  /** After unquote_unreserved, Python 2's and Python 3's quoting of the same
      bytes agree with Python 3's: only escaped '~' differs, and it is undone. */
  lemma {:induction false} UnquoteQuoteBytes(bs: seq<byte>, py2: bool)
    ensures UnquoteUnreserved(QuoteBytes(bs, py2)) == Ok(QuoteBytes(bs, false))
    decreases |bs|
  {
    if bs != [] {
      UnquoteConcat(QuoteByte(bs[0], py2), QuoteBytes(bs[1..], py2));
      UnquoteQuoteByte(bs[0], py2);
      UnquoteQuoteBytes(bs[1..], py2);
    }
  }

  /** Unquoting two well-formed texts around a plain separator. */
  lemma UnquoteAround(a: string, sep: char, b: string, a': string, b': string)
    requires Wellformed(a) && Wellformed(b) && sep != '%'
    requires UnquoteUnreserved(a) == Ok(a') && UnquoteUnreserved(b) == Ok(b')
    ensures UnquoteUnreserved(a + [sep] + b) == Ok(a' + [sep] + b')
  {
    UnquotePlainChar(sep, b);
    UnquoteConcat(a, [sep] + b);
    assert a + [sep] + b == a + ([sep] + b);
    assert a' + ([sep] + b') == a' + [sep] + b';
  }

  lemma UnquotePlainChar(c: char, rest: string)
    requires c != '%'
    ensures UnquoteUnreserved([c] + rest) == Prepend([c], UnquoteUnreserved(rest))
  {
    assert ([c] + rest)[1..] == rest;
  }

  lemma UnquotePiece(pair: (string, string), py2: bool)
    ensures UnquoteUnreserved(Piece(pair, py2)) == Ok(Piece(pair, false))
  {
    UnquoteQuoteBytes(Utf8(pair.0), py2);
    UnquoteQuoteBytes(Utf8(pair.1), py2);
    UnquoteAround(QuotePlus(pair.0, py2), '=', QuotePlus(pair.1, py2), QuotePlus(pair.0, false), QuotePlus(pair.1, false));
  }

  /** A query of more than one pair is the query of all but the last pair,
      an "&" and the last pair's piece. */
  lemma QuerySnoc(pairs: seq<(string, string)>, py2: bool)
    requires |pairs| > 1
    ensures UrlencodePairs(pairs, py2) ==
      UrlencodePairs(pairs[..|pairs| - 1], py2) + "&" + Piece(pairs[|pairs| - 1], py2)
  {
    var p := Pieces(pairs, py2);
    assert Pieces(pairs[..|pairs| - 1], py2) == p[..|p| - 1];
  }

  /** unquote_unreserved leaves a whole urlencoded query as Python 3 writes it. */
  lemma {:induction false} UnquoteQuery(pairs: seq<(string, string)>, py2: bool)
    ensures UnquoteUnreserved(UrlencodePairs(pairs, py2)) == Ok(UrlencodePairs(pairs, false))
    decreases |pairs|
  {
    if |pairs| == 1 {
      UnquotePiece(pairs[0], py2);
    } else if |pairs| > 1 {
      var init, last := pairs[..|pairs| - 1], pairs[|pairs| - 1];
      QuerySnoc(pairs, py2);
      QuerySnoc(pairs, false);
      UnquoteQuery(init, py2);
      UnquotePiece(last, py2);
      UnquoteAround(UrlencodePairs(init, py2), '&', Piece(last, py2), UrlencodePairs(init, false), Piece(last, false));
    }
  }


  /** Percent-decoding as a server reads a query component: '+' is a space,
      %XX is a byte, any other character stands for itself. */
  function PercentDecode(s: string): seq<int>
    decreases |s|
  {
    if s == [] then []
    else if s[0] == '%' && |s| >= 3 && IsHexChar(s[1]) && IsHexChar(s[2]) then
      [16 * HexValue(s[1]) + HexValue(s[2])] + PercentDecode(s[3..])
    else if s[0] == '+' then [0x20] + PercentDecode(s[1..])
    else [s[0] as int] + PercentDecode(s[1..])
  }

  function AsInts(bs: seq<byte>): (r: seq<int>)
    ensures |r| == |bs| && forall i :: 0 <= i < |bs| ==> r[i] == bs[i] as int
  {
    seq(|bs|, i requires 0 <= i < |bs| => bs[i] as int)
  }

  /** quote_plus loses nothing: decoding its output gives the UTF-8 bytes back. */
  lemma {:induction false} DecodeQuoteBytes(bs: seq<byte>, py2: bool)
    ensures PercentDecode(QuoteBytes(bs, py2)) == AsInts(bs)
    decreases |bs|
  {
    if bs != [] {
      var rest := QuoteBytes(bs[1..], py2);
      assert QuoteBytes(bs, py2) == QuoteByte(bs[0], py2) + rest;
      DecodeQuoteByte(bs[0], py2, rest);
      DecodeQuoteBytes(bs[1..], py2);
      assert AsInts(bs) == [bs[0] as int] + AsInts(bs[1..]);
    }
  }

  /** One quoted byte, whatever follows it, decodes back to that byte. */
  lemma DecodeQuoteByte(b: byte, py2: bool, rest: string)
    ensures PercentDecode(QuoteByte(b, py2) + rest) == [b as int] + PercentDecode(rest)
  {
    var s := QuoteByte(b, py2) + rest;
    if !IsSafe(b, py2) && b != 0x20 {
      var hi, lo := HexDigit(b as int / 16), HexDigit(b as int % 16);
      assert s[0] == '%' && s[1] == hi && s[2] == lo;
      assert s[3..] == rest;
      assert 16 * HexValue(hi) + HexValue(lo) == b as int;
    } else {
      assert s[1..] == rest;
    }
  }

  /** A urlencoded query splits at '&' into one piece per pair, each piece
      splits at '=' into key and value, and those decode to the UTF-8 bytes of
      the original key and value. */
  lemma UrlencodeParse(pairs: seq<(string, string)>, py2: bool, i: int)
    requires |pairs| >= 1 && 0 <= i < |pairs|
    ensures var pieces := SplitOn('&', UrlencodePairs(pairs, py2));
      |pieces| == |pairs| &&
      var kv := SplitOn('=', pieces[i]);
      |kv| == 2 &&
      PercentDecode(kv[0]) == AsInts(Utf8(pairs[i].0)) &&
      PercentDecode(kv[1]) == AsInts(Utf8(pairs[i].1))
  {
    var ps := Pieces(pairs, py2);
    SplitJoin('&', ps);
    var k, v := QuotePlus(pairs[i].0, py2), QuotePlus(pairs[i].1, py2);
    assert ps[i] == k + ['='] + v;
    SplitPair('=', k, v);
    DecodeQuoteBytes(Utf8(pairs[i].0), py2);
    DecodeQuoteBytes(Utf8(pairs[i].1), py2);
  }

  /** normalize_for_urlencode: strings as they are, anything else via str(). */
  function Normalize(v: Value): (s: string)
    ensures v.Str? ==> s == v.s
  {
    Render(v)
  }

  /** The (key, value) pairs urlencode_params hands to urlencode: a list or
      tuple value gives one pair per element, any other value one pair. */
  function Expand(params: seq<(string, Value)>): seq<(string, string)> {
    if params == [] then []
    else Expand(params[..|params| - 1]) + ExpandOne(params[|params| - 1].0, params[|params| - 1].1)
  }

  function ExpandOne(k: string, v: Value): (r: seq<(string, string)>)
    ensures (v.List? || v.Tuple?) ==> |r| == |v.items| && forall j :: 0 <= j < |r| ==> r[j] == (k, Normalize(v.items[j]))
    ensures !(v.List? || v.Tuple?) ==> r == [(k, Normalize(v))]
  {
    if v.List? || v.Tuple? then seq(|v.items|, j requires 0 <= j < |v.items| => (k, Normalize(v.items[j])))
    else [(k, Normalize(v))]
  }

  /** Expansion keeps the order of the parameters and of each list's elements. */
  lemma {:induction false} ExpandAppend(a: seq<(string, Value)>, b: seq<(string, Value)>)
    ensures Expand(a + b) == Expand(a) + Expand(b)
    decreases |b|
  {
    if b == [] {
      assert a + b == a;
    } else {
      var ab := a + b;
      var init := b[..|b| - 1];
      var last := b[|b| - 1];
      var tail := ExpandOne(last.0, last.1);
      assert ab[..|ab| - 1] == a + init;
      assert ab[|ab| - 1] == last;
      assert Expand(ab) == Expand(a + init) + tail;
      assert Expand(b) == Expand(init) + tail;
      ExpandAppend(a, init);
      AppendAssoc(Expand(a), Expand(init), tail);
    }
  }

  lemma AppendAssoc<T>(x: seq<T>, y: seq<T>, z: seq<T>)
    ensures (x + y) + z == x + (y + z)
  {
  }

  /** Parameters whose values are all scalars expand to exactly one pair each. */
  lemma {:induction false} ExpandScalars(params: seq<(string, Value)>)
    requires forall i :: 0 <= i < |params| ==> !(params[i].1.List? || params[i].1.Tuple?)
    ensures |Expand(params)| == |params|
    ensures forall i :: 0 <= i < |params| ==> Expand(params)[i] == (params[i].0, Normalize(params[i].1))
    decreases |params|
  {
    if params != [] {
      ExpandScalars(params[..|params| - 1]);
    }
  }

  /** The pairs one parameter adds to the list urlencode_params builds: one
      per element of a list or tuple, in order, or one for a scalar. */
  method ExtendPairs(extended: seq<(string, string)>, key: string, val: Value) returns (out: seq<(string, string)>)
    ensures out == extended + ExpandOne(key, val)
  {
    out := extended;
    if val.List? || val.Tuple? {
      var j := 0;
      while j < |val.items|
        invariant 0 <= j <= |val.items|
        invariant out == extended + ExpandOne(key, val)[..j]
      {
        out := out + [(key, Normalize(val.items[j]))];
        j := j + 1;
      }
      assert ExpandOne(key, val)[..j] == ExpandOne(key, val);
    } else {
      out := out + [(key, Normalize(val))];
    }
  }

  /** client.urlencode_params */
  method UrlencodeParams(params: seq<(string, Value)>) returns (query: string)
    ensures query == UrlencodePairs(Expand(params), false)
  {
    var extended: seq<(string, string)> := [];
    var i := 0;
    while i < |params|
      invariant 0 <= i <= |params|
      invariant extended == Expand(params[..i])
    {
      var (key, val) := params[i];
      extended := ExtendPairs(extended, key, val);
      assert params[..i + 1][..i] == params[..i];
      assert Expand(params[..i + 1]) == Expand(params[..i]) + ExpandOne(key, val);
      i := i + 1;
    }
    assert params[..i] == params;
    var encoded := UrlencodePairs(extended, false);
    UnquoteQuery(extended, false);
    query := UnquoteUnreserved(encoded).value;
  }
}
