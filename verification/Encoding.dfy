/** UTF-8, decimal and base64url, each with the decoder the program relies on. */
module Encoding {
  import opened Prelude

  type byte = b: int | 0 <= b < 256

  // ------------------------------------------------------------------ UTF-8

  function EncodeChar(c: char): (r: seq<byte>)
    ensures 1 <= |r| <= 4
  {
    var n := c as int;
    if n < 0x80 then [n]
    else if n < 0x800 then [0xC0 + n / 64, 0x80 + n % 64]
    else if n < 0x1_0000 then [0xE0 + n / 4096, 0x80 + n / 64 % 64, 0x80 + n % 64]
    else [0xF0 + n / 262144, 0x80 + n / 4096 % 64, 0x80 + n / 64 % 64, 0x80 + n % 64]
  }

  function Utf8(s: string): seq<byte> {
    if s == [] then [] else EncodeChar(s[0]) + Utf8(s[1..])
  }

  /** What a byte carries above the marker of its position. */
  function Bits(b: byte, marker: int): int { b as int - marker }

  predicate Continuation(b: byte) { 0x80 <= b < 0xC0 }

  /** One code point off the front of a strict UTF-8 stream: overlong forms,
      surrogates and values past U+10FFFF are malformed. */
  function DecodeChar(bs: seq<byte>): (r: Option<(char, seq<byte>)>)
    ensures r.Some? ==> |r.value.1| < |bs|
  {
    if bs == [] then None
    else if bs[0] < 0x80 then Some((bs[0] as char, bs[1..]))
    else if 0xC2 <= bs[0] < 0xE0 && |bs| >= 2 && Continuation(bs[1]) then
      Some(((Bits(bs[0], 0xC0) * 64 + Bits(bs[1], 0x80)) as char, bs[2..]))
    else if 0xE0 <= bs[0] < 0xF0 && |bs| >= 3 && Continuation(bs[1]) && Continuation(bs[2]) then
      var n := Bits(bs[0], 0xE0) * 4096 + Bits(bs[1], 0x80) * 64 + Bits(bs[2], 0x80);
      if n < 0x800 || 0xD800 <= n < 0xE000 then None else Some((n as char, bs[3..]))
    else if 0xF0 <= bs[0] < 0xF5 && |bs| >= 4
            && Continuation(bs[1]) && Continuation(bs[2]) && Continuation(bs[3]) then
      var n := Bits(bs[0], 0xF0) * 262144 + Bits(bs[1], 0x80) * 4096 + Bits(bs[2], 0x80) * 64 + Bits(bs[3], 0x80);
      if n < 0x1_0000 || n >= 0x11_0000 then None else Some((n as char, bs[4..]))
    else None
  }

  function DecodeUtf8(bs: seq<byte>): Option<string>
    decreases |bs|
  {
    if bs == [] then Some([])
    else match DecodeChar(bs)
      case None => None
      case Some((c, rest)) =>
        match DecodeUtf8(rest)
        case None => None
        case Some(s) => Some([c] + s)
  }

  lemma Sextets(n: nat)
    ensures n == n / 64 * 64 + n % 64
    ensures n / 64 == n / 4096 * 64 + n / 64 % 64
    ensures n / 4096 == n / 262144 * 64 + n / 4096 % 64
  {
  }

  lemma DecodeThreeBytes(c: char, rest: seq<byte>)
    requires 0x800 <= c as int < 0x1_0000
    ensures DecodeChar(EncodeChar(c) + rest) == Some((c, rest))
  {
    var n := c as int;
    Sextets(n);
    var bs := EncodeChar(c) + rest;
    assert bs[0] == 0xE0 + n / 4096 && bs[1] == 0x80 + n / 64 % 64 && bs[2] == 0x80 + n % 64;
    assert bs[3..] == rest;
  }

  lemma DecodeFourBytes(c: char, rest: seq<byte>)
    requires 0x1_0000 <= c as int
    ensures DecodeChar(EncodeChar(c) + rest) == Some((c, rest))
  {
    var n := c as int;
    Sextets(n);
    var bs := EncodeChar(c) + rest;
    assert bs[0] == 0xF0 + n / 262144 && bs[1] == 0x80 + n / 4096 % 64;
    assert bs[2] == 0x80 + n / 64 % 64 && bs[3] == 0x80 + n % 64;
    assert bs[4..] == rest;
  }

  lemma DecodeCharOfEncode(c: char, rest: seq<byte>)
    ensures DecodeChar(EncodeChar(c) + rest) == Some((c, rest))
  {
    var n := c as int;
    var bs := EncodeChar(c) + rest;
    if n < 0x80 {
      assert bs[1..] == rest;
    } else if n < 0x800 {
      Sextets(n);
      assert bs[0] == 0xC0 + n / 64 && bs[1] == 0x80 + n % 64 && bs[2..] == rest;
    } else if n < 0x1_0000 {
      DecodeThreeBytes(c, rest);
    } else {
      DecodeFourBytes(c, rest);
    }
  }

  lemma {:induction false} Utf8RoundTrip(s: string)
    ensures DecodeUtf8(Utf8(s)) == Some(s)
  {
    if s != [] {
      DecodeCharOfEncode(s[0], Utf8(s[1..]));
      Utf8RoundTrip(s[1..]);
      assert s == [s[0]] + s[1..];
    }
  }

  // ---------------------------------------------------------------- decimal

  predicate IsDigit(c: char) { '0' <= c <= '9' }

  predicate AllDigits(s: string) { forall i :: 0 <= i < |s| ==> IsDigit(s[i]) }

  function DigitChar(d: nat): char
    requires d < 10
  {
    '0' + d as char
  }

  function Digits(n: nat): (s: string)
    ensures |s| >= 1 && AllDigits(s)
  {
    if n < 10 then [DigitChar(n)] else Digits(n / 10) + [DigitChar(n % 10)]
  }

  function Decimal(n: int): (s: string)
    ensures |s| >= 1
  {
    if n < 0 then "-" + Digits(-n) else Digits(n)
  }

  function DigitsValue(s: string): nat
    requires AllDigits(s)
  {
    if s == [] then 0
    else DigitsValue(s[..|s| - 1]) * 10 + (s[|s| - 1] as int - '0' as int)
  }

  /** A decimal literal: an optional minus sign and at least one digit. */
  function ParseDecimal(s: string): Option<int> {
    if s != [] && s[0] == '-' then
      (if |s| > 1 && AllDigits(s[1..]) then Some(-(DigitsValue(s[1..]) as int)) else None)
    else if s != [] && AllDigits(s) then Some(DigitsValue(s))
    else None
  }

  lemma {:induction false} DigitsValueOfDigits(n: nat)
    ensures DigitsValue(Digits(n)) == n
  {
    if n >= 10 {
      DigitsValueOfDigits(n / 10);
      assert Digits(n)[..|Digits(n)| - 1] == Digits(n / 10);
    } else {
      assert Digits(n)[..0] == [];
    }
  }

  lemma DecimalRoundTrip(n: int)
    ensures ParseDecimal(Decimal(n)) == Some(n)
  {
    if n < 0 {
      DigitsValueOfDigits(-n);
      assert Decimal(n)[1..] == Digits(-n);
    } else {
      DigitsValueOfDigits(n);
      assert IsDigit(Digits(n)[0]);
    }
  }

  /** The text that follows a number: nothing, or a character no number contains. */
  predicate Stops(rest: string) { rest == [] || !IsDigit(rest[0]) }

  /** A decimal number followed by a non-digit can be read back in one way only. */
  lemma DecimalUniquelyRead(m: int, n: int, r: string, t: string)
    requires Decimal(m) + r == Decimal(n) + t && Stops(r) && Stops(t)
    ensures m == n && r == t
  {
    var a, b := Decimal(m), Decimal(n);
    assert (a + r)[0] == a[0] && (b + t)[0] == b[0];
    assert Decimal(m)[0] == '-' <==> m < 0 by { assert m >= 0 ==> IsDigit(Digits(m)[0]); }
    assert Decimal(n)[0] == '-' <==> n < 0 by { assert n >= 0 ==> IsDigit(Digits(n)[0]); }
    if |a| < |b| {
      ShorterDigitsStop(a, b, r, t);
    } else if |b| < |a| {
      ShorterDigitsStop(b, a, t, r);
    }
    assert a == (a + r)[..|a|] && b == (b + t)[..|b|];
    assert r == (a + r)[|a|..] && t == (b + t)[|b|..];
    DecimalRoundTrip(m);
    DecimalRoundTrip(n);
  }

  lemma ShorterDigitsStop(a: string, b: string, r: string, t: string)
    requires a + r == b + t && 0 < |a| < |b| && AllDigits(b[1..])
    ensures !Stops(r)
  {
    assert (a + r)[|a|] == (b + t)[|a|] == b[|a|] == b[1..][|a| - 1];
    assert r[0] == (a + r)[|a|];
  }

  // -------------------------------------------------------------- base64url

  /** The 64 characters of section 5 of RFC 4648. */
  function Sextet(v: int): char
    requires 0 <= v < 64
  {
    if v < 26 then 'A' + v as char
    else if v < 52 then 'a' + (v - 26) as char
    else if v < 62 then '0' + (v - 52) as char
    else if v == 62 then '-' else '_'
  }

  /** The decoder also accepts the two characters of the standard alphabet. */
  function SextetValue(c: char): (r: Option<int>)
    ensures r.Some? ==> 0 <= r.value < 64
  {
    if 'A' <= c <= 'Z' then Some(c as int - 'A' as int)
    else if 'a' <= c <= 'z' then Some(c as int - 'a' as int + 26)
    else if '0' <= c <= '9' then Some(c as int - '0' as int + 52)
    else if c == '-' || c == '+' then Some(62)
    else if c == '_' || c == '/' then Some(63)
    else None
  }

  /** Three bytes become four characters; the padding of a short last group is dropped. */
  function Base64Url(bs: seq<byte>): string {
    if bs == [] then ""
    else if |bs| == 1 then [Sextet(bs[0] / 4), Sextet(bs[0] % 4 * 16)]
    else if |bs| == 2 then
      [Sextet(bs[0] / 4), Sextet(bs[0] % 4 * 16 + bs[1] / 16), Sextet(bs[1] % 16 * 4)]
    else
      [Sextet(bs[0] / 4), Sextet(bs[0] % 4 * 16 + bs[1] / 16),
       Sextet(bs[1] % 16 * 4 + bs[2] / 64), Sextet(bs[2] % 64)] + Base64Url(bs[3..])
  }

  function Padding(n: nat): (p: string)
    ensures |p| < 4 && (n + |p|) % 4 == 0
  {
    match n % 4
    case 0 => ""
    case 1 => "==="
    case 2 => "=="
    case _ => "="
  }

  /** The scanner inside the lenient base64 decoder: it skips characters outside
      the alphabet, stops at a completed pad and rejects a partial last group. */
  function Scan(s: string, quad: int, left: int, pads: int, out: seq<byte>): Option<seq<byte>>
    requires 0 <= quad < 4 && 0 <= left
    requires quad == 1 ==> left < 64
    requires quad == 2 ==> left < 16
    requires quad == 3 ==> left < 4
  {
    if s == [] then (if quad == 0 then Some(out) else None)
    else if s[0] == '=' then
      if quad >= 2 && quad + pads + 1 >= 4 then Some(out)
      else Scan(s[1..], quad, left, if quad >= 2 then pads + 1 else pads, out)
    else match SextetValue(s[0])
      case None => Scan(s[1..], quad, left, pads, out)
      case Some(v) =>
        if quad == 0 then Scan(s[1..], 1, v, 0, out)
        else if quad == 1 then Scan(s[1..], 2, v % 16, 0, out + [left * 4 + v / 16])
        else if quad == 2 then Scan(s[1..], 3, v % 4, 0, out + [left * 16 + v / 4])
        else Scan(s[1..], 0, 0, 0, out + [left * 64 + v])
  }

  predicate IsAscii(s: string) { forall i :: 0 <= i < |s| ==> s[i] < 128 as char }

  function DecodeBase64Url(s: string): Option<seq<byte>> {
    if IsAscii(s) then Scan(s + Padding(|s|), 0, 0, 0, []) else None
  }

  lemma SextetRoundTrip(v: int)
    requires 0 <= v < 64
    ensures SextetValue(Sextet(v)) == Some(v) && Sextet(v) != '=' && Sextet(v) < 128 as char
  {
  }

  lemma {:induction false} Base64UrlShape(bs: seq<byte>)
    ensures IsAscii(Base64Url(bs))
    ensures |bs| >= 3 ==> |Base64Url(bs)| == 4 + |Base64Url(bs[3..])|
  {
    if |bs| >= 3 {
      Base64UrlShape(bs[3..]);
      hide Sextet;
      assert Base64Url(bs)[4..] == Base64Url(bs[3..]);
      SextetRoundTrip(bs[0] / 4);
      SextetRoundTrip(bs[0] % 4 * 16 + bs[1] / 16);
      SextetRoundTrip(bs[1] % 16 * 4 + bs[2] / 64);
      SextetRoundTrip(bs[2] % 64);
      forall i | 0 <= i < |Base64Url(bs)| ensures Base64Url(bs)[i] < 128 as char {
        assert i >= 4 ==> Base64Url(bs)[i] == Base64Url(bs)[4..][i - 4];
      }
    }
  }

  /** Scanning one alphabet character moves the scanner by one sextet. */
  lemma {:induction false} ScanSextet(v: int, rest: string, quad: int, left: int, out: seq<byte>)
    requires 0 <= v < 64 && 0 <= quad < 4 && 0 <= left
    requires quad == 1 ==> left < 64
    requires quad == 2 ==> left < 16
    requires quad == 3 ==> left < 4
    ensures Scan([Sextet(v)] + rest, quad, left, 0, out) ==
            (if quad == 0 then Scan(rest, 1, v, 0, out)
             else if quad == 1 then Scan(rest, 2, v % 16, 0, out + [left * 4 + v / 16])
             else if quad == 2 then Scan(rest, 3, v % 4, 0, out + [left * 16 + v / 4])
             else Scan(rest, 0, 0, 0, out + [left * 64 + v]))
  {
    SextetRoundTrip(v);
    assert ([Sextet(v)] + rest)[1..] == rest;
  }

  /** Splitting three bytes into sextets and joining them again. */
  lemma JoinSextets(x: byte, y: byte, z: byte)
    ensures x / 4 * 4 + (x % 4 * 16 + y / 16) / 16 == x && (x % 4 * 16 + y / 16) % 16 == y / 16
    ensures y / 16 * 16 + (y % 16 * 4 + z / 64) / 4 == y && (y % 16 * 4 + z / 64) % 4 == z / 64
    ensures z / 64 * 64 + z % 64 == z
  {
  }

  lemma {:induction false} ScanFull(x: byte, y: byte, z: byte, rest: string, out: seq<byte>)
    ensures Scan([Sextet(x / 4), Sextet(x % 4 * 16 + y / 16),
                  Sextet(y % 16 * 4 + z / 64), Sextet(z % 64)] + rest, 0, 0, 0, out)
            == Scan(rest, 0, 0, 0, out + [x, y, z])
  {
    hide Scan, Sextet;
    JoinSextets(x, y, z);
    var a, b, c, d := x / 4, x % 4 * 16 + y / 16, y % 16 * 4 + z / 64, z % 64;
    var s3 := [Sextet(d)] + rest;
    var s2 := [Sextet(c)] + s3;
    var s1 := [Sextet(b)] + s2;
    assert [Sextet(a), Sextet(b), Sextet(c), Sextet(d)] + rest == [Sextet(a)] + s1;
    ScanSextet(a, s1, 0, 0, out);
    ScanSextet(b, s2, 1, a, out);
    ScanSextet(c, s3, 2, y / 16, out + [x]);
    ScanSextet(d, rest, 3, z / 64, out + [x] + [y]);
    assert out + [x] + [y] + [z] == out + [x, y, z];
  }

  lemma {:induction false} ScanTwo(x: byte, out: seq<byte>)
    ensures Scan([Sextet(x / 4), Sextet(x % 4 * 16)] + "==", 0, 0, 0, out) == Some(out + [x])
  {
    var a, b := x / 4, x % 4 * 16;
    assert [Sextet(a), Sextet(b)] + "==" == [Sextet(a)] + ([Sextet(b)] + "==");
    ScanSextet(a, [Sextet(b)] + "==", 0, 0, out);
    ScanSextet(b, "==", 1, a, out);
    assert a * 4 + b / 16 == x && b % 16 == 0;
    assert "=="[1..] == "=";
    assert Scan("==", 2, 0, 0, out + [x]) == Scan("=", 2, 0, 1, out + [x]);
  }

  lemma {:induction false} ScanThree(x: byte, y: byte, out: seq<byte>)
    ensures Scan([Sextet(x / 4), Sextet(x % 4 * 16 + y / 16), Sextet(y % 16 * 4)] + "=", 0, 0, 0, out)
            == Some(out + [x, y])
  {
    var a, b, c := x / 4, x % 4 * 16 + y / 16, y % 16 * 4;
    assert [Sextet(a), Sextet(b), Sextet(c)] + "=" == [Sextet(a)] + ([Sextet(b)] + ([Sextet(c)] + "="));
    ScanSextet(a, [Sextet(b)] + ([Sextet(c)] + "="), 0, 0, out);
    ScanSextet(b, [Sextet(c)] + "=", 1, a, out);
    assert a * 4 + b / 16 == x && b % 16 == y / 16;
    ScanSextet(c, "=", 2, b % 16, out + [x]);
    assert (b % 16) * 16 + c / 4 == y;
    assert out + [x] + [y] == out + [x, y];
  }

  lemma {:induction false} PaddingOfShort(bs: seq<byte>)
    requires 1 <= |bs| <= 2
    ensures Padding(|Base64Url(bs)|) == (if |bs| == 1 then "==" else "=")
  {
  }

  lemma {:induction false} ScanShort(bs: seq<byte>, out: seq<byte>)
    requires |bs| < 3
    ensures Scan(Base64Url(bs) + Padding(|Base64Url(bs)|), 0, 0, 0, out) == Some(out + bs)
  {
    if |bs| == 0 {
      assert Base64Url(bs) + Padding(0) == "" && out + bs == out;
    } else {
      PaddingOfShort(bs);
      if |bs| == 1 {
        ScanTwo(bs[0], out);
        assert bs == [bs[0]];
      } else {
        ScanThree(bs[0], bs[1], out);
        assert bs == [bs[0], bs[1]];
      }
    }
  }

  lemma {:induction false} ScanEncoded(bs: seq<byte>, out: seq<byte>)
    ensures Scan(Base64Url(bs) + Padding(|Base64Url(bs)|), 0, 0, 0, out) == Some(out + bs)
  {
    hide Scan, Sextet;
    if |bs| < 3 {
      ScanShort(bs, out);
    } else {
      var e, tail := Base64Url(bs), Base64Url(bs[3..]);
      var rest := tail + Padding(|tail|);
      Base64UrlShape(bs);
      assert e + Padding(|e|) == e[..4] + rest;
      ScanFull(bs[0], bs[1], bs[2], rest, out);
      ScanEncoded(bs[3..], out + [bs[0], bs[1], bs[2]]);
      assert out + [bs[0], bs[1], bs[2]] + bs[3..] == out + bs;
    }
  }

  /** Dropping the padding and putting it back loses nothing. */
  lemma {:induction false} Base64UrlRoundTrip(bs: seq<byte>)
    ensures DecodeBase64Url(Base64Url(bs)) == Some(bs)
  {
    Base64UrlShape(bs);
    ScanEncoded(bs, []);
    assert [] + bs == bs;
  }
}
