/**
 * `encodeURIComponent` of ECMA-262 (section 15.1.3.4 of the 5.1 edition):
 * percent-encoding in the sense of section 2.1 of RFC 3986, where every
 * character outside letters, digits and `-_.!~*'()` is replaced by the
 * UTF-8 bytes of its code point, each written `%XY` with upper-case hex.
 *
 * `Decode` is strict `decodeURIComponent`-style percent-decoding; it is
 * proved to undo `Encode` exactly. On `Encode`'s output it agrees with the
 * host's query-string parser, which also turns `+` into a space and keeps
 * malformed escapes as they are: that output holds no `+` (`NoSeparators`)
 * and no malformed escape.
 */
module UriComponent {
  import opened Wrappers

  type Byte = b: int | 0 <= b < 256

  /** The characters `encodeURIComponent` leaves as they are. */
  predicate IsUnreserved(c: char) {
    ('A' <= c <= 'Z') || ('a' <= c <= 'z') || ('0' <= c <= '9') ||
    c == '-' || c == '_' || c == '.' || c == '!' || c == '~' ||
    c == '*' || c == '\'' || c == '(' || c == ')'
  }

  predicate IsHexUpper(c: char) { ('0' <= c <= '9') || ('A' <= c <= 'F') }

  /** The upper-case hex digit for a value below 16. */
  function HexDigit(n: int): (c: char)
    requires 0 <= n < 16
    ensures IsHexUpper(c)
  {
    if n < 10 then (n + '0' as int) as char else (n - 10 + 'A' as int) as char
  }

  /** Every character an encoded string may hold. */
  predicate IsEncodedChar(c: char) { IsUnreserved(c) || c == '%' || IsHexUpper(c) }

  function HexValue(c: char): Option<int> {
    if '0' <= c <= '9' then Some(c as int - '0' as int)
    else if 'A' <= c <= 'F' then Some(c as int - 'A' as int + 10)
    else if 'a' <= c <= 'f' then Some(c as int - 'a' as int + 10)
    else None
  }

  /** The UTF-8 encoding of a Unicode scalar value (1 to 4 bytes). */
  function Utf8(cp: int): (bytes: seq<Byte>)
    requires 0 <= cp < 0x11_0000
    ensures 1 <= |bytes| <= 4
  {
    if cp < 0x80 then [cp]
    else if cp < 0x800 then [0xC0 + cp / 64, 0x80 + cp % 64]
    else if cp < 0x1_0000 then [0xE0 + cp / 4096, 0x80 + (cp / 64) % 64, 0x80 + cp % 64]
    else [0xF0 + cp / 262144, 0x80 + (cp / 4096) % 64, 0x80 + (cp / 64) % 64, 0x80 + cp % 64]
  }

  function Percent(b: Byte): string {
    ['%', HexDigit(b / 16), HexDigit(b % 16)]
  }

  function PercentAll(bytes: seq<Byte>): (s: string)
    ensures |s| == 3 * |bytes|
    ensures forall i :: 0 <= i < |s| ==> s[i] == '%' || IsHexUpper(s[i])
  {
    if bytes == [] then [] else Percent(bytes[0]) + PercentAll(bytes[1..])
  }

  function EncodeChar(c: char): (s: string)
    ensures |s| >= 1
  {
    if IsUnreserved(c) then [c] else PercentAll(Utf8(c as int))
  }

  /** `encodeURIComponent(s)`: only unreserved characters, `%` and upper-case hex digits come out. */
  function Encode(s: string): (r: string)
    ensures forall i :: 0 <= i < |r| ==> IsEncodedChar(r[i])
    ensures |r| >= |s|
  {
    if s == [] then [] else EncodeChar(s[0]) + Encode(s[1..])
  }

  /** Number of bytes announced by a UTF-8 lead byte; 0 when it cannot lead. */
  function Utf8Length(lead: Byte): nat {
    if lead < 0x80 then 1
    else if 0xC0 <= lead < 0xE0 then 2
    else if 0xE0 <= lead < 0xF0 then 3
    else if 0xF0 <= lead < 0xF8 then 4
    else 0
  }

  predicate IsContinuation(b: Byte) { 0x80 <= b < 0xC0 }

  /**
   * The code point a well-formed sequence of UTF-8 bytes stands for. An
   * overlong form (a code point written with more bytes than it needs, such
   * as C0 AF for `/`) is rejected, as the Decode operation of ECMA-262 does.
   */
  function Utf8Decode(bs: seq<Byte>): Option<int> {
    if |bs| == 1 && bs[0] < 0x80 then Some(bs[0])
    else if |bs| == 2 && Utf8Length(bs[0]) == 2 && IsContinuation(bs[1]) then
      var cp := (bs[0] as int - 0xC0) * 64 + (bs[1] as int - 0x80);
      if cp >= 0x80 then Some(cp) else None
    else if |bs| == 3 && Utf8Length(bs[0]) == 3 && IsContinuation(bs[1]) && IsContinuation(bs[2]) then
      var cp := ((bs[0] as int - 0xE0) * 64 + (bs[1] as int - 0x80)) * 64 + (bs[2] as int - 0x80);
      if cp >= 0x800 then Some(cp) else None
    else if |bs| == 4 && Utf8Length(bs[0]) == 4 && IsContinuation(bs[1]) && IsContinuation(bs[2])
            && IsContinuation(bs[3]) then
      var cp := (((bs[0] as int - 0xF0) * 64 + (bs[1] as int - 0x80)) * 64 + (bs[2] as int - 0x80)) * 64
                + (bs[3] as int - 0x80);
      if cp >= 0x1_0000 then Some(cp) else None
    else None
  }

  /** The byte written as `%XY` at the front of `s`. */
  function PercentByte(s: string): Option<Byte>
    requires |s| >= 3
  {
    if s[0] != '%' then None
    else match (HexValue(s[1]), HexValue(s[2]))
      case (Some(h), Some(l)) => Some(h * 16 + l)
      case _ => None
  }

  /** The `n` bytes written as `%XY` triplets at the front of `s`. */
  function PercentBytes(s: string, n: nat): Option<seq<Byte>>
    decreases n
  {
    if n == 0 then Some([])
    else if |s| < 3 then None
    else match (PercentByte(s), PercentBytes(s[3..], n - 1))
      case (Some(b), Some(rest)) => Some([b] + rest)
      case _ => None
  }

  predicate IsScalar(cp: int) { (0 <= cp < 0xD800) || (0xE000 <= cp < 0x11_0000) }

  /** The first decoded character of `s` and how many characters of `s` it used. */
  function DecodeFirst(s: string): (r: Option<(char, nat)>)
    requires |s| >= 1
    ensures r.Some? ==> 1 <= r.value.1 <= |s|
  {
    if s[0] != '%' then Some((s[0], 1))
    else if |s| < 3 then None
    else match PercentByte(s)
      case None => None
      case Some(lead) =>
        var n := Utf8Length(lead);
        if n == 0 || |s| < 3 * n then None
        else match PercentBytes(s, n)
          case None => None
          case Some(bytes) =>
            match Utf8Decode(bytes)
            case Some(cp) => if IsScalar(cp) then Some((cp as char, 3 * n)) else None
            case None => None
  }

  /** Percent-decoding: `%XY` runs become the characters whose UTF-8 bytes they spell. */
  function Decode(s: string): Option<string>
    decreases |s|
  {
    if s == [] then Some([])
    else match DecodeFirst(s)
      case None => None
      case Some((c, k)) =>
        match Decode(s[k..])
        case None => None
        case Some(rest) => Some([c] + rest)
  }

  // ---------------------------------------------------------------------
  // Properties

  /** The encoded text never holds a query-string separator, so it fits in one query field. */
  lemma NoSeparators(s: string)
    ensures '&' !in Encode(s) && '=' !in Encode(s) && '?' !in Encode(s) && '/' !in Encode(s)
    ensures '+' !in Encode(s) && '#' !in Encode(s)
  {
    var r := Encode(s);
    forall i | 0 <= i < |r|
      ensures r[i] != '&' && r[i] != '=' && r[i] != '?' && r[i] != '/' && r[i] != '+' && r[i] != '#'
    {
      assert IsEncodedChar(r[i]);
    }
  }

  /** Text made of unreserved characters only is left unchanged. */
  lemma {:induction false} EncodeUnreserved(s: string)
    requires forall i :: 0 <= i < |s| ==> IsUnreserved(s[i])
    ensures Encode(s) == s
  {
    if s != [] {
      EncodeUnreserved(s[1..]);
    }
  }

  lemma {:induction false} Utf8RoundTrip(cp: int)
    requires 0 <= cp < 0x11_0000
    ensures Utf8Length(Utf8(cp)[0]) == |Utf8(cp)|
    ensures Utf8Decode(Utf8(cp)) == Some(cp)
  {
    if cp < 0x80 {
    } else if cp < 0x800 {
      assert cp == (cp / 64) * 64 + cp % 64;
    } else if cp < 0x1_0000 {
      var q := cp / 64;
      assert cp == q * 64 + cp % 64;
      assert q == (q / 64) * 64 + q % 64;
      assert q / 64 == cp / 4096;
    } else {
      var q := cp / 64;
      var q2 := q / 64;
      assert cp == q * 64 + cp % 64;
      assert q == q2 * 64 + q % 64;
      assert q2 == (q2 / 64) * 64 + q2 % 64;
      assert q2 == cp / 4096;
      assert q2 / 64 == cp / 262144;
    }
  }

  lemma PercentByteOf(b: Byte, rest: string)
    ensures PercentByte(Percent(b) + rest) == Some(b)
  {
  }

  lemma {:induction false} PercentBytesOf(bytes: seq<Byte>, rest: string)
    ensures PercentBytes(PercentAll(bytes) + rest, |bytes|) == Some(bytes)
    decreases |bytes|
  {
    if bytes != [] {
      var s := PercentAll(bytes) + rest;
      assert s == Percent(bytes[0]) + (PercentAll(bytes[1..]) + rest);
      PercentByteOf(bytes[0], PercentAll(bytes[1..]) + rest);
      assert s[3..] == PercentAll(bytes[1..]) + rest;
      PercentBytesOf(bytes[1..], rest);
      assert [bytes[0]] + bytes[1..] == bytes;
    }
  }

  /** Decoding reads back exactly one encoded character and stops at its end. */
  lemma DecodeFirstOf(c: char, rest: string)
    ensures DecodeFirst(EncodeChar(c) + rest) == Some((c, |EncodeChar(c)|))
  {
    var s := EncodeChar(c) + rest;
    if !IsUnreserved(c) {
      var bytes := Utf8(c as int);
      Utf8RoundTrip(c as int);
      assert s == Percent(bytes[0]) + (PercentAll(bytes[1..]) + rest);
      PercentByteOf(bytes[0], PercentAll(bytes[1..]) + rest);
      PercentBytesOf(bytes, rest);
    }
  }

  /** Every byte sequence the UTF-8 decoder accepts is the shortest encoding of its code point. */
  lemma Utf8DecodeShortest(bs: seq<Byte>, cp: int)
    requires Utf8Decode(bs) == Some(cp) && cp < 0x11_0000
    ensures Utf8(cp) == bs
  {
    if |bs| == 2 {
      Shortest2(bs, cp);
    } else if |bs| == 3 {
      Shortest3(bs, cp);
    } else if |bs| == 4 {
      Shortest4(bs, cp);
    }
  }

  lemma DivMod(q: int, r: int, d: int)
    requires d == 64 || d == 4096 || d == 262144
    requires 0 <= r < d
    ensures (q * d + r) / d == q && (q * d + r) % d == r
  {
  }

  lemma Shortest2(bs: seq<Byte>, cp: int)
    requires |bs| == 2 && Utf8Decode(bs) == Some(cp)
    ensures Utf8(cp) == bs
  {
    var a, b := bs[0] as int - 0xC0, bs[1] as int - 0x80;
    assert cp == a * 64 + b && 0x80 <= cp < 0x800;
    DivMod(a, b, 64);
  }

  lemma Shortest3(bs: seq<Byte>, cp: int)
    requires |bs| == 3 && Utf8Decode(bs) == Some(cp)
    ensures Utf8(cp) == bs
  {
    var a, b, c := bs[0] as int - 0xE0, bs[1] as int - 0x80, bs[2] as int - 0x80;
    assert cp == (a * 64 + b) * 64 + c;
    assert cp == a * 4096 + (b * 64 + c);
    assert 0x800 <= cp < 0x1_0000;
    DivMod(a * 64 + b, c, 64);
    DivMod(a, b, 64);
    DivMod(a, b * 64 + c, 4096);
  }

  lemma Shortest4(bs: seq<Byte>, cp: int)
    requires |bs| == 4 && Utf8Decode(bs) == Some(cp) && cp < 0x11_0000
    ensures Utf8(cp) == bs
  {
    var a, b := bs[0] as int - 0xF0, bs[1] as int - 0x80;
    var c, d := bs[2] as int - 0x80, bs[3] as int - 0x80;
    assert cp == ((a * 64 + b) * 64 + c) * 64 + d;
    assert cp == (a * 64 + b) * 4096 + (c * 64 + d);
    assert cp == a * 262144 + ((b * 64 + c) * 64 + d);
    assert 0x1_0000 <= cp;
    DivMod((a * 64 + b) * 64 + c, d, 64);
    DivMod(a * 64 + b, c, 64);
    DivMod(a * 64 + b, c * 64 + d, 4096);
    DivMod(a, b, 64);
    DivMod(a, (b * 64 + c) * 64 + d, 262144);
  }

  /** An overlong encoding of `/` is refused rather than read as `/`. */
  lemma OverlongRejected()
    ensures Decode("%C0%AF") == None
  {
    var s := "%C0%AF";
    var t := s[3..];
    assert t == "%AF";
    assert HexValue('C') == Some(12) && HexValue('0') == Some(0);
    assert HexValue('A') == Some(10) && HexValue('F') == Some(15);
    assert PercentByte(s) == Some(0xC0);
    assert PercentByte(t) == Some(0xAF);
    assert t[3..] == [];
    assert PercentBytes(t[3..], 0) == Some([]);
    var tail: seq<Byte> := [0xAF];
    var none: seq<Byte> := [];
    assert [0xAF as Byte] + none == tail;
    assert |t| == 3 && PercentBytes(t, 1) == Some(tail);
    var both: seq<Byte> := [0xC0, 0xAF];
    assert [0xC0 as Byte] + tail == both;
    assert PercentBytes(s, 2) == Some(both);
    assert Utf8Decode(both) == None;
    assert DecodeFirst(s) == None;
  }

  /** `Decode` undoes `Encode`: no two texts encode alike. */
  lemma {:induction false} DecodeEncode(s: string)
    ensures Decode(Encode(s)) == Some(s)
  {
    if s != [] {
      var e := Encode(s);
      var head := EncodeChar(s[0]);
      assert e == head + Encode(s[1..]);
      DecodeFirstOf(s[0], Encode(s[1..]));
      assert e[|head|..] == Encode(s[1..]);
      DecodeEncode(s[1..]);
      assert [s[0]] + s[1..] == s;
    }
  }

  lemma EncodeInjective(s: string, t: string)
    requires Encode(s) == Encode(t)
    ensures s == t
  {
    DecodeEncode(s);
    DecodeEncode(t);
  }
}
