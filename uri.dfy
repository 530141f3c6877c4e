/** `encodeRFC3986`: encodeURIComponent followed by escaping the five
    characters `! ' ( ) *` that encodeURIComponent leaves alone but that
    RFC 3986 reserves as sub-delims (section 2.2 of RFC 3986). Used to build
    the `text=` parameter of WhatsApp links. The model also gives the decoder
    (decodeURIComponent) and proves that it recovers the input. */
module Uri {
  import opened Seqs

  /** The unreserved characters of section 2.3 of RFC 3986. */
  predicate IsUnreserved(c: char)
  {
    ('A' <= c <= 'Z') || ('a' <= c <= 'z') || ('0' <= c <= '9')
    || c == '-' || c == '_' || c == '.' || c == '~'
  }

  /** Kept by encodeURIComponent, escaped again by encodeRFC3986. */
  predicate IsMark(c: char)
  {
    c == '!' || c == '\'' || c == '(' || c == ')' || c == '*'
  }

  predicate IsHexDigit(c: char)
  {
    ('0' <= c <= '9') || ('A' <= c <= 'F') || ('a' <= c <= 'f')
  }

  /** A hexadecimal digit as encodeURIComponent writes it (upper case). */
  function HexUpper(d: int): (c: char)
    requires 0 <= d < 16
    ensures IsHexDigit(c)
  {
    if d < 10 then ('0' as int + d) as char else ('A' as int + d - 10) as char
  }

  /** A hexadecimal digit as Number.prototype.toString(16) writes it (lower case). */
  function HexLower(d: int): (c: char)
    requires 0 <= d < 16
    ensures IsHexDigit(c)
  {
    if d < 10 then ('0' as int + d) as char else ('a' as int + d - 10) as char
  }

  /** The value of a hexadecimal digit in either case, -1 for anything else. */
  function HexValue(c: char): (v: int)
    ensures IsHexDigit(c) <==> 0 <= v < 16
    ensures !IsHexDigit(c) ==> v == -1
  {
    if '0' <= c <= '9' then c as int - '0' as int
    else if 'A' <= c <= 'F' then c as int - 'A' as int + 10
    else if 'a' <= c <= 'f' then c as int - 'a' as int + 10
    else -1
  }

  predicate IsByte(b: int)
  {
    0 <= b < 256
  }

  /** The UTF-8 encoding of one Unicode scalar value (section 3 of RFC 3629). */
  function Utf8(c: char): (r: seq<int>)
    ensures 1 <= |r| <= 4
    ensures forall i :: 0 <= i < |r| ==> IsByte(r[i])
    ensures c as int < 0x80 <==> r == [c as int]
  {
    var cp := c as int;
    if cp < 0x80 then [cp]
    else if cp < 0x800 then [0xC0 + cp / 64, 0x80 + cp % 64]
    else if cp < 0x10000 then [0xE0 + cp / 4096, 0x80 + (cp / 64) % 64, 0x80 + cp % 64]
    else [0xF0 + cp / 262144, 0x80 + (cp / 4096) % 64, 0x80 + (cp / 64) % 64, 0x80 + cp % 64]
  }

  function Utf8All(s: string): (r: seq<int>)
    ensures |r| >= |s|
  {
    if s == [] then [] else Utf8(s[0]) + Utf8All(s[1..])
  }

  /** `%XX` for each byte. */
  function PercentBytes(bs: seq<int>): (r: string)
    requires forall i :: 0 <= i < |bs| ==> IsByte(bs[i])
    ensures |r| == 3 * |bs|
    ensures forall i :: 0 <= i < |r| ==> r[i] == '%' || IsHexDigit(r[i])
  {
    if bs == [] then ""
    else
      assert IsByte(bs[0]);
      ['%', HexUpper(bs[0] / 16), HexUpper(bs[0] % 16)] + PercentBytes(bs[1..])
  }

  /** What encodeRFC3986 produces for one character. */
  function EncodeChar(c: char): (r: string)
    ensures |r| > 0
    ensures forall i :: 0 <= i < |r| ==> IsUnreserved(r[i]) || r[i] == '%' || IsHexDigit(r[i])
    ensures IsUnreserved(c) <==> r == [c]
  {
    if IsUnreserved(c) then [c]
    else if IsMark(c) then ['%', HexLower(c as int / 16), HexLower(c as int % 16)]
    else PercentBytes(Utf8(c))
  }

  /** encodeRFC3986(str) */
  function EncodeRFC3986(s: string): (r: string)
    ensures |r| >= |s|
    ensures forall i :: 0 <= i < |r| ==> IsUnreserved(r[i]) || r[i] == '%' || IsHexDigit(r[i])
  {
    if s == [] then "" else EncodeChar(s[0]) + EncodeRFC3986(s[1..])
  }

  /** Text made only of unreserved characters is left unchanged. */
  lemma {:induction false} EncodeUnreserved(s: string)
    requires forall i :: 0 <= i < |s| ==> IsUnreserved(s[i])
    ensures EncodeRFC3986(s) == s
  {
    if s != [] {
      EncodeUnreserved(s[1..]);
      assert s == [s[0]] + s[1..];
    }
  }

  // ---------- the decoder ----------

  /** Percent-decoding to bytes: `%XX` gives one byte, another character gives
      its UTF-8 bytes; a `%` not followed by two hex digits is an error. */
  function PercentDecode(s: string): (r: Option<seq<int>>)
    ensures r.Some? ==> forall i :: 0 <= i < |r.value| ==> IsByte(r.value[i])
  {
    if s == [] then Some([])
    else if s[0] == '%' then
      if |s| >= 3 && IsHexDigit(s[1]) && IsHexDigit(s[2]) then
        match PercentDecode(s[3..])
        case None => None
        case Some(rest) => Some([HexValue(s[1]) * 16 + HexValue(s[2])] + rest)
      else None
    else
      match PercentDecode(s[1..])
      case None => None
      case Some(rest) => Some(Utf8(s[0]) + rest)
  }

  predicate IsCont(b: int)
  {
    0x80 <= b < 0xC0
  }

  /** Turns a code point back into a character when it is a Unicode scalar value. */
  function ScalarChar(cp: int): Option<char>
  {
    if 0 <= cp < 0xD800 || 0xE000 <= cp < 0x11_0000 then Some(cp as char) else None
  }

  /** UTF-8 decoding, rejecting truncated sequences, missing continuation
      bytes and code points that are not Unicode scalar values. Overlong forms
      (such as C0 AF for `/`) and lead bytes F5 to F7 are accepted here,
      whereas decodeURIComponent rejects them; text produced by the encoder
      never holds them, so the round trip is unaffected. */
  function DecodeUtf8(bs: seq<int>): Option<string>
  {
    if bs == [] then Some([])
    else
      var b0 := bs[0];
      var n := if 0 <= b0 < 0x80 then 1 else if 0xC0 <= b0 < 0xE0 then 2
               else if 0xE0 <= b0 < 0xF0 then 3 else if 0xF0 <= b0 < 0xF8 then 4 else 0;
      if n == 0 || |bs| < n then None
      else if exists i :: 1 <= i < n && !IsCont(bs[i]) then None
      else
        var cp :=
          if n == 1 then b0
          else if n == 2 then (b0 - 0xC0) * 64 + (bs[1] - 0x80)
          else if n == 3 then (b0 - 0xE0) * 4096 + (bs[1] - 0x80) * 64 + (bs[2] - 0x80)
          else (b0 - 0xF0) * 262144 + (bs[1] - 0x80) * 4096 + (bs[2] - 0x80) * 64 + (bs[3] - 0x80);
        match ScalarChar(cp)
        case None => None
        case Some(c) =>
          match DecodeUtf8(bs[n..])
          case None => None
          case Some(rest) => Some([c] + rest)
  }

  /** decodeURIComponent */
  function DecodeURIComponent(s: string): Option<string>
  {
    match PercentDecode(s)
    case None => None
    case Some(bs) => DecodeUtf8(bs)
  }

  /** What decoding gives for the bytes of `c` followed by `rest`: `c` in
      front of the decoded rest, or failure when the rest does not decode. */
  function DecodedAfter(c: char, rest: seq<int>): Option<string>
  {
    match DecodeUtf8(rest)
    case None => None
    case Some(t) => Some([c] + t)
  }

  lemma Utf8Decodes1(c: char, rest: seq<int>)
    requires c as int < 0x80
    ensures DecodeUtf8(Utf8(c) + rest) == DecodedAfter(c, rest)
  {
    var bs := Utf8(c) + rest;
    assert bs[0] == c as int && bs[1..] == rest;
    assert ScalarChar(c as int) == Some(c);
  }

  lemma Utf8Decodes2(c: char, rest: seq<int>)
    requires 0x80 <= c as int < 0x800
    ensures DecodeUtf8(Utf8(c) + rest) == DecodedAfter(c, rest)
  {
    var cp := c as int;
    var b0, b1 := 0xC0 + cp / 64, 0x80 + cp % 64;
    var bs := [b0, b1] + rest;
    assert Utf8(c) + rest == bs;
    assert bs[0] == b0 && bs[1] == b1 && bs[2..] == rest;
    assert (b0 - 0xC0) * 64 + (b1 - 0x80) == cp;
    assert ScalarChar(cp) == Some(c);
  }

  lemma Utf8Decodes3(c: char, rest: seq<int>)
    requires 0x800 <= c as int < 0x10000
    ensures DecodeUtf8(Utf8(c) + rest) == DecodedAfter(c, rest)
  {
    var cp := c as int;
    var b0, b1, b2 := 0xE0 + cp / 4096, 0x80 + (cp / 64) % 64, 0x80 + cp % 64;
    var bs := [b0, b1, b2] + rest;
    assert Utf8(c) + rest == bs;
    assert bs[0] == b0 && bs[1] == b1 && bs[2] == b2 && bs[3..] == rest;
    assert cp / 4096 * 64 + (cp / 64) % 64 == cp / 64;
    assert (cp / 64) * 64 + cp % 64 == cp;
    assert (b0 - 0xE0) * 4096 + (b1 - 0x80) * 64 + (b2 - 0x80) == cp;
    assert ScalarChar(cp) == Some(c);
  }

  lemma Utf8Decodes4(c: char, rest: seq<int>)
    requires 0x10000 <= c as int
    ensures DecodeUtf8(Utf8(c) + rest) == DecodedAfter(c, rest)
  {
    var cp := c as int;
    var b0, b1, b2, b3 := 0xF0 + cp / 262144, 0x80 + (cp / 4096) % 64, 0x80 + (cp / 64) % 64, 0x80 + cp % 64;
    var bs := [b0, b1, b2, b3] + rest;
    assert Utf8(c) + rest == bs;
    assert bs[0] == b0 && bs[1] == b1 && bs[2] == b2 && bs[3] == b3 && bs[4..] == rest;
    FourBytes(cp);
    assert ScalarChar(cp) == Some(c);
  }

  /** The four six-bit (and three-bit) groups of a code point add up to it. */
  lemma FourBytes(cp: int)
    requires 0 <= cp
    ensures (cp / 262144) * 262144 + ((cp / 4096) % 64) * 4096 + ((cp / 64) % 64) * 64 + cp % 64 == cp
  {
    assert cp / 262144 * 64 + (cp / 4096) % 64 == cp / 4096;
    assert cp / 4096 * 64 + (cp / 64) % 64 == cp / 64;
    assert (cp / 64) * 64 + cp % 64 == cp;
  }

  /** Decoding the bytes of one character, then the rest. */
  lemma Utf8Decodes(c: char, rest: seq<int>)
    ensures DecodeUtf8(Utf8(c) + rest) == DecodedAfter(c, rest)
  {
    var cp := c as int;
    if cp < 0x80 {
      Utf8Decodes1(c, rest);
    } else if cp < 0x800 {
      Utf8Decodes2(c, rest);
    } else if cp < 0x10000 {
      Utf8Decodes3(c, rest);
    } else {
      Utf8Decodes4(c, rest);
    }
  }

  lemma {:induction false} Utf8AllDecodes(s: string)
    ensures DecodeUtf8(Utf8All(s)) == Some(s)
  {
    if s != [] {
      Utf8AllDecodes(s[1..]);
      Utf8Decodes(s[0], Utf8All(s[1..]));
      assert s == [s[0]] + s[1..];
    }
  }

  lemma {:induction false} PercentBytesDecode(bs: seq<int>, t: string)
    requires forall i :: 0 <= i < |bs| ==> IsByte(bs[i])
    ensures PercentDecode(PercentBytes(bs) + t) == match PercentDecode(t)
      case None => None
      case Some(r) => Some(bs + r)
  {
    if bs != [] {
      var e := PercentBytes(bs) + t;
      var b := bs[0];
      assert e[0] == '%' && e[1] == HexUpper(b / 16) && e[2] == HexUpper(b % 16);
      assert e[3..] == PercentBytes(bs[1..]) + t;
      assert HexValue(e[1]) * 16 + HexValue(e[2]) == b;
      PercentBytesDecode(bs[1..], t);
      match PercentDecode(t) {
        case None =>
        case Some(r) => assert bs + r == [b] + (bs[1..] + r);
      }
    } else {
      assert PercentBytes(bs) + t == t;
      match PercentDecode(t) {
        case None =>
        case Some(r) => assert bs + r == r;
      }
    }
  }

  lemma EncodeCharDecodes(c: char, t: string)
    ensures PercentDecode(EncodeChar(c) + t) == match PercentDecode(t)
      case None => None
      case Some(r) => Some(Utf8(c) + r)
  {
    var e := EncodeChar(c) + t;
    if IsUnreserved(c) {
      assert e[0] == c && e[1..] == t;
    } else if IsMark(c) {
      assert e[0] == '%' && e[3..] == t;
      assert HexValue(e[1]) * 16 + HexValue(e[2]) == c as int;
    } else {
      PercentBytesDecode(Utf8(c), t);
    }
  }

  lemma {:induction false} PercentDecodeEncode(s: string)
    ensures PercentDecode(EncodeRFC3986(s)) == Some(Utf8All(s))
  {
    if s != [] {
      PercentDecodeEncode(s[1..]);
      EncodeCharDecodes(s[0], EncodeRFC3986(s[1..]));
    }
  }

  /** decodeURIComponent(encodeRFC3986(s)) == s: the WhatsApp message text
      arrives exactly as composed. */
  lemma EncodeRoundTrip(s: string)
    ensures DecodeURIComponent(EncodeRFC3986(s)) == Some(s)
  {
    PercentDecodeEncode(s);
    Utf8AllDecodes(s);
  }

  /** Different texts give different links. */
  lemma EncodeInjective(a: string, b: string)
    requires EncodeRFC3986(a) == EncodeRFC3986(b)
    ensures a == b
  {
    EncodeRoundTrip(a);
    EncodeRoundTrip(b);
  }
}
