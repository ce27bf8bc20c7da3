/** Percent-encoding of cookie names and values (section 2.1 of RFC 3986), as the host's URI functions do it. */
module PercentEncoding {
  import opened Bytes
  import opened Text

  predicate Unreserved(c: char) {
    'A' <= c <= 'Z' || 'a' <= c <= 'z' || '0' <= c <= '9' || c in "-_.!~*'()"
  }

  function HexDigit(n: nat): char
    requires n < 16
  {
    "0123456789ABCDEF"[n]
  }

  /** Both cases are read, capitals are written. */
  function HexValue(c: char): (v: Option<nat>)
    ensures v.Some? ==> v.value < 16
  {
    if '0' <= c <= '9' then Some(c as int - 48)
    else if 'A' <= c <= 'F' then Some(c as int - 55)
    else if 'a' <= c <= 'f' then Some(c as int - 87)
    else None
  }

  lemma HexRoundTrip(n: nat)
    requires n < 16
    ensures HexValue(HexDigit(n)) == Some(n)
  {
    assert "0123456789ABCDEF"[..10] == "0123456789" && "0123456789ABCDEF"[10..] == "ABCDEF";
  }

  function PercentByte(b: byte): string {
    ['%', HexDigit(b / 16), HexDigit(b % 16)]
  }

  function PercentBytes(bs: bytes): (r: string)
    ensures |r| == 3 * |bs|
  {
    if bs == [] then [] else PercentByte(bs[0]) + PercentBytes(bs[1..])
  }

  function EncodedChar(c: char): string {
    if Unreserved(c) then [c] else PercentBytes(Utf8Char(c))
  }

  function EncodeUriComponent(s: string): string {
    if s == [] then [] else EncodedChar(s[0]) + EncodeUriComponent(s[1..])
  }

  /** The byte written at the start of `s`, if one is. */
  function Octet(s: string): Option<byte> {
    if |s| < 3 || s[0] != '%' || HexValue(s[1]).None? || HexValue(s[2]).None? then None
    else Some(HexValue(s[1]).value * 16 + HexValue(s[2]).value)
  }

  function Octets(s: string, n: nat): (r: Option<bytes>)
    ensures r.Some? ==> |r.value| == n && 3 * n <= |s|
  {
    if n == 0 then Some([])
    else if Octet(s).None? || Octets(s[3..], n - 1).None? then None
    else Some([Octet(s).value] + Octets(s[3..], n - 1).value)
  }

  /** Length of the UTF-8 sequence a first byte announces, zero when it cannot be one. */
  function SequenceLength(b: byte): nat {
    if b < 0x80 then 1
    else if b < 0xC0 then 0
    else if b < 0xE0 then 2
    else if b < 0xF0 then 3
    else if b < 0xF8 then 4
    else 0
  }

  predicate Continuation(b: byte) {
    0x80 <= b < 0xC0
  }

  predicate ScalarValue(u: int) {
    0 <= u < 0xD800 || 0xE000 <= u < 0x110000
  }

  /** The number a sequence stands for, before any range check. */
  function Packed(bs: bytes): int
    requires 1 <= |bs| <= 4
  {
    if |bs| == 1 then bs[0]
    else if |bs| == 2 then (bs[0] as int - 0xC0) * 64 + (bs[1] as int - 0x80)
    else if |bs| == 3 then (bs[0] as int - 0xE0) * 4096 + (bs[1] as int - 0x80) * 64 + (bs[2] as int - 0x80)
    else (bs[0] as int - 0xF0) * 262144 + (bs[1] as int - 0x80) * 4096 + (bs[2] as int - 0x80) * 64 + (bs[3] as int - 0x80)
  }

  /** The least number that needs a sequence of this length. */
  function Shortest(n: nat): int {
    if n <= 1 then 0 else if n == 2 then 0x80 else if n == 3 then 0x800 else 0x10000
  }

  /** Overlong forms, surrogates and numbers out of range are refused. */
  function DecodeOctets(bs: bytes): Option<char> {
    if bs == [] || SequenceLength(bs[0]) != |bs| then None
    else if exists i :: 1 <= i < |bs| && !Continuation(bs[i]) then None
    else if Packed(bs) < Shortest(|bs|) || !ScalarValue(Packed(bs)) then None
    else Some(Packed(bs) as char)
  }

  function Prepend(c: char, rest: Option<string>): Option<string> {
    if rest.Some? then Some([c] + rest.value) else None
  }

  function DecodeUriComponent(s: string): Option<string>
    decreases |s|
  {
    if s == [] then Some([])
    else if s[0] != '%' then Prepend(s[0], DecodeUriComponent(s[1..]))
    else if Octet(s).None? then None
    else
      var n := SequenceLength(Octet(s).value);
      var octets := Octets(s, n);
      if n == 0 || octets.None? || DecodeOctets(octets.value).None? then None
      else Prepend(DecodeOctets(octets.value).value, DecodeUriComponent(s[3 * n..]))
  }

  lemma PackedUtf8(c: char)
    ensures DecodeOctets(Utf8Char(c)) == Some(c)
  {
    var bs, u := Utf8Char(c), c as int;
    assert SequenceLength(bs[0]) == |bs|;
    assert forall i :: 1 <= i < |bs| ==> Continuation(bs[i]);
    if |bs| == 3 {
      assert u / 4096 * 64 + u / 64 % 64 == u / 64;
    } else if |bs| == 4 {
      assert u / 262144 * 64 + u / 4096 % 64 == u / 4096;
      assert u / 4096 * 64 + u / 64 % 64 == u / 64;
    }
    assert Packed(bs) == u;
  }

  lemma Digits(high: nat, low: nat)
    requires low < 64
    ensures (high * 64 + low) / 64 == high && (high * 64 + low) % 64 == low
  {
  }

  lemma Utf8Packed(bs: bytes, c: char)
    requires DecodeOctets(bs) == Some(c)
    ensures bs == Utf8Char(c)
  {
    var u := c as int;
    forall i | 1 <= i < |bs|
      ensures Continuation(bs[i])
    {
    }
    assert u == Packed(bs);
    if |bs| == 2 {
      Digits(bs[0] - 0xC0, bs[1] - 0x80);
    } else if |bs| == 3 {
      var high := (bs[0] as int - 0xE0) * 64 + (bs[1] as int - 0x80);
      Digits(high, bs[2] - 0x80);
      Digits(bs[0] - 0xE0, bs[1] - 0x80);
      assert u / 4096 == u / 64 / 64;
    } else if |bs| == 4 {
      var high := (bs[0] as int - 0xF0) * 64 + (bs[1] as int - 0x80);
      Digits(high * 64 + (bs[2] - 0x80), bs[3] - 0x80);
      Digits(high, bs[2] - 0x80);
      Digits(bs[0] - 0xF0, bs[1] - 0x80);
      assert u / 4096 == u / 64 / 64;
      assert u / 262144 == u / 4096 / 64;
    }
  }

  /** The decoder accepts exactly what the encoder writes for one character. */
  lemma OctetsOfOneCharacter(bs: bytes, c: char)
    ensures DecodeOctets(bs) == Some(c) <==> bs == Utf8Char(c)
  {
    if bs == Utf8Char(c) {
      PackedUtf8(c);
    } else if DecodeOctets(bs) == Some(c) {
      Utf8Packed(bs, c);
    }
  }

  lemma OctetWritten(b: byte, rest: string)
    ensures Octet(PercentByte(b) + rest) == Some(b)
  {
    HexRoundTrip(b / 16);
    HexRoundTrip(b % 16);
  }

  lemma {:induction false} OctetsWritten(bs: bytes, rest: string)
    ensures Octets(PercentBytes(bs) + rest, |bs|) == Some(bs)
  {
    if bs != [] {
      var tail := PercentBytes(bs[1..]) + rest;
      assert PercentBytes(bs) + rest == PercentByte(bs[0]) + tail;
      OctetWritten(bs[0], tail);
      assert (PercentByte(bs[0]) + tail)[3..] == tail;
      OctetsWritten(bs[1..], rest);
      assert bs == [bs[0]] + bs[1..];
    }
  }

  lemma SequenceWritten(bs: bytes, c: char, rest: string)
    requires DecodeOctets(bs) == Some(c)
    ensures DecodeUriComponent(PercentBytes(bs) + rest) == Prepend(c, DecodeUriComponent(rest))
  {
    var s := PercentBytes(bs) + rest;
    OctetsWritten(bs, rest);
    assert s == PercentByte(bs[0]) + (PercentBytes(bs[1..]) + rest);
    OctetWritten(bs[0], PercentBytes(bs[1..]) + rest);
    assert s[3 * |bs|..] == rest;
  }

  lemma CharacterWritten(c: char, rest: string)
    ensures DecodeUriComponent(EncodedChar(c) + rest) == Prepend(c, DecodeUriComponent(rest))
  {
    if Unreserved(c) {
      assert ([c] + rest)[1..] == rest;
    } else {
      OctetsOfOneCharacter(Utf8Char(c), c);
      SequenceWritten(Utf8Char(c), c, rest);
    }
  }

  /** For every string, decoding undoes encoding. */
  lemma {:induction false} RoundTrip(s: string)
    ensures DecodeUriComponent(EncodeUriComponent(s)) == Some(s)
  {
    if s != [] {
      CharacterWritten(s[0], EncodeUriComponent(s[1..]));
      RoundTrip(s[1..]);
      assert s == [s[0]] + s[1..];
    }
  }

  /** A character of encoded text. */
  predicate Clean(c: char) {
    Unreserved(c) || c == '%'
  }

  lemma {:induction false} PercentBytesClean(bs: bytes)
    ensures forall c :: c in PercentBytes(bs) ==> Clean(c)
  {
    if bs != [] {
      HexRoundTrip(bs[0] / 16);
      HexRoundTrip(bs[0] % 16);
      PercentBytesClean(bs[1..]);
    }
  }

  /** Encoded text has none of the characters that structure a Cookie header. */
  lemma {:induction false} EncodedClean(s: string)
    ensures forall c :: c in EncodeUriComponent(s) ==> Clean(c)
    ensures EncodeUriComponent(s) == [] <==> s == []
  {
    if s != [] {
      PercentBytesClean(Utf8Char(s[0]));
      EncodedClean(s[1..]);
    }
  }
}
