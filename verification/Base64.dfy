/** Base 64 as in section 4 of RFC 4648, with the lenient decoder of the runtime. */
module Base64 {
  import opened Bytes

  type sextet = x: int | 0 <= x < 64

  function Symbol(v: sextet): char {
    if v < 26 then ((v as int) + 65) as char
    else if v < 52 then ((v as int) + 71) as char
    else if v < 62 then ((v as int) - 4) as char
    else if v == 62 then '+' else '/'
  }

  /** Value of an alphabet symbol, in either the standard or the URL-safe alphabet. */
  function Value(c: char): Option<sextet> {
    var u := c as int;
    if 'A' <= c <= 'Z' then Some(u - 65)
    else if 'a' <= c <= 'z' then Some(u - 71)
    else if '0' <= c <= '9' then Some(u + 4)
    else if c == '+' || c == '-' then Some(62)
    else if c == '/' || c == '_' then Some(63)
    else None
  }

  /** Octets regrouped into sextets; the last group is filled up with zero bits. */
  function Sextets(b: bytes): seq<sextet> {
    if b == [] then []
    else
      var x := b[0] as int;
      if |b| == 1 then [x / 4, x % 4 * 16]
      else
        var y := b[1] as int;
        if |b| == 2 then [x / 4, x % 4 * 16 + y / 16, y % 16 * 4]
        else
          var z := b[2] as int;
          [x / 4, x % 4 * 16 + y / 16, y % 16 * 4 + z / 64, z % 64] + Sextets(b[3..])
  }

  /** Sextets regrouped into octets, dropping an incomplete last octet. */
  function Octets(q: seq<sextet>): bytes {
    if |q| < 2 then []
    else
      var s, t := q[0] as int, q[1] as int;
      if |q| == 2 then [s * 4 + t / 16]
      else
        var u := q[2] as int;
        if |q| == 3 then [s * 4 + t / 16, t % 16 * 16 + u / 4]
        else
          var v := q[3] as int;
          [s * 4 + t / 16, t % 16 * 16 + u / 4, u % 4 * 64 + v] + Octets(q[4..])
  }

  function Symbols(q: seq<sextet>): string {
    if q == [] then "" else [Symbol(q[0])] + Symbols(q[1..])
  }

  function Padding(n: nat): string {
    if n % 3 == 0 then "" else if n % 3 == 1 then "==" else "="
  }

  function Encode(b: bytes): string {
    Symbols(Sextets(b)) + Padding(|b|)
  }

  /** The values of the alphabet symbols in `s`; anything else is skipped. */
  function Values(s: string): seq<sextet> {
    if s == "" then []
    else match Value(s[0])
      case Some(v) => [v] + Values(s[1..])
      case None => Values(s[1..])
  }

  function Decode(s: string): bytes {
    Octets(Values(s))
  }

  lemma {:induction false} OctetsOfSextets(b: bytes)
    ensures Octets(Sextets(b)) == b
  {
    if |b| >= 3 {
      OctetsOfSextets(b[3..]);
      var q := Sextets(b);
      assert q[4..] == Sextets(b[3..]);
      assert Octets(q)[..3] == b[..3];
      assert Octets(q)[3..] == b[3..];
      assert b == b[..3] + b[3..] && Octets(q) == Octets(q)[..3] + Octets(q)[3..];
    }
  }

  lemma ValuesOfPadding(n: nat)
    ensures Values(Padding(n)) == []
  {
    assert "=="[1..] == "=";
  }

  lemma {:induction false} ValuesOfSymbols(q: seq<sextet>, pad: string)
    requires Values(pad) == []
    ensures Values(Symbols(q) + pad) == q
  {
    if q == [] {
      assert Symbols(q) + pad == pad;
    } else {
      ValuesOfSymbols(q[1..], pad);
      assert (Symbols(q) + pad)[1..] == Symbols(q[1..]) + pad;
    }
  }

  /** Decoding undoes encoding, for every byte string. */
  lemma RoundTrip(b: bytes)
    ensures Decode(Encode(b)) == b
  {
    ValuesOfPadding(|b|);
    ValuesOfSymbols(Sextets(b), Padding(|b|));
    OctetsOfSextets(b);
  }

  /** Only the empty byte string encodes to the empty text. */
  lemma EncodeEmpty(b: bytes)
    ensures Encode(b) == "" <==> b == []
  {
    assert b != [] ==> Sextets(b) != [];
  }
}
