/** Octets and chunked byte streams. */
module Bytes {

  type byte = x: int | 0 <= x < 256

  type bytes = seq<byte>

  datatype Option<+T> = None | Some(value: T)

  datatype Result<+T> = Ok(value: T) | Err(error: string)

  /** The bytes of a stream that arrives as `chunks`. */
  function Concat(chunks: seq<bytes>): bytes {
    if chunks == [] then [] else chunks[0] + Concat(chunks[1..])
  }

  lemma {:induction false} ConcatAppend(a: seq<bytes>, b: seq<bytes>)
    ensures Concat(a + b) == Concat(a) + Concat(b)
  {
    if a == [] {
      assert a + b == b;
    } else {
      assert (a + b)[1..] == a[1..] + b;
      ConcatAppend(a[1..], b);
    }
  }

  lemma ConcatSnoc(a: seq<bytes>, c: bytes)
    ensures Concat(a + [c]) == Concat(a) + c
  {
    ConcatAppend(a, [c]);
    assert Concat([c]) == c + Concat([]);
  }

  /** A chunk-wise prefix of a stream is a byte-wise prefix of it. */
  lemma ConcatPrefix(a: seq<bytes>, b: seq<bytes>)
    requires a <= b
    ensures Concat(a) <= Concat(b)
  {
    assert b == a + b[|a|..];
    ConcatAppend(a, b[|a|..]);
  }

  /** The first `n` bytes, or all of them when there are fewer. */
  function Take(b: bytes, n: nat): bytes {
    if |b| <= n then b else b[..n]
  }
}
