/** Splitting, encoding and reassembling HTTP bodies for the wire. */
module BodyCodec {
  import opened Bytes
  import Base64
  import Text

  const CHUNK_SIZE: nat := 64 * 1024

  datatype Encoding = Utf8 | Base64Text

  datatype EncodedChunk = EncodedChunk(encoding: Encoding, data: string)

  function EncodeBodyChunk(b: bytes): EncodedChunk {
    EncodedChunk(Base64Text, Base64.Encode(b))
  }

  function DecodeBodyChunk(encoding: Encoding, data: string): bytes {
    match encoding
    case Utf8 => Text.Utf8(data)
    case Base64Text => Base64.Decode(data)
  }

  lemma ChunkRoundTrip(b: bytes)
    ensures var e := EncodeBodyChunk(b); DecodeBodyChunk(e.encoding, e.data) == b
  {
    Base64.RoundTrip(b);
  }

  /** Consecutive pieces of `b`, each of `size` bytes except perhaps the last. */
  function Pieces(b: bytes, size: nat): seq<bytes>
    requires size > 0
    decreases |b|
  {
    if b == [] then [] else if |b| <= size then [b] else [b[..size]] + Pieces(b[size..], size)
  }

  function Min(a: nat, b: nat): nat {
    if a < b then a else b
  }

  lemma PiecesStep(b: bytes, offset: nat, end: nat, size: nat)
    requires size > 0 && offset < |b| && end == Min(offset + size, |b|)
    ensures Pieces(b[offset..], size) == [b[offset..end]] + Pieces(b[end..], size)
  {
    if end < |b| {
      assert b[offset..][..size] == b[offset..end];
      assert b[offset..][size..] == b[end..];
    } else {
      assert b[offset..end] == b[offset..];
    }
  }

  method SplitBytes(b: bytes, chunkSize: nat) returns (chunks: seq<bytes>)
    requires chunkSize > 0
    ensures chunks == Pieces(b, chunkSize)
  {
    if |b| == 0 {
      return [];
    }
    chunks := [];
    var offset := 0;
    while offset < |b|
      invariant chunks + Pieces(b[Min(offset, |b|)..], chunkSize) == Pieces(b, chunkSize)
    {
      var end := Min(offset + chunkSize, |b|);
      PiecesStep(b, offset, end, chunkSize);
      chunks := chunks + [b[offset..end]];
      offset := offset + chunkSize;
    }
  }

  /** No byte is lost, reordered or duplicated, and every piece fits the chunk size. */
  lemma {:induction false} PiecesConcat(b: bytes, size: nat)
    requires size > 0
    ensures Concat(Pieces(b, size)) == b
    ensures forall i :: 0 <= i < |Pieces(b, size)| ==> 0 < |Pieces(b, size)[i]| <= size
    ensures forall i :: 0 <= i < |Pieces(b, size)| - 1 ==> |Pieces(b, size)[i]| == size
    decreases |b|
  {
    if b == [] {
    } else if |b| <= size {
      assert Concat([b]) == b + Concat([]);
    } else {
      PiecesConcat(b[size..], size);
      assert b == b[..size] + b[size..];
    }
  }

  /** A body as the local application sees it: an empty one is absent. */
  function Present(b: bytes): Option<bytes> {
    if b == [] then None else Some(b)
  }

  method ConcatChunks(chunks: seq<bytes>) returns (r: Option<bytes>)
    ensures r == Present(Concat(chunks))
  {
    var total := 0;
    for i := 0 to |chunks|
      invariant total == |Concat(chunks[..i])|
    {
      assert chunks[..i + 1] == chunks[..i] + [chunks[i]];
      ConcatSnoc(chunks[..i], chunks[i]);
      total := total + |chunks[i]|;
    }
    assert chunks[..|chunks|] == chunks;
    if total == 0 {
      return None;
    }
    var result := new byte[total];
    var offset := 0;
    for i := 0 to |chunks|
      invariant offset == |Concat(chunks[..i])| <= total
      invariant result[..offset] == Concat(chunks[..i])
    {
      var chunk := chunks[i];
      assert chunks[..i + 1] == chunks[..i] + [chunk];
      ConcatSnoc(chunks[..i], chunk);
      ConcatPrefix(chunks[..i + 1], chunks);
      forall k | 0 <= k < |chunk| {
        result[offset + k] := chunk[k];
      }
      offset := offset + |chunk|;
    }
    assert result[..] == result[..offset];
    r := Some(result[..]);
  }
}
