/** The server end of the data plane: framing public requests. */
module ForwardingService {
  import opened Bytes
  import opened BodyCodec
  import opened Messages

  datatype PublicRequest = PublicRequest(tunnelId: string, head: RequestHead, body: Option<bytes>)
  {
    /** An absent body and an empty one are the same to the protocol. */
    function BodyBytes(): bytes {
      if body.Some? then body.value else []
    }
  }

  function RequestPieces(req: PublicRequest): seq<bytes> {
    Pieces(req.BodyBytes(), CHUNK_SIZE)
  }

  function RequestChunkFrame(id: string, req: PublicRequest, sequence: nat): Message
    requires sequence < |RequestPieces(req)|
  {
    var e := EncodeBodyChunk(RequestPieces(req)[sequence]);
    RequestChunk(id, req.tunnelId, sequence, e.encoding, e.data)
  }

  function RequestStartFrame(id: string, req: PublicRequest): Message {
    RequestStart(id, req.tunnelId, req.head, req.BodyBytes() != [])
  }

  /** All frames of one public request: a start, its body chunks numbered from zero, an end. */
  function RequestFrames(id: string, req: PublicRequest): (frames: seq<Message>)
    ensures |frames| == |RequestPieces(req)| + 2
    ensures forall m :: m in frames ==> m.Exchange() == Some(id)
  {
    [RequestStartFrame(id, req)]
    + seq(|RequestPieces(req)|, i requires 0 <= i < |RequestPieces(req)| => RequestChunkFrame(id, req, i))
    + [RequestEnd(id, req.tunnelId)]
  }

  method SendRequestFrames(id: string, req: PublicRequest) returns (sent: seq<Message>)
    ensures sent == RequestFrames(id, req)
  {
    var hasBody := req.body.Some? && |req.body.value| > 0;
    sent := [RequestStart(id, req.tunnelId, req.head, hasBody)];
    if hasBody {
      var sequence := 0;
      var chunks := SplitBytes(req.body.value, CHUNK_SIZE);
      for i := 0 to |chunks|
        invariant sequence == i && |sent| == 1 + i
        invariant sent == RequestFrames(id, req)[..1 + i]
      {
        var encoded := EncodeBodyChunk(chunks[i]);
        sent := sent + [RequestChunk(id, req.tunnelId, sequence, encoded.encoding, encoded.data)];
        sequence := sequence + 1;
      }
    }
    sent := sent + [RequestEnd(id, req.tunnelId)];
  }
}
