/** Body snapshots: capped, base64-encoded, with the original length. */
module TrafficBody {
  import opened Bytes
  import opened BodyCodec
  import Base64

  const DEFAULT_MAX_RECORDED_BODY_BYTES: nat := 65536

  datatype TrafficBody = TrafficBody(byteLength: nat, truncated: bool, dataBase64: string)

  const EMPTY_TRAFFIC_BODY := TrafficBody(0, false, "")

  function Snapshot(b: bytes, maxBytes: nat): TrafficBody {
    if b == [] then EMPTY_TRAFFIC_BODY
    else TrafficBody(|b|, |b| > maxBytes, Base64.Encode(Take(b, maxBytes)))
  }

  function CreateTrafficBody(input: Option<bytes>, maxBytes: int): Result<TrafficBody> {
    if maxBytes < 0 then Err("maxBytes must be a non-negative integer.")
    else Ok(Snapshot(if input.Some? then input.value else [], maxBytes))
  }

  function TrafficBodyToBytes(body: TrafficBody): bytes {
    if body.dataBase64 == "" then [] else Base64.Decode(body.dataBase64)
  }

  function CapTrafficBody(body: TrafficBody, maxBytes: nat): TrafficBody {
    if body.dataBase64 == "" && body.byteLength == 0 then EMPTY_TRAFFIC_BODY
    else
      var b := TrafficBodyToBytes(body);
      var capped := Snapshot(b, maxBytes);
      TrafficBody(body.byteLength, body.truncated || capped.truncated || body.byteLength > maxBytes, capped.dataBase64)
  }

  /** A snapshot keeps the length, the first bytes up to the cap, and tells truthfully whether any are missing. */
  lemma SnapshotMeaning(b: bytes, maxBytes: nat)
    ensures var s := Snapshot(b, maxBytes);
            && TrafficBodyToBytes(s) == Take(b, maxBytes)
            && s.byteLength == |b|
            && (s.truncated <==> |TrafficBodyToBytes(s)| < s.byteLength)
  {
    Base64.RoundTrip(Take(b, maxBytes));
    Base64.EncodeEmpty(Take(b, maxBytes));
  }

  /**
   * A body is refused exactly for a negative cap; otherwise the snapshot has its length, the bytes that fit, and the flag
   * exactly when some do not. An absent body is an empty one.
   */
  lemma CreatedTrafficBody(input: Option<bytes>, maxBytes: int)
    ensures var r := CreateTrafficBody(input, maxBytes);
            var b := if input.Some? then input.value else [];
            && (r.Err? <==> maxBytes < 0)
            && (r.Ok? ==> TrafficBodyToBytes(r.value) == Take(b, maxBytes) && r.value.byteLength == |b|)
            && (r.Ok? ==> (r.value.truncated <==> |b| > maxBytes))
  {
    if maxBytes >= 0 {
      SnapshotMeaning(if input.Some? then input.value else [], maxBytes);
    }
  }

  lemma TakeTake(b: bytes, first: nat, second: nat)
    ensures Take(Take(b, first), second) == Take(b, Min(first, second))
  {
  }

  lemma SnapshotData(b: bytes, maxBytes: nat)
    ensures Snapshot(b, maxBytes).dataBase64 == Base64.Encode(Take(b, maxBytes))
    ensures Snapshot(b, maxBytes).truncated <==> |b| > maxBytes
  {
    Base64.EncodeEmpty(b);
  }

  /** Capping a snapshot again is the same as one snapshot with the smaller cap. */
  lemma CapOfSnapshot(b: bytes, first: nat, second: nat)
    ensures CapTrafficBody(Snapshot(b, first), second) == Snapshot(b, Min(first, second))
  {
    var taken := Take(b, first);
    SnapshotMeaning(b, first);
    Base64.EncodeEmpty(taken);
    assert Base64.Encode([]) == "";
    TakeTake(b, first, second);
    if b != [] {
      SnapshotData(taken, second);
      assert CapTrafficBody(Snapshot(b, first), second)
             == TrafficBody(|b|, |b| > first || |taken| > second || |b| > second, Base64.Encode(Take(taken, second)));
    }
  }

  /** Any number of nested caps is the smallest of them. */
  function Smallest(caps: seq<nat>, cap: nat): nat {
    if caps == [] then cap else Smallest(caps[1..], Min(cap, caps[0]))
  }

  function CapAll(body: TrafficBody, caps: seq<nat>): TrafficBody
    decreases |caps|
  {
    if caps == [] then body else CapAll(CapTrafficBody(body, caps[0]), caps[1..])
  }

  lemma {:induction false} NestedCaps(b: bytes, cap: nat, caps: seq<nat>)
    ensures CapAll(Snapshot(b, cap), caps) == Snapshot(b, Smallest(caps, cap))
    decreases |caps|
  {
    if caps != [] {
      CapOfSnapshot(b, cap, caps[0]);
      NestedCaps(b, Min(cap, caps[0]), caps[1..]);
    }
  }

  function ToRecordedBody(retained: seq<bytes>, totalBytes: nat): TrafficBody {
    if totalBytes == 0 then EMPTY_TRAFFIC_BODY
    else TrafficBody(totalBytes, totalBytes > |Concat(retained)|, Base64.Encode(Concat(retained)))
  }

  /** A body seen chunk by chunk, and what the recorder keeps of it. */
  method ObserveBody(body: seq<bytes>, hasBody: bool) returns (yielded: seq<bytes>, recorded: TrafficBody)
    ensures recorded == Snapshot(Concat(body), DEFAULT_MAX_RECORDED_BODY_BYTES)
    ensures yielded == if hasBody then body else []
  {
    var retained: seq<bytes> := [];
    var retainedBytes := 0;
    var totalBytes := 0;
    yielded := [];
    for i := 0 to |body|
      invariant totalBytes == |Concat(body[..i])|
      invariant Concat(retained) == Take(Concat(body[..i]), DEFAULT_MAX_RECORDED_BODY_BYTES)
      invariant retainedBytes == |Concat(retained)|
      invariant yielded == if hasBody then body[..i] else []
    {
      var chunk := body[i];
      assert body[..i + 1] == body[..i] + [chunk];
      ConcatSnoc(body[..i], chunk);
      totalBytes := totalBytes + |chunk|;
      if retainedBytes < DEFAULT_MAX_RECORDED_BODY_BYTES {
        var room := DEFAULT_MAX_RECORDED_BODY_BYTES - retainedBytes;
        var take := if |chunk| <= room then chunk else chunk[..room];
        ConcatSnoc(retained, take);
        retained := retained + [take];
        retainedBytes := retainedBytes + |take|;
      }
      if hasBody {
        yielded := yielded + [chunk];
      }
    }
    assert body[..|body|] == body;
    recorded := ToRecordedBody(retained, totalBytes);
  }
}
