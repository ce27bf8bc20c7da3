/** Turning a recorded exchange back into a request to forward. */
module Replay {
  import opened Bytes
  import opened BodyCodec
  import opened Messages
  import opened TrafficBody
  import opened TrafficStore
  import CookieHeader
  import R = TrafficRecorder
  import RequestHeaders
  import Text

  datatype ReplayForwardRequest = ReplayForwardRequest(
    httpMethod: Method,
    path: string,
    query: Headers,
    headers: Headers,
    cookies: Cookies,
    body: Option<bytes>,
    requestBodyTruncated: bool)

  predicate IsCookie(name: string) {
    Text.ToLower(name) == "cookie"
  }

  // Cookies out of a recorded header, taken as they stand

  function AddRaw(part: string, cookies: Cookies): Cookies {
    var raw := CookieHeader.RawPair(part);
    if raw.None? || raw.value.0 == "" then cookies else Assign(cookies, raw.value.0, raw.value.1)
  }

  function AddRaws(parts: seq<string>, cookies: Cookies): Cookies {
    if parts == [] then cookies else AddRaws(parts[1..], AddRaw(parts[0], cookies))
  }

  function RawCookies(header: string): Cookies {
    if Text.Trim(header) == "" then map[] else AddRaws(Text.Split(header, ';'), map[])
  }

  method ParseCookieHeader(header: string) returns (result: Cookies)
    ensures result == RawCookies(header)
  {
    if |Text.Trim(header)| == 0 {
      return map[];
    }
    var parts := Text.Split(header, ';');
    result := map[];
    ghost var expected := RawCookies(header);
    for i := 0 to |parts|
      invariant expected == AddRaws(parts[i..], result)
    {
      assert parts[i..][1..] == parts[i + 1..];
      var trimmed := Text.Trim(parts[i]);
      if |trimmed| == 0 {
        continue;
      }
      var separator := Text.IndexOf(trimmed, '=');
      if separator == 0 || separator == |trimmed| {
        continue;
      }
      var name := Text.Trim(trimmed[..separator]);
      var value := Text.Trim(trimmed[separator + 1..]);
      if |name| == 0 {
        continue;
      }
      result := Assign(result, name, value);
    }
  }

  function RawText(value: HeaderValue): string {
    match value case One(text) => text case Many(texts) => Text.Join(texts, "; ")
  }

  /** The cookies of the last Cookie header, in property order. */
  function SplitCookies(headers: Headers, order: seq<string>): Cookies
    requires forall name :: name in order ==> name in headers
  {
    if order == [] then map[]
    else
      var last := order[|order| - 1];
      if IsCookie(last) then RawCookies(RawText(headers[last])) else SplitCookies(headers, order[..|order| - 1])
  }

  function SplitHeaders(headers: Headers): Headers {
    map name | name in headers && !IsCookie(name) && name != PROTOTYPE_KEY :: headers[name]
  }

  lemma SplitHeadersAt(headers: Headers, name: string)
    requires name in headers
    ensures name in SplitHeaders(headers) <==> !IsCookie(name) && name != PROTOTYPE_KEY
    ensures name in SplitHeaders(headers) ==> SplitHeaders(headers)[name] == headers[name]
  {
  }

  method SplitHeadersAndCookies(headers: Headers, order: seq<string>) returns (next: Headers, cookies: Cookies)
    requires Enumerates(order, headers)
    ensures next == SplitHeaders(headers) && cookies == SplitCookies(headers, order)
  {
    next, cookies := map[], map[];
    ghost var kept := SplitHeaders(headers);
    RestrictedAll(kept, order);
    for i := 0 to |order|
      invariant next == Restricted(kept, order, i)
      invariant cookies == SplitCookies(headers, order[..i])
    {
      var name, value := order[i], headers[order[i]];
      RestrictedStep(kept, order, i);
      assert order[..i + 1][..i] == order[..i];
      SplitHeadersAt(headers, name);
      if IsCookie(name) {
        cookies := ParseCookieHeader(RawText(value));
        continue;
      }
      next := Assign(next, name, value);
    }
    assert order[..|order|] == order;
  }

  /** Every method of the data plane can be replayed, so the method check never refuses. */
  function MapTrafficRecordToForwardRequest(record: TrafficRecord, order: seq<string>): ReplayForwardRequest
    requires Enumerates(order, record.headers)
  {
    ReplayForwardRequest(
      record.httpMethod,
      record.path,
      record.query,
      SplitHeaders(record.headers),
      SplitCookies(record.headers, order),
      Present(TrafficBodyToBytes(record.body)),
      record.body.truncated)
  }

  // From capture to replay

  /** Headers as the public edge maps them: none is a Cookie header. */
  predicate CookieFree(headers: Headers) {
    forall name :: name in headers ==> !IsCookie(name) && name != PROTOTYPE_KEY
  }

  lemma MappedCookieFree(headers: RequestHeaders.RawHeaders)
    ensures CookieFree(RequestHeaders.Public(headers, RequestHeaders.STRIP_REQUEST_HEADERS))
  {
    var forwarded := RequestHeaders.Public(headers, RequestHeaders.STRIP_REQUEST_HEADERS);
    forall name | name in forwarded
      ensures !IsCookie(name) && name != PROTOTYPE_KEY
    {
      RequestHeaders.NoCookieForwarded(headers, name);
    }
  }

  lemma {:induction false} SplitCookieFree(headers: Headers, order: seq<string>)
    requires CookieFree(headers) && forall name :: name in order ==> name in headers
    ensures SplitHeaders(headers) == headers && SplitCookies(headers, order) == map[]
  {
    if order != [] {
      SplitCookieFree(headers, order[..|order| - 1]);
    }
  }

  predicate SameRequest(r: TrafficRecord, s: TrafficRecord) {
    && r.httpMethod == s.httpMethod && r.path == s.path && r.query == s.query && r.headers == s.headers
    && r.body == s.body
  }

  /** Nothing that follows the received request changes the request part of its record. */
  lemma {:induction false} FoldKeepsRequest(received: R.Event, later: seq<R.Event>, id: string, maxBodyBytes: nat)
    requires received.RequestReceived? && forall i :: 0 <= i < |later| ==> !later[i].RequestReceived?
    ensures var r := R.FoldAll([received] + later, id, maxBodyBytes);
            r.Some? && SameRequest(r.value, Normalize(R.Started(received, id), maxBodyBytes))
  {
    var all := [received] + later;
    if later == [] {
      assert all == [received] && all[..0] == [];
    } else {
      var n := |later| - 1;
      FoldKeepsRequest(received, later[..n], id, maxBodyBytes);
      assert all[..|all| - 1] == [received] + later[..n];
    }
  }

  /** The request received event the server publishes for a request with this body. */
  function Received(id: string, at: int, head: RequestHead, body: bytes, tunnelId: string, workspaceId: Option<string>): R.Event {
    R.RequestReceived(id, at, head.httpMethod, head.path, head.headers, head.query,
                      Snapshot(body, DEFAULT_MAX_RECORDED_BODY_BYTES), tunnelId, workspaceId)
  }

  /** What a replay sends for an original request recorded with `kept` bytes of room. */
  function Replayed(head: RequestHead, body: bytes, kept: nat): ReplayForwardRequest {
    ReplayForwardRequest(head.httpMethod, head.path, head.query, head.headers, map[], Present(Take(body, kept)), |body| > kept)
  }

  lemma ReplayOfRecord(record: TrafficRecord, received: R.Event, id: string, head: RequestHead, body: bytes, at: int,
                       tunnelId: string, workspaceId: Option<string>, order: seq<string>, maxBodyBytes: nat)
    requires received == Received(id, at, head, body, tunnelId, workspaceId) && CookieFree(head.headers)
    requires SameRequest(record, Normalize(R.Started(received, id), maxBodyBytes)) && Enumerates(order, record.headers)
    ensures MapTrafficRecordToForwardRequest(record, order)
            == Replayed(head, body, Min(DEFAULT_MAX_RECORDED_BODY_BYTES, maxBodyBytes))
  {
    var kept := Min(DEFAULT_MAX_RECORDED_BODY_BYTES, maxBodyBytes);
    CapOfSnapshot(body, DEFAULT_MAX_RECORDED_BODY_BYTES, maxBodyBytes);
    SnapshotMeaning(body, kept);
    SplitCookieFree(head.headers, order);
  }

  /**
   * For every schedule with room for every exchange: once an exchange whose request was received first has settled, its
   * record replays the same method, path, query and headers and the original body, byte for byte within the caps, and
   * otherwise exactly the bytes up to the smaller cap, flagged truncated. Cookies are not recorded, so none are replayed.
   */
  lemma CaptureToReplay(schedule: seq<R.Action>, id: string, head: RequestHead, body: bytes, at: int, tunnelId: string,
                        workspaceId: Option<string>, later: seq<R.Event>, order: seq<string>, maxRecords: int, maxBodyBytes: nat)
    requires R.Distinguished(R.Ids(schedule)) && |R.Ids(schedule)| <= Capacity(maxRecords)
    requires R.Published(schedule, id) == [Received(id, at, head, body, tunnelId, workspaceId)] + later
    requires forall i :: 0 <= i < |later| ==> !later[i].RequestReceived?
    requires id !in R.Run(schedule, maxRecords, maxBodyBytes).chains
    requires CookieFree(head.headers) && Enumerates(order, head.headers)
    ensures var record := R.Lookup(R.Run(schedule, maxRecords, maxBodyBytes).log, id);
            && record.Some? && record.value.headers == head.headers
            && MapTrafficRecordToForwardRequest(record.value, order)
               == Replayed(head, body, Min(DEFAULT_MAX_RECORDED_BODY_BYTES, maxBodyBytes))
  {
    if id !in R.Ids(schedule) {
      R.NothingPublished(schedule, id);
      assert false;
    }
    var received := Received(id, at, head, body, tunnelId, workspaceId);
    R.SettledRecord(schedule, id, maxRecords, maxBodyBytes);
    FoldKeepsRequest(received, later, id, maxBodyBytes);
    var record := R.Lookup(R.Run(schedule, maxRecords, maxBodyBytes).log, id).value;
    ReplayOfRecord(record, received, id, head, body, at, tunnelId, workspaceId, order, maxBodyBytes);
  }
}
