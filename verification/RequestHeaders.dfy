/** Request headers on their way from the public side to the local target. */
module RequestHeaders {
  import opened Bytes
  import opened CookieHeader
  import opened Messages
  import Text

  const STRIP_REQUEST_HEADERS := {
    "connection", "keep-alive", "proxy-authenticate", "proxy-authorization", "proxy-connection", "te", "trailer",
    "transfer-encoding", "upgrade", "host", "content-length", "cookie", "x-forwarded-for", "x-forwarded-host",
    "x-forwarded-proto", "x-forwarded-port", "x-real-ip", "forwarded"}

  const HOP_BY_HOP_HEADERS := {
    "connection", "keep-alive", "proxy-authenticate", "proxy-authorization", "proxy-connection", "te", "trailer",
    "transfer-encoding", "upgrade", "host", "content-length", "cookie"}

  predicate Stripped(name: string, strip: set<string>) {
    Text.ToLower(name) in strip
  }

  function Texts(value: HeaderValue): seq<string> {
    match value case One(text) => [text] case Many(texts) => texts
  }

  predicate Fits(name: string, value: HeaderValue) {
    Bounded(name) && forall i :: 0 <= i < |Texts(value)| ==> Bounded(Texts(value)[i])
  }

  type RawHeaders = map<string, Option<HeaderValue>>

  /** The headers that travel: those with a value whose name is not stripped and is a property name. */
  function Public(headers: RawHeaders, strip: set<string>): Headers {
    map name | name in headers && headers[name].Some? && !Stripped(name, strip) && name != PROTOTYPE_KEY
      :: headers[name].value
  }

  predicate FitsAt(headers: RawHeaders, name: string, strip: set<string>)
    requires name in headers
  {
    headers[name].Some? && !Stripped(name, strip) ==> Fits(name, headers[name].value)
  }

  ghost predicate AllFit(headers: RawHeaders, strip: set<string>) {
    forall name :: name in headers ==> FitsAt(headers, name, strip)
  }

  lemma RestrictedBefore<V>(m: map<string, V>, order: seq<string>, n: nat, own: map<string, V>)
    requires n < |order| && order[n] !in own
    ensures Restricted(m, order, n + 1) + own ==
            if order[n] in m then (Restricted(m, order, n) + own)[order[n] := m[order[n]]] else Restricted(m, order, n) + own
  {
    RestrictedStep(m, order, n);
  }

  method TextsBounded(texts: seq<string>) returns (bounded: bool)
    ensures bounded <==> forall i :: 0 <= i < |texts| ==> Bounded(texts[i])
  {
    for k := 0 to |texts|
      invariant forall i :: 0 <= i < k ==> Bounded(texts[i])
    {
      if !Bounded(texts[k]) {
        return false;
      }
    }
    bounded := true;
  }

  method MapHeaders(headers: RawHeaders, order: seq<string>, strip: set<string>) returns (r: Result<Headers>)
    requires Enumerates(order, headers)
    ensures r.Ok? <==> AllFit(headers, strip)
    ensures r.Ok? ==> r.value == Public(headers, strip)
  {
    var result: Headers := map[];
    RestrictedAll(Public(headers, strip), order);
    for i := 0 to |order|
      invariant result == Restricted(Public(headers, strip), order, i)
      invariant forall j :: 0 <= j < i ==> FitsAt(headers, order[j], strip)
    {
      var name := order[i];
      var value := headers[name];
      RestrictedStep(Public(headers, strip), order, i);
      if value.None? || Stripped(name, strip) {
        continue;
      }
      if !Bounded(name) {
        return Err("header name exceeds maximum length of 8192 characters.");
      }
      var bounded := TextsBounded(Texts(value.value));
      if !bounded {
        return Err("header value exceeds maximum length of 8192 characters.");
      }
      result := Assign(result, name, value.value);
    }
    r := Ok(result);
  }

  function NotHopByHop(headers: Headers, strip: set<string>): Headers {
    map name | name in headers && !Stripped(name, strip) && name != PROTOTYPE_KEY :: headers[name]
  }

  lemma NotHopByHopAt(headers: Headers, strip: set<string>, name: string)
    requires name in headers
    ensures var kept := NotHopByHop(headers, strip);
            && (name in kept <==> !Stripped(name, strip) && name != PROTOTYPE_KEY)
            && (name in kept ==> kept[name] == headers[name])
  {
  }

  function TargetHost(host: string, port: nat): Headers {
    map["host" := One(host + ":" + Text.Decimal(port))]
  }

  /** What the local target is sent: its own Host, the cookies printed, and every other header that is not hop-by-hop. */
  function Local(headers: Headers, strip: set<string>, cookie: Option<string>, host: string, port: nat): Headers {
    var kept := NotHopByHop(headers, strip) + TargetHost(host, port);
    if cookie.None? then kept else kept["cookie" := One(cookie.value)]
  }

  lemma LowerNames()
    ensures Text.ToLower("host") == "host" && Text.ToLower("cookie") == "cookie"
  {
  }

  method BuildRequestHeaders(headers: Headers, order: seq<string>, cookies: Cookies, cookieOrder: seq<string>,
                             host: string, port: nat, strip: set<string>) returns (result: Headers)
    requires Enumerates(order, headers) && Enumerates(cookieOrder, cookies) && "host" in strip
    ensures result == Local(headers, strip, SerializeCookies(cookies, cookieOrder), host, port)
  {
    result := TargetHost(host, port);
    ghost var own, kept := result, NotHopByHop(headers, strip);
    LowerNames();
    RestrictedAll(kept, order);
    for i := 0 to |order|
      invariant result == Restricted(kept, order, i) + own
    {
      var name := order[i];
      NotHopByHopAt(headers, strip, name);
      if name == "host" {
        RestrictedStep(kept, order, i);
      } else {
        RestrictedBefore(kept, order, i, own);
      }
      if Stripped(name, strip) {
        continue;
      }
      result := Assign(result, name, headers[name]);
    }
    var cookieHeader := SerializeCookies(cookies, cookieOrder);
    if cookieHeader.Some? {
      result := result["cookie" := One(cookieHeader.value)];
    }
  }

  ghost predicate OnlyHostAndCookieAdded(sent: Headers, forwarded: Headers, cookieHeader: Option<string>, host: string, port: nat)
    requires Parsed(cookieHeader).Ok?
  {
    && sent - {"host", "cookie"} == forwarded
    && "host" in sent && sent["host"] == One(host + ":" + Text.Decimal(port))
    && ("cookie" in sent <==> Parsed(cookieHeader).value != map[])
    && ("cookie" in sent ==> sent["cookie"].One? && Parsed(Some(sent["cookie"].text)) == Parsed(cookieHeader))
  }

  lemma StripLists()
    ensures HOP_BY_HOP_HEADERS <= STRIP_REQUEST_HEADERS && "host" in HOP_BY_HOP_HEADERS && "cookie" in HOP_BY_HOP_HEADERS
  {
  }

  lemma Arrives(headers: RawHeaders, edge: set<string>, hop: set<string>, cookieHeader: Option<string>,
                cookieOrder: seq<string>, host: string, port: nat)
    requires hop <= edge && "host" in hop && "cookie" in hop
    requires Parsed(cookieHeader).Ok? && Enumerates(cookieOrder, Parsed(cookieHeader).value)
    ensures var forwarded := Public(headers, edge);
            var sent := Local(forwarded, hop, SerializeCookies(Parsed(cookieHeader).value, cookieOrder), host, port);
            OnlyHostAndCookieAdded(sent, forwarded, cookieHeader, host, port)
  {
    LowerNames();
    ParsedSurvives(cookieHeader, cookieOrder);
    var forwarded := Public(headers, edge);
    assert NotHopByHop(forwarded, hop) == forwarded;
    assert "host" !in forwarded && "cookie" !in forwarded;
    if cookieOrder != [] {
      assert cookieOrder[0] in Parsed(cookieHeader).value;
    }
  }

  /**
   * For every public request that is accepted, the local target gets every public header that is not stripped at the
   * edge, unchanged, and besides only its Host and a Cookie header that parses to the public one's cookies.
   */
  lemma HeadersArrive(headers: RawHeaders, cookieHeader: Option<string>, cookieOrder: seq<string>, host: string, port: nat)
    requires Parsed(cookieHeader).Ok? && Enumerates(cookieOrder, Parsed(cookieHeader).value)
    ensures var forwarded := Public(headers, STRIP_REQUEST_HEADERS);
            var sent := Local(forwarded, HOP_BY_HOP_HEADERS, SerializeCookies(Parsed(cookieHeader).value, cookieOrder), host, port);
            OnlyHostAndCookieAdded(sent, forwarded, cookieHeader, host, port)
  {
    StripLists();
    Arrives(headers, STRIP_REQUEST_HEADERS, HOP_BY_HOP_HEADERS, cookieHeader, cookieOrder, host, port);
  }

  /** No forwarded header is a Cookie header, however its name is capitalised. */
  lemma NoCookieForwarded(headers: RawHeaders, name: string)
    requires name in Public(headers, STRIP_REQUEST_HEADERS)
    ensures Text.ToLower(name) != "cookie" && name != PROTOTYPE_KEY
  {
    StripLists();
  }
}
