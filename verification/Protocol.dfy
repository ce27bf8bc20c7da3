/** The wire form of the protocol messages: printing them as JSON objects and parsing untrusted ones. */
module Protocol {
  import opened Bytes
  import opened Messages
  import BodyCodec

  /** A JSON value (section 3 of RFC 8259); the text form is not modelled. */
  datatype Json =
    | Null
    | Boolean(flag: bool)
    | Number(number: real)
    | String(text: string)
    | Array(items: seq<Json>)
    | Object(fields: map<string, Json>)

  type Fields = map<string, Json>

  function Field(f: Fields, name: string): Option<Json> {
    if name in f then Some(f[name]) else None
  }

  function StringField(f: Fields, name: string): Option<string> {
    if name in f && f[name].String? then Some(f[name].text) else None
  }

  function NonEmptyField(f: Fields, name: string): Option<string> {
    if name in f && f[name].String? && f[name].text != "" then Some(f[name].text) else None
  }

  function BooleanField(f: Fields, name: string): Option<bool> {
    if name in f && f[name].Boolean? then Some(f[name].flag) else None
  }

  function IntegerField(f: Fields, name: string): Option<int> {
    if name in f && f[name].Number? && f[name].number == f[name].number.Floor as real then Some(f[name].number.Floor) else None
  }

  /** A field may be missing, but when present it has to be a non-empty string. */
  function OptionalField(f: Fields, name: string): Result<Option<string>> {
    if name !in f then Ok(None)
    else if f[name].String? && f[name].text != "" then Ok(Some(f[name].text))
    else Err(name + " must be a non-empty string when present.")
  }

  // Records of strings

  function Strings(items: seq<Json>): Option<seq<string>> {
    if items == [] then Some([])
    else
      var rest := Strings(items[1..]);
      if items[0].String? && rest.Some? then Some([items[0].text] + rest.value) else None
  }

  function ParseStringArray(value: Option<Json>): Option<seq<string>> {
    if value.Some? && value.value.Array? then Strings(value.value.items) else None
  }

  function HeaderEntry(entry: Json): Option<HeaderValue> {
    if entry.String? then Some(One(entry.text))
    else
      var texts := ParseStringArray(Some(entry));
      if texts.Some? then Some(Many(texts.value)) else None
  }

  const NOT_HEADERS := "headers must be an object of strings and string arrays."
  const NOT_COOKIES := "cookies must be an object of strings."

  function ParseHeaders(value: Option<Json>): Result<Headers> {
    if value.None? || !value.value.Object? then Err(NOT_HEADERS)
    else
      var f := value.value.fields;
      if exists key :: key in f && HeaderEntry(f[key]).None? then Err(NOT_HEADERS)
      else Ok(map key | key in f && key != PROTOTYPE_KEY && HeaderEntry(f[key]).Some? :: HeaderEntry(f[key]).value)
  }

  function ParseCookies(value: Option<Json>): Result<Cookies> {
    if value.None? || !value.value.Object? then Err(NOT_COOKIES)
    else
      var f := value.value.fields;
      if exists key :: key in f && !f[key].String? then Err(NOT_COOKIES)
      else Ok(map key | key in f && key != PROTOTYPE_KEY && f[key].String? :: f[key].text)
  }

  method ParseHeadersObject(f: Fields, order: seq<string>) returns (r: Result<Headers>)
    requires Enumerates(order, f)
    ensures r == ParseHeaders(Some(Object(f)))
  {
    var result: Headers := map[];
    ghost var all := map key | key in f && key != PROTOTYPE_KEY && HeaderEntry(f[key]).Some? :: HeaderEntry(f[key]).value;
    RestrictedAll(all, order);
    for i := 0 to |order|
      invariant forall j :: 0 <= j < i ==> HeaderEntry(f[order[j]]).Some?
      invariant result == Restricted(all, order, i)
    {
      var key, entry := order[i], f[order[i]];
      RestrictedStep(all, order, i);
      if entry.String? {
        result := Assign(result, key, One(entry.text));
        continue;
      }
      var asArray := ParseStringArray(Some(entry));
      if asArray.None? {
        return Err(NOT_HEADERS);
      }
      result := Assign(result, key, Many(asArray.value));
    }
    r := Ok(result);
  }

  method ParseCookiesObject(f: Fields, order: seq<string>) returns (r: Result<Cookies>)
    requires Enumerates(order, f)
    ensures r == ParseCookies(Some(Object(f)))
  {
    var result: Cookies := map[];
    ghost var all := map key | key in f && key != PROTOTYPE_KEY && f[key].String? :: f[key].text;
    RestrictedAll(all, order);
    for i := 0 to |order|
      invariant forall j :: 0 <= j < i ==> f[order[j]].String?
      invariant result == Restricted(all, order, i)
    {
      var key, entry := order[i], f[order[i]];
      RestrictedStep(all, order, i);
      if !entry.String? {
        return Err(NOT_COOKIES);
      }
      result := Assign(result, key, entry.text);
    }
    r := Ok(result);
  }

  // Parsing

  function ParseMethod(value: Option<string>): Option<Method> {
    if value == Some("GET") then Some(GET)
    else if value == Some("POST") then Some(POST)
    else if value == Some("PUT") then Some(PUT)
    else if value == Some("PATCH") then Some(PATCH)
    else if value == Some("DELETE") then Some(DELETE)
    else None
  }

  function ParseEncoding(value: Option<string>): Option<BodyCodec.Encoding> {
    if value == Some("utf8") then Some(BodyCodec.Utf8)
    else if value == Some("base64") then Some(BodyCodec.Base64Text)
    else None
  }

  datatype Meta = Meta(requestId: string, tunnelId: string)

  function RequireRequestMeta(f: Fields): Result<Meta> {
    var requestId, tunnelId := NonEmptyField(f, "requestId"), NonEmptyField(f, "tunnelId");
    if requestId.None? then Err("HTTP forwarding message requires a non-empty requestId.")
    else if tunnelId.None? then Err("HTTP forwarding message requires a non-empty tunnelId.")
    else Ok(Meta(requestId.value, tunnelId.value))
  }

  datatype Chunk = Chunk(sequence: int, encoding: BodyCodec.Encoding, data: string)

  function ParseChunkFields(f: Fields): Result<Chunk> {
    var sequence, encoding, data := IntegerField(f, "sequence"), ParseEncoding(StringField(f, "encoding")), StringField(f, "data");
    if sequence.None? || sequence.value < 0 then Err("HTTP chunk requires a non-negative integer sequence.")
    else if encoding.None? then Err("HTTP chunk encoding must be \"utf8\" or \"base64\".")
    else if data.None? then Err("HTTP chunk requires string data.")
    else Ok(Chunk(sequence.value, encoding.value, data.value))
  }

  function ParseConnected(f: Fields): Result<Message> {
    var connectionId := NonEmptyField(f, "connectionId");
    if connectionId.None? then Err("Connected message requires a non-empty connectionId.") else Ok(Connected(connectionId.value))
  }

  function ParseCreateTunnel(f: Fields): Result<Message> {
    var requestId, port, tunnelId := NonEmptyField(f, "requestId"), IntegerField(f, "port"), OptionalField(f, "tunnelId");
    if requestId.None? then Err("CreateTunnel message requires a non-empty requestId.")
    else if port.None? || port.value < 1 || port.value > 65535 then
      Err("CreateTunnel message requires an integer port between 1 and 65535.")
    else if tunnelId.Err? then Err("CreateTunnel message tunnelId must be a non-empty string when present.")
    else Ok(CreateTunnel(requestId.value, port.value, tunnelId.value))
  }

  function ParseTunnelCreated(f: Fields): Result<Message> {
    var requestId, tunnelId, publicUrl := NonEmptyField(f, "requestId"), NonEmptyField(f, "tunnelId"), NonEmptyField(f, "publicUrl");
    if requestId.None? then Err("TunnelCreated message requires a non-empty requestId.")
    else if tunnelId.None? then Err("TunnelCreated message requires a non-empty tunnelId.")
    else if publicUrl.None? then Err("TunnelCreated message requires a non-empty publicUrl.")
    else Ok(TunnelCreated(requestId.value, tunnelId.value, publicUrl.value))
  }

  function ParseError(f: Fields): Result<Message> {
    var code, text, requestId := NonEmptyField(f, "code"), NonEmptyField(f, "message"), OptionalField(f, "requestId");
    if code.None? then Err("Error message requires a non-empty code.")
    else if text.None? then Err("Error message requires a non-empty message.")
    else if requestId.Err? then Err("Error message requestId must be a non-empty string when present.")
    else Ok(Error(requestId.value, code.value, text.value))
  }

  function ParsePing(f: Fields): Result<Message> {
    var requestId := NonEmptyField(f, "requestId");
    if requestId.None? then Err("Ping message requires a non-empty requestId.") else Ok(Ping(requestId.value))
  }

  function ParsePong(f: Fields): Result<Message> {
    var requestId := NonEmptyField(f, "requestId");
    if requestId.None? then Err("Pong message requires a non-empty requestId.") else Ok(Pong(requestId.value))
  }

  /** The head of a request from its parsed parts; the first part that failed decides the error. */
  function RequestHeadOf(httpMethod: Option<Method>, path: Option<string>, query: Result<Headers>, headers: Result<Headers>,
                         cookies: Result<Cookies>): Result<RequestHead> {
    if httpMethod.None? then Err("HttpRequestStart requires a supported HTTP method.")
    else if path.None? then Err("HttpRequestStart requires a string path.")
    else if query.Err? then Err(query.error)
    else if headers.Err? then Err(headers.error)
    else if cookies.Err? then Err(cookies.error)
    else Ok(RequestHead(httpMethod.value, path.value, query.value, headers.value, cookies.value))
  }

  function ParseRequestHead(f: Fields): Result<RequestHead> {
    RequestHeadOf(ParseMethod(StringField(f, "method")), StringField(f, "path"),
                  ParseHeaders(Field(f, "query")), ParseHeaders(Field(f, "headers")), ParseCookies(Field(f, "cookies")))
  }

  function ParseRequestStart(f: Fields): Result<Message> {
    var meta, request, hasBody := RequireRequestMeta(f), ParseRequestHead(f), BooleanField(f, "hasBody");
    if meta.Err? then Err(meta.error)
    else if request.Err? then Err(request.error)
    else if hasBody.None? then Err("HttpRequestStart requires a boolean hasBody.")
    else Ok(RequestStart(meta.value.requestId, meta.value.tunnelId, request.value, hasBody.value))
  }

  function ParseRequestChunk(f: Fields): Result<Message> {
    var meta, chunk := RequireRequestMeta(f), ParseChunkFields(f);
    if meta.Err? then Err(meta.error)
    else if chunk.Err? then Err(chunk.error)
    else Ok(RequestChunk(meta.value.requestId, meta.value.tunnelId, chunk.value.sequence, chunk.value.encoding, chunk.value.data))
  }

  function ParseRequestEnd(f: Fields): Result<Message> {
    var meta := RequireRequestMeta(f);
    if meta.Err? then Err(meta.error) else Ok(RequestEnd(meta.value.requestId, meta.value.tunnelId))
  }

  function ParseResponseHead(f: Fields): Result<ResponseHead> {
    var statusCode, headers := IntegerField(f, "statusCode"), ParseHeaders(Field(f, "headers"));
    var setCookies := ParseStringArray(Field(f, "setCookies"));
    if statusCode.None? || statusCode.value < 100 then Err("HttpResponseStart requires an integer statusCode >= 100.")
    else if headers.Err? then Err(headers.error)
    else if setCookies.None? then Err("HttpResponseStart requires a string array setCookies.")
    else Ok(ResponseHead(statusCode.value, headers.value, setCookies.value))
  }

  function ParseResponseStart(f: Fields): Result<Message> {
    var meta, response, hasBody := RequireRequestMeta(f), ParseResponseHead(f), BooleanField(f, "hasBody");
    if meta.Err? then Err(meta.error)
    else if response.Err? then Err(response.error)
    else if hasBody.None? then Err("HttpResponseStart requires a boolean hasBody.")
    else Ok(ResponseStart(meta.value.requestId, meta.value.tunnelId, response.value, hasBody.value))
  }

  function ParseResponseChunk(f: Fields): Result<Message> {
    var meta, chunk := RequireRequestMeta(f), ParseChunkFields(f);
    if meta.Err? then Err(meta.error)
    else if chunk.Err? then Err(chunk.error)
    else Ok(ResponseChunk(meta.value.requestId, meta.value.tunnelId, chunk.value.sequence, chunk.value.encoding, chunk.value.data))
  }

  function ParseResponseEnd(f: Fields): Result<Message> {
    var meta := RequireRequestMeta(f);
    if meta.Err? then Err(meta.error) else Ok(ResponseEnd(meta.value.requestId, meta.value.tunnelId))
  }

  function ParseCancel(f: Fields): Result<Message> {
    var meta, reason := RequireRequestMeta(f), OptionalField(f, "reason");
    if meta.Err? then Err(meta.error)
    else if reason.Err? then Err("HttpCancel reason must be a non-empty string when present.")
    else Ok(Cancel(meta.value.requestId, meta.value.tunnelId, reason.value))
  }

  datatype Kind =
    | KConnected | KCreateTunnel | KTunnelCreated | KError | KPing | KPong
    | KRequestStart | KRequestChunk | KRequestEnd | KResponseStart | KResponseChunk | KResponseEnd | KCancel

  function KindName(k: Kind): string {
    match k
    case KConnected => "connected"
    case KCreateTunnel => "create_tunnel"
    case KTunnelCreated => "tunnel_created"
    case KError => "error"
    case KPing => "ping"
    case KPong => "pong"
    case KRequestStart => "http_request_start"
    case KRequestChunk => "http_request_chunk"
    case KRequestEnd => "http_request_end"
    case KResponseStart => "http_response_start"
    case KResponseChunk => "http_response_chunk"
    case KResponseEnd => "http_response_end"
    case KCancel => "http_cancel"
  }

  /** The kind a type name stands for. */
  function KindOf(name: string): (k: Option<Kind>)
    ensures k.Some? ==> KindName(k.value) == name
  {
    if name == "connected" then Some(KConnected)
    else if name == "create_tunnel" then Some(KCreateTunnel)
    else if name == "tunnel_created" then Some(KTunnelCreated)
    else if name == "error" then Some(KError)
    else if name == "ping" then Some(KPing)
    else if name == "pong" then Some(KPong)
    else if name == "http_request_start" then Some(KRequestStart)
    else if name == "http_request_chunk" then Some(KRequestChunk)
    else if name == "http_request_end" then Some(KRequestEnd)
    else if name == "http_response_start" then Some(KResponseStart)
    else if name == "http_response_chunk" then Some(KResponseChunk)
    else if name == "http_response_end" then Some(KResponseEnd)
    else if name == "http_cancel" then Some(KCancel)
    else None
  }

  /** Every kind is found by its own name, so no two kinds share one. */
  lemma KindNamesDistinct(k: Kind)
    ensures KindOf(KindName(k)) == Some(k)
  {
  }

  predicate IsHttpForwarding(k: Kind) {
    k.KRequestStart? || k.KRequestChunk? || k.KRequestEnd? || k.KResponseStart? || k.KResponseChunk? || k.KResponseEnd? || k.KCancel?
  }

  function ParseHttpForwardingMessage(k: Kind, f: Fields): Result<Message>
    requires IsHttpForwarding(k)
  {
    match k
    case KRequestStart => ParseRequestStart(f)
    case KRequestChunk => ParseRequestChunk(f)
    case KRequestEnd => ParseRequestEnd(f)
    case KResponseStart => ParseResponseStart(f)
    case KResponseChunk => ParseResponseChunk(f)
    case KResponseEnd => ParseResponseEnd(f)
    case KCancel => ParseCancel(f)
  }

  function ParseControlMessage(k: Kind, f: Fields): Result<Message>
    requires !IsHttpForwarding(k)
  {
    match k
    case KConnected => ParseConnected(f)
    case KCreateTunnel => ParseCreateTunnel(f)
    case KTunnelCreated => ParseTunnelCreated(f)
    case KError => ParseError(f)
    case KPing => ParsePing(f)
    case KPong => ParsePong(f)
  }

  function ParseKind(k: Kind, f: Fields): Result<Message> {
    if IsHttpForwarding(k) then ParseHttpForwardingMessage(k, f) else ParseControlMessage(k, f)
  }

  /** `value` is what JSON parsing of the frame gave, if it gave anything. */
  function ParseProtocolMessage(value: Option<Json>): Result<Message> {
    if value.None? then Err("Message is not valid JSON.")
    else if !value.value.Object? then Err("Message must be a JSON object.")
    else
      var f := value.value.fields;
      var name := StringField(f, "type");
      if name.None? then Err("Message is missing a string \"type\" field.")
      else if KindOf(name.value).None? then Err("Unknown message type \"" + name.value + "\".")
      else ParseKind(KindOf(name.value).value, f)
  }

  // Printing

  function EncodeStrings(texts: seq<string>): Json {
    Array(seq(|texts|, i requires 0 <= i < |texts| => String(texts[i])))
  }

  function EncodeHeader(value: HeaderValue): Json {
    match value case One(text) => String(text) case Many(texts) => EncodeStrings(texts)
  }

  function EncodeHeaders(headers: Headers): Json {
    Object(map name | name in headers :: EncodeHeader(headers[name]))
  }

  function EncodeCookies(cookies: Cookies): Json {
    Object(map name | name in cookies :: String(cookies[name]))
  }

  function MethodText(m: Method): string {
    match m case GET => "GET" case POST => "POST" case PUT => "PUT" case PATCH => "PATCH" case DELETE => "DELETE"
  }

  function EncodingText(e: BodyCodec.Encoding): string {
    match e case Utf8 => "utf8" case Base64Text => "base64"
  }

  /** Fields that are absent are left out of the object. */
  function Optional(f: Fields, name: string, text: Option<string>): Fields {
    if text.Some? then f[name := String(text.value)] else f
  }

  function MessageKind(m: Message): Kind {
    match m
    case Connected(_) => KConnected
    case CreateTunnel(_, _, _) => KCreateTunnel
    case TunnelCreated(_, _, _) => KTunnelCreated
    case Error(_, _, _) => KError
    case Ping(_) => KPing
    case Pong(_) => KPong
    case RequestStart(_, _, _, _) => KRequestStart
    case RequestChunk(_, _, _, _, _) => KRequestChunk
    case RequestEnd(_, _) => KRequestEnd
    case ResponseStart(_, _, _, _) => KResponseStart
    case ResponseChunk(_, _, _, _, _) => KResponseChunk
    case ResponseEnd(_, _) => KResponseEnd
    case Cancel(_, _, _) => KCancel
  }

  function MetaFields(requestId: string, tunnelId: string): Fields {
    map["requestId" := String(requestId), "tunnelId" := String(tunnelId)]
  }

  function ChunkFields(f: Fields, c: Chunk): Fields {
    f["sequence" := Number(c.sequence as real)]["encoding" := String(EncodingText(c.encoding))]["data" := String(c.data)]
  }

  function RequestFields(f: Fields, r: RequestHead): Fields {
    f["method" := String(MethodText(r.httpMethod))]["path" := String(r.path)]
    ["query" := EncodeHeaders(r.query)]["headers" := EncodeHeaders(r.headers)]["cookies" := EncodeCookies(r.cookies)]
  }

  function ResponseFields(f: Fields, r: ResponseHead): Fields {
    f["statusCode" := Number(r.statusCode as real)]["headers" := EncodeHeaders(r.headers)]
    ["setCookies" := EncodeStrings(r.setCookies)]
  }

  function MessageFields(m: Message): Fields {
    match m
    case Connected(connectionId) => map["connectionId" := String(connectionId)]
    case CreateTunnel(id, port, tunnelId) =>
      Optional(map["requestId" := String(id), "port" := Number(port as real)], "tunnelId", tunnelId)
    case TunnelCreated(id, tunnelId, publicUrl) => MetaFields(id, tunnelId)["publicUrl" := String(publicUrl)]
    case Error(id, code, text) => Optional(map["code" := String(code), "message" := String(text)], "requestId", id)
    case Ping(id) => map["requestId" := String(id)]
    case Pong(id) => map["requestId" := String(id)]
    case RequestStart(id, tunnelId, request, hasBody) =>
      RequestFields(MetaFields(id, tunnelId), request)["hasBody" := Boolean(hasBody)]
    case RequestChunk(id, tunnelId, sequence, encoding, data) => ChunkFields(MetaFields(id, tunnelId), Chunk(sequence, encoding, data))
    case RequestEnd(id, tunnelId) => MetaFields(id, tunnelId)
    case ResponseStart(id, tunnelId, response, hasBody) =>
      ResponseFields(MetaFields(id, tunnelId), response)["hasBody" := Boolean(hasBody)]
    case ResponseChunk(id, tunnelId, sequence, encoding, data) => ChunkFields(MetaFields(id, tunnelId), Chunk(sequence, encoding, data))
    case ResponseEnd(id, tunnelId) => MetaFields(id, tunnelId)
    case Cancel(id, tunnelId, reason) => Optional(MetaFields(id, tunnelId), "reason", reason)
  }

  /** The JSON object of a message. */
  function EncodeMessage(m: Message): Json {
    Object(MessageFields(m)["type" := String(KindName(MessageKind(m)))])
  }

  // Which messages survive

  predicate Filled(text: Option<string>) {
    text.Some? ==> text.value != ""
  }

  predicate PlainHead(r: RequestHead) {
    PROTOTYPE_KEY !in r.query && PROTOTYPE_KEY !in r.headers && PROTOTYPE_KEY !in r.cookies
  }

  predicate WellFormed(m: Message) {
    match m
    case Connected(connectionId) => connectionId != ""
    case CreateTunnel(id, port, tunnelId) => id != "" && 1 <= port <= 65535 && Filled(tunnelId)
    case TunnelCreated(id, tunnelId, publicUrl) => id != "" && tunnelId != "" && publicUrl != ""
    case Error(id, code, text) => Filled(id) && code != "" && text != ""
    case Ping(id) => id != ""
    case Pong(id) => id != ""
    case RequestStart(id, tunnelId, r, _) =>
      id != "" && tunnelId != "" && PlainHead(r)
    case RequestChunk(id, tunnelId, sequence, _, _) => id != "" && tunnelId != "" && sequence >= 0
    case RequestEnd(id, tunnelId) => id != "" && tunnelId != ""
    case ResponseStart(id, tunnelId, r, _) =>
      id != "" && tunnelId != "" && r.statusCode >= 100 && PROTOTYPE_KEY !in r.headers
    case ResponseChunk(id, tunnelId, sequence, _, _) => id != "" && tunnelId != "" && sequence >= 0
    case ResponseEnd(id, tunnelId) => id != "" && tunnelId != ""
    case Cancel(id, tunnelId, reason) => id != "" && tunnelId != "" && Filled(reason)
  }

  lemma {:induction false} StringsOfArray(texts: seq<string>)
    ensures Strings(EncodeStrings(texts).items) == Some(texts)
  {
    var items := EncodeStrings(texts).items;
    if texts != [] {
      StringsOfArray(texts[1..]);
      assert items[1..] == EncodeStrings(texts[1..]).items;
      assert texts == [texts[0]] + texts[1..];
    }
  }

  lemma HeaderEntryOfHeader(value: HeaderValue)
    ensures HeaderEntry(EncodeHeader(value)) == Some(value)
  {
    if value.Many? {
      StringsOfArray(value.texts);
    }
  }

  /** A header map comes back without the one key that cannot be a property. */
  lemma HeadersRoundTrip(headers: Headers)
    ensures ParseHeaders(Some(EncodeHeaders(headers))) == Ok(headers - {PROTOTYPE_KEY})
  {
    var f := EncodeHeaders(headers).fields;
    forall name | name in headers
      ensures HeaderEntry(f[name]) == Some(headers[name])
    {
      HeaderEntryOfHeader(headers[name]);
    }
    assert ParseHeaders(Some(EncodeHeaders(headers))).value == headers - {PROTOTYPE_KEY};
  }

  lemma CookiesRoundTrip(cookies: Cookies)
    ensures ParseCookies(Some(EncodeCookies(cookies))) == Ok(cookies - {PROTOTYPE_KEY})
  {
    assert ParseCookies(Some(EncodeCookies(cookies))).value == cookies - {PROTOTYPE_KEY};
  }

  // Each kind parses its own fields

  predicate Holds(f: Fields, name: string, value: Json) {
    Field(f, name) == Some(value)
  }

  predicate HoldsOptional(f: Fields, name: string, text: Option<string>) {
    Field(f, name) == if text.Some? then Some(String(text.value)) else None
  }

  lemma IntegerParsed(f: Fields, name: string, n: int)
    requires Holds(f, name, Number(n as real))
    ensures IntegerField(f, name) == Some(n)
  {
  }

  lemma OptionalParsed(f: Fields, name: string, text: Option<string>)
    requires HoldsOptional(f, name, text)
    ensures OptionalField(f, name).Ok? <==> Filled(text)
    ensures OptionalField(f, name).Ok? ==> OptionalField(f, name).value == text
  {
  }

  lemma MetaParsed(f: Fields, id: string, tunnelId: string)
    requires Holds(f, "requestId", String(id)) && Holds(f, "tunnelId", String(tunnelId))
    ensures RequireRequestMeta(f).Ok? <==> id != "" && tunnelId != ""
    ensures RequireRequestMeta(f).Ok? ==> RequireRequestMeta(f).value == Meta(id, tunnelId)
  {
  }

  lemma EncodingParsed(e: BodyCodec.Encoding)
    ensures ParseEncoding(Some(EncodingText(e))) == Some(e)
  {
  }

  lemma MethodParsed(m: Method)
    ensures ParseMethod(Some(MethodText(m))) == Some(m)
  {
  }

  lemma ChunkParsed(f: Fields, c: Chunk)
    requires Holds(f, "sequence", Number(c.sequence as real)) && Holds(f, "encoding", String(EncodingText(c.encoding)))
    requires Holds(f, "data", String(c.data))
    ensures ParseChunkFields(f).Ok? <==> c.sequence >= 0
    ensures ParseChunkFields(f).Ok? ==> ParseChunkFields(f).value == c
  {
    IntegerParsed(f, "sequence", c.sequence);
    EncodingParsed(c.encoding);
  }

  predicate CarriesMeta(f: Fields, id: string, tunnelId: string) {
    Holds(f, "requestId", String(id)) && Holds(f, "tunnelId", String(tunnelId))
  }

  predicate CarriesChunk(f: Fields, c: Chunk) {
    && Holds(f, "sequence", Number(c.sequence as real)) && Holds(f, "encoding", String(EncodingText(c.encoding)))
    && Holds(f, "data", String(c.data))
  }

  predicate CarriesRequest(f: Fields, r: RequestHead) {
    && Holds(f, "method", String(MethodText(r.httpMethod))) && Holds(f, "path", String(r.path))
    && Holds(f, "query", EncodeHeaders(r.query)) && Holds(f, "headers", EncodeHeaders(r.headers))
    && Holds(f, "cookies", EncodeCookies(r.cookies))
  }

  predicate CarriesResponse(f: Fields, r: ResponseHead) {
    && Holds(f, "statusCode", Number(r.statusCode as real)) && Holds(f, "headers", EncodeHeaders(r.headers))
    && Holds(f, "setCookies", EncodeStrings(r.setCookies))
  }

  /** An object has every field of the message, with its value; what else it has is left open. */
  predicate Carries(f: Fields, m: Message) {
    match m
    case Connected(connectionId) => Holds(f, "connectionId", String(connectionId))
    case CreateTunnel(id, port, tunnelId) =>
      Holds(f, "requestId", String(id)) && Holds(f, "port", Number(port as real)) && HoldsOptional(f, "tunnelId", tunnelId)
    case TunnelCreated(id, tunnelId, publicUrl) => CarriesMeta(f, id, tunnelId) && Holds(f, "publicUrl", String(publicUrl))
    case Error(id, code, text) =>
      Holds(f, "code", String(code)) && Holds(f, "message", String(text)) && HoldsOptional(f, "requestId", id)
    case Ping(id) => Holds(f, "requestId", String(id))
    case Pong(id) => Holds(f, "requestId", String(id))
    case RequestStart(id, tunnelId, r, hasBody) =>
      CarriesMeta(f, id, tunnelId) && CarriesRequest(f, r) && Holds(f, "hasBody", Boolean(hasBody))
    case RequestChunk(id, tunnelId, n, e, data) => CarriesMeta(f, id, tunnelId) && CarriesChunk(f, Chunk(n, e, data))
    case RequestEnd(id, tunnelId) => CarriesMeta(f, id, tunnelId)
    case ResponseStart(id, tunnelId, r, hasBody) =>
      CarriesMeta(f, id, tunnelId) && CarriesResponse(f, r) && Holds(f, "hasBody", Boolean(hasBody))
    case ResponseChunk(id, tunnelId, n, e, data) => CarriesMeta(f, id, tunnelId) && CarriesChunk(f, Chunk(n, e, data))
    case ResponseEnd(id, tunnelId) => CarriesMeta(f, id, tunnelId)
    case Cancel(id, tunnelId, reason) => CarriesMeta(f, id, tunnelId) && HoldsOptional(f, "reason", reason)
  }

  lemma WithoutPrototype<V>(m: map<string, V>)
    ensures m - {PROTOTYPE_KEY} == m <==> PROTOTYPE_KEY !in m
  {
  }

  lemma RequestHeadParsed(f: Fields, r: RequestHead)
    requires CarriesRequest(f, r)
    ensures ParseRequestHead(f) == Ok(RequestHead(r.httpMethod, r.path, r.query - {PROTOTYPE_KEY}, r.headers - {PROTOTYPE_KEY},
                                                  r.cookies - {PROTOTYPE_KEY}))
  {
    MethodParsed(r.httpMethod);
    HeadersRoundTrip(r.query);
    HeadersRoundTrip(r.headers);
    CookiesRoundTrip(r.cookies);
  }

  lemma RequestHeadKept(f: Fields, r: RequestHead)
    requires CarriesRequest(f, r)
    ensures ParseRequestHead(f).Ok? && (ParseRequestHead(f).value == r <==> PlainHead(r))
  {
    RequestHeadParsed(f, r);
    WithoutPrototype(r.query);
    WithoutPrototype(r.headers);
    WithoutPrototype(r.cookies);
  }

  lemma RequestStartParsed(f: Fields, m: Message)
    requires m.RequestStart? && Carries(f, m)
    ensures ParseRequestStart(f) == Ok(m) <==> WellFormed(m)
  {
    MetaParsed(f, m.requestId, m.tunnelId);
    RequestHeadKept(f, m.request);
  }

  lemma ResponseHeadKept(f: Fields, r: ResponseHead)
    requires CarriesResponse(f, r)
    ensures ParseResponseHead(f) == Ok(r) <==> r.statusCode >= 100 && PROTOTYPE_KEY !in r.headers
  {
    IntegerParsed(f, "statusCode", r.statusCode);
    HeadersRoundTrip(r.headers);
    StringsOfArray(r.setCookies);
    WithoutPrototype(r.headers);
  }

  lemma ResponseStartParsed(f: Fields, m: Message)
    requires m.ResponseStart? && Carries(f, m)
    ensures ParseResponseStart(f) == Ok(m) <==> WellFormed(m)
  {
    MetaParsed(f, m.requestId, m.tunnelId);
    ResponseHeadKept(f, m.response);
  }

  lemma ChunkFrameParsed(f: Fields, m: Message)
    requires (m.RequestChunk? || m.ResponseChunk?) && Carries(f, m)
    ensures (if m.RequestChunk? then ParseRequestChunk(f) else ParseResponseChunk(f)) == Ok(m) <==> WellFormed(m)
  {
    MetaParsed(f, m.requestId, m.tunnelId);
    ChunkParsed(f, Chunk(m.sequence, m.encoding, m.data));
  }

  lemma EndFrameParsed(f: Fields, m: Message)
    requires (m.RequestEnd? || m.ResponseEnd?) && Carries(f, m)
    ensures (if m.RequestEnd? then ParseRequestEnd(f) else ParseResponseEnd(f)) == Ok(m) <==> WellFormed(m)
  {
    MetaParsed(f, m.requestId, m.tunnelId);
  }

  lemma CreateTunnelParsed(f: Fields, m: Message)
    requires m.CreateTunnel? && Carries(f, m)
    ensures ParseCreateTunnel(f) == Ok(m) <==> WellFormed(m)
  {
    IntegerParsed(f, "port", m.port);
    OptionalParsed(f, "tunnelId", m.preferredTunnelId);
  }

  lemma ErrorParsed(f: Fields, m: Message)
    requires m.Error? && Carries(f, m)
    ensures ParseError(f) == Ok(m) <==> WellFormed(m)
  {
    OptionalParsed(f, "requestId", m.failedRequestId);
  }

  lemma CancelParsed(f: Fields, m: Message)
    requires m.Cancel? && Carries(f, m)
    ensures ParseCancel(f) == Ok(m) <==> WellFormed(m)
  {
    MetaParsed(f, m.requestId, m.tunnelId);
    OptionalParsed(f, "reason", m.reason);
  }

  lemma SimpleParsed(f: Fields, m: Message)
    requires (m.Connected? || m.TunnelCreated? || m.Ping? || m.Pong?) && Carries(f, m)
    ensures
      var parsed := match m
        case Connected(_) => ParseConnected(f)
        case TunnelCreated(_, _, _) => ParseTunnelCreated(f)
        case Ping(_) => ParsePing(f)
        case _ => ParsePong(f);
      parsed == Ok(m) <==> WellFormed(m)
  {
  }

  lemma ControlParsed(f: Fields, m: Message)
    requires !IsHttpForwarding(MessageKind(m)) && Carries(f, m)
    ensures ParseControlMessage(MessageKind(m), f) == Ok(m) <==> WellFormed(m)
  {
    if m.CreateTunnel? {
      CreateTunnelParsed(f, m);
    } else if m.Error? {
      ErrorParsed(f, m);
    } else {
      SimpleParsed(f, m);
    }
  }

  lemma ForwardingParsed(f: Fields, m: Message)
    requires IsHttpForwarding(MessageKind(m)) && Carries(f, m)
    ensures ParseHttpForwardingMessage(MessageKind(m), f) == Ok(m) <==> WellFormed(m)
  {
    match m
    case RequestStart(_, _, _, _) => RequestStartParsed(f, m);
    case RequestChunk(_, _, _, _, _) => ChunkFrameParsed(f, m);
    case RequestEnd(_, _) => EndFrameParsed(f, m);
    case ResponseStart(_, _, _, _) => ResponseStartParsed(f, m);
    case ResponseChunk(_, _, _, _, _) => ChunkFrameParsed(f, m);
    case ResponseEnd(_, _) => EndFrameParsed(f, m);
    case Cancel(_, _, _) => CancelParsed(f, m);
  }

  /**
   * An object of the message's type that carries its fields, whatever else it has, parses to the message exactly when the
   * message is well formed.
   */
  lemma CarriedParsed(f: Fields, m: Message)
    requires Carries(f, m) && Holds(f, "type", String(KindName(MessageKind(m))))
    ensures ParseProtocolMessage(Some(Object(f))) == Ok(m) <==> WellFormed(m)
  {
    KindNamesDistinct(MessageKind(m));
    assert ParseProtocolMessage(Some(Object(f))) == ParseKind(MessageKind(m), f);
    if IsHttpForwarding(MessageKind(m)) {
      ForwardingParsed(f, m);
    } else {
      ControlParsed(f, m);
    }
  }

  // The printed object carries the message

  lemma RequestCarried(f: Fields, r: RequestHead, id: string, tunnelId: string)
    requires CarriesMeta(f, id, tunnelId)
    ensures CarriesRequest(RequestFields(f, r), r) && CarriesMeta(RequestFields(f, r), id, tunnelId)
  {
  }

  lemma ResponseCarried(f: Fields, r: ResponseHead, id: string, tunnelId: string)
    requires CarriesMeta(f, id, tunnelId)
    ensures CarriesResponse(ResponseFields(f, r), r) && CarriesMeta(ResponseFields(f, r), id, tunnelId)
  {
  }

  lemma ChunkCarried(f: Fields, c: Chunk, id: string, tunnelId: string)
    requires CarriesMeta(f, id, tunnelId)
    ensures CarriesChunk(ChunkFields(f, c), c) && CarriesMeta(ChunkFields(f, c), id, tunnelId)
  {
  }

  lemma FlagCarried(f: Fields, m: Message, hasBody: bool)
    requires m.RequestStart? ==> CarriesMeta(f, m.requestId, m.tunnelId) && CarriesRequest(f, m.request) && m.hasBody == hasBody
    requires m.ResponseStart? ==> CarriesMeta(f, m.requestId, m.tunnelId) && CarriesResponse(f, m.response) && m.hasBody == hasBody
    ensures m.RequestStart? || m.ResponseStart? ==> Carries(f["hasBody" := Boolean(hasBody)], m)
  {
  }

  lemma FieldsCarried(m: Message)
    ensures Carries(MessageFields(m), m)
  {
    match m
    case RequestStart(id, tunnelId, r, hasBody) =>
      RequestCarried(MetaFields(id, tunnelId), r, id, tunnelId);
      FlagCarried(RequestFields(MetaFields(id, tunnelId), r), m, hasBody);
    case RequestChunk(id, tunnelId, n, e, data) => ChunkCarried(MetaFields(id, tunnelId), Chunk(n, e, data), id, tunnelId);
    case ResponseStart(id, tunnelId, r, hasBody) =>
      ResponseCarried(MetaFields(id, tunnelId), r, id, tunnelId);
      FlagCarried(ResponseFields(MetaFields(id, tunnelId), r), m, hasBody);
    case ResponseChunk(id, tunnelId, n, e, data) => ChunkCarried(MetaFields(id, tunnelId), Chunk(n, e, data), id, tunnelId);
    case _ =>
  }

  lemma TypeCarried(f: Fields, m: Message, value: Json)
    requires Carries(f, m)
    ensures Carries(f["type" := value], m)
  {
  }

  /** For all thirteen kinds: parsing the object of a message gives that message exactly when it is well formed. */
  lemma RoundTrip(m: Message)
    ensures ParseProtocolMessage(Some(EncodeMessage(m))) == Ok(m) <==> WellFormed(m)
  {
    FieldsCarried(m);
    TypeCarried(MessageFields(m), m, String(KindName(MessageKind(m))));
    CarriedParsed(EncodeMessage(m).fields, m);
  }

  lemma MetaAccepted(f: Fields)
    requires RequireRequestMeta(f).Ok?
    ensures RequireRequestMeta(f).value.requestId != "" && RequireRequestMeta(f).value.tunnelId != ""
  {
  }

  lemma HeadersAccepted(value: Option<Json>)
    ensures ParseHeaders(value).Ok? ==> PROTOTYPE_KEY !in ParseHeaders(value).value
    ensures ParseCookies(value).Ok? ==> PROTOTYPE_KEY !in ParseCookies(value).value
  {
  }

  lemma StartAccepted(f: Fields)
    ensures ParseRequestStart(f).Ok? ==> ParseRequestStart(f).value.RequestStart? && WellFormed(ParseRequestStart(f).value)
    ensures ParseResponseStart(f).Ok? ==> ParseResponseStart(f).value.ResponseStart? && WellFormed(ParseResponseStart(f).value)
  {
    HeadersAccepted(Field(f, "query"));
    HeadersAccepted(Field(f, "headers"));
    HeadersAccepted(Field(f, "cookies"));
    if RequireRequestMeta(f).Ok? {
      MetaAccepted(f);
    }
  }

  lemma OptionalAccepted(f: Fields, name: string)
    ensures OptionalField(f, name).Ok? ==> Filled(OptionalField(f, name).value)
  {
  }

  lemma ControlAccepted(f: Fields)
    ensures ParseConnected(f).Ok? ==> ParseConnected(f).value.Connected? && WellFormed(ParseConnected(f).value)
    ensures ParseCreateTunnel(f).Ok? ==> ParseCreateTunnel(f).value.CreateTunnel? && WellFormed(ParseCreateTunnel(f).value)
  {
    OptionalAccepted(f, "tunnelId");
  }

  lemma AnswerAccepted(f: Fields)
    ensures ParseTunnelCreated(f).Ok? ==> ParseTunnelCreated(f).value.TunnelCreated? && WellFormed(ParseTunnelCreated(f).value)
    ensures ParseError(f).Ok? ==> ParseError(f).value.Error? && WellFormed(ParseError(f).value)
  {
    OptionalAccepted(f, "requestId");
  }

  lemma PingAccepted(f: Fields)
    ensures ParsePing(f).Ok? ==> ParsePing(f).value.Ping? && WellFormed(ParsePing(f).value)
    ensures ParsePong(f).Ok? ==> ParsePong(f).value.Pong? && WellFormed(ParsePong(f).value)
  {
  }

  lemma FrameAccepted(f: Fields)
    ensures ParseRequestChunk(f).Ok? ==> ParseRequestChunk(f).value.RequestChunk? && WellFormed(ParseRequestChunk(f).value)
    ensures ParseResponseChunk(f).Ok? ==> ParseResponseChunk(f).value.ResponseChunk? && WellFormed(ParseResponseChunk(f).value)
    ensures ParseRequestEnd(f).Ok? ==> ParseRequestEnd(f).value.RequestEnd? && WellFormed(ParseRequestEnd(f).value)
    ensures ParseResponseEnd(f).Ok? ==> ParseResponseEnd(f).value.ResponseEnd? && WellFormed(ParseResponseEnd(f).value)
  {
    if RequireRequestMeta(f).Ok? {
      MetaAccepted(f);
    }
  }

  lemma CancelAccepted(f: Fields)
    ensures ParseCancel(f).Ok? ==> ParseCancel(f).value.Cancel? && WellFormed(ParseCancel(f).value)
  {
    if RequireRequestMeta(f).Ok? {
      MetaAccepted(f);
    }
    OptionalAccepted(f, "reason");
  }

  lemma ControlKindAccepted(k: Kind, f: Fields)
    requires !IsHttpForwarding(k) && ParseControlMessage(k, f).Ok?
    ensures WellFormed(ParseControlMessage(k, f).value) && MessageKind(ParseControlMessage(k, f).value) == k
  {
    ControlAccepted(f);
    AnswerAccepted(f);
    PingAccepted(f);
  }

  lemma ForwardingKindAccepted(k: Kind, f: Fields)
    requires IsHttpForwarding(k) && ParseHttpForwardingMessage(k, f).Ok?
    ensures WellFormed(ParseHttpForwardingMessage(k, f).value) && MessageKind(ParseHttpForwardingMessage(k, f).value) == k
  {
    StartAccepted(f);
    FrameAccepted(f);
    CancelAccepted(f);
  }

  lemma KindAccepted(k: Kind, f: Fields)
    requires ParseKind(k, f).Ok?
    ensures WellFormed(ParseKind(k, f).value) && MessageKind(ParseKind(k, f).value) == k
  {
    if IsHttpForwarding(k) {
      ForwardingKindAccepted(k, f);
    } else {
      ControlKindAccepted(k, f);
    }
  }

  /** Every accepted object, whatever it was, yields a well-formed message of the kind it names. */
  lemma AcceptedWellFormed(value: Option<Json>)
    requires ParseProtocolMessage(value).Ok?
    ensures var m := ParseProtocolMessage(value).value;
            WellFormed(m) && StringField(value.value.fields, "type") == Some(KindName(MessageKind(m)))
  {
    var f := value.value.fields;
    KindAccepted(KindOf(StringField(f, "type").value).value, f);
  }

  /** Printing what was accepted and parsing it again changes nothing. */
  lemma ReparseIdempotent(value: Option<Json>)
    requires ParseProtocolMessage(value).Ok?
    ensures ParseProtocolMessage(Some(EncodeMessage(ParseProtocolMessage(value).value))) == ParseProtocolMessage(value)
  {
    AcceptedWellFormed(value);
    RoundTrip(ParseProtocolMessage(value).value);
  }

  /** Two well-formed messages never share a wire form. */
  lemma EncodingInjective(m: Message, n: Message)
    requires WellFormed(m) && EncodeMessage(m) == EncodeMessage(n)
    ensures WellFormed(n) ==> m == n
  {
    RoundTrip(m);
    RoundTrip(n);
  }
}
