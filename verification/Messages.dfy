/** The thirteen protocol messages exchanged over the tunnel WebSocket. */
module Messages {
  import opened Bytes
  import BodyCodec

  datatype Method = GET | POST | PUT | PATCH | DELETE

  datatype HeaderValue = One(text: string) | Many(texts: seq<string>)

  type Headers = map<string, HeaderValue>

  type Cookies = map<string, string>

  /** `record[key] = value` on a plain object: this one key sets the prototype, never a property. */
  const PROTOTYPE_KEY := "__proto__"

  function Assign<V>(record: map<string, V>, key: string, value: V): map<string, V> {
    if key == PROTOTYPE_KEY then record else record[key := value]
  }

  /** `order` lists the properties of a record, each once, as `Object.entries` visits them. */
  ghost predicate Enumerates<V>(order: seq<string>, record: map<string, V>) {
    && (forall i, j :: 0 <= i < j < |order| ==> order[i] != order[j])
    && (forall k :: k in order <==> k in record)
  }

  /** The properties of `m` among the first `n` visited. */
  function Restricted<V>(m: map<string, V>, order: seq<string>, n: nat): map<string, V>
    requires n <= |order|
  {
    map k | k in m && k in order[..n] :: m[k]
  }

  lemma RestrictedStep<V>(m: map<string, V>, order: seq<string>, n: nat)
    requires n < |order|
    ensures Restricted(m, order, n + 1) ==
            if order[n] in m then Restricted(m, order, n)[order[n] := m[order[n]]] else Restricted(m, order, n)
  {
    assert order[..n + 1] == order[..n] + [order[n]];
  }

  lemma RestrictedAll<V>(m: map<string, V>, order: seq<string>)
    requires forall k :: k in m ==> k in order
    ensures Restricted(m, order, |order|) == m && Restricted(m, order, 0) == map[]
  {
    assert order[..|order|] == order;
  }

  datatype RequestHead =
    RequestHead(httpMethod: Method, path: string, query: Headers, headers: Headers, cookies: Cookies)

  datatype ResponseHead =
    ResponseHead(statusCode: int, headers: Headers, setCookies: seq<string>)

  datatype Message =
    | Connected(connectionId: string)
    | CreateTunnel(requestId: string, port: int, preferredTunnelId: Option<string>)
    | TunnelCreated(requestId: string, tunnelId: string, publicUrl: string)
    | Error(failedRequestId: Option<string>, code: string, text: string)
    | Ping(requestId: string)
    | Pong(requestId: string)
    | RequestStart(requestId: string, tunnelId: string, request: RequestHead, hasBody: bool)
    | RequestChunk(requestId: string, tunnelId: string, sequence: int, encoding: BodyCodec.Encoding, data: string)
    | RequestEnd(requestId: string, tunnelId: string)
    | ResponseStart(requestId: string, tunnelId: string, response: ResponseHead, hasBody: bool)
    | ResponseChunk(requestId: string, tunnelId: string, sequence: int, encoding: BodyCodec.Encoding, data: string)
    | ResponseEnd(requestId: string, tunnelId: string)
    | Cancel(requestId: string, tunnelId: string, reason: Option<string>)
  {
    /** The exchange a data-plane frame or a correlated error belongs to. */
    function Exchange(): Option<string> {
      match this
      case Error(id, _, _) => id
      case RequestStart(id, _, _, _) => Some(id)
      case RequestChunk(id, _, _, _, _) => Some(id)
      case RequestEnd(id, _) => Some(id)
      case ResponseStart(id, _, _, _) => Some(id)
      case ResponseChunk(id, _, _, _, _) => Some(id)
      case ResponseEnd(id, _) => Some(id)
      case Cancel(id, _, _) => Some(id)
      case _ => None
    }
  }

  /** The frames of one exchange, in channel order. */
  function Project(frames: seq<Message>, id: string): seq<Message> {
    if frames == [] then []
    else (if frames[0].Exchange() == Some(id) then [frames[0]] else []) + Project(frames[1..], id)
  }

  lemma {:induction false} ProjectAppend(a: seq<Message>, b: seq<Message>, id: string)
    ensures Project(a + b, id) == Project(a, id) + Project(b, id)
  {
    if a == [] {
      assert a + b == b;
    } else {
      assert (a + b)[1..] == a[1..] + b;
      ProjectAppend(a[1..], b, id);
    }
  }

  lemma ProjectSnoc(a: seq<Message>, m: Message, id: string)
    ensures Project(a + [m], id) == Project(a, id) + (if m.Exchange() == Some(id) then [m] else [])
  {
    ProjectAppend(a, [m], id);
    assert Project([m][1..], id) == [];
  }

  lemma {:induction false} ProjectHas(a: seq<Message>, m: Message, id: string)
    requires m in a && m.Exchange() == Some(id)
    ensures m in Project(a, id)
  {
    if a[0] != m {
      ProjectHas(a[1..], m, id);
    }
  }

  lemma {:induction false} ProjectAll(a: seq<Message>, id: string)
    requires forall m :: m in a ==> m.Exchange() == Some(id)
    ensures Project(a, id) == a
  {
    if a != [] {
      ProjectAll(a[1..], id);
    }
  }

  lemma {:induction false} ProjectNone(a: seq<Message>, id: string)
    requires forall m :: m in a ==> m.Exchange() != Some(id)
    ensures Project(a, id) == []
  {
    if a != [] {
      ProjectNone(a[1..], id);
    }
  }
}
