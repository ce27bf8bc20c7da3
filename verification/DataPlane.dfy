/** Server, CLI and the two in-order directions of their WebSocket, with any number of exchanges multiplexed. */
module DataPlane {
  import opened Bytes
  import opened BodyCodec
  import opened Messages
  import opened ForwardingService
  import Q = ExchangeQueue
  import S = Coordinator
  import C = Forwarder

  /** `down` and `cli.outbox` are the frames ever sent each way; the counters say how many have arrived. */
  datatype System = System(
    server: S.Server,
    cli: C.Forwarder,
    down: seq<Message>,
    downTaken: nat,
    upTaken: nat,
    requests: map<string, PublicRequest>)

  function Initial(maxPending: nat, maxBuffer: nat, port: nat): System {
    System(S.Initial(maxPending, maxBuffer), C.Initial(port), [], 0, 0, map[])
  }

  datatype Event =
    | Forwards(id: string, request: PublicRequest)
    | CliReads
    | LocalSettles(task: nat, ev: C.LocalEvent)
    | ServerReads
    | Pulls(id: string)
    | Resumes(id: string)
    | Aborts(id: string)

  const ABORTED := "HTTP forward timed out or was aborted."

  const CANCEL_REASON := "HTTP forward aborted or timed out."

  /** Any schedule of the parties; an event that cannot happen changes nothing. */
  function Step(s: System, ev: Event): System {
    match ev
    case Forwards(id, request) =>
      if id !in s.requests && S.CanBegin(s.server, id) then
        s.(server := S.Begin(s.server, id), down := s.down + RequestFrames(id, request),
           requests := s.requests[id := request])
      else s
    case CliReads =>
      if s.downTaken < |s.down| then
        s.(cli := C.Handle(s.cli, s.down[s.downTaken]), downTaken := s.downTaken + 1)
      else s
    case LocalSettles(n, e) => s.(cli := C.Local(s.cli, n, e))
    case ServerReads =>
      if s.upTaken < |s.cli.outbox| then
        s.(server := S.DeliverTo(s.server, s.cli.outbox[s.upTaken]), upTaken := s.upTaken + 1)
      else s
    case Pulls(id) => s.(server := S.Step(s.server, S.Pulled(id)))
    case Resumes(id) => s.(server := S.Step(s.server, S.Resumed(id)))
    case Aborts(id) =>
      if id in s.requests then
        s.(server := S.FailAt(s.server, id, ABORTED),
           down := s.down + [Cancel(id, s.requests[id].tunnelId, Some(CANCEL_REASON))])
      else s
  }

  function Run(s: System, events: seq<Event>): System
    decreases |events|
  {
    if events == [] then s else Run(Step(s, events[0]), events[1..])
  }

  // What the response frames received so far say

  predicate HasEnd(frames: seq<Message>) {
    exists i :: 0 <= i < |frames| && frames[i].ResponseEnd?
  }

  /** The body chunks carried by `frames` before the response ended. */
  function Body(frames: seq<Message>): seq<bytes> {
    if frames == [] || frames[0].ResponseEnd? then []
    else if frames[0].ResponseChunk? then [DecodeBodyChunk(frames[0].encoding, frames[0].data)] + Body(frames[1..])
    else Body(frames[1..])
  }

  lemma {:induction false} BodyAppend(a: seq<Message>, b: seq<Message>)
    ensures Body(a + b) == if HasEnd(a) then Body(a) else Body(a) + Body(b)
  {
    if a == [] {
      assert a + b == b;
    } else {
      assert (a + b)[1..] == a[1..] + b;
      assert HasEnd(a) <==> a[0].ResponseEnd? || HasEnd(a[1..]) by {
        if HasEnd(a) && !a[0].ResponseEnd? {
          var i :| 0 <= i < |a| && a[i].ResponseEnd?;
          assert a[1..][i - 1] == a[i];
        }
      }
      BodyAppend(a[1..], b);
    }
  }

  lemma HasEndAppend(a: seq<Message>, b: seq<Message>)
    ensures HasEnd(a + b) <==> HasEnd(a) || HasEnd(b)
  {
    if HasEnd(a) {
      var i :| 0 <= i < |a| && a[i].ResponseEnd?;
      assert (a + b)[i].ResponseEnd?;
    }
    if HasEnd(b) {
      var i :| 0 <= i < |b| && b[i].ResponseEnd?;
      assert (a + b)[|a| + i].ResponseEnd?;
    }
  }

  lemma {:induction false} BodyOfChunkFrames(r: C.Route, sequence: nat, pieces: seq<bytes>)
    ensures Body(C.ChunkFrames(r, sequence, pieces)) == pieces
    decreases |pieces|
  {
    if pieces != [] {
      var frames := C.ChunkFrames(r, sequence, pieces);
      assert frames[1..] == C.ChunkFrames(r, sequence + 1, pieces[1..]);
      BodyOfChunkFrames(r, sequence + 1, pieces[1..]);
      ChunkRoundTrip(pieces[0]);
      assert Body(frames) == [DecodeBodyChunk(frames[0].encoding, frames[0].data)] + Body(frames[1..]);
    }
  }

  lemma BodyOfStream(r: C.Route, head: ResponseHead, hasBody: bool, chunks: seq<bytes>)
    ensures Body(C.StreamFrames(r, head, hasBody, chunks)) == C.Piecewise(chunks)
    ensures !HasEnd(C.StreamFrames(r, head, hasBody, chunks))
  {
    var tail := C.ChunkFrames(r, 0, C.Piecewise(chunks));
    BodyOfChunkFrames(r, 0, C.Piecewise(chunks));
    assert !HasEnd(tail);
    BodyAppend([C.StartFrame(r, head, hasBody)], tail);
    HasEndAppend([C.StartFrame(r, head, hasBody)], tail);
    assert Body([C.StartFrame(r, head, hasBody)]) == Body([C.StartFrame(r, head, hasBody)][1..]);
  }

  lemma BodySnoc(a: seq<Message>, m: Message)
    ensures HasEnd(a + [m]) <==> HasEnd(a) || m.ResponseEnd?
    ensures HasEnd(a) ==> Body(a + [m]) == Body(a)
    ensures !HasEnd(a) && m.ResponseChunk? ==> Body(a + [m]) == Body(a) + [DecodeBodyChunk(m.encoding, m.data)]
    ensures !HasEnd(a) && !m.ResponseChunk? ==> Body(a + [m]) == Body(a)
  {
    BodyAppend(a, [m]);
    HasEndAppend(a, [m]);
    assert HasEnd([m]) <==> m.ResponseEnd? by {
      assert [m][0] == m;
    }
    assert Body([m]) == if m.ResponseChunk? then [DecodeBodyChunk(m.encoding, m.data)] else [] by {
      assert Body([m][1..]) == [];
    }
  }

  /** `sent` carries the first part of what was produced, and all of it when it ends, which it does last. */
  ghost predicate Carries(sent: seq<Message>, produced: seq<bytes>) {
    && Body(sent) <= C.Piecewise(produced)
    && (HasEnd(sent) ==> Body(sent) == C.Piecewise(produced))
    && (forall i :: 0 <= i < |sent| - 1 ==> !sent[i].ResponseEnd?)
  }

  lemma StreamCarries(r: C.Route, head: ResponseHead, hasBody: bool, produced: seq<bytes>, k: nat)
    requires k <= |produced|
    ensures Carries(C.StreamFrames(r, head, hasBody, produced[..k]), produced)
    ensures !HasEnd(C.StreamFrames(r, head, hasBody, produced[..k]))
  {
    BodyOfStream(r, head, hasBody, produced[..k]);
    assert produced == produced[..k] + produced[k..];
    C.PiecewiseAppend(produced[..k], produced[k..]);
  }

  lemma StreamThenCarries(r: C.Route, head: ResponseHead, hasBody: bool, produced: seq<bytes>, m: Message)
    requires !m.ResponseChunk?
    ensures Carries(C.StreamFrames(r, head, hasBody, produced) + [m], produced)
    ensures HasEnd(C.StreamFrames(r, head, hasBody, produced) + [m]) <==> m.ResponseEnd?
  {
    assert produced[..|produced|] == produced;
    StreamCarries(r, head, hasBody, produced, |produced|);
    BodyOfStream(r, head, hasBody, produced);
    BodySnoc(C.StreamFrames(r, head, hasBody, produced), m);
  }

  /** The chunks a task has put on the wire are a prefix of what its local body produced; an end means all of them. */
  lemma SentBody(t: C.Task)
    requires C.Grammar(t)
    ensures Carries(t.sent, t.produced)
    ensures HasEnd(t.sent) ==> t.phase == C.Finished(C.Completed)
  {
    if t.head.None? {
      if t.sent != [] {
        assert t.sent == [] + [t.sent[0]];
        BodySnoc([], t.sent[0]);
      }
    } else {
      var r, h := t.route, t.head.value;
      match t.phase
      case Streaming(n) =>
        assert t.produced[..|t.produced|] == t.produced;
        StreamCarries(r, h, true, t.produced, |t.produced|);
      case Finished(Completed) =>
        StreamThenCarries(r, h, t.produced != [], t.produced, C.EndFrame(r));
      case Finished(Failed) =>
        var m := t.sent[|t.sent| - 1];
        assert t.sent == t.sent[..|t.sent| - 1] + [m];
        StreamThenCarries(r, h, true, t.produced, m);
      case Finished(Abandoned) =>
        var k :| 0 <= k <= |t.produced| && t.sent == C.StreamFrames(r, h, true, t.produced[..k]);
        StreamCarries(r, h, true, t.produced, k);
    }
  }

  // Request direction

  /** The request frames of `id` that the CLI has read so far. */
  function Read(s: System, id: string): seq<Message>
    requires s.downTaken <= |s.down|
  {
    Project(s.down[..s.downTaken], id)
  }

  /** Everything sent down for `id`: its request frames, then nothing but cancels. */
  ghost predicate SentDown(d: seq<Message>, id: string, req: PublicRequest) {
    var f := RequestFrames(id, req);
    f <= d && forall i :: |f| <= i < |d| ==> d[i].Cancel? && d[i].requestId == id
  }

  /** Where the CLI stands after reading the first `r` frames of an exchange. */
  ghost predicate CliStage(cli: C.Forwarder, id: string, req: PublicRequest, r: nat) {
    var pieces := RequestPieces(req);
    if r == 0 then id !in cli.pending && !C.Known(cli, id)
    else if r < |pieces| + 2 then
      && id in cli.pending && !C.Known(cli, id)
      && cli.pending[id] == C.Assembling(req.tunnelId, req.head, pieces[..r - 1])
    else id !in cli.pending && C.Known(cli, id)
  }

  /** The local application was given exactly the public request. */
  ghost predicate Serves(t: C.Task, req: PublicRequest) {
    t.route.tunnelId == req.tunnelId && t.request == req.head && t.body == Present(req.BodyBytes())
  }

  ghost predicate TasksServe(cli: C.Forwarder, requests: map<string, PublicRequest>) {
    && (forall n :: 0 <= n < |cli.tasks| ==>
          cli.tasks[n].route.requestId in requests && Serves(cli.tasks[n], requests[cli.tasks[n].route.requestId]))
    && (forall n, k :: 0 <= n < |cli.tasks| && 0 <= k < |cli.tasks| && cli.tasks[n].route.requestId == cli.tasks[k].route.requestId ==> n == k)
  }

  /** Where one id stands on the way down: never used, or sent in full and read up to some stage. */
  ghost predicate ExchangeOk(s: System, id: string)
    requires s.downTaken <= |s.down|
  {
    if id in s.requests then
      SentDown(Project(s.down, id), id, s.requests[id]) && CliStage(s.cli, id, s.requests[id], |Read(s, id)|)
    else Project(s.down, id) == [] && id !in s.cli.pending && !C.Known(s.cli, id)
  }

  ghost predicate RequestSide(s: System) {
    && s.downTaken <= |s.down|
    && (forall id :: ExchangeOk(s, id))
    && (forall m :: m in s.down ==> m.Exchange().Some?)
    && TasksServe(s.cli, s.requests)
  }

  lemma KnownAfter(cli: C.Forwarder, m: Message, id: string)
    ensures C.Known(cli, id) ==> C.Known(C.Handle(cli, m), id)
    ensures !C.Known(cli, id) && !(m.RequestEnd? && m.requestId == id && id in cli.pending) ==> !C.Known(C.Handle(cli, m), id)
  {
    var cli' := C.Handle(cli, m);
    if C.Known(cli, id) {
      var n :| 0 <= n < |cli.tasks| && cli.tasks[n].route.requestId == id;
      assert cli'.tasks[n].route.requestId == id;
    } else if !(m.RequestEnd? && m.requestId == id && id in cli.pending) {
      forall n | 0 <= n < |cli'.tasks|
        ensures cli'.tasks[n].route.requestId != id
      {
        if n < |cli.tasks| {
          assert cli.tasks[n].route.requestId != id;
        }
      }
    }
  }

  /** Reading the next frame of an exchange moves the CLI to its next stage, and no other exchange moves. */
  lemma ReadStage(cli: C.Forwarder, m: Message, id: string, req: PublicRequest, d: seq<Message>, r: nat)
    requires SentDown(d, id, req) && r < |d| && m == d[r]
    requires CliStage(cli, id, req, r)
    ensures CliStage(C.Handle(cli, m), id, req, r + 1)
    ensures C.Known(C.Handle(cli, m), id) && !C.Known(cli, id) ==>
              && |C.Handle(cli, m).tasks| == |cli.tasks| + 1
              && C.Handle(cli, m).tasks[|cli.tasks|].route.requestId == id
              && Serves(C.Handle(cli, m).tasks[|cli.tasks|], req)
  {
    var pieces := RequestPieces(req);
    var f := RequestFrames(id, req);
    var cli' := C.Handle(cli, m);
    if r < |f| {
      assert m == f[r];
    }
    KnownAfter(cli, m, id);
    if r == 0 {
      assert pieces[..0] == [];
    } else if r <= |pieces| {
      ChunkRoundTrip(pieces[r - 1]);
      assert pieces[..r] == pieces[..r - 1] + [pieces[r - 1]];
    } else if r == |pieces| + 1 {
      assert pieces[..r - 1] == pieces;
      PiecesConcat(req.BodyBytes(), CHUNK_SIZE);
      assert cli'.tasks[|cli.tasks|].route.requestId == id;
    }
  }

  lemma ReadOther(cli: C.Forwarder, m: Message, id: string)
    requires m.Exchange().Some? && m.Exchange() != Some(id)
    ensures id in cli.pending <==> id in C.Handle(cli, m).pending
    ensures id in cli.pending ==> C.Handle(cli, m).pending[id] == cli.pending[id]
    ensures C.Known(cli, id) <==> C.Known(C.Handle(cli, m), id)
  {
    KnownAfter(cli, m, id);
  }

  /** The projection of the frame at the head of a channel, and of what was read before it. */
  lemma HeadOfChannel(frames: seq<Message>, taken: nat, id: string)
    requires taken < |frames|
    ensures Project(frames[..taken + 1], id) ==
            Project(frames[..taken], id) + (if frames[taken].Exchange() == Some(id) then [frames[taken]] else [])
    ensures Project(frames[..taken], id) <= Project(frames, id)
    ensures Project(frames[..taken + 1], id) <= Project(frames, id)
  {
    assert frames[..taken + 1] == frames[..taken] + [frames[taken]];
    ProjectSnoc(frames[..taken], frames[taken], id);
    assert frames == frames[..taken + 1] + frames[taken + 1..];
    ProjectAppend(frames[..taken + 1], frames[taken + 1..], id);
  }

  /** A new task comes only from the end frame of a request that was being assembled. */
  lemma OnlyEndsStart(cli: C.Forwarder, m: Message, id: string)
    requires m.Exchange() == Some(id) && |C.Handle(cli, m).tasks| > |cli.tasks|
    ensures id in cli.pending && m.RequestEnd? && C.Known(C.Handle(cli, m), id)
    ensures |C.Handle(cli, m).tasks| == |cli.tasks| + 1
  {
    assert C.Handle(cli, m).tasks[|cli.tasks|].route.requestId == id;
  }

  /** The exchange whose frame is read moves one stage on. */
  lemma ReadsOwn(s: System, id: string)
    requires s.downTaken < |s.down| && s.down[s.downTaken].Exchange() == Some(id) && ExchangeOk(s, id)
    ensures ExchangeOk(Step(s, CliReads), id) && id in s.requests
    ensures var cli' := C.Handle(s.cli, s.down[s.downTaken]);
            |cli'.tasks| > |s.cli.tasks| ==>
              && !C.Known(s.cli, id) && |cli'.tasks| == |s.cli.tasks| + 1
              && cli'.tasks[|s.cli.tasks|].route.requestId == id && Serves(cli'.tasks[|s.cli.tasks|], s.requests[id])
  {
    var m := s.down[s.downTaken];
    HeadOfChannel(s.down, s.downTaken, id);
    assert Read(Step(s, CliReads), id) == Read(s, id) + [m];
    var d, r := Project(s.down, id), |Read(s, id)|;
    assert d[r] == m;
    ReadStage(s.cli, m, id, s.requests[id], d, r);
    if |C.Handle(s.cli, m).tasks| > |s.cli.tasks| {
      OnlyEndsStart(s.cli, m, id);
    }
  }

  lemma ReadsOther(s: System, id: string)
    requires s.downTaken < |s.down| && s.down[s.downTaken].Exchange().Some? && s.down[s.downTaken].Exchange() != Some(id)
    requires ExchangeOk(s, id)
    ensures ExchangeOk(Step(s, CliReads), id)
  {
    HeadOfChannel(s.down, s.downTaken, id);
    assert Read(Step(s, CliReads), id) == Read(s, id) + [];
    ReadOther(s.cli, s.down[s.downTaken], id);
  }

  /** Handling a frame keeps every task serving its own request, given what `ReadStage` says of a new one. */
  lemma HandleServes(cli: C.Forwarder, m: Message, requests: map<string, PublicRequest>)
    requires TasksServe(cli, requests) && m.Exchange().Some?
    requires var id, cli' := m.Exchange().value, C.Handle(cli, m);
             |cli'.tasks| > |cli.tasks| ==>
               && !C.Known(cli, id) && id in requests
               && |cli'.tasks| == |cli.tasks| + 1
               && cli'.tasks[|cli.tasks|].route.requestId == id
               && Serves(cli'.tasks[|cli.tasks|], requests[id])
    ensures TasksServe(C.Handle(cli, m), requests)
  {
    var cli' := C.Handle(cli, m);
    forall n | 0 <= n < |cli.tasks|
      ensures cli'.tasks[n].route == cli.tasks[n].route
      ensures cli'.tasks[n].request == cli.tasks[n].request && cli'.tasks[n].body == cli.tasks[n].body
    {
    }
  }

  lemma CliReadsSide(s: System)
    requires RequestSide(s) && s.downTaken < |s.down|
    ensures RequestSide(Step(s, CliReads))
  {
    var m := s.down[s.downTaken];
    assert m in s.down;
    var me := m.Exchange().value;
    assert ExchangeOk(s, me);
    ReadsOwn(s, me);
    forall id | id != me
      ensures ExchangeOk(Step(s, CliReads), id)
    {
      assert ExchangeOk(s, id);
      ReadsOther(s, id);
    }
    HandleServes(s.cli, m, s.requests);
  }

  /** Frames appended behind the read position leave what was read alone. */
  lemma SendDown(s: System, frames: seq<Message>, id: string)
    requires s.downTaken <= |s.down|
    ensures (s.down + frames)[..s.downTaken] == s.down[..s.downTaken]
    ensures Project(s.down + frames, id) == Project(s.down, id) + Project(frames, id)
  {
    ProjectAppend(s.down, frames, id);
  }

  lemma ForwardedFrames(s: System, id: string, req: PublicRequest, k: string)
    requires s.downTaken <= |s.down|
    ensures var down := s.down + RequestFrames(id, req);
            && down[..s.downTaken] == s.down[..s.downTaken]
            && Project(down, k) == Project(s.down, k) + (if k == id then RequestFrames(id, req) else [])
  {
    var frames := RequestFrames(id, req);
    SendDown(s, frames, k);
    if k == id {
      ProjectAll(frames, k);
    } else {
      ProjectNone(frames, k);
    }
  }

  lemma NothingRead(s: System, id: string)
    requires s.downTaken <= |s.down| && Project(s.down, id) == []
    ensures Read(s, id) == []
  {
    assert s.down == s.down[..s.downTaken] + s.down[s.downTaken..];
    ProjectAppend(s.down[..s.downTaken], s.down[s.downTaken..], id);
  }

  lemma MoreServes(cli: C.Forwarder, requests: map<string, PublicRequest>, id: string, req: PublicRequest)
    requires TasksServe(cli, requests) && id !in requests
    ensures TasksServe(cli, requests[id := req])
  {
  }

  lemma ForwardedOk(s: System, id: string, req: PublicRequest, k: string)
    requires s.downTaken <= |s.down| && ExchangeOk(s, k) && id !in s.requests && S.CanBegin(s.server, id)
    ensures ExchangeOk(Step(s, Forwards(id, req)), k)
  {
    ForwardedFrames(s, id, req, k);
    if k == id {
      NothingRead(s, id);
      assert [] + RequestFrames(id, req) == RequestFrames(id, req);
      assert SentDown(RequestFrames(id, req), id, req);
    } else {
      assert Project(s.down, k) + [] == Project(s.down, k);
    }
  }

  lemma ForwardsSide(s: System, id: string, req: PublicRequest)
    requires RequestSide(s) && id !in s.requests && S.CanBegin(s.server, id)
    ensures RequestSide(Step(s, Forwards(id, req)))
  {
    MoreServes(s.cli, s.requests, id, req);
    forall k | true
      ensures ExchangeOk(Step(s, Forwards(id, req)), k)
    {
      assert ExchangeOk(s, k);
      ForwardedOk(s, id, req, k);
    }
  }

  lemma SentDownCancel(d: seq<Message>, id: string, req: PublicRequest, cancel: Message)
    requires SentDown(d, id, req) && cancel.Cancel? && cancel.requestId == id
    ensures SentDown(d + [cancel], id, req)
  {
    assert RequestFrames(id, req) <= d + [cancel];
  }

  lemma CancelSent(s: System, cancel: Message, k: string)
    requires s.downTaken <= |s.down| && cancel.Cancel?
    ensures (s.down + [cancel])[..s.downTaken] == s.down[..s.downTaken]
    ensures Project(s.down + [cancel], k) == if k == cancel.requestId then Project(s.down, k) + [cancel] else Project(s.down, k)
  {
    SendDown(s, [cancel], k);
    ProjectSnoc(s.down, cancel, k);
    assert Project(s.down, k) + [] == Project(s.down, k);
  }

  lemma AbortedOk(s: System, id: string, k: string)
    requires s.downTaken <= |s.down| && id in s.requests && ExchangeOk(s, k)
    ensures ExchangeOk(Step(s, Aborts(id)), k)
  {
    var cancel := Cancel(id, s.requests[id].tunnelId, Some(CANCEL_REASON));
    CancelSent(s, cancel, k);
    if k == id {
      SentDownCancel(Project(s.down, id), id, s.requests[id], cancel);
    }
  }

  lemma AbortsSide(s: System, id: string)
    requires RequestSide(s) && id in s.requests
    ensures RequestSide(Step(s, Aborts(id)))
  {
    forall k | true
      ensures ExchangeOk(Step(s, Aborts(id)), k)
    {
      assert ExchangeOk(s, k);
      AbortedOk(s, id, k);
    }
  }

  /** A local event changes neither what is assembled nor which requests the tasks serve. */
  ghost predicate SameWork(cli: C.Forwarder, cli': C.Forwarder) {
    && cli'.pending == cli.pending && |cli'.tasks| == |cli.tasks|
    && forall k :: 0 <= k < |cli.tasks| ==>
         && cli'.tasks[k].route == cli.tasks[k].route && cli'.tasks[k].request == cli.tasks[k].request
         && cli'.tasks[k].body == cli.tasks[k].body
  }

  lemma LocalSameWork(cli: C.Forwarder, n: nat, ev: C.LocalEvent)
    ensures SameWork(cli, C.Local(cli, n, ev))
  {
  }

  lemma SameKnown(cli: C.Forwarder, cli': C.Forwarder, id: string)
    requires SameWork(cli, cli')
    ensures C.Known(cli', id) <==> C.Known(cli, id)
  {
    if C.Known(cli, id) {
      var k :| 0 <= k < |cli.tasks| && cli.tasks[k].route.requestId == id;
      assert cli'.tasks[k].route.requestId == id;
    }
    if C.Known(cli', id) {
      var k :| 0 <= k < |cli'.tasks| && cli'.tasks[k].route.requestId == id;
      assert cli.tasks[k].route.requestId == id;
    }
  }

  lemma SameServes(cli: C.Forwarder, cli': C.Forwarder, requests: map<string, PublicRequest>)
    requires SameWork(cli, cli') && TasksServe(cli, requests)
    ensures TasksServe(cli', requests)
  {
  }

  lemma LocalSide(s: System, n: nat, ev: C.LocalEvent)
    requires RequestSide(s)
    ensures RequestSide(Step(s, LocalSettles(n, ev)))
  {
    var s' := Step(s, LocalSettles(n, ev));
    LocalSameWork(s.cli, n, ev);
    SameServes(s.cli, s'.cli, s.requests);
    forall id | true
      ensures ExchangeOk(s', id)
    {
      assert ExchangeOk(s, id);
      SameKnown(s.cli, s'.cli, id);
      assert Read(s', id) == Read(s, id);
    }
  }

  // Response direction

  /** The response frames of `id` that the server has read so far. */
  function Received(s: System, id: string): seq<Message>
    requires s.upTaken <= |s.cli.outbox|
  {
    Project(s.cli.outbox[..s.upTaken], id)
  }

  /** An exchange holds what the frames received for it say, in full unless it failed. */
  ghost predicate Follows(e: Q.Exchange, frames: seq<Message>) {
    && e.accepted <= Body(frames)
    && (e.failed.None? ==> e.accepted == Body(frames) && (e.bodyEnded <==> HasEnd(frames)))
    && (e.start.Resolved? ==> e.start.start in frames && e.start.start.ResponseStart?)
  }

  /** The exchange is up to date with `frames` and registered exactly until its body ends. */
  ghost predicate EntryOk(s: S.Server, id: string, frames: seq<Message>) {
    && id in s.entries
    && Follows(s.entries[id], frames)
    && (id in s.pending <==> !s.entries[id].bodyEnded)
  }

  ghost predicate ResponseSide(s: System) {
    && s.upTaken <= |s.cli.outbox|
    && S.Inv(s.server)
    && s.server.entries.Keys == s.requests.Keys
    && (forall id :: id in s.requests ==> EntryOk(s.server, id, Received(s, id)))
  }

  lemma DeliverFollows(e: Q.Exchange, m: Message, frames: seq<Message>, maxBuffer: nat)
    requires Q.Sound(e, maxBuffer) && Follows(e, frames) && !e.bodyEnded
    ensures Follows(Q.Deliver(e, m, maxBuffer), frames + [m])
  {
    BodySnoc(frames, m);
    assert m in frames + [m];
  }

  /** A frame that finds no pending exchange adds nothing to what the exchange should hold. */
  lemma IgnoredFollows(e: Q.Exchange, m: Message, frames: seq<Message>)
    requires Follows(e, frames) && e.bodyEnded
    ensures Follows(e, frames + [m])
  {
    BodySnoc(frames, m);
  }

  lemma DeliverPending(s: S.Server, m: Message, id: string)
    requires S.Inv(s) && id in s.entries && m.Exchange() == Some(id)
    requires id in s.pending <==> !s.entries[id].bodyEnded
    ensures id in S.DeliverTo(s, m).entries
    ensures var e := S.DeliverTo(s, m).entries[id];
            && (id in S.DeliverTo(s, m).pending <==> !e.bodyEnded)
            && e == if id in s.pending then Q.Deliver(s.entries[id], m, s.maxBuffer) else s.entries[id]
  {
    if id in s.pending && !S.IsResponsePlane(m) {
      assert Q.Deliver(s.entries[id], m, s.maxBuffer) == s.entries[id];
    }
  }

  lemma ServerReadsOne(s: System, id: string)
    requires ResponseSide(s) && s.upTaken < |s.cli.outbox| && id in s.requests
    ensures EntryOk(Step(s, ServerReads).server, id, Received(Step(s, ServerReads), id))
  {
    var m := s.cli.outbox[s.upTaken];
    var e := s.server.entries[id];
    assert EntryOk(s.server, id, Received(s, id));
    HeadOfChannel(s.cli.outbox, s.upTaken, id);
    if m.Exchange() == Some(id) {
      DeliverPending(s.server, m, id);
      if id in s.server.pending {
        DeliverFollows(e, m, Received(s, id), s.server.maxBuffer);
      } else {
        IgnoredFollows(e, m, Received(s, id));
      }
    } else {
      S.OtherExchangesUntouched(s.server, m, id);
      assert Received(Step(s, ServerReads), id) == Received(s, id);
    }
  }

  lemma ServerReadsSide(s: System)
    requires ResponseSide(s) && s.upTaken < |s.cli.outbox|
    ensures ResponseSide(Step(s, ServerReads))
  {
    S.StepInv(s.server, S.Arrived(s.cli.outbox[s.upTaken]));
    forall id | id in s.requests {
      ServerReadsOne(s, id);
    }
  }

  /** A consumer's turn or a local failure changes neither what was accepted nor what should be, unless it fails. */
  lemma ConsumerFollows(e: Q.Exchange, frames: seq<Message>)
    requires Follows(e, frames)
    ensures Follows(Q.Pull(e), frames) && Follows(Q.Resume(e), frames) && Follows(Q.Fail(e, ABORTED), frames)
    ensures Q.Pull(e).bodyEnded == e.bodyEnded && Q.Resume(e).bodyEnded == e.bodyEnded
  {
  }

  lemma EntryElsewhere(s: S.Server, s': S.Server, id: string, k: string, frames: seq<Message>)
    requires EntryOk(s, k, frames) && k != id && id in s'.entries
    requires s'.entries == s.entries[id := s'.entries[id]] && s'.pending - {id} == s.pending - {id}
    ensures EntryOk(s', k, frames)
  {
    assert k in s'.pending <==> k in s'.pending - {id};
    assert k in s.pending <==> k in s.pending - {id};
  }

  lemma EntrySide(s: System, s': System, id: string)
    requires ResponseSide(s) && id in s.requests
    requires s'.cli == s.cli && s'.upTaken == s.upTaken && s'.requests == s.requests
    requires S.Inv(s'.server) && EntryOk(s'.server, id, Received(s, id))
    requires s'.server.entries == s.server.entries[id := s'.server.entries[id]]
    requires s'.server.pending - {id} == s.server.pending - {id}
    ensures ResponseSide(s')
  {
    assert s'.server.entries.Keys == s.server.entries.Keys;
    forall k | k in s'.requests
      ensures EntryOk(s'.server, k, Received(s', k))
    {
      assert Received(s', k) == Received(s, k);
      assert EntryOk(s.server, k, Received(s, k));
      if k != id {
        EntryElsewhere(s.server, s'.server, id, k, Received(s, k));
      }
    }
  }

  lemma PullsSide(s: System, id: string)
    requires ResponseSide(s)
    ensures ResponseSide(Step(s, Pulls(id)))
  {
    if id in s.requests {
      assert EntryOk(s.server, id, Received(s, id));
      ConsumerFollows(s.server.entries[id], Received(s, id));
      S.StepInv(s.server, S.Pulled(id));
      EntrySide(s, Step(s, Pulls(id)), id);
    }
  }

  lemma ResumesSide(s: System, id: string)
    requires ResponseSide(s)
    ensures ResponseSide(Step(s, Resumes(id)))
  {
    if id in s.requests {
      assert EntryOk(s.server, id, Received(s, id));
      ConsumerFollows(s.server.entries[id], Received(s, id));
      S.StepInv(s.server, S.Resumed(id));
      EntrySide(s, Step(s, Resumes(id)), id);
    }
  }

  lemma FailedEntry(server: S.Server, id: string, frames: seq<Message>)
    requires EntryOk(server, id, frames)
    requires server.entries[id].failed.Some? ==> server.entries[id].bodyEnded
    ensures var failed := S.FailAt(server, id, ABORTED);
            && EntryOk(failed, id, frames)
            && failed.entries == server.entries[id := failed.entries[id]] && failed.pending - {id} == server.pending - {id}
  {
    ConsumerFollows(server.entries[id], frames);
  }

  lemma FailsSide(s: System, id: string)
    requires ResponseSide(s)
    ensures ResponseSide(Step(s, Aborts(id)))
  {
    if id in s.requests {
      assert EntryOk(s.server, id, Received(s, id));
      FailedEntry(s.server, id, Received(s, id));
      S.StepInv(s.server, S.Failed(id, ABORTED));
      EntrySide(s, Step(s, Aborts(id)), id);
    }
  }

  lemma OutboxSide(s: System, s': System)
    requires ResponseSide(s)
    requires s'.server == s.server && s'.requests == s.requests && s'.upTaken == s.upTaken
    requires s.cli.outbox <= s'.cli.outbox
    ensures ResponseSide(s')
  {
    assert s'.cli.outbox[..s.upTaken] == s.cli.outbox[..s.upTaken];
  }

  lemma NothingReceived(s: System, id: string)
    requires s.upTaken <= |s.cli.outbox| && C.Inv(s.cli) && !C.Known(s.cli, id)
    ensures Received(s, id) == []
  {
    assert s.cli.outbox == s.cli.outbox[..s.upTaken] + s.cli.outbox[s.upTaken..];
    ProjectAppend(s.cli.outbox[..s.upTaken], s.cli.outbox[s.upTaken..], id);
  }

  lemma BeginSide(s: System, id: string, req: PublicRequest)
    requires ResponseSide(s) && Received(s, id) == [] && id !in s.requests && S.CanBegin(s.server, id)
    ensures ResponseSide(Step(s, Forwards(id, req)))
  {
    var s' := Step(s, Forwards(id, req));
    S.StepInv(s.server, S.Begun(id));
    assert s'.server.entries.Keys == s.server.entries.Keys + {id};
    assert s'.requests.Keys == s.requests.Keys + {id};
    forall k | k in s'.requests
      ensures EntryOk(s'.server, k, Received(s', k))
    {
      assert Received(s', k) == Received(s, k);
      if k == id {
        assert s'.server.entries[k] == Q.FRESH_EXCHANGE && !HasEnd([]);
      } else {
        assert EntryOk(s.server, k, Received(s, k));
      }
    }
  }

  // Whole runs

  ghost predicate Inv(s: System) {
    RequestSide(s) && ResponseSide(s) && C.Inv(s.cli)
  }

  lemma InitialInv(maxPending: nat, maxBuffer: nat, port: nat)
    ensures Inv(Initial(maxPending, maxBuffer, port))
  {
  }

  lemma ForwardsInv(s: System, id: string, req: PublicRequest)
    requires Inv(s) && id !in s.requests && S.CanBegin(s.server, id)
    ensures Inv(Step(s, Forwards(id, req)))
  {
    ForwardsSide(s, id, req);
    NothingReceived(s, id);
    BeginSide(s, id, req);
  }

  lemma ReadingSendsNothing(cli: C.Forwarder, m: Message)
    ensures C.Handle(cli, m).outbox == cli.outbox
  {
  }

  lemma CliReadsInv(s: System)
    requires Inv(s) && s.downTaken < |s.down|
    ensures Inv(Step(s, CliReads))
  {
    var s' := Step(s, CliReads);
    assert RequestSide(s') by {
      CliReadsSide(s);
    }
    assert C.Inv(s'.cli) by {
      C.HandleInv(s.cli, s.down[s.downTaken]);
    }
    assert ResponseSide(s') by {
      ReadingSendsNothing(s.cli, s.down[s.downTaken]);
      OutboxSide(s, s');
    }
  }

  lemma LocalSettlesInv(s: System, n: nat, e: C.LocalEvent)
    requires Inv(s)
    ensures Inv(Step(s, LocalSettles(n, e)))
  {
    LocalSide(s, n, e);
    C.LocalInv(s.cli, n, e);
    OutboxSide(s, Step(s, LocalSettles(n, e)));
  }

  lemma ReadOnlySide(s: System, s': System)
    requires RequestSide(s)
    requires s'.cli == s.cli && s'.down == s.down && s'.downTaken == s.downTaken && s'.requests == s.requests
    ensures RequestSide(s')
  {
    forall id | true
      ensures ExchangeOk(s', id)
    {
      assert ExchangeOk(s, id);
    }
  }

  lemma StepInv(s: System, ev: Event)
    requires Inv(s)
    ensures Inv(Step(s, ev))
  {
    match ev
    case Forwards(id, req) =>
      if id !in s.requests && S.CanBegin(s.server, id) {
        ForwardsInv(s, id, req);
      }
    case CliReads =>
      if s.downTaken < |s.down| {
        CliReadsInv(s);
      }
    case LocalSettles(n, e) =>
      LocalSettlesInv(s, n, e);
    case ServerReads =>
      if s.upTaken < |s.cli.outbox| {
        ServerReadsSide(s);
        ReadOnlySide(s, Step(s, ev));
      }
    case Pulls(id) =>
      PullsSide(s, id);
      ReadOnlySide(s, Step(s, ev));
    case Resumes(id) =>
      ResumesSide(s, id);
      ReadOnlySide(s, Step(s, ev));
    case Aborts(id) =>
      if id in s.requests {
        FailsSide(s, id);
        AbortsSide(s, id);
      }
  }

  lemma {:induction false} RunInv(s: System, events: seq<Event>)
    requires Inv(s)
    ensures Inv(Run(s, events))
    decreases |events|
  {
    if events != [] {
      StepInv(s, events[0]);
      RunInv(Step(s, events[0]), events[1..]);
    }
  }

  /** Every request the local application ever sees is one public request, whole and unchanged, and is served once. */
  lemma RequestPreserved(maxPending: nat, maxBuffer: nat, port: nat, events: seq<Event>, n: nat)
    requires n < |Run(Initial(maxPending, maxBuffer, port), events).cli.tasks|
    ensures var s := Run(Initial(maxPending, maxBuffer, port), events);
            var t := s.cli.tasks[n];
            && t.route.requestId in s.requests
            && t.request == s.requests[t.route.requestId].head
            && t.body == Present(s.requests[t.route.requestId].BodyBytes())
            && forall k :: 0 <= k < |s.cli.tasks| && s.cli.tasks[k].route.requestId == t.route.requestId ==> k == n
  {
    InitialInv(maxPending, maxBuffer, port);
    RunInv(Initial(maxPending, maxBuffer, port), events);
  }

  /** The one task that answers a request, given its head and its body. */
  ghost predicate ServedBy(s: System, id: string, n: nat) {
    && id in s.requests && n < |s.cli.tasks| && s.cli.tasks[n].route.requestId == id
    && s.cli.tasks[n].request == s.requests[id].head
    && s.cli.tasks[n].body == Present(s.requests[id].BodyBytes())
    && forall k :: 0 <= k < |s.cli.tasks| && s.cli.tasks[k].route.requestId == id ==> k == n
  }

  lemma KnownServed(s: System, id: string)
    requires TasksServe(s.cli, s.requests) && id in s.requests && C.Known(s.cli, id)
    ensures exists n :: ServedBy(s, id, n)
  {
    var n :| 0 <= n < |s.cli.tasks| && s.cli.tasks[n].route.requestId == id;
    assert ServedBy(s, id, n);
  }

  /** In every run the local application is given a request exactly once all its frames were read: whole, and by one task. */
  lemma RequestServed(maxPending: nat, maxBuffer: nat, port: nat, events: seq<Event>, id: string)
    requires id in Run(Initial(maxPending, maxBuffer, port), events).requests
    ensures var s := Run(Initial(maxPending, maxBuffer, port), events);
            && s.downTaken <= |s.down|
            && (|Read(s, id)| >= |RequestFrames(id, s.requests[id])| <==> C.Known(s.cli, id))
            && (C.Known(s.cli, id) <==> exists n :: ServedBy(s, id, n))
  {
    InitialInv(maxPending, maxBuffer, port);
    RunInv(Initial(maxPending, maxBuffer, port), events);
    var s := Run(Initial(maxPending, maxBuffer, port), events);
    assert ExchangeOk(s, id);
    if C.Known(s.cli, id) {
      KnownServed(s, id);
    }
  }

  /** What the public consumer of exchange `id` sees of the local response. */
  ghost predicate Faithful(e: Q.Exchange, t: C.Task) {
    && Concat(e.yielded) <= Concat(t.produced)
    && (e.start.Resolved? ==> t.head.Some? && e.start.start == C.StartFrame(t.route, t.head.value, t.produced != []))
    && (e.failed.None? && e.bodyEnded ==>
          t.phase == C.Finished(C.Completed) && Concat(e.accepted) == Concat(t.produced))
    && (e.failed.None? && e.consumer.Returned? ==>
          t.phase == C.Finished(C.Completed) && Concat(e.yielded) == Concat(t.produced))
  }

  lemma PrefixCarries(frames: seq<Message>, sent: seq<Message>, produced: seq<bytes>)
    requires frames <= sent && Carries(sent, produced)
    ensures Body(frames) <= C.Piecewise(produced)
    ensures HasEnd(frames) ==> frames == sent
  {
    assert sent == frames + sent[|frames|..];
    BodyAppend(frames, sent[|frames|..]);
    if HasEnd(frames) {
      var i :| 0 <= i < |frames| && frames[i].ResponseEnd?;
      assert sent[i].ResponseEnd?;
    }
  }

  /** A task sends at most one start frame, and it describes the local response. */
  lemma OnlyStart(t: C.Task, m: Message)
    requires C.Grammar(t) && m in t.sent && m.ResponseStart?
    ensures t.head.Some? && m == C.StartFrame(t.route, t.head.value, t.produced != [])
  {
  }

  lemma FollowsFaithful(e: Q.Exchange, t: C.Task, frames: seq<Message>, maxBuffer: nat)
    requires Q.Sound(e, maxBuffer) && Follows(e, frames) && C.Grammar(t) && frames <= t.sent
    ensures Faithful(e, t)
  {
    SentBody(t);
    PrefixCarries(frames, t.sent, t.produced);
    C.PiecewiseConcat(t.produced);
    ConcatPrefix(e.yielded, C.Piecewise(t.produced));
    if e.consumer.Returned? {
      assert e.yielded + Q.InHand(e.consumer) + e.buffer == e.yielded;
    }
    if e.start.Resolved? {
      OnlyStart(t, e.start.start);
    }
  }

  lemma PrefixReceived(s: System, id: string)
    requires s.upTaken <= |s.cli.outbox|
    ensures Received(s, id) <= Project(s.cli.outbox, id)
  {
    assert s.cli.outbox == s.cli.outbox[..s.upTaken] + s.cli.outbox[s.upTaken..];
    ProjectAppend(s.cli.outbox[..s.upTaken], s.cli.outbox[s.upTaken..], id);
  }

  lemma ServesSole(cli: C.Forwarder, requests: map<string, PublicRequest>, n: nat)
    requires TasksServe(cli, requests) && n < |cli.tasks|
    ensures C.Sole(cli, n)
  {
  }

  lemma DeliveredSole(cli: C.Forwarder, n: nat)
    requires C.Delivered(cli) && n < |cli.tasks| && C.Sole(cli, n)
    ensures Project(cli.outbox, cli.tasks[n].route.requestId) == cli.tasks[n].sent
  {
  }

  lemma ReceivedIsSent(s: System, n: nat)
    requires TasksServe(s.cli, s.requests) && C.Delivered(s.cli) && s.upTaken <= |s.cli.outbox| && n < |s.cli.tasks|
    ensures Project(s.cli.outbox, s.cli.tasks[n].route.requestId) == s.cli.tasks[n].sent
    ensures Received(s, s.cli.tasks[n].route.requestId) <= s.cli.tasks[n].sent
  {
    ServesSole(s.cli, s.requests, n);
    DeliveredSole(s.cli, n);
    PrefixReceived(s, s.cli.tasks[n].route.requestId);
  }

  /**
   * For every schedule of any number of exchanges: the consumer of an exchange sees a prefix of what the local
   * application produced for that exchange, its response head, and, when it finishes without failure, every byte.
   */
  lemma ResponsePreserved(maxPending: nat, maxBuffer: nat, port: nat, events: seq<Event>, id: string)
    requires id in Run(Initial(maxPending, maxBuffer, port), events).requests
    ensures var s := Run(Initial(maxPending, maxBuffer, port), events);
            && id in s.server.entries
            && (forall n :: 0 <= n < |s.cli.tasks| && s.cli.tasks[n].route.requestId == id ==>
                  Faithful(s.server.entries[id], s.cli.tasks[n]))
            && (!C.Known(s.cli, id) ==>
                  var e := s.server.entries[id];
                  e.accepted == [] && e.yielded == [] && !e.start.Resolved? && (e.bodyEnded ==> e.failed.Some?))
  {
    InitialInv(maxPending, maxBuffer, port);
    RunInv(Initial(maxPending, maxBuffer, port), events);
    var s := Run(Initial(maxPending, maxBuffer, port), events);
    assert EntryOk(s.server, id, Received(s, id));
    forall n | 0 <= n < |s.cli.tasks| && s.cli.tasks[n].route.requestId == id
      ensures Faithful(s.server.entries[id], s.cli.tasks[n])
    {
      ReceivedIsSent(s, n);
      FollowsFaithful(s.server.entries[id], s.cli.tasks[n], Received(s, id), s.server.maxBuffer);
    }
    if !C.Known(s.cli, id) {
      NothingReceived(s, id);
    }
  }

  lemma EntryKnown(s: System, id: string)
    requires ResponseSide(s) && id in s.requests
    ensures EntryOk(s.server, id, Received(s, id)) && Q.Sound(s.server.entries[id], s.server.maxBuffer)
  {
  }

  /** The consumer continues from its wait, if it has one, and keeps pulling: it gets all the task produced and finishes. */
  ghost predicate Finishes(e: Q.Exchange, t: C.Task) {
    var r := Q.Resume(e);
    var d := Q.Drain(r, |r.buffer| + 1);
    t.phase == C.Finished(C.Completed) && d.consumer.Returned? && Concat(d.yielded) == Concat(t.produced)
  }

  /** A response that ended without failing is some task's, and draining it gives that task's whole body. */
  lemma EndedDrains(s: System, id: string)
    requires TasksServe(s.cli, s.requests) && C.Inv(s.cli) && s.upTaken <= |s.cli.outbox|
    requires EntryOk(s.server, id, Received(s, id)) && Q.Sound(s.server.entries[id], s.server.maxBuffer)
    requires s.server.entries[id].bodyEnded && s.server.entries[id].failed.None?
    ensures C.Known(s.cli, id)
    ensures forall n :: 0 <= n < |s.cli.tasks| && s.cli.tasks[n].route.requestId == id ==>
              Finishes(s.server.entries[id], s.cli.tasks[n])
  {
    var e := s.server.entries[id];
    if !C.Known(s.cli, id) {
      NothingReceived(s, id);
    }
    forall n | 0 <= n < |s.cli.tasks| && s.cli.tasks[n].route.requestId == id
      ensures Finishes(e, s.cli.tasks[n])
    {
      ReceivedIsSent(s, n);
      FollowsFaithful(e, s.cli.tasks[n], Received(s, id), s.server.maxBuffer);
      Q.DrainFinishes(e, s.server.maxBuffer);
    }
  }

  /**
   * In every run, whatever else is in flight: once the server has seen the end of a response that did not fail, the
   * consumer, wherever it stands, gets every byte of that exchange's local response by pulling on, and finishes.
   */
  lemma ResponseFinishes(maxPending: nat, maxBuffer: nat, port: nat, events: seq<Event>, id: string)
    requires var s := Run(Initial(maxPending, maxBuffer, port), events);
             && id in s.server.entries
             && s.server.entries[id].bodyEnded && s.server.entries[id].failed.None?
    ensures var s := Run(Initial(maxPending, maxBuffer, port), events);
            && C.Known(s.cli, id)
            && forall n :: 0 <= n < |s.cli.tasks| && s.cli.tasks[n].route.requestId == id ==>
                 Finishes(s.server.entries[id], s.cli.tasks[n])
  {
    InitialInv(maxPending, maxBuffer, port);
    RunInv(Initial(maxPending, maxBuffer, port), events);
    var s := Run(Initial(maxPending, maxBuffer, port), events);
    EntryKnown(s, id);
    EndedDrains(s, id);
  }

  lemma CompletedEnds(t: C.Task)
    requires C.Grammar(t) && t.phase == C.Finished(C.Completed)
    ensures HasEnd(t.sent)
  {
    assert t.sent[|t.sent| - 1].ResponseEnd?;
  }

  lemma EndSeen(s: System, n: nat)
    requires TasksServe(s.cli, s.requests) && C.Inv(s.cli) && s.upTaken <= |s.cli.outbox| && n < |s.cli.tasks|
    requires var id := s.cli.tasks[n].route.requestId;
             EntryOk(s.server, id, Received(s, id)) && s.server.entries[id].failed.None?
    ensures var t := s.cli.tasks[n];
            s.server.entries[t.route.requestId].bodyEnded
            <==> t.phase == C.Finished(C.Completed) && Received(s, t.route.requestId) == t.sent
  {
    var t := s.cli.tasks[n];
    ReceivedIsSent(s, n);
    SentBody(t);
    PrefixCarries(Received(s, t.route.requestId), t.sent, t.produced);
    if t.phase == C.Finished(C.Completed) {
      CompletedEnds(t);
    }
  }

  /**
   * The server sees that end as soon as it has read the frames of this one exchange, however many frames of others are
   * still unread: an exchange that did not fail has ended exactly when its completed task's frames have all arrived.
   */
  lemma ResponseEnds(maxPending: nat, maxBuffer: nat, port: nat, events: seq<Event>, n: nat)
    requires var s := Run(Initial(maxPending, maxBuffer, port), events);
             && n < |s.cli.tasks| && s.cli.tasks[n].route.requestId in s.server.entries
             && s.server.entries[s.cli.tasks[n].route.requestId].failed.None?
    ensures var s := Run(Initial(maxPending, maxBuffer, port), events);
            var t := s.cli.tasks[n];
            s.upTaken <= |s.cli.outbox|
            && (s.server.entries[t.route.requestId].bodyEnded
                <==> t.phase == C.Finished(C.Completed) && Received(s, t.route.requestId) == t.sent)
  {
    InitialInv(maxPending, maxBuffer, port);
    RunInv(Initial(maxPending, maxBuffer, port), events);
    var s := Run(Initial(maxPending, maxBuffer, port), events);
    EntryKnown(s, s.cli.tasks[n].route.requestId);
    EndSeen(s, n);
  }

  // After a cancel

  /** The CLI has processed a cancel of this exchange. */
  ghost predicate CancelRead(s: System, id: string)
    requires s.downTaken <= |s.down|
  {
    exists i :: 0 <= i < s.downTaken && s.down[i].Cancel? && s.down[i].requestId == id
  }

  /** Every exchange whose cancel was processed is aborted or over, and nothing is being assembled for it. */
  ghost predicate Hushed(s: System)
    requires s.downTaken <= |s.down|
  {
    forall id :: CancelRead(s, id) ==> C.Silenced(s.cli, id)
  }

  lemma RequestFramesUncancelled(id: string, req: PublicRequest)
    ensures forall i :: 0 <= i < |RequestFrames(id, req)| ==> !RequestFrames(id, req)[i].Cancel?
  {
  }

  /** When a cancel comes, every request frame of its exchange has been read. */
  lemma CancelComesLast(s: System, id: string)
    requires s.downTaken < |s.down| && ExchangeOk(s, id) && s.down[s.downTaken].Exchange() == Some(id)
    ensures id in s.requests
    ensures s.down[s.downTaken].Cancel? ==> |Read(s, id)| >= |RequestFrames(id, s.requests[id])|
  {
    HeadOfChannel(s.down, s.downTaken, id);
    var m, d, r := s.down[s.downTaken], Project(s.down, id), |Read(s, id)|;
    assert d[r] == m;
    if m.Cancel? {
      RequestFramesUncancelled(id, s.requests[id]);
    }
  }

  /** After a cancel only cancels come. */
  lemma OnlyCancelsFollow(s: System, id: string)
    requires s.downTaken < |s.down| && ExchangeOk(s, id) && CancelRead(s, id)
    requires s.down[s.downTaken].Exchange() == Some(id)
    ensures s.down[s.downTaken].Cancel?
  {
    var i :| 0 <= i < s.downTaken && s.down[i].Cancel? && s.down[i].requestId == id;
    var read, d, m := Read(s, id), Project(s.down, id), s.down[i];
    assert s.down[..s.downTaken][i] == m;
    ProjectHas(s.down[..s.downTaken], m, id);
    HeadOfChannel(s.down, s.downTaken, id);
    CancelComesLast(s, id);
    var j :| 0 <= j < |read| && read[j] == m;
    assert d[j] == m && d[|read|] == s.down[s.downTaken];
    RequestFramesUncancelled(id, s.requests[id]);
  }

  lemma ServesAtMostOne(cli: C.Forwarder, requests: map<string, PublicRequest>, id: string)
    requires TasksServe(cli, requests)
    ensures C.AtMostOne(cli, id)
  {
  }

  /** A frame of this exchange, read after or as its cancel, leaves it silenced. */
  lemma ReadsHushed(s: System, id: string)
    requires s.downTaken < |s.down| && ExchangeOk(s, id) && C.Inv(s.cli) && TasksServe(s.cli, s.requests)
    requires CancelRead(s, id) ==> C.Silenced(s.cli, id)
    requires CancelRead(Step(s, CliReads), id)
    ensures C.Silenced(Step(s, CliReads).cli, id)
  {
    var m := s.down[s.downTaken];
    if CancelRead(s, id) {
      if m.Exchange() == Some(id) {
        OnlyCancelsFollow(s, id);
      }
      C.HandleSilenced(s.cli, m, id);
    } else {
      assert m.Cancel? && m.requestId == id;
      CancelComesLast(s, id);
      ServesAtMostOne(s.cli, s.requests, id);
      C.CancelSilences(s.cli, m);
    }
  }

  lemma CancelReadKept(s: System, s': System, id: string)
    requires s.downTaken <= |s.down| && s'.downTaken == s.downTaken && s.down <= s'.down
    ensures CancelRead(s', id) <==> CancelRead(s, id)
  {
    assert forall i :: 0 <= i < s.downTaken ==> s'.down[i] == s.down[i];
  }

  lemma HushedStep(s: System, ev: Event)
    requires Inv(s) && Hushed(s)
    ensures Step(s, ev).downTaken <= |Step(s, ev).down| && Hushed(Step(s, ev))
  {
    var s' := Step(s, ev);
    forall id | CancelRead(s', id)
      ensures C.Silenced(s'.cli, id)
    {
      if ev.CliReads? && s.downTaken < |s.down| {
        assert ExchangeOk(s, id);
        ReadsHushed(s, id);
      } else {
        CancelReadKept(s, s', id);
        if ev.LocalSettles? {
          C.LocalSilenced(s.cli, ev.task, ev.ev, id);
        }
      }
    }
  }

  lemma CancelReadStays(s: System, ev: Event, id: string)
    requires s.downTaken <= |s.down| && CancelRead(s, id)
    ensures Step(s, ev).downTaken <= |Step(s, ev).down| && CancelRead(Step(s, ev), id)
  {
    var i :| 0 <= i < s.downTaken && s.down[i].Cancel? && s.down[i].requestId == id;
    assert Step(s, ev).down[i] == s.down[i];
  }

  lemma SilentStep(s: System, ev: Event, id: string)
    requires C.Inv(s.cli) && C.Silenced(s.cli, id)
    ensures s.cli.outbox <= Step(s, ev).cli.outbox
    ensures forall m :: m in Step(s, ev).cli.outbox[|s.cli.outbox|..] ==> !C.Chunk(m, id)
  {
    if ev.LocalSettles? {
      C.StepSilent(s.cli, C.Settled(ev.task, ev.ev), id);
    } else if ev.CliReads? && s.downTaken < |s.down| {
      ReadingSendsNothing(s.cli, s.down[s.downTaken]);
    }
  }

  lemma {:induction false} SilentRun(s: System, events: seq<Event>, id: string)
    requires Inv(s) && Hushed(s) && CancelRead(s, id)
    ensures s.cli.outbox <= Run(s, events).cli.outbox
    ensures forall m :: m in Run(s, events).cli.outbox[|s.cli.outbox|..] ==> !C.Chunk(m, id)
    decreases |events|
  {
    if events != [] {
      var next, end := Step(s, events[0]), Run(s, events);
      StepInv(s, events[0]);
      HushedStep(s, events[0]);
      CancelReadStays(s, events[0], id);
      SilentStep(s, events[0], id);
      SilentRun(next, events[1..], id);
      assert end.cli.outbox[|s.cli.outbox|..]
          == next.cli.outbox[|s.cli.outbox|..] + end.cli.outbox[|next.cli.outbox|..];
    }
  }

  lemma {:induction false} RunHushed(s: System, events: seq<Event>)
    requires Inv(s) && Hushed(s)
    ensures Inv(Run(s, events)) && Hushed(Run(s, events))
    decreases |events|
  {
    if events != [] {
      StepInv(s, events[0]);
      HushedStep(s, events[0]);
      RunHushed(Step(s, events[0]), events[1..]);
    }
  }

  /** In every run, once the CLI has processed a cancel of an exchange it never sends another chunk of it. */
  lemma NoChunkAfterCancel(maxPending: nat, maxBuffer: nat, port: nat, events: seq<Event>, later: seq<Event>, id: string)
    requires var s := Run(Initial(maxPending, maxBuffer, port), events);
             exists i :: 0 <= i < s.downTaken && i < |s.down| && s.down[i].Cancel? && s.down[i].requestId == id
    ensures var s := Run(Initial(maxPending, maxBuffer, port), events);
            var sent := Run(s, later).cli.outbox;
            && s.cli.outbox <= sent
            && forall m :: m in sent[|s.cli.outbox|..] ==> !(m.ResponseChunk? && m.requestId == id)
  {
    InitialInv(maxPending, maxBuffer, port);
    RunHushed(Initial(maxPending, maxBuffer, port), events);
    var s := Run(Initial(maxPending, maxBuffer, port), events);
    assert CancelRead(s, id);
    SilentRun(s, later, id);
    forall m | m in Run(s, later).cli.outbox[|s.cli.outbox|..]
      ensures !(m.ResponseChunk? && m.requestId == id)
    {
      assert !C.Chunk(m, id);
    }
  }
}
