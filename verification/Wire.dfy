/** The data plane's frames as JSON: what either end sends, the other end parses to the same message. */
module Wire {
  import opened Bytes
  import opened BodyCodec
  import opened Messages
  import opened Protocol
  import opened ForwardingService
  import C = Forwarder
  import D = DataPlane

  /** Frames the receiver's parser returns unchanged. */
  ghost predicate AllWell(frames: seq<Message>) {
    forall i :: 0 <= i < |frames| ==> WellFormed(frames[i])
  }

  predicate PlainRequest(id: string, req: PublicRequest) {
    id != "" && req.tunnelId != "" && PlainHead(req.head)
  }

  /** What the edge and the local application guarantee: ids, a status of three digits, and header names that are property names. */
  predicate Presentable(ev: D.Event) {
    match ev
    case Forwards(id, request) => PlainRequest(id, request)
    case LocalSettles(_, Responds(head, _)) => head.statusCode >= 100 && PROTOTYPE_KEY !in head.headers
    case _ => true
  }

  lemma RequestFramesWell(id: string, req: PublicRequest)
    requires PlainRequest(id, req)
    ensures AllWell(RequestFrames(id, req))
  {
  }

  // The CLI

  predicate Routed(t: C.Task) {
    t.route.requestId != "" && t.route.tunnelId != ""
  }

  ghost predicate CliWell(f: C.Forwarder) {
    && (forall id :: id in f.pending ==> id != "" && f.pending[id].tunnelId != "")
    && (forall n :: 0 <= n < |f.tasks| ==> Routed(f.tasks[n]))
    && AllWell(f.outbox)
  }

  lemma HandleWell(f: C.Forwarder, m: Message)
    requires CliWell(f) && WellFormed(m)
    ensures CliWell(C.Handle(f, m))
  {
  }

  lemma ChunkFramesWell(r: C.Route, sequence: nat, pieces: seq<bytes>)
    requires r.requestId != "" && r.tunnelId != ""
    ensures AllWell(C.ChunkFrames(r, sequence, pieces))
  {
  }

  lemma AppendWell(a: seq<Message>, b: seq<Message>)
    requires AllWell(a) && AllWell(b)
    ensures AllWell(a + b)
  {
  }

  lemma OnChunkWell(t: C.Task, chunk: bytes)
    requires t.phase.Streaming? && Routed(t)
    ensures var t' := C.OnChunk(t, chunk); Routed(t') && t.sent <= t'.sent && AllWell(t'.sent[|t.sent|..])
  {
    if !t.aborted {
      var frames := C.ChunkFrames(t.route, t.phase.sequence, Pieces(chunk, CHUNK_SIZE));
      ChunkFramesWell(t.route, t.phase.sequence, Pieces(chunk, CHUNK_SIZE));
      assert (t.sent + frames)[|t.sent|..] == frames;
    }
  }

  lemma OnResponseWell(t: C.Task, head: ResponseHead, first: Option<bytes>)
    requires Routed(t) && head.statusCode >= 100 && PROTOTYPE_KEY !in head.headers
    ensures var t' := C.OnResponse(t, head, first); Routed(t') && t.sent <= t'.sent && AllWell(t'.sent[|t.sent|..])
  {
    var start := C.StartFrame(t.route, head, first.Some?);
    var started := C.Send(t.(phase := C.Streaming(0), head := Some(head)), [start]);
    if first.Some? {
      OnChunkWell(started, first.value);
      var more := C.OnChunk(started, first.value).sent[|started.sent|..];
      AppendWell([start], more);
      assert C.OnChunk(started, first.value).sent[|t.sent|..] == [start] + more;
    } else {
      assert C.OnDone(started).sent[|t.sent|..] == [start, C.EndFrame(t.route)];
    }
  }

  lemma AdvanceWell(t: C.Task, port: nat, ev: C.LocalEvent)
    requires C.Enabled(t, ev) && Routed(t)
    requires ev.Responds? ==> ev.head.statusCode >= 100 && PROTOTYPE_KEY !in ev.head.headers
    ensures var t' := C.Advance(t, port, ev); Routed(t') && AllWell(C.NewFrames(t, t'))
  {
    match ev
    case Responds(head, first) => OnResponseWell(t, head, first);
    case Yields(chunk) => OnChunkWell(t, chunk);
    case Ends => assert C.OnDone(t).sent[|t.sent|..] == [C.EndFrame(t.route)];
    case Fails(failure) =>
      if !t.aborted {
        assert C.OnFailure(t, port, failure).sent[|t.sent|..] == [C.ErrorFrame(t.route, port, failure)];
      }
  }

  lemma LocalWell(f: C.Forwarder, n: nat, ev: C.LocalEvent)
    requires CliWell(f)
    requires ev.Responds? ==> ev.head.statusCode >= 100 && PROTOTYPE_KEY !in ev.head.headers
    ensures CliWell(C.Local(f, n, ev))
  {
    if n < |f.tasks| && C.Enabled(f.tasks[n], ev) {
      AdvanceWell(f.tasks[n], f.port, ev);
      AppendWell(f.outbox, C.NewFrames(f.tasks[n], C.Advance(f.tasks[n], f.port, ev)));
    }
  }

  // The whole system

  ghost predicate SystemWell(s: D.System) {
    && AllWell(s.down) && CliWell(s.cli)
    && forall id :: id in s.requests ==> PlainRequest(id, s.requests[id])
  }

  lemma StepWell(s: D.System, ev: D.Event)
    requires SystemWell(s) && Presentable(ev)
    ensures SystemWell(D.Step(s, ev))
  {
    match ev
    case Forwards(id, request) =>
      RequestFramesWell(id, request);
      AppendWell(s.down, RequestFrames(id, request));
    case CliReads =>
      if s.downTaken < |s.down| {
        HandleWell(s.cli, s.down[s.downTaken]);
      }
    case LocalSettles(n, e) => LocalWell(s.cli, n, e);
    case _ =>
  }

  lemma {:induction false} RunWell(s: D.System, events: seq<D.Event>)
    requires SystemWell(s) && forall i :: 0 <= i < |events| ==> Presentable(events[i])
    ensures SystemWell(D.Run(s, events))
    decreases |events|
  {
    if events != [] {
      StepWell(s, events[0]);
      RunWell(D.Step(s, events[0]), events[1..]);
    }
  }

  /** A channel as the receiver sees it: every frame printed to JSON and parsed again. */
  function Received(frames: seq<Message>): seq<Result<Message>> {
    seq(|frames|, i requires 0 <= i < |frames| => ParseProtocolMessage(Some(EncodeMessage(frames[i]))))
  }

  lemma AllReceived(frames: seq<Message>)
    requires AllWell(frames)
    ensures forall i :: 0 <= i < |frames| ==> Received(frames)[i] == Ok(frames[i])
  {
    forall i | 0 <= i < |frames|
      ensures Received(frames)[i] == Ok(frames[i])
    {
      RoundTrip(frames[i]);
    }
  }

  /** In every run each frame either end ever sends is parsed by the other end to exactly the message that was sent. */
  lemma WireTransparent(maxPending: nat, maxBuffer: nat, port: nat, events: seq<D.Event>)
    requires forall i :: 0 <= i < |events| ==> Presentable(events[i])
    ensures var s := D.Run(D.Initial(maxPending, maxBuffer, port), events);
            && (forall i :: 0 <= i < |s.down| ==> Received(s.down)[i] == Ok(s.down[i]))
            && (forall i :: 0 <= i < |s.cli.outbox| ==> Received(s.cli.outbox)[i] == Ok(s.cli.outbox[i]))
  {
    RunWell(D.Initial(maxPending, maxBuffer, port), events);
    var s := D.Run(D.Initial(maxPending, maxBuffer, port), events);
    AllReceived(s.down);
    AllReceived(s.cli.outbox);
  }
}
