/** The CLI end of the data plane: reassembling requests and streaming local responses back. */
module Forwarder {
  import opened Bytes
  import opened BodyCodec
  import opened Messages
  import Text

  /** A request whose frames are still arriving. */
  datatype Assembling = Assembling(tunnelId: string, request: RequestHead, chunks: seq<bytes>)

  datatype Outcome = Completed | Failed | Abandoned

  datatype Phase = AwaitingResponse | Streaming(sequence: nat) | Finished(outcome: Outcome)

  /** What every frame of an exchange carries. */
  datatype Route = Route(requestId: string, tunnelId: string)

  /** One activation of `respond`: what the local application was given and produced, and what was sent for it. */
  datatype Task = Task(
    route: Route,
    request: RequestHead,
    body: Option<bytes>,
    aborted: bool,
    phase: Phase,
    head: Option<ResponseHead>,
    produced: seq<bytes>,
    sent: seq<Message>)

  /** `outbox` is everything ever handed to `send`, in order. */
  datatype Forwarder = Forwarder(
    port: nat,
    pending: map<string, Assembling>,
    inFlight: map<string, nat>,
    tasks: seq<Task>,
    outbox: seq<Message>)

  function Initial(port: nat): Forwarder {
    Forwarder(port, map[], map[], [], [])
  }

  // Inbound frames

  function NewTask(id: string, x: Assembling): Task {
    Task(Route(id, x.tunnelId), x.request, Present(Concat(x.chunks)), false, AwaitingResponse, None, [], [])
  }

  function Abort(f: Forwarder, id: string): Forwarder {
    if id in f.inFlight && f.inFlight[id] < |f.tasks|
    then f.(tasks := f.tasks[f.inFlight[id] := f.tasks[f.inFlight[id]].(aborted := true)])
    else f
  }

  function Handle(f: Forwarder, m: Message): Forwarder {
    match m
    case RequestStart(id, tunnelId, request, _) =>
      f.(pending := f.pending[id := Assembling(tunnelId, request, [])])
    case RequestChunk(id, _, _, encoding, data) =>
      if id !in f.pending then f
      else
        var x := f.pending[id];
        f.(pending := f.pending[id := x.(chunks := x.chunks + [DecodeBodyChunk(encoding, data)])])
    case RequestEnd(id, _) =>
      if id !in f.pending then f
      else
        f.(pending := f.pending - {id}, inFlight := f.inFlight[id := |f.tasks|],
           tasks := f.tasks + [NewTask(id, f.pending[id])])
    case Cancel(id, _, _) =>
      if id in f.pending then f.(pending := f.pending - {id}) else Abort(f, id)
    case _ => f
  }

  // Outbound frames

  function StartFrame(r: Route, head: ResponseHead, hasBody: bool): Message {
    ResponseStart(r.requestId, r.tunnelId, head, hasBody)
  }

  function EndFrame(r: Route): Message {
    ResponseEnd(r.requestId, r.tunnelId)
  }

  function ErrorFrame(r: Route, port: nat, failure: Option<string>): Message {
    var reason := if failure.Some? && Text.Trim(failure.value) != "" then failure.value else "Local request failed.";
    Error(Some(r.requestId), "local_forward_failed",
          "Could not reach the local target on port " + Text.Decimal(port) + ": " + reason)
  }

  /** Chunk frames for `pieces`, numbered from `sequence`. */
  function ChunkFrames(r: Route, sequence: nat, pieces: seq<bytes>): (frames: seq<Message>)
    ensures |frames| == |pieces|
  {
    seq(|pieces|, i requires 0 <= i < |pieces| =>
      var e := EncodeBodyChunk(pieces[i]);
      ResponseChunk(r.requestId, r.tunnelId, sequence + i, e.encoding, e.data))
  }

  function Piecewise(chunks: seq<bytes>): seq<bytes> {
    if chunks == [] then [] else Pieces(chunks[0], CHUNK_SIZE) + Piecewise(chunks[1..])
  }

  function Send(t: Task, frames: seq<Message>): Task {
    t.(sent := t.sent + frames)
  }

  /** One turn of the streaming loop on a chunk the local body has just yielded. */
  function OnChunk(t: Task, chunk: bytes): Task
    requires t.phase.Streaming?
  {
    var t' := t.(produced := t.produced + [chunk]);
    if t.aborted then t'.(phase := Finished(Abandoned))
    else
      var pieces := Pieces(chunk, CHUNK_SIZE);
      Send(t'.(phase := Streaming(t.phase.sequence + |pieces|)), ChunkFrames(t.route, t.phase.sequence, pieces))
  }

  function OnDone(t: Task): Task {
    Send(t.(phase := Finished(Completed)), [EndFrame(t.route)])
  }

  /** The local response arrived and its body was asked for a first chunk. */
  function OnResponse(t: Task, head: ResponseHead, first: Option<bytes>): Task {
    var t' := Send(t.(phase := Streaming(0), head := Some(head)), [StartFrame(t.route, head, first.Some?)]);
    if first.Some? then OnChunk(t', first.value) else OnDone(t')
  }

  function OnFailure(t: Task, port: nat, failure: Option<string>): Task {
    if t.aborted then t.(phase := Finished(Abandoned))
    else Send(t.(phase := Finished(Failed)), [ErrorFrame(t.route, port, failure)])
  }

  datatype LocalEvent =
    | Responds(head: ResponseHead, first: Option<bytes>)
    | Yields(chunk: bytes)
    | Ends
    | Fails(failure: Option<string>)

  /** Whether the task's pending `await` can settle in this way. */
  predicate Enabled(t: Task, ev: LocalEvent) {
    match ev
    case Responds(_, _) => t.phase.AwaitingResponse?
    case Yields(_) => t.phase.Streaming?
    case Ends => t.phase.Streaming?
    case Fails(_) => !t.phase.Finished?
  }

  function Advance(t: Task, port: nat, ev: LocalEvent): Task
    requires Enabled(t, ev)
  {
    match ev
    case Responds(head, first) => OnResponse(t, head, first)
    case Yields(chunk) => OnChunk(t, chunk)
    case Ends => OnDone(t)
    case Fails(failure) => OnFailure(t, port, failure)
  }

  function NewFrames(t: Task, t': Task): seq<Message> {
    if |t.sent| <= |t'.sent| then t'.sent[|t.sent|..] else []
  }

  /** Resumes task `n`; a finished task leaves `inFlight`, and new frames go out. */
  function Local(f: Forwarder, n: nat, ev: LocalEvent): Forwarder {
    if n < |f.tasks| && Enabled(f.tasks[n], ev) then
      var t := Advance(f.tasks[n], f.port, ev);
      f.(tasks := f.tasks[n := t], outbox := f.outbox + NewFrames(f.tasks[n], t),
         inFlight := if t.phase.Finished? then f.inFlight - {t.route.requestId} else f.inFlight)
    else f
  }

  // The response grammar

  /** The frames of a stream that has sent `chunks` of the local body. */
  function StreamFrames(r: Route, head: ResponseHead, hasBody: bool, chunks: seq<bytes>): seq<Message> {
    [StartFrame(r, head, hasBody)] + ChunkFrames(r, 0, Piecewise(chunks))
  }

  ghost predicate IsErrorFrame(r: Route, m: Message) {
    m.Error? && m.failedRequestId == Some(r.requestId)
  }

  /**
   * The frames a task has sent: nothing, or an error, or a start followed by chunks numbered from zero and at
   * most one end or error; `hasBody` tells whether the local body yields a first chunk, the chunks carry what the
   * body produced, and an end is sent only after all of it.
   */
  ghost predicate Grammar(t: Task) {
    match t.phase
    case AwaitingResponse => t.sent == [] && t.produced == [] && t.head.None?
    case Streaming(n) =>
      && t.head.Some? && t.produced != [] && n == |Piecewise(t.produced)|
      && t.sent == StreamFrames(t.route, t.head.value, true, t.produced)
    case Finished(Completed) =>
      && t.head.Some?
      && t.sent == StreamFrames(t.route, t.head.value, t.produced != [], t.produced) + [EndFrame(t.route)]
    case Finished(Failed) =>
      && t.sent != [] && IsErrorFrame(t.route, t.sent[|t.sent| - 1])
      && if t.head.None? then |t.sent| == 1 && t.produced == []
         else t.produced != [] && t.sent[..|t.sent| - 1] == StreamFrames(t.route, t.head.value, true, t.produced)
    case Finished(Abandoned) =>
      && t.aborted
      && if t.head.None? then t.sent == [] && t.produced == []
         else t.produced != [] && exists k :: 0 <= k <= |t.produced| && t.sent == StreamFrames(t.route, t.head.value, true, t.produced[..k])
  }

  lemma {:induction false} PiecewiseAppend(a: seq<bytes>, b: seq<bytes>)
    ensures Piecewise(a + b) == Piecewise(a) + Piecewise(b)
  {
    if a == [] {
      assert a + b == b;
    } else {
      assert (a + b)[1..] == a[1..] + b;
      PiecewiseAppend(a[1..], b);
    }
  }

  /** Splitting changes where the chunks end, never their bytes. */
  lemma {:induction false} PiecewiseConcat(chunks: seq<bytes>)
    ensures Concat(Piecewise(chunks)) == Concat(chunks)
  {
    if chunks != [] {
      PiecewiseConcat(chunks[1..]);
      PiecesConcat(chunks[0], CHUNK_SIZE);
      ConcatAppend(Pieces(chunks[0], CHUNK_SIZE), Piecewise(chunks[1..]));
    }
  }

  lemma ChunkFramesAppend(r: Route, a: seq<bytes>, b: seq<bytes>)
    ensures ChunkFrames(r, 0, a + b) == ChunkFrames(r, 0, a) + ChunkFrames(r, |a|, b)
  {
  }

  lemma PiecewiseSnoc(chunks: seq<bytes>, chunk: bytes)
    ensures Piecewise(chunks + [chunk]) == Piecewise(chunks) + Pieces(chunk, CHUNK_SIZE)
  {
    PiecewiseAppend(chunks, [chunk]);
    assert Piecewise([chunk]) == Pieces(chunk, CHUNK_SIZE) + Piecewise([]);
  }

  lemma Regrouped(a: seq<Message>, b: seq<Message>, c: seq<Message>)
    ensures a + (b + c) == (a + b) + c
  {
  }

  /** One more chunk of the local body extends the stream by exactly its chunk frames. */
  lemma StreamFramesSnoc(r: Route, head: ResponseHead, chunks: seq<bytes>, chunk: bytes)
    ensures var pieces := Pieces(chunk, CHUNK_SIZE);
            && Piecewise(chunks + [chunk]) == Piecewise(chunks) + pieces
            && StreamFrames(r, head, true, chunks + [chunk])
               == StreamFrames(r, head, true, chunks) + ChunkFrames(r, |Piecewise(chunks)|, pieces)
  {
    var pieces := Pieces(chunk, CHUNK_SIZE);
    PiecewiseSnoc(chunks, chunk);
    ChunkFramesAppend(r, Piecewise(chunks), pieces);
    Regrouped([StartFrame(r, head, true)], ChunkFrames(r, 0, Piecewise(chunks)), ChunkFrames(r, |Piecewise(chunks)|, pieces));
  }

  lemma OnChunkGrammar(t: Task, chunk: bytes)
    requires t.phase.Streaming? && t.head.Some?
    requires t.phase.sequence == |Piecewise(t.produced)| && t.sent == StreamFrames(t.route, t.head.value, true, t.produced)
    ensures Grammar(OnChunk(t, chunk))
  {
    var t' := OnChunk(t, chunk);
    StreamFramesSnoc(t.route, t.head.value, t.produced, chunk);
    if t.aborted {
      assert t'.produced[..|t.produced|] == t.produced;
      assert t'.sent == StreamFrames(t'.route, t'.head.value, true, t'.produced[..|t.produced|]);
    }
  }

  /** Every way a local response can unfold keeps the grammar. */
  lemma AdvanceGrammar(t: Task, port: nat, ev: LocalEvent)
    requires Grammar(t) && Enabled(t, ev)
    ensures Grammar(Advance(t, port, ev))
    ensures t.sent <= Advance(t, port, ev).sent
  {
    match ev
    case Responds(head, first) =>
      var t' := Send(t.(phase := Streaming(0), head := Some(head)), [StartFrame(t.route, head, first.Some?)]);
      assert t'.sent == StreamFrames(t'.route, t'.head.value, first.Some?, []);
      if first.Some? {
        OnChunkGrammar(t', first.value);
      }
    case Yields(chunk) => OnChunkGrammar(t, chunk);
    case Ends =>
    case Fails(failure) =>
      if t.aborted && t.phase.Streaming? {
        assert t.produced[..|t.produced|] == t.produced;
      }
  }

  /** An aborted task sends no chunk frame, however it goes on, and stays aborted. */
  lemma AbortedSendsNoChunk(t: Task, port: nat, ev: LocalEvent)
    requires Enabled(t, ev) && t.aborted
    ensures Advance(t, port, ev).aborted
    ensures forall m :: m in NewFrames(t, Advance(t, port, ev)) ==> !m.ResponseChunk?
  {
  }

  // Whole runs

  datatype Event = Inbound(frame: Message) | Settled(task: nat, ev: LocalEvent)

  function Step(f: Forwarder, ev: Event): Forwarder {
    match ev
    case Inbound(m) => Handle(f, m)
    case Settled(n, e) => Local(f, n, e)
  }

  function Run(f: Forwarder, events: seq<Event>): Forwarder
    decreases |events|
  {
    if events == [] then f else Run(Step(f, events[0]), events[1..])
  }

  /** No other task answers the same request id. */
  ghost predicate Sole(f: Forwarder, n: nat)
    requires n < |f.tasks|
  {
    forall k :: 0 <= k < |f.tasks| && f.tasks[k].route.requestId == f.tasks[n].route.requestId ==> k == n
  }

  ghost predicate Known(f: Forwarder, id: string) {
    exists n :: 0 <= n < |f.tasks| && f.tasks[n].route.requestId == id
  }

  /** Every tracked task answers the id it is tracked under. */
  ghost predicate Answers(f: Forwarder) {
    forall id :: id in f.inFlight ==> f.inFlight[id] < |f.tasks| && f.tasks[f.inFlight[id]].route.requestId == id
  }

  /** An unfinished task that alone answers its id is the one a cancel of that id finds. */
  ghost predicate Tracked(f: Forwarder) {
    forall n :: 0 <= n < |f.tasks| && !f.tasks[n].phase.Finished? && Sole(f, n) ==>
      f.tasks[n].route.requestId in f.inFlight && f.inFlight[f.tasks[n].route.requestId] == n
  }

  /** The channel carries, for each request id, exactly what its task has sent. */
  ghost predicate Delivered(f: Forwarder) {
    && (forall n :: 0 <= n < |f.tasks| && Sole(f, n) ==> Project(f.outbox, f.tasks[n].route.requestId) == f.tasks[n].sent)
    && (forall id :: !Known(f, id) ==> Project(f.outbox, id) == [])
  }

  ghost predicate Inv(f: Forwarder) {
    && (forall n :: 0 <= n < |f.tasks| ==> Grammar(f.tasks[n]))
    && Answers(f) && Delivered(f) && Tracked(f)
  }

  lemma StreamBelongs(r: Route, head: ResponseHead, hasBody: bool, chunks: seq<bytes>)
    ensures forall m :: m in StreamFrames(r, head, hasBody, chunks) ==> m.Exchange() == Some(r.requestId)
  {
  }

  lemma SentBelongs(t: Task)
    requires Grammar(t)
    ensures forall m :: m in t.sent ==> m.Exchange() == Some(t.route.requestId)
  {
    match t.phase
    case AwaitingResponse =>
    case Streaming(_) => StreamBelongs(t.route, t.head.value, true, t.produced);
    case Finished(Completed) => StreamBelongs(t.route, t.head.value, t.produced != [], t.produced);
    case Finished(Failed) =>
      assert t.sent == t.sent[..|t.sent| - 1] + [t.sent[|t.sent| - 1]];
      if t.head.Some? {
        StreamBelongs(t.route, t.head.value, true, t.produced);
      }
    case Finished(Abandoned) =>
      if t.head.Some? {
        var k :| 0 <= k <= |t.produced| && t.sent == StreamFrames(t.route, t.head.value, true, t.produced[..k]);
        StreamBelongs(t.route, t.head.value, true, t.produced[..k]);
      }
  }

  /** Receiving sends nothing; a task that has just started has sent nothing. */
  lemma ReceiveDelivered(f: Forwarder, f': Forwarder)
    requires Delivered(f) && f'.outbox == f.outbox && |f.tasks| <= |f'.tasks|
    requires forall n :: 0 <= n < |f.tasks| ==> f'.tasks[n].route == f.tasks[n].route && f'.tasks[n].sent == f.tasks[n].sent
    requires forall n :: |f.tasks| <= n < |f'.tasks| ==> f'.tasks[n].sent == []
    ensures Delivered(f')
  {
    forall n | 0 <= n < |f'.tasks| && Sole(f', n)
      ensures Project(f'.outbox, f'.tasks[n].route.requestId) == f'.tasks[n].sent
    {
      var id := f'.tasks[n].route.requestId;
      forall k | 0 <= k < |f.tasks| && f.tasks[k].route.requestId == id
        ensures k == n
      {
        assert f'.tasks[k].route.requestId == id;
      }
      if n < |f.tasks| {
        assert Sole(f, n);
      } else {
        assert !Known(f, id);
      }
    }
    forall id | !Known(f', id)
      ensures !Known(f, id)
    {
      forall k | 0 <= k < |f.tasks|
        ensures f.tasks[k].route.requestId != id
      {
        assert f'.tasks[k].route.requestId != id;
      }
    }
  }

  lemma InitialInv(port: nat)
    ensures Inv(Initial(port))
  {
  }

  /** A task that is alone now was alone before. */
  lemma SoleBefore(f: Forwarder, f': Forwarder, n: nat)
    requires n < |f.tasks| <= |f'.tasks| && Sole(f', n)
    requires forall k :: 0 <= k < |f.tasks| ==> f'.tasks[k].route == f.tasks[k].route
    ensures Sole(f, n)
  {
    forall k | 0 <= k < |f.tasks| && f.tasks[k].route.requestId == f.tasks[n].route.requestId
      ensures k == n
    {
      assert f'.tasks[k].route.requestId == f'.tasks[n].route.requestId;
    }
  }

  lemma HandleTracked(f: Forwarder, m: Message)
    requires Tracked(f)
    ensures Tracked(Handle(f, m))
  {
    var f' := Handle(f, m);
    forall n | 0 <= n < |f'.tasks| && !f'.tasks[n].phase.Finished? && Sole(f', n)
      ensures f'.tasks[n].route.requestId in f'.inFlight && f'.inFlight[f'.tasks[n].route.requestId] == n
    {
      if n < |f.tasks| {
        SoleBefore(f, f', n);
        assert |f'.tasks| > |f.tasks| ==> f'.tasks[|f.tasks|].route.requestId != f'.tasks[n].route.requestId;
      }
    }
  }

  lemma LocalTracked(f: Forwarder, n: nat, ev: LocalEvent)
    requires Tracked(f)
    ensures Tracked(Local(f, n, ev))
  {
    var f' := Local(f, n, ev);
    forall k | 0 <= k < |f'.tasks| && !f'.tasks[k].phase.Finished? && Sole(f', k)
      ensures f'.tasks[k].route.requestId in f'.inFlight && f'.inFlight[f'.tasks[k].route.requestId] == k
    {
      SoleBefore(f, f', k);
      assert n < |f.tasks| && n != k ==> f'.tasks[n].route.requestId != f'.tasks[k].route.requestId;
    }
  }

  lemma AbortGrammar(t: Task)
    requires Grammar(t)
    ensures Grammar(t.(aborted := true))
  {
  }

  lemma HandleGrammar(f: Forwarder, m: Message)
    requires forall n :: 0 <= n < |f.tasks| ==> Grammar(f.tasks[n])
    ensures forall n :: 0 <= n < |Handle(f, m).tasks| ==> Grammar(Handle(f, m).tasks[n])
  {
    if m.Cancel? && m.requestId !in f.pending && m.requestId in f.inFlight && f.inFlight[m.requestId] < |f.tasks| {
      AbortGrammar(f.tasks[f.inFlight[m.requestId]]);
    }
  }

  lemma HandleAnswers(f: Forwarder, m: Message)
    requires Answers(f)
    ensures Answers(Handle(f, m))
  {
  }

  lemma HandleDelivered(f: Forwarder, m: Message)
    requires Delivered(f)
    ensures Delivered(Handle(f, m))
  {
    ReceiveDelivered(f, Handle(f, m));
  }

  lemma HandleInv(f: Forwarder, m: Message)
    requires Inv(f)
    ensures Inv(Handle(f, m))
  {
    HandleGrammar(f, m);
    HandleAnswers(f, m);
    HandleTracked(f, m);
    HandleDelivered(f, m);
  }

  lemma SendDelivered(f: Forwarder, f': Forwarder, n: nat, frames: seq<Message>)
    requires Delivered(f) && n < |f.tasks|
    requires |f'.tasks| == |f.tasks| && f'.tasks == f.tasks[n := f'.tasks[n]] && f'.tasks[n].route == f.tasks[n].route
    requires f'.tasks[n].sent == f.tasks[n].sent + frames && f'.outbox == f.outbox + frames
    requires forall m :: m in frames ==> m.Exchange() == Some(f.tasks[n].route.requestId)
    ensures Delivered(f')
  {
    forall k | 0 <= k < |f'.tasks|
      ensures f'.tasks[k].route == f.tasks[k].route
      ensures Sole(f', k) ==> Project(f'.outbox, f'.tasks[k].route.requestId) == f'.tasks[k].sent
    {
      var id := f'.tasks[k].route.requestId;
      ProjectAppend(f.outbox, frames, id);
      if Sole(f', k) {
        assert Sole(f, k) by {
          forall j | 0 <= j < |f.tasks| && f.tasks[j].route.requestId == f.tasks[k].route.requestId
            ensures j == k
          {
            assert f'.tasks[j].route.requestId == id;
          }
        }
        if k == n {
          ProjectAll(frames, id);
        } else {
          assert f'.tasks[n].route.requestId != id;
          ProjectNone(frames, id);
        }
      }
    }
    forall id | !Known(f', id)
      ensures Project(f'.outbox, id) == []
    {
      assert f'.tasks[n].route.requestId != id;
      ProjectNone(frames, id);
      ProjectAppend(f.outbox, frames, id);
      forall k | 0 <= k < |f.tasks|
        ensures f.tasks[k].route.requestId != id
      {
        assert f'.tasks[k].route.requestId != id;
      }
      assert !Known(f, id);
    }
  }

  lemma LocalGrammar(f: Forwarder, n: nat, ev: LocalEvent)
    requires (forall k :: 0 <= k < |f.tasks| ==> Grammar(f.tasks[k])) && n < |f.tasks| && Enabled(f.tasks[n], ev)
    ensures var f' := Local(f, n, ev);
            && (forall k :: 0 <= k < |f'.tasks| ==> Grammar(f'.tasks[k]))
            && |f'.tasks| == |f.tasks| && (forall k :: 0 <= k < |f.tasks| ==> f'.tasks[k].route == f.tasks[k].route)
            && f'.tasks[n].sent == f.tasks[n].sent + NewFrames(f.tasks[n], f'.tasks[n])
  {
    AdvanceGrammar(f.tasks[n], f.port, ev);
  }

  lemma LocalInv(f: Forwarder, n: nat, ev: LocalEvent)
    requires Inv(f)
    ensures Inv(Local(f, n, ev))
  {
    if n < |f.tasks| && Enabled(f.tasks[n], ev) {
      var f' := Local(f, n, ev);
      LocalGrammar(f, n, ev);
      LocalTracked(f, n, ev);
      SentBelongs(f'.tasks[n]);
      SendDelivered(f, f', n, NewFrames(f.tasks[n], f'.tasks[n]));
    }
  }

  lemma StepInv(f: Forwarder, ev: Event)
    requires Inv(f)
    ensures Inv(Step(f, ev))
  {
    match ev
    case Inbound(m) => HandleInv(f, m);
    case Settled(n, e) => LocalInv(f, n, e);
  }

  /** For every run, whatever the interleaving: each exchange's frames on the wire follow the grammar. */
  lemma {:induction false} RunInv(f: Forwarder, events: seq<Event>)
    requires Inv(f)
    ensures Inv(Run(f, events))
    decreases |events|
  {
    if events != [] {
      StepInv(f, events[0]);
      RunInv(Step(f, events[0]), events[1..]);
    }
  }

  /** For every sequence of frames and local events from the start. */
  lemma Reachable(port: nat, events: seq<Event>)
    ensures Inv(Run(Initial(port), events))
  {
    InitialInv(port);
    RunInv(Initial(port), events);
  }

  // After a cancel

  ghost predicate AllOver(f: Forwarder, id: string) {
    forall n :: 0 <= n < |f.tasks| && f.tasks[n].route.requestId == id ==> f.tasks[n].aborted || f.tasks[n].phase.Finished?
  }

  /** Nothing of this id is being assembled, and what was started for it is aborted or over. */
  ghost predicate Silenced(f: Forwarder, id: string) {
    id !in f.pending && AllOver(f, id)
  }

  ghost predicate AtMostOne(f: Forwarder, id: string) {
    forall n :: 0 <= n < |f.tasks| && f.tasks[n].route.requestId == id ==> Sole(f, n)
  }

  /**
   * A cancel silences its exchange, except that a cancel of an id whose next request is just being assembled drops that
   * request and leaves a task that still runs under the same id alone.
   */
  lemma CancelSilences(f: Forwarder, m: Message)
    requires Inv(f) && m.Cancel? && AtMostOne(f, m.requestId)
    ensures Silenced(Handle(f, m), m.requestId) <==> (m.requestId in f.pending ==> AllOver(f, m.requestId))
  {
    var id, f' := m.requestId, Handle(f, m);
    if id !in f.pending {
      forall n | 0 <= n < |f'.tasks| && f'.tasks[n].route.requestId == id
        ensures f'.tasks[n].aborted || f'.tasks[n].phase.Finished?
      {
        assert f.tasks[n].route.requestId == id && Sole(f, n);
      }
    }
  }

  predicate Chunk(m: Message, id: string) {
    m.ResponseChunk? && m.requestId == id
  }

  lemma AdvanceKeeps(t: Task, port: nat, ev: LocalEvent)
    requires Enabled(t, ev)
    ensures Advance(t, port, ev).route == t.route && Advance(t, port, ev).aborted == t.aborted
    ensures !t.phase.Finished?
  {
  }

  lemma LocalSilenced(f: Forwarder, n: nat, ev: LocalEvent, id: string)
    requires Silenced(f, id)
    ensures Silenced(Local(f, n, ev), id)
  {
    if n < |f.tasks| && Enabled(f.tasks[n], ev) {
      AdvanceKeeps(f.tasks[n], f.port, ev);
      var f' := Local(f, n, ev);
      forall k | 0 <= k < |f'.tasks| && f'.tasks[k].route.requestId == id
        ensures f'.tasks[k].aborted || f'.tasks[k].phase.Finished?
      {
        assert f.tasks[k].route.requestId == id;
      }
    }
  }

  lemma HandleSilenced(f: Forwarder, m: Message, id: string)
    requires Silenced(f, id) && !(m.RequestStart? && m.requestId == id)
    ensures Silenced(Handle(f, m), id)
  {
    var f' := Handle(f, m);
    forall k | 0 <= k < |f'.tasks| && f'.tasks[k].route.requestId == id
      ensures f'.tasks[k].aborted || f'.tasks[k].phase.Finished?
    {
      assert k < |f.tasks| && f.tasks[k].route.requestId == id;
    }
  }

  lemma NewFramesBelong(t: Task, t': Task)
    requires Grammar(t') && t.sent <= t'.sent
    ensures forall m :: m in NewFrames(t, t') ==> m.Exchange() == Some(t'.route.requestId)
  {
    SentBelongs(t');
    assert forall m :: m in t'.sent[|t.sent|..] ==> m in t'.sent;
  }

  /** A silenced exchange sends no chunk, and any other one only its own. */
  lemma NewFramesSilent(t: Task, port: nat, ev: LocalEvent, id: string)
    requires Grammar(t) && Enabled(t, ev) && (t.route.requestId == id ==> t.aborted)
    ensures forall m :: m in NewFrames(t, Advance(t, port, ev)) ==> !Chunk(m, id)
  {
    if t.route.requestId == id {
      AbortedSendsNoChunk(t, port, ev);
    } else {
      AdvanceGrammar(t, port, ev);
      AdvanceKeeps(t, port, ev);
      NewFramesBelong(t, Advance(t, port, ev));
    }
  }

  /** The request id is used for another request. */
  predicate Reopens(ev: Event, id: string) {
    ev.Inbound? && ev.frame.RequestStart? && ev.frame.requestId == id
  }

  lemma StepSilent(f: Forwarder, ev: Event, id: string)
    requires (forall n :: 0 <= n < |f.tasks| ==> Grammar(f.tasks[n])) && Silenced(f, id) && !Reopens(ev, id)
    ensures Silenced(Step(f, ev), id) && f.outbox <= Step(f, ev).outbox
    ensures forall m :: m in Step(f, ev).outbox[|f.outbox|..] ==> !Chunk(m, id)
  {
    match ev
    case Inbound(m) => HandleSilenced(f, m, id);
    case Settled(n, e) =>
      LocalSilenced(f, n, e, id);
      if n < |f.tasks| && Enabled(f.tasks[n], e) {
        AdvanceKeeps(f.tasks[n], f.port, e);
        NewFramesSilent(f.tasks[n], f.port, e, id);
      }
  }

  lemma {:induction false} SilencedForGood(f: Forwarder, events: seq<Event>, id: string)
    requires Inv(f) && Silenced(f, id) && forall i :: 0 <= i < |events| ==> !Reopens(events[i], id)
    ensures Silenced(Run(f, events), id) && f.outbox <= Run(f, events).outbox
    ensures forall m :: m in Run(f, events).outbox[|f.outbox|..] ==> !Chunk(m, id)
    decreases |events|
  {
    if events != [] {
      var g, h := Step(f, events[0]), Run(f, events);
      StepSilent(f, events[0], id);
      StepInv(f, events[0]);
      SilencedForGood(g, events[1..], id);
      assert h.outbox[|f.outbox|..] == g.outbox[|f.outbox|..] + h.outbox[|g.outbox|..];
    }
  }

  /**
   * Once a cancel has been processed, no chunk frame of its exchange is sent in any continuation, whatever arrives and
   * whatever the local application does, until the id is used for another request.
   */
  lemma NoChunkAfterCancel(f: Forwarder, cancel: Message, events: seq<Event>)
    requires Inv(f) && cancel.Cancel? && AtMostOne(f, cancel.requestId)
    requires cancel.requestId in f.pending ==> AllOver(f, cancel.requestId)
    requires forall i :: 0 <= i < |events| ==> !Reopens(events[i], cancel.requestId)
    ensures var g := Run(f, [Inbound(cancel)] + events);
            && f.outbox <= g.outbox
            && forall m :: m in g.outbox[|f.outbox|..] ==> !Chunk(m, cancel.requestId)
  {
    CancelSilences(f, cancel);
    HandleInv(f, cancel);
    SilencedForGood(Handle(f, cancel), events, cancel.requestId);
    assert ([Inbound(cancel)] + events)[1..] == events;
  }

  /** A frame or a local event of one exchange never touches a task of another. */
  lemma OtherTasksUntouched(f: Forwarder, ev: Event, k: nat)
    requires k < |f.tasks|
    requires forall id :: id in f.inFlight && f.inFlight[id] < |f.tasks| ==> f.tasks[f.inFlight[id]].route.requestId == id
    requires match ev
             case Inbound(m) => m.Exchange() != Some(f.tasks[k].route.requestId)
             case Settled(n, _) => n != k
    ensures Step(f, ev).tasks[k] == f.tasks[k]
  {
  }

  /** Serves forwarded requests; every method is one synchronous stretch of the original between two waits. */
  class RequestForwarder {
    const port: nat
    var pending: map<string, Assembling>
    var inFlight: map<string, nat>
    var tasks: seq<Task>
    var outbox: seq<Message>

    ghost function View(): Forwarder
      reads this
    {
      Forwarder(port, pending, inFlight, tasks, outbox)
    }

    constructor (port: nat)
      ensures View() == Initial(port)
    {
      this.port := port;
      pending, inFlight, tasks, outbox := map[], map[], [], [];
    }

    /** Hands the reassembled request to the local application and waits for its answer. */
    method Respond(id: string, exchange: Assembling)
      modifies this`inFlight, this`tasks
      ensures inFlight == old(inFlight)[id := |old(tasks)|] && tasks == old(tasks) + [NewTask(id, exchange)]
    {
      inFlight := inFlight[id := |tasks|];
      var body := ConcatChunks(exchange.chunks);
      tasks := tasks + [Task(Route(id, exchange.tunnelId), exchange.request, body, false, AwaitingResponse, None, [], [])];
    }

    method HandleFrame(m: Message)
      modifies this
      ensures View() == Handle(old(View()), m)
    {
      match m {
        case RequestStart(id, tunnelId, request, _) =>
          pending := pending[id := Assembling(tunnelId, request, [])];
        case RequestChunk(id, _, _, encoding, data) =>
          if id in pending {
            var exchange := pending[id];
            pending := pending[id := exchange.(chunks := exchange.chunks + [DecodeBodyChunk(encoding, data)])];
          }
        case RequestEnd(id, _) =>
          if id in pending {
            var exchange := pending[id];
            pending := pending - {id};
            Respond(id, exchange);
          }
        case Cancel(id, _, _) =>
          if id in pending {
            pending := pending - {id};
            return;
          }
          if id in inFlight && inFlight[id] < |tasks| {
            var n := inFlight[id];
            tasks := tasks[n := tasks[n].(aborted := true)];
          }
        case _ =>
      }
    }

    method SendFrames(n: nat, frames: seq<Message>)
      requires n < |tasks|
      modifies this`tasks, this`outbox
      ensures tasks == old(tasks)[n := Send(old(tasks)[n], frames)] && outbox == old(outbox) + frames
    {
      tasks := tasks[n := tasks[n].(sent := tasks[n].sent + frames)];
      outbox := outbox + frames;
    }

    method Finish(n: nat, outcome: Outcome)
      requires n < |tasks|
      modifies this`tasks, this`inFlight
      ensures tasks == old(tasks)[n := old(tasks)[n].(phase := Finished(outcome))]
      ensures inFlight == old(inFlight) - {old(tasks)[n].route.requestId}
    {
      tasks := tasks[n := tasks[n].(phase := Finished(outcome))];
      inFlight := inFlight - {tasks[n].route.requestId};
    }

    /** The streaming loop on one chunk: nothing is sent once the exchange was aborted. */
    method StreamChunk(n: nat, chunk: bytes)
      requires n < |tasks| && tasks[n].phase.Streaming?
      modifies this`tasks, this`inFlight, this`outbox
      ensures tasks == old(tasks)[n := OnChunk(old(tasks)[n], chunk)]
      ensures outbox == old(outbox) + NewFrames(old(tasks)[n], tasks[n])
      ensures inFlight == if tasks[n].phase.Finished? then old(inFlight) - {tasks[n].route.requestId} else old(inFlight)
    {
      tasks := tasks[n := tasks[n].(produced := tasks[n].produced + [chunk])];
      if tasks[n].aborted {
        Finish(n, Abandoned);
        return;
      }
      var route, first := tasks[n].route, tasks[n].phase.sequence;
      var pieces := SplitBytes(chunk, CHUNK_SIZE);
      var sequence := first;
      var frames: seq<Message> := [];
      for i := 0 to |pieces|
        invariant sequence == first + i
        invariant frames == ChunkFrames(route, first, pieces)[..i]
      {
        var encoded := EncodeBodyChunk(pieces[i]);
        frames := frames + [ResponseChunk(route.requestId, route.tunnelId, sequence, encoded.encoding, encoded.data)];
        sequence := sequence + 1;
      }
      assert frames == ChunkFrames(route, first, pieces);
      tasks := tasks[n := tasks[n].(phase := Streaming(sequence))];
      SendFrames(n, frames);
    }

    lemma OnChunkExtends(t: Task, chunk: bytes)
      requires t.phase.Streaming?
      ensures OnChunk(t, chunk).sent == t.sent + NewFrames(t, OnChunk(t, chunk))
    {
    }

    /** Frames sent in two steps, on the channel and in the task. */
    lemma SentInTwo(outbox: seq<Message>, sent: seq<Message>, a: seq<Message>, b: seq<Message>)
      ensures (outbox + a) + b == outbox + (a + b)
      ensures ((sent + a) + b)[|sent|..] == a + b
    {
    }

    method LocalResponse(n: nat, head: ResponseHead, first: Option<bytes>)
      requires n < |tasks| && tasks[n].phase.AwaitingResponse?
      modifies this`tasks, this`inFlight, this`outbox
      ensures tasks == old(tasks)[n := OnResponse(old(tasks)[n], head, first)]
      ensures outbox == old(outbox) + NewFrames(old(tasks)[n], tasks[n])
      ensures inFlight == if tasks[n].phase.Finished? then old(inFlight) - {tasks[n].route.requestId} else old(inFlight)
    {
      ghost var sent := tasks[n].sent;
      tasks := tasks[n := tasks[n].(phase := Streaming(0), head := Some(head))];
      SendFrames(n, [StartFrame(tasks[n].route, head, first.Some?)]);
      ghost var start := [StartFrame(tasks[n].route, head, first.Some?)];
      if first.Some? {
        ghost var started := tasks[n];
        StreamChunk(n, first.value);
        OnChunkExtends(started, first.value);
        SentInTwo(old(outbox), sent, start, NewFrames(started, tasks[n]));
      } else {
        SendFrames(n, [EndFrame(tasks[n].route)]);
        Finish(n, Completed);
        SentInTwo(old(outbox), sent, start, [EndFrame(tasks[n].route)]);
      }
    }

    method LocalFailure(n: nat, failure: Option<string>)
      requires n < |tasks| && !tasks[n].phase.Finished?
      modifies this`tasks, this`inFlight, this`outbox
      ensures tasks == old(tasks)[n := OnFailure(old(tasks)[n], port, failure)]
      ensures outbox == old(outbox) + NewFrames(old(tasks)[n], tasks[n])
      ensures inFlight == old(inFlight) - {tasks[n].route.requestId}
    {
      if !tasks[n].aborted {
        SendFrames(n, [ErrorFrame(tasks[n].route, port, failure)]);
        Finish(n, Failed);
      } else {
        Finish(n, Abandoned);
      }
    }

    method LocalSettled(n: nat, ev: LocalEvent)
      modifies this
      ensures View() == Local(old(View()), n, ev)
    {
      if n >= |tasks| || !Enabled(tasks[n], ev) {
        return;
      }
      match ev {
        case Responds(head, first) =>
          LocalResponse(n, head, first);
        case Yields(chunk) =>
          StreamChunk(n, chunk);
        case Ends =>
          SendFrames(n, [EndFrame(tasks[n].route)]);
          Finish(n, Completed);
        case Fails(failure) =>
          LocalFailure(n, failure);
      }
    }
  }
}
