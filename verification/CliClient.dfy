/** The CLI's WebSocket client: one mailbox with at most one waiter, and a retry machine. */
module CliClient {
  import opened Bytes
  import opened Messages

  type Socket = nat

  datatype ConnectionState = Disconnected | Connecting | Connected | Disconnecting | Reconnecting

  /** A control message with its place in the order of arrival. */
  datatype Arrival = Arrival(stamp: nat, message: Message)

  /** Who continues when a wait or a dial settles; `Nobody` is a wait whose caller has already given up. */
  datatype Owner = Caller | CallerTunnel(port: int) | Attempt(n: nat) | Nobody

  datatype Waiter = Waiter(matches: Message -> bool, owner: Owner)

  datatype Phase = Dialing | AwaitingConnected | AwaitingTunnel(port: int) | Over

  /** A `connect()` in progress; the socket exists once the credentials are in. */
  datatype Dial = Dial(owner: Owner, socket: Option<Socket>, settled: bool)

  datatype ActiveTunnel = ActiveTunnel(port: int, tunnelId: string, publicUrl: string)

  datatype Client = Client(
    reconnect: bool,
    state: ConnectionState,
    socket: Option<Socket>,
    sockets: nat,
    listening: set<Socket>,
    bound: set<Socket>,
    closing: set<Socket>,
    inbox: seq<Arrival>,
    arrived: nat,
    consumed: seq<Arrival>,
    waiter: Option<Waiter>,
    intentionalClose: bool,
    timerArmed: bool,
    inFlight: bool,
    activeTunnel: Option<ActiveTunnel>,
    attempts: seq<Phase>,
    dials: seq<Dial>,
    forwarded: seq<Message>)

  function Initial(reconnect: bool): Client {
    Client(reconnect, Disconnected, None, 0, {}, {}, {}, [], 0, [], None, false, false, false, None, [], [], [])
  }

  // Mailbox

  /** Index of the first buffered message that matches, or the inbox length. */
  function FindIndex(inbox: seq<Arrival>, matches: Message -> bool): (i: nat)
    ensures i <= |inbox|
    ensures i < |inbox| ==> matches(inbox[i].message)
    ensures forall k :: 0 <= k < i ==> !matches(inbox[k].message)
  {
    if inbox == [] || matches(inbox[0].message) then 0 else 1 + FindIndex(inbox[1..], matches)
  }

  datatype WaitResult = Delivered(message: Message) | Busy | Pending

  /** `waitForMessage`: a buffered match first, else the one waiter slot if it is free. */
  function WaitFor(c: Client, w: Waiter): (r: (Client, WaitResult)) {
    var i := FindIndex(c.inbox, w.matches);
    if i < |c.inbox| then
      (c.(inbox := c.inbox[..i] + c.inbox[i + 1..], consumed := c.consumed + [c.inbox[i]]), Delivered(c.inbox[i].message))
    else if c.waiter.Some? then (c, Busy)
    else (c.(waiter := Some(w)), Pending)
  }

  predicate IsForwarding(m: Message) {
    m.RequestStart? || m.RequestChunk? || m.RequestEnd? || m.Cancel?
  }

  predicate WaitedFor(c: Client, m: Message) {
    c.waiter.Some? && c.waiter.value.matches(m)
  }

  /** `deliver`: data-plane frames pass by, a matching waiter is settled, a lone pong is dropped, the rest is kept. */
  function Deliver(c: Client, m: Message): Client {
    if IsForwarding(m) then c.(forwarded := c.forwarded + [m])
    else
      var a := Arrival(c.arrived, m);
      var d := c.(arrived := c.arrived + 1);
      if WaitedFor(c, m) then d.(waiter := None, consumed := c.consumed + [a])
      else if m.Pong? then d
      else d.(inbox := c.inbox + [a])
  }

  // Connection

  function Dispose(c: Client): Client {
    c.(listening := if c.socket.Some? then c.listening - {c.socket.value} else c.listening, socket := None, inbox := [])
  }

  function BeginConnect(c: Client, owner: Owner): Client {
    c.(intentionalClose := false, state := Connecting, dials := c.dials + [Dial(owner, None, false)])
  }

  function Disconnect(c: Client): Client {
    var d := c.(intentionalClose := true, timerArmed := false, inFlight := false);
    if d.socket.None? || d.state.Disconnected? || d.state.Reconnecting? then d.(state := Disconnected)
    else d.(state := Disconnecting, closing := d.closing + {d.socket.value})
  }

  /** A `disconnect` that waits for this socket hears of its close last. */
  function CloseAwaited(c: Client, s: Socket): Client {
    if s in c.closing then Dispose(c).(state := Disconnected) else c
  }

  function ScheduleReconnect(c: Client): Client {
    if !c.reconnect || c.intentionalClose || c.timerArmed || c.inFlight then c
    else c.(state := Reconnecting, timerArmed := true)
  }

  // The continuation of a reconnect attempt

  function EndAttempt(c: Client, n: nat): Client {
    c.(inFlight := false, attempts := if n < |c.attempts| then c.attempts[n := Over] else c.attempts)
  }

  function FailAttempt(c: Client, n: nat): Client {
    ScheduleReconnect(Dispose(EndAttempt(c, n)).(state := Disconnected))
  }

  function SetPhase(c: Client, n: nat, phase: Phase): Client {
    c.(attempts := if n < |c.attempts| then c.attempts[n := phase] else c.attempts)
  }

  function IsConnected(m: Message): bool {
    m.Connected?
  }

  function ReplyTo(requestId: string): Message -> bool {
    (m: Message) => (m.TunnelCreated? && m.requestId == requestId) || (m.Error? && m.failedRequestId == Some(requestId))
  }

  /** What a continuation finds in its surroundings: the id it mints and whether the socket still takes frames. */
  datatype Surroundings = Surroundings(requestId: string, canSend: bool)

  function TunnelReply(c: Client, n: nat, port: int, m: Message): Client {
    if m.TunnelCreated? then
      EndAttempt(c.(activeTunnel := Some(ActiveTunnel(port, m.tunnelId, m.publicUrl))), n)
    else FailAttempt(c, n)
  }

  /** The wait for the reply begins before the request is sent, and outlives a failure to send it. */
  function Asked(c: Client, n: nat, port: int, w: Waiter, canSend: bool): Client {
    var (d, r) := WaitFor(c, w);
    if !canSend then FailAttempt(if r.Pending? then d.(waiter := Some(d.waiter.value.(owner := Nobody))) else d, n)
    else match r
      case Delivered(m) => TunnelReply(d, n, port, m)
      case Busy => FailAttempt(d, n)
      case Pending => SetPhase(d, n, AwaitingTunnel(port))
  }

  /** After the greeting: end without a session, else ask for the previous tunnel again. */
  function Greeted(c: Client, n: nat, env: Surroundings): Client {
    if c.activeTunnel.None? then EndAttempt(c, n)
    else
      Asked(c, n, c.activeTunnel.value.port, Waiter(ReplyTo(env.requestId), Attempt(n)),
            env.canSend && c.socket.Some? && c.state.Connected?)
  }

  function Dialed(c: Client, n: nat, env: Surroundings): Client {
    var (d, r) := WaitFor(c, Waiter(IsConnected, Attempt(n)));
    match r
    case Delivered(_) => Greeted(d, n, env)
    case Busy => FailAttempt(d, n)
    case Pending => SetPhase(d, n, AwaitingConnected)
  }

  /** A wait is settled by a message and its owner continues. */
  function Continue(c: Client, owner: Owner, m: Message, env: Surroundings): Client {
    match owner
    case CallerTunnel(port) =>
      if m.TunnelCreated? then c.(activeTunnel := Some(ActiveTunnel(port, m.tunnelId, m.publicUrl))) else c
    case Attempt(n) =>
      if n >= |c.attempts| then c
      else if c.attempts[n].AwaitingConnected? then Greeted(c, n, env)
      else if c.attempts[n].AwaitingTunnel? then TunnelReply(c, n, c.attempts[n].port, m)
      else c
    case _ => c
  }

  /** A wait or a dial is rejected and its owner continues. */
  function Rejected(c: Client, owner: Owner): Client {
    if owner.Attempt? then FailAttempt(c, owner.n) else c
  }

  function WaiterOwner(c: Client): Owner {
    if c.waiter.Some? then c.waiter.value.owner else Nobody
  }

  /** The running socket is gone, with whoever waits for a message; a retry is due unless the close was intended. */
  function Lost(c: Client, s: Socket): Client {
    var d := Dispose(c.(waiter := None, listening := c.listening - {s})).(state := Disconnected);
    if c.intentionalClose then d else ScheduleReconnect(d)
  }

  datatype Event =
    | CallerConnects
    | CallerWaits(waiter: Waiter)
    | CallerDisconnects
    | CredentialsReady(d: nat)
    | HandshakeSucceeds(d: nat, env: Surroundings)
    | HandshakeFails(d: nat)
    | Receives(s: Socket, m: Message, env: Surroundings)
    | SocketCloses(s: Socket)
    | WaitTimesOut
    | TimerFires

  predicate Shaking(c: Client, d: nat) {
    d < |c.dials| && c.dials[d].socket.Some? && !c.dials[d].settled && c.dials[d].socket.value in c.listening
  }

  /** One step of the client; an event that cannot happen changes nothing. */
  function Step(c: Client, ev: Event): Client {
    match ev
    case CallerConnects =>
      if c.state.Connected? || c.state.Connecting? then c else BeginConnect(c, Caller)
    case CallerWaits(w) =>
      if w.owner.Attempt? then c
      else
        var (d, r) := WaitFor(c, w);
        if r.Delivered? then Continue(d, w.owner, r.message, Surroundings("", false)) else d
    case CallerDisconnects => Disconnect(c)
    case CredentialsReady(d) =>
      if d < |c.dials| && c.dials[d].socket.None? && !c.dials[d].settled then
        c.(socket := Some(c.sockets), sockets := c.sockets + 1, listening := c.listening + {c.sockets},
           dials := c.dials[d := c.dials[d].(socket := Some(c.sockets))])
      else c
    case HandshakeSucceeds(d, env) =>
      if Shaking(c, d) then
        var e := c.(state := ConnectionState.Connected, bound := c.bound + {c.dials[d].socket.value},
                    dials := c.dials[d := c.dials[d].(settled := true)]);
        if c.dials[d].owner.Attempt? then Dialed(e, c.dials[d].owner.n, env) else e
      else c
    case HandshakeFails(d) =>
      if Shaking(c, d) then
        Rejected(Dispose(c).(state := Disconnected, dials := c.dials[d := c.dials[d].(settled := true)]), c.dials[d].owner)
      else c
    case Receives(s, m, env) =>
      if s !in c.listening then c
      else if IsForwarding(m) || !WaitedFor(c, m) then Deliver(c, m)
      else Continue(Deliver(c, m), WaiterOwner(c), m, env)
    case SocketCloses(s) =>
      if s in c.listening && s in c.bound then
        Rejected(CloseAwaited(Lost(c, s), s), WaiterOwner(c))
      else c
    case WaitTimesOut =>
      if c.waiter.Some? then Rejected(c.(waiter := None), WaiterOwner(c)) else c
    case TimerFires =>
      if !c.timerArmed then c
      else
        var d := c.(timerArmed := false);
        if d.intentionalClose || !d.reconnect then d.(state := Disconnected)
        else BeginConnect(d.(inFlight := true, attempts := d.attempts + [Dialing]), Attempt(|d.attempts|))
  }

  function Run(c: Client, events: seq<Event>): Client
    decreases |events|
  {
    if events == [] then c else Run(Step(c, events[0]), events[1..])
  }

  // What holds in every reachable state

  /** A waiter never coexists with a buffered message it would take. */
  ghost predicate NoMissedMessage(c: Client) {
    c.waiter.Some? ==> forall k :: 0 <= k < |c.inbox| ==> !c.waiter.value.matches(c.inbox[k].message)
  }

  /** The inbox is in order of arrival, and no message is both buffered and consumed, or consumed twice. */
  ghost predicate OnceInOrder(c: Client) {
    && (forall i, j :: 0 <= i < j < |c.inbox| ==> c.inbox[i].stamp < c.inbox[j].stamp)
    && (forall k :: 0 <= k < |c.inbox| ==> c.inbox[k].stamp < c.arrived)
    && (forall k :: 0 <= k < |c.consumed| ==> c.consumed[k].stamp < c.arrived)
    && (forall i, j :: 0 <= i < j < |c.consumed| ==> c.consumed[i].stamp != c.consumed[j].stamp)
    && (forall i, k :: 0 <= i < |c.inbox| && 0 <= k < |c.consumed| ==> c.inbox[i].stamp != c.consumed[k].stamp)
  }

  /** A retry timer is armed only when retries are wanted and the in-flight flag is clear. */
  ghost predicate RetrySafe(c: Client) {
    c.timerArmed ==> !c.inFlight && !c.intentionalClose && c.reconnect
  }

  ghost predicate Safe(c: Client) {
    NoMissedMessage(c) && OnceInOrder(c) && RetrySafe(c)
  }

  ghost predicate TakesAt(c: Client, w: Waiter, d: Client, m: Message, i: nat)
    requires i < |c.inbox|
  {
    && c.inbox[i].message == m && w.matches(m)
    && (forall k :: 0 <= k < i ==> !w.matches(c.inbox[k].message))
    && d.consumed == c.consumed + [c.inbox[i]] && d.inbox == c.inbox[..i] + c.inbox[i + 1..]
  }

  ghost predicate TakesEarliest(c: Client, w: Waiter, d: Client, m: Message) {
    exists i :: 0 <= i < |c.inbox| && TakesAt(c, w, d, m, i)
  }

  lemma TakenOrdered(c: Client, d: Client, i: nat)
    requires OnceInOrder(c) && i < |c.inbox| && d.arrived == c.arrived
    requires d.inbox == c.inbox[..i] + c.inbox[i + 1..] && d.consumed == c.consumed + [c.inbox[i]]
    ensures OnceInOrder(d)
  {
    forall k | 0 <= k < |d.inbox|
      ensures d.inbox[k] == c.inbox[if k < i then k else k + 1]
    {
    }
  }

  lemma WaitMisses(c: Client, w: Waiter)
    requires NoMissedMessage(c)
    ensures NoMissedMessage(WaitFor(c, w).0)
  {
    var i, d := FindIndex(c.inbox, w.matches), WaitFor(c, w).0;
    if i < |c.inbox| {
      forall k | 0 <= k < |d.inbox|
        ensures d.inbox[k] == c.inbox[if k < i then k else k + 1]
      {
      }
    }
  }

  lemma WaitForKeeps(c: Client, w: Waiter)
    requires Safe(c)
    ensures Safe(WaitFor(c, w).0)
  {
    WaitMisses(c, w);
    var i := FindIndex(c.inbox, w.matches);
    if i < |c.inbox| {
      TakenOrdered(c, WaitFor(c, w).0, i);
    }
  }

  /** A wait takes the earliest buffered match and leaves the others in order. */
  lemma WaitForSafe(c: Client, w: Waiter)
    requires Safe(c)
    ensures Safe(WaitFor(c, w).0)
    ensures WaitFor(c, w).1.Delivered? ==> TakesEarliest(c, w, WaitFor(c, w).0, WaitFor(c, w).1.message)
    ensures !WaitFor(c, w).1.Delivered? ==> forall k :: 0 <= k < |c.inbox| ==> !w.matches(c.inbox[k].message)
  {
    WaitForKeeps(c, w);
    var i := FindIndex(c.inbox, w.matches);
    if i < |c.inbox| {
      assert TakesAt(c, w, WaitFor(c, w).0, c.inbox[i].message, i);
    }
  }

  lemma DeliverMisses(c: Client, m: Message)
    requires NoMissedMessage(c)
    ensures NoMissedMessage(Deliver(c, m))
  {
  }

  lemma DeliverOrdered(c: Client, m: Message)
    requires OnceInOrder(c)
    ensures OnceInOrder(Deliver(c, m))
  {
    var a := Arrival(c.arrived, m);
    if !IsForwarding(m) && WaitedFor(c, m) {
      assert Deliver(c, m).consumed == c.consumed + [a] && Deliver(c, m).inbox == c.inbox;
    } else if !IsForwarding(m) && !m.Pong? {
      assert Deliver(c, m).inbox == c.inbox + [a] && Deliver(c, m).consumed == c.consumed;
    }
  }

  lemma DeliverSafe(c: Client, m: Message)
    requires Safe(c)
    ensures Safe(Deliver(c, m))
  {
    DeliverMisses(c, m);
    DeliverOrdered(c, m);
  }

  /** Keeping or emptying the inbox, and keeping or dropping the waiter, endangers no message. */
  lemma QuietSafe(c: Client, d: Client)
    requires Safe(c) && RetrySafe(d)
    requires d.arrived == c.arrived && d.consumed == c.consumed && (d.inbox == c.inbox || d.inbox == [])
    requires d.waiter.Some? ==> c.waiter.Some? && d.waiter.value.matches == c.waiter.value.matches
    ensures Safe(d)
  {
  }

  lemma FailAttemptSafe(c: Client, n: nat)
    requires Safe(c)
    ensures Safe(FailAttempt(c, n))
  {
    QuietSafe(c, FailAttempt(c, n));
  }

  lemma RejectedSafe(c: Client, owner: Owner)
    requires Safe(c)
    ensures Safe(Rejected(c, owner))
  {
    if owner.Attempt? {
      FailAttemptSafe(c, owner.n);
    }
  }

  lemma TunnelReplySafe(c: Client, n: nat, port: int, m: Message)
    requires Safe(c)
    ensures Safe(TunnelReply(c, n, port, m))
  {
    FailAttemptSafe(c, n);
    QuietSafe(c, TunnelReply(c, n, port, m));
  }

  /** However the wait for the tunnel's reply goes on, nothing is lost. */
  lemma AwaitReplySafe(d: Client, n: nat, port: int)
    requires Safe(d)
    ensures Safe(FailAttempt(d, n))
    ensures d.waiter.Some? ==>
              && Safe(FailAttempt(d.(waiter := Some(d.waiter.value.(owner := Nobody))), n))
              && Safe(SetPhase(d, n, AwaitingTunnel(port)))
  {
    FailAttemptSafe(d, n);
    if d.waiter.Some? {
      var abandoned := d.(waiter := Some(d.waiter.value.(owner := Nobody)));
      QuietSafe(d, abandoned);
      FailAttemptSafe(abandoned, n);
      QuietSafe(d, SetPhase(d, n, AwaitingTunnel(port)));
    }
  }

  lemma AskedSafe(c: Client, n: nat, port: int, w: Waiter, canSend: bool)
    requires Safe(c)
    ensures Safe(Asked(c, n, port, w, canSend))
  {
    var (d, r) := WaitFor(c, w);
    WaitForKeeps(c, w);
    AwaitReplySafe(d, n, port);
    if r.Delivered? {
      TunnelReplySafe(d, n, port, r.message);
    }
  }

  lemma GreetedSafe(c: Client, n: nat, env: Surroundings)
    requires Safe(c)
    ensures Safe(Greeted(c, n, env))
  {
    if c.activeTunnel.Some? {
      AskedSafe(c, n, c.activeTunnel.value.port, Waiter(ReplyTo(env.requestId), Attempt(n)),
                env.canSend && c.socket.Some? && c.state.Connected?);
    } else {
      QuietSafe(c, EndAttempt(c, n));
    }
  }

  lemma DialedSafe(c: Client, n: nat, env: Surroundings)
    requires Safe(c)
    ensures Safe(Dialed(c, n, env))
  {
    var (d, r) := WaitFor(c, Waiter(IsConnected, Attempt(n)));
    WaitForSafe(c, Waiter(IsConnected, Attempt(n)));
    match r
    case Delivered(_) => GreetedSafe(d, n, env);
    case Busy => FailAttemptSafe(d, n);
    case Pending => QuietSafe(d, SetPhase(d, n, AwaitingConnected));
  }

  lemma ContinueSafe(c: Client, owner: Owner, m: Message, env: Surroundings)
    requires Safe(c)
    ensures Safe(Continue(c, owner, m, env))
  {
    if owner.Attempt? && owner.n < |c.attempts| {
      GreetedSafe(c, owner.n, env);
      if c.attempts[owner.n].AwaitingTunnel? {
        TunnelReplySafe(c, owner.n, c.attempts[owner.n].port, m);
      }
    } else {
      QuietSafe(c, Continue(c, owner, m, env));
    }
  }

  lemma HandshakeSafe(c: Client, d: nat, env: Surroundings)
    requires Safe(c) && Shaking(c, d)
    ensures Safe(Step(c, HandshakeSucceeds(d, env))) && Safe(Step(c, HandshakeFails(d)))
  {
    var dial := c.dials[d];
    var up := c.(state := ConnectionState.Connected, bound := c.bound + {dial.socket.value}, dials := c.dials[d := dial.(settled := true)]);
    var down := Dispose(c).(state := Disconnected, dials := c.dials[d := dial.(settled := true)]);
    QuietSafe(c, up);
    QuietSafe(c, down);
    RejectedSafe(down, dial.owner);
    if dial.owner.Attempt? {
      DialedSafe(up, dial.owner.n, env);
    }
  }

  lemma SocketClosesSafe(c: Client, s: Socket)
    requires Safe(c) && s in c.listening && s in c.bound
    ensures Safe(Step(c, SocketCloses(s)))
  {
    QuietSafe(c, Lost(c, s));
    QuietSafe(Lost(c, s), CloseAwaited(Lost(c, s), s));
    RejectedSafe(CloseAwaited(Lost(c, s), s), WaiterOwner(c));
  }

  lemma CallerWaitsSafe(c: Client, w: Waiter)
    requires Safe(c)
    ensures Safe(Step(c, CallerWaits(w)))
  {
    WaitForSafe(c, w);
    var (d, r) := WaitFor(c, w);
    if r.Delivered? && !w.owner.Attempt? {
      ContinueSafe(d, w.owner, r.message, Surroundings("", false));
    }
  }

  lemma ReceivesSafe(c: Client, s: Socket, m: Message, env: Surroundings)
    requires Safe(c)
    ensures Safe(Step(c, Receives(s, m, env)))
  {
    DeliverSafe(c, m);
    ContinueSafe(Deliver(c, m), WaiterOwner(c), m, env);
  }

  lemma StepSafe(c: Client, ev: Event)
    requires Safe(c)
    ensures Safe(Step(c, ev))
  {
    match ev
    case CallerConnects => QuietSafe(c, Step(c, ev));
    case CallerWaits(w) => CallerWaitsSafe(c, w);
    case CallerDisconnects => QuietSafe(c, Step(c, ev));
    case CredentialsReady(d) => QuietSafe(c, Step(c, ev));
    case HandshakeSucceeds(d, env) =>
      if Shaking(c, d) {
        HandshakeSafe(c, d, env);
      }
    case HandshakeFails(d) =>
      if Shaking(c, d) {
        HandshakeSafe(c, d, Surroundings("", false));
      }
    case Receives(s, m, env) => ReceivesSafe(c, s, m, env);
    case SocketCloses(s) =>
      if s in c.listening && s in c.bound {
        SocketClosesSafe(c, s);
      }
    case WaitTimesOut =>
      QuietSafe(c, c.(waiter := None));
      RejectedSafe(c.(waiter := None), WaiterOwner(c));
    case TimerFires => QuietSafe(c, Step(c, ev));
  }

  /** Mailbox and retry safety in every reachable state. */
  lemma {:induction false} RunSafe(c: Client, events: seq<Event>)
    requires Safe(c)
    ensures Safe(Run(c, events))
    decreases |events|
  {
    if events != [] {
      StepSafe(c, events[0]);
      RunSafe(Step(c, events[0]), events[1..]);
    }
  }

  lemma InitialSafe(reconnect: bool)
    ensures Safe(Initial(reconnect))
  {
  }

  /** In every state that any sequence of events can reach from the start. */
  lemma Reachable(reconnect: bool, events: seq<Event>)
    ensures Safe(Run(Initial(reconnect), events))
  {
    InitialSafe(reconnect);
    RunSafe(Initial(reconnect), events);
  }

  /** The client was told to disconnect and has not been told to connect since. */
  ghost predicate Stopped(c: Client) {
    c.intentionalClose && !c.timerArmed
  }

  /** Stopped, and no retry or dial has begun. */
  ghost predicate StillStopped(c: Client, d: Client) {
    Stopped(c) ==> Stopped(d) && |d.attempts| == |c.attempts| && |d.dials| == |c.dials|
  }

  lemma GreetedStopped(c: Client, n: nat, env: Surroundings)
    ensures StillStopped(c, Greeted(c, n, env))
  {
  }

  lemma ContinueStopped(c: Client, owner: Owner, m: Message, env: Surroundings)
    ensures StillStopped(c, Continue(c, owner, m, env))
  {
    if owner.Attempt? {
      GreetedStopped(c, owner.n, env);
    }
  }

  lemma FailAttemptStopped(c: Client, n: nat)
    ensures StillStopped(c, FailAttempt(c, n))
  {
  }

  lemma DialedStopped(c: Client, n: nat, env: Surroundings)
    ensures StillStopped(c, Dialed(c, n, env))
  {
    var (d, r) := WaitFor(c, Waiter(IsConnected, Attempt(n)));
    assert StillStopped(c, d);
    match r
    case Delivered(_) => GreetedStopped(d, n, env);
    case Busy => FailAttemptStopped(d, n);
    case Pending =>
  }

  lemma HandshakeFailsStopped(c: Client, d: nat)
    ensures StillStopped(c, Step(c, HandshakeFails(d)))
  {
  }

  lemma HandshakeSucceedsStopped(c: Client, d: nat, env: Surroundings)
    ensures StillStopped(c, Step(c, HandshakeSucceeds(d, env)))
  {
    if Shaking(c, d) && c.dials[d].owner.Attempt? {
      var dial := c.dials[d];
      DialedStopped(c.(state := ConnectionState.Connected, bound := c.bound + {dial.socket.value},
                       dials := c.dials[d := dial.(settled := true)]), dial.owner.n, env);
    }
  }

  lemma StoppedStep(c: Client, ev: Event)
    requires !ev.CallerConnects?
    ensures StillStopped(c, Step(c, ev))
  {
    match ev
    case CallerWaits(w) =>
      var (d, r) := WaitFor(c, w);
      if r.Delivered? {
        ContinueStopped(d, w.owner, r.message, Surroundings("", false));
      }
    case HandshakeSucceeds(d, env) =>
      HandshakeSucceedsStopped(c, d, env);
    case Receives(s, m, env) =>
      ContinueStopped(Deliver(c, m), WaiterOwner(c), m, env);
    case SocketCloses(s) =>
      if WaiterOwner(c).Attempt? {
        FailAttemptStopped(CloseAwaited(Lost(c, s), s), WaiterOwner(c).n);
      }
    case HandshakeFails(d) =>
      HandshakeFailsStopped(c, d);
    case _ =>
  }

  lemma {:induction false} StoppedRun(c: Client, events: seq<Event>)
    requires Stopped(c) && forall ev :: ev in events ==> !ev.CallerConnects?
    ensures Stopped(Run(c, events)) && |Run(c, events).attempts| == |c.attempts| && |Run(c, events).dials| == |c.dials|
    decreases |events|
  {
    if events != [] {
      StoppedStep(c, events[0]);
      StoppedRun(Step(c, events[0]), events[1..]);
    }
  }

  /** After a disconnect, whatever was still in progress, no retry is armed, started or dialled until the caller connects. */
  lemma {:induction false} StoppedForGood(c: Client, events: seq<Event>)
    requires forall ev :: ev in events ==> !ev.CallerConnects?
    ensures Stopped(Run(Disconnect(c), events))
    ensures |Run(Disconnect(c), events).attempts| == |c.attempts| && |Run(Disconnect(c), events).dials| == |c.dials|
    decreases |events|
  {
    StoppedRun(Disconnect(c), events);
  }

  /** The client object; each method is one synchronous stretch of the original. */
  class BadgerWebSocketClient {
    const reconnect: bool
    var state: ConnectionState
    var socket: Option<Socket>
    var sockets: nat
    var listening: set<Socket>
    var bound: set<Socket>
    var closing: set<Socket>
    var inbox: seq<Arrival>
    var arrived: nat
    ghost var consumed: seq<Arrival>
    var waiter: Option<Waiter>
    var intentionalClose: bool
    var reconnectTimer: bool
    var reconnectInFlight: bool
    var activeTunnel: Option<ActiveTunnel>
    var attempts: seq<Phase>
    var dials: seq<Dial>
    var forwarded: seq<Message>

    ghost function View(): Client
      reads this
    {
      Client(reconnect, state, socket, sockets, listening, bound, closing, inbox, arrived, consumed, waiter, intentionalClose,
             reconnectTimer, reconnectInFlight, activeTunnel, attempts, dials, forwarded)
    }

    constructor (reconnect: bool)
      ensures View() == Initial(reconnect)
    {
      this.reconnect := reconnect;
      state, socket, sockets, listening, bound, closing := Disconnected, None, 0, {}, {}, {};
      inbox, arrived, consumed, waiter := [], 0, [], None;
      intentionalClose, reconnectTimer, reconnectInFlight, activeTunnel := false, false, false, None;
      attempts, dials, forwarded := [], [], [];
    }

    /** The caller's or an attempt's `connect()` up to its first wait. */
    method StartConnect(owner: Owner)
      modifies this
      ensures View() == BeginConnect(old(View()), owner)
    {
      intentionalClose := false;
      state := Connecting;
      dials := dials + [Dial(owner, None, false)];
    }

    method CloseConnection()
      modifies this
      ensures View() == Disconnect(old(View()))
    {
      intentionalClose := true;
      reconnectTimer := false;
      reconnectInFlight := false;
      if socket.None? || state == Disconnected {
        state := Disconnected;
        return;
      }
      if state == Reconnecting {
        state := Disconnected;
        return;
      }
      state := Disconnecting;
      closing := closing + {socket.value};
    }

    method WaitForMessage(w: Waiter) returns (r: WaitResult)
      modifies this
      ensures (View(), r) == WaitFor(old(View()), w)
    {
      var i := 0;
      while i < |inbox| && !w.matches(inbox[i].message)
        invariant i <= |inbox| && View() == old(View())
        invariant i + FindIndex(inbox[i..], w.matches) == FindIndex(inbox, w.matches)
      {
        assert inbox[i..][1..] == inbox[i + 1..];
        i := i + 1;
      }
      assert FindIndex(inbox[i..], w.matches) == 0;
      if i < |inbox| {
        var found := inbox[i];
        inbox := inbox[..i] + inbox[i + 1..];
        consumed := consumed + [found];
        return Delivered(found.message);
      }
      if waiter.Some? {
        return Busy;
      }
      waiter := Some(w);
      r := Pending;
    }

    method DeliverMessage(m: Message)
      modifies this
      ensures View() == Deliver(old(View()), m)
    {
      if IsForwarding(m) {
        forwarded := forwarded + [m];
        return;
      }
      var arrival := Arrival(arrived, m);
      arrived := arrived + 1;
      if waiter.Some? && waiter.value.matches(m) {
        waiter := None;
        consumed := consumed + [arrival];
        return;
      }
      if m.Pong? {
        return;
      }
      inbox := inbox + [arrival];
    }

    method ScheduleRetry()
      modifies this
      ensures View() == ScheduleReconnect(old(View()))
    {
      if !reconnect || intentionalClose {
        return;
      }
      if reconnectTimer || reconnectInFlight {
        return;
      }
      state := Reconnecting;
      reconnectTimer := true;
    }

    method DisposeSocket()
      modifies this
      ensures View() == Dispose(old(View()))
    {
      if socket.Some? {
        listening := listening - {socket.value};
        socket := None;
      }
      inbox := [];
    }

    method AttemptFailed(n: nat)
      modifies this
      ensures View() == FailAttempt(old(View()), n)
    {
      reconnectInFlight := false;
      if n < |attempts| {
        attempts := attempts[n := Over];
      }
      DisposeSocket();
      state := Disconnected;
      ScheduleRetry();
    }

    method LoseSocket(s: Socket)
      modifies this
      ensures View() == Lost(old(View()), s)
    {
      var wasIntentional := intentionalClose;
      waiter := None;
      listening := listening - {s};
      DisposeSocket();
      state := Disconnected;
      if !wasIntentional {
        ScheduleRetry();
      }
    }

    method RuntimeClose(s: Socket)
      modifies this
      ensures View() == Step(old(View()), SocketCloses(s))
    {
      if s !in listening || s !in bound {
        return;
      }
      var owner := if waiter.Some? then waiter.value.owner else Nobody;
      LoseSocket(s);
      if s in closing {
        DisposeSocket();
        state := Disconnected;
      }
      if owner.Attempt? {
        AttemptFailed(owner.n);
      }
    }

    method RetryTimerFires()
      requires reconnectTimer
      modifies this
      ensures View() == Step(old(View()), TimerFires)
    {
      reconnectTimer := false;
      if intentionalClose || !reconnect {
        state := Disconnected;
        return;
      }
      reconnectInFlight := true;
      state := Reconnecting;
      attempts := attempts + [Dialing];
      StartConnect(Attempt(|attempts| - 1));
    }
  }
}
