/** The dashboard's reconnecting WebSocket client. */
module DashboardClient {
  import opened Bytes

  type Socket = nat

  datatype ReadyState = Connecting | Open | Closing | Closed

  datatype Message = Ping | Update(payload: string)

  /** `ready` holds the state of every socket ever created; `dispatched` and `pongs` record what the client did. */
  datatype Client = Client(
    autoReconnect: bool,
    socket: Option<Socket>,
    timerArmed: bool,
    intentionalClose: bool,
    handshaken: bool,
    started: bool,
    ready: seq<ReadyState>,
    dispatched: seq<(Socket, Message)>,
    pongs: seq<Socket>)

  function Initial(autoReconnect: bool): Client {
    Client(autoReconnect, None, false, false, false, false, [], [], [])
  }

  predicate InState(c: Client, s: Option<Socket>, state: ReadyState) {
    s.Some? && s.value < |c.ready| && c.ready[s.value] == state
  }

  function Connect(c: Client): Client {
    var d := c.(intentionalClose := false, started := true);
    if InState(d, d.socket, Open) || InState(d, d.socket, Connecting) then d
    else d.(timerArmed := false, socket := Some(|d.ready|), handshaken := false, ready := d.ready + [Connecting])
  }

  function Disconnect(c: Client): Client {
    var d := c.(intentionalClose := true, timerArmed := false, socket := None);
    if InState(c, c.socket, Open) || InState(c, c.socket, Connecting) then d.(ready := d.ready[c.socket.value := Closing])
    else d
  }

  function OnOpen(c: Client, s: Socket): Client {
    if c.socket == Some(s) then c.(handshaken := true) else c
  }

  function OnMessage(c: Client, s: Socket, m: Message): Client {
    if c.socket != Some(s) then c
    else c.(dispatched := c.dispatched + [(s, m)],
            pongs := if m.Ping? && InState(c, c.socket, Open) then c.pongs + [s] else c.pongs)
  }

  function OnClose(c: Client, s: Socket): Client {
    if c.socket.Some? && c.socket != Some(s) then c
    else
      var d := c.(socket := None, handshaken := false);
      if d.intentionalClose || !d.autoReconnect then d else d.(timerArmed := true)
  }

  class DashboardLiveClient {
    const autoReconnect: bool
    var socket: Option<Socket>
    var reconnectTimer: bool
    var intentionalClose: bool
    var handshaken: bool
    ghost var started: bool
    var ready: seq<ReadyState>
    var dispatched: seq<(Socket, Message)>
    var pongs: seq<Socket>

    ghost function View(): Client
      reads this
    {
      Client(autoReconnect, socket, reconnectTimer, intentionalClose, handshaken, started, ready, dispatched, pongs)
    }

    constructor (autoReconnect: bool)
      ensures View() == Initial(autoReconnect)
    {
      this.autoReconnect := autoReconnect;
      socket, reconnectTimer, intentionalClose, handshaken, started := None, false, false, false, false;
      ready, dispatched, pongs := [], [], [];
    }

    method OpenConnection()
      modifies this
      ensures View() == Connect(old(View()))
    {
      intentionalClose := false;
      started := true;
      if socket.Some? && socket.value < |ready| && (ready[socket.value] == Open || ready[socket.value] == Connecting) {
        return;
      }
      reconnectTimer := false;
      ready := ready + [Connecting];
      socket := Some(|ready| - 1);
      handshaken := false;
    }

    method CloseConnection()
      modifies this
      ensures View() == Disconnect(old(View()))
    {
      intentionalClose := true;
      reconnectTimer := false;
      var current := socket;
      socket := None;
      if current.Some? && current.value < |ready| && (ready[current.value] == Connecting || ready[current.value] == Open) {
        ready := ready[current.value := Closing];
      }
    }

    method HandleOpen(s: Socket)
      modifies this
      ensures View() == OnOpen(old(View()), s)
    {
      if socket != Some(s) {
        return;
      }
      handshaken := true;
    }

    method HandleMessage(s: Socket, m: Message)
      modifies this
      ensures View() == OnMessage(old(View()), s, m)
    {
      if socket != Some(s) {
        return;
      }
      if m.Ping? && s < |ready| && ready[s] == Open {
        pongs := pongs + [s];
      }
      dispatched := dispatched + [(s, m)];
    }

    method HandleClose(s: Socket)
      modifies this
      ensures View() == OnClose(old(View()), s)
    {
      if socket != Some(s) && socket.Some? {
        return;
      }
      socket := None;
      handshaken := false;
      if intentionalClose || !autoReconnect {
        return;
      }
      reconnectTimer := true;
    }

    method TimerFires()
      requires reconnectTimer
      modifies this
      ensures View() == Connect(old(View()).(timerArmed := false))
    {
      reconnectTimer := false;
      OpenConnection();
    }
  }

  // Every interleaving of the caller, the sockets and the timer

  datatype Event =
    | CallerConnects
    | CallerDisconnects
    | SocketOpens(s: Socket)
    | SocketReceives(s: Socket, m: Message)
    | SocketStartsClosing(s: Socket)
    | SocketCloses(s: Socket)
    | TimerDue

  function SetReady(c: Client, s: Socket, state: ReadyState): Client
    requires s < |c.ready|
  {
    c.(ready := c.ready[s := state])
  }

  /** An event that cannot happen in the current state changes nothing. */
  function Step(c: Client, ev: Event): Client {
    match ev
    case CallerConnects => Connect(c)
    case CallerDisconnects => Disconnect(c)
    case SocketOpens(s) => if InState(c, Some(s), Connecting) then OnOpen(SetReady(c, s, Open), s) else c
    case SocketReceives(s, m) => if InState(c, Some(s), Open) || InState(c, Some(s), Closing) then OnMessage(c, s, m) else c
    case SocketStartsClosing(s) =>
      if InState(c, Some(s), Connecting) || InState(c, Some(s), Open) then SetReady(c, s, Closing) else c
    case SocketCloses(s) =>
      if s < |c.ready| && c.ready[s] != Closed then OnClose(SetReady(c, s, Closed), s) else c
    case TimerDue => if c.timerArmed then Connect(c.(timerArmed := false)) else c
  }

  function Run(c: Client, events: seq<Event>): Client
    decreases |events|
  {
    if events == [] then c else Run(Step(c, events[0]), events[1..])
  }

  ghost predicate Safe(c: Client) {
    && (c.timerArmed ==> c.socket.None? && !c.intentionalClose)
    && (c.autoReconnect && c.started && !c.intentionalClose ==> c.socket.Some? || c.timerArmed)
    && (c.socket.Some? ==> c.socket.value < |c.ready| && c.ready[c.socket.value] != Closed && !c.intentionalClose)
    && (!c.started ==> c.ready == [])
  }

  lemma StepSafe(c: Client, ev: Event)
    requires Safe(c)
    ensures Safe(Step(c, ev))
  {
  }

  /**
   * For every interleaving: an armed timer means there is no current socket, and an automatically reconnecting client
   * that was started and not intentionally closed always has a socket or a timer.
   */
  lemma {:induction false} RunSafe(c: Client, events: seq<Event>)
    requires Safe(c)
    ensures Safe(Run(c, events))
    decreases |events|
  {
    if events != [] {
      StepSafe(c, events[0]);
      RunSafe(Step(c, events[0]), events[1..]);
    }
  }

  lemma InitialSafe(autoReconnect: bool)
    ensures Safe(Initial(autoReconnect))
  {
  }

  /** In every state that any sequence of events can reach from the start. */
  lemma Reachable(autoReconnect: bool, events: seq<Event>)
    ensures Safe(Run(Initial(autoReconnect), events))
  {
    InitialSafe(autoReconnect);
    RunSafe(Initial(autoReconnect), events);
  }

  // What is dispatched

  /** The frame an event brings on the socket that is current when it happens. */
  function Heard(c: Client, ev: Event): seq<(Socket, Message)> {
    if ev.SocketReceives? && c.socket == Some(ev.s) && (InState(c, c.socket, Open) || InState(c, c.socket, Closing))
    then [(ev.s, ev.m)] else []
  }

  function HeardIn(c: Client, events: seq<Event>): seq<(Socket, Message)>
    decreases |events|
  {
    if events == [] then [] else Heard(c, events[0]) + HeardIn(Step(c, events[0]), events[1..])
  }

  /** The ping an event brings on the socket that is current, and open, when it happens. */
  function Answered(c: Client, ev: Event): seq<Socket> {
    if ev.SocketReceives? && ev.m.Ping? && c.socket == Some(ev.s) && InState(c, c.socket, Open) then [ev.s] else []
  }

  function AnsweredIn(c: Client, events: seq<Event>): seq<Socket>
    decreases |events|
  {
    if events == [] then [] else Answered(c, events[0]) + AnsweredIn(Step(c, events[0]), events[1..])
  }

  lemma Regroup<T>(a: seq<T>, b: seq<T>, c: seq<T>)
    ensures (a + b) + c == a + (b + c)
  {
  }

  /** The current socket is the last one made. */
  predicate Newest(c: Client) {
    c.socket.Some? ==> c.socket.value == |c.ready| - 1
  }

  lemma NewestStep(c: Client, ev: Event)
    requires Newest(c)
    ensures Newest(Step(c, ev)) && |Step(c, ev).ready| >= |c.ready|
  {
  }

  /** The sockets heard never go back to an earlier one, and none is later than the current one. */
  ghost predicate Forward(c: Client) {
    && (forall i, j :: 0 <= i < j < |c.dispatched| ==> c.dispatched[i].0 <= c.dispatched[j].0)
    && (forall i :: 0 <= i < |c.dispatched| ==> c.dispatched[i].0 < |c.ready|)
    && Newest(c)
  }

  predicate SameRecord(c: Client, d: Client) {
    d.dispatched == c.dispatched && d.pongs == c.pongs
  }

  lemma ConnectSilent(c: Client)
    ensures SameRecord(c, Connect(c)) && SameRecord(c, Connect(c.(timerArmed := false)))
  {
  }

  lemma DisconnectSilent(c: Client)
    ensures SameRecord(c, Disconnect(c))
  {
  }

  lemma SilentEvent(c: Client, ev: Event)
    requires !ev.SocketReceives?
    ensures SameRecord(c, Step(c, ev))
  {
    match ev
    case CallerConnects => ConnectSilent(c);
    case CallerDisconnects => DisconnectSilent(c);
    case SocketOpens(_) =>
    case SocketStartsClosing(_) =>
    case SocketCloses(_) =>
    case TimerDue => ConnectSilent(c);
  }

  lemma MessageEvent(c: Client, s: Socket, m: Message)
    ensures var ev := SocketReceives(s, m);
            && Step(c, ev).dispatched == (if Heard(c, ev) == [] then c.dispatched else c.dispatched + [(s, m)])
            && Step(c, ev).pongs == (if Answered(c, ev) == [] then c.pongs else c.pongs + [s])
  {
  }

  lemma DispatchStep(c: Client, ev: Event)
    ensures Step(c, ev).dispatched == c.dispatched + Heard(c, ev) && Step(c, ev).pongs == c.pongs + Answered(c, ev)
  {
    assert c.dispatched + [] == c.dispatched && c.pongs + [] == c.pongs;
    if ev.SocketReceives? {
      MessageEvent(c, ev.s, ev.m);
    } else {
      SilentEvent(c, ev);
    }
  }

  lemma HeardForward(c: Client, heard: seq<(Socket, Message)>, ev: Event)
    requires Forward(c) && heard == c.dispatched + Heard(c, ev)
    ensures forall i, j :: 0 <= i < j < |heard| ==> heard[i].0 <= heard[j].0
    ensures forall i :: 0 <= i < |heard| ==> heard[i].0 < |c.ready|
  {
  }

  lemma ForwardStep(c: Client, ev: Event)
    requires Forward(c)
    ensures Forward(Step(c, ev))
  {
    DispatchStep(c, ev);
    NewestStep(c, ev);
    HeardForward(c, c.dispatched + Heard(c, ev), ev);
  }

  lemma {:induction false} DispatchRun(c: Client, events: seq<Event>)
    requires Safe(c) && Forward(c)
    ensures Forward(Run(c, events)) && Run(c, events).dispatched == c.dispatched + HeardIn(c, events)
    ensures Run(c, events).pongs == c.pongs + AnsweredIn(c, events)
    decreases |events|
  {
    if events != [] {
      var d := Step(c, events[0]);
      DispatchStep(c, events[0]);
      ForwardStep(c, events[0]);
      StepSafe(c, events[0]);
      DispatchRun(d, events[1..]);
      Regroup(c.dispatched, Heard(c, events[0]), HeardIn(d, events[1..]));
      Regroup(c.pongs, Answered(c, events[0]), AnsweredIn(d, events[1..]));
    }
  }

  /**
   * In every run exactly the frames are dispatched that arrive on the socket that is current at the time, in order, and
   * exactly its pings are answered while it is open; so once a newer socket was heard, no frame of an older one is ever
   * dispatched.
   */
  lemma OnlyCurrentDispatches(autoReconnect: bool, events: seq<Event>)
    ensures var c := Run(Initial(autoReconnect), events);
            && c.dispatched == HeardIn(Initial(autoReconnect), events)
            && c.pongs == AnsweredIn(Initial(autoReconnect), events)
            && forall i, j :: 0 <= i < j < |c.dispatched| ==> c.dispatched[i].0 <= c.dispatched[j].0
  {
    InitialSafe(autoReconnect);
    DispatchRun(Initial(autoReconnect), events);
  }

  lemma {:induction false} QuietStays(c: Client, events: seq<Event>)
    requires c.socket.None? && !c.timerArmed && c.intentionalClose && CallerConnects !in events
    ensures var quiet := Run(c, events);
            && |quiet.ready| == |c.ready| && quiet.socket.None? && !quiet.timerArmed && quiet.intentionalClose
            && quiet.dispatched == c.dispatched
    decreases |events|
  {
    if events != [] {
      QuietStays(Step(c, events[0]), events[1..]);
    }
  }

  /** After a disconnect nothing but the caller creates a socket, arms a timer or hears a frame again. */
  lemma {:induction false} QuietAfterDisconnect(c: Client, events: seq<Event>)
    requires CallerConnects !in events
    ensures var quiet := Run(Disconnect(c), events);
            && |quiet.ready| == |c.ready| && quiet.socket.None? && !quiet.timerArmed && quiet.intentionalClose
            && quiet.dispatched == c.dispatched
    decreases |events|
  {
    QuietStays(Disconnect(c), events);
  }

  /** What leaves the current socket in place: not its own close, no disconnect, no connect that finds it closing. */
  predicate Harmless(c: Client, ev: Event)
    requires c.socket.Some?
  {
    && ev != SocketCloses(c.socket.value) && ev != CallerDisconnects
    && (ev.CallerConnects? ==> !InState(c, c.socket, Closing))
  }

  predicate HarmlessRun(c: Client, events: seq<Event>)
    decreases |events|
  {
    c.socket.Some? && (events == [] || (Harmless(c, events[0]) && HarmlessRun(Step(c, events[0]), events[1..])))
  }

  /** The same socket is current from here on. */
  predicate Keeps(c: Client, events: seq<Event>)
    decreases |events|
  {
    events == [] || (Step(c, events[0]).socket == c.socket && Keeps(Step(c, events[0]), events[1..]))
  }

  lemma HarmlessStep(c: Client, ev: Event)
    requires Safe(c) && c.socket.Some?
    ensures Step(c, ev).socket == c.socket <==> Harmless(c, ev)
  {
  }

  /**
   * In every run the current socket stays exactly as long as it does not close itself, the caller does not disconnect and
   * no connect finds it closing: a late close of a socket it replaced, and a due timer, cannot disturb it.
   */
  lemma {:induction false} StaleCloseIgnored(c: Client, events: seq<Event>)
    requires Safe(c) && c.socket.Some?
    ensures Keeps(c, events) <==> HarmlessRun(c, events)
    decreases |events|
  {
    if events != [] {
      HarmlessStep(c, events[0]);
      StepSafe(c, events[0]);
      if Harmless(c, events[0]) {
        StaleCloseIgnored(Step(c, events[0]), events[1..]);
      }
    }
  }
}
