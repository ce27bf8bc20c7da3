/** How many reconnect attempts of the CLI's client can be under way, and when a retry can be armed beside one. */
module RetryMachine {
  import opened Bytes
  import opened Messages
  import opened CliClient

  /** At most one attempt is under way, and none while a retry timer is armed. */
  ghost predicate OneRetry(c: Client) {
    && (forall i, j :: 0 <= i < j < |c.attempts| ==> c.attempts[i].Over? || c.attempts[j].Over?)
    && (c.timerArmed ==> forall i :: 0 <= i < |c.attempts| ==> c.attempts[i].Over?)
  }

  /** `connect()` takes effect only when the client is neither connected nor connecting. */
  predicate Ignored(c: Client) {
    c.state.Connected? || c.state.Connecting?
  }

  /** The caller does not connect again, after a disconnect, while an attempt is still dialling. */
  predicate MayConnect(c: Client) {
    Ignored(c) || !c.intentionalClose || forall n :: 0 <= n < |c.attempts| ==> !c.attempts[n].Dialing?
  }

  predicate Careful(c: Client, events: seq<Event>)
    decreases |events|
  {
    events == [] || ((events[0].CallerConnects? ==> MayConnect(c)) && Careful(Step(c, events[0]), events[1..]))
  }

  // What holds between steps

  /** Every dial of an attempt is that attempt's only one, and is unsettled only while the attempt dials. */
  ghost predicate Dials(c: Client) {
    && (forall d :: 0 <= d < |c.dials| && c.dials[d].owner.Attempt? ==> c.dials[d].owner.n < |c.attempts|)
    && (forall d :: 0 <= d < |c.dials| && c.dials[d].owner.Attempt? && !c.dials[d].settled ==>
          c.attempts[c.dials[d].owner.n].Dialing?)
    && (forall d, e :: 0 <= d < e < |c.dials| && c.dials[d].owner.Attempt? ==> c.dials[d].owner != c.dials[e].owner)
  }

  predicate Waiting(p: Phase) {
    p.AwaitingConnected? || p.AwaitingTunnel?
  }

  /** An attempt waits for a message exactly when the waiter is its own. */
  ghost predicate Waits(c: Client) {
    && (WaiterOwner(c).Attempt? ==> WaiterOwner(c).n < |c.attempts| && Waiting(c.attempts[WaiterOwner(c).n]))
    && (forall n :: 0 <= n < |c.attempts| && Waiting(c.attempts[n]) ==> WaiterOwner(c) == Attempt(n))
  }

  /** A dialling attempt is accounted for by the in-flight flag, or the client was told to stop. */
  ghost predicate Flags(c: Client) {
    && (forall n :: 0 <= n < |c.attempts| && c.attempts[n].Dialing? ==> c.inFlight || c.intentionalClose)
    && (c.intentionalClose ==> !c.inFlight && !c.timerArmed)
    && (c.timerArmed ==> !c.inFlight)
    && (!c.reconnect ==> c.attempts == [] && !c.timerArmed)
  }

  ghost predicate Tidy(c: Client) {
    OneRetry(c) && Dials(c) && Waits(c) && Flags(c)
  }

  // While the continuation of one attempt runs

  /** Attempt `n` is running, no other is under way, and nothing refers to any attempt as still waiting or dialling. */
  ghost predicate Running(c: Client, n: nat) {
    && n < |c.attempts| && (forall k :: 0 <= k < |c.attempts| && k != n ==> c.attempts[k].Over?)
    && !WaiterOwner(c).Attempt?
    && (forall d :: 0 <= d < |c.dials| && c.dials[d].owner.Attempt? ==> c.dials[d].owner.n < |c.attempts| && c.dials[d].settled)
    && (forall d, e :: 0 <= d < e < |c.dials| && c.dials[d].owner.Attempt? ==> c.dials[d].owner != c.dials[e].owner)
    && (c.intentionalClose ==> !c.inFlight && !c.timerArmed) && c.reconnect
  }

  lemma FailedTidy(c: Client, n: nat)
    requires Running(c, n)
    ensures Tidy(FailAttempt(c, n))
  {
  }

  lemma EndedTidy(c: Client, n: nat)
    requires Running(c, n) && !c.timerArmed
    ensures Tidy(EndAttempt(c, n))
  {
  }

  lemma SessionKept(c: Client, n: nat, session: ActiveTunnel)
    requires Running(c, n)
    ensures Running(c.(activeTunnel := Some(session)), n)
  {
  }

  lemma RepliedTidy(c: Client, n: nat, port: int, m: Message)
    requires Running(c, n) && !c.timerArmed
    ensures Tidy(TunnelReply(c, n, port, m))
  {
    if m.TunnelCreated? {
      SessionKept(c, n, ActiveTunnel(port, m.tunnelId, m.publicUrl));
      EndedTidy(c.(activeTunnel := Some(ActiveTunnel(port, m.tunnelId, m.publicUrl))), n);
    } else {
      FailedTidy(c, n);
    }
  }

  /** The attempt waits for its next message. */
  lemma WaitingTidy(c: Client, n: nat, w: Waiter, phase: Phase)
    requires Running(c, n) && !c.timerArmed && w.owner == Attempt(n) && Waiting(phase)
    ensures Tidy(SetPhase(c.(waiter := Some(w)), n, phase))
  {
  }

  lemma WaitRunning(c: Client, n: nat, w: Waiter)
    requires Running(c, n) && w.owner == Attempt(n)
    ensures !WaitFor(c, w).1.Pending? ==> Running(WaitFor(c, w).0, n)
    ensures WaitFor(c, w).1.Pending? ==> WaitFor(c, w).0 == c.(waiter := Some(w))
    ensures WaitFor(c, w).0.timerArmed == c.timerArmed
  {
  }

  lemma GreetedTidy(c: Client, n: nat, env: Surroundings)
    requires Running(c, n) && !c.timerArmed
    ensures Tidy(Greeted(c, n, env))
  {
    if c.activeTunnel.None? {
      EndedTidy(c, n);
    } else {
      var port, w := c.activeTunnel.value.port, Waiter(ReplyTo(env.requestId), Attempt(n));
      var (d, r) := WaitFor(c, w);
      WaitRunning(c, n, w);
      if r.Pending? {
        WaitingTidy(c, n, w, AwaitingTunnel(port));
        FailedTidy(d.(waiter := Some(d.waiter.value.(owner := Nobody))), n);
      } else {
        FailedTidy(d, n);
        if r.Delivered? {
          RepliedTidy(d, n, port, r.message);
        }
      }
    }
  }

  lemma DialedTidy(c: Client, n: nat, env: Surroundings)
    requires Running(c, n) && !c.timerArmed
    ensures Tidy(Dialed(c, n, env))
  {
    var w := Waiter(IsConnected, Attempt(n));
    WaitRunning(c, n, w);
    match WaitFor(c, w).1
    case Delivered(_) => GreetedTidy(WaitFor(c, w).0, n, env);
    case Busy => FailedTidy(WaitFor(c, w).0, n);
    case Pending => WaitingTidy(c, n, w, AwaitingConnected);
  }

  // Steps

  /** An attempt whose wait was settled, with the waiter gone, runs alone. */
  lemma WaiterRuns(c: Client, d: Client, n: nat)
    requires Tidy(c) && WaiterOwner(c) == Attempt(n)
    requires d.attempts == c.attempts && d.dials == c.dials && !WaiterOwner(d).Attempt? && d.reconnect == c.reconnect
    requires d.intentionalClose == c.intentionalClose && (d.intentionalClose ==> !d.inFlight && !d.timerArmed)
    ensures Running(d, n)
  {
    assert Waiting(c.attempts[n]);
    forall e | 0 <= e < |d.dials| && d.dials[e].owner.Attempt?
      ensures d.dials[e].settled
    {
      assert c.dials[e].owner.n == n || c.attempts[c.dials[e].owner.n].Over?;
    }
  }

  /** An attempt whose dial was just settled runs alone. */
  lemma DialRuns(c: Client, d: Client, i: nat)
    requires Tidy(c) && i < |c.dials| && c.dials[i].owner.Attempt? && !c.dials[i].settled
    requires d.attempts == c.attempts && d.dials == c.dials[i := c.dials[i].(settled := true)] && d.waiter == c.waiter
    requires d.reconnect == c.reconnect && d.intentionalClose == c.intentionalClose && d.inFlight == c.inFlight
    requires d.timerArmed == c.timerArmed
    ensures Running(d, c.dials[i].owner.n) && !d.timerArmed
  {
    var n := c.dials[i].owner.n;
    assert c.attempts[n].Dialing?;
    assert !WaiterOwner(c).Attempt?;
    forall e | 0 <= e < |d.dials| && d.dials[e].owner.Attempt?
      ensures d.dials[e].settled
    {
      assert c.dials[e].owner.n == n || c.attempts[c.dials[e].owner.n].Over?;
      assert e != i ==> c.dials[e].owner != c.dials[i].owner;
    }
  }

  lemma SettledDialTidy(c: Client, d: Client, i: nat)
    requires Tidy(c) && i < |c.dials| && !c.dials[i].owner.Attempt?
    requires d.attempts == c.attempts && d.dials == c.dials[i := c.dials[i].(settled := true)] && d.waiter == c.waiter
    requires d.reconnect == c.reconnect && d.intentionalClose == c.intentionalClose && d.inFlight == c.inFlight
    requires d.timerArmed == c.timerArmed
    ensures Tidy(d)
  {
  }

  lemma HandshakeTidy(c: Client, i: nat, env: Surroundings)
    requires Tidy(c) && Shaking(c, i)
    ensures Tidy(Step(c, HandshakeSucceeds(i, env))) && Tidy(Step(c, HandshakeFails(i)))
  {
    var dial := c.dials[i];
    var up := c.(state := ConnectionState.Connected, bound := c.bound + {dial.socket.value}, dials := c.dials[i := dial.(settled := true)]);
    var down := Dispose(c).(state := Disconnected, dials := c.dials[i := dial.(settled := true)]);
    if dial.owner.Attempt? {
      DialRuns(c, up, i);
      DialRuns(c, down, i);
      DialedTidy(up, dial.owner.n, env);
      FailedTidy(down, dial.owner.n);
    } else {
      SettledDialTidy(c, up, i);
      SettledDialTidy(c, down, i);
    }
  }

  /** Losing a waiter that no attempt owns changes nothing for the attempts. */
  lemma DroppedTidy(c: Client, d: Client)
    requires Tidy(c) && d.attempts == c.attempts && d.dials == c.dials
    requires WaiterOwner(d) == WaiterOwner(c) || (!WaiterOwner(d).Attempt? && !WaiterOwner(c).Attempt?)
    requires d.reconnect == c.reconnect && d.intentionalClose == c.intentionalClose && d.inFlight == c.inFlight
    requires d.timerArmed == c.timerArmed
    ensures Tidy(d)
  {
  }

  lemma ContinuedTidy(c: Client, owner: Owner, m: Message, env: Surroundings)
    requires Tidy(c) && !owner.Attempt?
    ensures Tidy(Continue(c, owner, m, env))
  {
    DroppedTidy(c, Continue(c, owner, m, env));
  }

  lemma ReceivesTidy(c: Client, s: Socket, m: Message, env: Surroundings)
    requires Tidy(c)
    ensures Tidy(Step(c, Receives(s, m, env)))
  {
    var d := Deliver(c, m);
    if s !in c.listening {
    } else if IsForwarding(m) || !WaitedFor(c, m) {
      DroppedTidy(c, d);
    } else if WaiterOwner(c).Attempt? {
      var n := WaiterOwner(c).n;
      WaiterRuns(c, d, n);
      GreetedTidy(d, n, env);
      if c.attempts[n].AwaitingTunnel? {
        RepliedTidy(d, n, c.attempts[n].port, m);
      }
    } else {
      DroppedTidy(c, d);
      ContinuedTidy(d, WaiterOwner(c), m, env);
    }
  }

  lemma CallerWaitsTidy(c: Client, w: Waiter)
    requires Tidy(c) && !w.owner.Attempt?
    ensures Tidy(Step(c, CallerWaits(w)))
  {
    var (d, r) := WaitFor(c, w);
    assert Tidy(d);
    if r.Delivered? {
      ContinuedTidy(d, w.owner, r.message, Surroundings("", false));
    }
  }

  /** A close may arm a retry only when no attempt dials; one that waited fails with it. */
  lemma SocketClosesTidy(c: Client, s: Socket)
    requires Tidy(c) && s in c.listening && s in c.bound
    ensures Tidy(Step(c, SocketCloses(s)))
  {
    var d := CloseAwaited(Lost(c, s), s);
    if WaiterOwner(c).Attempt? {
      WaiterRuns(c, d, WaiterOwner(c).n);
      FailedTidy(d, WaiterOwner(c).n);
    } else {
      assert forall n :: 0 <= n < |c.attempts| ==> c.attempts[n].Over? || c.attempts[n].Dialing?;
      }
  }

  lemma WaitTimesOutTidy(c: Client)
    requires Tidy(c)
    ensures Tidy(Step(c, WaitTimesOut))
  {
    if WaiterOwner(c).Attempt? {
      WaiterRuns(c, c.(waiter := None), WaiterOwner(c).n);
      FailedTidy(c.(waiter := None), WaiterOwner(c).n);
    } else {
      DroppedTidy(c, c.(waiter := None));
    }
  }

  lemma TimerFiresTidy(c: Client)
    requires Tidy(c)
    ensures Tidy(Step(c, TimerFires))
  {
  }

  lemma ConnectTidy(c: Client)
    requires Tidy(c) && MayConnect(c)
    ensures Tidy(Step(c, CallerConnects))
  {
  }

  lemma DisconnectTidy(c: Client)
    requires Tidy(c)
    ensures Tidy(Disconnect(c))
  {
  }

  lemma CredentialsTidy(c: Client, d: nat)
    requires Tidy(c)
    ensures Tidy(Step(c, CredentialsReady(d)))
  {
  }

  lemma StepTidy(c: Client, ev: Event)
    requires Tidy(c) && (ev.CallerConnects? ==> MayConnect(c))
    ensures Tidy(Step(c, ev))
  {
    match ev
    case CallerConnects => ConnectTidy(c);
    case CallerWaits(w) =>
      if !w.owner.Attempt? {
        CallerWaitsTidy(c, w);
      }
    case CallerDisconnects => DisconnectTidy(c);
    case CredentialsReady(d) => CredentialsTidy(c, d);
    case HandshakeSucceeds(d, env) =>
      if Shaking(c, d) {
        HandshakeTidy(c, d, env);
      }
    case HandshakeFails(d) =>
      if Shaking(c, d) {
        HandshakeTidy(c, d, Surroundings("", false));
      }
    case Receives(s, m, env) => ReceivesTidy(c, s, m, env);
    case SocketCloses(s) =>
      if s in c.listening && s in c.bound {
        SocketClosesTidy(c, s);
      }
    case WaitTimesOut => WaitTimesOutTidy(c);
    case TimerFires => TimerFiresTidy(c);
  }

  lemma {:induction false} RunTidy(c: Client, events: seq<Event>)
    requires Tidy(c) && Careful(c, events)
    ensures Tidy(Run(c, events))
    decreases |events|
  {
    if events != [] {
      StepTidy(c, events[0]);
      RunTidy(Step(c, events[0]), events[1..]);
    }
  }

  lemma InitialTidy(reconnect: bool)
    ensures Tidy(Initial(reconnect))
  {
  }

  /**
   * In every run in which the caller does not connect again, after a disconnect, while an attempt is still dialling: at
   * most one attempt is under way at any time, and none while a retry timer is armed.
   */
  lemma OneRetryAtATime(reconnect: bool, events: seq<Event>)
    requires Careful(Initial(reconnect), events)
    ensures OneRetry(Run(Initial(reconnect), events))
  {
    InitialTidy(reconnect);
    RunTidy(Initial(reconnect), events);
  }

  // The condition is exact

  /** Three events that arm a retry beside an attempt that is still dialling. */
  function Mishap(c: Client): seq<Event> {
    [CredentialsReady(|c.dials|), HandshakeSucceeds(|c.dials|, Surroundings("", false)), SocketCloses(c.sockets)]
  }

  lemma RunOne(c: Client, ev: Event, rest: seq<Event>)
    ensures Run(c, [ev] + rest) == Run(Step(c, ev), rest)
    ensures Careful(c, [ev] + rest) <==> (ev.CallerConnects? ==> MayConnect(c)) && Careful(Step(c, ev), rest)
  {
    assert ([ev] + rest)[1..] == rest;
  }

  lemma RunThree(c: Client, a: Event, b: Event, e: Event)
    ensures Run(c, [a, b, e]) == Step(Step(Step(c, a), b), e)
    ensures Careful(c, [a, b, e]) <==>
              && (a.CallerConnects? ==> MayConnect(c)) && (b.CallerConnects? ==> MayConnect(Step(c, a)))
              && (e.CallerConnects? ==> MayConnect(Step(Step(c, a), b)))
  {
    assert [a, b, e] == [a] + [b, e] && [b, e] == [b] + [e] && [e] == [e] + [];
    RunOne(c, a, [b, e]);
    RunOne(Step(c, a), b, [e]);
    RunOne(Step(Step(c, a), b), e, []);
  }

  lemma {:induction false} RunTwice(c: Client, a: seq<Event>, b: seq<Event>)
    ensures Run(c, a + b) == Run(Run(c, a), b)
    ensures Careful(c, a + b) <==> Careful(c, a) && Careful(Run(c, a), b)
    decreases |a|
  {
    if a == [] {
      assert a + b == b;
    } else {
      assert a + b == [a[0]] + (a[1..] + b) && a == [a[0]] + a[1..];
      RunOne(c, a[0], a[1..] + b);
      RunOne(c, a[0], a[1..]);
      RunTwice(Step(c, a[0]), a[1..], b);
    }
  }

  lemma MishapArms(c: Client, n: nat)
    requires Tidy(c) && !Ignored(c) && c.intentionalClose && n < |c.attempts| && c.attempts[n].Dialing?
    ensures var later := Mishap(c);
            var d := Run(Step(c, CallerConnects), later);
            Careful(Step(c, CallerConnects), later) && d.timerArmed && n < |d.attempts| && d.attempts[n].Dialing?
  {
    var c0 := Step(c, CallerConnects);
    var later := Mishap(c);
    RunThree(c0, later[0], later[1], later[2]);
    var c1 := Step(c0, later[0]);
    assert c1.dials[|c.dials|] == Dial(Caller, Some(c.sockets), false) && c.sockets in c1.listening;
    var c2 := Step(c1, later[1]);
    assert c.sockets in c2.listening && c.sockets in c2.bound && c2.attempts == c.attempts && c2.waiter == c.waiter;
    assert !WaiterOwner(c).Attempt?;
    assert Lost(c2, c.sockets).timerArmed;
  }

  /**
   * The condition is exact. At every point of such a run, a `connect()` by the caller leaves all continuations of the same
   * kind with one retry at a time exactly when no attempt is still dialling after a disconnect, or the call is ignored.
   */
  lemma ConnectExact(reconnect: bool, events: seq<Event>)
    requires Careful(Initial(reconnect), events)
    ensures var c := Run(Initial(reconnect), events);
            var d := Step(c, CallerConnects);
            (forall later :: Careful(d, later) ==> OneRetry(Run(d, later))) <==> MayConnect(c)
  {
    InitialTidy(reconnect);
    RunTidy(Initial(reconnect), events);
    var c := Run(Initial(reconnect), events);
    var d := Step(c, CallerConnects);
    if MayConnect(c) {
      ConnectTidy(c);
      forall later | Careful(d, later)
        ensures OneRetry(Run(d, later))
      {
        RunTidy(d, later);
      }
    } else {
      var n :| 0 <= n < |c.attempts| && c.attempts[n].Dialing?;
      MishapArms(c, n);
      assert !OneRetry(Run(d, Mishap(c)));
    }
  }

  const FIRST_CONNECTION := [CallerConnects, CredentialsReady(0), HandshakeSucceeds(0, Surroundings("", false))]

  const LOST_AND_STOPPED := [SocketCloses(0), TimerFires, CallerDisconnects]

  /** A running connection, on the first socket, of a client that retries. */
  ghost predicate FirstConnected(c: Client) {
    && c.reconnect && !c.intentionalClose && !c.timerArmed && !c.inFlight && c.waiter.None? && c.attempts == []
    && 0 in c.listening && 0 in c.bound && c.socket == Some(0) && c.closing == {}
  }

  lemma Connects()
    ensures FirstConnected(Run(Initial(true), FIRST_CONNECTION)) && Careful(Initial(true), FIRST_CONNECTION)
  {
    RunThree(Initial(true), FIRST_CONNECTION[0], FIRST_CONNECTION[1], FIRST_CONNECTION[2]);
    var c2 := Step(Step(Initial(true), CallerConnects), CredentialsReady(0));
    assert c2.dials == [Dial(Caller, Some(0), false)] && c2.listening == {0} && c2.socket == Some(0);
  }

  lemma Stops(c: Client)
    requires FirstConnected(c)
    ensures Careful(c, LOST_AND_STOPPED) && !MayConnect(Run(c, LOST_AND_STOPPED))
  {
    RunThree(c, LOST_AND_STOPPED[0], LOST_AND_STOPPED[1], LOST_AND_STOPPED[2]);
    var c1 := Step(c, SocketCloses(0));
    assert c1.timerArmed && c1.attempts == [] && c1.socket.None? && c1.reconnect && !c1.intentionalClose;
    var c2 := Step(c1, TimerFires);
    assert c2.attempts == [Dialing] && c2.socket.None?;
    var c3 := Step(c2, CallerDisconnects);
    assert c3.attempts[0].Dialing? && c3.state.Disconnected? && c3.intentionalClose;
  }

  /** The condition can fail: a disconnect while a retry waits for its credentials, and a connect right after it. */
  lemma CarelessConnect()
    ensures var events := FIRST_CONNECTION + LOST_AND_STOPPED;
            Careful(Initial(true), events) && !MayConnect(Run(Initial(true), events))
  {
    Connects();
    Stops(Run(Initial(true), FIRST_CONNECTION));
    RunTwice(Initial(true), FIRST_CONNECTION, LOST_AND_STOPPED);
  }
}
