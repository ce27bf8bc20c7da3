/** Silent clients are swept away by one shared timer. */
module Heartbeat {
  import opened Bytes

  type Socket = nat

  /** `nextSweep` is when the running interval timer fires next. */
  datatype Monitor = Monitor(timeoutMs: nat, sweepIntervalMs: nat, lastBeatAt: map<Socket, int>, nextSweep: Option<int>)

  function DefaultSweepInterval(timeoutMs: nat): nat {
    (timeoutMs + 3) / 4
  }

  function EnsureTimer(m: Monitor, now: int): Monitor {
    if m.nextSweep.Some? then m else m.(nextSweep := Some(now + m.sweepIntervalMs))
  }

  function StopWhenEmpty(m: Monitor): Monitor {
    if m.lastBeatAt == map[] then m.(nextSweep := None) else m
  }

  function Register(m: Monitor, client: Socket, now: int): Monitor {
    EnsureTimer(m.(lastBeatAt := m.lastBeatAt[client := now]), now)
  }

  function Beat(m: Monitor, client: Socket, now: int): Monitor {
    if client in m.lastBeatAt then m.(lastBeatAt := m.lastBeatAt[client := now]) else m
  }

  function Unregister(m: Monitor, client: Socket): Monitor {
    StopWhenEmpty(m.(lastBeatAt := m.lastBeatAt - {client}))
  }

  predicate Silent(m: Monitor, client: Socket, now: int)
    requires client in m.lastBeatAt
  {
    now - m.lastBeatAt[client] > m.timeoutMs
  }

  /** Those terminated by a sweep at `now`. */
  function Terminated(m: Monitor, now: int): set<Socket> {
    set c | c in m.lastBeatAt && Silent(m, c, now)
  }

  /** A sweep at `now`; the interval timer is armed again for one interval later. */
  function Sweep(m: Monitor, now: int): Monitor {
    StopWhenEmpty(m.(lastBeatAt := m.lastBeatAt - Terminated(m, now),
                     nextSweep := if m.nextSweep.Some? then Some(now + m.sweepIntervalMs) else None))
  }

  class HeartbeatMonitor {
    const timeoutMs: nat
    const sweepIntervalMs: nat
    var lastBeatAt: map<Socket, int>
    var nextSweep: Option<int>

    ghost function View(): Monitor
      reads this
    {
      Monitor(timeoutMs, sweepIntervalMs, lastBeatAt, nextSweep)
    }

    constructor (timeoutMs: nat, sweepIntervalMs: Option<nat>)
      ensures View() == Monitor(timeoutMs, if sweepIntervalMs.Some? then sweepIntervalMs.value else DefaultSweepInterval(timeoutMs), map[], None)
    {
      this.timeoutMs := timeoutMs;
      this.sweepIntervalMs := if sweepIntervalMs.Some? then sweepIntervalMs.value else DefaultSweepInterval(timeoutMs);
      lastBeatAt, nextSweep := map[], None;
    }

    method RegisterClient(client: Socket, now: int)
      modifies this
      ensures View() == Register(old(View()), client, now)
    {
      lastBeatAt := lastBeatAt[client := now];
      if nextSweep.None? {
        nextSweep := Some(now + sweepIntervalMs);
      }
    }

    method BeatClient(client: Socket, now: int)
      modifies this
      ensures View() == Beat(old(View()), client, now)
    {
      if client in lastBeatAt {
        lastBeatAt := lastBeatAt[client := now];
      }
    }

    method UnregisterClient(client: Socket)
      modifies this
      ensures View() == Unregister(old(View()), client)
    {
      lastBeatAt := lastBeatAt - {client};
      if |lastBeatAt| == 0 {
        nextSweep := None;
      }
    }

    method SweepClients(now: int) returns (terminated: set<Socket>)
      modifies this
      ensures View() == Sweep(old(View()), now)
      ensures terminated == Terminated(old(View()), now)
    {
      ghost var before := View();
      terminated := {};
      var todo := lastBeatAt.Keys;
      while todo != {}
        invariant todo <= before.lastBeatAt.Keys
        invariant nextSweep == before.nextSweep
        invariant terminated == set c | c in before.lastBeatAt && Silent(before, c, now) && c !in todo
        invariant lastBeatAt == before.lastBeatAt - terminated
        decreases |todo|
      {
        var client :| client in todo;
        assert client !in terminated && client in lastBeatAt;
        if now - lastBeatAt[client] > timeoutMs {
          lastBeatAt := lastBeatAt - {client};
          terminated := terminated + {client};
        }
        todo := todo - {client};
      }
      assert terminated == Terminated(before, now);
      nextSweep := if nextSweep.Some? then Some(now + sweepIntervalMs) else None;
      if |lastBeatAt| == 0 {
        nextSweep := None;
      }
    }
  }

  // Timed runs: the timer fires exactly when it is due, before anything later happens

  datatype Event =
    | Registers(client: Socket)
    | Beats(client: Socket)
    | Unregisters(client: Socket)
    | Sweeps

  datatype Timed = Timed(event: Event, at: int)

  /** The event can be next after time `clock`: a due sweep is never overtaken, and none fires early. */
  predicate Timely(m: Monitor, clock: int, e: Timed) {
    && clock <= e.at
    && (m.nextSweep.Some? ==> e.at <= m.nextSweep.value)
    && (e.event.Sweeps? ==> m.nextSweep == Some(e.at))
  }

  function Step(m: Monitor, e: Timed): Monitor {
    match e.event
    case Registers(c) => Register(m, c, e.at)
    case Beats(c) => Beat(m, c, e.at)
    case Unregisters(c) => Unregister(m, c)
    case Sweeps => Sweep(m, e.at)
  }

  function Run(m: Monitor, run: seq<Timed>): Monitor
    decreases |run|
  {
    if run == [] then m else Run(Step(m, run[0]), run[1..])
  }

  predicate TimelyRun(m: Monitor, clock: int, run: seq<Timed>)
    decreases |run|
  {
    run == [] || (Timely(m, clock, run[0]) && TimelyRun(Step(m, run[0]), run[0].at, run[1..]))
  }

  /**
   * At time `clock`: the timer runs exactly when someone is tracked, fires within one interval, and before any
   * tracked client has been silent for longer than the timeout and one interval.
   */
  ghost predicate Watched(m: Monitor, clock: int) {
    && (m.nextSweep.Some? <==> m.lastBeatAt != map[])
    && (m.nextSweep.Some? ==> clock <= m.nextSweep.value <= clock + m.sweepIntervalMs)
    && (forall c :: c in m.lastBeatAt ==>
          m.lastBeatAt[c] <= clock && m.nextSweep.Some? && m.nextSweep.value <= m.lastBeatAt[c] + m.timeoutMs + m.sweepIntervalMs)
  }

  lemma StepWatched(m: Monitor, clock: int, e: Timed)
    requires Watched(m, clock) && Timely(m, clock, e)
    ensures Watched(Step(m, e), e.at)
  {
    match e.event
    case Registers(c) =>
      assert c in Step(m, e).lastBeatAt;
    case Beats(c) =>
      assert c in m.lastBeatAt ==> c in Step(m, e).lastBeatAt;
    case Unregisters(c) =>
    case Sweeps =>
  }

  lemma {:induction false} RunWatched(m: Monitor, clock: int, run: seq<Timed>)
    requires Watched(m, clock) && TimelyRun(m, clock, run)
    ensures Watched(Run(m, run), if run == [] then clock else run[|run| - 1].at)
    decreases |run|
  {
    if run != [] {
      StepWatched(m, clock, run[0]);
      RunWatched(Step(m, run[0]), run[0].at, run[1..]);
    }
  }

  /** The last sign of life of a client in a run, its connection included. */
  function LastSign(run: seq<Timed>, client: Socket): Option<int> {
    if run == [] then None
    else
      var e := run[|run| - 1];
      if e.event == Registers(client) || e.event == Beats(client) then Some(e.at)
      else LastSign(run[..|run| - 1], client)
  }

  lemma {:induction false} RunSnoc(m: Monitor, run: seq<Timed>, e: Timed)
    ensures Run(m, run + [e]) == Step(Run(m, run), e)
    decreases |run|
  {
    if run == [] {
      assert [e][1..] == [];
    } else {
      assert (run + [e])[1..] == run[1..] + [e];
      RunSnoc(Step(m, run[0]), run[1..], e);
    }
  }

  /** What is remembered of a tracked client is its last sign of life. */
  lemma {:induction false} TracksLastSign(m: Monitor, run: seq<Timed>, client: Socket)
    requires m.lastBeatAt == map[]
    ensures client in Run(m, run).lastBeatAt ==> LastSign(run, client) == Some(Run(m, run).lastBeatAt[client])
  {
    if run != [] {
      var earlier, e := run[..|run| - 1], run[|run| - 1];
      assert run == earlier + [e];
      RunSnoc(m, earlier, e);
      TracksLastSign(m, earlier, client);
    }
  }

  lemma {:induction false} SettingsKept(m: Monitor, run: seq<Timed>)
    ensures Run(m, run).timeoutMs == m.timeoutMs && Run(m, run).sweepIntervalMs == m.sweepIntervalMs
    decreases |run|
  {
    if run != [] {
      SettingsKept(Step(m, run[0]), run[1..]);
    }
  }

  /**
   * For every timely run from the start: whoever a sweep terminates has been silent for more than the timeout, and
   * nobody is tracked at a moment later than their last sign of life, the timeout and one sweep interval.
   */
  lemma SilenceBounds(timeoutMs: nat, sweepIntervalMs: nat, start: int, run: seq<Timed>, now: int, client: Socket)
    requires TimelyRun(Monitor(timeoutMs, sweepIntervalMs, map[], None), start, run)
    requires now >= (if run == [] then start else run[|run| - 1].at)
    requires var m := Run(Monitor(timeoutMs, sweepIntervalMs, map[], None), run);
             client in m.lastBeatAt && (m.nextSweep.Some? ==> now <= m.nextSweep.value)
    ensures var m := Run(Monitor(timeoutMs, sweepIntervalMs, map[], None), run);
            && LastSign(run, client).Some?
            && now <= LastSign(run, client).value + timeoutMs + sweepIntervalMs
            && (client in Terminated(m, now) <==> now - LastSign(run, client).value > timeoutMs)
            && (client in Sweep(m, now).lastBeatAt <==> client !in Terminated(m, now))
  {
    var m0 := Monitor(timeoutMs, sweepIntervalMs, map[], None);
    RunWatched(m0, start, run);
    TracksLastSign(m0, run, client);
    SettingsKept(m0, run);
  }
}
