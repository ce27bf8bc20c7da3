/** Recording lifecycle events, one exchange at a time, and replaying what was recorded. */
module TrafficRecorder {
  import opened Bytes
  import opened BodyCodec
  import opened Messages
  import opened TrafficBody
  import opened TrafficStore
  import Text

  datatype Event =
    | RequestReceived(requestId: string, occurredAt: int, httpMethod: Method, path: string, headers: Headers, query: Headers,
                      body: TrafficBody, tunnelId: string, workspaceId: Option<string>)
    | ResponseReturned(requestId: string, occurredAt: int, httpMethod: Method, path: string, statusCode: int,
                       responseHeaders: Headers, responseBody: TrafficBody, latencyMs: int, tunnelId: string,
                       workspaceId: Option<string>)
    | RequestFailed(failedRequestId: Option<string>, occurredAt: int, httpMethod: Method, path: string, reason: string,
                    tunnelId: string, workspaceId: Option<string>)
  {
    /** The exchange the event belongs to; a failure before an id was assigned belongs to none. */
    function Id(): Option<string> {
      if RequestFailed? then failedRequestId else Some(requestId)
    }
  }

  /** The record an event starts when there is none yet. */
  function Started(e: Event, id: string): TrafficRecord {
    match e
    case RequestReceived(_, at, m, path, headers, query, body, tunnelId, ws) =>
      TrafficRecord(id, at, m, path, headers, query, body, None, map[], EMPTY_TRAFFIC_BODY, None, tunnelId, ws, None)
    case ResponseReturned(_, at, m, path, status, rh, rb, latency, tunnelId, ws) =>
      TrafficRecord(id, at - latency, m, path, map[], map[], EMPTY_TRAFFIC_BODY, Some(status), rh, rb, Some(latency), tunnelId, ws, None)
    case RequestFailed(_, at, m, path, reason, tunnelId, ws) =>
      TrafficRecord(id, at, m, path, map[], map[], EMPTY_TRAFFIC_BODY, None, map[], EMPTY_TRAFFIC_BODY, None, tunnelId, ws, Some(reason))
  }

  function PatchOf(e: Event): TrafficRecordPatch
    requires !e.RequestReceived?
  {
    match e
    case ResponseReturned(_, _, _, _, status, rh, rb, latency, _, _) =>
      TrafficRecordPatch(Some(status), Some(rh), Some(rb), Some(latency), None)
    case RequestFailed(_, _, _, _, reason, _, _) => TrafficRecordPatch(None, None, None, None, Some(reason))
  }

  /** A handler run against the log: a received request is saved, anything else updates or, failing that, saves. */
  function Handle(l: Log, e: Event, id: string, maxRecords: int, maxBodyBytes: nat): Log {
    if e.RequestReceived? || Key(id) !in l.records then SaveLog(l, Started(e, id), maxRecords, maxBodyBytes)
    else UpdateLog(l, id, PatchOf(e), maxBodyBytes)
  }

  /** What one exchange's record should be after one more of its events. */
  function Fold(r: Option<TrafficRecord>, e: Event, id: string, maxBodyBytes: nat): TrafficRecord {
    if e.RequestReceived? || r.None? then Normalize(Started(e, id), maxBodyBytes)
    else Patched(r.value, PatchOf(e), maxBodyBytes)
  }

  function FoldAll(events: seq<Event>, id: string, maxBodyBytes: nat): Option<TrafficRecord> {
    if events == [] then None
    else Some(Fold(FoldAll(events[..|events| - 1], id, maxBodyBytes), events[|events| - 1], id, maxBodyBytes))
  }

  /** The events of every exchange whose handlers have not run yet. */
  type Chains = map<string, seq<Event>>

  function Waiting(chains: Chains, id: string): seq<Event> {
    if id in chains then chains[id] else []
  }

  function Enqueue(chains: Chains, e: Event): Chains {
    if e.Id().None? then chains else chains[e.Id().value := Waiting(chains, e.Id().value) + [e]]
  }

  function Dequeue(chains: Chains, id: string): Chains {
    if Waiting(chains, id) == [] then chains
    else if |chains[id]| == 1 then chains - {id} else chains[id := chains[id][1..]]
  }

  class TrafficRecorder {
    const store: StorageTrafficRecordStore
    var started: bool
    var chains: Chains

    constructor (store: StorageTrafficRecordStore)
      ensures this.store == store && !started && chains == map[]
    {
      this.store, started, chains := store, false, map[];
    }

    method Start()
      modifies this`started
      ensures started
    {
      if started {
        return;
      }
      started := true;
    }

    method Stop()
      modifies this`started
      ensures !started
    {
      started := false;
    }

    /** An event reaches the recorder only while it is subscribed, and waits behind earlier ones of its exchange. */
    method Observe(e: Event)
      modifies this`chains
      ensures chains == if started then Enqueue(old(chains), e) else old(chains)
    {
      if !started {
        return;
      }
      if e.RequestFailed? && e.failedRequestId.None? {
        return;
      }
      var id := e.Id().value;
      var previous := if id in chains then chains[id] else [];
      chains := chains[id := previous + [e]];
    }

    /** Runs the task at the head of one chain; a chain that has run dry is forgotten. */
    method RunNext(id: string)
      requires store.Typed()
      modifies this`chains, store.storage
      ensures store.Typed() && chains == Dequeue(old(chains), id)
      ensures store.View() ==
              if Waiting(old(chains), id) == [] then old(store.View())
              else Handle(old(store.View()), Waiting(old(chains), id)[0], id, store.maxRecords, store.maxBodyBytes)
    {
      if id !in chains || |chains[id]| == 0 {
        return;
      }
      var e := chains[id][0];
      chains := if |chains[id]| == 1 then chains - {id} else chains[id := chains[id][1..]];
      if e.RequestReceived? {
        store.SaveRecord(Started(e, id));
        return;
      }
      var updated := store.UpdateRecord(id, PatchOf(e));
      if updated.Some? {
        return;
      }
      store.SaveRecord(Started(e, id));
    }
  }

  // Every schedule of publishing and of running the chains

  datatype Action = Publishes(e: Event) | Runs(id: string)

  datatype State = State(chains: Chains, log: Log)

  const EMPTY_STATE := State(map[], Log([], map[]))

  function Step(s: State, a: Action, maxRecords: int, maxBodyBytes: nat): State {
    match a
    case Publishes(e) => s.(chains := Enqueue(s.chains, e))
    case Runs(id) =>
      State(Dequeue(s.chains, id),
            if Waiting(s.chains, id) == [] then s.log
            else Handle(s.log, Waiting(s.chains, id)[0], id, maxRecords, maxBodyBytes))
  }

  function Run(schedule: seq<Action>, maxRecords: int, maxBodyBytes: nat): State {
    if schedule == [] then EMPTY_STATE
    else Step(Run(schedule[..|schedule| - 1], maxRecords, maxBodyBytes), schedule[|schedule| - 1], maxRecords, maxBodyBytes)
  }

  /** The events of one exchange, in the order they were published. */
  function Published(schedule: seq<Action>, id: string): seq<Event> {
    if schedule == [] then []
    else
      var a := schedule[|schedule| - 1];
      Published(schedule[..|schedule| - 1], id) + (if a.Publishes? && a.e.Id() == Some(id) then [a.e] else [])
  }

  /** The exchanges a schedule mentions. */
  function Ids(schedule: seq<Action>): set<string> {
    if schedule == [] then {}
    else
      var a := schedule[|schedule| - 1];
      Ids(schedule[..|schedule| - 1]) + (if a.Publishes? && a.e.Id().Some? then {a.e.Id().value} else {})
  }

  function Lookup(l: Log, id: string): Option<TrafficRecord> {
    if Key(id) in l.records then Some(l.records[Key(id)]) else None
  }

  /** Different exchanges are stored under different keys. */
  ghost predicate Distinguished(ids: set<string>) {
    forall a, b :: a in ids && b in ids && Key(a) == Key(b) ==> a == b
  }

  /** A first part of all events has been folded into the record, exactly, and the rest is waiting in order. */
  predicate Tracks(all: seq<Event>, waiting: seq<Event>, found: Option<TrafficRecord>, id: string, maxBodyBytes: nat) {
    && |waiting| <= |all| && waiting == all[|all| - |waiting|..]
    && found == FoldAll(all[..|all| - |waiting|], id, maxBodyBytes)
  }

  predicate Recorded(s: State, schedule: seq<Action>, id: string, maxBodyBytes: nat) {
    Tracks(Published(schedule, id), Waiting(s.chains, id), Lookup(s.log, id), id, maxBodyBytes)
  }

  /** The index and the chains mention only exchanges of the schedule. */
  ghost predicate Indices(s: State, ids: set<string>) {
    && Consistent(s.log)
    && (forall i :: 0 <= i < |s.log.order| ==> s.log.order[i] in ids)
    && (forall id :: id in s.chains ==> id in ids)
  }

  ghost predicate Inv(s: State, schedule: seq<Action>, maxBodyBytes: nat) {
    Indices(s, Ids(schedule)) && forall id :: id in Ids(schedule) ==> Recorded(s, schedule, id, maxBodyBytes)
  }

  lemma {:induction false} DistinctCount(ids: seq<string>, all: set<string>)
    requires forall i, j :: 0 <= i < j < |ids| ==> ids[i] != ids[j]
    requires forall i :: 0 <= i < |ids| ==> ids[i] in all
    ensures |ids| <= |all|
  {
    if ids != [] {
      var last := |ids| - 1;
      DistinctCount(ids[..last], all - {ids[last]});
    }
  }

  /** As long as every exchange has a place, nothing is evicted: a new record still finds room. */
  lemma Room(l: Log, ids: set<string>, id: string)
    requires Consistent(l) && id in ids && Key(id) !in l.records
    requires forall i :: 0 <= i < |l.order| ==> l.order[i] in ids
    ensures |l.order| < |ids|
  {
    forall i | 0 <= i < |l.order|
      ensures l.order[i] in ids - {id}
    {
      assert Key(l.order[i]) in l.records;
    }
    DistinctCount(l.order, ids - {id});
  }

  /** The log with one exchange's record written, appended to the index when it is new. */
  function WithRecord(l: Log, id: string, r: TrafficRecord): Log {
    Log(if Key(id) in l.records then l.order else l.order + [id], l.records[Key(id) := r])
  }

  lemma WithRecordConsistent(l: Log, id: string, r: TrafficRecord)
    requires Consistent(l)
    ensures Consistent(WithRecord(l, id, r))
  {
    if Key(id) in l.records {
      OverwriteRefines(l, Key(id), r);
    } else {
      AppendedConsistent(l, id, r);
    }
  }

  predicate HasRoom(l: Log, id: string, maxRecords: int) {
    Key(id) in l.records || |l.order| < Capacity(maxRecords)
  }

  lemma SaveWithRoom(l: Log, r: TrafficRecord, maxRecords: int, maxBodyBytes: nat)
    requires Key(r.requestId) !in l.records && |l.order| < Capacity(maxRecords)
    ensures SaveLog(l, r, maxRecords, maxBodyBytes)
            == Log(l.order + [r.requestId], l.records[Key(r.requestId) := Normalize(r, maxBodyBytes)])
  {
    var order := l.order + [r.requestId];
    assert order[..0] == [] && order[0..] == order;
    assert Keys([]) == {};
  }

  /** A handler with room for its record folds the event into that record and changes nothing else. */
  lemma HandleFolds(l: Log, e: Event, id: string, maxRecords: int, maxBodyBytes: nat)
    requires HasRoom(l, id, maxRecords)
    ensures Handle(l, e, id, maxRecords, maxBodyBytes) == WithRecord(l, id, Fold(Lookup(l, id), e, id, maxBodyBytes))
  {
    if Key(id) !in l.records {
      SaveWithRoom(l, Started(e, id), maxRecords, maxBodyBytes);
    }
  }

  lemma PublishedSnoc(schedule: seq<Action>, a: Action, id: string)
    ensures Published(schedule + [a], id)
            == Published(schedule, id) + (if a.Publishes? && a.e.Id() == Some(id) then [a.e] else [])
    ensures Ids(schedule + [a]) == Ids(schedule) + (if a.Publishes? && a.e.Id().Some? then {a.e.Id().value} else {})
  {
    assert (schedule + [a])[..|schedule|] == schedule;
  }

  lemma {:induction false} NothingPublished(schedule: seq<Action>, id: string)
    requires id !in Ids(schedule)
    ensures Published(schedule, id) == []
  {
    if schedule != [] {
      NothingPublished(schedule[..|schedule| - 1], id);
    }
  }

  lemma TracksPublished(all: seq<Event>, waiting: seq<Event>, found: Option<TrafficRecord>, e: Event, id: string, maxBodyBytes: nat)
    requires Tracks(all, waiting, found, id, maxBodyBytes)
    ensures Tracks(all + [e], waiting + [e], found, id, maxBodyBytes)
  {
    assert (all + [e])[|all| - |waiting|..] == waiting + [e];
    assert (all + [e])[..|all| - |waiting|] == all[..|all| - |waiting|];
  }

  lemma TracksHandled(all: seq<Event>, waiting: seq<Event>, found: Option<TrafficRecord>, id: string, maxBodyBytes: nat)
    requires Tracks(all, waiting, found, id, maxBodyBytes) && waiting != []
    ensures Tracks(all, waiting[1..], Some(Fold(found, waiting[0], id, maxBodyBytes)), id, maxBodyBytes)
  {
    var m := |all| - |waiting|;
    assert all[..m + 1][..m] == all[..m];
    assert all[m] == waiting[0];
    assert all[m + 1..] == waiting[1..];
  }

  lemma PublishRecorded(s: State, schedule: seq<Action>, e: Event, id: string, maxBodyBytes: nat)
    requires Recorded(s, schedule, id, maxBodyBytes)
    ensures Recorded(s.(chains := Enqueue(s.chains, e)), schedule + [Publishes(e)], id, maxBodyBytes)
  {
    PublishedSnoc(schedule, Publishes(e), id);
    var all, waiting := Published(schedule, id), Waiting(s.chains, id);
    if e.Id() == Some(id) {
      TracksPublished(all, waiting, Lookup(s.log, id), e, id, maxBodyBytes);
      assert Waiting(Enqueue(s.chains, e), id) == waiting + [e];
    } else {
      assert Waiting(Enqueue(s.chains, e), id) == waiting;
      assert all + [] == all;
    }
  }

  lemma Unpublished(schedule: seq<Action>, ran: string, id: string)
    ensures Published(schedule + [Runs(ran)], id) == Published(schedule, id)
    ensures Ids(schedule + [Runs(ran)]) == Ids(schedule)
  {
    PublishedSnoc(schedule, Runs(ran), id);
  }

  lemma Dequeued(chains: Chains, ran: string, id: string)
    requires Waiting(chains, ran) != []
    ensures Waiting(Dequeue(chains, ran), id) == if id == ran then Waiting(chains, id)[1..] else Waiting(chains, id)
  {
  }

  /** Running one chain moves its exchange one event on and leaves every other exchange where it was. */
  lemma RunRecorded(s: State, schedule: seq<Action>, ran: string, id: string, maxRecords: int, maxBodyBytes: nat)
    requires Recorded(s, schedule, id, maxBodyBytes) && Waiting(s.chains, ran) != []
    requires HasRoom(s.log, ran, maxRecords) && (Key(id) == Key(ran) ==> id == ran)
    ensures Recorded(Step(s, Runs(ran), maxRecords, maxBodyBytes), schedule + [Runs(ran)], id, maxBodyBytes)
  {
    Unpublished(schedule, ran, id);
    Dequeued(s.chains, ran, id);
    HandleFolds(s.log, Waiting(s.chains, ran)[0], ran, maxRecords, maxBodyBytes);
    if id == ran {
      TracksHandled(Published(schedule, id), Waiting(s.chains, id), Lookup(s.log, id), id, maxBodyBytes);
    }
  }

  lemma RunIndices(s: State, ids: set<string>, id: string, maxRecords: int, maxBodyBytes: nat)
    requires Indices(s, ids) && |ids| <= Capacity(maxRecords) && Waiting(s.chains, id) != []
    ensures HasRoom(s.log, id, maxRecords)
    ensures Indices(Step(s, Runs(id), maxRecords, maxBodyBytes), ids)
  {
    if Key(id) !in s.log.records {
      Room(s.log, ids, id);
    }
    var e := Waiting(s.chains, id)[0];
    HandleFolds(s.log, e, id, maxRecords, maxBodyBytes);
    WithRecordConsistent(s.log, id, Fold(Lookup(s.log, id), e, id, maxBodyBytes));
  }

  lemma NewlyRecorded(s: State, schedule: seq<Action>, id: string, maxBodyBytes: nat)
    requires Indices(s, Ids(schedule)) && id !in Ids(schedule)
    requires forall other :: other in Ids(schedule) ==> Key(other) != Key(id)
    ensures Recorded(s, schedule, id, maxBodyBytes)
  {
    NothingPublished(schedule, id);
    assert forall i :: 0 <= i < |s.log.order| ==> Key(s.log.order[i]) != Key(id);
  }

  lemma PublishInv(s: State, schedule: seq<Action>, e: Event, maxBodyBytes: nat)
    requires Inv(s, schedule, maxBodyBytes) && Distinguished(Ids(schedule + [Publishes(e)]))
    ensures Inv(s.(chains := Enqueue(s.chains, e)), schedule + [Publishes(e)], maxBodyBytes)
  {
    PublishedSnoc(schedule, Publishes(e), "");
    forall id | id in Ids(schedule + [Publishes(e)])
      ensures Recorded(s.(chains := Enqueue(s.chains, e)), schedule + [Publishes(e)], id, maxBodyBytes)
    {
      if id !in Ids(schedule) {
        NewlyRecorded(s, schedule, id, maxBodyBytes);
      }
      PublishRecorded(s, schedule, e, id, maxBodyBytes);
    }
  }

  lemma RunChainInv(s: State, schedule: seq<Action>, ran: string, maxRecords: int, maxBodyBytes: nat)
    requires Inv(s, schedule, maxBodyBytes)
    requires Distinguished(Ids(schedule)) && |Ids(schedule)| <= Capacity(maxRecords)
    ensures Inv(Step(s, Runs(ran), maxRecords, maxBodyBytes), schedule + [Runs(ran)], maxBodyBytes)
  {
    Unpublished(schedule, ran, "");
    if Waiting(s.chains, ran) != [] {
      RunIndices(s, Ids(schedule), ran, maxRecords, maxBodyBytes);
    }
    forall id | id in Ids(schedule)
      ensures Recorded(Step(s, Runs(ran), maxRecords, maxBodyBytes), schedule + [Runs(ran)], id, maxBodyBytes)
    {
      if Waiting(s.chains, ran) == [] {
        Unpublished(schedule, ran, id);
      } else {
        RunRecorded(s, schedule, ran, id, maxRecords, maxBodyBytes);
      }
    }
  }

  lemma IdsGrow(schedule: seq<Action>, a: Action)
    ensures Ids(schedule) <= Ids(schedule + [a]) && |Ids(schedule)| <= |Ids(schedule + [a])|
  {
    PublishedSnoc(schedule, a, "");
    var added := Ids(schedule + [a]) - Ids(schedule);
    assert Ids(schedule + [a]) == Ids(schedule) + added;
  }

  /**
   * For every schedule of publishing and chain runs in which every exchange has a place in the log, each record is the
   * fold of its own events in publish order, as far as its chain has run.
   */
  lemma {:induction false} RunInv(schedule: seq<Action>, maxRecords: int, maxBodyBytes: nat)
    requires Distinguished(Ids(schedule)) && |Ids(schedule)| <= Capacity(maxRecords)
    ensures Inv(Run(schedule, maxRecords, maxBodyBytes), schedule, maxBodyBytes)
  {
    if schedule != [] {
      var earlier, a := schedule[..|schedule| - 1], schedule[|schedule| - 1];
      assert schedule == earlier + [a];
      IdsGrow(earlier, a);
      RunInv(earlier, maxRecords, maxBodyBytes);
      match a
      case Publishes(e) => PublishInv(Run(earlier, maxRecords, maxBodyBytes), earlier, e, maxBodyBytes);
      case Runs(id) =>
        Unpublished(earlier, id, "");
        RunChainInv(Run(earlier, maxRecords, maxBodyBytes), earlier, id, maxRecords, maxBodyBytes);
    }
  }

  /** Once an exchange's chain has run dry its record is the fold of everything published for it. */
  lemma SettledRecord(schedule: seq<Action>, id: string, maxRecords: int, maxBodyBytes: nat)
    requires Distinguished(Ids(schedule)) && |Ids(schedule)| <= Capacity(maxRecords) && id in Ids(schedule)
    requires id !in Run(schedule, maxRecords, maxBodyBytes).chains
    ensures Lookup(Run(schedule, maxRecords, maxBodyBytes).log, id) == FoldAll(Published(schedule, id), id, maxBodyBytes)
  {
    RunInv(schedule, maxRecords, maxBodyBytes);
    var all := Published(schedule, id);
    assert Recorded(Run(schedule, maxRecords, maxBodyBytes), schedule, id, maxBodyBytes);
    assert all[..|all|] == all;
  }
}
