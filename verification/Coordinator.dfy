/** Correlation of response frames with the exchanges that wait for them. */
module Coordinator {
  import opened Bytes
  import opened Messages
  import opened ExchangeQueue
  import BodyCodec
  import Text

  const MAX_PENDING_HTTP_EXCHANGES: nat := 500

  const MAX_EXCHANGE_BUFFER_BYTES: nat := 10 * 1024 * 1024

  /** `entries` holds the latest exchange of every id ever begun, `pending` those still registered. */
  datatype Server = Server(entries: map<string, Exchange>, pending: set<string>, maxPending: nat, maxBuffer: nat)

  function Initial(maxPending: nat, maxBuffer: nat): Server {
    Server(map[], {}, maxPending, maxBuffer)
  }

  predicate CanBegin(s: Server, id: string) {
    id !in s.pending && |s.pending| < s.maxPending
  }

  function Refusal(alreadyPending: bool, id: string, maxPending: nat): string {
    if alreadyPending then "HTTP exchange already pending for requestId " + id
    else "Too many in-flight HTTP exchanges (limit " + Text.Decimal(maxPending) + ")."
  }

  function Begin(s: Server, id: string): Server {
    if CanBegin(s, id) then s.(entries := s.entries[id := FRESH_EXCHANGE], pending := s.pending + {id}) else s
  }

  predicate IsResponsePlane(m: Message) {
    m.ResponseStart? || m.ResponseChunk? || m.ResponseEnd? || m.Cancel? || m.Error?
  }

  /** The registered exchange that will consume `m`, if any. */
  function Recipient(s: Server, m: Message): Option<string> {
    var id := m.Exchange();
    if id.Some? && id.value in s.pending && IsResponsePlane(m) then id else None
  }

  function Settle(s: Server, id: string, e: Exchange): Server {
    s.(entries := s.entries[id := e], pending := if e.bodyEnded then s.pending - {id} else s.pending)
  }

  function DeliverTo(s: Server, m: Message): Server {
    var id := Recipient(s, m);
    if id.Some? && id.value in s.entries
    then Settle(s, id.value, Deliver(s.entries[id.value], m, s.maxBuffer))
    else s
  }

  function FailAt(s: Server, id: string, reason: string): Server {
    if id in s.entries && s.entries[id].failed.None? then Settle(s, id, Fail(s.entries[id], reason)) else s
  }

  function Complete(s: Server, id: string): Server {
    s.(pending := s.pending - {id})
  }

  datatype Event =
    | Begun(id: string)
    | Arrived(frame: Message)
    | Failed(id: string, reason: string)
    | Completed(id: string)
    | Pulled(id: string)
    | Resumed(id: string)

  function Step(s: Server, ev: Event): Server {
    match ev
    case Begun(id) => Begin(s, id)
    case Arrived(m) => DeliverTo(s, m)
    case Failed(id, reason) => FailAt(s, id, reason)
    case Completed(id) => Complete(s, id)
    case Pulled(id) => if id in s.entries then s.(entries := s.entries[id := Pull(s.entries[id])]) else s
    case Resumed(id) => if id in s.entries then s.(entries := s.entries[id := Resume(s.entries[id])]) else s
  }

  function Run(s: Server, events: seq<Event>): Server
    decreases |events|
  {
    if events == [] then s else Run(Step(s, events[0]), events[1..])
  }

  ghost predicate Inv(s: Server) {
    && |s.pending| <= s.maxPending
    && (forall id :: id in s.entries ==> Sound(s.entries[id], s.maxBuffer))
    && (forall id :: id in s.pending ==> id in s.entries && !s.entries[id].bodyEnded && s.entries[id].failed.None?)
  }

  lemma SubsetSize<T>(a: set<T>, b: set<T>)
    requires a <= b
    ensures |a| <= |b|
  {
    assert b == a + (b - a);
  }

  lemma SettleInv(s: Server, id: string, e: Exchange)
    requires Inv(s) && Sound(e, s.maxBuffer)
    ensures Inv(Settle(s, id, e))
  {
    var t := Settle(s, id, e);
    assert t.pending <= s.pending;
    SubsetSize(t.pending, s.pending);
  }

  /** Replacing a record by one that has not gained a failure or an end keeps the invariant. */
  lemma ReplaceInv(s: Server, id: string, e: Exchange)
    requires Inv(s) && id in s.entries && Sound(e, s.maxBuffer)
    requires e.bodyEnded == s.entries[id].bodyEnded && e.failed == s.entries[id].failed
    ensures Inv(s.(entries := s.entries[id := e]))
  {
  }

  lemma StepInv(s: Server, ev: Event)
    requires Inv(s)
    ensures Inv(Step(s, ev))
  {
    match ev
    case Begun(id) =>
      FreshSound(s.maxBuffer);
    case Arrived(m) =>
      if Recipient(s, m).Some? {
        var id := m.Exchange().value;
        DeliverSound(s.entries[id], m, s.maxBuffer);
        SettleInv(s, id, Deliver(s.entries[id], m, s.maxBuffer));
      }
    case Failed(id, reason) =>
      if id in s.entries {
        FailSound(s.entries[id], reason, s.maxBuffer);
        SettleInv(s, id, Fail(s.entries[id], reason));
      }
    case Completed(id) =>
      SubsetSize(s.pending - {id}, s.pending);
    case Pulled(id) =>
      if id in s.entries {
        PullSound(s.entries[id], s.maxBuffer);
        ReplaceInv(s, id, Pull(s.entries[id]));
      }
    case Resumed(id) =>
      if id in s.entries {
        ResumeSound(s.entries[id], s.maxBuffer);
        ReplaceInv(s, id, Resume(s.entries[id]));
      }
  }

  /** In every reachable state: bounded registrations, bounded buffers, and output that is a prefix of the input. */
  lemma {:induction false} RunInv(s: Server, events: seq<Event>)
    requires Inv(s)
    ensures Inv(Run(s, events))
    decreases |events|
  {
    if events != [] {
      StepInv(s, events[0]);
      RunInv(Step(s, events[0]), events[1..]);
    }
  }

  lemma InitialInv(maxPending: nat, maxBuffer: nat)
    ensures Inv(Initial(maxPending, maxBuffer))
  {
  }

  /** In every state that any sequence of events can reach from the start. */
  lemma Reachable(maxPending: nat, maxBuffer: nat, events: seq<Event>)
    ensures Inv(Run(Initial(maxPending, maxBuffer), events))
  {
    InitialInv(maxPending, maxBuffer);
    RunInv(Initial(maxPending, maxBuffer), events);
  }

  /** A frame reaches at most the exchange whose id it carries. */
  lemma OtherExchangesUntouched(s: Server, m: Message, id: string)
    requires m.Exchange() != Some(id)
    ensures id in s.entries <==> id in DeliverTo(s, m).entries
    ensures id in s.entries ==> DeliverTo(s, m).entries[id] == s.entries[id]
    ensures id in s.pending <==> id in DeliverTo(s, m).pending
  {
  }

  /** An exchange record shared by the registry, its failure handle and its body generator. */
  class PendingExchange {
    const requestId: string
    var start: StartFuture
    var buffer: seq<bytes>
    var bufferedBytes: int
    var bodyEnded: bool
    var failed: Option<string>
    var consumer: Consumer
    ghost var accepted: seq<bytes>
    ghost var yielded: seq<bytes>

    ghost function State(): Exchange
      reads this
    {
      Exchange(start, buffer, bufferedBytes, bodyEnded, failed, consumer, accepted, yielded)
    }

    constructor (requestId: string)
      ensures this.requestId == requestId && State() == FRESH_EXCHANGE
    {
      this.requestId := requestId;
      start, buffer, bufferedBytes, bodyEnded := Waiting, [], 0, false;
      failed, consumer := None, Idle;
      accepted, yielded := [], [];
    }

    method SettleFailure(reason: string)
      modifies this
      ensures State() == Fail(old(State()), reason)
    {
      if failed.Some? {
        return;
      }
      failed := Some(reason);
      bodyEnded := true;
      if start.Waiting? {
        start := Rejected(reason);
      }
      if consumer.Parked? {
        consumer := Woken;
      }
    }

    method EndBody()
      modifies this
      ensures State() == Ended(old(State()))
    {
      bodyEnded := true;
      if consumer.Parked? {
        consumer := Woken;
      }
    }

    /** Runs the body generator up to its next `yield`, `return`, `throw` or wait. */
    method Next() returns (chunk: Option<bytes>)
      modifies this
      ensures State() == Pull(old(State()))
      ensures yielded == old(yielded) + (if chunk.Some? then [chunk.value] else [])
    {
      chunk := None;
      if !consumer.Idle? {
        return;
      }
      if failed.Some? {
        consumer := Thrown;
        return;
      }
      if |buffer| > 0 {
        var buffered := buffer[0];
        buffer := buffer[1..];
        bufferedBytes := if bufferedBytes - |buffered| < 0 then 0 else bufferedBytes - |buffered|;
        yielded := yielded + [buffered];
        return Some(buffered);
      }
      if bodyEnded {
        consumer := Returned;
        return;
      }
      consumer := Parked;
    }

    /** Continues the body generator after its wait was settled. */
    method Continue() returns (chunk: Option<bytes>)
      modifies this
      ensures State() == Resume(old(State()))
      ensures yielded == old(yielded) + (if chunk.Some? then [chunk.value] else [])
    {
      chunk := None;
      if !(consumer.Handed? || consumer.Woken?) {
        return;
      }
      if failed.Some? {
        consumer := Thrown;
        return;
      }
      if consumer.Woken? {
        consumer := Returned;
        return;
      }
      chunk := Some(consumer.chunk);
      yielded := yielded + [consumer.chunk];
      consumer := Idle;
    }
  }

  ghost function States(entries: map<string, PendingExchange>): map<string, Exchange>
    reads entries.Values
  {
    map id | id in entries :: entries[id].State()
  }

  lemma StatesUpdate(entries: map<string, PendingExchange>, id: string, e: PendingExchange)
    ensures States(entries[id := e]) == States(entries)[id := e.State()]
  {
  }

  class HttpExchangeCoordinator {
    const maxPending: nat
    const maxBufferBytes: nat
    var pending: map<string, PendingExchange>
    ghost var entries: map<string, PendingExchange>

    ghost predicate Valid()
      reads this, entries.Values, pending.Values
    {
      && (forall id :: id in entries ==> entries[id].requestId == id)
      && (forall id :: id in pending ==> id in entries && pending[id] == entries[id])
      && (forall id :: id in pending ==> !pending[id].bodyEnded && pending[id].failed.None?)
    }

    ghost function View(): Server
      reads this, entries.Values
    {
      Server(States(entries), pending.Keys, maxPending, maxBufferBytes)
    }

    constructor (maxPending: nat, maxBufferBytes: nat)
      ensures Valid() && View() == Initial(maxPending, maxBufferBytes)
    {
      this.maxPending := maxPending;
      this.maxBufferBytes := maxBufferBytes;
      pending := map[];
      entries := map[];
    }

    method Register(entry: PendingExchange)
      requires Valid() && CanBegin(View(), entry.requestId) && entry.State() == FRESH_EXCHANGE
      modifies this
      ensures Valid() && View() == Begin(old(View()), entry.requestId)
      ensures entries == old(entries)[entry.requestId := entry]
    {
      ghost var before := View();
      pending := pending[entry.requestId := entry];
      entries := entries[entry.requestId := entry];
      StatesUpdate(old(entries), entry.requestId, entry);
      assert pending.Keys == before.pending + {entry.requestId};
    }

    method BeginExchange(requestId: string) returns (r: Result<PendingExchange>)
      requires Valid()
      modifies this
      ensures Valid() && View() == Begin(old(View()), requestId)
      ensures r.Ok? <==> CanBegin(old(View()), requestId)
      ensures r.Ok? ==> fresh(r.value) && entries == old(entries)[requestId := r.value]
      ensures r.Err? ==> entries == old(entries)
      ensures r.Err? ==> r.error == Refusal(requestId in old(pending), requestId, maxPending)
    {
      assert View().pending == pending.Keys && |pending| == |pending.Keys|;
      if requestId in pending {
        return Err(Refusal(true, requestId, maxPending));
      }
      if |pending| >= maxPending {
        return Err(Refusal(false, requestId, maxPending));
      }
      var entry := new PendingExchange(requestId);
      Register(entry);
      return Ok(entry);
    }

    /** The exchange is the one that its id stands for now, not one whose id was registered anew since. */
    ghost predicate Current(entry: PendingExchange)
      reads this
    {
      entry.requestId in entries && entries[entry.requestId] == entry
    }

    /**
     * A failure settles its own exchange and forgets whatever registration its id has: of a stale handle, that is the newer
     * exchange's, which is left unsettled.
     */
    method FailExchange(entry: PendingExchange, reason: string)
      requires Valid()
      modifies this`pending, entry
      ensures Valid() && entries == old(entries)
      ensures entry.State() == Fail(old(entry.State()), reason)
      ensures Current(entry) ==> View() == FailAt(old(View()), entry.requestId, reason)
      ensures !Current(entry) ==>
                View() == if old(entry.failed).None? then Complete(old(View()), entry.requestId) else old(View())
    {
      ghost var before := View();
      if entry.failed.Some? {
        return;
      }
      entry.SettleFailure(reason);
      pending := pending - {entry.requestId};
      if Current(entry) {
        assert View() == FailAt(before, entry.requestId, reason);
      } else {
        assert View() == Complete(before, entry.requestId);
      }
    }

    method PushBody(entry: PendingExchange, chunk: bytes)
      requires Valid()
      requires entry.requestId in pending && entries[entry.requestId] == entry
      modifies this`pending, entry
      ensures Valid() && entries == old(entries)
      ensures View() == Settle(old(View()), entry.requestId, PushChunk(old(entry.State()), chunk, maxBufferBytes))
    {
      ghost var before := View();
      if entry.consumer.Parked? {
        entry.consumer := Handed(chunk);
        entry.accepted := entry.accepted + [chunk];
      } else if entry.bufferedBytes + |chunk| > maxBufferBytes {
        FailExchange(entry, OverflowReason(maxBufferBytes));
      } else {
        entry.buffer := entry.buffer + [chunk];
        entry.bufferedBytes := entry.bufferedBytes + |chunk|;
        entry.accepted := entry.accepted + [chunk];
      }
      assert View() == Settle(before, entry.requestId, PushChunk(old(entry.State()), chunk, maxBufferBytes));
    }

    /** Only `entry` differs from what the view was. */
    lemma OneChanged(before: Server, entry: PendingExchange)
      requires entry.requestId in entries && entries[entry.requestId] == entry
      requires before.entries.Keys + {entry.requestId} == entries.Keys
      requires forall id :: id in entries && id != entry.requestId ==> before.entries[id] == entries[id].State()
      ensures View().entries == before.entries[entry.requestId := entry.State()]
    {
    }

    method OnResponseStart(entry: PendingExchange, m: Message)
      requires Valid() && m.ResponseStart?
      requires entry.requestId in pending && entries[entry.requestId] == entry
      modifies this`pending, entry
      ensures Valid() && entries == old(entries)
      ensures View() == Settle(old(View()), entry.requestId, Deliver(old(entry.State()), m, maxBufferBytes))
    {
      ghost var before := View();
      if !entry.start.Waiting? {
        FailExchange(entry, DUPLICATE_START);
        return;
      }
      entry.start := Resolved(m);
      OneChanged(before, entry);
    }

    method OnResponseEnd(entry: PendingExchange)
      requires Valid() && entry.requestId in pending && entries[entry.requestId] == entry
      modifies this`pending, entry
      ensures Valid() && entries == old(entries)
      ensures View() == Settle(old(View()), entry.requestId, Ended(old(entry.State())))
    {
      ghost var before := View();
      entry.EndBody();
      pending := pending - {entry.requestId};
      OneChanged(before, entry);
    }

    method DeliverFrame(m: Message) returns (consumed: bool)
      requires Valid()
      modifies this`pending, entries.Values
      ensures Valid() && View() == DeliverTo(old(View()), m)
      ensures entries == old(entries)
      ensures consumed <==> Recipient(old(View()), m).Some?
    {
      ghost var before := View();
      var id := m.Exchange();
      if id.None? || id.value !in pending || !IsResponsePlane(m) {
        return false;
      }
      var entry := pending[id.value];
      ghost var was := entry.State();
      assert before.entries[id.value] == was && !was.bodyEnded && was.failed.None?;
      match m {
        case Error(_, _, text) =>
          FailExchange(entry, text);
        case ResponseStart(_, _, _, _) =>
          OnResponseStart(entry, m);
        case ResponseChunk(_, _, _, encoding, data) =>
          if !entry.bodyEnded && entry.failed.None? {
            PushBody(entry, BodyCodec.DecodeBodyChunk(encoding, data));
          }
        case ResponseEnd(_, _) =>
          if !entry.bodyEnded {
            OnResponseEnd(entry);
          }
        case Cancel(_, _, reason) =>
          FailExchange(entry, if reason.Some? then reason.value else CANCELLED_BY_PEER);
      }
      consumed := true;
      assert View() == Settle(before, id.value, Deliver(was, m, maxBufferBytes));
    }

    /** Forgets a registration whose waiters were settled by the caller. */
    method CompleteExchange(requestId: string)
      requires Valid()
      modifies this`pending
      ensures Valid() && View() == Complete(old(View()), requestId)
      ensures entries == old(entries)
    {
      ghost var before := View();
      pending := pending - {requestId};
      assert View() == Complete(before, requestId);
    }
  }
}
