/** The server end of one forwarded request: the response queue and its single consumer. */
module ExchangeQueue {
  import opened Bytes
  import opened BodyCodec
  import opened Messages
  import Text

  datatype StartFuture = Waiting | Resolved(start: Message) | Rejected(reason: string)

  /** Where the body generator stands. `Handed` and `Woken` are a settled wait that has not resumed yet. */
  datatype Consumer = Idle | Parked | Handed(chunk: bytes) | Woken | Returned | Thrown

  /** `accepted` and `yielded` record the chunks taken in and given out over the exchange's life. */
  datatype Exchange = Exchange(
    start: StartFuture,
    buffer: seq<bytes>,
    bufferedBytes: int,
    bodyEnded: bool,
    failed: Option<string>,
    consumer: Consumer,
    accepted: seq<bytes>,
    yielded: seq<bytes>)

  const FRESH_EXCHANGE := Exchange(Waiting, [], 0, false, None, Idle, [], [])

  const DUPLICATE_START := "Duplicate HttpResponseStart for exchange."

  const CANCELLED_BY_PEER := "HTTP exchange cancelled by peer."

  function OverflowReason(maxBuffer: nat): string {
    "HTTP exchange buffer exceeded " + Text.Decimal(maxBuffer) + " bytes."
  }

  function Wake(c: Consumer): Consumer {
    if c.Parked? then Woken else c
  }

  function Fail(e: Exchange, reason: string): Exchange {
    if e.failed.Some? then e
    else
      e.(failed := Some(reason), bodyEnded := true, consumer := Wake(e.consumer),
         start := if e.start.Waiting? then Rejected(reason) else e.start)
  }

  function PushChunk(e: Exchange, chunk: bytes, maxBuffer: nat): Exchange {
    if e.consumer.Parked? then
      e.(consumer := Handed(chunk), accepted := e.accepted + [chunk])
    else if e.bufferedBytes + |chunk| > maxBuffer then
      Fail(e, OverflowReason(maxBuffer))
    else
      e.(buffer := e.buffer + [chunk], bufferedBytes := e.bufferedBytes + |chunk|, accepted := e.accepted + [chunk])
  }

  function Ended(e: Exchange): Exchange {
    e.(bodyEnded := true, consumer := Wake(e.consumer))
  }

  /** Effect of a response-plane frame on the exchange it is addressed to. */
  function Deliver(e: Exchange, m: Message, maxBuffer: nat): Exchange {
    match m
    case ResponseStart(_, _, _, _) =>
      if e.start.Waiting? then e.(start := Resolved(m)) else Fail(e, DUPLICATE_START)
    case ResponseChunk(_, _, _, encoding, data) =>
      if e.bodyEnded || e.failed.Some? then e else PushChunk(e, DecodeBodyChunk(encoding, data), maxBuffer)
    case ResponseEnd(_, _) =>
      if e.bodyEnded then e else Ended(e)
    case Cancel(_, _, reason) => Fail(e, if reason.Some? then reason.value else CANCELLED_BY_PEER)
    case Error(_, _, text) => Fail(e, text)
    case _ => e
  }

  /** One `next()` on the body generator. */
  function Pull(e: Exchange): Exchange {
    if !e.consumer.Idle? then e
    else if e.failed.Some? then e.(consumer := Thrown)
    else if e.buffer != [] then
      var left := e.bufferedBytes - |e.buffer[0]|;
      e.(buffer := e.buffer[1..], bufferedBytes := if left < 0 then 0 else left, yielded := e.yielded + [e.buffer[0]])
    else if e.bodyEnded then e.(consumer := Returned)
    else e.(consumer := Parked)
  }

  /** The generator continues after its wait was settled. */
  function Resume(e: Exchange): Exchange {
    if !(e.consumer.Handed? || e.consumer.Woken?) then e
    else if e.failed.Some? then e.(consumer := Thrown)
    else if e.consumer.Woken? then e.(consumer := Returned)
    else e.(consumer := Idle, yielded := e.yielded + [e.consumer.chunk])
  }

  function InHand(c: Consumer): seq<bytes> {
    if c.Handed? then [c.chunk] else []
  }

  /** What holds of every exchange at every moment. */
  ghost predicate Sound(e: Exchange, maxBuffer: nat) {
    && e.bufferedBytes == |Concat(e.buffer)| <= maxBuffer
    && (e.consumer.Parked? ==> e.buffer == [] && !e.bodyEnded && e.failed.None?)
    && (e.consumer.Woken? || e.consumer.Returned? ==> e.buffer == [] && e.bodyEnded)
    && (e.consumer.Thrown? ==> e.failed.Some?)
    && (e.failed.Some? ==> e.bodyEnded && !e.start.Waiting?)
    && (!e.consumer.Thrown? ==> e.yielded + InHand(e.consumer) + e.buffer == e.accepted)
    && e.yielded <= e.accepted
  }

  lemma FreshSound(maxBuffer: nat)
    ensures Sound(FRESH_EXCHANGE, maxBuffer)
  {
  }

  lemma FailSound(e: Exchange, reason: string, maxBuffer: nat)
    requires Sound(e, maxBuffer)
    ensures Sound(Fail(e, reason), maxBuffer)
  {
  }

  lemma DeliverSound(e: Exchange, m: Message, maxBuffer: nat)
    requires Sound(e, maxBuffer)
    ensures Sound(Deliver(e, m, maxBuffer), maxBuffer)
  {
    if m.ResponseChunk? && !e.bodyEnded {
      var chunk := DecodeBodyChunk(m.encoding, m.data);
      ConcatSnoc(e.buffer, chunk);
      assert e.yielded + InHand(e.consumer) + e.buffer + [chunk]
          == e.yielded + InHand(e.consumer) + (e.buffer + [chunk]);
    }
  }

  lemma PullSound(e: Exchange, maxBuffer: nat)
    requires Sound(e, maxBuffer)
    ensures Sound(Pull(e), maxBuffer)
  {
    if e.consumer.Idle? && e.failed.None? && e.buffer != [] {
      assert e.buffer == [e.buffer[0]] + e.buffer[1..];
    }
  }

  lemma ResumeSound(e: Exchange, maxBuffer: nat)
    requires Sound(e, maxBuffer)
    ensures Sound(Resume(e), maxBuffer)
  {
  }

  /** The start future settles at most once, and a failure is never replaced. */
  lemma SettledForGood(e: Exchange, m: Message, reason: string, maxBuffer: nat)
    ensures forall e' :: e' in {Deliver(e, m, maxBuffer), Fail(e, reason), Pull(e), Resume(e)} ==>
              && (!e.start.Waiting? ==> e'.start == e.start)
              && (e.failed.Some? ==> e'.failed == e.failed)
              && (e.bodyEnded ==> e'.bodyEnded && e'.accepted == e.accepted)
              && e.accepted <= e'.accepted && e.yielded <= e'.yielded
  {
  }

  /** `n` consecutive `next()` calls of a consumer. */
  function Drain(e: Exchange, n: nat): Exchange
    decreases n
  {
    if n == 0 then e else Drain(Pull(e), n - 1)
  }

  lemma {:induction false} IdleDrains(e: Exchange, maxBuffer: nat)
    requires Sound(e, maxBuffer)
    requires e.bodyEnded && e.failed.None? && e.consumer.Idle?
    ensures var d := Drain(e, |e.buffer| + 1); d.consumer.Returned? && d.yielded == e.accepted
    decreases |e.buffer|
  {
    PullSound(e, maxBuffer);
    if e.buffer != [] {
      IdleDrains(Pull(e), maxBuffer);
    }
  }

  lemma {:induction false} ReturnedStays(e: Exchange, n: nat)
    requires e.consumer.Returned?
    ensures Drain(e, n) == e
  {
    if n > 0 {
      ReturnedStays(e, n - 1);
    }
  }

  /**
   * Once the response has ended without failing, the consumer, wherever it stands, continues from its wait if it has one,
   * gets all that was accepted and then finishes.
   */
  lemma DrainFinishes(e: Exchange, maxBuffer: nat)
    requires Sound(e, maxBuffer) && e.bodyEnded && e.failed.None?
    ensures var r := Resume(e);
            var d := Drain(r, |r.buffer| + 1);
            d.consumer.Returned? && d.yielded == e.accepted
  {
    var r := Resume(e);
    ResumeSound(e, maxBuffer);
    if r.consumer.Idle? {
      IdleDrains(r, maxBuffer);
    } else {
      ReturnedStays(r, |r.buffer| + 1);
      assert r.yielded + InHand(r.consumer) + r.buffer == r.yielded;
    }
  }
}
