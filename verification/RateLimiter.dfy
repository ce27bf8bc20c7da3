/** Sliding-window rate limiting, per key. */
module RateLimiter {

  datatype Decision = Decision(allowed: bool, remaining: int, retryAfterMs: int)

  type Hits = map<string, seq<int>>

  /** The timestamps still inside the window at `now`. */
  function Recent(times: seq<int>, now: int, windowMs: int): seq<int> {
    if times == [] then []
    else (if times[0] > now - windowMs then [times[0]] else []) + Recent(times[1..], now, windowMs)
  }

  function Lookup(hits: Hits, key: string): seq<int> {
    if key in hits then hits[key] else []
  }

  function Decide(times: seq<int>, limit: int, windowMs: int, now: int): Decision {
    var recent := Recent(times, now, windowMs);
    if |recent| >= limit then
      var wait := (if recent == [] then now else recent[0]) + windowMs - now;
      Decision(false, 0, if wait > 0 then wait else 0)
    else Decision(true, limit - (|recent| + 1), 0)
  }

  /** What is kept for a key after an attempt. */
  function Kept(times: seq<int>, limit: int, windowMs: int, now: int): seq<int> {
    var recent := Recent(times, now, windowMs);
    if |recent| >= limit then recent else recent + [now]
  }

  lemma {:induction false} RecentSnoc(times: seq<int>, t: int, now: int, windowMs: int)
    ensures Recent(times + [t], now, windowMs) == Recent(times, now, windowMs) + (if t > now - windowMs then [t] else [])
  {
    if times == [] {
      assert times + [t] == [t] && [t][1..] == [];
    } else {
      assert (times + [t])[1..] == times[1..] + [t];
      RecentSnoc(times[1..], t, now, windowMs);
    }
  }

  class SlidingWindowRateLimiter {
    const limit: int
    const windowMs: int
    var hits: Hits

    constructor (limit: int, windowMs: int)
      ensures this.limit == limit && this.windowMs == windowMs && hits == map[]
    {
      this.limit, this.windowMs, hits := limit, windowMs, map[];
    }

    method Attempt(key: string, now: int) returns (d: Decision)
      modifies this
      ensures d == Decide(Lookup(old(hits), key), limit, windowMs, now)
      ensures hits == old(hits)[key := Kept(Lookup(old(hits), key), limit, windowMs, now)]
    {
      var cutoff := now - windowMs;
      var existing := Lookup(hits, key);
      var recent := [];
      for i := 0 to |existing|
        invariant recent == Recent(existing[..i], now, windowMs)
        invariant hits == old(hits)
      {
        assert existing[..i + 1] == existing[..i] + [existing[i]];
        RecentSnoc(existing[..i], existing[i], now, windowMs);
        if existing[i] > cutoff {
          recent := recent + [existing[i]];
        }
      }
      assert existing[..|existing|] == existing;
      if |recent| >= limit {
        hits := hits[key := recent];
        var oldest := if |recent| > 0 then recent[0] else now;
        var wait := oldest + windowMs - now;
        return Decision(false, 0, if wait > 0 then wait else 0);
      }
      recent := recent + [now];
      hits := hits[key := recent];
      d := Decision(true, limit - |recent|, 0);
    }

    method Reset(key: string)
      modifies this
      ensures hits == old(hits) - {key}
    {
      hits := hits - {key};
    }
  }

  /** Pruning earlier loses nothing that a later pruning would keep. */
  lemma {:induction false} RecentTwice(times: seq<int>, before: int, now: int, windowMs: int)
    requires before <= now
    ensures Recent(Recent(times, before, windowMs), now, windowMs) == Recent(times, now, windowMs)
  {
    if times != [] {
      RecentTwice(times[1..], before, now, windowMs);
      var rest := Recent(times[1..], before, windowMs);
      if times[0] > before - windowMs {
        assert Recent(times, before, windowMs) == [times[0]] + rest;
        assert ([times[0]] + rest)[1..] == rest;
      } else {
        assert Recent(times, before, windowMs) == rest;
        assert Recent(times, now, windowMs) == Recent(times[1..], now, windowMs);
      }
    }
  }

  // Histories of attempts on one key

  ghost predicate NonDecreasing(ts: seq<int>) {
    forall i, j :: 0 <= i <= j < |ts| ==> ts[i] <= ts[j]
  }

  /** The timestamps kept after attempts at `ts`. */
  function StateAfter(ts: seq<int>, limit: int, windowMs: int): seq<int> {
    if ts == [] then []
    else Kept(StateAfter(ts[..|ts| - 1], limit, windowMs), limit, windowMs, ts[|ts| - 1])
  }

  predicate AllowedNext(ts: seq<int>, limit: int, windowMs: int, now: int) {
    Decide(StateAfter(ts, limit, windowMs), limit, windowMs, now).allowed
  }

  /** The attempts at `ts` that were allowed. */
  function Allowed(ts: seq<int>, limit: int, windowMs: int): seq<int> {
    if ts == [] then []
    else
      var earlier, now := ts[..|ts| - 1], ts[|ts| - 1];
      Allowed(earlier, limit, windowMs) + (if AllowedNext(earlier, limit, windowMs, now) then [now] else [])
  }

  /** `now` is not earlier than any attempt in `ts`. */
  ghost predicate Follows(ts: seq<int>, now: int) {
    ts != [] ==> ts[|ts| - 1] <= now
  }

  /** The pruned state answers for the whole history. */
  lemma {:induction false} StateIsHistory(ts: seq<int>, limit: int, windowMs: int, now: int)
    requires NonDecreasing(ts) && Follows(ts, now)
    ensures Recent(StateAfter(ts, limit, windowMs), now, windowMs) == Recent(Allowed(ts, limit, windowMs), now, windowMs)
  {
    if ts != [] {
      var earlier, t := ts[..|ts| - 1], ts[|ts| - 1];
      StateIsHistory(earlier, limit, windowMs, now);
      var kept, allowed := StateAfter(earlier, limit, windowMs), Allowed(earlier, limit, windowMs);
      RecentTwice(kept, t, now, windowMs);
      RecentSnoc(Recent(kept, t, windowMs), t, now, windowMs);
      RecentSnoc(allowed, t, now, windowMs);
      assert Allowed(ts, limit, windowMs) == if AllowedNext(earlier, limit, windowMs, t) then allowed + [t] else allowed;
    }
  }

  /** How many of `times` fall in the half-open interval from `a` to `b`. */
  function CountIn(times: seq<int>, a: int, b: int): nat {
    if times == [] then 0
    else (if a <= times[|times| - 1] < b then 1 else 0) + CountIn(times[..|times| - 1], a, b)
  }

  lemma CountSnoc(times: seq<int>, t: int, a: int, b: int)
    ensures CountIn(times + [t], a, b) == CountIn(times, a, b) + (if a <= t < b then 1 else 0)
  {
    assert (times + [t])[..|times|] == times;
  }

  lemma {:induction false} CountWithinRecent(times: seq<int>, a: int, b: int, now: int, windowMs: int)
    requires a > now - windowMs
    ensures CountIn(times, a, b) <= |Recent(times, now, windowMs)|
  {
    if times != [] {
      CountWithinRecent(times[..|times| - 1], a, b, now, windowMs);
      RecentSnoc(times[..|times| - 1], times[|times| - 1], now, windowMs);
      assert times == times[..|times| - 1] + [times[|times| - 1]];
    }
  }

  /** For every history, every half-open interval one window long holds at most `limit` allowed attempts. */
  lemma {:induction false} WindowBound(ts: seq<int>, limit: nat, windowMs: int, a: int)
    requires NonDecreasing(ts)
    ensures CountIn(Allowed(ts, limit, windowMs), a, a + windowMs) <= limit
  {
    if ts != [] {
      var earlier, now := ts[..|ts| - 1], ts[|ts| - 1];
      WindowBound(earlier, limit, windowMs, a);
      var allowed := Allowed(earlier, limit, windowMs);
      CountSnoc(allowed, now, a, a + windowMs);
      if AllowedNext(earlier, limit, windowMs, now) && a <= now < a + windowMs {
        CountWithinRecent(allowed, a, a + windowMs, now, windowMs);
        StateIsHistory(earlier, limit, windowMs, now);
      }
      assert Allowed(ts, limit, windowMs) == if AllowedNext(earlier, limit, windowMs, now) then allowed + [now] else allowed;
    }
  }

  lemma {:induction false} RecentIsCount(times: seq<int>, now: int, windowMs: int)
    requires forall i :: 0 <= i < |times| ==> times[i] <= now
    ensures |Recent(times, now, windowMs)| == CountIn(times, now - windowMs + 1, now + 1)
  {
    if times != [] {
      RecentIsCount(times[..|times| - 1], now, windowMs);
      RecentSnoc(times[..|times| - 1], times[|times| - 1], now, windowMs);
      assert times == times[..|times| - 1] + [times[|times| - 1]];
    }
  }

  lemma {:induction false} AllowedOrdered(ts: seq<int>, limit: int, windowMs: int)
    requires NonDecreasing(ts)
    ensures NonDecreasing(Allowed(ts, limit, windowMs))
    ensures forall i :: 0 <= i < |Allowed(ts, limit, windowMs)| ==> ts != [] && Allowed(ts, limit, windowMs)[i] <= ts[|ts| - 1]
  {
    if ts != [] {
      var earlier, now := ts[..|ts| - 1], ts[|ts| - 1];
      AllowedOrdered(earlier, limit, windowMs);
      var allowed := Allowed(earlier, limit, windowMs);
      assert forall i :: 0 <= i < |allowed| ==> allowed[i] <= now;
      assert Allowed(ts, limit, windowMs) == if AllowedNext(earlier, limit, windowMs, now) then allowed + [now] else allowed;
    }
  }

  lemma RecentOfAllowed(ts: seq<int>, limit: int, windowMs: int, now: int)
    requires NonDecreasing(ts) && Follows(ts, now)
    ensures |Recent(Allowed(ts, limit, windowMs), now, windowMs)|
            == CountIn(Allowed(ts, limit, windowMs), now - windowMs + 1, now + 1)
  {
    AllowedOrdered(ts, limit, windowMs);
    RecentIsCount(Allowed(ts, limit, windowMs), now, windowMs);
  }

  /** An attempt is rejected exactly when `limit` allowed attempts already lie in the window that ends with it. */
  lemma RejectedIffFull(ts: seq<int>, limit: nat, windowMs: int, now: int)
    requires NonDecreasing(ts) && Follows(ts, now)
    ensures !AllowedNext(ts, limit, windowMs, now)
            <==> CountIn(Allowed(ts, limit, windowMs), now - windowMs + 1, now + 1) == limit
    ensures !AllowedNext(ts, limit, windowMs, now) ==> |Recent(Allowed(ts, limit, windowMs), now, windowMs)| == limit
  {
    RecentOfAllowed(ts, limit, windowMs, now);
    StateIsHistory(ts, limit, windowMs, now);
    WindowBound(ts, limit, windowMs, now - windowMs + 1);
  }

  /** In an ordered list the window drops a first part; the list stays whole exactly while its oldest entry stays. */
  lemma {:induction false} RecentOrdered(times: seq<int>, now: int, windowMs: int)
    requires NonDecreasing(times)
    ensures |Recent(times, now, windowMs)| <= |times|
    ensures times != [] ==> (|Recent(times, now, windowMs)| == |times| <==> times[0] > now - windowMs)
    ensures NonDecreasing(Recent(times, now, windowMs))
    ensures forall i :: 0 <= i < |Recent(times, now, windowMs)| ==> Recent(times, now, windowMs)[i] > now - windowMs
    ensures times != [] ==> forall i :: 0 <= i < |Recent(times, now, windowMs)| ==> Recent(times, now, windowMs)[i] >= times[0]
  {
    if times != [] {
      RecentOrdered(times[1..], now, windowMs);
    }
  }

  /**
   * The advertised wait is exact: after a rejection at `now`, and as long as nothing else was allowed, the next
   * attempt at `u` succeeds exactly when the wait has passed.
   */
  lemma RetryAfterExact(ts: seq<int>, us: seq<int>, limit: nat, windowMs: int, now: int, u: int)
    requires limit >= 1
    requires NonDecreasing(ts + us) && NonDecreasing(ts) && Follows(ts, now) && Follows(ts + us, u) && now <= u
    requires !AllowedNext(ts, limit, windowMs, now)
    requires Allowed(ts + us, limit, windowMs) == Allowed(ts, limit, windowMs)
    ensures var d := Decide(StateAfter(ts, limit, windowMs), limit, windowMs, now);
            d.retryAfterMs > 0 && (AllowedNext(ts + us, limit, windowMs, u) <==> u >= now + d.retryAfterMs)
  {
    var allowed := Allowed(ts, limit, windowMs);
    var recent := Recent(allowed, now, windowMs);
    RejectedIffFull(ts, limit, windowMs, now);
    StateIsHistory(ts, limit, windowMs, now);
    StateIsHistory(ts + us, limit, windowMs, u);
    RecentTwice(allowed, now, u, windowMs);
    AllowedOrdered(ts, limit, windowMs);
    RecentOrdered(allowed, now, windowMs);
    RecentOrdered(recent, u, windowMs);
  }

  /** With a limit of zero no wait ever helps. */
  lemma NothingAllowedAtZero(ts: seq<int>, windowMs: int, u: int)
    ensures !AllowedNext(ts, 0, windowMs, u)
  {
  }

  // Many keys

  function TimesOf(attempts: seq<(string, int)>, key: string): seq<int> {
    if attempts == [] then []
    else
      var last := attempts[|attempts| - 1];
      TimesOf(attempts[..|attempts| - 1], key) + (if last.0 == key then [last.1] else [])
  }

  function HitsAfter(attempts: seq<(string, int)>, limit: int, windowMs: int): Hits {
    if attempts == [] then map[]
    else
      var hits, last := HitsAfter(attempts[..|attempts| - 1], limit, windowMs), attempts[|attempts| - 1];
      hits[last.0 := Kept(Lookup(hits, last.0), limit, windowMs, last.1)]
  }

  /** Keys do not influence each other: each sees the history of its own attempts. */
  lemma {:induction false} KeysIndependent(attempts: seq<(string, int)>, key: string, limit: int, windowMs: int)
    ensures Lookup(HitsAfter(attempts, limit, windowMs), key) == StateAfter(TimesOf(attempts, key), limit, windowMs)
  {
    if attempts != [] {
      var earlier, last := attempts[..|attempts| - 1], attempts[|attempts| - 1];
      KeysIndependent(earlier, key, limit, windowMs);
      if last.0 == key {
        var times := TimesOf(attempts, key);
        assert times == TimesOf(earlier, key) + [last.1];
        assert times[..|times| - 1] == TimesOf(earlier, key) && times[|times| - 1] == last.1;
      } else {
        assert TimesOf(attempts, key) == TimesOf(earlier, key);
      }
    }
  }
}
