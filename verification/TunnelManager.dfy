/** The tunnel lifecycle: create, reclaim after a reconnect, unregister, detach. */
module TunnelManager {
  import opened Bytes
  import opened PublicUrl
  import opened TunnelRegistry
  import Text

  predicate ValidPort(port: int) {
    1 <= port <= 65535
  }

  datatype CreateRequest = CreateRequest(
    client: Socket,
    port: int,
    context: Ownership,
    ownerUserId: Option<string>,
    preferred: Option<string>,
    now: int,
    windowMs: int,
    freshId: string)

  datatype Operation =
    | Create(request: CreateRequest)
    | Unregister(id: string)
    | UnregisterClient(client: Socket)
    | Detach(client: Socket, now: int)

  /** The create names a parked tunnel of its own port and owner that survives the purge. */
  predicate Restores(m: Slots, q: CreateRequest) {
    && ValidPort(q.port) && q.preferred.Some?
    && Claimable(PurgeSlots(m, q.now, q.windowMs), q.preferred.value, q.port, q.context)
  }

  function Requested(q: CreateRequest): Grant {
    Grant(q.port, q.context, q.ownerUserId)
  }

  /** The tunnel a create ends up with: the parked one it names, or a new one. */
  function Opens(m: Slots, q: CreateRequest): TunnelRecord {
    if Restores(m, q) then TunnelRecord(q.preferred.value, q.client, m[q.preferred.value].grant)
    else TunnelRecord(q.freshId, q.client, Requested(q))
  }

  function ApplyCreate(m: Slots, q: CreateRequest): Slots {
    if ValidPort(q.port) then SaveSlot(PurgeSlots(m, q.now, q.windowMs), Opens(m, q)) else m
  }

  function Apply(m: Slots, op: Operation): Slots {
    match op
    case Create(q) => ApplyCreate(m, q)
    case Unregister(id) => m - {id}
    case UnregisterClient(client) => map x | x in m && !Bound(m, x, client) :: m[x]
    case Detach(client, now) => map x | x in m :: if Bound(m, x, client) then Parked(m[x].grant, now) else m[x]
  }

  function ApplyAll(m: Slots, ops: seq<Operation>): Slots
    decreases |ops|
  {
    if ops == [] then m else ApplyAll(Apply(m, ops[0]), ops[1..])
  }

  /** A minted id is new and its slug is taken by no tunnel on record. */
  ghost predicate Fresh(m: Slots, freshId: string) {
    freshId !in m && forall x :: x in m ==> TunnelSlug(x) != TunnelSlug(freshId)
  }

  ghost predicate FreshRun(m: Slots, ops: seq<Operation>)
    decreases |ops|
  {
    ops == [] || ((ops[0].Create? ==> Fresh(m, ops[0].request.freshId)) && FreshRun(Apply(m, ops[0]), ops[1..]))
  }

  lemma SaveWellFormed(m: Slots, t: TunnelRecord)
    requires WellFormed(m) && (t.id in m || forall x :: x in m ==> TunnelSlug(x) != TunnelSlug(t.id))
    ensures WellFormed(SaveSlot(m, t))
  {
  }

  /** Dropping and parking tunnels creates no conflict. */
  lemma FewerWellFormed(m: Slots, n: Slots)
    requires WellFormed(m)
    requires forall x :: x in n ==> x in m && (n[x].Active? ==> n[x] == m[x])
    ensures WellFormed(n)
  {
  }

  lemma ApplyWellFormed(m: Slots, op: Operation)
    requires WellFormed(m) && (op.Create? ==> Fresh(m, op.request.freshId))
    ensures WellFormed(Apply(m, op))
  {
    if op.Create? {
      var q := op.request;
      var kept := PurgeSlots(m, q.now, q.windowMs);
      FewerWellFormed(m, kept);
      SaveWellFormed(kept, Opens(m, q));
    } else {
      FewerWellFormed(m, Apply(m, op));
    }
  }

  /** A client's one tunnel is the only slot that its disconnect touches. */
  lemma ClientOperation(m: Slots, client: Socket, now: int)
    requires WellFormed(m)
    ensures forall id :: Bound(m, id, client) ==>
              Apply(m, Detach(client, now)) == ParkSlot(m, id, now) && Apply(m, UnregisterClient(client)) == m - {id}
    ensures (forall id :: !Bound(m, id, client)) ==>
              Apply(m, Detach(client, now)) == m && Apply(m, UnregisterClient(client)) == m
  {
    forall id | Bound(m, id, client)
      ensures Apply(m, Detach(client, now)) == ParkSlot(m, id, now) && Apply(m, UnregisterClient(client)) == m - {id}
    {
      SameSlots(Apply(m, Detach(client, now)), ParkSlot(m, id, now));
      SameSlots(Apply(m, UnregisterClient(client)), m - {id});
    }
    if forall id :: !Bound(m, id, client) {
      SameSlots(Apply(m, Detach(client, now)), m);
      SameSlots(Apply(m, UnregisterClient(client)), m);
    }
  }

  lemma {:induction false} RunWellFormed(m: Slots, ops: seq<Operation>)
    requires WellFormed(m) && FreshRun(m, ops)
    ensures WellFormed(ApplyAll(m, ops))
    decreases |ops|
  {
    if ops != [] {
      ApplyWellFormed(m, ops[0]);
      RunWellFormed(Apply(m, ops[0]), ops[1..]);
    }
  }

  // Reconnecting

  /** Nobody else unregisters the tunnel, claims it with its own port and owner, or is given its id anew. */
  predicate LeavesAlone(op: Operation, id: string, grant: Grant) {
    match op
    case Create(q) =>
      q.freshId != id && !(q.preferred == Some(id) && q.port == grant.port && q.context == grant.context)
    case Unregister(x) => x != id
    case _ => true
  }

  /** No create before the reconnect has a later clock or another reclaim window. */
  predicate Before(op: Operation, now: int, windowMs: int) {
    op.Create? ==> op.request.now <= now && op.request.windowMs == windowMs
  }

  lemma ParkedStays(m: Slots, op: Operation, id: string, slot: Slot, now: int, windowMs: int)
    requires slot.Parked? && LeavesAlone(op, id, slot.grant) && Before(op, now, windowMs)
    requires id in m ==> m[id] == slot
    ensures id in Apply(m, op) ==> Apply(m, op)[id] == slot
    ensures id in m && now - slot.disconnectedAt <= windowMs ==> id in Apply(m, op)
  {
  }

  lemma {:induction false} ParkedStaysThroughout(m: Slots, ops: seq<Operation>, id: string, slot: Slot, now: int, windowMs: int)
    requires slot.Parked? && forall op :: op in ops ==> LeavesAlone(op, id, slot.grant) && Before(op, now, windowMs)
    requires id in m ==> m[id] == slot
    ensures id in ApplyAll(m, ops) ==> ApplyAll(m, ops)[id] == slot
    ensures id in m && now - slot.disconnectedAt <= windowMs ==> id in ApplyAll(m, ops)
    decreases |ops|
  {
    if ops != [] {
      ParkedStays(m, ops[0], id, slot, now, windowMs);
      ParkedStaysThroughout(Apply(m, ops[0]), ops[1..], id, slot, now, windowMs);
    }
  }

  /**
   * A client detaches at `t` and, whatever the others do meanwhile, a create names its tunnel with the same port and
   * owner: the tunnel is restored under the same id exactly when the reclaim window has not passed. Until then it is
   * not routable, and its slug is nobody else's.
   */
  lemma StableReconnect(m: Slots, id: string, client: Socket, t: int, ops: seq<Operation>, q: CreateRequest)
    requires WellFormed(m) && Bound(m, id, client)
    requires FreshRun(Apply(m, Detach(client, t)), ops)
    requires q.preferred == Some(id) && q.freshId != id
    requires ValidPort(q.port) && q.port == m[id].grant.port && q.context == m[id].grant.context
    requires forall o :: o in ops ==> LeavesAlone(o, id, m[id].grant) && Before(o, q.now, q.windowMs)
    ensures var away := ApplyAll(Apply(m, Detach(client, t)), ops);
            var back := ApplyCreate(away, q);
            && Live(away, id) == None
            && (q.now - t <= q.windowMs ==>
                  && id in away && away[id] == Parked(m[id].grant, t)
                  && LiveBySlug(away, TunnelSlug(id)) == None
                  && forall x :: x in away && TunnelSlug(x) == TunnelSlug(id) ==> x == id)
            && (Restores(away, q) <==> q.now - t <= q.windowMs)
            && (Restores(away, q) ==> Live(back, id) == Some(TunnelRecord(id, q.client, m[id].grant)))
            && (!Restores(away, q) ==> id !in back)
  {
    var slot := Parked(m[id].grant, t);
    var detached := Apply(m, Detach(client, t));
    ApplyWellFormed(m, Detach(client, t));
    RunWellFormed(detached, ops);
    ParkedStaysThroughout(detached, ops, id, slot, q.now, q.windowMs);
    assert Text.ToLower(TunnelSlug(id)) == TunnelSlug(id);
  }

  // Ids and what they stand for

  predicate Mints(op: Operation, id: string) {
    op.Create? && op.request.freshId == id
  }

  function MintedGrant(op: Operation): Grant
    requires op.Create?
  {
    Requested(op.request)
  }

  /** Every tunnel on record still has the grant it was minted with. */
  ghost predicate Authentic(m: Slots, history: seq<Operation>) {
    forall id :: id in m ==> exists k :: 0 <= k < |history| && Mints(history[k], id) && m[id].grant == MintedGrant(history[k])
  }

  lemma ApplyAuthentic(m: Slots, history: seq<Operation>, op: Operation)
    requires Authentic(m, history)
    ensures Authentic(Apply(m, op), history + [op])
  {
    var h := history + [op];
    forall id | id in Apply(m, op)
      ensures exists k :: 0 <= k < |h| && Mints(h[k], id) && Apply(m, op)[id].grant == MintedGrant(h[k])
    {
      if id in m && Apply(m, op)[id].grant == m[id].grant {
        var k :| 0 <= k < |history| && Mints(history[k], id) && m[id].grant == MintedGrant(history[k]);
        assert h[k] == history[k];
      } else {
        assert h[|history|] == op && Mints(op, id);
      }
    }
  }

  lemma {:induction false} RunAuthentic(m: Slots, history: seq<Operation>, ops: seq<Operation>)
    requires Authentic(m, history)
    ensures Authentic(ApplyAll(m, ops), history + ops)
    decreases |ops|
  {
    if ops == [] {
      assert history + ops == history;
    } else {
      ApplyAuthentic(m, history, ops[0]);
      RunAuthentic(Apply(m, ops[0]), history + [ops[0]], ops[1..]);
      assert history + ops == (history + [ops[0]]) + ops[1..];
    }
  }

  /** With ids never minted twice, no run ever changes the port or the owner behind an id. */
  lemma GrantNeverChanges(ops: seq<Operation>, i: nat, j: nat, id: string)
    requires i <= |ops| && j <= |ops|
    requires forall a, b :: 0 <= a < |ops| && 0 <= b < |ops| && Mints(ops[a], id) && Mints(ops[b], id) ==> a == b
    requires id in ApplyAll(map[], ops[..i]) && id in ApplyAll(map[], ops[..j])
    ensures ApplyAll(map[], ops[..i])[id].grant == ApplyAll(map[], ops[..j])[id].grant
  {
    RunAuthentic(map[], [], ops[..i]);
    RunAuthentic(map[], [], ops[..j]);
    assert [] + ops[..i] == ops[..i] && [] + ops[..j] == ops[..j];
    var a :| 0 <= a < i && Mints(ops[..i][a], id) && ApplyAll(map[], ops[..i])[id].grant == MintedGrant(ops[..i][a]);
    var b :| 0 <= b < j && Mints(ops[..j][b], id) && ApplyAll(map[], ops[..j])[id].grant == MintedGrant(ops[..j][b]);
    assert ops[a] == ops[..i][a] && ops[b] == ops[..j][b];
  }

  /** A public request for a live tunnel, by path or by host, is routed to that tunnel, with exactly its local path. */
  lemma RoutesBack(m: Slots, id: string, baseUrl: Option<string>, baseDomain: string, localPath: string, port: string)
    requires WellFormed(m) && Live(m, id).Some?
    requires IsTunnelId(id) && Text.ToLower(id) == id
    requires localPath != "" && localPath[0] == '/'
    requires port == "" || port[0] == ':'
    ensures var url := BuildPublicUrl(id, Path, baseUrl, baseDomain);
            var parsed := ParseTunnelPath(url[|Origin(baseUrl, baseDomain)|..] + localPath);
            parsed.Some? && Live(m, parsed.value.tunnelId) == Live(m, id) && parsed.value.localPath == localPath
    ensures ':' !in baseDomain ==>
              var slug := ExtractTunnelSlugFromHost(SubdomainHost(id, baseDomain) + port, baseDomain);
              slug.Some? && LiveBySlug(m, slug.value) == Live(m, id)
  {
    PathRoundTrip(id, baseUrl, baseDomain, localPath);
    HostRoundTrip(id, baseDomain, port);
    SlugOfTunnelId(id);
    assert Text.ToLower(TunnelSlug(id)) == TunnelSlug(id);
    assert id in m && TunnelSlug(id) == Text.ToLower(TunnelSlug(id)) && m[id].Active?;
  }

  // The service

  datatype CreatedTunnel = CreatedTunnel(tunnel: TunnelRecord, publicUrl: string, restored: bool)

  datatype ClosedReason = Unregistered | ExpiredWindow

  datatype LifecycleEvent =
    | TunnelOpened(tunnelId: string, publicUrl: string, port: int, restored: bool, workspaceId: Option<string>)
    | TunnelClosed(tunnelId: string, reason: ClosedReason, workspaceId: Option<string>)

  function WorkspaceOf(context: Ownership): Option<string> {
    if context.kind.Workspace? then Some(context.id) else None
  }

  function Closed(id: string, grant: Grant, reason: ClosedReason): LifecycleEvent {
    TunnelClosed(id, reason, WorkspaceOf(grant.context))
  }

  function Expirations(purged: seq<OrphanedTunnel>): seq<LifecycleEvent> {
    seq(|purged|, i requires 0 <= i < |purged| => Closed(purged[i].id, purged[i].grant, ExpiredWindow))
  }

  lemma ExpirationsNext(purged: seq<OrphanedTunnel>, i: nat)
    requires i < |purged|
    ensures Expirations(purged)[..i + 1]
            == Expirations(purged)[..i] + [TunnelClosed(purged[i].id, ExpiredWindow, WorkspaceOf(purged[i].grant.context))]
  {
  }

  /** A second purge finds nothing, and a minted id stays fresh. */
  lemma PurgeOnce(m: Slots, q: CreateRequest)
    requires Fresh(m, q.freshId)
    ensures var kept := PurgeSlots(m, q.now, q.windowMs);
            PurgeSlots(kept, q.now, q.windowMs) == kept && Fresh(kept, q.freshId)
  {
  }

  function Opened(c: CreatedTunnel): LifecycleEvent {
    TunnelOpened(c.tunnel.id, c.publicUrl, c.tunnel.grant.port, c.restored, WorkspaceOf(c.tunnel.grant.context))
  }

  class TunnelManager {
    const repository: MemoryTunnelRepository
    const mode: UrlMode
    const baseUrl: Option<string>
    const baseDomain: string
    var events: seq<LifecycleEvent>

    constructor (repository: MemoryTunnelRepository, mode: UrlMode, baseUrl: Option<string>, baseDomain: string)
      ensures this.repository == repository && events == []
      ensures this.mode == mode && this.baseUrl == baseUrl && this.baseDomain == baseDomain
    {
      this.repository, this.mode, this.baseUrl, this.baseDomain := repository, mode, baseUrl, baseDomain;
      events := [];
    }

    function PublicUrlOf(id: string): string {
      BuildPublicUrl(id, mode, baseUrl, baseDomain)
    }

    function Created(m: Slots, q: CreateRequest): CreatedTunnel {
      CreatedTunnel(Opens(m, q), PublicUrlOf(Opens(m, q).id), Restores(m, q))
    }

    method PurgeExpired(now: int, windowMs: int) returns (ghost purged: seq<OrphanedTunnel>)
      requires repository.Valid()
      modifies repository, this`events
      ensures repository.Valid() && repository.Tunnels() == PurgeSlots(old(repository.Tunnels()), now, windowMs)
      ensures Purged(purged, old(repository.Tunnels()), {}, now, windowMs)
      ensures events == old(events) + Expirations(purged)
    {
      var gone := repository.PurgeExpiredOrphans(now, windowMs);
      for i := 0 to |gone|
        modifies this`events
        invariant events == old(events) + Expirations(gone)[..i]
      {
        ExpirationsNext(gone, i);
        events := events + [TunnelClosed(gone[i].id, ExpiredWindow, WorkspaceOf(gone[i].grant.context))];
      }
      assert Expirations(gone)[..|gone|] == Expirations(gone);
      purged := gone;
    }

    method PublishOpened(tunnel: TunnelRecord, restored: bool) returns (created: CreatedTunnel)
      modifies this`events
      ensures created == CreatedTunnel(tunnel, PublicUrlOf(tunnel.id), restored)
      ensures events == old(events) + [Opened(created)]
    {
      var publicUrl := PublicUrlOf(tunnel.id);
      events := events + [TunnelOpened(tunnel.id, publicUrl, tunnel.grant.port, restored, WorkspaceOf(tunnel.grant.context))];
      created := CreatedTunnel(tunnel, publicUrl, restored);
    }

    method Register(q: CreateRequest) returns (tunnel: TunnelRecord)
      requires repository.Valid() && Fresh(repository.Tunnels(), q.freshId)
      modifies repository
      ensures repository.Valid() && repository.Tunnels() == SaveSlot(old(repository.Tunnels()), tunnel)
      ensures tunnel == TunnelRecord(q.freshId, q.client, Requested(q))
    {
      tunnel := TunnelRecord(q.freshId, q.client, Requested(q));
      repository.Save(tunnel);
    }

    /** After the purge a claimable tunnel is always within its window. */
    method RestoreOrRegister(q: CreateRequest) returns (created: CreatedTunnel)
      requires ValidPort(q.port) && repository.Valid() && Fresh(repository.Tunnels(), q.freshId)
      requires PurgeSlots(repository.Tunnels(), q.now, q.windowMs) == repository.Tunnels()
      modifies repository, this`events
      ensures repository.Valid() && repository.Tunnels() == SaveSlot(old(repository.Tunnels()), created.tunnel)
      ensures created == Created(old(repository.Tunnels()), q)
      ensures events == old(events) + [Opened(created)]
    {
      if q.preferred.Some? {
        var restored := repository.Reclaim(q.preferred.value, q.client, q.port, q.now, q.windowMs, q.context);
        if restored.Some? {
          created := PublishOpened(restored.value, true);
          return;
        }
      }
      var tunnel := Register(q);
      created := PublishOpened(tunnel, false);
    }

    method Open(q: CreateRequest) returns (r: Result<CreatedTunnel>, ghost purged: seq<OrphanedTunnel>)
      requires repository.Valid() && Fresh(repository.Tunnels(), q.freshId)
      modifies repository, this`events
      ensures repository.Valid() && repository.Tunnels() == ApplyCreate(old(repository.Tunnels()), q)
      ensures r.Ok? <==> ValidPort(q.port)
      ensures r.Ok? ==>
                && r.value == Created(old(repository.Tunnels()), q)
                && Purged(purged, old(repository.Tunnels()), {}, q.now, q.windowMs)
                && events == old(events) + Expirations(purged) + [Opened(r.value)]
      ensures r.Err? ==> events == old(events)
    {
      purged := [];
      if q.port < 1 || q.port > 65535 {
        return Err("Invalid port: must be an integer between 1 and 65535."), [];
      }
      PurgeOnce(repository.Tunnels(), q);
      purged := PurgeExpired(q.now, q.windowMs);
      var created := RestoreOrRegister(q);
      r := Ok(created);
    }

    method UnregisterTunnel(id: string) returns (removed: bool)
      requires repository.Valid()
      modifies repository, this`events
      ensures repository.Valid() && repository.Tunnels() == Apply(old(repository.Tunnels()), Unregister(id))
      ensures removed <==> id in old(repository.Tunnels())
      ensures events == old(events) + (
                          if Live(old(repository.Tunnels()), id).Some?
                          then [Closed(id, old(repository.Tunnels())[id].grant, Unregistered)] else [])
    {
      var existing := repository.FindById(id);
      removed := repository.Remove(id);
      if removed && existing.Some? {
        events := events + [TunnelClosed(existing.value.id, Unregistered, WorkspaceOf(existing.value.grant.context))];
      }
    }

    method UnregisterBySocket(client: Socket) returns (removed: bool)
      requires repository.Valid()
      modifies repository, this`events
      ensures repository.Valid() && repository.Tunnels() == Apply(old(repository.Tunnels()), UnregisterClient(client))
      ensures forall id :: Bound(old(repository.Tunnels()), id, client) ==>
                removed && events == old(events) + [Closed(id, old(repository.Tunnels())[id].grant, Unregistered)]
      ensures !removed ==> repository.Tunnels() == old(repository.Tunnels()) && events == old(events)
    {
      ConsistentWellFormed(repository.View());
      ClientOperation(repository.Tunnels(), client, 0);
      var existing := repository.FindByClient(client);
      removed := repository.RemoveByClient(client);
      if removed && existing.Some? {
        events := events + [TunnelClosed(existing.value.id, Unregistered, WorkspaceOf(existing.value.grant.context))];
      }
    }

    method DetachClient(client: Socket, now: int) returns (detached: bool)
      requires repository.Valid()
      modifies repository, this`events
      ensures repository.Valid() && repository.Tunnels() == Apply(old(repository.Tunnels()), Detach(client, now))
      ensures forall id :: Bound(old(repository.Tunnels()), id, client) ==>
                detached && events == old(events) + [Closed(id, old(repository.Tunnels())[id].grant, Unregistered)]
      ensures !detached ==> repository.Tunnels() == old(repository.Tunnels()) && events == old(events)
    {
      ConsistentWellFormed(repository.View());
      ClientOperation(repository.Tunnels(), client, now);
      var orphan := repository.OrphanByClient(client, now);
      if orphan.None? {
        return false;
      }
      events := events + [TunnelClosed(orphan.value.id, Unregistered, WorkspaceOf(orphan.value.grant.context))];
      detached := true;
    }
  }
}
