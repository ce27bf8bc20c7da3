/** The tunnels a server knows: bound to a client, or parked for a client to come back. */
module TunnelRegistry {
  import opened Bytes
  import opened PublicUrl
  import Text

  /** A connected WebSocket, by identity. */
  type Socket = nat

  datatype OwnershipKind = Anonymous | Workspace

  datatype Ownership = Ownership(kind: OwnershipKind, id: string)

  /** What a tunnel exposes and for whom; it travels with the tunnel through disconnects. */
  datatype Grant = Grant(port: int, context: Ownership, ownerUserId: Option<string>)

  datatype TunnelRecord = TunnelRecord(id: string, client: Socket, grant: Grant)

  datatype OrphanedTunnel = OrphanedTunnel(id: string, grant: Grant, disconnectedAt: int)

  /** The one simple map the indexes stand for. */
  datatype Slot = Active(client: Socket, grant: Grant) | Parked(grant: Grant, disconnectedAt: int)

  type Slots = map<string, Slot>

  predicate Bound(m: Slots, id: string, client: Socket) {
    id in m && m[id].Active? && m[id].client == client
  }

  /** Every client has at most one tunnel and every slug belongs to at most one tunnel. */
  ghost predicate WellFormed(m: Slots) {
    && (forall a, b :: a in m && b in m && m[a].Active? && m[b].Active? && m[a].client == m[b].client ==> a == b)
    && (forall a, b :: a in m && b in m && TunnelSlug(a) == TunnelSlug(b) ==> a == b)
  }

  /** Everything but the tunnel that `client` gives up when it opens the tunnel `id`. */
  function Without(m: Slots, id: string, client: Socket): Slots {
    map x | x in m && !(x != id && Bound(m, x, client)) :: m[x]
  }

  function SaveSlot(m: Slots, t: TunnelRecord): Slots {
    Without(m, t.id, t.client)[t.id := Active(t.client, t.grant)]
  }

  /** No tunnel that stays has the slug of `id`. */
  ghost predicate SlugFree(m: Slots, id: string, client: Socket) {
    forall x :: x in Without(m, id, client) && x != id ==> TunnelSlug(x) != TunnelSlug(id)
  }

  predicate Expired(slot: Slot, now: int, windowMs: int) {
    slot.Parked? && now - slot.disconnectedAt > windowMs
  }

  function PurgeSlots(m: Slots, now: int, windowMs: int): Slots {
    map x | x in m && !Expired(m[x], now, windowMs) :: m[x]
  }

  function ParkSlot(m: Slots, id: string, now: int): Slots
    requires id in m && m[id].Active?
  {
    m[id := Parked(m[id].grant, now)]
  }

  /** A parked tunnel that belongs to this port and owner. */
  predicate Claimable(m: Slots, id: string, port: int, context: Ownership) {
    id in m && m[id].Parked? && m[id].grant.port == port && m[id].grant.context == context
  }

  function ReclaimSlot(m: Slots, id: string, client: Socket, port: int, now: int, windowMs: int, context: Ownership): Slots {
    if !Claimable(m, id, port, context) then m
    else if Expired(m[id], now, windowMs) then m - {id}
    else SaveSlot(m, TunnelRecord(id, client, m[id].grant))
  }

  /** The live tunnel of `id`, as a scan of the map finds it. */
  function Live(m: Slots, id: string): Option<TunnelRecord> {
    if id in m && m[id].Active? then Some(TunnelRecord(id, m[id].client, m[id].grant)) else None
  }

  /** The four maps of the repository. */
  datatype Index = Index(
    byId: map<string, TunnelRecord>,
    byClient: map<Socket, string>,
    bySlug: map<string, string>,
    orphans: map<string, OrphanedTunnel>)

  /** `byId` and `byClient` are mutual inverses. */
  ghost predicate Linked(x: Index) {
    && (forall id :: id in x.byId ==>
          x.byId[id].id == id && x.byId[id].client in x.byClient && x.byClient[x.byId[id].client] == id)
    && (forall c :: c in x.byClient ==> x.byClient[c] in x.byId && x.byId[x.byClient[c]].client == c)
  }

  predicate Holds(x: Index, id: string) {
    id in x.byId || id in x.orphans
  }

  /** The slugs of live and parked tunnels, and no others, are taken. */
  ghost predicate Slugged(x: Index) {
    && (forall id :: Holds(x, id) ==> TunnelSlug(id) in x.bySlug && x.bySlug[TunnelSlug(id)] == id)
    && (forall s :: s in x.bySlug ==> TunnelSlug(x.bySlug[s]) == s && Holds(x, x.bySlug[s]))
  }

  ghost predicate Disjoint(x: Index) {
    forall id :: id in x.orphans ==> x.orphans[id].id == id && id !in x.byId
  }

  ghost predicate Consistent(x: Index) {
    Linked(x) && Slugged(x) && Disjoint(x)
  }

  function SlotOf(x: Index, id: string): Slot
    requires Holds(x, id)
  {
    if id in x.byId then Active(x.byId[id].client, x.byId[id].grant)
    else Parked(x.orphans[id].grant, x.orphans[id].disconnectedAt)
  }

  function SlotsOf(x: Index): (m: Slots)
    ensures forall id :: id in m <==> Holds(x, id)
    ensures forall id :: Holds(x, id) ==> m[id] == SlotOf(x, id)
  {
    map id | id in x.byId.Keys + x.orphans.Keys :: SlotOf(x, id)
  }

  lemma ConsistentWellFormed(x: Index)
    requires Consistent(x)
    ensures WellFormed(SlotsOf(x))
  {
    forall a, b | a in SlotsOf(x) && b in SlotsOf(x)
      ensures SlotOf(x, a).Active? && SlotOf(x, b).Active? && SlotOf(x, a).client == SlotOf(x, b).client ==> a == b
      ensures TunnelSlug(a) == TunnelSlug(b) ==> a == b
    {
      assert Holds(x, a) && Holds(x, b);
    }
  }

  /** Two maps of slots agree when they hold the same tunnels in the same slots. */
  lemma SameSlots(m: Slots, n: Slots)
    requires forall id :: id in m <==> id in n
    requires forall id :: id in m && id in n ==> m[id] == n[id]
    ensures m == n
  {
  }

  function SaveIndex(x: Index, t: TunnelRecord): Index {
    var slug := TunnelSlug(t.id);
    var replaced := t.id in x.byId;
    var byClient := if replaced then x.byClient - {x.byId[t.id].client} else x.byClient;
    var bySlug := if replaced then x.bySlug - {slug} else x.bySlug;
    if t.client in byClient && byClient[t.client] != t.id then
      var displaced := byClient[t.client];
      Index((x.byId - {displaced})[t.id := t], byClient[t.client := t.id],
            (if displaced in x.byId then bySlug - {TunnelSlug(x.byId[displaced].id)} else bySlug)[slug := t.id],
            x.orphans - {t.id})
    else
      Index(x.byId[t.id := t], byClient[t.client := t.id], bySlug[slug := t.id], x.orphans - {t.id})
  }

  lemma SaveSlots(x: Index, t: TunnelRecord)
    requires Linked(x) && Disjoint(x)
    ensures SlotsOf(SaveIndex(x, t)) == SaveSlot(SlotsOf(x), t)
  {
    var m, n := SlotsOf(SaveIndex(x, t)), SaveSlot(SlotsOf(x), t);
    forall id | true
      ensures id in m <==> id in n
      ensures id in m && id in n ==> m[id] == n[id]
    {
    }
    SameSlots(m, n);
  }

  lemma SaveLinked(x: Index, t: TunnelRecord)
    requires Linked(x) && Disjoint(x)
    ensures Linked(SaveIndex(x, t)) && Disjoint(SaveIndex(x, t))
  {
  }

  lemma SaveKeepsSlugs(x: Index, t: TunnelRecord, id: string)
    requires Consistent(x) && SlugFree(SlotsOf(x), t.id, t.client)
    requires Holds(SaveIndex(x, t), id)
    ensures TunnelSlug(id) in SaveIndex(x, t).bySlug && SaveIndex(x, t).bySlug[TunnelSlug(id)] == id
  {
    SaveSlots(x, t);
    assert id in SlotsOf(SaveIndex(x, t));
    if id != t.id {
      assert id in Without(SlotsOf(x), t.id, t.client) && Holds(x, id);
      assert TunnelSlug(id) != TunnelSlug(t.id);
    }
  }

  lemma SaveDropsSlugs(x: Index, t: TunnelRecord, s: string)
    requires Consistent(x) && s in SaveIndex(x, t).bySlug
    ensures var y := SaveIndex(x, t); TunnelSlug(y.bySlug[s]) == s && Holds(y, y.bySlug[s])
  {
    if s != TunnelSlug(t.id) {
      assert s in x.bySlug && Holds(x, x.bySlug[s]);
    }
  }

  lemma SaveSlugged(x: Index, t: TunnelRecord)
    requires Consistent(x) && SlugFree(SlotsOf(x), t.id, t.client)
    ensures Slugged(SaveIndex(x, t))
  {
    var y := SaveIndex(x, t);
    forall id | Holds(y, id)
      ensures TunnelSlug(id) in y.bySlug && y.bySlug[TunnelSlug(id)] == id
    {
      SaveKeepsSlugs(x, t, id);
    }
    forall s | s in y.bySlug
      ensures TunnelSlug(y.bySlug[s]) == s && Holds(y, y.bySlug[s])
    {
      SaveDropsSlugs(x, t, s);
    }
  }

  /** Saving keeps the indexes consistent exactly when no tunnel that stays has the slug. */
  lemma SaveConsistent(x: Index, t: TunnelRecord)
    requires Consistent(x)
    ensures Consistent(SaveIndex(x, t)) <==> SlugFree(SlotsOf(x), t.id, t.client)
  {
    var y := SaveIndex(x, t);
    SaveSlots(x, t);
    SaveLinked(x, t);
    if SlugFree(SlotsOf(x), t.id, t.client) {
      SaveSlugged(x, t);
    } else {
      var id :| id in Without(SlotsOf(x), t.id, t.client) && id != t.id && TunnelSlug(id) == TunnelSlug(t.id);
      assert id in SlotsOf(y);
      assert Holds(y, id) && y.bySlug[TunnelSlug(id)] == t.id;
    }
  }

  function RemoveIndex(x: Index, id: string): Index {
    if id in x.byId then
      Index(x.byId - {id}, x.byClient - {x.byId[id].client}, x.bySlug - {TunnelSlug(x.byId[id].id)}, x.orphans - {id})
    else if id in x.orphans then x.(orphans := x.orphans - {id}, bySlug := x.bySlug - {TunnelSlug(id)})
    else x
  }

  lemma RemoveLinked(x: Index, id: string)
    requires Linked(x) && Disjoint(x)
    ensures Linked(RemoveIndex(x, id)) && Disjoint(RemoveIndex(x, id))
    ensures forall k :: Holds(RemoveIndex(x, id), k) <==> Holds(x, k) && k != id
  {
  }

  lemma RemoveSlugged(x: Index, id: string)
    requires Consistent(x)
    ensures Slugged(RemoveIndex(x, id))
  {
    var y := RemoveIndex(x, id);
    RemoveLinked(x, id);
    forall k | Holds(y, k)
      ensures TunnelSlug(k) in y.bySlug && y.bySlug[TunnelSlug(k)] == k
    {
      assert Holds(x, k);
    }
    forall s | s in y.bySlug
      ensures TunnelSlug(y.bySlug[s]) == s && Holds(y, y.bySlug[s])
    {
      assert s in x.bySlug && Holds(x, x.bySlug[s]);
    }
  }

  lemma RemoveConsistent(x: Index, id: string)
    requires Consistent(x)
    ensures Consistent(RemoveIndex(x, id)) && SlotsOf(RemoveIndex(x, id)) == SlotsOf(x) - {id}
  {
    var y := RemoveIndex(x, id);
    RemoveLinked(x, id);
    RemoveSlugged(x, id);
    forall k | Holds(y, k)
      ensures SlotOf(y, k) == SlotOf(x, k)
    {
      assert Holds(x, k);
    }
    SameSlots(SlotsOf(y), SlotsOf(x) - {id});
  }

  function ParkIndex(x: Index, client: Socket, now: int): Index
    requires client in x.byClient && x.byClient[client] in x.byId
  {
    var id := x.byClient[client];
    x.(byId := x.byId - {id}, byClient := x.byClient - {client},
       orphans := x.orphans[id := OrphanedTunnel(x.byId[id].id, x.byId[id].grant, now)])
  }

  lemma ParkLinked(x: Index, client: Socket, now: int)
    requires Linked(x) && Disjoint(x) && client in x.byClient
    ensures var y := ParkIndex(x, client, now);
            Linked(y) && Disjoint(y) && y.bySlug == x.bySlug && forall k :: Holds(y, k) <==> Holds(x, k)
  {
  }

  lemma SlugsKept(x: Index, y: Index)
    requires Slugged(x) && y.bySlug == x.bySlug && forall k :: Holds(y, k) <==> Holds(x, k)
    ensures Slugged(y)
  {
  }

  lemma ParkConsistent(x: Index, client: Socket, now: int)
    requires Consistent(x) && client in x.byClient
    ensures Consistent(ParkIndex(x, client, now))
    ensures Bound(SlotsOf(x), x.byClient[client], client)
    ensures SlotsOf(ParkIndex(x, client, now)) == ParkSlot(SlotsOf(x), x.byClient[client], now)
  {
    var y, id := ParkIndex(x, client, now), x.byClient[client];
    ParkLinked(x, client, now);
    SlugsKept(x, y);
    SameSlots(SlotsOf(y), ParkSlot(SlotsOf(x), id, now));
  }

  /** A parked tunnel keeps its own slug reserved, so claiming it back is always consistent. */
  lemma ClaimConsistent(x: Index, id: string, client: Socket)
    requires Consistent(x) && id in x.orphans
    ensures Consistent(SaveIndex(x, TunnelRecord(id, client, x.orphans[id].grant)))
    ensures SlotsOf(SaveIndex(x, TunnelRecord(id, client, x.orphans[id].grant)))
            == SaveSlot(SlotsOf(x), TunnelRecord(id, client, x.orphans[id].grant))
  {
    var t := TunnelRecord(id, client, x.orphans[id].grant);
    ConsistentWellFormed(x);
    assert Holds(x, id);
    SaveConsistent(x, t);
    SaveSlots(x, t);
  }

  lemma ParkedAreOrphans(x: Index)
    requires Disjoint(x)
    ensures forall id :: id in x.orphans ==>
              id in SlotsOf(x) && SlotsOf(x)[id] == Parked(x.orphans[id].grant, x.orphans[id].disconnectedAt)
    ensures forall id :: id in SlotsOf(x) && SlotsOf(x)[id].Parked? ==> id in x.orphans
    ensures forall id :: id in x.orphans ==> x.orphans[id].id == id
  {
    assert forall id :: id in x.orphans ==> Holds(x, id);
  }

  /** All expired tunnels outside `todo` are gone and nothing else has changed. */
  ghost predicate Purging(before: Slots, m: Slots, todo: set<string>, now: int, windowMs: int) {
    && (forall id :: id in m <==> id in before && (Expired(before[id], now, windowMs) ==> id in todo))
    && (forall id :: id in m && id in before ==> m[id] == before[id])
  }

  /** `purged` lists exactly the expired tunnels outside `todo`, each once. */
  ghost predicate Purged(purged: seq<OrphanedTunnel>, before: Slots, todo: set<string>, now: int, windowMs: int) {
    && (forall i, j :: 0 <= i < j < |purged| ==> purged[i].id != purged[j].id)
    && (forall o :: o in purged ==>
          && o.id in before && o.id !in todo && Expired(before[o.id], now, windowMs)
          && before[o.id] == Parked(o.grant, o.disconnectedAt))
    && (forall id :: id in before && Expired(before[id], now, windowMs) && id !in todo ==> exists o :: o in purged && o.id == id)
  }

  lemma PurgingNext(before: Slots, m: Slots, todo: set<string>, now: int, windowMs: int, id: string)
    requires Purging(before, m, todo, now, windowMs) && id in todo && id in before
    ensures Purging(before, if Expired(before[id], now, windowMs) then m - {id} else m, todo - {id}, now, windowMs)
  {
  }

  lemma PurgedNext(purged: seq<OrphanedTunnel>, before: Slots, todo: set<string>, now: int, windowMs: int, orphan: OrphanedTunnel)
    requires Purged(purged, before, todo, now, windowMs)
    requires orphan.id in todo && orphan.id in before && before[orphan.id] == Parked(orphan.grant, orphan.disconnectedAt)
    ensures Purged(if Expired(before[orphan.id], now, windowMs) then purged + [orphan] else purged,
                   before, todo - {orphan.id}, now, windowMs)
  {
    if Expired(before[orphan.id], now, windowMs) {
      forall id | id in before && Expired(before[id], now, windowMs) && id !in todo - {orphan.id}
        ensures exists o :: o in purged + [orphan] && o.id == id
      {
        if id == orphan.id {
          assert orphan in purged + [orphan];
        } else {
          var o :| o in purged && o.id == id;
          assert o in purged + [orphan];
        }
      }
    }
  }

  /** The live tunnel a slug routes to, as a scan of the map finds it. */
  ghost function LiveBySlug(m: Slots, slug: string): Option<TunnelRecord> {
    if exists id :: id in m && TunnelSlug(id) == Text.ToLower(slug) && m[id].Active? then
      var id :| id in m && TunnelSlug(id) == Text.ToLower(slug) && m[id].Active?;
      Live(m, id)
    else None
  }

  class MemoryTunnelRepository {
    var byId: map<string, TunnelRecord>
    var byClient: map<Socket, string>
    var bySlug: map<string, string>
    var orphans: map<string, OrphanedTunnel>

    ghost function View(): Index
      reads this
    {
      Index(byId, byClient, bySlug, orphans)
    }

    ghost predicate Valid()
      reads this
    {
      Consistent(View())
    }

    ghost function Tunnels(): Slots
      reads this
    {
      SlotsOf(View())
    }

    constructor ()
      ensures Valid() && Tunnels() == map[]
    {
      byId, byClient, bySlug, orphans := map[], map[], map[], map[];
      new;
      SameSlots(Tunnels(), map[]);
    }

    /** The indexes stay consistent exactly when no tunnel that stays has the slug. */
    method Save(tunnel: TunnelRecord)
      requires Valid()
      modifies this
      ensures View() == SaveIndex(old(View()), tunnel)
      ensures Tunnels() == SaveSlot(old(Tunnels()), tunnel)
      ensures Valid() <==> SlugFree(old(Tunnels()), tunnel.id, tunnel.client)
    {
      SaveSlots(View(), tunnel);
      SaveConsistent(View(), tunnel);
      orphans := orphans - {tunnel.id};
      if tunnel.id in byId {
        byClient := byClient - {byId[tunnel.id].client};
        bySlug := bySlug - {TunnelSlug(byId[tunnel.id].id)};
      }
      if tunnel.client in byClient && byClient[tunnel.client] != tunnel.id {
        var displaced := byClient[tunnel.client];
        if displaced in byId {
          bySlug := bySlug - {TunnelSlug(byId[displaced].id)};
        }
        byId := byId - {displaced};
      }
      byId := byId[tunnel.id := tunnel];
      byClient := byClient[tunnel.client := tunnel.id];
      bySlug := bySlug[TunnelSlug(tunnel.id) := tunnel.id];
    }

    method Remove(id: string) returns (removed: bool)
      requires Valid()
      modifies this
      ensures Valid() && Tunnels() == old(Tunnels()) - {id}
      ensures removed <==> id in old(Tunnels())
    {
      RemoveConsistent(View(), id);
      ghost var after := RemoveIndex(View(), id);
      var orphanRemoved := id in orphans;
      orphans := orphans - {id};
      if id !in byId {
        if orphanRemoved {
          bySlug := bySlug - {TunnelSlug(id)};
        }
        assert View() == after;
        return orphanRemoved;
      }
      var existing := byId[id];
      byId := byId - {id};
      byClient := byClient - {existing.client};
      bySlug := bySlug - {TunnelSlug(existing.id)};
      removed := true;
      assert View() == after;
    }

    method RemoveByClient(client: Socket) returns (removed: bool)
      requires Valid()
      modifies this
      ensures Valid()
      ensures forall id :: Bound(old(Tunnels()), id, client) ==> removed && Tunnels() == old(Tunnels()) - {id}
      ensures (forall id :: !Bound(old(Tunnels()), id, client)) ==> !removed && Tunnels() == old(Tunnels())
    {
      if client !in byClient {
        return false;
      }
      assert Bound(Tunnels(), byClient[client], client);
      removed := Remove(byClient[client]);
    }

    method OrphanByClient(client: Socket, disconnectedAt: int) returns (orphan: Option<OrphanedTunnel>)
      requires Valid()
      modifies this
      ensures Valid()
      ensures orphan.None? ==> Tunnels() == old(Tunnels()) && forall id :: !Bound(old(Tunnels()), id, client)
      ensures orphan.Some? ==>
                && Bound(old(Tunnels()), orphan.value.id, client)
                && orphan.value.grant == old(Tunnels())[orphan.value.id].grant
                && orphan.value.disconnectedAt == disconnectedAt
                && Tunnels() == ParkSlot(old(Tunnels()), orphan.value.id, disconnectedAt)
    {
      if client !in byClient {
        return None;
      }
      ParkConsistent(View(), client, disconnectedAt);
      var id := byClient[client];
      var existing := byId[id];
      byId := byId - {id};
      byClient := byClient - {client};
      orphan := Some(OrphanedTunnel(existing.id, existing.grant, disconnectedAt));
      orphans := orphans[id := orphan.value];
      assert View() == ParkIndex(old(View()), client, disconnectedAt);
    }

    method DropOrphan(id: string)
      requires Valid() && id in orphans
      modifies this`orphans, this`bySlug
      ensures Valid() && Tunnels() == old(Tunnels()) - {id}
      ensures orphans == old(orphans) - {id}
    {
      RemoveConsistent(View(), id);
      orphans := orphans - {id};
      bySlug := bySlug - {TunnelSlug(id)};
    }

    method Reclaim(id: string, client: Socket, port: int, now: int, reclaimWindowMs: int, context: Ownership)
      returns (restored: Option<TunnelRecord>)
      requires Valid()
      modifies this
      ensures Valid() && Tunnels() == ReclaimSlot(old(Tunnels()), id, client, port, now, reclaimWindowMs, context)
      ensures restored.Some? <==>
              Claimable(old(Tunnels()), id, port, context) && !Expired(old(Tunnels())[id], now, reclaimWindowMs)
      ensures restored.Some? ==> restored.value == TunnelRecord(id, client, old(Tunnels())[id].grant)
    {
      if id !in orphans {
        return None;
      }
      assert Holds(View(), id);
      var orphan := orphans[id];
      if orphan.grant.port != port {
        return None;
      }
      if orphan.grant.context != context {
        return None;
      }
      if now - orphan.disconnectedAt > reclaimWindowMs {
        DropOrphan(id);
        return None;
      }
      // Saving drops the parked slot itself, so it need not be deleted first.
      ClaimConsistent(View(), id, client);
      var tunnel := TunnelRecord(orphan.id, client, orphan.grant);
      Save(tunnel);
      restored := Some(tunnel);
    }

    method PurgeOne(id: string, now: int, reclaimWindowMs: int, ghost before: Slots, ghost todo: set<string>)
      returns (orphan: OrphanedTunnel, expired: bool)
      requires Valid() && id in orphans && id in todo
      requires Purging(before, Tunnels(), todo, now, reclaimWindowMs)
      modifies this
      ensures Valid() && Purging(before, Tunnels(), todo - {id}, now, reclaimWindowMs)
      ensures orphan.id == id && id in before && before[id] == Parked(orphan.grant, orphan.disconnectedAt)
      ensures expired <==> Expired(before[id], now, reclaimWindowMs)
      ensures orphans == if expired then old(orphans) - {id} else old(orphans)
    {
      ParkedAreOrphans(View());
      PurgingNext(before, Tunnels(), todo, now, reclaimWindowMs, id);
      orphan := orphans[id];
      expired := now - orphan.disconnectedAt > reclaimWindowMs;
      if expired {
        DropOrphan(id);
      }
    }

    method PurgeExpiredOrphans(now: int, reclaimWindowMs: int) returns (purged: seq<OrphanedTunnel>)
      requires Valid()
      modifies this
      ensures Valid() && Tunnels() == PurgeSlots(old(Tunnels()), now, reclaimWindowMs)
      ensures Purged(purged, old(Tunnels()), {}, now, reclaimWindowMs)
    {
      purged := [];
      ghost var before := Tunnels();
      var todo := orphans.Keys;
      ParkedAreOrphans(View());
      while todo != {}
        invariant Valid() && todo <= orphans.Keys
        invariant Purging(before, Tunnels(), todo, now, reclaimWindowMs)
        invariant Purged(purged, before, todo, now, reclaimWindowMs)
        decreases |todo|
      {
        var id :| id in todo;
        var orphan, expired := PurgeOne(id, now, reclaimWindowMs, before, todo);
        PurgedNext(purged, before, todo, now, reclaimWindowMs, orphan);
        if expired {
          purged := purged + [orphan];
        }
        todo := todo - {id};
      }
      SameSlots(Tunnels(), PurgeSlots(before, now, reclaimWindowMs));
    }

    method FindById(id: string) returns (found: Option<TunnelRecord>)
      requires Valid()
      ensures found == Live(Tunnels(), id)
    {
      found := if id in byId then Some(byId[id]) else None;
    }

    method FindByClient(client: Socket) returns (found: Option<TunnelRecord>)
      requires Valid()
      ensures found.Some? ==> Bound(Tunnels(), found.value.id, client) && found == Live(Tunnels(), found.value.id)
      ensures found.None? ==> forall id :: !Bound(Tunnels(), id, client)
    {
      if client !in byClient {
        return None;
      }
      var id := byClient[client];
      found := if id in byId then Some(byId[id]) else None;
    }

    /** Finds the live tunnel with this slug and no other; a parked tunnel is not routable. */
    method FindBySlug(slug: string) returns (found: Option<TunnelRecord>)
      requires Valid()
      ensures found == LiveBySlug(Tunnels(), slug)
    {
      ConsistentWellFormed(View());
      var key := Text.ToLower(slug);
      if key !in bySlug {
        return None;
      }
      var id := bySlug[key];
      assert Holds(View(), id);
      found := if id in byId then Some(byId[id]) else None;
    }
  }
}
