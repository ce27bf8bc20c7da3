/** Recorded exchanges in a bounded log over the key/value store. */
module TrafficStore {
  import opened Bytes
  import opened Messages
  import opened TrafficBody
  import S = Storage
  import Text

  const TRAFFIC_STORAGE_NAMESPACE := "traffic"

  const TRAFFIC_ORDER_KEY := "__order__"

  const TRAFFIC_RECORD_KEY_PREFIX := "r:"

  const DEFAULT_MAX_TRAFFIC_RECORDS: int := 1000

  datatype TrafficRecord = TrafficRecord(
    requestId: string,
    timestamp: int,
    httpMethod: Method,
    path: string,
    headers: Headers,
    query: Headers,
    body: TrafficBody,
    status: Option<int>,
    responseHeaders: Headers,
    responseBody: TrafficBody,
    latencyMs: Option<int>,
    tunnelId: string,
    workspaceId: Option<string>,
    error: Option<string>)

  datatype TrafficRecordPatch = TrafficRecordPatch(
    status: Option<int>,
    responseHeaders: Option<Headers>,
    responseBody: Option<TrafficBody>,
    latencyMs: Option<int>,
    error: Option<string>)

  datatype ListOptions =
    ListOptions(limit: Option<int>, tunnelId: Option<string>, workspaceId: Option<string>, includeBodies: bool)

  /** What the store keeps under a key: a record, or the ids in order of insertion. */
  datatype Stored = Record(record: TrafficRecord) | Order(ids: seq<string>)

  function RecordKey(requestId: string): string {
    TRAFFIC_RECORD_KEY_PREFIX + requestId
  }

  /** The key as the storage holds it, with outer white space gone. */
  function Key(requestId: string): string {
    Text.Trim(RecordKey(requestId))
  }

  function Normalize(r: TrafficRecord, maxBodyBytes: nat): TrafficRecord {
    r.(body := CapTrafficBody(r.body, maxBodyBytes), responseBody := CapTrafficBody(r.responseBody, maxBodyBytes))
  }

  function Patched(r: TrafficRecord, p: TrafficRecordPatch, maxBodyBytes: nat): TrafficRecord {
    r.(status := if p.status.Some? then p.status else r.status,
       responseHeaders := if p.responseHeaders.Some? then p.responseHeaders.value else r.responseHeaders,
       responseBody := if p.responseBody.Some? then CapTrafficBody(p.responseBody.value, maxBodyBytes) else r.responseBody,
       latencyMs := if p.latencyMs.Some? then p.latencyMs else r.latencyMs,
       error := if p.error.Some? then p.error else r.error)
  }

  function Stripped(b: TrafficBody): TrafficBody {
    TrafficBody(b.byteLength, b.truncated, "")
  }

  function StripBodies(r: TrafficRecord): TrafficRecord {
    r.(body := Stripped(r.body), responseBody := Stripped(r.responseBody))
  }

  predicate Matches(r: TrafficRecord, o: ListOptions) {
    (o.tunnelId.Some? ==> r.tunnelId == o.tunnelId.value) && (o.workspaceId.Some? ==> r.workspaceId == o.workspaceId)
  }

  function Shown(r: TrafficRecord, o: ListOptions): TrafficRecord {
    if o.includeBodies then r else StripBodies(r)
  }

  // The store as an order index and records by key

  datatype Log = Log(order: seq<string>, records: map<string, TrafficRecord>)

  function LogOf(bucket: map<string, Stored>): Log {
    Log(if TRAFFIC_ORDER_KEY in bucket && bucket[TRAFFIC_ORDER_KEY].Order? then bucket[TRAFFIC_ORDER_KEY].ids else [],
        map k | k in bucket && bucket[k].Record? :: bucket[k].record)
  }

  function Keys(ids: seq<string>): set<string> {
    set i | 0 <= i < |ids| :: Key(ids[i])
  }

  predicate Indexed(l: Log) {
    forall i :: 0 <= i < |l.order| ==> Key(l.order[i]) in l.records
  }

  /** The index has no duplicates and names exactly the stored records. */
  ghost predicate Consistent(l: Log) {
    && (forall i, j :: 0 <= i < j < |l.order| ==> Key(l.order[i]) != Key(l.order[j]))
    && Indexed(l)
    && (forall k :: k in l.records ==> exists i :: 0 <= i < |l.order| && Key(l.order[i]) == k)
  }

  function Capacity(maxRecords: int): nat {
    if maxRecords < 0 then 0 else maxRecords
  }

  /** How many of the oldest of `n` ids have to go. */
  function Excess(n: nat, maxRecords: int): nat {
    if n > Capacity(maxRecords) then n - Capacity(maxRecords) else 0
  }

  function SaveLog(l: Log, r: TrafficRecord, maxRecords: int, maxBodyBytes: nat): Log {
    var k := Key(r.requestId);
    var records := l.records[k := Normalize(r, maxBodyBytes)];
    if k in l.records then Log(l.order, records)
    else
      var order := l.order + [r.requestId];
      var excess := Excess(|order|, maxRecords);
      Log(order[excess..], records - Keys(order[..excess]))
  }

  function UpdateLog(l: Log, requestId: string, p: TrafficRecordPatch, maxBodyBytes: nat): Log {
    var k := Key(requestId);
    if k in l.records then l.(records := l.records[k := Patched(l.records[k], p, maxBodyBytes)]) else l
  }

  // The log it stands for: entries in order of insertion

  datatype Entry = Entry(id: string, record: TrafficRecord)

  function Entries(l: Log): seq<Entry>
    requires Indexed(l)
  {
    seq(|l.order|, i requires 0 <= i < |l.order| => Entry(l.order[i], l.records[Key(l.order[i])]))
  }

  /** Position of the entry stored under `k`, or the log's length. */
  function Position(es: seq<Entry>, k: string): (i: nat)
    ensures i <= |es|
    ensures i < |es| ==> Key(es[i].id) == k
    ensures forall j :: 0 <= j < i ==> Key(es[j].id) != k
  {
    if es == [] || Key(es[0].id) == k then 0 else 1 + Position(es[1..], k)
  }

  /** The last `n` elements, or all of them. */
  function LastN<T>(s: seq<T>, n: nat): seq<T> {
    if |s| <= n then s else s[|s| - n..]
  }

  /** Saving overwrites in place, or appends and lets the oldest go. */
  function SaveEntries(es: seq<Entry>, r: TrafficRecord, maxRecords: int, maxBodyBytes: nat): seq<Entry> {
    var i := Position(es, Key(r.requestId));
    if i < |es| then es[i := es[i].(record := Normalize(r, maxBodyBytes))]
    else LastN(es + [Entry(r.requestId, Normalize(r, maxBodyBytes))], Capacity(maxRecords))
  }

  function UpdateEntries(es: seq<Entry>, requestId: string, p: TrafficRecordPatch, maxBodyBytes: nat): seq<Entry> {
    var i := Position(es, Key(requestId));
    if i < |es| then es[i := es[i].(record := Patched(es[i].record, p, maxBodyBytes))] else es
  }

  lemma PositionInOrder(l: Log, k: string)
    requires Consistent(l)
    ensures Position(Entries(l), k) < |l.order| <==> k in l.records
  {
    var i := Position(Entries(l), k);
    if k in l.records {
      var j :| 0 <= j < |l.order| && Key(l.order[j]) == k;
      assert Key(Entries(l)[j].id) == k;
    }
  }

  lemma OverwriteRefines(l: Log, k: string, r: TrafficRecord)
    requires Consistent(l) && k in l.records
    ensures var l' := l.(records := l.records[k := r]);
            var i := Position(Entries(l), k);
            && Consistent(l')
            && i < |l.order| && Entries(l') == Entries(l)[i := Entries(l)[i].(record := r)]
  {
    PositionInOrder(l, k);
    var i := Position(Entries(l), k);
    assert Key(l.order[i]) == k;
  }

  function DropOldest(l: Log, n: nat): Log
    requires n <= |l.order|
  {
    Log(l.order[n..], l.records - Keys(l.order[..n]))
  }

  lemma DropOldestEntries(l: Log, n: nat)
    requires Indexed(l) && n <= |l.order| && Indexed(DropOldest(l, n))
    ensures Entries(DropOldest(l, n)) == Entries(l)[n..]
  {
  }

  /** Eviction removes the oldest entries and their records, and nothing else. */
  lemma DropOldestRefines(l: Log, n: nat)
    requires Consistent(l) && n <= |l.order|
    ensures Consistent(DropOldest(l, n)) && Entries(DropOldest(l, n)) == Entries(l)[n..]
  {
    var l' := DropOldest(l, n);
    forall i | 0 <= i < n
      ensures Key(l.order[i]) in Keys(l.order[..n])
    {
      assert l.order[..n][i] == l.order[i];
    }
    forall i | 0 <= i < |l'.order|
      ensures Key(l'.order[i]) in l'.records
    {
      assert l'.order[i] == l.order[n + i];
      assert forall j :: 0 <= j < n ==> Key(l.order[j]) != Key(l.order[n + i]);
    }
    forall k | k in l'.records
      ensures exists i :: 0 <= i < |l'.order| && Key(l'.order[i]) == k
    {
      var j :| 0 <= j < |l.order| && Key(l.order[j]) == k;
      assert j >= n;
      assert l'.order[j - n] == l.order[j];
    }
    DropOldestEntries(l, n);
  }

  lemma AppendedNamed(l: Log, id: string, r: TrafficRecord)
    requires Consistent(l)
    ensures var l' := Log(l.order + [id], l.records[Key(id) := r]);
            forall k :: k in l'.records ==> exists i :: 0 <= i < |l'.order| && Key(l'.order[i]) == k
  {
    var l' := Log(l.order + [id], l.records[Key(id) := r]);
    forall k | k in l'.records
      ensures exists i :: 0 <= i < |l'.order| && Key(l'.order[i]) == k
    {
      if k == Key(id) {
        assert l'.order[|l.order|] == id;
      } else {
        var j :| 0 <= j < |l.order| && Key(l.order[j]) == k;
        assert l'.order[j] == l.order[j];
      }
    }
  }

  lemma AppendedEntries(l: Log, id: string, r: TrafficRecord)
    requires Indexed(l) && Key(id) !in l.records
    ensures Indexed(Log(l.order + [id], l.records[Key(id) := r]))
    ensures Entries(Log(l.order + [id], l.records[Key(id) := r])) == Entries(l) + [Entry(id, r)]
  {
  }

  lemma AppendedConsistent(l: Log, id: string, r: TrafficRecord)
    requires Consistent(l) && Key(id) !in l.records
    ensures Consistent(Log(l.order + [id], l.records[Key(id) := r]))
    ensures Entries(Log(l.order + [id], l.records[Key(id) := r])) == Entries(l) + [Entry(id, r)]
  {
    AppendedNamed(l, id, r);
    AppendedEntries(l, id, r);
  }

  lemma AppendRefines(l: Log, id: string, r: TrafficRecord, maxRecords: int)
    requires Consistent(l) && |l.order| <= Capacity(maxRecords) && Key(id) !in l.records
    ensures var appended := Log(l.order + [id], l.records[Key(id) := r]);
            var l' := DropOldest(appended, Excess(|appended.order|, maxRecords));
            && Consistent(l') && |l'.order| <= Capacity(maxRecords)
            && Entries(l') == LastN(Entries(l) + [Entry(id, r)], Capacity(maxRecords))
  {
    AppendedConsistent(l, id, r);
    DropOldestRefines(Log(l.order + [id], l.records[Key(id) := r]), Excess(|l.order| + 1, maxRecords));
  }

  /** For every save, the index and the records stay in step and stand for the saved log. */
  lemma SaveRefines(l: Log, r: TrafficRecord, maxRecords: int, maxBodyBytes: nat)
    requires Consistent(l) && |l.order| <= Capacity(maxRecords)
    ensures var l' := SaveLog(l, r, maxRecords, maxBodyBytes);
            && Consistent(l') && |l'.order| <= Capacity(maxRecords)
            && Entries(l') == SaveEntries(Entries(l), r, maxRecords, maxBodyBytes)
  {
    var k := Key(r.requestId);
    PositionInOrder(l, k);
    if k in l.records {
      OverwriteRefines(l, k, Normalize(r, maxBodyBytes));
    } else {
      AppendRefines(l, r.requestId, Normalize(r, maxBodyBytes), maxRecords);
    }
  }

  lemma UpdateRefines(l: Log, requestId: string, p: TrafficRecordPatch, maxBodyBytes: nat)
    requires Consistent(l)
    ensures var l' := UpdateLog(l, requestId, p, maxBodyBytes);
            && Consistent(l') && l'.order == l.order
            && Entries(l') == UpdateEntries(Entries(l), requestId, p, maxBodyBytes)
  {
    var k := Key(requestId);
    PositionInOrder(l, k);
    if k in l.records {
      OverwriteRefines(l, k, Patched(l.records[k], p, maxBodyBytes));
    }
  }

  // Whole runs

  datatype Operation = Save(record: TrafficRecord) | Update(requestId: string, patch: TrafficRecordPatch)

  function Apply(l: Log, op: Operation, maxRecords: int, maxBodyBytes: nat): Log {
    match op
    case Save(r) => SaveLog(l, r, maxRecords, maxBodyBytes)
    case Update(id, p) => UpdateLog(l, id, p, maxBodyBytes)
  }

  function Run(l: Log, ops: seq<Operation>, maxRecords: int, maxBodyBytes: nat): Log {
    if ops == [] then l else Apply(Run(l, ops[..|ops| - 1], maxRecords, maxBodyBytes), ops[|ops| - 1], maxRecords, maxBodyBytes)
  }

  function Inserts(l: Log, op: Operation): seq<string> {
    if op.Save? && Key(op.record.requestId) !in l.records then [op.record.requestId] else []
  }

  /** The ids that entered the log, in order: those saved while no record was stored under their key. */
  function Inserted(ops: seq<Operation>, maxRecords: int, maxBodyBytes: nat): seq<string> {
    if ops == [] then []
    else
      var earlier := ops[..|ops| - 1];
      Inserted(earlier, maxRecords, maxBodyBytes)
      + Inserts(Run(Log([], map[]), earlier, maxRecords, maxBodyBytes), ops[|ops| - 1])
  }

  lemma LastNSnoc<T>(s: seq<T>, x: T, n: nat)
    ensures LastN(LastN(s, n) + [x], n) == LastN(s + [x], n)
  {
  }

  lemma SaveOrder(l: Log, r: TrafficRecord, maxRecords: int, maxBodyBytes: nat)
    ensures SaveLog(l, r, maxRecords, maxBodyBytes).order ==
            if Key(r.requestId) in l.records then l.order else LastN(l.order + [r.requestId], Capacity(maxRecords))
  {
  }

  ghost predicate Survivors(l: Log, inserted: seq<string>, maxRecords: int) {
    Consistent(l) && |l.order| <= Capacity(maxRecords) && l.order == LastN(inserted, Capacity(maxRecords))
  }

  lemma ApplySurvivors(l: Log, inserted: seq<string>, op: Operation, maxRecords: int, maxBodyBytes: nat)
    requires Survivors(l, inserted, maxRecords)
    ensures Survivors(Apply(l, op, maxRecords, maxBodyBytes), inserted + Inserts(l, op), maxRecords)
  {
    match op
    case Save(r) =>
      SaveRefines(l, r, maxRecords, maxBodyBytes);
      SaveOrder(l, r, maxRecords, maxBodyBytes);
      LastNSnoc(inserted, r.requestId, Capacity(maxRecords));
      assert inserted + [] == inserted;
    case Update(id, p) =>
      UpdateRefines(l, id, p, maxBodyBytes);
      assert inserted + [] == inserted;
  }

  /** After every run the index is sound, within its bound, and holds exactly the most recently inserted ids. */
  lemma {:induction false} RunSurvivors(ops: seq<Operation>, maxRecords: int, maxBodyBytes: nat)
    ensures Survivors(Run(Log([], map[]), ops, maxRecords, maxBodyBytes), Inserted(ops, maxRecords, maxBodyBytes), maxRecords)
  {
    if ops != [] {
      var earlier := ops[..|ops| - 1];
      RunSurvivors(earlier, maxRecords, maxBodyBytes);
      ApplySurvivors(Run(Log([], map[]), earlier, maxRecords, maxBodyBytes), Inserted(earlier, maxRecords, maxBodyBytes),
                     ops[|ops| - 1], maxRecords, maxBodyBytes);
    }
  }

  // Listing

  /** The matching records of a log, newest first. */
  function Newest(es: seq<Entry>, o: ListOptions): seq<TrafficRecord> {
    if es == [] then []
    else
      var r := es[|es| - 1].record;
      (if Matches(r, o) then [Shown(r, o)] else []) + Newest(es[..|es| - 1], o)
  }

  function FirstN<T>(s: seq<T>, n: nat): seq<T> {
    if |s| <= n then s else s[..n]
  }

  function LimitInForce(limit: int): nat {
    if limit < 1 then 1 else limit
  }

  /** The limit is looked at only after a record was collected, so any limit below one acts as one. */
  function Listed(es: seq<Entry>, o: ListOptions): seq<TrafficRecord> {
    if o.limit.None? then Newest(es, o)
    else FirstN(Newest(es, o), LimitInForce(o.limit.value))
  }

  /** Listing is take-limit of the newest-first matches exactly when the limit is at least one or nothing matches. */
  lemma ListedTakesLimit(es: seq<Entry>, o: ListOptions)
    requires o.limit.Some?
    ensures Listed(es, o) == FirstN(Newest(es, o), if o.limit.value < 0 then 0 else o.limit.value)
            <==> o.limit.value >= 1 || Newest(es, o) == []
  {
    if o.limit.value < 1 && Newest(es, o) != [] {
      assert |Listed(es, o)| == 1;
    }
  }

  lemma BucketOf<V>(n: S.Namespaces<V>, ns: string, b: map<string, V>)
    ensures S.Bucket(S.WithBucket(n, ns, b), ns) == b
  {
  }

  /** Record keys hold records and the order key holds the order. */
  ghost predicate TypedBucket(b: map<string, Stored>) {
    forall k :: k in b ==> (k == TRAFFIC_ORDER_KEY <==> b[k].Order?)
  }

  lemma PutRecord(b: map<string, Stored>, k: string, r: TrafficRecord)
    requires TypedBucket(b) && k != TRAFFIC_ORDER_KEY
    ensures TypedBucket(b[k := Record(r)])
    ensures LogOf(b[k := Record(r)]) == Log(LogOf(b).order, LogOf(b).records[k := r])
  {
  }

  lemma DropRecord(b: map<string, Stored>, k: string)
    requires TypedBucket(b) && k != TRAFFIC_ORDER_KEY
    ensures TypedBucket(b - {k})
    ensures LogOf(b - {k}) == Log(LogOf(b).order, LogOf(b).records - {k})
  {
  }

  lemma PutOrder(b: map<string, Stored>, ids: seq<string>)
    requires TypedBucket(b)
    ensures TypedBucket(b[TRAFFIC_ORDER_KEY := Order(ids)])
    ensures LogOf(b[TRAFFIC_ORDER_KEY := Order(ids)]) == Log(ids, LogOf(b).records)
  {
  }

  lemma Regroup<T>(all: seq<T>, a: seq<T>, x: T, b: seq<T>)
    requires all == a + ([x] + b)
    ensures all == (a + [x]) + b
    ensures FirstN(all, |a| + 1) == a + [x]
  {
  }

  lemma NewestStep(es: seq<Entry>, i: nat, o: ListOptions)
    requires i < |es|
    ensures Newest(es[..i + 1], o) ==
            if Matches(es[i].record, o) then [Shown(es[i].record, o)] + Newest(es[..i], o) else Newest(es[..i], o)
  {
    assert es[..i + 1][..i] == es[..i];
  }

  lemma KeysSnoc(order: seq<string>, n: nat)
    requires n < |order|
    ensures Keys(order[..n + 1]) == Keys(order[..n]) + {Key(order[n])}
  {
    forall k | k in Keys(order[..n + 1])
      ensures k in Keys(order[..n]) + {Key(order[n])}
    {
      var i :| 0 <= i < n + 1 && Key(order[..n + 1][i]) == k;
      if i < n {
        assert order[..n][i] == order[..n + 1][i];
      }
    }
    forall k | k in Keys(order[..n]) + {Key(order[n])}
      ensures k in Keys(order[..n + 1])
    {
      if k in Keys(order[..n]) {
        var i :| 0 <= i < n && Key(order[..n][i]) == k;
        assert order[..n + 1][i] == order[..n][i];
      } else {
        assert order[..n + 1][n] == order[n];
      }
    }
  }

  lemma TrimEndPrefix(s: string, p: string)
    requires p <= s && p != "" && !Text.IsSpace(p[|p| - 1])
    ensures p <= Text.TrimEnd(s)
  {
  }

  /** Record keys are never blank and never clash with the order key. */
  lemma KeySegment(requestId: string)
    ensures S.Segment(RecordKey(requestId)) == Ok(Key(requestId)) && Key(requestId) != TRAFFIC_ORDER_KEY
  {
    var k := RecordKey(requestId);
    assert k[0] == 'r' && Text.TrimStart(k) == k;
    TrimEndPrefix(k, TRAFFIC_RECORD_KEY_PREFIX);
  }

  lemma FixedSegments()
    ensures S.Segment(TRAFFIC_STORAGE_NAMESPACE) == Ok(TRAFFIC_STORAGE_NAMESPACE)
    ensures S.Segment(TRAFFIC_ORDER_KEY) == Ok(TRAFFIC_ORDER_KEY)
  {
    Text.TrimNoSpace(TRAFFIC_STORAGE_NAMESPACE);
    Text.TrimNoSpace(TRAFFIC_ORDER_KEY);
  }

  class StorageTrafficRecordStore {
    const storage: S.MemoryStorage<Stored>
    const maxRecords: int
    const maxBodyBytes: nat

    constructor (storage: S.MemoryStorage<Stored>, maxRecords: int, maxBodyBytes: nat)
      ensures this.storage == storage && this.maxRecords == maxRecords && this.maxBodyBytes == maxBodyBytes
    {
      this.storage, this.maxRecords, this.maxBodyBytes := storage, maxRecords, maxBodyBytes;
    }

    ghost function TrafficBucket(): map<string, Stored>
      reads storage
    {
      S.Bucket(storage.namespaces, TRAFFIC_STORAGE_NAMESPACE)
    }

    /** The bucket holds records under record keys and, under its own key, their order. */
    ghost predicate Typed()
      reads storage
    {
      storage.Valid() && TypedBucket(TrafficBucket())
    }

    ghost function View(): Log
      reads storage
    {
      LogOf(TrafficBucket())
    }

    method ReadOrder() returns (order: seq<string>)
      requires Typed()
      ensures order == View().order
    {
      FixedSegments();
      var found := storage.Get(TRAFFIC_STORAGE_NAMESPACE, TRAFFIC_ORDER_KEY);
      order := if found.value.None? then [] else found.value.value.ids;
    }

    method WriteOrder(order: seq<string>)
      requires Typed()
      modifies storage
      ensures Typed() && View() == Log(order, old(View()).records)
    {
      FixedSegments();
      PutOrder(TrafficBucket(), order);
      BucketOf(storage.namespaces, TRAFFIC_STORAGE_NAMESPACE, TrafficBucket()[TRAFFIC_ORDER_KEY := Order(order)]);
      var _ := storage.Save(TRAFFIC_STORAGE_NAMESPACE, TRAFFIC_ORDER_KEY, Order(order));
    }

    method WriteRecord(requestId: string, r: TrafficRecord)
      requires Typed()
      modifies storage
      ensures Typed() && View() == Log(old(View()).order, old(View()).records[Key(requestId) := r])
    {
      FixedSegments();
      KeySegment(requestId);
      PutRecord(TrafficBucket(), Key(requestId), r);
      BucketOf(storage.namespaces, TRAFFIC_STORAGE_NAMESPACE, TrafficBucket()[Key(requestId) := Record(r)]);
      var _ := storage.Save(TRAFFIC_STORAGE_NAMESPACE, RecordKey(requestId), Record(r));
    }

    method DeleteRecord(requestId: string)
      requires Typed()
      modifies storage
      ensures Typed() && View() == Log(old(View()).order, old(View()).records - {Key(requestId)})
    {
      FixedSegments();
      KeySegment(requestId);
      DropRecord(TrafficBucket(), Key(requestId));
      BucketOf(storage.namespaces, TRAFFIC_STORAGE_NAMESPACE, TrafficBucket() - {Key(requestId)});
      var _ := storage.Delete(TRAFFIC_STORAGE_NAMESPACE, RecordKey(requestId));
    }

    method FindById(requestId: string) returns (found: Option<TrafficRecord>)
      requires Typed()
      ensures found == if Key(requestId) in View().records then Some(View().records[Key(requestId)]) else None
    {
      FixedSegments();
      KeySegment(requestId);
      var stored := storage.Get(TRAFFIC_STORAGE_NAMESPACE, RecordKey(requestId));
      found := if stored.value.None? then None else Some(stored.value.value.record);
    }

    method EvictOverflow(order: seq<string>) returns (kept: seq<string>)
      requires Typed()
      modifies storage
      ensures var excess := Excess(|order|, maxRecords);
              && Typed() && kept == order[excess..]
              && View() == Log(old(View()).order, old(View()).records - Keys(order[..excess]))
    {
      kept := order;
      ghost var gone := 0;
      while |kept| > maxRecords && |kept| > 0
        invariant Typed() && gone <= |order| && kept == order[gone..]
        invariant gone <= Excess(|order|, maxRecords)
        invariant View() == Log(old(View()).order, old(View()).records - Keys(order[..gone]))
      {
        var oldest := kept[0];
        kept := kept[1..];
        DeleteRecord(oldest);
        KeysSnoc(order, gone);
        gone := gone + 1;
      }
    }

    method SaveRecord(record: TrafficRecord)
      requires Typed()
      modifies storage
      ensures Typed() && View() == SaveLog(old(View()), record, maxRecords, maxBodyBytes)
    {
      var normalized := Normalize(record, maxBodyBytes);
      var existing := FindById(normalized.requestId);
      WriteRecord(normalized.requestId, normalized);
      if existing.Some? {
        return;
      }
      var order := ReadOrder();
      order := order + [normalized.requestId];
      var kept := EvictOverflow(order);
      WriteOrder(kept);
    }

    method UpdateRecord(requestId: string, patch: TrafficRecordPatch) returns (updated: Option<TrafficRecord>)
      requires Typed()
      modifies storage
      ensures Typed() && View() == UpdateLog(old(View()), requestId, patch, maxBodyBytes)
      ensures updated.Some? <==> Key(requestId) in old(View()).records
      ensures updated.Some? ==> updated.value == View().records[Key(requestId)]
    {
      var existing := FindById(requestId);
      if existing.None? {
        return None;
      }
      var record := existing.value;
      updated := Some(record.(
        status := if patch.status.None? then record.status else patch.status,
        responseHeaders := if patch.responseHeaders.None? then record.responseHeaders else patch.responseHeaders.value,
        responseBody :=
          if patch.responseBody.None? then record.responseBody else CapTrafficBody(patch.responseBody.value, maxBodyBytes),
        latencyMs := if patch.latencyMs.None? then record.latencyMs else patch.latencyMs,
        error := if patch.error.None? then record.error else patch.error));
      WriteRecord(requestId, updated.value);
    }

    method List(options: ListOptions) returns (collected: seq<TrafficRecord>)
      requires Typed() && Indexed(View())
      ensures collected == Listed(Entries(View()), options)
    {
      var order := ReadOrder();
      ghost var l := View();
      ghost var entries := Entries(l);
      collected := [];
      var index := |order|;
      assert entries[..index] == entries;
      ghost var all := Newest(entries, options);
      ghost var rest := all;
      while index > 0
        invariant 0 <= index <= |order|
        invariant Typed() && View() == l
        invariant rest == Newest(entries[..index], options) && all == collected + rest
        invariant options.limit.Some? ==> |collected| < LimitInForce(options.limit.value)
      {
        index := index - 1;
        NewestStep(entries, index, options);
        rest := Newest(entries[..index], options);
        var record := FindById(order[index]);
        assert record == Some(entries[index].record);
        if Matches(record.value, options) {
          var shown := if options.includeBodies then record.value else StripBodies(record.value);
          Regroup(all, collected, shown, rest);
          collected := collected + [shown];
          if options.limit.Some? && |collected| >= options.limit.value {
            return;
          }
        }
      }
      assert collected + [] == collected;
    }
  }

  lemma TrimEndShorter(s: string)
    ensures |Text.TrimEnd(s)| <= |s|
    ensures s != "" && Text.IsSpace(s[|s| - 1]) ==> |Text.TrimEnd(s)| < |s|
  {
  }

  /** The storage trims keys, so an id names its own record exactly when it does not end in white space. */
  lemma KeyFaithful(requestId: string)
    ensures Key(requestId) == RecordKey(requestId) <==> requestId == "" || !Text.IsSpace(requestId[|requestId| - 1])
  {
    var k := RecordKey(requestId);
    assert k[0] == 'r' && Text.TrimStart(k) == k;
    if requestId != "" {
      assert k[|k| - 1] == requestId[|requestId| - 1];
      TrimEndShorter(k);
    }
  }
}
