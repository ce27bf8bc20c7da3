/** Aggregate statistics over recorded exchanges. */
module Statistics {
  import opened Bytes
  import opened Messages
  import opened Ranking
  import opened TrafficStore

  // What is counted

  predicate IsErrorRecord(r: TrafficRecord) {
    r.error.Some? || (r.status.Some? && r.status.value >= 400)
  }

  function ByMethod(r: TrafficRecord): Option<Method> {
    Some(r.httpMethod)
  }

  function ByStatus(r: TrafficRecord): Option<int> {
    r.status
  }

  datatype Endpoint = Endpoint(httpMethod: Method, path: string)

  function ByEndpoint(r: TrafficRecord): Option<Endpoint> {
    Some(Endpoint(r.httpMethod, r.path))
  }

  function ByTunnel(r: TrafficRecord): Option<string> {
    Some(r.tunnelId)
  }

  function Errors(rs: seq<TrafficRecord>): nat {
    if rs == [] then 0 else Errors(rs[..|rs| - 1]) + if IsErrorRecord(rs[|rs| - 1]) then 1 else 0
  }

  function InWindow(rs: seq<TrafficRecord>, from: int, to: int): nat {
    if rs == [] then 0
    else InWindow(rs[..|rs| - 1], from, to) + if from <= rs[|rs| - 1].timestamp <= to then 1 else 0
  }

  function Latencies(rs: seq<TrafficRecord>): seq<int> {
    if rs == [] then []
    else Latencies(rs[..|rs| - 1]) + if rs[|rs| - 1].latencyMs.Some? then [rs[|rs| - 1].latencyMs.value] else []
  }

  function Sum(s: seq<int>): int {
    if s == [] then 0 else Sum(s[..|s| - 1]) + s[|s| - 1]
  }

  // Ranking; `collate(a, b)` stands for a locale comparison that puts `a` no later than `b`

  type Collation = (string, string) -> bool

  function MethodName(m: Method): string {
    match m
    case GET => "GET"
    case POST => "POST"
    case PUT => "PUT"
    case PATCH => "PATCH"
    case DELETE => "DELETE"
  }

  predicate MethodBefore(a: Row<Method>, b: Row<Method>, collate: Collation) {
    a.count > b.count || (a.count == b.count && collate(MethodName(a.key), MethodName(b.key)))
  }

  predicate StatusBefore(a: Row<int>, b: Row<int>) {
    a.count > b.count || (a.count == b.count && a.key <= b.key)
  }

  /** By count, then by method, then by path. */
  predicate EndpointBefore(a: Row<Endpoint>, b: Row<Endpoint>, collate: Collation) {
    var am, bm := MethodName(a.key.httpMethod), MethodName(b.key.httpMethod);
    || a.count > b.count
    || (a.count == b.count && collate(am, bm) && (collate(bm, am) ==> collate(a.key.path, b.key.path)))
  }

  predicate TunnelBefore(a: TunnelStatistics, b: TunnelStatistics, collate: Collation) {
    || a.slice.totalRequests > b.slice.totalRequests
    || (a.slice.totalRequests == b.slice.totalRequests && collate(a.tunnelId, b.tunnelId))
  }

  datatype AggregateSlice = AggregateSlice(
    totalRequests: nat,
    requestsPerMinute: real,
    averageLatencyMs: Option<real>,
    p95LatencyMs: Option<int>,
    errorRate: real,
    methodCounts: seq<Row<Method>>,
    statusCodeCounts: seq<Row<int>>,
    topEndpoints: seq<Row<Endpoint>>)

  datatype TunnelStatistics = TunnelStatistics(tunnelId: string, slice: AggregateSlice)

  datatype TrafficStatistics = TrafficStatistics(overall: AggregateSlice, tunnels: seq<TunnelStatistics>)

  // What the figures mean

  function Rate(part: nat, whole: nat): real {
    if whole == 0 then 0.0 else part as real / whole as real
  }

  ghost predicate Mean(result: Option<real>, s: seq<int>) {
    if s == [] then result.None? else result.Some? && result.value * |s| as real == Sum(s) as real
  }

  ghost predicate Outranked(rows: seq<Row<Endpoint>>, e: Endpoint, count: nat, limit: nat, collate: Collation) {
    |rows| == limit && forall i :: 0 <= i < |rows| ==> EndpointBefore(rows[i], Row(e, count), collate)
  }

  /** The listed endpoints are exactly counted, in order, within the limit, and no omitted one outranks any of them. */
  ghost predicate Top(rows: seq<Row<Endpoint>>, rs: seq<TrafficRecord>, limit: nat, collate: Collation) {
    && |rows| <= limit && Distinct(rows) && Exact(rows, rs, ByEndpoint)
    && (forall i, j :: 0 <= i < j < |rows| ==> EndpointBefore(rows[i], rows[j], collate))
    && forall e :: CountOf(rs, ByEndpoint, e) > 0 ==> HasRow(rows, e) || Outranked(rows, e, CountOf(rs, ByEndpoint, e), limit, collate)
  }

  ghost predicate MethodsRanked(rows: seq<Row<Method>>, collate: Collation) {
    forall i, j :: 0 <= i < j < |rows| ==> MethodBefore(rows[i], rows[j], collate)
  }

  ghost predicate StatusesRanked(rows: seq<Row<int>>) {
    forall i, j :: 0 <= i < j < |rows| ==> StatusBefore(rows[i], rows[j])
  }

  ghost predicate Figures(a: AggregateSlice, rs: seq<TrafficRecord>, nowMs: int, windowMs: int)
    requires windowMs > 0
  {
    && a.totalRequests == |rs|
    && a.requestsPerMinute * windowMs as real == InWindow(rs, nowMs - windowMs, nowMs) as real * 60000.0
    && Mean(a.averageLatencyMs, Latencies(rs))
    && NearestRank(a.p95LatencyMs, Latencies(rs), 95)
    && a.errorRate == Rate(Errors(rs), |rs|)
  }

  ghost predicate Breakdown(a: AggregateSlice, rs: seq<TrafficRecord>, topLimit: nat, collate: Collation) {
    && Tally(a.methodCounts, rs, ByMethod)
    && MethodsRanked(a.methodCounts, collate)
    && Tally(a.statusCodeCounts, rs, ByStatus)
    && StatusesRanked(a.statusCodeCounts)
    && Top(a.topEndpoints, rs, topLimit, collate)
  }

  ghost predicate Describes(a: AggregateSlice, rs: seq<TrafficRecord>, nowMs: int, windowMs: int, topLimit: nat, collate: Collation)
    requires windowMs > 0
  {
    Figures(a, rs, nowMs, windowMs) && Breakdown(a, rs, topLimit, collate)
  }

  // Endpoints are kept under a text made of method and path

  function EndpointKey(m: Method, path: string): string {
    MethodName(m) + " " + path
  }

  lemma MethodNamesSpaceless(m: Method, n: Method)
    ensures ' ' !in MethodName(m)
    ensures MethodName(m) == MethodName(n) ==> m == n
  {
  }

  /** The text tells every two endpoints apart. */
  lemma EndpointKeyInjective(m: Method, p: string, n: Method, q: string)
    ensures EndpointKey(m, p) == EndpointKey(n, q) <==> m == n && p == q
  {
    if EndpointKey(m, p) == EndpointKey(n, q) {
      var a, b := MethodName(m), MethodName(n);
      MethodNamesSpaceless(m, n);
      MethodNamesSpaceless(n, m);
      assert (a + " " + p)[|a|] == ' ' && (b + " " + q)[|b|] == ' ';
      assert forall i :: 0 <= i < |a| ==> (a + " " + p)[i] == a[i];
      assert forall i :: 0 <= i < |b| ==> (b + " " + q)[i] == b[i];
      assert (a + " " + p)[..|a|] == a && (b + " " + q)[..|b|] == b;
      assert (a + " " + p)[|a| + 1..] == p && (b + " " + q)[|b| + 1..] == q;
    }
  }

  /** Where the map keyed by text keeps an endpoint. */
  function Lookup(rows: seq<Row<Endpoint>>, key: string): (i: nat)
    ensures i <= |rows|
  {
    if rows == [] || EndpointKey(rows[0].key.httpMethod, rows[0].key.path) == key then 0 else 1 + Lookup(rows[1..], key)
  }

  lemma {:induction false} LookupIsPosition(rows: seq<Row<Endpoint>>, m: Method, path: string)
    ensures Lookup(rows, EndpointKey(m, path)) == RowOf(rows, Endpoint(m, path))
  {
    if rows != [] {
      EndpointKeyInjective(rows[0].key.httpMethod, rows[0].key.path, m, path);
      LookupIsPosition(rows[1..], m, path);
    }
  }

  /** One more request for an endpoint of the map keyed by text, which keeps the endpoint it was first given. */
  function Bump(rows: seq<Row<Endpoint>>, m: Method, path: string): seq<Row<Endpoint>> {
    var existing := Lookup(rows, EndpointKey(m, path));
    if existing < |rows| then rows[existing := Row(rows[existing].key, rows[existing].count + 1)]
    else rows + [Row(Endpoint(m, path), 1)]
  }

  lemma BumpIsIncrement(rows: seq<Row<Endpoint>>, m: Method, path: string)
    ensures Bump(rows, m, path) == Increment(rows, Endpoint(m, path))
  {
    LookupIsPosition(rows, m, path);
  }

  // Aggregation

  datatype Counters = Counters(
    requestsInWindow: nat,
    errorCount: nat,
    latencies: seq<int>,
    methods: seq<Row<Method>>,
    statuses: seq<Row<int>>,
    endpoints: seq<Row<Endpoint>>)

  ghost predicate Counted(c: Counters, rs: seq<TrafficRecord>, from: int, to: int) {
    && c.requestsInWindow == InWindow(rs, from, to) && c.errorCount == Errors(rs) && c.latencies == Latencies(rs)
    && Tally(c.methods, rs, ByMethod) && Tally(c.statuses, rs, ByStatus) && Tally(c.endpoints, rs, ByEndpoint)
  }

  /** The counters after one more record. */
  function Step(c: Counters, r: TrafficRecord, from: int, to: int): Counters {
    Counters(
      c.requestsInWindow + (if from <= r.timestamp <= to then 1 else 0),
      c.errorCount + (if IsErrorRecord(r) then 1 else 0),
      c.latencies + (if r.latencyMs.Some? then [r.latencyMs.value] else []),
      Tallied(c.methods, r, ByMethod), Tallied(c.statuses, r, ByStatus), Tallied(c.endpoints, r, ByEndpoint))
  }

  function Stepped(rs: seq<TrafficRecord>, from: int, to: int): Counters {
    if rs == [] then Counters(0, 0, [], [], [], [])
    else Step(Stepped(rs[..|rs| - 1], from, to), rs[|rs| - 1], from, to)
  }

  lemma SteppedSnoc(rs: seq<TrafficRecord>, i: nat, from: int, to: int)
    requires i < |rs|
    ensures Stepped(rs[..i + 1], from, to) == Step(Stepped(rs[..i], from, to), rs[i], from, to)
  {
    assert rs[..i + 1][..i] == rs[..i];
  }

  lemma {:induction false} SteppedCounted(rs: seq<TrafficRecord>, from: int, to: int)
    ensures Counted(Stepped(rs, from, to), rs, from, to)
  {
    if rs != [] {
      var earlier, r := rs[..|rs| - 1], rs[|rs| - 1];
      var c := Stepped(earlier, from, to);
      SteppedCounted(earlier, from, to);
      TallyStep(c.methods, earlier, r, ByMethod);
      TallyStep(c.statuses, earlier, r, ByStatus);
      TallyStep(c.endpoints, earlier, r, ByEndpoint);
      assert earlier + [r] == rs;
    }
  }

  method Count(records: seq<TrafficRecord>, windowStart: int, nowMs: int) returns (c: Counters)
    ensures Counted(c, records, windowStart, nowMs)
  {
    var requestsInWindow: nat, errorCount: nat := 0, 0;
    var latencies: seq<int> := [];
    var methods: seq<Row<Method>> := [];
    var statuses: seq<Row<int>> := [];
    var endpoints: seq<Row<Endpoint>> := [];
    for i := 0 to |records|
      invariant Counters(requestsInWindow, errorCount, latencies, methods, statuses, endpoints)
                == Stepped(records[..i], windowStart, nowMs)
    {
      var record := records[i];
      SteppedSnoc(records, i, windowStart, nowMs);
      ghost var next := Stepped(records[..i + 1], windowStart, nowMs);
      if record.timestamp >= windowStart && record.timestamp <= nowMs {
        requestsInWindow := requestsInWindow + 1;
      }
      if IsErrorRecord(record) {
        errorCount := errorCount + 1;
      }
      if record.latencyMs.Some? {
        latencies := latencies + [record.latencyMs.value];
      }
      assert requestsInWindow == next.requestsInWindow && errorCount == next.errorCount && latencies == next.latencies;
      methods := Increment(methods, record.httpMethod);
      if record.status.Some? {
        statuses := Increment(statuses, record.status.value);
      }
      assert methods == next.methods && statuses == next.statuses;
      BumpIsIncrement(endpoints, record.httpMethod, record.path);
      endpoints := Bump(endpoints, record.httpMethod, record.path);
      assert endpoints == next.endpoints;
    }
    assert records[..|records|] == records;
    SteppedCounted(records, windowStart, nowMs);
    c := Counters(requestsInWindow, errorCount, latencies, methods, statuses, endpoints);
  }

  method Average(values: seq<int>) returns (mean: Option<real>)
    ensures Mean(mean, values)
  {
    if |values| == 0 {
      return None;
    }
    var sum := 0;
    for i := 0 to |values|
      invariant sum == Sum(values[..i])
    {
      assert values[..i + 1][..i] == values[..i];
      sum := sum + values[i];
    }
    assert values[..|values|] == values;
    mean := Some(sum as real / |values| as real);
  }

  method SortMethodCounts(methods: seq<Row<Method>>, ghost rs: seq<TrafficRecord>, collate: Collation)
    returns (rows: seq<Row<Method>>)
    requires TotalOrder(collate) && Tally(methods, rs, ByMethod)
    ensures Tally(rows, rs, ByMethod)
    ensures MethodsRanked(rows, collate)
  {
    var le := (a, b) => MethodBefore(a, b, collate);
    rows := SortBy(methods, le);
    SortTally(methods, rs, ByMethod, le);
    SortSorted(methods, le);
    forall i, j | 0 <= i < j < |rows|
      ensures MethodBefore(rows[i], rows[j], collate)
    {
      assert le(rows[i], rows[j]);
    }
  }

  method SortStatusCounts(statuses: seq<Row<int>>, ghost rs: seq<TrafficRecord>) returns (rows: seq<Row<int>>)
    requires Tally(statuses, rs, ByStatus)
    ensures Tally(rows, rs, ByStatus)
    ensures StatusesRanked(rows)
  {
    rows := SortBy(statuses, StatusBefore);
    SortTally(statuses, rs, ByStatus, StatusBefore);
    assert TotalOrder(StatusBefore);
    SortSorted(statuses, StatusBefore);
    assert Sorted(rows, StatusBefore);
  }

  lemma FirstAreTop(sorted: seq<Row<Endpoint>>, rs: seq<TrafficRecord>, limit: nat, collate: Collation)
    requires Tally(sorted, rs, ByEndpoint)
    requires forall i, j :: 0 <= i < j < |sorted| ==> EndpointBefore(sorted[i], sorted[j], collate)
    ensures Top(if |sorted| <= limit then sorted else sorted[..limit], rs, limit, collate)
  {
    var rows := if |sorted| <= limit then sorted else sorted[..limit];
    assert forall row :: row in rows ==> row in sorted;
    forall e | CountOf(rs, ByEndpoint, e) > 0 && !HasRow(rows, e)
      ensures Outranked(rows, e, CountOf(rs, ByEndpoint, e), limit, collate)
    {
      var k :| 0 <= k < |sorted| && sorted[k].key == e;
      assert forall i :: 0 <= i < |rows| ==> rows[i] == sorted[i];
      assert sorted[k] in sorted && sorted[k] == Row(e, CountOf(rs, ByEndpoint, e));
    }
  }

  method SortEndpoints(endpoints: seq<Row<Endpoint>>, limit: nat, ghost rs: seq<TrafficRecord>, collate: Collation)
    returns (rows: seq<Row<Endpoint>>)
    requires TotalOrder(collate) && Tally(endpoints, rs, ByEndpoint)
    ensures Top(rows, rs, limit, collate)
  {
    var le := (a, b) => EndpointBefore(a, b, collate);
    var sorted := SortBy(endpoints, le);
    SortTally(endpoints, rs, ByEndpoint, le);
    SortSorted(endpoints, le);
    rows := if |sorted| <= limit then sorted else sorted[..limit];
    forall i, j | 0 <= i < j < |sorted|
      ensures EndpointBefore(sorted[i], sorted[j], collate)
    {
      assert le(sorted[i], sorted[j]);
    }
    FirstAreTop(sorted, rs, limit, collate);
  }

  function ScaleToPerMinute(count: nat, windowMs: int): (rate: real)
    requires windowMs > 0
    ensures rate * windowMs as real == count as real * 60000.0
  {
    (count * 60000) as real / windowMs as real
  }

  lemma Assembled(a: AggregateSlice, c: Counters, rs: seq<TrafficRecord>, nowMs: int, windowMs: int, topLimit: nat,
                  collate: Collation)
    requires windowMs > 0 && Counted(c, rs, nowMs - windowMs, nowMs)
    requires a.totalRequests == |rs| && a.requestsPerMinute == ScaleToPerMinute(c.requestsInWindow, windowMs)
    requires Mean(a.averageLatencyMs, c.latencies) && NearestRank(a.p95LatencyMs, c.latencies, 95)
    requires a.errorRate == Rate(c.errorCount, |rs|)
    requires Breakdown(a, rs, topLimit, collate)
    ensures Describes(a, rs, nowMs, windowMs, topLimit, collate)
  {
  }

  method AggregateRecords(records: seq<TrafficRecord>, nowMs: int, windowMs: int, topLimit: nat, collate: Collation)
    returns (a: AggregateSlice)
    requires windowMs > 0 && TotalOrder(collate)
    ensures Describes(a, records, nowMs, windowMs, topLimit, collate)
  {
    var c := Count(records, nowMs - windowMs, nowMs);
    var mean := Average(c.latencies);
    var p95 := PercentileNearestRank(c.latencies, 95);
    var methodCounts := SortMethodCounts(c.methods, records, collate);
    var statusCodeCounts := SortStatusCounts(c.statuses, records);
    var topEndpoints := SortEndpoints(c.endpoints, topLimit, records, collate);
    a := AggregateSlice(
      |records|, ScaleToPerMinute(c.requestsInWindow, windowMs), mean, p95, Rate(c.errorCount, |records|),
      methodCounts, statusCodeCounts, topEndpoints);
    Assembled(a, c, records, nowMs, windowMs, topLimit, collate);
  }

  // By tunnel

  datatype Bucket = Bucket(tunnelId: string, records: seq<TrafficRecord>)

  function BucketOf(buckets: seq<Bucket>, tunnelId: string): (i: nat)
    ensures i <= |buckets|
    ensures i < |buckets| ==> buckets[i].tunnelId == tunnelId
    ensures forall j :: 0 <= j < i ==> buckets[j].tunnelId != tunnelId
  {
    if buckets == [] || buckets[0].tunnelId == tunnelId then 0 else 1 + BucketOf(buckets[1..], tunnelId)
  }

  ghost predicate Separate(buckets: seq<Bucket>) {
    forall i, j :: 0 <= i < j < |buckets| ==> buckets[i].tunnelId != buckets[j].tunnelId
  }

  ghost predicate Contents(buckets: seq<Bucket>, rs: seq<TrafficRecord>) {
    forall i :: 0 <= i < |buckets| ==> buckets[i].records == Where(rs, ByTunnel, buckets[i].tunnelId) && buckets[i].records != []
  }

  ghost predicate Covers(buckets: seq<Bucket>, rs: seq<TrafficRecord>) {
    forall r :: r in rs ==> BucketOf(buckets, r.tunnelId) < |buckets|
  }

  /** Every bucket holds its tunnel's records in order, and every tunnel that occurs has one. */
  ghost predicate Grouped(buckets: seq<Bucket>, rs: seq<TrafficRecord>) {
    Separate(buckets) && Contents(buckets, rs) && Covers(buckets, rs)
  }

  function AddToBucket(buckets: seq<Bucket>, r: TrafficRecord): seq<Bucket> {
    var i := BucketOf(buckets, r.tunnelId);
    if i < |buckets| then buckets[i := Bucket(r.tunnelId, buckets[i].records + [r])]
    else buckets + [Bucket(r.tunnelId, [r])]
  }

  lemma WhereSnoc(rs: seq<TrafficRecord>, r: TrafficRecord, tunnelId: string)
    ensures Where(rs + [r], ByTunnel, tunnelId) == Where(rs, ByTunnel, tunnelId) + if r.tunnelId == tunnelId then [r] else []
  {
    assert (rs + [r])[..|rs|] == rs;
  }

  lemma {:induction false} WhereNone(rs: seq<TrafficRecord>, tunnelId: string)
    requires forall r :: r in rs ==> r.tunnelId != tunnelId
    ensures Where(rs, ByTunnel, tunnelId) == []
  {
    if rs != [] {
      WhereNone(rs[..|rs| - 1], tunnelId);
    }
  }

  lemma AddedIds(buckets: seq<Bucket>, r: TrafficRecord, tunnelId: string)
    ensures BucketOf(AddToBucket(buckets, r), tunnelId) < |AddToBucket(buckets, r)|
            <==> tunnelId == r.tunnelId || BucketOf(buckets, tunnelId) < |buckets|
  {
    var b, i := AddToBucket(buckets, r), BucketOf(buckets, r.tunnelId);
    assert b[i].tunnelId == r.tunnelId;
    assert forall j :: 0 <= j < |buckets| ==> b[j].tunnelId == buckets[j].tunnelId;
  }

  lemma AddedContents(buckets: seq<Bucket>, rs: seq<TrafficRecord>, r: TrafficRecord)
    requires Separate(buckets) && Contents(buckets, rs) && Covers(buckets, rs)
    ensures Contents(AddToBucket(buckets, r), rs + [r])
  {
    var added, i := AddToBucket(buckets, r), BucketOf(buckets, r.tunnelId);
    if i == |buckets| {
      WhereNone(rs, r.tunnelId);
    }
    forall j | 0 <= j < |added|
      ensures added[j].records == Where(rs + [r], ByTunnel, added[j].tunnelId) && added[j].records != []
    {
      WhereSnoc(rs, r, added[j].tunnelId);
      assert j != i ==> added[j] == buckets[j] && added[j].records + [] == added[j].records;
    }
  }

  lemma AddedCovers(buckets: seq<Bucket>, rs: seq<TrafficRecord>, r: TrafficRecord)
    requires Covers(buckets, rs)
    ensures Covers(AddToBucket(buckets, r), rs + [r])
  {
    forall x | x in rs + [r]
      ensures BucketOf(AddToBucket(buckets, r), x.tunnelId) < |AddToBucket(buckets, r)|
    {
      AddedIds(buckets, r, x.tunnelId);
    }
  }

  lemma GroupedStep(buckets: seq<Bucket>, rs: seq<TrafficRecord>, r: TrafficRecord)
    requires Grouped(buckets, rs)
    ensures Grouped(AddToBucket(buckets, r), rs + [r])
  {
    AddedContents(buckets, rs, r);
    AddedCovers(buckets, rs, r);
  }

  function Buckets(rs: seq<TrafficRecord>): seq<Bucket> {
    if rs == [] then [] else AddToBucket(Buckets(rs[..|rs| - 1]), rs[|rs| - 1])
  }

  lemma {:induction false} BucketsGrouped(rs: seq<TrafficRecord>)
    ensures Grouped(Buckets(rs), rs)
  {
    if rs != [] {
      BucketsGrouped(rs[..|rs| - 1]);
      GroupedStep(Buckets(rs[..|rs| - 1]), rs[..|rs| - 1], rs[|rs| - 1]);
      assert rs[..|rs| - 1] + [rs[|rs| - 1]] == rs;
    }
  }

  method GroupByTunnel(records: seq<TrafficRecord>) returns (buckets: seq<Bucket>)
    ensures Grouped(buckets, records)
  {
    buckets := [];
    for i := 0 to |records|
      invariant buckets == Buckets(records[..i])
    {
      var record := records[i];
      assert records[..i + 1][..i] == records[..i];
      var bucket := BucketOf(buckets, record.tunnelId);
      if bucket == |buckets| {
        buckets := buckets + [Bucket(record.tunnelId, [record])];
      } else {
        buckets := buckets[bucket := Bucket(record.tunnelId, buckets[bucket].records + [record])];
      }
    }
    assert records[..|records|] == records;
    BucketsGrouped(records);
  }

  ghost predicate DescribesTunnel(t: TunnelStatistics, rs: seq<TrafficRecord>, nowMs: int, windowMs: int, topLimit: nat,
                                  collate: Collation)
    requires windowMs > 0
  {
    var own := Where(rs, ByTunnel, t.tunnelId);
    own != [] && Describes(t.slice, own, nowMs, windowMs, topLimit, collate)
  }

  function TunnelIds(tunnels: seq<TunnelStatistics>): (ids: seq<string>)
    ensures |ids| == |tunnels| && forall i :: 0 <= i < |ids| ==> ids[i] == tunnels[i].tunnelId
  {
    seq(|tunnels|, i requires 0 <= i < |tunnels| => tunnels[i].tunnelId)
  }

  /** Each tunnel that occurs is described once, by its own records. */
  ghost predicate PerTunnel(tunnels: seq<TunnelStatistics>, rs: seq<TrafficRecord>, nowMs: int, windowMs: int, topLimit: nat,
                            collate: Collation)
    requires windowMs > 0
  {
    && (forall i, j :: 0 <= i < j < |tunnels| ==> tunnels[i].tunnelId != tunnels[j].tunnelId)
    && (forall t :: t in tunnels ==> DescribesTunnel(t, rs, nowMs, windowMs, topLimit, collate))
    && (forall r :: r in rs ==> r.tunnelId in TunnelIds(tunnels))
  }

  lemma SortPerTunnel(tunnels: seq<TunnelStatistics>, le: (TunnelStatistics, TunnelStatistics) -> bool, rs: seq<TrafficRecord>,
                      nowMs: int, windowMs: int, topLimit: nat, collate: Collation)
    requires windowMs > 0 && PerTunnel(tunnels, rs, nowMs, windowMs, topLimit, collate)
    ensures PerTunnel(SortBy(tunnels, le), rs, nowMs, windowMs, topLimit, collate)
  {
    var name := (t: TunnelStatistics) => t.tunnelId;
    var sorted := SortBy(tunnels, le);
    SortDistinct(tunnels, le, name);
    assert forall i, j :: 0 <= i < j < |sorted| ==> name(sorted[i]) != name(sorted[j]);
    SortMembers(tunnels, le);
    forall r | r in rs
      ensures r.tunnelId in TunnelIds(sorted)
    {
      var i :| 0 <= i < |TunnelIds(tunnels)| && TunnelIds(tunnels)[i] == r.tunnelId;
      assert tunnels[i] in sorted;
      var j :| 0 <= j < |sorted| && sorted[j] == tunnels[i];
      assert TunnelIds(sorted)[j] == r.tunnelId;
    }
  }

  ghost predicate TunnelsRanked(tunnels: seq<TunnelStatistics>, collate: Collation) {
    forall i, j :: 0 <= i < j < |tunnels| ==> TunnelBefore(tunnels[i], tunnels[j], collate)
  }

  lemma SortRanks(tunnels: seq<TunnelStatistics>, le: (TunnelStatistics, TunnelStatistics) -> bool, collate: Collation)
    requires TotalOrder(collate) && forall a, b :: le(a, b) <==> TunnelBefore(a, b, collate)
    ensures TunnelsRanked(SortBy(tunnels, le), collate)
  {
    assert TotalOrder(le);
    SortSorted(tunnels, le);
    var sorted := SortBy(tunnels, le);
    forall i, j | 0 <= i < j < |sorted|
      ensures TunnelBefore(sorted[i], sorted[j], collate)
    {
      assert le(sorted[i], sorted[j]);
    }
  }

  method BuildTunnelStatistics(records: seq<TrafficRecord>, nowMs: int, windowMs: int, topLimit: nat, collate: Collation)
    returns (sorted: seq<TunnelStatistics>)
    requires windowMs > 0 && TotalOrder(collate)
    ensures PerTunnel(sorted, records, nowMs, windowMs, topLimit, collate)
    ensures TunnelsRanked(sorted, collate)
  {
    var byTunnel := GroupByTunnel(records);
    var tunnels: seq<TunnelStatistics> := [];
    for i := 0 to |byTunnel|
      invariant |tunnels| == i
      invariant forall j :: 0 <= j < i ==> tunnels[j].tunnelId == byTunnel[j].tunnelId
      invariant forall j :: 0 <= j < i ==> DescribesTunnel(tunnels[j], records, nowMs, windowMs, topLimit, collate)
    {
      var aggregate := AggregateRecords(byTunnel[i].records, nowMs, windowMs, topLimit, collate);
      tunnels := tunnels + [TunnelStatistics(byTunnel[i].tunnelId, aggregate)];
    }
    forall r | r in records
      ensures r.tunnelId in TunnelIds(tunnels)
    {
      assert TunnelIds(tunnels)[BucketOf(byTunnel, r.tunnelId)] == r.tunnelId;
    }
    var le := (a, b) => TunnelBefore(a, b, collate);
    sorted := SortBy(tunnels, le);
    SortRanks(tunnels, le, collate);
    SortPerTunnel(tunnels, le, records, nowMs, windowMs, topLimit, collate);
  }

  // The parts add up to the whole

  function SumTotals(tunnels: seq<TunnelStatistics>): nat {
    if tunnels == [] then 0 else tunnels[0].slice.totalRequests + SumTotals(tunnels[1..])
  }

  /** The number of errors an error rate stands for. */
  function ErrorsOf(rate: real, total: nat): real {
    rate * total as real
  }

  function SumErrors(tunnels: seq<TunnelStatistics>): real {
    if tunnels == [] then 0.0
    else ErrorsOf(tunnels[0].slice.errorRate, tunnels[0].slice.totalRequests) + SumErrors(tunnels[1..])
  }

  lemma ErrorsSnoc(rs: seq<TrafficRecord>, r: TrafficRecord)
    ensures Errors(rs + [r]) == Errors(rs) + if IsErrorRecord(r) then 1 else 0
  {
    assert (rs + [r])[..|rs|] == rs;
  }

  lemma {:induction false} SplitRecords(rs: seq<TrafficRecord>, k: string)
    ensures |rs| == |Without(rs, ByTunnel, k)| + |Where(rs, ByTunnel, k)|
    ensures Errors(rs) == Errors(Without(rs, ByTunnel, k)) + Errors(Where(rs, ByTunnel, k))
  {
    if rs != [] {
      var earlier, last := rs[..|rs| - 1], rs[|rs| - 1];
      SplitRecords(earlier, k);
      ErrorsSnoc(Without(earlier, ByTunnel, k), last);
      ErrorsSnoc(Where(earlier, ByTunnel, k), last);
      assert Without(earlier, ByTunnel, k) + [] == Without(earlier, ByTunnel, k);
      assert Where(earlier, ByTunnel, k) + [] == Where(earlier, ByTunnel, k);
    }
  }

  lemma {:induction false} WithoutMembers(rs: seq<TrafficRecord>, k: string)
    ensures forall r :: r in Without(rs, ByTunnel, k) ==> r in rs && r.tunnelId != k
  {
    if rs != [] {
      WithoutMembers(rs[..|rs| - 1], k);
    }
  }

  lemma {:induction false} WhereOfWithout(rs: seq<TrafficRecord>, k: string, other: string)
    requires other != k
    ensures Where(Without(rs, ByTunnel, k), ByTunnel, other) == Where(rs, ByTunnel, other)
  {
    if rs != [] {
      var earlier, last := rs[..|rs| - 1], rs[|rs| - 1];
      WhereOfWithout(earlier, k, other);
      WhereSnoc(Without(earlier, ByTunnel, k), last, other);
      assert Without(earlier, ByTunnel, k) + [] == Without(earlier, ByTunnel, k);
      assert Where(earlier, ByTunnel, other) + [] == Where(earlier, ByTunnel, other);
    }
  }

  lemma RateStandsFor(part: nat, whole: nat)
    requires part <= whole
    ensures ErrorsOf(Rate(part, whole), whole) == part as real
  {
  }

  lemma {:induction false} ErrorsAtMost(rs: seq<TrafficRecord>)
    ensures Errors(rs) <= |rs|
  {
    if rs != [] {
      ErrorsAtMost(rs[..|rs| - 1]);
    }
  }

  lemma ErrorShare(a: AggregateSlice, rs: seq<TrafficRecord>, nowMs: int, windowMs: int, topLimit: nat, collate: Collation)
    requires windowMs > 0 && Describes(a, rs, nowMs, windowMs, topLimit, collate)
    ensures a.totalRequests == |rs| && ErrorsOf(a.errorRate, a.totalRequests) == Errors(rs) as real
  {
    ErrorsAtMost(rs);
    RateStandsFor(Errors(rs), |rs|);
  }

  lemma FirstTunnel(tunnels: seq<TunnelStatistics>, rs: seq<TrafficRecord>, nowMs: int, windowMs: int, topLimit: nat,
                    collate: Collation)
    requires windowMs > 0 && tunnels != [] && PerTunnel(tunnels, rs, nowMs, windowMs, topLimit, collate)
    ensures var own, first := Where(rs, ByTunnel, tunnels[0].tunnelId), tunnels[0].slice;
            first.totalRequests == |own| && ErrorsOf(first.errorRate, first.totalRequests) == Errors(own) as real
  {
    assert tunnels[0] in tunnels;
    assert DescribesTunnel(tunnels[0], rs, nowMs, windowMs, topLimit, collate);
    ErrorShare(tunnels[0].slice, Where(rs, ByTunnel, tunnels[0].tunnelId), nowMs, windowMs, topLimit, collate);
  }

  lemma RestPerTunnel(tunnels: seq<TunnelStatistics>, rs: seq<TrafficRecord>, nowMs: int, windowMs: int, topLimit: nat,
                      collate: Collation)
    requires windowMs > 0 && tunnels != [] && PerTunnel(tunnels, rs, nowMs, windowMs, topLimit, collate)
    ensures PerTunnel(tunnels[1..], Without(rs, ByTunnel, tunnels[0].tunnelId), nowMs, windowMs, topLimit, collate)
  {
    var k := tunnels[0].tunnelId;
    WithoutMembers(rs, k);
    forall i | 0 <= i < |tunnels[1..]|
      ensures DescribesTunnel(tunnels[1..][i], Without(rs, ByTunnel, k), nowMs, windowMs, topLimit, collate)
    {
      assert tunnels[1..][i] == tunnels[i + 1] && tunnels[i + 1] in tunnels;
      WhereOfWithout(rs, k, tunnels[i + 1].tunnelId);
    }
    forall r | r in Without(rs, ByTunnel, k)
      ensures r.tunnelId in TunnelIds(tunnels[1..])
    {
      var i :| 0 <= i < |TunnelIds(tunnels)| && TunnelIds(tunnels)[i] == r.tunnelId;
      assert TunnelIds(tunnels[1..])[i - 1] == r.tunnelId;
    }
  }

  /** Per-tunnel totals and error counts partition the overall ones. */
  lemma {:induction false} TunnelsPartition(tunnels: seq<TunnelStatistics>, rs: seq<TrafficRecord>, nowMs: int, windowMs: int,
                                            topLimit: nat, collate: Collation)
    requires windowMs > 0 && PerTunnel(tunnels, rs, nowMs, windowMs, topLimit, collate)
    ensures SumTotals(tunnels) == |rs| && SumErrors(tunnels) == Errors(rs) as real
    decreases |tunnels|
  {
    if tunnels == [] {
      assert TunnelIds(tunnels) == [];
      assert |rs| > 0 ==> rs[0] in rs && rs[0].tunnelId in TunnelIds(tunnels);
      assert rs == [];
    } else {
      RestPerTunnel(tunnels, rs, nowMs, windowMs, topLimit, collate);
      FirstTunnel(tunnels, rs, nowMs, windowMs, topLimit, collate);
      SplitRecords(rs, tunnels[0].tunnelId);
      TunnelsPartition(tunnels[1..], Without(rs, ByTunnel, tunnels[0].tunnelId), nowMs, windowMs, topLimit, collate);
    }
  }

  // The whole computation

  function Since(rs: seq<TrafficRecord>, sinceMs: Option<int>): seq<TrafficRecord> {
    if sinceMs.None? then rs
    else if rs == [] then []
    else Since(rs[..|rs| - 1], sinceMs) + if rs[|rs| - 1].timestamp >= sinceMs.value then [rs[|rs| - 1]] else []
  }

  method ComputeTrafficStatistics(records: seq<TrafficRecord>, nowMs: int, windowMs: int, topLimit: int, sinceMs: Option<int>,
                                  omitTunnelBreakdown: bool, collate: Collation) returns (r: Result<TrafficStatistics>)
    requires TotalOrder(collate)
    ensures r.Ok? <==> windowMs > 0 && topLimit >= 0
    ensures r.Ok? ==> Describes(r.value.overall, Since(records, sinceMs), nowMs, windowMs, topLimit, collate)
    ensures r.Ok? && omitTunnelBreakdown ==> r.value.tunnels == []
    ensures r.Ok? && !omitTunnelBreakdown ==>
              && PerTunnel(r.value.tunnels, Since(records, sinceMs), nowMs, windowMs, topLimit, collate)
              && SumTotals(r.value.tunnels) == r.value.overall.totalRequests
              && SumErrors(r.value.tunnels) == ErrorsOf(r.value.overall.errorRate, r.value.overall.totalRequests)
  {
    if windowMs <= 0 {
      return Err("requestsPerMinuteWindowMs must be a positive number.");
    }
    if topLimit < 0 {
      return Err("topEndpointsLimit must be a non-negative integer.");
    }
    var filtered := Since(records, sinceMs);
    var aggregate := AggregateRecords(filtered, nowMs, windowMs, topLimit, collate);
    var tunnels: seq<TunnelStatistics> := [];
    if !omitTunnelBreakdown {
      tunnels := BuildTunnelStatistics(filtered, nowMs, windowMs, topLimit, collate);
      TunnelsPartition(tunnels, filtered, nowMs, windowMs, topLimit, collate);
      ErrorShare(aggregate, filtered, nowMs, windowMs, topLimit, collate);
    }
    r := Ok(TrafficStatistics(aggregate, tunnels));
  }

  lemma {:induction false} AllKeyed(rs: seq<TrafficRecord>)
    ensures Keyed(rs, ByMethod) == |rs|
  {
    if rs != [] {
      AllKeyed(rs[..|rs| - 1]);
    }
  }

  /** Method counts add up to the total and status counts to the records that have a status. */
  lemma CountsAddUp(a: AggregateSlice, rs: seq<TrafficRecord>, nowMs: int, windowMs: int, topLimit: nat, collate: Collation)
    requires windowMs > 0 && Describes(a, rs, nowMs, windowMs, topLimit, collate)
    ensures SumCounts(a.methodCounts) == a.totalRequests
    ensures SumCounts(a.statusCodeCounts) == Keyed(rs, ByStatus)
  {
    TallySum(a.methodCounts, rs, ByMethod);
    TallySum(a.statusCodeCounts, rs, ByStatus);
    AllKeyed(rs);
  }
}
