/** Counting by key, sorting and nearest-rank percentiles. */
module Ranking {
  import opened Bytes

  // Sorting, as the host's stable array sort does it for a consistent comparator

  ghost predicate TotalOrder<T(!new)>(le: (T, T) -> bool) {
    && (forall a, b :: le(a, b) || le(b, a))
    && (forall a, b, c :: le(a, b) && le(b, c) ==> le(a, c))
  }

  function Insert<T>(x: T, s: seq<T>, le: (T, T) -> bool): (r: seq<T>)
    ensures |r| == |s| + 1
  {
    if s == [] then [x]
    else if le(x, s[0]) then [x] + s
    else [s[0]] + Insert(x, s[1..], le)
  }

  function SortBy<T>(s: seq<T>, le: (T, T) -> bool): (r: seq<T>)
    ensures |r| == |s|
  {
    if s == [] then [] else Insert(s[0], SortBy(s[1..], le), le)
  }

  ghost predicate Sorted<T>(s: seq<T>, le: (T, T) -> bool) {
    forall i, j :: 0 <= i < j < |s| ==> le(s[i], s[j])
  }

  lemma {:induction false} InsertMembers<T(!new)>(x: T, s: seq<T>, le: (T, T) -> bool)
    ensures forall y :: y in Insert(x, s, le) <==> y == x || y in s
  {
    if s != [] && !le(x, s[0]) {
      InsertMembers(x, s[1..], le);
      assert s == [s[0]] + s[1..];
    }
  }

  lemma {:induction false} SortMembers<T(!new)>(s: seq<T>, le: (T, T) -> bool)
    ensures forall y :: y in SortBy(s, le) <==> y in s
  {
    if s != [] {
      SortMembers(s[1..], le);
      InsertMembers(s[0], SortBy(s[1..], le), le);
      assert s == [s[0]] + s[1..];
    }
  }

  lemma {:induction false} InsertSorted<T(!new)>(x: T, s: seq<T>, le: (T, T) -> bool)
    requires TotalOrder(le) && Sorted(s, le)
    ensures Sorted(Insert(x, s, le), le)
  {
    if s != [] && !le(x, s[0]) {
      InsertSorted(x, s[1..], le);
      InsertMembers(x, s[1..], le);
      var tail := Insert(x, s[1..], le);
      forall j | 0 <= j < |tail|
        ensures le(s[0], tail[j])
      {
        assert tail[j] in tail;
        assert tail[j] == x || tail[j] in s[1..];
      }
    }
  }

  lemma {:induction false} SortSorted<T(!new)>(s: seq<T>, le: (T, T) -> bool)
    requires TotalOrder(le)
    ensures Sorted(SortBy(s, le), le)
  {
    if s != [] {
      SortSorted(s[1..], le);
      InsertSorted(s[0], SortBy(s[1..], le), le);
    }
  }

  // Nearest-rank percentile

  predicate AtMost(a: int, b: int) {
    a <= b
  }

  /** How many samples are at most `v`. */
  function CountAtMost(s: seq<int>, v: int): nat {
    if s == [] then 0 else (if s[0] <= v then 1 else 0) + CountAtMost(s[1..], v)
  }

  lemma {:induction false} InsertCount(x: int, s: seq<int>, le: (int, int) -> bool, v: int)
    ensures CountAtMost(Insert(x, s, le), v) == (if x <= v then 1 else 0) + CountAtMost(s, v)
  {
    if s != [] {
      if le(x, s[0]) {
        assert ([x] + s)[1..] == s;
      } else {
        InsertCount(x, s[1..], le, v);
        assert ([s[0]] + Insert(x, s[1..], le))[1..] == Insert(x, s[1..], le);
      }
    }
  }

  lemma {:induction false} SortCount(s: seq<int>, le: (int, int) -> bool, v: int)
    ensures CountAtMost(SortBy(s, le), v) == CountAtMost(s, v)
  {
    if s != [] {
      SortCount(s[1..], le, v);
      InsertCount(s[0], SortBy(s[1..], le), le, v);
    }
  }

  lemma {:induction false} CountInSorted(s: seq<int>, n: nat, v: int)
    requires n <= |s| && forall i, j :: 0 <= i < j < |s| ==> s[i] <= s[j]
    ensures (forall i :: 0 <= i < n ==> s[i] <= v) ==> CountAtMost(s, v) >= n
    ensures (forall i :: n <= i < |s| ==> s[i] > v) ==> CountAtMost(s, v) <= n
  {
    if s != [] {
      CountInSorted(s[1..], if n == 0 then 0 else n - 1, v);
    }
  }

  /** The least sample with at least `percent` percent of the samples at or below it. */
  ghost predicate NearestRank(result: Option<int>, samples: seq<int>, percent: nat) {
    if samples == [] then result.None?
    else
      && result.Some? && result.value in samples
      && 100 * CountAtMost(samples, result.value) >= percent * |samples|
      && forall w :: w in samples && w < result.value ==> 100 * CountAtMost(samples, w) < percent * |samples|
  }

  lemma Between(percent: nat, n: nat)
    requires 0 < percent <= 100
    ensures n <= percent * n <= 100 * n
  {
  }

  lemma Ceiling(product: nat, rank: int)
    requires rank == (product + 99) / 100 - 1
    ensures 100 * rank < product <= 100 * (rank + 1)
  {
  }

  lemma RankInRange(percent: nat, n: nat, rank: int)
    requires 0 < percent <= 100 && n > 0 && rank == (percent * n + 99) / 100 - 1
    ensures 0 <= rank < n && 100 * rank < percent * n <= 100 * (rank + 1)
  {
    Between(percent, n);
    Ceiling(percent * n, rank);
  }

  lemma SortAscending(values: seq<int>)
    ensures forall i, j :: 0 <= i < j < |values| ==> SortBy(values, AtMost)[i] <= SortBy(values, AtMost)[j]
  {
    SortSorted(values, AtMost);
    var sorted := SortBy(values, AtMost);
    forall i, j | 0 <= i < j < |sorted|
      ensures sorted[i] <= sorted[j]
    {
      assert AtMost(sorted[i], sorted[j]);
    }
  }

  lemma SortedRank(values: seq<int>, percent: nat, rank: nat)
    requires rank < |values| && 100 * rank < percent * |values| <= 100 * (rank + 1)
    ensures NearestRank(Some(SortBy(values, AtMost)[rank]), values, percent)
  {
    var sorted := SortBy(values, AtMost);
    var v := sorted[rank];
    SortAscending(values);
    SortMembers(values, AtMost);
    assert v in sorted;
    SortCount(values, AtMost, v);
    CountInSorted(sorted, rank + 1, v);
    assert CountAtMost(values, v) >= rank + 1;
    forall w | w in values && w < v
      ensures 100 * CountAtMost(values, w) < percent * |values|
    {
      SortCount(values, AtMost, w);
      CountInSorted(sorted, rank, w);
      assert CountAtMost(values, w) <= rank;
    }
  }

  method PercentileNearestRank(values: seq<int>, percent: nat) returns (result: Option<int>)
    requires 0 < percent <= 100
    ensures NearestRank(result, values, percent)
  {
    if |values| == 0 {
      return None;
    }
    var sorted := SortBy(values, AtMost);
    var rank := (percent * |sorted| + 99) / 100 - 1;
    var atLeast := if rank < 0 then 0 else rank;
    var index := if atLeast < |sorted| - 1 then atLeast else |sorted| - 1;
    RankInRange(percent, |sorted|, rank);
    SortedRank(values, percent, rank);
    result := Some(sorted[index]);
  }

  /** The predicate names one number. */
  lemma NearestRankUnique(a: Option<int>, b: Option<int>, samples: seq<int>, percent: nat)
    requires NearestRank(a, samples, percent) && NearestRank(b, samples, percent)
    ensures a == b
  {
    if samples != [] {
      assert !(a.value < b.value) && !(b.value < a.value);
    }
  }

  // Counting by key

  datatype Row<K> = Row(key: K, count: nat)

  function CountOf<T, K(==)>(s: seq<T>, key: T -> Option<K>, k: K): nat {
    if s == [] then 0 else CountOf(s[..|s| - 1], key, k) + if key(s[|s| - 1]) == Some(k) then 1 else 0
  }

  /** How many elements have a key at all. */
  function Keyed<T, K>(s: seq<T>, key: T -> Option<K>): nat {
    if s == [] then 0 else Keyed(s[..|s| - 1], key) + if key(s[|s| - 1]).Some? then 1 else 0
  }

  function RowOf<K(==)>(rows: seq<Row<K>>, k: K): (i: nat)
    ensures i <= |rows|
    ensures i < |rows| ==> rows[i].key == k
    ensures forall j :: 0 <= j < i ==> rows[j].key != k
  {
    if rows == [] || rows[0].key == k then 0 else 1 + RowOf(rows[1..], k)
  }

  /** One more for a key of an insertion-ordered counter map. */
  function Increment<K(==)>(rows: seq<Row<K>>, k: K): seq<Row<K>> {
    var i := RowOf(rows, k);
    if i < |rows| then rows[i := Row(k, rows[i].count + 1)] else rows + [Row(k, 1)]
  }

  ghost predicate Distinct<K>(rows: seq<Row<K>>) {
    forall i, j :: 0 <= i < j < |rows| ==> rows[i].key != rows[j].key
  }

  ghost predicate HasRow<K>(rows: seq<Row<K>>, k: K) {
    exists i :: 0 <= i < |rows| && rows[i].key == k
  }

  ghost predicate Exact<T, K>(rows: seq<Row<K>>, s: seq<T>, key: T -> Option<K>) {
    forall row :: row in rows ==> row.count == CountOf(s, key, row.key) && row.count > 0
  }

  ghost predicate Complete<T(!new), K(!new)>(rows: seq<Row<K>>, s: seq<T>, key: T -> Option<K>) {
    forall k :: CountOf(s, key, k) > 0 ==> HasRow(rows, k)
  }

  /** Every key that occurs has one row, with the number of its occurrences. */
  ghost predicate Tally<T(!new), K(!new)>(rows: seq<Row<K>>, s: seq<T>, key: T -> Option<K>) {
    Distinct(rows) && Exact(rows, s, key) && Complete(rows, s, key)
  }

  lemma CountOfSnoc<T, K>(s: seq<T>, x: T, key: T -> Option<K>, k: K)
    ensures CountOf(s + [x], key, k) == CountOf(s, key, k) + if key(x) == Some(k) then 1 else 0
    ensures Keyed(s + [x], key) == Keyed(s, key) + if key(x).Some? then 1 else 0
  {
    assert (s + [x])[..|s|] == s;
  }

  function Tallied<T, K(==)>(rows: seq<Row<K>>, x: T, key: T -> Option<K>): seq<Row<K>> {
    if key(x).None? then rows else Increment(rows, key(x).value)
  }

  lemma IncrementRows<K(!new)>(rows: seq<Row<K>>, k: K)
    requires Distinct(rows)
    ensures var r := Increment(rows, k);
            && Distinct(r) && HasRow(r, k)
            && (forall row :: row in r && row.key != k ==> row in rows)
            && (forall row :: row in r && row.key == k ==>
                  if HasRow(rows, k) then Row(k, row.count - 1) in rows else row.count == 1)
            && (forall other :: HasRow(rows, other) ==> HasRow(r, other))
  {
    var r, i := Increment(rows, k), RowOf(rows, k);
    assert r[i].key == k;
    if i < |rows| {
      assert rows[i] == Row(k, rows[i].count);
      forall other | HasRow(rows, other)
        ensures HasRow(r, other)
      {
        var j :| 0 <= j < |rows| && rows[j].key == other;
        assert r[j].key == other;
      }
    } else {
      forall other | HasRow(rows, other)
        ensures HasRow(r, other)
      {
        var j :| 0 <= j < |rows| && rows[j].key == other;
        assert r[j].key == other;
      }
    }
  }

  lemma TallyStep<T(!new), K(!new)>(rows: seq<Row<K>>, s: seq<T>, x: T, key: T -> Option<K>)
    requires Tally(rows, s, key)
    ensures Tally(Tallied(rows, x, key), s + [x], key)
  {
    var r := Tallied(rows, x, key);
    if key(x).Some? {
      IncrementRows(rows, key(x).value);
    }
    forall row | row in r
      ensures row.count == CountOf(s + [x], key, row.key) && row.count > 0
    {
      CountOfSnoc(s, x, key, row.key);
    }
    forall k | CountOf(s + [x], key, k) > 0
      ensures HasRow(r, k)
    {
      CountOfSnoc(s, x, key, k);
    }
  }

  // Conservation

  /** The elements whose key is not `k`, and those whose key is. */
  function Without<T, K(==)>(s: seq<T>, key: T -> Option<K>, k: K): seq<T> {
    if s == [] then []
    else Without(s[..|s| - 1], key, k) + if key(s[|s| - 1]) == Some(k) then [] else [s[|s| - 1]]
  }

  function Where<T, K(==)>(s: seq<T>, key: T -> Option<K>, k: K): seq<T> {
    if s == [] then []
    else Where(s[..|s| - 1], key, k) + if key(s[|s| - 1]) == Some(k) then [s[|s| - 1]] else []
  }

  lemma {:induction false} WithoutCounts<T, K>(s: seq<T>, key: T -> Option<K>, k: K, other: K)
    ensures CountOf(Without(s, key, k), key, other) == if other == k then 0 else CountOf(s, key, other)
    ensures Keyed(s, key) == Keyed(Without(s, key, k), key) + CountOf(s, key, k)
  {
    if s != [] {
      var last := s[|s| - 1];
      WithoutCounts(s[..|s| - 1], key, k, other);
      if key(last) != Some(k) {
        CountOfSnoc(Without(s[..|s| - 1], key, k), last, key, other);
      } else {
        assert Without(s[..|s| - 1], key, k) + [] == Without(s[..|s| - 1], key, k);
      }
    }
  }

  function SumCounts<K>(rows: seq<Row<K>>): nat {
    if rows == [] then 0 else rows[0].count + SumCounts(rows[1..])
  }

  lemma {:induction false} NothingKeyed<T(!new), K(!new)>(s: seq<T>, key: T -> Option<K>)
    requires forall k :: CountOf(s, key, k) == 0
    ensures Keyed(s, key) == 0
  {
    if s != [] {
      var last := s[|s| - 1];
      assert forall k :: CountOf(s, key, k) == CountOf(s[..|s| - 1], key, k) + if key(last) == Some(k) then 1 else 0;
      assert key(last).Some? ==> CountOf(s, key, key(last).value) > 0;
      NothingKeyed(s[..|s| - 1], key);
    }
  }

  lemma TallyRest<T(!new), K(!new)>(rows: seq<Row<K>>, s: seq<T>, key: T -> Option<K>)
    requires rows != [] && Tally(rows, s, key)
    ensures Tally(rows[1..], Without(s, key, rows[0].key), key)
  {
    var k, rest := rows[0].key, Without(s, key, rows[0].key);
    forall row | row in rows[1..]
      ensures row.count == CountOf(rest, key, row.key) && row.count > 0
    {
      WithoutCounts(s, key, k, row.key);
      assert row in rows;
    }
    forall other | CountOf(rest, key, other) > 0
      ensures HasRow(rows[1..], other)
    {
      WithoutCounts(s, key, k, other);
      var i :| 0 <= i < |rows| && rows[i].key == other;
      assert rows[1..][i - 1].key == other;
    }
  }

  /** The counts of a tally add up to the number of elements that have a key. */
  lemma {:induction false} TallySum<T(!new), K(!new)>(rows: seq<Row<K>>, s: seq<T>, key: T -> Option<K>)
    requires Tally(rows, s, key)
    ensures SumCounts(rows) == Keyed(s, key)
    decreases |rows|
  {
    if rows == [] {
      forall k
        ensures CountOf(s, key, k) == 0
      {
        assert CountOf(s, key, k) > 0 ==> HasRow(rows, k);
      }
      NothingKeyed(s, key);
    } else {
      var k := rows[0].key;
      TallyRest(rows, s, key);
      TallySum(rows[1..], Without(s, key, k), key);
      WithoutCounts(s, key, k, k);
      assert rows[0] in rows;
    }
  }

  // Sorted tallies

  ghost predicate DistinctBy<T, K>(s: seq<T>, name: T -> K) {
    forall i, j :: 0 <= i < j < |s| ==> name(s[i]) != name(s[j])
  }

  lemma {:induction false} InsertDistinct<T(!new), K(!new)>(x: T, s: seq<T>, le: (T, T) -> bool, name: T -> K)
    requires DistinctBy(s, name) && forall y :: y in s ==> name(y) != name(x)
    ensures DistinctBy(Insert(x, s, le), name)
  {
    if s != [] && !le(x, s[0]) {
      assert s == [s[0]] + s[1..];
      InsertDistinct(x, s[1..], le, name);
      InsertMembers(x, s[1..], le);
      forall y | y in Insert(x, s[1..], le)
        ensures name(y) != name(s[0])
      {
        assert y == x || y in s[1..];
      }
    }
  }

  lemma {:induction false} SortDistinct<T(!new), K(!new)>(s: seq<T>, le: (T, T) -> bool, name: T -> K)
    requires DistinctBy(s, name)
    ensures DistinctBy(SortBy(s, le), name)
  {
    if s != [] {
      SortDistinct(s[1..], le, name);
      SortMembers(s[1..], le);
      InsertDistinct(s[0], SortBy(s[1..], le), le, name);
    }
  }

  /** Sorting loses no row and makes none up. */
  lemma SortTally<T(!new), K(!new)>(rows: seq<Row<K>>, s: seq<T>, key: T -> Option<K>, le: (Row<K>, Row<K>) -> bool)
    requires Tally(rows, s, key)
    ensures Tally(SortBy(rows, le), s, key)
  {
    var name := (row: Row<K>) => row.key;
    SortDistinct(rows, le, name);
    var sorted := SortBy(rows, le);
    assert forall i, j :: 0 <= i < j < |sorted| ==> name(sorted[i]) != name(sorted[j]);
    SortMembers(rows, le);
    forall k | CountOf(s, key, k) > 0
      ensures HasRow(SortBy(rows, le), k)
    {
      var i :| 0 <= i < |rows| && rows[i].key == k;
      assert rows[i] in SortBy(rows, le);
    }
  }
}
