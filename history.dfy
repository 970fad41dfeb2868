/**
 * The portfolio snapshot store: an in-memory list of snapshots kept sorted by
 * timestamp, with a live-write debounce, a duplicate window, metadata kept in
 * step with the list, range queries, a backfill over a time grid, statistics
 * and pruning.
 *
 * Clocks are parameters (`now`, `yearStart`); the JSON file the store saves to
 * is left out (saving is a no-op here). The historical price lookup of the
 * client is a `PriceHistory` oracle.
 */
module History {
  import opened Common

  const QUOTE_ASSET: string := "USDT"
  /** Live snapshots closer than this to the previous live one are skipped. */
  const MIN_SNAPSHOT_INTERVAL: real := 60.0
  /** A snapshot within this distance of a stored timestamp is a duplicate. */
  const DUPLICATE_WINDOW: real := 30.0
  const MAX_BACKFILL: nat := 500
  const SECONDS_PER_DAY: int := 86400
  const DEFAULT_RANGE_SECONDS: int := 604800
  const ONE_YEAR_SECONDS: int := 31536000
  const DEFAULT_INTERVAL: string := "1h"
  const DEFAULT_INTERVAL_SECONDS: int := 3600

  /** One row of the per-asset breakdown a live snapshot may carry. */
  datatype AssetDetail = AssetDetail(quantity: real, valueUsdt: real)

  /** One stored snapshot; `assets` is present only when a non-empty breakdown was given. */
  datatype Snapshot = Snapshot(timestamp: int, totalValue: real, usdtBalance: real,
                               assetCount: int, isBackfilled: bool,
                               assets: Option<map<string, AssetDetail>>)

  datatype Metadata = Metadata(firstSnapshot: Option<int>, lastSnapshot: Option<int>,
                               totalSnapshots: nat, backfilledSnapshots: nat)

  const EMPTY_METADATA: Metadata := Metadata(None, None, 0, 0)

  /** One entry of the `current_assets` dict handed to the backfill. */
  datatype Holding = Holding(asset: string, quantity: real)

  /**
   * `client.get_historical_prices(symbols, timestamp)`: the prices of the pairs
   * at a past time, or `None` when the call raises.
   */
  type PriceHistory = (seq<string>, int) -> Option<map<string, real>>

  // ---------- Sorted order ----------

  predicate Sorted(s: seq<Snapshot>)
  {
    forall i, j :: 0 <= i < j < |s| ==> s[i].timestamp <= s[j].timestamp
  }

  /** No two stored timestamps are closer than the duplicate window. */
  predicate Spaced(s: seq<Snapshot>)
  {
    forall i, j :: 0 <= i < j < |s| ==> s[j].timestamp - s[i].timestamp >= 30
  }

  /**
   * Insertion at the place a stable sort by timestamp gives an element appended
   * at the end: after every element whose timestamp is not larger.
   */
  function Insert(s: seq<Snapshot>, x: Snapshot): (r: seq<Snapshot>)
    ensures |r| == |s| + 1
  {
    if s == [] then [x]
    else if x.timestamp < s[0].timestamp then [x] + s
    else [s[0]] + Insert(s[1..], x)
  }

  /** Insertion adds `x` and keeps every element: it permutes `s + [x]`. */
  lemma {:induction false} InsertPermutes(s: seq<Snapshot>, x: Snapshot)
    ensures multiset(Insert(s, x)) == multiset(s) + multiset{x}
  {
    if s != [] && x.timestamp >= s[0].timestamp {
      InsertPermutes(s[1..], x);
      assert s == [s[0]] + s[1..];
    }
  }

  lemma InsertMembers(s: seq<Snapshot>, x: Snapshot)
    ensures forall y :: y in Insert(s, x) <==> y == x || y in s
  {
    InsertPermutes(s, x);
    forall y
      ensures y in Insert(s, x) <==> y == x || y in s
    {
      assert y in Insert(s, x) <==> y in multiset(Insert(s, x));
      assert y in s <==> y in multiset(s);
    }
  }

  lemma SortedTail(s: seq<Snapshot>)
    requires Sorted(s) && s != []
    ensures Sorted(s[1..])
    ensures forall y :: y in s[1..] ==> s[0].timestamp <= y.timestamp
  {
    var tail := s[1..];
    forall i, j | 0 <= i < j < |tail|
      ensures tail[i].timestamp <= tail[j].timestamp
    {
      assert tail[i] == s[i + 1] && tail[j] == s[j + 1];
    }
    forall y | y in tail
      ensures s[0].timestamp <= y.timestamp
    {
      var j :| 0 <= j < |tail| && tail[j] == y;
      assert s[j + 1] == y;
    }
  }

  lemma SpacedTail(s: seq<Snapshot>)
    requires Spaced(s) && s != []
    ensures Spaced(s[1..])
    ensures forall y :: y in s[1..] ==> y.timestamp - s[0].timestamp >= 30
  {
    var tail := s[1..];
    forall i, j | 0 <= i < j < |tail|
      ensures tail[j].timestamp - tail[i].timestamp >= 30
    {
      assert tail[i] == s[i + 1] && tail[j] == s[j + 1];
    }
    forall y | y in tail
      ensures y.timestamp - s[0].timestamp >= 30
    {
      var j :| 0 <= j < |tail| && tail[j] == y;
      assert s[j + 1] == y;
    }
  }

  lemma SortedCons(x: Snapshot, t: seq<Snapshot>)
    requires Sorted(t) && forall y :: y in t ==> x.timestamp <= y.timestamp
    ensures Sorted([x] + t)
  {
    var r := [x] + t;
    forall i, j | 0 <= i < j < |r|
      ensures r[i].timestamp <= r[j].timestamp
    {
      assert r[j] == t[j - 1];
      if i > 0 {
        assert r[i] == t[i - 1];
      } else {
        assert r[j] in t;
      }
    }
  }

  lemma SpacedCons(x: Snapshot, t: seq<Snapshot>)
    requires Spaced(t) && forall y :: y in t ==> y.timestamp - x.timestamp >= 30
    ensures Spaced([x] + t)
  {
    var r := [x] + t;
    forall i, j | 0 <= i < j < |r|
      ensures r[j].timestamp - r[i].timestamp >= 30
    {
      assert r[j] == t[j - 1];
      if i > 0 {
        assert r[i] == t[i - 1];
      } else {
        assert r[j] in t;
      }
    }
  }

  lemma {:induction false} InsertKeepsSorted(s: seq<Snapshot>, x: Snapshot)
    requires Sorted(s)
    ensures Sorted(Insert(s, x))
  {
    if s == [] {
    } else if x.timestamp < s[0].timestamp {
      SortedTail(s);
      SortedCons(x, s);
    } else {
      SortedTail(s);
      InsertKeepsSorted(s[1..], x);
      var rest := Insert(s[1..], x);
      InsertMembers(s[1..], x);
      SortedCons(s[0], rest);
    }
  }

  lemma {:induction false} InsertKeepsSpaced(s: seq<Snapshot>, x: Snapshot)
    requires Spaced(s)
    requires forall i :: 0 <= i < |s| ==> Abs((s[i].timestamp - x.timestamp) as real) >= 30.0
    ensures Spaced(Insert(s, x))
  {
    if s == [] {
      return;
    }
    SpacedTail(s);
    assert Abs((s[0].timestamp - x.timestamp) as real) >= 30.0;
    if x.timestamp < s[0].timestamp {
      assert s == [s[0]] + s[1..];
      SpacedCons(x, s);
    } else {
      var tail := s[1..];
      forall i | 0 <= i < |tail|
        ensures Abs((tail[i].timestamp - x.timestamp) as real) >= 30.0
      {
        assert tail[i] == s[i + 1];
      }
      InsertKeepsSpaced(tail, x);
      var rest := Insert(tail, x);
      InsertMembers(tail, x);
      SpacedCons(s[0], rest);
    }
  }

  /** Python's `list.sort(key=timestamp)`: a stable sort, here insertion sort. */
  function SortByTimestamp(s: seq<Snapshot>): (r: seq<Snapshot>)
    ensures |r| == |s|
  {
    if s == [] then [] else Insert(SortByTimestamp(s[..|s| - 1]), s[|s| - 1])
  }

  lemma {:induction false} SortIsSortedPermutation(s: seq<Snapshot>)
    ensures Sorted(SortByTimestamp(s))
    ensures multiset(SortByTimestamp(s)) == multiset(s)
    decreases |s|
  {
    if s != [] {
      SortIsSortedPermutation(s[..|s| - 1]);
      InsertKeepsSorted(SortByTimestamp(s[..|s| - 1]), s[|s| - 1]);
      InsertPermutes(SortByTimestamp(s[..|s| - 1]), s[|s| - 1]);
      assert s == s[..|s| - 1] + [s[|s| - 1]];
    }
  }

  /** An element no earlier than every element goes to the end. */
  lemma {:induction false} InsertAfterLast(s: seq<Snapshot>, x: Snapshot)
    requires forall k :: 0 <= k < |s| ==> s[k].timestamp <= x.timestamp
    ensures Insert(s, x) == s + [x]
  {
    if s != [] {
      var tail := s[1..];
      assert forall k :: 0 <= k < |tail| ==> tail[k] == s[k + 1];
      InsertAfterLast(tail, x);
      assert s == [s[0]] + tail;
    }
  }



  lemma SortedPrefix(s: seq<Snapshot>, n: nat)
    requires Sorted(s) && n <= |s|
    ensures Sorted(s[..n])
  {
    var p := s[..n];
    forall i, j | 0 <= i < j < |p|
      ensures p[i].timestamp <= p[j].timestamp
    {
      assert p[i] == s[i] && p[j] == s[j];
    }
  }

  /** Sorting a sorted list changes nothing. */
  lemma {:induction false} SortOfSorted(s: seq<Snapshot>)
    requires Sorted(s)
    ensures SortByTimestamp(s) == s
    decreases |s|
  {
    if s != [] {
      var init := s[..|s| - 1];
      var x := s[|s| - 1];
      SortedPrefix(s, |s| - 1);
      SortOfSorted(init);
      assert forall k :: 0 <= k < |init| ==> init[k] == s[k];
      InsertAfterLast(init, x);
      assert init + [x] == s;
    }
  }

  /** Appending to a sorted list and sorting is inserting. */
  lemma AppendThenSort(s: seq<Snapshot>, x: Snapshot)
    requires Sorted(s)
    ensures SortByTimestamp(s + [x]) == Insert(s, x)
  {
    assert (s + [x])[..|s|] == s;
    SortOfSorted(s);
  }

  // ---------- Metadata ----------

  function MinTimestamp(s: seq<Snapshot>): int
    requires |s| > 0
  {
    if |s| == 1 then s[0].timestamp
    else
      var m := MinTimestamp(s[1..]);
      if s[0].timestamp <= m then s[0].timestamp else m
  }

  function MaxTimestamp(s: seq<Snapshot>): int
    requires |s| > 0
  {
    if |s| == 1 then s[0].timestamp
    else
      var m := MaxTimestamp(s[1..]);
      if s[0].timestamp >= m then s[0].timestamp else m
  }

  function CountBackfilled(s: seq<Snapshot>): nat
  {
    if s == [] then 0 else (if s[0].isBackfilled then 1 else 0) + CountBackfilled(s[1..])
  }

  /** `min(timestamps)`: a stored timestamp no larger than any other. */
  lemma {:induction false} MinTimestampIsLeast(s: seq<Snapshot>)
    requires |s| > 0
    ensures exists i :: 0 <= i < |s| && s[i].timestamp == MinTimestamp(s)
    ensures forall i :: 0 <= i < |s| ==> MinTimestamp(s) <= s[i].timestamp
  {
    if |s| > 1 {
      MinTimestampIsLeast(s[1..]);
      assert forall i :: 1 <= i < |s| ==> s[i] == s[1..][i - 1];
      var j :| 0 <= j < |s[1..]| && s[1..][j].timestamp == MinTimestamp(s[1..]);
      if s[0].timestamp <= MinTimestamp(s[1..]) {
        assert s[0].timestamp == MinTimestamp(s);
      } else {
        assert s[j + 1].timestamp == MinTimestamp(s);
      }
    } else {
      assert s[0].timestamp == MinTimestamp(s);
    }
  }

  /** `max(timestamps)`: a stored timestamp no smaller than any other. */
  lemma {:induction false} MaxTimestampIsGreatest(s: seq<Snapshot>)
    requires |s| > 0
    ensures exists i :: 0 <= i < |s| && s[i].timestamp == MaxTimestamp(s)
    ensures forall i :: 0 <= i < |s| ==> s[i].timestamp <= MaxTimestamp(s)
  {
    if |s| > 1 {
      MaxTimestampIsGreatest(s[1..]);
      assert forall i :: 1 <= i < |s| ==> s[i] == s[1..][i - 1];
      var j :| 0 <= j < |s[1..]| && s[1..][j].timestamp == MaxTimestamp(s[1..]);
      if s[0].timestamp >= MaxTimestamp(s[1..]) {
        assert s[0].timestamp == MaxTimestamp(s);
      } else {
        assert s[j + 1].timestamp == MaxTimestamp(s);
      }
    } else {
      assert s[0].timestamp == MaxTimestamp(s);
    }
  }

  /** The backfilled count is at most the length, zero exactly when none is backfilled and full exactly when all are. */
  lemma {:induction false} CountBackfilledCounts(s: seq<Snapshot>)
    ensures CountBackfilled(s) <= |s|
    ensures CountBackfilled(s) == 0 <==> forall i :: 0 <= i < |s| ==> !s[i].isBackfilled
    ensures CountBackfilled(s) == |s| <==> forall i :: 0 <= i < |s| ==> s[i].isBackfilled
  {
    if s != [] {
      CountBackfilledCounts(s[1..]);
      assert forall i :: 1 <= i < |s| ==> s[i] == s[1..][i - 1];
    }
  }

  /** The metadata `_update_metadata` computes for a non-empty list. */
  function MetadataOf(s: seq<Snapshot>): (m: Metadata)
    requires |s| > 0
  {
    Metadata(Some(MinTimestamp(s)), Some(MaxTimestamp(s)), |s|, CountBackfilled(s))
  }

  /** On a sorted list the first and last snapshots carry the metadata's bounds. */
  lemma MetadataOfSorted(s: seq<Snapshot>)
    requires |s| > 0 && Sorted(s)
    ensures MetadataOf(s).firstSnapshot == Some(s[0].timestamp)
    ensures MetadataOf(s).lastSnapshot == Some(s[|s| - 1].timestamp)
    ensures MetadataOf(s).totalSnapshots == |s|
  {
    MinTimestampIsLeast(s);
    MaxTimestampIsGreatest(s);
    var j :| 0 <= j < |s| && s[j].timestamp == MinTimestamp(s);
    var k :| 0 <= k < |s| && s[k].timestamp == MaxTimestamp(s);
    assert s[0].timestamp <= s[j].timestamp;
    assert s[k].timestamp <= s[|s| - 1].timestamp;
  }

  // ---------- Queries ----------

  /** `[s for s in snapshots if s['timestamp'] >= start]`. */
  function AtOrAfter(s: seq<Snapshot>, start: real): (r: seq<Snapshot>)
    ensures forall x :: x in r <==> x in s && x.timestamp as real >= start
    ensures IsSubsequence(r, s)
  {
    if s == [] then []
    else
      var rest := AtOrAfter(s[1..], start);
      if s[0].timestamp as real >= start then [s[0]] + rest else rest
  }

  /** The filter never grows the list, and removes nothing only when it returns the list itself. */
  lemma {:induction false} AtOrAfterLength(s: seq<Snapshot>, start: real)
    ensures |AtOrAfter(s, start)| <= |s|
    ensures |AtOrAfter(s, start)| == |s| ==> AtOrAfter(s, start) == s
  {
    if s != [] {
      AtOrAfterLength(s[1..], start);
    }
  }

  /** `[s for s in snapshots if s['timestamp'] <= end]`. */
  function AtOrBefore(s: seq<Snapshot>, end: real): (r: seq<Snapshot>)
    ensures forall x :: x in r <==> x in s && x.timestamp as real <= end
    ensures IsSubsequence(r, s)
  {
    if s == [] then []
    else
      var rest := AtOrBefore(s[1..], end);
      if s[0].timestamp as real <= end then [s[0]] + rest else rest
  }

  /** `max(snapshots, key=timestamp)`: the first snapshot with the largest timestamp. */
  function Latest(s: seq<Snapshot>): (r: Option<Snapshot>)
    ensures r.None? <==> s == []
  {
    if s == [] then None
    else
      var rest := Latest(s[1..]);
      if rest.None? || s[0].timestamp >= rest.value.timestamp then Some(s[0]) else rest
  }

  /** `s[i]` has the largest timestamp of `s`, and no earlier element has it. */
  ghost predicate FirstMaxAt(s: seq<Snapshot>, i: int)
  {
    0 <= i < |s|
    && (forall j :: 0 <= j < i ==> s[j].timestamp < s[i].timestamp)
    && (forall j :: i < j < |s| ==> s[j].timestamp <= s[i].timestamp)
  }

  /** A head at least as late as the tail's first maximum is the first maximum. */
  lemma FirstMaxAtHead(s: seq<Snapshot>, k: int)
    requires |s| > 1 && FirstMaxAt(s[1..], k) && s[0].timestamp >= s[k + 1].timestamp
    ensures FirstMaxAt(s, 0)
  {
    forall j | 0 < j < |s| ensures s[j].timestamp <= s[0].timestamp {
      assert s[j] == s[1..][j - 1];
    }
  }

  /** Behind an earlier head, the tail's first maximum stays the first maximum. */
  lemma FirstMaxInTail(s: seq<Snapshot>, k: int)
    requires |s| > 1 && FirstMaxAt(s[1..], k) && s[0].timestamp < s[k + 1].timestamp
    ensures FirstMaxAt(s, k + 1)
  {
    forall j | 0 < j < |s| ensures s[j] == s[1..][j - 1] {
    }
  }

  /** `max(s, key=timestamp)`: a snapshot with the largest timestamp, the first such one. */
  lemma {:induction false} LatestIsFirstMax(s: seq<Snapshot>)
    requires s != []
    ensures exists i :: FirstMaxAt(s, i) && s[i] == Latest(s).value
  {
    if |s| == 1 {
      assert FirstMaxAt(s, 0);
    } else {
      LatestIsFirstMax(s[1..]);
      var k :| FirstMaxAt(s[1..], k) && s[1..][k] == Latest(s[1..]).value;
      assert s[k + 1] == s[1..][k];
      if s[0].timestamp >= s[k + 1].timestamp {
        FirstMaxAtHead(s, k);
        assert s[0] == Latest(s).value;
      } else {
        FirstMaxInTail(s, k);
        assert s[k + 1] == Latest(s).value;
      }
    }
  }





  /** On a spaced list the latest snapshot is the last one. */
  lemma {:induction false} LatestOfSpacedIsLast(s: seq<Snapshot>)
    requires Spaced(s) && s != []
    ensures Latest(s) == Some(s[|s| - 1])
  {
    if |s| > 1 {
      SpacedTail(s);
      LatestOfSpacedIsLast(s[1..]);
      assert s[1..][|s| - 2] == s[|s| - 1];
      assert s[|s| - 1].timestamp - s[0].timestamp >= 30;
    }
  }

  /** A list with spaced timestamps is sorted, and so is every tail of it. */
  lemma SpacedIsSorted(s: seq<Snapshot>)
    requires Spaced(s)
    ensures Sorted(s)
  {
  }

  /** Keeping a subset of a spaced list in order keeps it spaced. */
  lemma {:induction false} AtOrAfterKeepsSpaced(s: seq<Snapshot>, start: real)
    requires Spaced(s)
    ensures Spaced(AtOrAfter(s, start))
  {
    if s != [] {
      SpacedTail(s);
      AtOrAfterKeepsSpaced(s[1..], start);
      var rest := AtOrAfter(s[1..], start);
      if s[0].timestamp as real >= start {
        SpacedCons(s[0], rest);
      }
    }
  }

  lemma {:induction false} AtOrBeforeKeepsSpaced(s: seq<Snapshot>, end: real)
    requires Spaced(s)
    ensures Spaced(AtOrBefore(s, end))
  {
    if s != [] {
      SpacedTail(s);
      AtOrBeforeKeepsSpaced(s[1..], end);
      var rest := AtOrBefore(s[1..], end);
      if s[0].timestamp as real <= end {
        SpacedCons(s[0], rest);
      }
    }
  }

  // ---------- Ranges and intervals ----------

  /** `INTERVALS.get(interval, 3600)`, in seconds. */
  function IntervalSeconds(interval: string): (r: int)
    ensures r >= 60
    ensures interval == "1m" ==> r == 60
    ensures interval == "5m" ==> r == 5 * 60
    ensures interval == "15m" ==> r == 15 * 60
    ensures interval == "1h" ==> r == 60 * 60
    ensures interval == "4h" ==> r == 4 * 60 * 60
    ensures interval == "1d" ==> r == 24 * 60 * 60
    ensures interval !in {"1m", "5m", "15m", "1h", "4h", "1d"} ==> r == DEFAULT_INTERVAL_SECONDS
  {
    if interval == "1m" then 60
    else if interval == "5m" then 300
    else if interval == "15m" then 900
    else if interval == "1h" then 3600
    else if interval == "4h" then 14400
    else if interval == "1d" then 86400
    else DEFAULT_INTERVAL_SECONDS
  }

  /** `RANGE_INTERVALS.get(range, '1h')`: the chart interval of a range. */
  function IntervalForRange(range: string): (r: string)
    ensures r in {"15m", "1h", "4h", "1d"}
    ensures range !in {"1d", "1w", "1m", "6m", "1y", "ytd", "all"} ==> r == DEFAULT_INTERVAL
    ensures range == "1d" ==> r == "15m"
    ensures range == "1w" ==> r == "1h"
    ensures range == "1m" ==> r == "4h"
    ensures range in {"6m", "1y", "ytd", "all"} ==> r == "1d"
  {
    if range == "1d" then "15m"
    else if range == "1w" then "1h"
    else if range == "1m" then "4h"
    else if range in {"6m", "1y", "ytd", "all"} then "1d"
    else DEFAULT_INTERVAL
  }

  /** `RANGE_SECONDS`: the length of the fixed ranges. */
  function RangeSeconds(range: string): (r: Option<int>)
    ensures r.Some? <==> range in {"1d", "1w", "1m", "6m", "1y"}
    ensures r.Some? ==> r.value > 0
  {
    if range == "1d" then Some(86400)
    else if range == "1w" then Some(604800)
    else if range == "1m" then Some(2592000)
    else if range == "6m" then Some(15552000)
    else if range == "1y" then Some(ONE_YEAR_SECONDS)
    else None
  }

  /** Each fixed range spans the number of chart points its table comment announces. */
  lemma RangePointCounts()
    ensures RangeSeconds("1d").value / IntervalSeconds(IntervalForRange("1d")) == 96
    ensures RangeSeconds("1w").value / IntervalSeconds(IntervalForRange("1w")) == 168
    ensures RangeSeconds("1m").value / IntervalSeconds(IntervalForRange("1m")) == 180
    ensures RangeSeconds("6m").value / IntervalSeconds(IntervalForRange("6m")) == 180
    ensures RangeSeconds("1y").value / IntervalSeconds(IntervalForRange("1y")) == 365
  {
  }

  /** A first-snapshot time in the metadata counts only when it is truthy (present and non-zero). */
  predicate HasFirstSnapshot(m: Metadata)
  {
    m.firstSnapshot.Some? && m.firstSnapshot.value != 0
  }

  /**
   * The coverage test of `should_backfill`: fewer than a fifth of the points
   * the interval would put into the window are stored.
   */
  predicate Underfilled(count: nat, start: real, end: real, intervalSeconds: int)
    requires intervalSeconds > 0
  {
    (count as real) < (end - start) / (intervalSeconds as real) * 0.2
  }

  /** An empty window never needs a backfill, a non-empty window with no points always does. */
  lemma UnderfilledBounds(count: nat, start: real, end: real, intervalSeconds: int)
    requires intervalSeconds > 0
    ensures end <= start ==> !Underfilled(count, start, end, intervalSeconds)
    ensures start < end && count == 0 ==> Underfilled(count, start, end, intervalSeconds)
  {
    var x := (end - start) / (intervalSeconds as real);
    if end <= start {
      assert x <= 0.0;
    } else {
      assert x > 0.0;
    }
  }

  // ---------- Backfill grid ----------

  /** `any(abs(t - et) < interval / 2 for et in existing)`. */
  predicate Covered(t: int, existing: set<int>, intervalSeconds: int)
  {
    exists e :: e in existing && Abs((t - e) as real) < intervalSeconds as real / 2.0
  }

  /** `t` is `first + k * interval` for some `k >= 0`. */
  ghost predicate OnGrid(t: int, first: int, intervalSeconds: int)
  {
    exists k: nat :: t == first + k * intervalSeconds
  }

  /** Any two kept points are at least `gap` apart, in increasing order. */
  predicate Gapped(ts: seq<int>, gap: int)
  {
    forall i, j :: 0 <= i < j < |ts| ==> ts[j] - ts[i] >= gap
  }

  /** The grid points from `current` up to `last` that no existing timestamp covers. */
  function UncoveredGrid(current: int, last: int, intervalSeconds: int, existing: set<int>): seq<int>
    requires intervalSeconds > 0
    decreases last - current
  {
    if current > last then []
    else
      var rest := UncoveredGrid(current + intervalSeconds, last, intervalSeconds, existing);
      if Covered(current, existing, intervalSeconds) then rest else [current] + rest
  }

  /** `t` is a point the filtered grid from `current` to `last` may keep. */
  ghost predicate GridPoint(t: int, current: int, last: int, intervalSeconds: int, existing: set<int>)
  {
    current <= t <= last && OnGrid(t, current, intervalSeconds) && !Covered(t, existing, intervalSeconds)
  }

  /** Every kept point lies on the grid between `current` and `last` and is not covered. */
  lemma {:induction false} UncoveredGridPoints(current: int, last: int, intervalSeconds: int, existing: set<int>)
    requires intervalSeconds > 0
    ensures forall t :: t in UncoveredGrid(current, last, intervalSeconds, existing) ==>
                          GridPoint(t, current, last, intervalSeconds, existing)
    decreases last - current
  {
    if current <= last {
      var next := current + intervalSeconds;
      UncoveredGridPoints(next, last, intervalSeconds, existing);
      var rest := UncoveredGrid(next, last, intervalSeconds, existing);
      forall t | t in rest
        ensures GridPoint(t, current, last, intervalSeconds, existing)
      {
        assert GridPoint(t, next, last, intervalSeconds, existing);
        var k: nat :| t == next + k * intervalSeconds;
        assert t == current + (k + 1) * intervalSeconds;
      }
      assert OnGrid(current, current, intervalSeconds) by {
        assert current == current + 0 * intervalSeconds;
      }
    }
  }

  /** Kept points are increasing and at least one interval apart. */
  lemma {:induction false} UncoveredGridGapped(current: int, last: int, intervalSeconds: int, existing: set<int>)
    requires intervalSeconds > 0
    ensures Gapped(UncoveredGrid(current, last, intervalSeconds, existing), intervalSeconds)
    decreases last - current
  {
    if current <= last {
      var next := current + intervalSeconds;
      UncoveredGridGapped(next, last, intervalSeconds, existing);
      UncoveredGridPoints(next, last, intervalSeconds, existing);
      var rest := UncoveredGrid(next, last, intervalSeconds, existing);
      if !Covered(current, existing, intervalSeconds) {
        var g := [current] + rest;
        forall i, j | 0 <= i < j < |g|
          ensures g[j] - g[i] >= intervalSeconds
        {
          assert g[j] == rest[j - 1];
          if i == 0 {
            assert GridPoint(rest[j - 1], next, last, intervalSeconds, existing);
          } else {
            assert g[i] == rest[i - 1];
          }
        }
      }
    }
  }

  /** The shape of the filtered grid: on-grid, bounded, uncovered and gapped points. */
  lemma UncoveredGridShape(current: int, last: int, intervalSeconds: int, existing: set<int>)
    requires intervalSeconds > 0
    ensures var g := UncoveredGrid(current, last, intervalSeconds, existing);
            (forall i :: 0 <= i < |g| ==> current <= g[i] <= last && OnGrid(g[i], current, intervalSeconds)
                                          && !Covered(g[i], existing, intervalSeconds))
            && Gapped(g, intervalSeconds)
  {
    UncoveredGridPoints(current, last, intervalSeconds, existing);
    UncoveredGridGapped(current, last, intervalSeconds, existing);
    var g := UncoveredGrid(current, last, intervalSeconds, existing);
    forall i | 0 <= i < |g|
      ensures current <= g[i] <= last && OnGrid(g[i], current, intervalSeconds)
              && !Covered(g[i], existing, intervalSeconds)
    {
      assert GridPoint(g[i], current, last, intervalSeconds, existing);
    }
  }

  /** Every uncovered grid point up to `last` is kept. */
  lemma {:induction false} UncoveredGridComplete(current: int, last: int, intervalSeconds: int,
                                                 existing: set<int>, t: int)
    requires intervalSeconds > 0
    requires OnGrid(t, current, intervalSeconds) && t <= last && !Covered(t, existing, intervalSeconds)
    ensures t in UncoveredGrid(current, last, intervalSeconds, existing)
    decreases last - current
  {
    var k: nat :| t == current + k * intervalSeconds;
    if k > 0 {
      var next := current + intervalSeconds;
      assert t == next + (k - 1) * intervalSeconds;
      UncoveredGridComplete(next, last, intervalSeconds, existing, t);
    }
  }

  /**
   * The `while` loop that builds `expected_times`, stepping from `int(start)`
   * to `int(end)` inclusive.
   */
  method ExpectedTimes(startTime: real, endTime: real, intervalSeconds: int, existing: set<int>)
    returns (times: seq<int>)
    requires intervalSeconds > 0
    ensures times == UncoveredGrid(Trunc(startTime), Trunc(endTime), intervalSeconds, existing)
  {
    times := [];
    var current := Trunc(startTime);
    var last := Trunc(endTime);
    ghost var whole := UncoveredGrid(current, last, intervalSeconds, existing);
    while current <= last
      invariant times + UncoveredGrid(current, last, intervalSeconds, existing) == whole
      decreases last - current
    {
      ghost var rest := UncoveredGrid(current + intervalSeconds, last, intervalSeconds, existing);
      var isCovered := Covered(current, existing, intervalSeconds);
      if !isCovered {
        assert UncoveredGrid(current, last, intervalSeconds, existing) == [current] + rest;
        assert (times + [current]) + rest == times + ([current] + rest);
        times := times + [current];
      } else {
        assert UncoveredGrid(current, last, intervalSeconds, existing) == rest;
      }
      current := current + intervalSeconds;
    }
    assert UncoveredGrid(current, last, intervalSeconds, existing) == [];
    assert times + [] == times;
  }

  /** `ts[::step]`: every `step`-th element, starting with the first. */
  function EveryKth(ts: seq<int>, step: nat): (r: seq<int>)
    requires step > 0
    ensures |r| <= |ts|
    ensures ts != [] ==> r != [] && r[0] == ts[0]
    decreases |ts|
  {
    if ts == [] then []
    else if step <= |ts| then [ts[0]] + EveryKth(ts[step..], step)
    else [ts[0]]
  }

  lemma MulStep(i: nat, step: nat)
    requires i > 0
    ensures i * step == (i - 1) * step + step
  {
  }

  lemma MulMonotone(i: nat, j: nat, step: nat)
    requires i < j && step > 0
    ensures i * step < j * step
  {
  }

  lemma {:induction false} EveryKthIndex(ts: seq<int>, step: nat, i: nat)
    requires step > 0 && i < |EveryKth(ts, step)|
    ensures i * step < |ts| && EveryKth(ts, step)[i] == ts[i * step]
    decreases |ts|
  {
    if i > 0 {
      assert step <= |ts|;
      var rest := EveryKth(ts[step..], step);
      assert EveryKth(ts, step)[i] == rest[i - 1];
      EveryKthIndex(ts[step..], step, i - 1);
      MulStep(i, step);
      assert ts[step..][(i - 1) * step] == ts[i * step];
    }
  }

  lemma {:induction false} EveryKthLength(ts: seq<int>, step: nat, n: nat)
    requires step > 0 && n * step <= |ts| && 0 < |ts|
    ensures |EveryKth(ts, step)| >= n
    decreases n
  {
    if n > 1 {
      assert (n - 1) * step == n * step - step;
      EveryKthLength(ts[step..], step, n - 1);
    }
  }

  /** `[::step]` keeps the elements in order, and keeps their spacing. */
  lemma EveryKthSubsequence(ts: seq<int>, step: nat, gap: int)
    requires step > 0 && Gapped(ts, gap) && gap >= 0
    ensures IsSubsequence(EveryKth(ts, step), ts)
    ensures Gapped(EveryKth(ts, step), gap)
  {
    EveryKthIsSubsequence(ts, step);
    var r := EveryKth(ts, step);
    forall i, j | 0 <= i < j < |r|
      ensures r[j] - r[i] >= gap
    {
      EveryKthIndex(ts, step, i);
      EveryKthIndex(ts, step, j);
      MulMonotone(i, j, step);
    }
  }

  lemma {:induction false} EveryKthIsSubsequence(ts: seq<int>, step: nat)
    requires step > 0
    ensures IsSubsequence(EveryKth(ts, step), ts)
    decreases |ts|
  {
    if ts != [] {
      if step <= |ts| {
        EveryKthIsSubsequence(ts[step..], step);
        DropPrefixSubsequence(EveryKth(ts[step..], step), ts[1..], step - 1);
      } else {
        assert EveryKth(ts, step)[1..] == [];
      }
    }
  }

  lemma {:induction false} DropPrefixSubsequence(a: seq<int>, b: seq<int>, m: nat)
    requires m <= |b| && IsSubsequence(a, b[m..])
    ensures IsSubsequence(a, b)
    decreases m
  {
    if m > 0 {
      assert b[1..][m - 1..] == b[m..];
      DropPrefixSubsequence(a, b[1..], m - 1);
    }
  }

  /** The 500-point cap: `ts[::len // 500][:500]` when there are more than 500 points. */
  function CapPoints(ts: seq<int>): (r: seq<int>)
  {
    if |ts| > MAX_BACKFILL then
      EveryKthLength(ts, |ts| / MAX_BACKFILL, MAX_BACKFILL);
      EveryKth(ts, |ts| / MAX_BACKFILL)[..MAX_BACKFILL]
    else ts
  }

  /**
   * The cap leaves at most 500 points, exactly 500 when it applies, in order,
   * spaced like the grid, and always keeps the first grid point.
   */
  lemma CapPointsShape(ts: seq<int>, gap: int)
    requires Gapped(ts, gap) && gap >= 0
    ensures var r := CapPoints(ts);
            |r| == (if |ts| > MAX_BACKFILL then MAX_BACKFILL else |ts|)
            && IsSubsequence(r, ts) && Gapped(r, gap)
            && (ts != [] ==> r[0] == ts[0])
  {
    if |ts| > MAX_BACKFILL {
      var step := |ts| / MAX_BACKFILL;
      EveryKthLength(ts, step, MAX_BACKFILL);
      EveryKthSubsequence(ts, step, gap);
      SubsequenceOfPrefix(EveryKth(ts, step), ts, MAX_BACKFILL);
    } else {
      SubsequenceOfSelf(ts);
    }
  }

  // ---------- Backfill valuation ----------

  /** `current_assets.get('USDT', 0.0)`. */
  function UsdtQuantity(assets: seq<Holding>): real
  {
    if assets == [] then 0.0
    else if assets[0].asset == QUOTE_ASSET then assets[0].quantity
    else UsdtQuantity(assets[1..])
  }

  /** `prices.get(symbol, 0.0)`. */
  function PriceOrZero(prices: map<string, real>, symbol: string): real
  {
    if symbol in prices then prices[symbol] else 0.0
  }

  /** What one holding adds to the backfilled value: nothing for USDT. */
  function HoldingValue(h: Holding, prices: map<string, real>): real
  {
    if h.asset == QUOTE_ASSET then 0.0 else h.quantity * PriceOrZero(prices, h.asset + QUOTE_ASSET)
  }

  function MarketSum(assets: seq<Holding>, prices: map<string, real>): real
  {
    if assets == [] then 0.0
    else MarketSum(assets[..|assets| - 1], prices) + HoldingValue(assets[|assets| - 1], prices)
  }

  /** The value of the held quantities at historical prices. */
  function BackfillTotal(assets: seq<Holding>, prices: map<string, real>): real
  {
    UsdtQuantity(assets) + MarketSum(assets, prices)
  }

  /** The pairs the backfill asks prices for: every non-USDT asset with USDT appended. */
  function PairSymbols(assets: seq<Holding>): seq<string>
  {
    if assets == [] then []
    else
      var rest := PairSymbols(assets[1..]);
      if assets[0].asset == QUOTE_ASSET then rest else [assets[0].asset + QUOTE_ASSET] + rest
  }

  /** The symbols asked for are exactly the USDT pairs of the non-USDT holdings. */
  lemma {:induction false} PairSymbolsMembers(assets: seq<Holding>)
    ensures forall sym :: sym in PairSymbols(assets) <==>
              exists h :: h in assets && h.asset != QUOTE_ASSET && sym == h.asset + QUOTE_ASSET
  {
    if assets != [] {
      PairSymbolsMembers(assets[1..]);
      assert forall h :: h in assets <==> h == assets[0] || h in assets[1..];
    }
  }

  /** Holdings with no price for their pair are worth nothing; USDT is counted at par. */
  lemma {:induction false} UnpricedHoldingsAddNothing(assets: seq<Holding>, prices: map<string, real>)
    requires forall i :: 0 <= i < |assets| ==> assets[i].asset + QUOTE_ASSET !in prices
    ensures BackfillTotal(assets, prices) == UsdtQuantity(assets)
    decreases |assets|
  {
    if assets != [] {
      UnpricedHoldingsAddNothing(assets[..|assets| - 1], prices);
      assert forall i :: 0 <= i < |assets| - 1 ==> assets[..|assets| - 1][i] == assets[i];
      assert MarketSum(assets[..|assets| - 1], prices) == 0.0 by {
        UnpricedMarketSum(assets[..|assets| - 1], prices);
      }
    }
  }

  lemma {:induction false} UnpricedMarketSum(assets: seq<Holding>, prices: map<string, real>)
    requires forall i :: 0 <= i < |assets| ==> assets[i].asset + QUOTE_ASSET !in prices
    ensures MarketSum(assets, prices) == 0.0
    decreases |assets|
  {
    if assets != [] {
      var init := assets[..|assets| - 1];
      assert forall i :: 0 <= i < |init| ==> init[i] == assets[i];
      UnpricedMarketSum(init, prices);
    }
  }

  /** The per-timestamp value loop of `backfill_history`. */
  method ValueAt(assets: seq<Holding>, prices: map<string, real>) returns (total: real)
    ensures total == BackfillTotal(assets, prices)
  {
    total := UsdtQuantity(assets);
    var i := 0;
    while i < |assets|
      invariant 0 <= i <= |assets|
      invariant total == UsdtQuantity(assets) + MarketSum(assets[..i], prices)
    {
      var h := assets[i];
      if h.asset != QUOTE_ASSET {
        total := total + h.quantity * PriceOrZero(prices, h.asset + QUOTE_ASSET);
      }
      assert assets[..i + 1][..i] == assets[..i];
      i := i + 1;
    }
    assert assets[..i] == assets;
  }

  /** The value recorded for one grid point, or `None` when the price lookup raises. */
  function Valuation(assets: seq<Holding>, oracle: PriceHistory, t: int): Option<real>
  {
    match oracle(PairSymbols(assets), t)
    case None => None
    case Some(prices) => Some(BackfillTotal(assets, prices))
  }

  function BackfilledSnapshot(t: int, assets: seq<Holding>, total: real): Snapshot
  {
    Snapshot(t, total, UsdtQuantity(assets), |assets|, true, None)
  }

  /** The snapshots the backfill attempts, in grid order: one per point with a positive value. */
  function BackfillSnapshots(ts: seq<int>, assets: seq<Holding>, oracle: PriceHistory): (r: seq<Snapshot>)
    ensures |r| <= |ts|
  {
    if ts == [] then []
    else
      var before := BackfillSnapshots(ts[..|ts| - 1], assets, oracle);
      var t := ts[|ts| - 1];
      match Valuation(assets, oracle, t)
      case Some(v) => if v > 0.0 then before + [BackfilledSnapshot(t, assets, v)] else before
      case None => before
  }

  lemma {:induction false} BackfillSnapshotsShape(ts: seq<int>, assets: seq<Holding>, oracle: PriceHistory)
    ensures forall x :: x in BackfillSnapshots(ts, assets, oracle) ==>
              x.isBackfilled && x.timestamp in ts && x.totalValue > 0.0
              && Valuation(assets, oracle, x.timestamp) == Some(x.totalValue)
    decreases |ts|
  {
    if ts != [] {
      var init := ts[..|ts| - 1];
      BackfillSnapshotsShape(init, assets, oracle);
      assert forall t :: t in init ==> t in ts;
    }
  }

  // ---------- Statistics ----------

  datatype Stats = Stats(startValue: real, endValue: real, changePercent: real,
                         minValue: real, maxValue: real)

  function MinValue(s: seq<Snapshot>): (r: real)
    requires s != []
    ensures exists i :: 0 <= i < |s| && s[i].totalValue == r
    ensures forall i :: 0 <= i < |s| ==> r <= s[i].totalValue
  {
    if |s| == 1 then s[0].totalValue
    else
      var m := MinValue(s[1..]);
      assert forall i :: 1 <= i < |s| ==> s[i] == s[1..][i - 1];
      if s[0].totalValue <= m then s[0].totalValue else m
  }

  function MaxValue(s: seq<Snapshot>): (r: real)
    requires s != []
    ensures exists i :: 0 <= i < |s| && s[i].totalValue == r
    ensures forall i :: 0 <= i < |s| ==> s[i].totalValue <= r
  {
    if |s| == 1 then s[0].totalValue
    else
      var m := MaxValue(s[1..]);
      assert forall i :: 1 <= i < |s| ==> s[i] == s[1..][i - 1];
      if s[0].totalValue >= m then s[0].totalValue else m
  }

  /** `(end - start) / start * 100`, or 0 when the start value is not positive. */
  function ChangePercent(startValue: real, endValue: real): (r: real)
    ensures startValue <= 0.0 ==> r == 0.0
    ensures startValue > 0.0 ==> r * startValue == (endValue - startValue) * 100.0
    ensures startValue > 0.0 ==> (r > 0.0 <==> endValue > startValue) && (r == 0.0 <==> endValue == startValue)
  {
    if startValue > 0.0 then (endValue - startValue) / startValue * 100.0 else 0.0
  }

  /** `calculate_stats`, without the rounding to two places. */
  function CalculateStats(snaps: seq<Snapshot>): (r: Stats)
    ensures snaps == [] ==> r == Stats(0.0, 0.0, 0.0, 0.0, 0.0)
    ensures snaps != [] ==>
              (forall x :: x in snaps ==> r.minValue <= x.totalValue <= r.maxValue)
              && (exists x :: x in snaps && x.totalValue == r.minValue)
              && (exists x :: x in snaps && x.totalValue == r.maxValue)
              && r.minValue <= r.startValue <= r.maxValue
              && r.minValue <= r.endValue <= r.maxValue
              && r.changePercent == ChangePercent(r.startValue, r.endValue)
  {
    if snaps == [] then Stats(0.0, 0.0, 0.0, 0.0, 0.0)
    else
      var sorted := SortByTimestamp(snaps);
      SortIsSortedPermutation(snaps);
      assert forall x :: x in sorted <==> x in snaps by {
        assert forall x :: x in sorted <==> x in multiset(sorted);
      }
      var startValue := sorted[0].totalValue;
      var endValue := sorted[|sorted| - 1].totalValue;
      var lo := MinValue(sorted);
      var hi := MaxValue(sorted);
      Stats(startValue, endValue, ChangePercent(startValue, endValue), lo, hi)
  }

  lemma SortKeepsMembers(s: seq<Snapshot>)
    ensures forall x :: x in SortByTimestamp(s) <==> x in s
  {
    SortIsSortedPermutation(s);
    assert forall x :: x in SortByTimestamp(s) <==> x in multiset(SortByTimestamp(s));
    assert forall x :: x in s <==> x in multiset(s);
  }

  /** The start and end values are those of an earliest and a latest snapshot. */
  lemma StatsEndpoints(snaps: seq<Snapshot>)
    requires snaps != []
    ensures exists x :: x in snaps && x.totalValue == CalculateStats(snaps).startValue
                        && forall y :: y in snaps ==> x.timestamp <= y.timestamp
    ensures exists x :: x in snaps && x.totalValue == CalculateStats(snaps).endValue
                        && forall y :: y in snaps ==> y.timestamp <= x.timestamp
  {
    var sorted := SortByTimestamp(snaps);
    SortIsSortedPermutation(snaps);
    SortKeepsMembers(snaps);
    var first := sorted[0];
    var last := sorted[|sorted| - 1];
    forall y | y in snaps
      ensures first.timestamp <= y.timestamp <= last.timestamp
    {
      var j :| 0 <= j < |sorted| && sorted[j] == y;
    }
    assert first in snaps && last in snaps;
  }

  /** On a stored (sorted) list the start and end values are the first and the last snapshot's. */
  lemma StatsOfSorted(snaps: seq<Snapshot>)
    requires snaps != [] && Sorted(snaps)
    ensures CalculateStats(snaps).startValue == snaps[0].totalValue
    ensures CalculateStats(snaps).endValue == snaps[|snaps| - 1].totalValue
  {
    SortOfSorted(snaps);
  }

  // ---------- The store ----------

  /** `abs(existing - t) < 30` for some stored timestamp. */
  predicate IsDuplicate(s: seq<Snapshot>, t: real)
  {
    exists i :: 0 <= i < |s| && Abs(s[i].timestamp as real - t) < DUPLICATE_WINDOW
  }

  /** The scan of `add_snapshot` over the stored timestamps. */
  method HasDuplicate(s: seq<Snapshot>, t: real) returns (found: bool)
    ensures found <==> IsDuplicate(s, t)
  {
    var i := 0;
    while i < |s|
      invariant 0 <= i <= |s|
      invariant forall j :: 0 <= j < i ==> Abs(s[j].timestamp as real - t) >= DUPLICATE_WINDOW
    {
      if Abs(s[i].timestamp as real - t) < DUPLICATE_WINDOW {
        return true;
      }
      i := i + 1;
    }
    return false;
  }

  /** Storing `int(t)` instead of `t` keeps a stored timestamp outside the window. */
  lemma TruncKeepsDistance(e: int, t: real)
    requires Abs(e as real - t) >= DUPLICATE_WINDOW
    ensures Abs((e - Trunc(t)) as real) >= DUPLICATE_WINDOW
  {
  }

  lemma NotDuplicateAfterInsert(s: seq<Snapshot>, x: Snapshot, t: real)
    requires !IsDuplicate(s, t) && Abs(x.timestamp as real - t) >= DUPLICATE_WINDOW
    ensures !IsDuplicate(Insert(s, x), t)
  {
    var r := Insert(s, x);
    InsertMembers(s, x);
    forall i | 0 <= i < |r|
      ensures Abs(r[i].timestamp as real - t) >= DUPLICATE_WINDOW
    {
      assert r[i] in r;
      if r[i] != x {
        var j :| 0 <= j < |s| && s[j] == r[i];
      }
    }
  }

  /** The stored record of an accepted add: `int(timestamp)`, and the breakdown only when non-empty. */
  function NewSnapshot(timestamp: real, totalValue: real, usdtBalance: real, assetCount: int,
                       assetsDetail: map<string, AssetDetail>, isBackfilled: bool): (x: Snapshot)
    ensures x.timestamp == Trunc(timestamp) && x.isBackfilled == isBackfilled
    ensures x.assets.Some? <==> |assetsDetail| > 0
  {
    Snapshot(Trunc(timestamp), totalValue, usdtBalance, assetCount, isBackfilled,
             if |assetsDetail| > 0 then Some(assetsDetail) else None)
  }

  /** Appending a non-duplicate and sorting inserts it, and the list stays spaced. */
  lemma AcceptedInsert(s: seq<Snapshot>, x: Snapshot, t: real)
    requires Spaced(s) && !IsDuplicate(s, t) && x.timestamp == Trunc(t)
    ensures SortByTimestamp(s + [x]) == Insert(s, x)
    ensures Spaced(Insert(s, x))
  {
    forall j | 0 <= j < |s|
      ensures Abs((s[j].timestamp - x.timestamp) as real) >= 30.0
    {
      TruncKeepsDistance(s[j].timestamp, t);
    }
    InsertKeepsSpaced(s, x);
    SpacedIsSorted(s);
    AppendThenSort(s, x);
  }

  /** The live-write debounce: backfilled writes always pass. */
  predicate PassesDebounce(isBackfilled: bool, now: real, lastSnapshotTime: real)
  {
    isBackfilled || now - lastSnapshotTime >= MIN_SNAPSHOT_INTERVAL
  }

  function TimestampsOf(s: seq<Snapshot>): set<int>
  {
    set x | x in s :: x.timestamp
  }

  /** The grid points the backfill visits: uncovered points from `int(start)` to `int(end)`, capped. */
  function BackfillPoints(s: seq<Snapshot>, startTime: real, endTime: real, interval: string): seq<int>
  {
    CapPoints(UncoveredGrid(Trunc(startTime), Trunc(endTime), IntervalSeconds(interval), TimestampsOf(s)))
  }

  /** Every visited point is an uncovered grid point, at most 500 of them, at least one interval apart. */
  lemma BackfillPointsShape(s: seq<Snapshot>, startTime: real, endTime: real, interval: string)
    ensures var pts := BackfillPoints(s, startTime, endTime, interval);
            var secs := IntervalSeconds(interval);
            |pts| <= MAX_BACKFILL && Gapped(pts, secs)
            && forall t :: t in pts ==>
                 Trunc(startTime) <= t <= Trunc(endTime) && OnGrid(t, Trunc(startTime), secs)
                 && !Covered(t, TimestampsOf(s), secs)
  {
    var secs := IntervalSeconds(interval);
    var g := UncoveredGrid(Trunc(startTime), Trunc(endTime), secs, TimestampsOf(s));
    UncoveredGridShape(Trunc(startTime), Trunc(endTime), secs, TimestampsOf(s));
    CapPointsShape(g, secs);
    SubsequenceMembers(CapPoints(g), g);
  }

  /** `time.time() - days_to_keep * 86400`. */
  function PruneCutoff(now: real, daysToKeep: int): real
  {
    now - (daysToKeep * SECONDS_PER_DAY) as real
  }

  /** Inserting the snapshot of point `i` leaves the later points free of duplicates. */
  lemma AddedPointKeepsOthersFresh(s: seq<Snapshot>, snap: Snapshot, times: seq<int>, i: nat)
    requires i < |times| && Gapped(times, 30) && snap.timestamp == times[i]
    requires forall j :: i <= j < |times| ==> !IsDuplicate(s, times[j] as real)
    ensures forall j :: i + 1 <= j < |times| ==> !IsDuplicate(Insert(s, snap), times[j] as real)
  {
    forall j | i + 1 <= j < |times|
      ensures !IsDuplicate(Insert(s, snap), times[j] as real)
    {
      NotDuplicateAfterInsert(s, snap, times[j] as real);
    }
  }

  /** A visited point with a positive value adds its snapshot to the attempted ones... */
  lemma BackfillStepAdds(times: seq<int>, i: nat, assets: seq<Holding>, oracle: PriceHistory, v: real)
    requires i < |times| && Valuation(assets, oracle, times[i]) == Some(v) && v > 0.0
    ensures BackfillSnapshots(times[..i + 1], assets, oracle)
            == BackfillSnapshots(times[..i], assets, oracle) + [BackfilledSnapshot(times[i], assets, v)]
  {
    assert times[..i + 1][..i] == times[..i];
  }

  /** ...and any other point adds nothing. */
  lemma BackfillStepSkips(times: seq<int>, i: nat, assets: seq<Holding>, oracle: PriceHistory)
    requires i < |times|
    requires Valuation(assets, oracle, times[i]).None? || Valuation(assets, oracle, times[i]).value <= 0.0
    ensures BackfillSnapshots(times[..i + 1], assets, oracle) == BackfillSnapshots(times[..i], assets, oracle)
  {
    assert times[..i + 1][..i] == times[..i];
  }

  /** `expected_times` as the backfill builds it: the uncovered grid, then the cap. */
  method BackfillTimes(s: seq<Snapshot>, startTime: real, endTime: real, interval: string)
    returns (times: seq<int>)
    ensures times == BackfillPoints(s, startTime, endTime, interval)
  {
    var intervalSeconds := IntervalSeconds(interval);
    var existing := set x | x in s :: x.timestamp;
    times := ExpectedTimes(startTime, endTime, intervalSeconds, existing);
    if |times| > MAX_BACKFILL {
      var step := |times| / MAX_BACKFILL;
      EveryKthLength(times, step, MAX_BACKFILL);
      times := EveryKth(times, step)[..MAX_BACKFILL];
    }
  }

  /** No visited point is a duplicate of a stored snapshot, and they are far enough apart from each other. */
  lemma BackfillPointsAreFresh(s: seq<Snapshot>, startTime: real, endTime: real, interval: string)
    ensures var pts := BackfillPoints(s, startTime, endTime, interval);
            Gapped(pts, 30) && forall j :: 0 <= j < |pts| ==> !IsDuplicate(s, pts[j] as real)
  {
    var pts := BackfillPoints(s, startTime, endTime, interval);
    var secs := IntervalSeconds(interval);
    BackfillPointsShape(s, startTime, endTime, interval);
    forall j | 0 <= j < |pts|
      ensures !IsDuplicate(s, pts[j] as real)
    {
      assert pts[j] in pts;
      forall k | 0 <= k < |s|
        ensures Abs(s[k].timestamp as real - pts[j] as real) >= DUPLICATE_WINDOW
      {
        assert s[k].timestamp in TimestampsOf(s);
      }
    }
  }

  /** The store itself. `client` is the historical price lookup, absent without a client. */
  class PortfolioHistory {
    var snapshots: seq<Snapshot>
    var metadata: Metadata
    var lastSnapshotTime: real
    const client: Option<PriceHistory>

    /** Spaced (hence sorted) snapshots, and metadata that describes them whenever there are any. */
    ghost predicate Valid()
      reads this
    {
      Spaced(snapshots) && (snapshots != [] ==> metadata == MetadataOf(snapshots))
    }

    constructor (client: Option<PriceHistory>)
      ensures Valid()
      ensures snapshots == [] && metadata == EMPTY_METADATA && lastSnapshotTime == 0.0
      ensures this.client == client
    {
      snapshots := [];
      metadata := EMPTY_METADATA;
      lastSnapshotTime := 0.0;
      this.client := client;
    }

    /** `_update_metadata`: recomputes the four fields, and does nothing on an empty list. */
    method UpdateMetadata()
      modifies this
      ensures snapshots == old(snapshots) && lastSnapshotTime == old(lastSnapshotTime)
      ensures metadata == if snapshots != [] then MetadataOf(snapshots) else old(metadata)
    {
      if snapshots != [] {
        metadata := Metadata(Some(MinTimestamp(snapshots)), Some(MaxTimestamp(snapshots)),
                             |snapshots|, CountBackfilled(snapshots));
      }
    }

    /**
     * `add_snapshot`. A live write inside the debounce is refused without any
     * change; one that passes records `now` as the last live time even when the
     * duplicate check then refuses it.
     */
    method AddSnapshot(now: real, timestamp: real, totalValue: real, usdtBalance: real,
                       assetCount: int, assetsDetail: map<string, AssetDetail>, isBackfilled: bool)
      returns (added: bool)
      requires Valid()
      modifies this
      ensures Valid()
      ensures lastSnapshotTime == if !isBackfilled && now - old(lastSnapshotTime) >= MIN_SNAPSHOT_INTERVAL
                                  then now else old(lastSnapshotTime)
      ensures added <==> PassesDebounce(isBackfilled, now, old(lastSnapshotTime))
                         && !IsDuplicate(old(snapshots), timestamp)
      ensures added ==> snapshots == Insert(old(snapshots), NewSnapshot(timestamp, totalValue, usdtBalance,
                                                                       assetCount, assetsDetail, isBackfilled))
      ensures !added ==> snapshots == old(snapshots) && metadata == old(metadata)
    {
      if !isBackfilled {
        if now - lastSnapshotTime < MIN_SNAPSHOT_INTERVAL {
          return false;
        }
        lastSnapshotTime := now;
      }
      var duplicate := HasDuplicate(snapshots, timestamp);
      if duplicate {
        return false;
      }
      var snap := NewSnapshot(timestamp, totalValue, usdtBalance, assetCount, assetsDetail, isBackfilled);
      AcceptedInsert(snapshots, snap, timestamp);
      snapshots := SortByTimestamp(snapshots + [snap]);
      UpdateMetadata();
      added := true;
    }

    /** `get_history`: both bounds inclusive, either may be absent; stored order is kept. */
    function GetHistory(start: Option<real>, end: Option<real>): (r: seq<Snapshot>)
      requires Valid()
      reads this
      ensures forall x :: x in r <==>
                x in snapshots && (start.Some? ==> x.timestamp as real >= start.value)
                               && (end.Some? ==> x.timestamp as real <= end.value)
      ensures IsSubsequence(r, snapshots)
      ensures Spaced(r)
    {
      var afterStart := if start.Some? then AtOrAfter(snapshots, start.value) else snapshots;
      assert Spaced(afterStart) by {
        if start.Some? { AtOrAfterKeepsSpaced(snapshots, start.value); }
      }
      SubsequenceOfSelf(snapshots);
      var r := if end.Some? then AtOrBefore(afterStart, end.value) else afterStart;
      assert Spaced(r) by {
        if end.Some? { AtOrBeforeKeepsSpaced(afterStart, end.value); }
      }
      SubsequenceOfSelf(afterStart);
      SubsequenceTransitive(r, afterStart, snapshots);
      r
    }

    /** `get_latest_snapshot`: in a valid store, the last snapshot. */
    function GetLatestSnapshot(): (r: Option<Snapshot>)
      reads this
      ensures r.None? <==> snapshots == []
      ensures r.Some? ==> r.value in snapshots
                          && forall x :: x in snapshots ==> x.timestamp <= r.value.timestamp
    {
      if snapshots == [] then None
      else
        LatestIsFirstMax(snapshots);
        Latest(snapshots)
    }

    /** `get_range_start_time` with the clock and the local year start as parameters. */
    function GetRangeStartTime(range: string, now: real, yearStart: real): (r: real)
      reads this
      ensures range == "ytd" ==> r == yearStart
      ensures range == "all" && HasFirstSnapshot(metadata) ==> r == metadata.firstSnapshot.value as real
      ensures range == "all" && !HasFirstSnapshot(metadata) ==> r == now - ONE_YEAR_SECONDS as real
      ensures range != "ytd" && range != "all" ==>
                r == now - (if RangeSeconds(range).Some? then RangeSeconds(range).value
                            else DEFAULT_RANGE_SECONDS) as real
      ensures range != "ytd" && !(range == "all" && HasFirstSnapshot(metadata)) ==> r < now
    {
      if range == "ytd" then yearStart
      else if range == "all" then
        (if HasFirstSnapshot(metadata) then metadata.firstSnapshot.value as real
         else now - ONE_YEAR_SECONDS as real)
      else
        now - (match RangeSeconds(range) case Some(n) => n case None => DEFAULT_RANGE_SECONDS) as real
    }

    /**
     * `should_backfill`. The source reads the clock twice: `now` for the range
     * start and `endTime` for the window's end.
     */
    function ShouldBackfill(range: string, now: real, endTime: real, yearStart: real): (r: bool)
      requires Valid()
      reads this
      ensures client.None? ==> !r
      ensures client.Some? ==>
                var start := GetRangeStartTime(range, now, yearStart);
                (r <==> Underfilled(|GetHistory(Some(start), Some(endTime))|, start, endTime,
                                    IntervalSeconds(IntervalForRange(range))))
    {
      if client.None? then false
      else
        var start := GetRangeStartTime(range, now, yearStart);
        var existing := GetHistory(Some(start), Some(endTime));
        var intervalSeconds := IntervalSeconds(IntervalForRange(range));
        (|existing| as real) < (endTime - start) / (intervalSeconds as real) * 0.2
    }

    /**
     * `backfill_history`: visits the capped uncovered grid points in order and
     * adds a backfilled snapshot for each one whose value is positive. Every
     * such add succeeds: grid points are an interval (at least 60 s) apart and
     * at least half an interval away from the snapshots already stored.
     */
    method BackfillHistory(currentAssets: seq<Holding>, startTime: real, endTime: real, interval: string)
      returns (addedCount: nat)
      requires Valid()
      modifies this
      ensures Valid()
      ensures lastSnapshotTime == old(lastSnapshotTime)
      ensures client.None? ==> addedCount == 0 && snapshots == old(snapshots) && metadata == old(metadata)
      ensures client.Some? ==>
                var news := BackfillSnapshots(BackfillPoints(old(snapshots), startTime, endTime, interval),
                                              currentAssets, client.value);
                multiset(snapshots) == multiset(old(snapshots)) + multiset(news) && addedCount == |news|
                && addedCount <= |BackfillPoints(old(snapshots), startTime, endTime, interval)|
      ensures addedCount == 0 ==> snapshots == old(snapshots) && metadata == old(metadata)
    {
      if client.None? {
        return 0;
      }
      var times := BackfillTimes(snapshots, startTime, endTime, interval);
      if |times| == 0 {
        return 0;
      }
      BackfillPointsAreFresh(snapshots, startTime, endTime, interval);
      addedCount := AddBackfilled(times, currentAssets, client.value);
    }

    /**
     * After visiting the first `i` points: the snapshots made for them are
     * `done`, added to `s0`, and the points still to visit are free.
     * The loop and its step take it as the one fact `true == BackfillProgress(..)`,
     * so that each use is not checked conjunct by conjunct.
     */
    ghost predicate BackfillProgress(times: seq<int>, assets: seq<Holding>, oracle: PriceHistory,
                                     s0: seq<Snapshot>, i: nat, done: seq<Snapshot>)
      reads this
    {
      i <= |times| && Valid() && done == BackfillSnapshots(times[..i], assets, oracle)
      && multiset(snapshots) == multiset(s0) + multiset(done)
      && (done == [] ==> snapshots == s0)
      && forall j :: i <= j < |times| ==> !IsDuplicate(snapshots, times[j] as real)
    }

    lemma ProgressStarts(times: seq<int>, assets: seq<Holding>, oracle: PriceHistory)
      requires Valid()
      requires forall j :: 0 <= j < |times| ==> !IsDuplicate(snapshots, times[j] as real)
      ensures BackfillProgress(times, assets, oracle, snapshots, 0, [])
    {
      assert times[..0] == [];
    }

    lemma ProgressEnds(times: seq<int>, assets: seq<Holding>, oracle: PriceHistory,
                       s0: seq<Snapshot>, done: seq<Snapshot>)
      requires true == BackfillProgress(times, assets, oracle, s0, |times|, done)
      ensures Valid() && done == BackfillSnapshots(times, assets, oracle)
      ensures multiset(snapshots) == multiset(s0) + multiset(BackfillSnapshots(times, assets, oracle))
      ensures BackfillSnapshots(times, assets, oracle) == [] ==> snapshots == s0
    {
      assert times[..|times|] == times;
    }

    /** The loop of `backfill_history` over the visited points. */
    method AddBackfilled(times: seq<int>, assets: seq<Holding>, oracle: PriceHistory)
      returns (addedCount: nat)
      requires Valid()
      requires Gapped(times, 30)
      requires forall j :: 0 <= j < |times| ==> !IsDuplicate(snapshots, times[j] as real)
      modifies this
      ensures Valid()
      ensures lastSnapshotTime == old(lastSnapshotTime)
      ensures multiset(snapshots) == multiset(old(snapshots)) + multiset(BackfillSnapshots(times, assets, oracle))
      ensures addedCount == |BackfillSnapshots(times, assets, oracle)|
      ensures addedCount == 0 ==> snapshots == old(snapshots) && metadata == old(metadata)
    {
      var symbols := PairSymbols(assets);
      addedCount := 0;
      ghost var done: seq<Snapshot> := [];
      ProgressStarts(times, assets, oracle);
      for i := 0 to |times|
        invariant true == BackfillProgress(times, assets, oracle, old(snapshots), i, done)
        invariant lastSnapshotTime == old(lastSnapshotTime)
        invariant addedCount == |done|
        invariant addedCount == 0 ==> metadata == old(metadata)
      {
        var added;
        added, done := VisitPoint(times, i, assets, oracle, symbols, old(snapshots), done);
        if added {
          addedCount := addedCount + 1;
        }
      }
      ProgressEnds(times, assets, oracle, old(snapshots), done);
    }

    /**
     * One point of the backfill: value the holdings at that time and add the
     * snapshot if the value is positive. `done` are the snapshots added for
     * the earlier points, on top of `s0`.
     */
    method VisitPoint(times: seq<int>, i: nat, assets: seq<Holding>, oracle: PriceHistory,
                      symbols: seq<string>, ghost s0: seq<Snapshot>, ghost done: seq<Snapshot>)
      returns (added: bool, ghost done': seq<Snapshot>)
      requires i < |times| && Gapped(times, 30) && symbols == PairSymbols(assets)
      requires true == BackfillProgress(times, assets, oracle, s0, i, done)
      modifies this
      ensures BackfillProgress(times, assets, oracle, s0, i + 1, done')
      ensures lastSnapshotTime == old(lastSnapshotTime)
      ensures |done'| == |done| + (if added then 1 else 0)
      ensures !added ==> metadata == old(metadata)
    {
      var t := times[i];
      var prices := oracle(symbols, t);
      var total: real;
      if prices.Some? {
        total := ValueAt(assets, prices.value);
      }
      if prices.None? || total <= 0.0 {
        BackfillStepSkips(times, i, assets, oracle);
        return false, done;
      }
      TruncOfInt(t);
      assert Valuation(assets, oracle, t) == Some(total);
      added := AddSnapshot(lastSnapshotTime, t as real, total, UsdtQuantity(assets), |assets|, map[], true);
      var snap := BackfilledSnapshot(t, assets, total);
      BackfillStepAdds(times, i, assets, oracle, total);
      InsertPermutes(old(snapshots), snap);
      AddedPointKeepsOthersFresh(old(snapshots), snap, times, i);
      done' := done + [snap];
    }

    /**
     * `prune_old_data`: keeps the snapshots at or after `now - days * 86400`, in
     * order. Metadata is recomputed only when something was removed, and not
     * at all when nothing is left.
     */
    method PruneOldData(now: real, daysToKeep: int) returns (removed: int)
      requires Valid()
      modifies this
      ensures Valid()
      ensures snapshots == AtOrAfter(old(snapshots), PruneCutoff(now, daysToKeep))
      ensures removed == |old(snapshots)| - |snapshots|
      ensures metadata == if removed > 0 && snapshots != [] then MetadataOf(snapshots) else old(metadata)
      ensures lastSnapshotTime == old(lastSnapshotTime)
    {
      var cutoff := PruneCutoff(now, daysToKeep);
      var original := snapshots;
      AtOrAfterKeepsSpaced(original, cutoff);
      AtOrAfterLength(original, cutoff);
      var kept := AtOrAfter(original, cutoff);
      snapshots := kept;
      removed := |original| - |kept|;
      if removed > 0 {
        UpdateMetadata();
      }
    }
  }

  /** With a client, an empty store needs a backfill exactly when the window is non-empty. */
  lemma ShouldBackfillEmptyStore(h: PortfolioHistory, range: string, now: real, endTime: real, yearStart: real)
    requires h.client.Some? && h.snapshots == []
    ensures h.ShouldBackfill(range, now, endTime, yearStart) <==> h.GetRangeStartTime(range, now, yearStart) < endTime
  {
    var start := h.GetRangeStartTime(range, now, yearStart);
    var secs := IntervalSeconds(IntervalForRange(range));
    assert |h.GetHistory(Some(start), Some(endTime))| == 0;
    UnderfilledBounds(0, start, endTime, secs);
  }
}
