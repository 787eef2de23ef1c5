/**
 * The server's telemetry store: the append-only sample log, the two ways
 * samples enter it (the POST handler and the inference path), and the
 * windowed summary `computeMetrics` with its nearest-rank percentile.
 *
 * Numeric metric values are modelled as integers (every producer in the
 * system derives them from millisecond clocks or rounds them); the
 * percentile's `p / 100 * (n - 1)` is computed over `real`, exactly.
 */
module Metrics {
  import opened Json

  // ---------------------------------------------------------------------------
  // Sorting: the copy-sort `[...arr].sort((a, b) => a - b)`
  // ---------------------------------------------------------------------------

  predicate SortedAsc(s: seq<int>) {
    forall i, j :: 0 <= i <= j < |s| ==> s[i] <= s[j]
  }

  /** Insert `x` before the first element not below it. */
  function Insert(x: int, s: seq<int>): (r: seq<int>)
    ensures |r| == |s| + 1
  {
    if s == [] then [x]
    else if x <= s[0] then [x] + s
    else [s[0]] + Insert(x, s[1..])
  }

  /** Insertion sort. */
  function Sort(xs: seq<int>): (r: seq<int>)
    ensures |r| == |xs|
  {
    if xs == [] then [] else Insert(xs[0], Sort(xs[1..]))
  }

  lemma TailSorted(s: seq<int>)
    requires SortedAsc(s) && s != []
    ensures SortedAsc(s[1..])
  {
    var t := s[1..];
    forall i, j | 0 <= i <= j < |t| ensures t[i] <= t[j] {
      assert t[i] == s[i + 1] && t[j] == s[j + 1];
    }
  }

  /** Inserting into a sorted list keeps it sorted; the head is the smaller of `x` and the old head. */
  lemma {:induction false} InsertSorted(x: int, s: seq<int>)
    requires SortedAsc(s)
    ensures SortedAsc(Insert(x, s))
    ensures Insert(x, s)[0] == if s != [] && s[0] < x then s[0] else x
  {
    if s != [] && x > s[0] {
      var t := s[1..];
      TailSorted(s);
      InsertSorted(x, t);
      var u := Insert(x, t);
      var r := Insert(x, s);
      assert r == [s[0]] + u;
      assert t != [] ==> s[0] <= t[0];
      forall a, b | 0 <= a <= b < |r| ensures r[a] <= r[b] {
        if a == 0 {
          if b > 0 {
            assert r[b] == u[b - 1];
            assert u[0] <= u[b - 1];
          }
        } else {
          assert r[a] == u[a - 1] && r[b] == u[b - 1];
        }
      }
    }
  }

  /** The sort is ascending. */
  lemma {:induction false} SortSorted(xs: seq<int>)
    ensures SortedAsc(Sort(xs))
  {
    if xs != [] {
      SortSorted(xs[1..]);
      InsertSorted(xs[0], Sort(xs[1..]));
    }
  }

  /** Inserting adds exactly one occurrence of `x`. */
  lemma {:induction false} InsertPermutes(x: int, s: seq<int>)
    ensures multiset(Insert(x, s)) == multiset(s) + multiset{x}
  {
    if s != [] && x > s[0] {
      InsertPermutes(x, s[1..]);
      assert s == [s[0]] + s[1..];
    }
  }

  /** The sort is a permutation of its input. */
  lemma {:induction false} SortPermutes(xs: seq<int>)
    ensures multiset(Sort(xs)) == multiset(xs)
  {
    if xs != [] {
      SortPermutes(xs[1..]);
      InsertPermutes(xs[0], Sort(xs[1..]));
      assert xs == [xs[0]] + xs[1..];
    }
  }

  /** Sorting an already sorted sequence changes nothing. */
  lemma {:induction false} SortOfSorted(xs: seq<int>)
    requires SortedAsc(xs)
    ensures Sort(xs) == xs
  {
    if xs != [] {
      SortOfSorted(xs[1..]);
      assert xs == [xs[0]] + xs[1..];
    }
  }

  // ---------------------------------------------------------------------------
  // Rank counting: the reference definition of a nearest-rank percentile
  // ---------------------------------------------------------------------------

  /** How many elements of `xs` are strictly below `v`. */
  function CountBelow(xs: seq<int>, v: int): (c: nat)
    ensures c <= |xs|
  {
    if xs == [] then 0 else (if xs[0] < v then 1 else 0) + CountBelow(xs[1..], v)
  }

  lemma {:induction false} CountBelowAppend(a: seq<int>, b: seq<int>, v: int)
    ensures CountBelow(a + b, v) == CountBelow(a, v) + CountBelow(b, v)
  {
    if a != [] {
      assert (a + b)[0] == a[0] && (a + b)[1..] == a[1..] + b;
      CountBelowAppend(a[1..], b, v);
    } else {
      assert a + b == b;
    }
  }

  lemma {:induction false} CountBelowInsert(x: int, s: seq<int>, v: int)
    ensures CountBelow(Insert(x, s), v) == CountBelow(s, v) + (if x < v then 1 else 0)
  {
    if s != [] && x > s[0] {
      CountBelowInsert(x, s[1..], v);
      assert ([s[0]] + Insert(x, s[1..]))[1..] == Insert(x, s[1..]);
    }
  }

  /** Sorting does not change how many elements lie below any bound. */
  lemma {:induction false} CountBelowSort(xs: seq<int>, v: int)
    ensures CountBelow(Sort(xs), v) == CountBelow(xs, v)
  {
    if xs != [] {
      CountBelowSort(xs[1..], v);
      CountBelowInsert(xs[0], Sort(xs[1..]), v);
    }
  }

  lemma {:induction false} CountBelowNone(xs: seq<int>, v: int)
    requires forall i :: 0 <= i < |xs| ==> xs[i] >= v
    ensures CountBelow(xs, v) == 0
  {
    if xs != [] { CountBelowNone(xs[1..], v); }
  }

  lemma {:induction false} CountBelowAll(xs: seq<int>, v: int)
    requires forall i :: 0 <= i < |xs| ==> xs[i] < v
    ensures CountBelow(xs, v) == |xs|
  {
    if xs != [] { CountBelowAll(xs[1..], v); }
  }

  lemma {:induction false} CountBelowMonotone(xs: seq<int>, v: int, w: int)
    requires v <= w
    ensures CountBelow(xs, v) <= CountBelow(xs, w)
  {
    if xs != [] { CountBelowMonotone(xs[1..], v, w); }
  }

  /** If fewer elements lie below v than below v + 1, then v occurs. */
  lemma {:induction false} CountGapIsMember(xs: seq<int>, v: int)
    requires CountBelow(xs, v) < CountBelow(xs, v + 1)
    ensures v in xs
  {
    if xs[0] != v {
      CountGapIsMember(xs[1..], v);
    }
  }

  /** In a sorted sequence the element at index k has rank k. */
  lemma {:induction false} SortedRank(s: seq<int>, k: nat)
    requires SortedAsc(s) && k < |s|
    ensures CountBelow(s, s[k]) <= k < CountBelow(s, s[k] + 1)
  {
    if k == 0 {
      CountBelowNone(s, s[0]);
    } else {
      var t := s[1..];
      assert t[k - 1] == s[k];
      assert SortedAsc(t) by {
        forall i, j | 0 <= i <= j < |t| ensures t[i] <= t[j] { assert t[i] == s[i + 1] && t[j] == s[j + 1]; }
      }
      SortedRank(t, k - 1);
    }
  }

  // ---------------------------------------------------------------------------
  // percentile / median / p95
  // ---------------------------------------------------------------------------

  /** `Math.min(n - 1, Math.max(0, Math.floor((p / 100) * (n - 1))))` */
  function PercentileIndex(p: real, n: nat): (i: nat)
    requires n > 0
    ensures i < n
  {
    var raw := ((p / 100.0) * ((n - 1) as real)).Floor;
    if raw < 0 then 0 else if raw > n - 1 then n - 1 else raw
  }

  /**
   * `v` is a nearest-rank p-th percentile of `xs`: exactly the value whose
   * rank range (elements strictly below `v`, up to elements at most `v`)
   * contains the clamped index. `None` exactly for the empty list.
   */
  ghost predicate NearestRank(xs: seq<int>, p: real, r: Option<int>) {
    (r.None? <==> xs == []) &&
    (r.Some? ==> CountBelow(xs, r.value) <= PercentileIndex(p, |xs|) < CountBelow(xs, r.value + 1))
  }

  /** A nearest-rank percentile is an element of the list. */
  lemma NearestRankMember(xs: seq<int>, p: real, r: Option<int>)
    requires NearestRank(xs, p, r) && r.Some?
    ensures r.value in xs
  {
    CountGapIsMember(xs, r.value);
  }

  lemma SortedRankLow(s: seq<int>, k: nat)
    requires SortedAsc(s) && k < |s|
    ensures CountBelow(s, s[k]) <= k
  {
    SortedRank(s, k);
  }

  lemma SortedRankHigh(s: seq<int>, k: nat)
    requires SortedAsc(s) && k < |s|
    ensures k < CountBelow(s, s[k] + 1)
  {
    SortedRank(s, k);
  }

  /** At most i elements of the original lie below the sorted copy's i-th element. */
  lemma SortedPickLow(xs: seq<int>, i: nat)
    requires i < |xs|
    ensures CountBelow(xs, Sort(xs)[i]) <= i
  {
    SortSorted(xs);
    SortedRankLow(Sort(xs), i);
    CountBelowSort(xs, Sort(xs)[i]);
  }

  /** More than i elements of the original are at most the sorted copy's i-th element. */
  lemma SortedPickHigh(xs: seq<int>, i: nat)
    requires i < |xs|
    ensures i < CountBelow(xs, Sort(xs)[i] + 1)
  {
    SortSorted(xs);
    SortedRankHigh(Sort(xs), i);
    CountBelowSort(xs, Sort(xs)[i] + 1);
  }

  /** The element at index i of the sorted copy has rank i in the original. */
  lemma SortedPick(xs: seq<int>, i: nat)
    requires i < |xs|
    ensures CountBelow(xs, Sort(xs)[i]) <= i < CountBelow(xs, Sort(xs)[i] + 1)
  {
    SortedPickLow(xs, i);
    SortedPickHigh(xs, i);
  }

  /** The inner `percentile(arr, p)`. */
  function Percentile(xs: seq<int>, p: real): (r: Option<int>)
    ensures NearestRank(xs, p, r)
  {
    if xs == [] then None
    else
      var i := PercentileIndex(p, |xs|);
      SortedPick(xs, i);
      Some(Sort(xs)[i])
  }

  /** At most one value satisfies the nearest-rank condition. */
  lemma NearestRankUnique(xs: seq<int>, p: real, r1: Option<int>, r2: Option<int>)
    requires NearestRank(xs, p, r1) && NearestRank(xs, p, r2)
    ensures r1 == r2
  {
    if r1.Some? && r2.Some? && r1.value != r2.value {
      if r1.value < r2.value {
        CountBelowMonotone(xs, r1.value + 1, r2.value);
      } else {
        CountBelowMonotone(xs, r2.value + 1, r1.value);
      }
    }
  }

  function Median(xs: seq<int>): (r: Option<int>)
    ensures NearestRank(xs, 50.0, r)
  {
    Percentile(xs, 50.0)
  }

  function P95(xs: seq<int>): (r: Option<int>)
    ensures NearestRank(xs, 95.0, r)
  {
    Percentile(xs, 95.0)
  }

  lemma {:induction false} ScaleMonotone(a: real, b: real, k: nat)
    requires a <= b
    ensures a * (k as real) <= b * (k as real)
  {
    if k > 0 {
      ScaleMonotone(a, b, k - 1);
      assert a * (k as real) == a * ((k - 1) as real) + a;
      assert b * (k as real) == b * ((k - 1) as real) + b;
    }
  }

  lemma FloorMonotone(a: real, b: real)
    requires a <= b
    ensures a.Floor <= b.Floor
  {
  }

  /** The clamped index grows with p. */
  lemma IndexMonotone(p: real, q: real, n: nat)
    requires n > 0 && p <= q
    ensures PercentileIndex(p, n) <= PercentileIndex(q, n)
  {
    ScaleMonotone(p / 100.0, q / 100.0, n - 1);
    FloorMonotone((p / 100.0) * ((n - 1) as real), (q / 100.0) * ((n - 1) as real));
  }

  /** A larger p never selects a smaller element. */
  lemma PercentileMonotone(xs: seq<int>, p: real, q: real)
    requires xs != [] && p <= q
    ensures Percentile(xs, p).value <= Percentile(xs, q).value
  {
    IndexMonotone(p, q, |xs|);
    SortSorted(xs);
  }

  lemma MedianAtMostP95(xs: seq<int>)
    requires xs != []
    ensures Median(xs).value <= P95(xs).value
  {
    PercentileMonotone(xs, 50.0, 95.0);
  }

  lemma {:induction false} NoneBelow(xs: seq<int>, v: int)
    requires CountBelow(xs, v) == 0
    ensures forall i :: 0 <= i < |xs| ==> v <= xs[i]
  {
    if xs != [] { NoneBelow(xs[1..], v); }
  }

  lemma {:induction false} AllBelow(xs: seq<int>, w: int)
    requires CountBelow(xs, w) == |xs|
    ensures forall i :: 0 <= i < |xs| ==> xs[i] < w
  {
    if xs != [] { AllBelow(xs[1..], w); }
  }

  /** p at or below 0 clamps to the first index. */
  lemma IndexLow(p: real, n: nat)
    requires n > 0 && p <= 0.0
    ensures PercentileIndex(p, n) == 0
  {
    ScaleMonotone(p / 100.0, 0.0, n - 1);
    FloorMonotone((p / 100.0) * ((n - 1) as real), 0.0);
  }

  /** p at or above 100 clamps to the last index. */
  lemma IndexHigh(p: real, n: nat)
    requires n > 0 && p >= 100.0
    ensures PercentileIndex(p, n) == n - 1
  {
    var k := (n - 1) as real;
    ScaleMonotone(1.0, p / 100.0, n - 1);
    FloorMonotone(k, (p / 100.0) * k);
  }

  /** The value at the first index is a minimum. */
  lemma RankFirst(xs: seq<int>, p: real, r: Option<int>)
    requires NearestRank(xs, p, r) && r.Some? && PercentileIndex(p, |xs|) == 0
    ensures forall i :: 0 <= i < |xs| ==> r.value <= xs[i]
  {
    NoneBelow(xs, r.value);
  }

  /** The value at the last index is a maximum. */
  lemma RankLast(xs: seq<int>, p: real, r: Option<int>)
    requires NearestRank(xs, p, r) && r.Some? && PercentileIndex(p, |xs|) == |xs| - 1
    ensures forall i :: 0 <= i < |xs| ==> xs[i] <= r.value
  {
    AllBelow(xs, r.value + 1);
  }

  /** A p at or below 0 selects the minimum. */
  lemma PercentileLow(xs: seq<int>, p: real)
    requires xs != [] && p <= 0.0
    ensures forall i :: 0 <= i < |xs| ==> Percentile(xs, p).value <= xs[i]
  {
    IndexLow(p, |xs|);
    RankFirst(xs, p, Percentile(xs, p));
  }

  /** A p at or above 100 selects the maximum. */
  lemma PercentileHigh(xs: seq<int>, p: real)
    requires xs != [] && p >= 100.0
    ensures forall i :: 0 <= i < |xs| ==> xs[i] <= Percentile(xs, p).value
  {
    IndexHigh(p, |xs|);
    RankLast(xs, p, Percentile(xs, p));
  }

  /**
   * Five strictly increasing samples: the p95 index is floor(0.95 * 4) = 3,
   * so `[10, 20, 30, 40, 50]` gives a p95 of 40.
   */
  lemma P95OfFive(a: int, b: int, c: int, d: int, e: int)
    requires a < b < c < d < e
    ensures P95([a, b, c, d, e]) == Some(d)
  {
    var xs := [a, b, c, d, e];
    assert PercentileIndex(95.0, 5) == 3;
    StrictRank(xs, 3);
    NearestRankUnique(xs, 95.0, P95(xs), Some(d));
  }

  /** The median index of five samples is floor(0.5 * 4) = 2. */
  lemma MedianOfFive(a: int, b: int, c: int, d: int, e: int)
    requires a < b < c < d < e
    ensures Median([a, b, c, d, e]) == Some(c)
  {
    var xs := [a, b, c, d, e];
    assert PercentileIndex(50.0, 5) == 2;
    StrictRank(xs, 2);
    NearestRankUnique(xs, 50.0, Median(xs), Some(c));
  }

  /** In a strictly increasing list, exactly k elements lie below its k-th element. */
  lemma {:induction false} StrictRank(xs: seq<int>, k: nat)
    requires k < |xs|
    requires forall i, j :: 0 <= i < j < |xs| ==> xs[i] < xs[j]
    ensures CountBelow(xs, xs[k]) == k && CountBelow(xs, xs[k] + 1) == k + 1
  {
    var t := xs[1..];
    if k == 0 {
      assert forall i :: 0 <= i < |t| ==> t[i] == xs[i + 1] && xs[0] < t[i];
      CountBelowNone(t, xs[0]);
      CountBelowNone(t, xs[0] + 1);
    } else {
      assert t[k - 1] == xs[k] && xs[0] < xs[k];
      StrictRank(t, k - 1);
    }
  }

  // ---------------------------------------------------------------------------
  // The trailing window and the per-field numeric lists
  // ---------------------------------------------------------------------------

  /** `(m.received_at || 0)` */
  function ReceivedAt(m: Props): int {
    match Get(m, "received_at")
    case Some(Num(n)) => n
    case _ => 0
  }

  /** `Date.now() - windowSeconds * 1000` */
  function Cutoff(now: int, windowSeconds: int): int {
    now - windowSeconds * 1000
  }

  /** The samples of the trailing window, in log order. */
  function Window(log: seq<Props>, cutoff: int): (w: seq<Props>)
    ensures |w| <= |log|
    ensures forall m :: m in w <==> m in log && ReceivedAt(m) >= cutoff
  {
    if log == [] then []
    else
      assert forall m :: m in log <==> m == log[0] || m in log[1..];
      (if ReceivedAt(log[0]) >= cutoff then [log[0]] else []) + Window(log[1..], cutoff)
  }

  lemma {:induction false} WindowAppend(a: seq<Props>, b: seq<Props>, cutoff: int)
    ensures Window(a + b, cutoff) == Window(a, cutoff) + Window(b, cutoff)
  {
    if a != [] {
      assert (a + b)[0] == a[0] && (a + b)[1..] == a[1..] + b;
      WindowAppend(a[1..], b, cutoff);
    } else {
      assert a + b == b;
    }
  }

  /** A log whose samples are all recent enough is its own window. */
  lemma {:induction false} WindowKeepsRecent(log: seq<Props>, cutoff: int)
    requires forall i :: 0 <= i < |log| ==> ReceivedAt(log[i]) >= cutoff
    ensures Window(log, cutoff) == log
  {
    if log != [] { WindowKeepsRecent(log[1..], cutoff); }
  }

  /** The values of one field over the samples that carry a number there. */
  function NumericField(samples: seq<Props>, key: string): (vs: seq<int>)
    ensures |vs| <= |samples|
  {
    if samples == [] then []
    else
      (match Get(samples[0], key) case Some(Num(n)) => [n] case _ => [])
        + NumericField(samples[1..], key)
  }

  /** A value is listed exactly when some sample carries that number under the key. */
  lemma {:induction false} NumericFieldMembers(samples: seq<Props>, key: string)
    ensures forall v :: v in NumericField(samples, key) <==> exists m :: m in samples && Get(m, key) == Some(Num(v))
  {
    if samples != [] {
      NumericFieldMembers(samples[1..], key);
      assert forall m :: m in samples <==> m == samples[0] || m in samples[1..];
    }
  }

  lemma {:induction false} NumericFieldAppend(a: seq<Props>, b: seq<Props>, key: string)
    ensures NumericField(a + b, key) == NumericField(a, key) + NumericField(b, key)
  {
    if a != [] {
      assert (a + b)[0] == a[0] && (a + b)[1..] == a[1..] + b;
      NumericFieldAppend(a[1..], b, key);
    } else {
      assert a + b == b;
    }
  }

  /** The number a sample carries under `key`, as a list of zero or one values. */
  function NumberAt(m: Props, key: string): seq<int> {
    match Get(m, key) case Some(Num(n)) => [n] case _ => []
  }

  /** Appending a sample that carries the number n under a key appends n to that key's list. */
  lemma NumericFieldPushNum(log: seq<Props>, m: Props, key: string, n: int)
    requires Get(m, key) == Some(Num(n))
    ensures NumericField(log + [m], key) == NumericField(log, key) + [n]
  {
    NumericFieldPush(log, m, key);
  }

  /** Appending one sample extends each field list by what that sample carries. */
  lemma NumericFieldPush(log: seq<Props>, m: Props, key: string)
    ensures NumericField(log + [m], key) == NumericField(log, key) + NumberAt(m, key)
  {
    NumericFieldAppend(log, [m], key);
    assert [m][1..] == [];
  }

  // ---------------------------------------------------------------------------
  // computeMetrics
  // ---------------------------------------------------------------------------

  datatype Snapshot = Snapshot(
    generatedAt: int,
    windowSeconds: int,
    samples: nat,
    e2eLatencyMedian: Option<int>,
    e2eLatencyP95: Option<int>,
    processedFpsMedian: Option<int>,
    uplinkKbpsMedian: Option<int>,
    downlinkKbpsMedian: Option<int>,
    serverLatencyMedian: Option<int>,
    networkLatencyMedian: Option<int>)

  const E2eKey := "e2e_ms"
  const FpsKey := "fps"
  const UplinkKey := "uplink_kbps"
  const DownlinkKey := "downlink_kbps"
  const ServerLatencyKey := "server_latency_ms"
  const NetworkLatencyKey := "network_latency_ms"
  const ReceivedAtKey := "received_at"

  /**
   * `computeMetrics(windowSeconds)`: the cutoff is taken from the clock
   * reading `now`, and `generated_at` from the later reading `generatedAt`.
   */
  function ComputeMetrics(log: seq<Props>, now: int, generatedAt: int, windowSeconds: int): (r: Snapshot)
    ensures r.generatedAt == generatedAt && r.windowSeconds == windowSeconds
    ensures r.samples == |Window(log, Cutoff(now, windowSeconds))|
    ensures var w := Window(log, Cutoff(now, windowSeconds));
      && NearestRank(NumericField(w, E2eKey), 50.0, r.e2eLatencyMedian)
      && NearestRank(NumericField(w, E2eKey), 95.0, r.e2eLatencyP95)
      && NearestRank(NumericField(w, FpsKey), 50.0, r.processedFpsMedian)
      && NearestRank(NumericField(w, UplinkKey), 50.0, r.uplinkKbpsMedian)
      && NearestRank(NumericField(w, DownlinkKey), 50.0, r.downlinkKbpsMedian)
      && NearestRank(NumericField(w, ServerLatencyKey), 50.0, r.serverLatencyMedian)
      && NearestRank(NumericField(w, NetworkLatencyKey), 50.0, r.networkLatencyMedian)
    ensures r.e2eLatencyMedian.Some? ==> r.e2eLatencyMedian.value <= r.e2eLatencyP95.value
  {
    var w := Window(log, Cutoff(now, windowSeconds));
    var e2e := NumericField(w, E2eKey);
    assert e2e != [] ==> Median(e2e).value <= P95(e2e).value by {
      if e2e != [] { MedianAtMostP95(e2e); }
    }
    Snapshot(
      generatedAt, windowSeconds, |w|,
      Median(e2e), P95(e2e),
      Median(NumericField(w, FpsKey)),
      Median(NumericField(w, UplinkKey)),
      Median(NumericField(w, DownlinkKey)),
      Median(NumericField(w, ServerLatencyKey)),
      Median(NumericField(w, NetworkLatencyKey)))
  }

  // ---------------------------------------------------------------------------
  // How samples enter the log
  // ---------------------------------------------------------------------------

  /** `{ ...s, received_at: now }` for every element of a POSTed `samples` array. */
  function Stamped(items: seq<Value>, now: int): (r: seq<Props>)
    ensures |r| == |items|
    ensures forall i :: 0 <= i < |r| ==> Get(r[i], ReceivedAtKey) == Some(Num(now))
    ensures forall i, k :: 0 <= i < |r| && k != ReceivedAtKey ==> Get(r[i], k) == Get(Spread(items[i]), k)
  {
    if items == [] then []
    else [With(Spread(items[0]), ReceivedAtKey, Num(now))] + Stamped(items[1..], now)
  }

  /** Stamping distributes over concatenation, so it can be done one element at a time. */
  lemma {:induction false} StampedAppend(a: seq<Value>, b: seq<Value>, now: int)
    ensures Stamped(a + b, now) == Stamped(a, now) + Stamped(b, now)
  {
    if a != [] {
      assert (a + b)[0] == a[0] && (a + b)[1..] == a[1..] + b;
      StampedAppend(a[1..], b, now);
    } else {
      assert a + b == b;
    }
  }

  /** Stamping one more element of a list appends that element's stamped copy. */
  lemma StampedPrefix(items: seq<Value>, i: nat, now: int)
    requires i < |items|
    ensures Stamped(items[..i + 1], now) == Stamped(items[..i], now) + [With(Spread(items[i]), ReceivedAtKey, Num(now))]
  {
    assert items[..i + 1] == items[..i] + [items[i]];
    StampedAppend(items[..i], [items[i]], now);
    assert [items[i]][1..] == [];
  }

  /**
   * Every sample carries a numeric `received_at`, so the window's `|| 0`
   * fallback never applies to a sample the server stored.
   */
  ghost predicate LogStamped(log: seq<Props>) {
    forall i :: 0 <= i < |log| ==> Get(log[i], ReceivedAtKey).Some? && Get(log[i], ReceivedAtKey).value.Num?
  }

  /** Stored samples are stamped whichever path appended them. */
  lemma LogStampedAppend(a: seq<Props>, b: seq<Props>)
    requires LogStamped(a) && LogStamped(b)
    ensures LogStamped(a + b)
  {
    forall i | 0 <= i < |a + b|
      ensures Get((a + b)[i], ReceivedAtKey).Some? && Get((a + b)[i], ReceivedAtKey).value.Num?
    {
      if i >= |a| { assert (a + b)[i] == b[i - |a|]; }
    }
  }

  /** Samples stamped at the query instant all fall in any non-negative window. */
  lemma FreshSamplesInWindow(log: seq<Props>, items: seq<Value>, now: int, windowSeconds: int)
    requires windowSeconds >= 0
    ensures Window(log + Stamped(items, now), Cutoff(now, windowSeconds))
         == Window(log, Cutoff(now, windowSeconds)) + Stamped(items, now)
  {
    var cutoff := Cutoff(now, windowSeconds);
    WindowAppend(log, Stamped(items, now), cutoff);
    WindowKeepsRecent(Stamped(items, now), cutoff);
  }

  /** The sample the inference path records after a successful inference. */
  function InferenceSample(start: int, done: int, recorded: int,
                           captureTs: Option<int>, recvTs: Option<int>): (m: Props)
    ensures Get(m, ServerLatencyKey) == Some(Num(done - OrElse(recvTs, start)))
    ensures Get(m, NetworkLatencyKey) == Some(Num(OrElse(recvTs, done) - OrElse(captureTs, done)))
    ensures Get(m, E2eKey) == Some(Null) && Get(m, FpsKey) == Some(Null)
    ensures Get(m, UplinkKey) == Some(Null) && Get(m, DownlinkKey) == Some(Null)
    ensures Get(m, ReceivedAtKey) == Some(Num(recorded)) && ReceivedAt(m) == recorded
  {
    var m := [ (E2eKey, Null),
      (ServerLatencyKey, Num(done - OrElse(recvTs, start))),
      (NetworkLatencyKey, Num(OrElse(recvTs, done) - OrElse(captureTs, done))),
      (FpsKey, Null),
      (UplinkKey, Null),
      (DownlinkKey, Null),
      (ReceivedAtKey, Num(recorded)) ];
    GetAt(m, 0); GetAt(m, 1); GetAt(m, 2); GetAt(m, 3); GetAt(m, 4); GetAt(m, 5); GetAt(m, 6);
    m
  }

  /** An inference sample adds its server latency to that list. */
  lemma InferenceSampleServerLatency(log: seq<Props>, start: int, done: int, recorded: int,
                                     captureTs: Option<int>, recvTs: Option<int>)
    ensures NumericField(log + [InferenceSample(start, done, recorded, captureTs, recvTs)], ServerLatencyKey)
         == NumericField(log, ServerLatencyKey) + [done - OrElse(recvTs, start)]
  {
    NumericFieldPushNum(log, InferenceSample(start, done, recorded, captureTs, recvTs), ServerLatencyKey, done - OrElse(recvTs, start));
  }

  /** An inference sample adds its network latency to that list. */
  lemma InferenceSampleNetworkLatency(log: seq<Props>, start: int, done: int, recorded: int,
                                      captureTs: Option<int>, recvTs: Option<int>)
    ensures NumericField(log + [InferenceSample(start, done, recorded, captureTs, recvTs)], NetworkLatencyKey)
         == NumericField(log, NetworkLatencyKey) + [OrElse(recvTs, done) - OrElse(captureTs, done)]
  {
    NumericFieldPushNum(log, InferenceSample(start, done, recorded, captureTs, recvTs), NetworkLatencyKey, OrElse(recvTs, done) - OrElse(captureTs, done));
  }

  /**
   * An inference sample leaves the e2e, fps and bitrate lists unchanged:
   * its null fields are not numbers, so they are not read as zeros.
   */
  lemma InferenceSampleNulls(log: seq<Props>, start: int, done: int, recorded: int,
                             captureTs: Option<int>, recvTs: Option<int>)
    ensures var m := InferenceSample(start, done, recorded, captureTs, recvTs);
      && NumericField(log + [m], E2eKey) == NumericField(log, E2eKey)
      && NumericField(log + [m], FpsKey) == NumericField(log, FpsKey)
      && NumericField(log + [m], UplinkKey) == NumericField(log, UplinkKey)
      && NumericField(log + [m], DownlinkKey) == NumericField(log, DownlinkKey)
  {
    var m := InferenceSample(start, done, recorded, captureTs, recvTs);
    NumericFieldPush(log, m, E2eKey);
    NumericFieldPush(log, m, FpsKey);
    NumericFieldPush(log, m, UplinkKey);
    NumericFieldPush(log, m, DownlinkKey);
  }
}
