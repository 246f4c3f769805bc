/** Rollups agree with the snapshots they stand for. */
module RollupRuns {
  import opened Filtering
  import opened Greedy
  import opened Sorting
  import opened Floors
  import opened Rollups

  // ---------------------------------------------------------------------------------------------
  // Buckets
  // ---------------------------------------------------------------------------------------------

  lemma {:induction false} MinutesDropped5(time: int)
    ensures var minutes := time / MINUTE % 60;
      time - time % MINUTE - (minutes - minutes / 5 * 5) * MINUTE == time - time % (5 * MINUTE)
  {
    var hours, minutes := time / MINUTE / 60, time / MINUTE % 60;
    FloorUnique(time, 5 * MINUTE, 12 * hours + minutes / 5);
  }

  lemma {:induction false} MinutesDropped15(time: int)
    ensures var minutes := time / MINUTE % 60;
      time - time % MINUTE - (minutes - minutes / 15 * 15) * MINUTE == time - time % (15 * MINUTE)
  {
    var hours, minutes := time / MINUTE / 60, time / MINUTE % 60;
    FloorUnique(time, 15 * MINUTE, 4 * hours + minutes / 15);
  }

  lemma {:induction false} MinutesDropped60(time: int)
    ensures time - time % MINUTE - time / MINUTE % 60 * MINUTE == time - time % (60 * MINUTE)
  {
    FloorUnique(time, 60 * MINUTE, time / MINUTE / 60);
  }

  lemma {:induction false} HoursDropped(time: int)
    ensures var minutes := time / MINUTE;
      time - time % MINUTE - minutes % 60 * MINUTE - (minutes / 60) % 24 * 60 * MINUTE == time - time % (24 * 60 * MINUTE)
  {
    var minutes := time / MINUTE;
    assert minutes - minutes % 60 - (minutes / 60) % 24 * 60 == minutes / 1440 * 1440;
    FloorUnique(time, 24 * 60 * MINUTE, minutes / 1440);
  }

  lemma {:induction false} BaseParts(time: int)
    ensures var base := time - time % MINUTE;
      base / MINUTE == time / MINUTE && base / (60 * MINUTE) == time / MINUTE / 60
  {
    var minutes := time / MINUTE;
    DivUnique(minutes * MINUTE, MINUTE, minutes, 0);
    DivUnique(minutes * MINUTE, 60 * MINUTE, minutes / 60, minutes % 60 * MINUTE);
  }

  /** Every bucket start is the last multiple of the bucket's length. */
  lemma {:induction false} BucketStartIsFloor(time: int, b: Bucket)
    ensures BucketStart(time, b) == time - time % Duration(b)
  {
    BaseParts(time);
    match b
    case M1 =>
    case M5 => MinutesDropped5(time);
    case M15 => MinutesDropped15(time);
    case H1 => MinutesDropped60(time);
    case D1 => HoursDropped(time);
  }

  /** The buckets of one size partition time: each instant lies in the one that starts where it should. */
  lemma {:induction false} BucketsPartition(time: int, start: int, b: Bucket)
    requires start % Duration(b) == 0
    ensures start <= time < start + Duration(b) <==> BucketStart(time, b) == start
  {
    BucketStartIsFloor(time, b);
    FloorIsMultiple(time, Duration(b));
    FloorIsMultiple(start, Duration(b));
    if start <= time < start + Duration(b) {
      FloorUnique(time, Duration(b), start / Duration(b));
    }
  }

  /** Buckets nest: a bucket lies within the one of any longer size that holds its start. */
  lemma {:induction false} BucketsNest(time: int, small: Bucket, large: Bucket)
    requires Duration(small) <= Duration(large)
    ensures BucketStart(time, large) <= BucketStart(time, small)
    ensures BucketStart(time, small) + Duration(small) <= BucketStart(time, large) + Duration(large)
    ensures BucketStart(BucketStart(time, small), large) == BucketStart(time, large)
  {
    BucketStartIsFloor(time, small);
    BucketStartIsFloor(time, large);
    BucketStartIsFloor(BucketStart(time, small), large);
    var k := Multiple(small, large);
    FloorsNest(time, Duration(small), k);
  }

  lemma {:induction false} Multiple(small: Bucket, large: Bucket) returns (k: int)
    requires Duration(small) <= Duration(large)
    ensures 0 < k && Duration(large) == k * Duration(small)
  {
    k := Duration(large) / Duration(small);
  }

  // ---------------------------------------------------------------------------------------------
  // Rollups and snapshots
  // ---------------------------------------------------------------------------------------------

  function In(store: Store, k: Key): seq<Snapshot> {
    Selected(store.snapshots, k.name, k.start, k.start + Duration(k.bucket))
  }

  /** A stored rollup stands for exactly the snapshots of its interval. */
  predicate Exact(store: Store, k: Key) {
    && k in store.rollups && In(store, k) != []
    && store.rollups[k] == Rollup(Fold(ModeOf(k.name), In(store, k)), k.start + Duration(k.bucket))
  }

  /** The bucket of size `b` in which a metric's snapshot at `time` falls. */
  function KeyAt(b: Bucket, name: string, time: int): Key { Key(b, name, BucketStart(time, b)) }

  predicate SameAt(a: Store, b: Store, k: Key) {
    (k in a.rollups <==> k in b.rollups) && (k in a.rollups ==> a.rollups[k] == b.rollups[k])
  }

  lemma {:induction false} InAfterCapture(store: Store, m: Metric, now: int, k: Key)
    ensures In(Captured(store, m, now), k)
         == In(store, k) + (if m.name == k.name && k.start <= now < k.start + Duration(k.bucket)
             then [Snapshot(m.name, m.value, now)] else [])
  {
    var p := During(k.name, k.start, k.start + Duration(k.bucket));
    var last := [Snapshot(m.name, m.value, now)];
    FilterConcat(p, store.snapshots, last);
    FilterFirst(p, last);
    FilterEmpty(p);
    assert last[1..] == [];
  }

  /** What the snapshots of a tick add to an interval: the metrics of that name, if now is within it. */
  lemma {:induction false} CaptureLeavesOthers(store: Store, metrics: seq<Metric>, now: int, writes: nat, k: Key)
    requires writes <= 6 * |metrics|
    requires k.start % Duration(k.bucket) == 0
    requires BucketStart(now, k.bucket) != k.start || forall m <- metrics :: m.name != k.name
    ensures In(Ticked(store, metrics, now, writes), k) == In(store, k)
    ensures SameAt(store, Ticked(store, metrics, now, writes), k)
    decreases writes
  {
    hide In, Upserted, BucketStart;
    if writes > 0 {
      CaptureLeavesOthers(store, metrics, now, writes - 1, k);
      var before := Ticked(store, metrics, now, writes - 1);
      var i := writes - 1;
      if i < |metrics| {
        assert metrics[i] in metrics;
        InAfterCapture(before, metrics[i], now, k);
        BucketsPartition(now, k.start, k.bucket);
      } else {
        var j := (i - |metrics|) / 5;
        assert metrics[j] in metrics;
        UpsertLeavesOthers(before, metrics[j].name, BUCKETS[(i - |metrics|) % 5], now, k);
      }
    }
  }

  lemma {:induction false} UpsertLeavesOthers(store: Store, name: string, b: Bucket, now: int, k: Key)
    ensures Upserted(store, name, b, now).snapshots == store.snapshots
    ensures In(Upserted(store, name, b, now), k) == In(store, k)
    ensures k != KeyAt(b, name, now) ==> SameAt(store, Upserted(store, name, b, now), k)
  {
  }

  /** Recomputing a bucket that holds a snapshot makes its rollup exact. */
  lemma {:induction false} UpsertIsExact(store: Store, name: string, b: Bucket, now: int)
    requires In(store, KeyAt(b, name, now)) != []
    ensures Exact(Upserted(store, name, b, now), KeyAt(b, name, now))
  {
  }

  /** The rollup that write number `c` of a tick recomputes. */
  function Recomputed(metrics: seq<Metric>, now: int, c: nat): Key
    requires |metrics| <= c < 6 * |metrics|
  {
    KeyAt(BUCKETS[(c - |metrics|) % 5], metrics[(c - |metrics|) / 5].name, now)
  }

  /** After the snapshots of a tick are in, they stay, and each recomputed rollup stays exact. */
  lemma {:induction false} TickProgress(store: Store, metrics: seq<Metric>, now: int, writes: nat)
    requires |metrics| <= writes <= 6 * |metrics|
    ensures var t := Ticked(store, metrics, now, writes);
      && t.snapshots == Ticked(store, metrics, now, |metrics|).snapshots
      && forall c | |metrics| <= c < writes :: Exact(t, Recomputed(metrics, now, c))
    decreases writes
  {
    hide Exact, Recomputed, Ticked;
    if writes > |metrics| {
      TickProgress(store, metrics, now, writes - 1);
      RecomputeStep(store, metrics, now, writes - 1);
      var before, t := Ticked(store, metrics, now, writes - 1), Ticked(store, metrics, now, writes);
      forall c | |metrics| <= c < writes ensures Exact(t, Recomputed(metrics, now, c)) {
        if Recomputed(metrics, now, c) != Recomputed(metrics, now, writes - 1) {
          ExactCarries(before, t, Recomputed(metrics, now, c));
        }
      }
    }
  }

  lemma {:induction false} RecomputeStep(store: Store, metrics: seq<Metric>, now: int, c: nat)
    requires |metrics| <= c < 6 * |metrics|
    requires Ticked(store, metrics, now, c).snapshots == Ticked(store, metrics, now, |metrics|).snapshots
    ensures var before, t := Ticked(store, metrics, now, c), Ticked(store, metrics, now, c + 1);
      && t.snapshots == before.snapshots
      && Exact(t, Recomputed(metrics, now, c))
      && forall k | k != Recomputed(metrics, now, c) :: In(t, k) == In(before, k) && SameAt(before, t, k)
  {
    hide Exact, In, SameAt, KeyAt, Upserted;
    var before := Ticked(store, metrics, now, c);
    var i, b := (c - |metrics|) / 5, BUCKETS[(c - |metrics|) % 5];
    assert Ticked(store, metrics, now, c + 1) == Upserted(before, metrics[i].name, b, now);
    SnapshotsAreIn(store, metrics, now, i, b);
    InDependsOnSnapshots(before, Ticked(store, metrics, now, |metrics|), KeyAt(b, metrics[i].name, now));
    UpsertIsExact(before, metrics[i].name, b, now);
    forall k: Key
      ensures In(Upserted(before, metrics[i].name, b, now), k) == In(before, k)
      ensures k != KeyAt(b, metrics[i].name, now) ==> SameAt(before, Upserted(before, metrics[i].name, b, now), k)
      ensures Upserted(before, metrics[i].name, b, now).snapshots == before.snapshots
    {
      UpsertLeavesOthers(before, metrics[i].name, b, now, k);
    }
    UpsertLeavesOthers(before, metrics[i].name, b, now, KeyAt(b, metrics[i].name, now));
  }

  lemma {:induction false} InDependsOnSnapshots(a: Store, b: Store, k: Key)
    requires a.snapshots == b.snapshots
    ensures In(a, k) == In(b, k)
  {
  }

  lemma {:induction false} ExactCarries(a: Store, b: Store, k: Key)
    requires Exact(a, k) && In(b, k) == In(a, k) && SameAt(a, b, k)
    ensures Exact(b, k)
  {
  }

  /** Once its snapshot is captured, a metric's current buckets are not empty. */
  lemma {:induction false} SnapshotsAreIn(store: Store, metrics: seq<Metric>, now: int, i: nat, b: Bucket)
    requires i < |metrics|
    ensures In(Ticked(store, metrics, now, |metrics|), KeyAt(b, metrics[i].name, now)) != []
  {
    var k := KeyAt(b, metrics[i].name, now);
    CapturedSnapshots(store, metrics, now, |metrics|);
    var t := Ticked(store, metrics, now, |metrics|);
    var s := Snapshot(metrics[i].name, metrics[i].value, now);
    assert t.snapshots[|store.snapshots| + i] == s;
    BucketStartIsFloor(now, b);
    FilterIn(During(k.name, k.start, k.start + Duration(b)), t.snapshots, s);
  }

  lemma {:induction false} CapturedSnapshots(store: Store, metrics: seq<Metric>, now: int, n: nat)
    requires n <= |metrics|
    ensures var t := Ticked(store, metrics, now, n);
      && |t.snapshots| == |store.snapshots| + n
      && t.snapshots[..|store.snapshots|] == store.snapshots
      && (forall i | 0 <= i < n :: t.snapshots[|store.snapshots| + i] == Snapshot(metrics[i].name, metrics[i].value, now))
      && t.rollups == store.rollups
    decreases n
  {
    if n > 0 {
      CapturedSnapshots(store, metrics, now, n - 1);
    }
  }

  /** The write of a tick that recomputes the rollup of metric number `i` in bucket `b`. */
  function RecomputeNumber(metrics: seq<Metric>, i: nat, b: Bucket): (c: nat)
    requires i < |metrics|
    ensures |metrics| <= c < 6 * |metrics|
  {
    |metrics| + 5 * i + match b case M1 => 0 case M5 => 1 case M15 => 2 case H1 => 3 case D1 => 4
  }

  lemma {:induction false} RecomputedBy(metrics: seq<Metric>, now: int, i: nat, b: Bucket)
    requires i < |metrics|
    ensures var c := RecomputeNumber(metrics, i, b);
      && (c - |metrics|) / 5 == i && BUCKETS[(c - |metrics|) % 5] == b
      && Recomputed(metrics, now, c) == KeyAt(b, metrics[i].name, now)
  {
    var j := RecomputeNumber(metrics, i, b) - |metrics| - 5 * i;
    assert (5 * i + j) / 5 == i && (5 * i + j) % 5 == j && BUCKETS[j] == b;
  }

  /**
   * A tick that completes makes every rollup of its metrics exact in every bucket that holds now,
   * whatever state earlier ticks that failed half-way left behind.
   */
  lemma {:induction false} CompleteTickHeals(store: Store, metrics: seq<Metric>, now: int, m: Metric, b: Bucket)
    requires m in metrics
    ensures Exact(Ticked(store, metrics, now, 6 * |metrics|), KeyAt(b, m.name, now))
  {
    TickProgress(store, metrics, now, 6 * |metrics|);
    var i :| 0 <= i < |metrics| && metrics[i] == m;
    var c := RecomputeNumber(metrics, i, b);
    hide Exact, Ticked, KeyAt;
    RecomputedBy(metrics, now, i, b);
  }

  datatype Tick = Tick(metrics: seq<Metric>, now: int, writes: nat)

  predicate Possible(t: Tick) { t.writes <= 6 * |t.metrics| }

  predicate Complete(t: Tick) { t.writes == 6 * |t.metrics| }

  function Run(store: Store, ticks: seq<Tick>): Store
    requires forall t <- ticks :: Possible(t)
    decreases |ticks|
  {
    if ticks == [] then store
    else
      assert ticks[0] in ticks && Possible(ticks[0]);
      Run(Ticked(store, ticks[0].metrics, ticks[0].now, ticks[0].writes), ticks[1..])
  }

  /** Ticks outside a rollup's interval leave it and its snapshots alone. */
  lemma {:induction false} LaterTicksLeave(store: Store, ticks: seq<Tick>, k: Key)
    requires (forall t <- ticks :: Possible(t) && BucketStart(t.now, k.bucket) != k.start)
    requires k.start % Duration(k.bucket) == 0 && Exact(store, k)
    ensures Exact(Run(store, ticks), k)
    decreases |ticks|
  {
    hide Ticked, In, BucketStart, Exact;
    if ticks != [] {
      var t := ticks[0];
      assert t in ticks;
      var next := Ticked(store, t.metrics, t.now, t.writes);
      CaptureLeavesOthers(store, t.metrics, t.now, t.writes, k);
      ExactCarries(store, next, k);
      LaterTicksLeave(next, ticks[1..], k);
    }
  }

  lemma {:induction false} RunConcat(store: Store, a: seq<Tick>, b: seq<Tick>)
    requires (forall t <- a :: Possible(t)) && (forall t <- b :: Possible(t))
    ensures forall t <- a + b :: Possible(t)
    ensures Run(store, a + b) == Run(Run(store, a), b)
    decreases |a|
  {
    if a == [] {
      assert a + b == b;
    } else {
      assert a[0] in a && Possible(a[0]);
      RunConcat(Ticked(store, a[0].metrics, a[0].now, a[0].writes), a[1..], b);
      assert (a + b)[1..] == a[1..] + b;
    }
  }

  /**
   * In any run, with failed ticks anywhere, a metric's rollup is exact at the end if the last tick
   * in its bucket completed and captured the metric.
   */
  lemma {:induction false} LastTickDecides(store: Store, before: seq<Tick>, last: Tick, after: seq<Tick>,
      m: Metric, b: Bucket)
    requires (forall t <- before :: Possible(t)) && Complete(last) && m in last.metrics
    requires forall t <- after :: Possible(t) && BucketStart(t.now, b) != BucketStart(last.now, b)
    ensures forall t <- before + [last] + after :: Possible(t)
    ensures Exact(Run(store, before + [last] + after), KeyAt(b, m.name, last.now))
  {
    hide BucketStart, Exact;
    RunConcat(store, before, [last]);
    RunConcat(store, before + [last], after);
    var s := Run(store, before);
    assert [last][1..] == [];
    CompleteTickHeals(s, last.metrics, last.now, m, b);
    StartIsAligned(last.now, b);
    LaterTicksLeave(Ticked(s, last.metrics, last.now, last.writes), after, KeyAt(b, m.name, last.now));
  }

  lemma {:induction false} StartIsAligned(time: int, b: Bucket)
    ensures BucketStart(time, b) % Duration(b) == 0
  {
    BucketStartIsFloor(time, b);
    FloorIsMultiple(time, Duration(b));
  }

  predicate Distinct(metrics: seq<Metric>) { forall i, j | 0 <= i < j < |metrics| :: metrics[i].name != metrics[j].name }

  /** The recomputations before a rollup's own leave it alone. */
  lemma {:induction false} OthersFirst(metrics: seq<Metric>, now: int, i: nat, b: Bucket, c: nat)
    requires Distinct(metrics) && i < |metrics| && |metrics| <= c < RecomputeNumber(metrics, i, b)
    ensures KeyAt(b, metrics[i].name, now) != Recomputed(metrics, now, c)
  {
    var d := c - |metrics|;
    if d / 5 == i {
      assert d % 5 < RecomputeNumber(metrics, i, b) - |metrics| - 5 * i;
    } else {
      assert d / 5 < i;
    }
  }

  /** Until a rollup is recomputed, its snapshots gain that of its metric and the rollup stays. */
  lemma {:induction false} UntilRecomputed(store: Store, metrics: seq<Metric>, now: int, writes: nat, i: nat, b: Bucket)
    requires Distinct(metrics) && i < |metrics| && writes <= RecomputeNumber(metrics, i, b)
    ensures var k := KeyAt(b, metrics[i].name, now);
      var t := Ticked(store, metrics, now, writes);
      && In(t, k) == In(store, k) + (if i < writes then [Snapshot(metrics[i].name, metrics[i].value, now)] else [])
      && SameAt(store, t, k)
    decreases writes
  {
    hide In, Upserted, BucketStart, RecomputeNumber, Ticked, Distinct;
    var k := KeyAt(b, metrics[i].name, now);
    assert Ticked(store, metrics, now, 0) == store by {
      TickBegins(store, metrics, now);
    }
    if writes > 0 {
      var c := writes - 1;
      var before := Ticked(store, metrics, now, c);
      UntilRecomputed(store, metrics, now, c, i, b);
      if c < |metrics| {
        WriteCaptures(store, metrics, now, c);
        InAfterCapture(before, metrics[c], now, k);
        BucketStartIsFloor(now, b);
        OnlyNamesake(metrics, c, i);
      } else {
        OthersFirst(metrics, now, i, b, c);
        TickRecomputes(store, metrics, now, c);
        UpsertLeavesOthers(before, metrics[(c - |metrics|) / 5].name, BUCKETS[(c - |metrics|) % 5], now, k);
      }
    }
  }

  lemma {:induction false} TickBegins(store: Store, metrics: seq<Metric>, now: int)
    ensures Ticked(store, metrics, now, 0) == store
  {
  }

  lemma {:induction false} TickRecomputes(store: Store, metrics: seq<Metric>, now: int, c: nat)
    requires |metrics| <= c < 6 * |metrics|
    ensures var name := metrics[(c - |metrics|) / 5].name;
      Ticked(store, metrics, now, c + 1)
      == Upserted(Ticked(store, metrics, now, c), name, BUCKETS[(c - |metrics|) % 5], now)
  {
    hide Upserted;
  }

  lemma {:induction false} OnlyNamesake(metrics: seq<Metric>, i: nat, j: nat)
    requires Distinct(metrics) && i < |metrics| && j < |metrics|
    ensures metrics[i].name == metrics[j].name <==> i == j
  {
  }

  /** One more snapshot leaves the aggregate as it is. */
  predicate AddsNothing(mode: Mode, value: real, aggregate: real) {
    if mode == SUM then value == 0.0 else value == aggregate
  }

  lemma {:induction false} FoldOneMore(mode: Mode, ss: seq<Snapshot>, s: Snapshot)
    requires ss != []
    ensures Fold(mode, ss + [s]) == Fold(mode, ss) <==> AddsNothing(mode, s.value, Fold(mode, ss))
  {
    SumLast(Map(Reading(), ss + [s]));
    assert Map(Reading(), ss + [s])[..|ss|] == Map(Reading(), ss);
    var n, sum := |ss| as real, Sum(Map(Reading(), ss));
    hide Sum;
    assert |ss + [s]| as real == n + 1.0;
    MeanOneMore(n, sum, s.value);
  }

  lemma {:induction false} MeanOneMore(n: real, sum: real, value: real)
    requires n > 0.0
    ensures (sum + value) / (n + 1.0) == sum / n <==> value == sum / n
  {
    var mean, next := sum / n, (sum + value) / (n + 1.0);
    assert mean * n == sum && next * (n + 1.0) == sum + value;
    assert (next - mean) * (n + 1.0) == value - mean;
  }

  /**
   * A tick that fails at any point leaves a rollup that was exact exact precisely if the metric's
   * snapshot was not yet written, the rollup was already recomputed, or the snapshot adds nothing:
   * zero for a summed metric, the stored mean for an averaged one.
   */
  lemma {:induction false} HalfTickExactIff(store: Store, metrics: seq<Metric>, now: int, writes: nat, i: nat, b: Bucket)
    requires Distinct(metrics) && i < |metrics| && writes <= 6 * |metrics|
    requires Exact(store, KeyAt(b, metrics[i].name, now))
    ensures var k := KeyAt(b, metrics[i].name, now);
      Exact(Ticked(store, metrics, now, writes), k)
      <==> writes <= i || writes > RecomputeNumber(metrics, i, b)
           || AddsNothing(ModeOf(k.name), metrics[i].value, store.rollups[k].value)
  {
    var k := KeyAt(b, metrics[i].name, now);
    assert k.name == metrics[i].name;
    hide In, Ticked, KeyAt, RecomputeNumber, Distinct, AddsNothing, Fold, ModeOf, Recomputed;
    if writes > RecomputeNumber(metrics, i, b) {
      TickProgress(store, metrics, now, writes);
      RecomputedBy(metrics, now, i, b);
      assert Exact(Ticked(store, metrics, now, writes), Recomputed(metrics, now, RecomputeNumber(metrics, i, b)));
    } else {
      UntilRecomputed(store, metrics, now, writes, i, b);
      FoldOneMore(ModeOf(k.name), In(store, k), Snapshot(metrics[i].name, metrics[i].value, now));
      assert In(store, k) + [] == In(store, k);
    }
  }

  // ---------------------------------------------------------------------------------------------
  // Runs without failures
  // ---------------------------------------------------------------------------------------------

  /** Every stored rollup is exact, and every snapshot is counted in a stored rollup of every size. */
  ghost predicate Agrees(store: Store) {
    && (forall k <- store.rollups :: k.start % Duration(k.bucket) == 0 && Exact(store, k))
    && (forall s <- store.snapshots, b: Bucket :: KeyAt(b, s.name, s.at) in store.rollups)
  }

  predicate Named(metrics: seq<Metric>, name: string) { exists m <- metrics :: m.name == name }

  /** A tick writes rollups for its own metrics at its own time only, and never drops one. */
  lemma {:induction false} TickKeys(store: Store, metrics: seq<Metric>, now: int, writes: nat)
    requires writes <= 6 * |metrics|
    ensures var t := Ticked(store, metrics, now, writes);
      && (forall k <- store.rollups :: k in t.rollups)
      && (forall k <- t.rollups :: k in store.rollups || (k.start == BucketStart(now, k.bucket) && Named(metrics, k.name)))
    decreases writes
  {
    hide BucketStart, Selected;
    if writes > 0 {
      TickKeys(store, metrics, now, writes - 1);
      var i := writes - 1;
      if i >= |metrics| {
        assert metrics[(i - |metrics|) / 5] in metrics;
      }
    }
  }

  lemma {:induction false} TickSnapshots(store: Store, metrics: seq<Metric>, now: int)
    ensures var t := Ticked(store, metrics, now, 6 * |metrics|);
      forall s <- t.snapshots :: s in store.snapshots || (s.at == now && exists m <- metrics :: m.name == s.name)
  {
    hide Ticked, Exact, Recomputed, KeyAt;
    TickProgress(store, metrics, now, 6 * |metrics|);
    CapturedSnapshots(store, metrics, now, |metrics|);
    var t := Ticked(store, metrics, now, |metrics|);
    var n := |store.snapshots|;
    forall s | s in t.snapshots ensures s in store.snapshots || (s.at == now && exists m <- metrics :: m.name == s.name) {
      var i :| 0 <= i < |t.snapshots| && t.snapshots[i] == s;
      if i < n {
        assert t.snapshots[..n][i] == s;
      } else {
        assert t.snapshots[n + (i - n)] == s && metrics[i - n] in metrics;
      }
    }
  }

  lemma {:induction false} CompleteTickAgrees(store: Store, metrics: seq<Metric>, now: int)
    requires Agrees(store)
    ensures Agrees(Ticked(store, metrics, now, 6 * |metrics|))
  {
    var t := Ticked(store, metrics, now, 6 * |metrics|);
    TickKeys(store, metrics, now, 6 * |metrics|);
    TickSnapshots(store, metrics, now);
    hide Ticked, Exact, In, BucketStart;
    forall k | k in t.rollups ensures k.start % Duration(k.bucket) == 0 && Exact(t, k) {
      if k.start == BucketStart(now, k.bucket) && Named(metrics, k.name) {
        StartIsAligned(now, k.bucket);
        var m :| m in metrics && m.name == k.name;
        CompleteTickHeals(store, metrics, now, m, k.bucket);
      } else {
        CaptureLeavesOthers(store, metrics, now, 6 * |metrics|, k);
        ExactCarries(store, t, k);
      }
    }
    forall s, b: Bucket | s in t.snapshots ensures KeyAt(b, s.name, s.at) in t.rollups {
      if s !in store.snapshots {
        var m :| m in metrics && m.name == s.name;
        CompleteTickHeals(store, metrics, now, m, b);
        ExactIsStored(t, KeyAt(b, s.name, now));
      }
    }
  }

  lemma {:induction false} ExactIsStored(store: Store, k: Key)
    requires Exact(store, k)
    ensures k in store.rollups
  {
  }

  /** After any sequence of complete ticks, at any times, rollups and snapshots agree. */
  lemma {:induction false} EveryRunAgrees(store: Store, ticks: seq<Tick>)
    requires Agrees(store) && forall t <- ticks :: Complete(t)
    ensures forall t <- ticks :: Possible(t)
    ensures Agrees(Run(store, ticks))
    decreases |ticks|
  {
    hide Agrees, Ticked;
    assert forall t <- ticks :: Possible(t);
    if ticks != [] {
      assert ticks[0] in ticks;
      CompleteTickAgrees(store, ticks[0].metrics, ticks[0].now);
      EveryRunAgrees(Ticked(store, ticks[0].metrics, ticks[0].now, ticks[0].writes), ticks[1..]);
    }
  }

  // ---------------------------------------------------------------------------------------------
  // Larger buckets against minutes
  // ---------------------------------------------------------------------------------------------

  function SumIn(snapshots: seq<Snapshot>, name: string, from: int, to: int): real {
    Sum(Map(Reading(), Selected(snapshots, name, from, to)))
  }

  /** The minute rollup of a metric, or nothing. */
  function MinuteValue(store: Store, name: string, start: int): real {
    if Key(M1, name, start) in store.rollups then store.rollups[Key(M1, name, start)].value else 0.0
  }

  function SumOfMinutes(store: Store, name: string, start: int, n: nat): real {
    if n == 0 then 0.0 else SumOfMinutes(store, name, start, n - 1) + MinuteValue(store, name, start + (n - 1) * MINUTE)
  }

  lemma {:induction false} SumInSplits(snapshots: seq<Snapshot>, name: string, from: int, middle: int, to: int)
    requires from <= middle <= to
    ensures SumIn(snapshots, name, from, to) == SumIn(snapshots, name, from, middle) + SumIn(snapshots, name, middle, to)
  {
    if snapshots != [] {
      SumInSplits(snapshots[1..], name, from, middle, to);
      SumInFirst(snapshots, name, from, to);
      SumInFirst(snapshots, name, from, middle);
      SumInFirst(snapshots, name, middle, to);
    }
  }

  lemma {:induction false} SumInFirst(snapshots: seq<Snapshot>, name: string, from: int, to: int)
    requires snapshots != []
    ensures SumIn(snapshots, name, from, to)
         == (if snapshots[0].name == name && from <= snapshots[0].at < to then snapshots[0].value else 0.0)
          + SumIn(snapshots[1..], name, from, to)
  {
    var p := During(name, from, to);
    FilterFirst(p, snapshots);
    if p(snapshots[0]) {
      assert Map(Reading(), Filter(p, snapshots))[1..] == Map(Reading(), Filter(p, snapshots[1..]));
    } else {
      assert Filter(p, snapshots) == Filter(p, snapshots[1..]);
    }
  }

  lemma {:induction false} MinuteIsSum(store: Store, name: string, start: int)
    requires Agrees(store) && start % MINUTE == 0 && ModeOf(name) == SUM
    ensures MinuteValue(store, name, start) == SumIn(store.snapshots, name, start, start + MINUTE)
  {
    var k := Key(M1, name, start);
    if k !in store.rollups {
      forall s | s in store.snapshots ensures During(name, start, start + MINUTE)(s) ==> KeyAt(M1, s.name, s.at) == k {
        BucketsPartition(s.at, start, M1);
      }
      FilterNone(During(name, start, start + MINUTE), store.snapshots);
    }
  }

  lemma {:induction false} MinutesAddUp(store: Store, name: string, start: int, n: nat)
    requires Agrees(store) && start % MINUTE == 0 && ModeOf(name) == SUM
    ensures SumOfMinutes(store, name, start, n) == SumIn(store.snapshots, name, start, start + n * MINUTE)
    decreases n
  {
    hide Agrees, SumIn, MinuteValue, ModeOf;
    if n == 0 {
      NothingIn(store.snapshots, name, start);
    } else {
      MinutesAddUp(store, name, start, n - 1);
      MinuteIsSum(store, name, start + (n - 1) * MINUTE);
      SumInSplits(store.snapshots, name, start, start + (n - 1) * MINUTE, start + n * MINUTE);
    }
  }

  lemma {:induction false} NothingIn(snapshots: seq<Snapshot>, name: string, start: int)
    ensures SumIn(snapshots, name, start, start) == 0.0
  {
    FilterNone(During(name, start, start), snapshots);
  }

  /** For a summed metric, a larger rollup is the sum of the minute rollups inside its bucket. */
  lemma {:induction false} LargerIsSumOfMinutes(store: Store, k: Key)
    requires Agrees(store) && k in store.rollups && ModeOf(k.name) == SUM
    ensures store.rollups[k].value == SumOfMinutes(store, k.name, k.start, Duration(k.bucket) / MINUTE)
  {
    var n := Duration(k.bucket) / MINUTE;
    assert n * MINUTE == Duration(k.bucket);
    assert Exact(store, k);
    assert k.start % MINUTE == 0 by {
      StartOfMinute(k.start, k.bucket);
    }
    MinutesAddUp(store, k.name, k.start, n);
    hide Agrees, SumOfMinutes;
  }

  lemma {:induction false} StartOfMinute(start: int, b: Bucket)
    requires start % Duration(b) == 0
    ensures start % MINUTE == 0
  {
    var k := Multiple(M1, b);
    var q := start / Duration(b);
    assert start == q * (k * MINUTE) == (q * k) * MINUTE;
    DivUnique(start, MINUTE, q * k, 0);
  }

  // ---------------------------------------------------------------------------------------------
  // What an exact rollup says
  // ---------------------------------------------------------------------------------------------

  /**
   * The value of an exact rollup: the mean of the readings in its interval for the three metrics that
   * are averaged, their sum for every other one.
   */
  lemma {:induction false} RollupMeaning(store: Store, k: Key)
    requires Exact(store, k)
    ensures var sum := Sum(Map(Reading(), In(store, k)));
      var averaged := k.name == "active_users" || k.name == "queue_backlog" || k.name == "system_health_score";
      if averaged then store.rollups[k].value * |In(store, k)| as real == sum else store.rollups[k].value == sum
    ensures forall s :: s in In(store, k) <==>
              s in store.snapshots && s.name == k.name && k.start <= s.at < k.start + Duration(k.bucket)
  {
    var p := During(k.name, k.start, k.start + Duration(k.bucket));
    FilterMembers(p, store.snapshots);
    forall s | s in store.snapshots && p(s) ensures s in In(store, k) {
      FilterIn(p, store.snapshots, s);
    }
    hide Sum;
    MeanTimesCount(Sum(Map(Reading(), In(store, k))), |In(store, k)| as real);
  }

  lemma {:induction false} MeanTimesCount(sum: real, n: real)
    requires n != 0.0
    ensures sum / n * n == sum
  {
  }
}
