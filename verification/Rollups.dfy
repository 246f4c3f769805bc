/** Metric snapshots and the rollups kept from them, one per bucket. */
module Rollups {
  import opened Common
  import opened Filtering
  import opened Greedy
  import opened Sorting

  datatype Bucket = M1 | M5 | M15 | H1 | D1

  datatype Mode = SUM | AVG

  const MINUTE := 60000

  const BUCKETS := [M1, M5, M15, H1, D1]

  function Duration(b: Bucket): (r: int)
    ensures r > 0
  {
    match b
    case M1 => MINUTE
    case M5 => 5 * MINUTE
    case M15 => 15 * MINUTE
    case H1 => 60 * MINUTE
    case D1 => 24 * 60 * MINUTE
  }

  /** A live metric; how it is aggregated goes with its name. */
  datatype Metric = Metric(name: string, value: real)

  datatype Snapshot = Snapshot(name: string, value: real, at: int)

  datatype Key = Key(bucket: Bucket, name: string, start: int)

  datatype Rollup = Rollup(value: real, end: int)

  datatype Store = Store(snapshots: seq<Snapshot>, rollups: map<Key, Rollup>)

  function ModeOf(name: string): Mode {
    if name in {"active_users", "queue_backlog", "system_health_score"} then AVG else SUM
  }

  function MinuteOfHour(time: int): int { (time / MINUTE) % 60 }

  function HourOfDay(time: int): int { (time / (60 * MINUTE)) % 24 }

  /** The start of a bucket, by dropping seconds, then minutes, then hours of the day (UTC). */
  function BucketStart(time: int, b: Bucket): int {
    var base := time - time % MINUTE;
    match b
    case M1 => base
    case M5 => base - (MinuteOfHour(base) - MinuteOfHour(base) / 5 * 5) * MINUTE
    case M15 => base - (MinuteOfHour(base) - MinuteOfHour(base) / 15 * 15) * MINUTE
    case H1 => base - MinuteOfHour(base) * MINUTE
    case D1 => base - MinuteOfHour(base) * MINUTE - HourOfDay(base) * 60 * MINUTE
  }

  function During(name: string, from: int, to: int): Snapshot -> bool {
    (s: Snapshot) => s.name == name && from <= s.at < to
  }

  function Selected(snapshots: seq<Snapshot>, name: string, from: int, to: int): seq<Snapshot> {
    Filter(During(name, from, to), snapshots)
  }

  function Reading(): Snapshot -> real { (s: Snapshot) => s.value }

  function Fold(mode: Mode, snapshots: seq<Snapshot>): real
    requires snapshots != []
  {
    var sum := Sum(Map(Reading(), snapshots));
    if mode == SUM then sum else sum / |snapshots| as real
  }

  /** Recomputes the rollup of the bucket that holds `now`; without snapshots there, nothing happens. */
  function Upserted(store: Store, name: string, b: Bucket, now: int): Store {
    var start := BucketStart(now, b);
    var selected := Selected(store.snapshots, name, start, start + Duration(b));
    if selected == [] then store
    else store.(rollups := store.rollups[Key(b, name, start) := Rollup(Fold(ModeOf(name), selected), start + Duration(b))])
  }

  function Captured(store: Store, m: Metric, now: int): Store {
    store.(snapshots := store.snapshots + [Snapshot(m.name, m.value, now)])
  }

  /** A tick writes a snapshot of every metric, then every metric's rollup in every bucket. */
  function Write(store: Store, metrics: seq<Metric>, now: int, k: nat): Store
    requires k < 6 * |metrics|
  {
    var n := |metrics|;
    if k < n then Captured(store, metrics[k], now)
    else Upserted(store, metrics[(k - n) / 5].name, BUCKETS[(k - n) % 5], now)
  }

  /** The first `writes` writes of a tick; a failed write ends the tick. */
  function Ticked(store: Store, metrics: seq<Metric>, now: int, writes: nat): Store
    requires writes <= 6 * |metrics|
    decreases writes
  {
    if writes == 0 then store else Write(Ticked(store, metrics, now, writes - 1), metrics, now, writes - 1)
  }

  class RollupService {
    var snapshots: seq<Snapshot>
    var rollups: map<Key, Rollup>

    ghost function View(): Store
      reads this
    {
      Store(snapshots, rollups)
    }

    constructor ()
      ensures View() == Store([], map[])
    {
      snapshots, rollups := [], map[];
    }

    method UpsertRollup(name: string, b: Bucket, now: int)
      modifies this`rollups
      ensures View() == Upserted(old(View()), name, b, now)
    {
      var start := BucketStart(now, b);
      var end := start + Duration(b);
      var selected := Selected(snapshots, name, start, end);
      if |selected| == 0 {
        return;
      }
      var sum := 0.0;
      var i := 0;
      assert Map(Reading(), selected[..0]) == [];
      while i < |selected|
        invariant 0 <= i <= |selected| && View() == old(View())
        invariant sum == Sum(Map(Reading(), selected[..i]))
      {
        sum := sum + selected[i].value;
        PrefixSum(Reading(), selected, i);
        i := i + 1;
      }
      assert selected[..i] == selected;
      var value := if ModeOf(name) == SUM then sum else sum / |selected| as real;
      rollups := rollups[Key(b, name, start) := Rollup(value, end)];
    }

    /** One tick; the write number `failing`, if there is one, throws and the rest is abandoned. */
    method CaptureAndRollupMetrics(metrics: seq<Metric>, now: int, failing: nat)
      modifies this
      ensures View() == Ticked(old(View()), metrics, now, Min(failing, 6 * |metrics|))
    {
      hide Write, Selected, Fold;
      var n := |metrics|;
      var written := 0;
      var i := 0;
      while i < n
        invariant 0 <= i <= n && written == i <= failing
        invariant View() == Ticked(old(View()), metrics, now, written)
      {
        if written == failing {
          return;
        }
        snapshots := snapshots + [Snapshot(metrics[i].name, metrics[i].value, now)];
        WriteCaptures(old(View()), metrics, now, i);
        written := written + 1;
        i := i + 1;
      }
      i := 0;
      while i < n
        invariant 0 <= i <= n && written == n + 5 * i <= failing
        invariant View() == Ticked(old(View()), metrics, now, written)
      {
        var j := 0;
        while j < |BUCKETS|
          invariant 0 <= j <= 5 && written == n + 5 * i + j <= failing
          invariant View() == Ticked(old(View()), metrics, now, written)
        {
          if written == failing {
            return;
          }
          WriteUpserts(old(View()), metrics, now, i, j);
          UpsertRollup(metrics[i].name, BUCKETS[j], now);
          written := written + 1;
          j := j + 1;
        }
        i := i + 1;
      }
    }
  }

  lemma {:induction false} WriteCaptures(store: Store, metrics: seq<Metric>, now: int, i: nat)
    requires i < |metrics|
    ensures Ticked(store, metrics, now, i + 1) == Captured(Ticked(store, metrics, now, i), metrics[i], now)
  {
  }

  lemma {:induction false} WriteUpserts(store: Store, metrics: seq<Metric>, now: int, i: nat, j: nat)
    requires i < |metrics| && j < 5
    ensures var k := |metrics| + 5 * i + j;
      Ticked(store, metrics, now, k + 1) == Upserted(Ticked(store, metrics, now, k), metrics[i].name, BUCKETS[j], now)
  {
    var k := |metrics| + 5 * i + j;
    assert (5 * i + j) / 5 == i && (5 * i + j) % 5 == j;
    hide Upserted;
  }
}
