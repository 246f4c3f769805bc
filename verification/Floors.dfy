/** Integer division by positive lengths, as far as the buckets of the rollups need it. */
module Floors {
  lemma {:induction false} AtLeastOnce(k: int, d: int)
    requires 0 < d
    ensures 1 <= k ==> d <= k * d
    ensures k <= -1 ==> k * d <= -d
  {
    if 1 <= k {
      assert k * d == (k - 1) * d + d;
      assert 0 <= (k - 1) * d;
    } else if k <= -1 {
      assert k * d == (k + 1) * d - d;
      assert (k + 1) * d <= 0;
    }
  }

  lemma {:induction false} DivUnique(x: int, d: int, q: int, r: int)
    requires 0 < d && x == q * d + r && 0 <= r < d
    ensures x / d == q && x % d == r
  {
    var k := q - x / d;
    assert k * d == q * d - (x / d) * d;
    assert x == (x / d) * d + x % d;
    AtLeastOnce(k, d);
  }

  /** The multiple of `d` at or before an instant is the only one within `d` of it. */
  lemma {:induction false} FloorUnique(time: int, d: int, q: int)
    requires 0 < d && q * d <= time < q * d + d
    ensures time - time % d == q * d
  {
    DivUnique(time, d, q, time - q * d);
  }

  lemma {:induction false} FloorIsMultiple(time: int, d: int)
    requires 0 < d
    ensures time - time % d == (time / d) * d && (time - time % d) % d == 0
    ensures time - time % d <= time < time - time % d + d
  {
    DivUnique((time / d) * d, d, time / d, 0);
  }

  /** Floors to a length and to a multiple of that length nest. */
  lemma {:induction false} FloorsNest(time: int, d: int, k: int)
    requires 0 < d && 0 < k
    ensures 0 < k * d
    ensures var (s, l) := (time - time % d, time - time % (k * d));
      l <= s && s + d <= l + k * d && s - s % (k * d) == l
  {
    AtLeastOnce(k, d);
    var q := time / d;
    var big, small := q / k, q % k;
    SplitFloor(d, k, big, small);
    assert q == big * k + small;
    DivUnique(time, k * d, big, small * d + time % d);
    DivUnique(q * d, k * d, big, small * d);
  }

  lemma {:induction false} SplitFloor(d: int, k: int, big: int, small: int)
    requires 0 < d && 0 <= small < k
    ensures (big * k + small) * d == big * (k * d) + small * d
    ensures 0 <= small * d <= k * d - d
  {
    assert (k - 1 - small) * d == k * d - d - small * d;
    assert 0 <= (k - 1 - small) * d;
  }
}
