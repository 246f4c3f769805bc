/** Taking a wanted total from a list of amounts, front to back, and the sums this leads to. */
module Greedy {
  import opened Common

  function Sum(vs: seq<real>): real {
    if vs == [] then 0.0 else vs[0] + Sum(vs[1..])
  }

  lemma {:induction false} SumOne(v: real)
    ensures Sum([v]) == v
  {
  }

  function Scale(vs: seq<real>, k: real): (r: seq<real>)
    ensures |r| == |vs|
  {
    seq(|vs|, i requires 0 <= i < |vs| => vs[i] * k)
  }

  lemma {:induction false} ScaleAt(vs: seq<real>, k: real)
    ensures forall i | 0 <= i < |vs| :: Scale(vs, k)[i] == vs[i] * k
  {
  }

  lemma {:induction false} SumScale(vs: seq<real>, k: real)
    ensures Sum(Scale(vs, k)) == Sum(vs) * k
  {
    if vs == [] {
      assert 0.0 * k == 0.0;
    } else {
      SumScale(vs[1..], k);
      ScaleTail(vs, k);
      Distribute(vs[0], Sum(vs[1..]), k);
    }
  }

  lemma {:induction false} ScaleTail(vs: seq<real>, k: real)
    requires vs != []
    ensures Scale(vs, k)[1..] == Scale(vs[1..], k)
  {
    ScaleAt(vs, k);
    ScaleAt(vs[1..], k);
    hide Scale;
    forall i | 0 <= i < |vs| - 1 ensures Scale(vs, k)[1..][i] == Scale(vs[1..], k)[i] {
      assert vs[1..][i] == vs[i + 1];
    }
  }

  lemma {:induction false} Monotone(x: real, y: real, k: real)
    requires x <= y && 0.0 <= k
    ensures x * k <= y * k
  {
  }

  lemma {:induction false} MulSign(p: real, q: real)
    requires q > 0.0
    ensures p * q < 0.0 <==> p < 0.0
    ensures p * q > 0.0 <==> p > 0.0
  {
  }

  lemma {:induction false} Quotient(x: real, c: real, k: real)
    requires c != 0.0
    ensures c > 0.0 ==> (x / c > k <==> x > k * c)
    ensures c < 0.0 && 0.0 <= x ==> x / c <= 0.0
  {
    var q := x / c;
    assert q * c == x;
    if c > 0.0 {
      MulSign(q - k, c);
    } else {
      MulSign(q, -c);
    }
  }

  lemma {:induction false} Distribute(x: real, y: real, k: real)
    ensures (x + y) * k == x * k + y * k
  {
  }

  /** From each entry the smaller of the entry and what is still wanted, until nothing is wanted. */
  function Takes(vs: seq<real>, want: real): (r: seq<real>)
    ensures |r| == |vs|
  {
    if vs == [] then []
    else if want <= 0.0 then [0.0] + Takes(vs[1..], want)
    else
      var t := MinR(vs[0], want);
      [t] + Takes(vs[1..], want - t)
  }

  /** One turn of the loop that takes: what entry `j` gives and what is still wanted after it. */
  lemma {:induction false} TakesStep(vs: seq<real>, takes: seq<real>, j: nat, want: real)
    requires j < |vs| == |takes| && 0.0 < want
    requires Takes(vs[j..], want) == takes[j..]
    ensures takes[j] == MinR(vs[j], want)
    ensures Takes(vs[j + 1..], want - takes[j]) == takes[j + 1..]
  {
    assert vs[j..][1..] == vs[j + 1..] && takes[j..][1..] == takes[j + 1..];
    assert takes[j] == takes[j..][0];
  }

  predicate NonNegative(vs: seq<real>) { forall i | 0 <= i < |vs| :: 0.0 <= vs[i] }

  predicate Descending(vs: seq<real>) { forall i, j | 0 <= i < j < |vs| :: vs[j] <= vs[i] }

  lemma {:induction false} NothingWanted(vs: seq<real>, want: real)
    requires want <= 0.0
    ensures Takes(vs, want) == seq(|vs|, _ => 0.0)
    ensures Sum(Takes(vs, want)) == 0.0
  {
    if vs != [] {
      NothingWanted(vs[1..], want);
      assert Takes(vs, want)[1..] == Takes(vs[1..], want);
    }
  }

  lemma {:induction false} SumNonNegative(vs: seq<real>)
    requires NonNegative(vs)
    ensures 0.0 <= Sum(vs)
    ensures forall i | 0 <= i < |vs| :: vs[i] <= Sum(vs)
  {
    if vs != [] {
      forall i | 0 <= i < |vs[1..]| ensures 0.0 <= vs[1..][i] {
        assert vs[1..][i] == vs[i + 1];
      }
      SumNonNegative(vs[1..]);
      forall i | 1 <= i < |vs| ensures vs[i] <= Sum(vs) {
        assert vs[i] == vs[1..][i - 1];
      }
    }
  }

  lemma {:induction false} DescendingTail(vs: seq<real>)
    requires Descending(vs) && vs != []
    ensures Descending(vs[1..])
    ensures vs[0] <= 0.0 ==> Sum(vs) <= 0.0
    decreases |vs|
  {
    forall i, j | 0 <= i < j < |vs[1..]| ensures vs[1..][j] <= vs[1..][i] {
      assert vs[1..][j] == vs[j + 1] && vs[1..][i] == vs[i + 1];
    }
    if |vs| > 1 {
      assert vs[1..][0] == vs[1];
      DescendingTail(vs[1..]);
    }
  }

  /** From a descending list that covers the wanted total, exactly the total is taken. */
  lemma {:induction false} TakesAll(vs: seq<real>, want: real)
    requires Descending(vs) && 0.0 <= want <= Sum(vs)
    ensures Sum(Takes(vs, want)) == want
    decreases |vs|
  {
    if want == 0.0 {
      NothingWanted(vs, want);
    } else {
      DescendingTail(vs);
      var t := MinR(vs[0], want);
      assert Takes(vs, want)[1..] == Takes(vs[1..], want - t);
      if t == want {
        NothingWanted(vs[1..], 0.0);
      } else {
        TakesAll(vs[1..], want - t);
      }
    }
  }

  /** A wanted total above the sum leaves nothing over, even when some amounts are negative. */
  lemma {:induction false} TakesAtLeastSum(vs: seq<real>, want: real)
    requires Sum(vs) <= want
    ensures Sum(vs) <= Sum(Takes(vs, want))
    decreases |vs|
  {
    if want <= 0.0 {
      NothingWanted(vs, want);
    } else if vs != [] {
      var t := MinR(vs[0], want);
      assert Takes(vs, want)[1..] == Takes(vs[1..], want - t);
      if t == want {
        NothingWanted(vs[1..], 0.0);
      } else {
        TakesAtLeastSum(vs[1..], want - t);
      }
    }
  }

  /** From non-negative amounts in any order: each part fits, and the parts add up. */
  lemma {:induction false} TakesFit(vs: seq<real>, want: real)
    requires NonNegative(vs)
    ensures forall i | 0 <= i < |vs| :: 0.0 <= Takes(vs, want)[i] <= vs[i]
    ensures 0.0 <= want ==> Sum(Takes(vs, want)) == MinR(want, Sum(vs))
    decreases |vs|
  {
    SumNonNegative(vs);
    if want <= 0.0 {
      NothingWanted(vs, want);
    } else if vs != [] {
      var t := MinR(vs[0], want);
      var r := Takes(vs, want);
      assert r[1..] == Takes(vs[1..], want - t);
      forall i | 0 <= i < |vs[1..]| ensures 0.0 <= vs[1..][i] {
        assert vs[1..][i] == vs[i + 1];
      }
      TakesFit(vs[1..], want - t);
      forall i | 1 <= i < |vs| ensures 0.0 <= r[i] <= vs[i] {
        assert r[i] == Takes(vs[1..], want - t)[i - 1] && vs[i] == vs[1..][i - 1];
      }
      SumNonNegative(vs[1..]);
    }
  }

  /** Nothing is taken from an entry before all earlier ones are used up. */
  lemma {:induction false} TakesInOrder(vs: seq<real>, want: real, i: nat, j: nat)
    requires i < j < |vs| && Takes(vs, want)[j] > 0.0
    ensures Takes(vs, want)[i] == vs[i]
    decreases |vs|
  {
    if want <= 0.0 {
      NothingWanted(vs, want);
    } else {
      var t := MinR(vs[0], want);
      assert Takes(vs, want)[1..] == Takes(vs[1..], want - t);
      assert Takes(vs, want)[j] == Takes(vs[1..], want - t)[j - 1];
      if i > 0 {
        TakesInOrder(vs[1..], want - t, i - 1, j - 1);
      } else if t != vs[0] {
        NothingWanted(vs[1..], want - t);
      }
    }
  }

  /** A total that the first entry covers is taken from the first entry alone. */
  lemma {:induction false} TakesFromFirst(vs: seq<real>, want: real)
    requires vs != [] && 0.0 <= want <= vs[0]
    ensures Takes(vs, want)[0] == want
    ensures forall i | 1 <= i < |vs| :: Takes(vs, want)[i] == 0.0
  {
    NothingWanted(vs, 0.0);
    NothingWanted(vs[1..], 0.0);
  }

  // ---------------------------------------------------------------------------------------------
  // Several rounds of taking, all computed from the same list
  // ---------------------------------------------------------------------------------------------

  /** What entry `i` loses altogether. */
  function TakenAt(vs: seq<real>, wants: seq<real>, i: nat): real
    requires i < |vs|
  {
    if wants == [] then 0.0 else Takes(vs, wants[0])[i] + TakenAt(vs, wants[1..], i)
  }

  function Taken(vs: seq<real>, wants: seq<real>): (r: seq<real>)
    ensures |r| == |vs|
  {
    seq(|vs|, i requires 0 <= i < |vs| => TakenAt(vs, wants, i))
  }

  function Minus(vs: seq<real>, ws: seq<real>): seq<real>
    requires |vs| == |ws|
  {
    seq(|vs|, i requires 0 <= i < |vs| => vs[i] - ws[i])
  }

  function Plus(vs: seq<real>, ws: seq<real>): seq<real>
    requires |vs| == |ws|
  {
    seq(|vs|, i requires 0 <= i < |vs| => vs[i] + ws[i])
  }

  lemma {:induction false} SumPlus(vs: seq<real>, ws: seq<real>)
    requires |vs| == |ws|
    ensures Sum(Plus(vs, ws)) == Sum(vs) + Sum(ws)
    ensures Sum(Minus(vs, ws)) == Sum(vs) - Sum(ws)
  {
    if vs != [] {
      assert Plus(vs, ws)[1..] == Plus(vs[1..], ws[1..]);
      assert Minus(vs, ws)[1..] == Minus(vs[1..], ws[1..]);
      SumPlus(vs[1..], ws[1..]);
    }
  }

  lemma {:induction false} SumTaken(vs: seq<real>, wants: seq<real>)
    requires Descending(vs) && forall l | 0 <= l < |wants| :: 0.0 <= wants[l] <= Sum(vs)
    ensures Sum(Taken(vs, wants)) == Sum(wants)
    decreases |wants|
  {
    if wants == [] {
      NothingWanted(vs, 0.0);
      assert Taken(vs, wants) == Takes(vs, 0.0);
    } else {
      assert Taken(vs, wants) == Plus(Takes(vs, wants[0]), Taken(vs, wants[1..]));
      SumPlus(Takes(vs, wants[0]), Taken(vs, wants[1..]));
      TakesAll(vs, wants[0]);
      forall l | 0 <= l < |wants[1..]| ensures 0.0 <= wants[1..][l] <= Sum(vs) {
        assert wants[1..][l] == wants[l + 1];
      }
      SumTaken(vs, wants[1..]);
    }
  }

  /** When a single total exceeds the sum, the whole sum is gone. */
  lemma {:induction false} SumTakenExhausts(vs: seq<real>, wants: seq<real>)
    requires Descending(vs) && 0.0 <= Sum(vs) && NonNegative(wants)
    ensures 0.0 <= Sum(Taken(vs, wants))
    ensures forall l | 0 <= l < |wants| :: MinR(wants[l], Sum(vs)) <= Sum(Taken(vs, wants))
    decreases |wants|
  {
    if wants == [] {
      NothingWanted(vs, 0.0);
      assert Taken(vs, wants) == Takes(vs, 0.0);
    } else {
      var rest := wants[1..];
      assert forall l | 0 <= l < |rest| :: rest[l] == wants[l + 1];
      assert Taken(vs, wants) == Plus(Takes(vs, wants[0]), Taken(vs, rest));
      SumPlus(Takes(vs, wants[0]), Taken(vs, rest));
      SumTakenExhausts(vs, rest);
      if wants[0] <= Sum(vs) {
        TakesAll(vs, wants[0]);
      } else {
        TakesAtLeastSum(vs, wants[0]);
      }
      forall l | 0 <= l < |wants| ensures MinR(wants[l], Sum(vs)) <= Sum(Taken(vs, wants)) {
        if l > 0 {
          assert rest[l - 1] == wants[l];
        }
      }
    }
  }

  /** Out of non-negative amounts, the totals are taken in full exactly when each fits in the sum. */
  lemma {:induction false} TakenInFullIff(vs: seq<real>, wants: seq<real>)
    requires NonNegative(vs) && NonNegative(wants)
    ensures Sum(Taken(vs, wants)) <= Sum(wants)
    ensures Sum(Taken(vs, wants)) == Sum(wants) <==> forall l | 0 <= l < |wants| :: wants[l] <= Sum(vs)
    decreases |wants|
  {
    if wants == [] {
      NothingWanted(vs, 0.0);
      assert Taken(vs, wants) == Takes(vs, 0.0);
    } else {
      var rest := wants[1..];
      assert forall l | 0 <= l < |rest| :: rest[l] == wants[l + 1];
      assert forall l | 1 <= l < |wants| :: wants[l] == rest[l - 1];
      assert Taken(vs, wants) == Plus(Takes(vs, wants[0]), Taken(vs, rest));
      SumPlus(Takes(vs, wants[0]), Taken(vs, rest));
      TakenInFullIff(vs, rest);
      TakesFit(vs, wants[0]);
    }
  }

  /** At most one of the totals is positive. */
  predicate AtMostOne(wants: seq<real>) {
    forall l, m | 0 <= l < m < |wants| :: wants[l] <= 0.0 || wants[m] <= 0.0
  }

  lemma {:induction false} TakenNothing(vs: seq<real>, wants: seq<real>, i: nat)
    requires i < |vs| && forall l | 0 <= l < |wants| :: wants[l] <= 0.0
    ensures TakenAt(vs, wants, i) == 0.0
    decreases |wants|
  {
    if wants != [] {
      NothingWanted(vs, wants[0]);
      forall l | 0 <= l < |wants[1..]| ensures wants[1..][l] <= 0.0 {
        assert wants[1..][l] == wants[l + 1];
      }
      TakenNothing(vs, wants[1..], i);
    }
  }

  lemma {:induction false} TakenByOne(vs: seq<real>, wants: seq<real>, i: nat)
    requires NonNegative(vs) && i < |vs| && AtMostOne(wants)
    ensures TakenAt(vs, wants, i) <= vs[i]
    decreases |wants|
  {
    if wants != [] {
      var rest := wants[1..];
      assert forall l | 0 <= l < |rest| :: rest[l] == wants[l + 1];
      if wants[0] <= 0.0 {
        NothingWanted(vs, wants[0]);
        TakenByOne(vs, rest, i);
      } else {
        TakesFit(vs, wants[0]);
        TakenNothing(vs, rest, i);
      }
    }
  }

  lemma {:induction false} TakenFromFirst(vs: seq<real>, wants: seq<real>, i: nat)
    requires NonNegative(vs) && i < |vs| && NonNegative(wants) && Sum(wants) <= vs[0]
    ensures TakenAt(vs, wants, i) == if i == 0 then Sum(wants) else 0.0
    decreases |wants|
  {
    if wants != [] {
      var rest := wants[1..];
      assert forall l | 0 <= l < |rest| :: rest[l] == wants[l + 1];
      SumNonNegative(wants);
      SumNonNegative(rest);
      TakesFromFirst(vs, wants[0]);
      TakenFromFirst(vs, rest, i);
    }
  }

  /** The first entry gives, to each total, the total or all of itself. */
  lemma {:induction false} TakenAtFirst(vs: seq<real>, wants: seq<real>)
    requires NonNegative(vs) && vs != [] && NonNegative(wants)
    ensures TakenAt(vs, wants, 0) >= 0.0
    ensures forall l | 0 <= l < |wants| :: TakenAt(vs, wants, 0) >= MinR(vs[0], wants[l])
    ensures forall l, m | 0 <= l < m < |wants| ::
              TakenAt(vs, wants, 0) >= MinR(vs[0], wants[l]) + MinR(vs[0], wants[m])
    ensures (forall l | 0 <= l < |wants| :: wants[l] <= vs[0]) ==> TakenAt(vs, wants, 0) == Sum(wants)
    decreases |wants|
  {
    if wants != [] {
      var rest := wants[1..];
      assert forall l | 0 <= l < |rest| :: rest[l] == wants[l + 1];
      TakenAtFirst(vs, rest);
      assert Takes(vs, wants[0])[0] == MinR(vs[0], wants[0]);
      forall l | 1 <= l < |wants| ensures TakenAt(vs, rest, 0) >= MinR(vs[0], wants[l]) {
        assert rest[l - 1] == wants[l];
      }
      forall l, m | 1 <= l < m < |wants|
        ensures TakenAt(vs, rest, 0) >= MinR(vs[0], wants[l]) + MinR(vs[0], wants[m])
      {
        assert rest[l - 1] == wants[l] && rest[m - 1] == wants[m];
      }
    }
  }

  /**
   * Taking several totals, each computed from the same untouched list, overdraws no entry exactly
   * when at most one total is positive or the first entry covers all of them together.
   */
  lemma {:induction false} NothingOverdrawnIff(vs: seq<real>, wants: seq<real>)
    requires Descending(vs) && NonNegative(vs) && NonNegative(wants) && vs != [] && 0.0 < vs[0]
    ensures NonNegative(Minus(vs, Taken(vs, wants))) <==> AtMostOne(wants) || Sum(wants) <= vs[0]
  {
    var left := Minus(vs, Taken(vs, wants));
    if AtMostOne(wants) {
      forall i | 0 <= i < |vs| ensures 0.0 <= left[i] {
        TakenByOne(vs, wants, i);
      }
    } else if Sum(wants) <= vs[0] {
      forall i | 0 <= i < |vs| ensures 0.0 <= left[i] {
        TakenFromFirst(vs, wants, i);
      }
    } else {
      TakenAtFirst(vs, wants);
      var l, m :| 0 <= l < m < |wants| && 0.0 < wants[l] && 0.0 < wants[m];
      if k :| 0 <= k < |wants| && wants[k] > vs[0] {
        if k != l {
          assert MinR(vs[0], wants[k]) == vs[0];
        }
      }
      assert left[0] < 0.0;
    }
  }
}
