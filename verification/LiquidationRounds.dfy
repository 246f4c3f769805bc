/** What repeated partial liquidations do to an account at fixed positive prices. */
module LiquidationRounds {
  import opened Greedy
  import opened Sorting
  import opened Margin

  function C(prices: Prices, a: Account): real { Collateral(prices, a.pledges) }

  function B(prices: Prices, a: Account): real { Borrowed(prices, a.loans) }

  /** Backed by collateral and below the liquidation threshold. */
  predicate Safe(prices: Prices, a: Account) { C(prices, a) > 0.0 && !Eligible(prices, a) }

  function Repayments(prices: Prices, a: Account): seq<real> {
    Repaid(prices, SortedLoans(a.loans), ToRepay(C(prices, a), B(prices, a)))
  }

  // ---------------------------------------------------------------------------------------------
  // Totals
  // ---------------------------------------------------------------------------------------------

  lemma {:induction false} SeizedValue(prices: Prices, ps: seq<Pledge>, dollars: seq<real>)
    requires |ps| == |dollars| && forall p <- ps :: PriceOf(prices, p.symbol) > 0.0
    ensures Collateral(prices, SeizeEach(prices, ps, dollars)) == Collateral(prices, ps) - Sum(dollars)
    ensures Map(ValueOf(prices), SeizeEach(prices, ps, dollars)) == Minus(Map(ValueOf(prices), ps), dollars)
  {
    var after := SeizeEach(prices, ps, dollars);
    forall i | 0 <= i < |ps| ensures Value(prices, after[i]) == Value(prices, ps[i]) - dollars[i] {
      assert ps[i] in ps;
    }
    assert Map(ValueOf(prices), after) == Minus(Map(ValueOf(prices), ps), dollars);
    SumPlus(Map(ValueOf(prices), ps), dollars);
  }

  /** A repayment within what is owed lowers the debt by just that and never below zero. */
  lemma {:induction false} RepaidLoan(prices: Prices, l: Loan, dollars: real)
    requires PriceOf(prices, l.symbol) > 0.0 && 0.0 <= dollars <= Owes(prices, l)
    requires 0.0 <= l.amount && 0.0 <= l.accruedInterest
    ensures var r := Repay(prices, l, dollars);
      && Owes(prices, r) == Owes(prices, l) - dollars
      && 0.0 <= r.amount <= l.amount && 0.0 <= r.accruedInterest <= l.accruedInterest
      && (r.amount < l.amount ==> r.accruedInterest == 0.0)
      && r.interestRate == l.interestRate && r.symbol == l.symbol
  {
    var price := PriceOf(prices, l.symbol);
    var amount := dollars / price;
    assert amount * price == dollars;
    if amount > l.amount + l.accruedInterest {
      assert amount * price > (l.amount + l.accruedInterest) * price;
    }
    assert 0.0 <= amount;
  }

  lemma {:induction false} RepaidDebt(prices: Prices, ls: seq<Loan>, dollars: seq<real>)
    requires |ls| == |dollars| && Sane(prices, Account([], ls))
    requires forall i | 0 <= i < |ls| :: 0.0 <= dollars[i] <= Owes(prices, ls[i])
    ensures Sane(prices, Account([], RepayEach(prices, ls, dollars)))
    ensures Borrowed(prices, RepayEach(prices, ls, dollars)) == Borrowed(prices, ls) - Sum(dollars)
  {
    var after := RepayEach(prices, ls, dollars);
    hide Owes, Repay, PriceOf;
    forall i | 0 <= i < |ls|
      ensures Owes(prices, after[i]) == Owes(prices, ls[i]) - dollars[i]
      ensures after[i].symbol == ls[i].symbol && ls[i] in ls
      ensures 0.0 <= after[i].amount && 0.0 <= after[i].accruedInterest && 0.0 <= after[i].interestRate <= INTEREST_RATE
    {
      assert ls[i] in ls;
      RepaidLoan(prices, ls[i], dollars[i]);
    }
    assert Map(OwedOn(prices), after) == Minus(Map(OwedOn(prices), ls), dollars);
    SumPlus(Map(OwedOn(prices), ls), dollars);
  }

  lemma {:induction false} OwedNonNegative(prices: Prices, ls: seq<Loan>)
    requires Sane(prices, Account([], ls))
    ensures NonNegative(Map(OwedOn(prices), ls))
    ensures 0.0 <= Borrowed(prices, ls)
  {
    forall i | 0 <= i < |ls| ensures 0.0 <= Owes(prices, ls[i]) {
      assert ls[i] in ls;
    }
    SumNonNegative(Map(OwedOn(prices), ls));
  }

  /** Sorting for a liquidation moves no value and no debt. */
  lemma {:induction false} SortedTotals(prices: Prices, a: Account)
    requires Sane(prices, a)
    ensures Sane(prices, Account(SortedPledges(prices, a.pledges), SortedLoans(a.loans)))
    ensures Collateral(prices, SortedPledges(prices, a.pledges)) == C(prices, a)
    ensures Borrowed(prices, SortedLoans(a.loans)) == B(prices, a)
    ensures Descending(Map(ValueOf(prices), SortedPledges(prices, a.pledges)))
  {
    var vs := Valued(prices, a.pledges);
    SortKeepsPrices(prices, a.pledges, a.loans);
    SortSum(ByValuation(), ValueOf(prices), vs);
    ValuedTwice(prices, a.pledges, a.loans);
    SortSum(ByAmount(), OwedOn(prices), a.loans);
    SortDescending(ByValuation(), vs);
    SortElements(ByValuation(), vs);
    var ps := SortedPledges(prices, a.pledges);
    forall i | 0 <= i < |ps| ensures Value(prices, ps[i]) == ps[i].lastValuation {
      assert ps[i] in multiset(vs);
      var j :| 0 <= j < |vs| && vs[j] == ps[i];
    }
    assert Map(ValueOf(prices), ps) == Map(ByValuation(), ps);
  }

  // ---------------------------------------------------------------------------------------------
  // One round
  // ---------------------------------------------------------------------------------------------

  /**
   * An eligible account repays exactly its debt above 70% of its collateral: the 20% floor never
   * decides, at least two ninths of the debt go, and what remains is 70% of the old collateral.
   */
  lemma {:induction false} EligibleRepays(prices: Prices, a: Account)
    requires Sane(prices, a) && Eligible(prices, a)
    ensures var t := ToRepay(C(prices, a), B(prices, a));
      && t == B(prices, a) - 0.7 * C(prices, a) && t > 0.2 * B(prices, a) && t >= 2.0 / 9.0 * B(prices, a)
      && Sum(Repayments(prices, a)) == t && NonNegative(Repayments(prices, a))
      && B(prices, Round(prices, a)) == B(prices, a) - t == 0.7 * C(prices, a)
    ensures C(prices, a) > 0.0 && B(prices, a) >= 0.9 * C(prices, a)
    ensures Sane(prices, Account([], Round(prices, a).loans))
  {
    var c, b := C(prices, a), B(prices, a);
    EligibleTotals(c, b);
    var t := ToRepay(c, b);
    SortedTotals(prices, a);
    var ls := SortedLoans(a.loans);
    OwedNonNegative(prices, ls);
    TakesFit(Map(OwedOn(prices), ls), t);
    RepaidDebt(prices, ls, Repaid(prices, ls, t));
  }

  lemma {:induction false} EligibleTotals(c: real, b: real)
    requires Ltv(c, b) >= 0.9
    ensures c > 0.0 && b >= 0.9 * c
    ensures ToRepay(c, b) == b - 0.7 * c > 0.2 * b
    ensures 2.0 / 9.0 * b <= ToRepay(c, b) <= b
  {
    assert b == Ltv(c, b) * c;
    assert Ltv(c, b) * c >= 0.9 * c;
  }

  /**
   * The order of a liquidation: loans stand by principal and pledges by value, larger first; a loan
   * is repaid only after every larger one in full, and for each loan a pledge is drawn on only after
   * every more valuable one in full.
   */
  lemma {:induction false} LargerFirst(prices: Prices, a: Account, total: real, want: real, i: nat, j: nat)
    requires Sane(prices, a) && i < j
    ensures var ls := SortedLoans(a.loans);
      j < |ls| ==>
        && ls[i].amount >= ls[j].amount
        && (Repaid(prices, ls, total)[j] > 0.0 ==> Repaid(prices, ls, total)[i] == Owes(prices, ls[i]))
    ensures var ps := SortedPledges(prices, a.pledges);
      j < |ps| ==>
        && Value(prices, ps[i]) >= Value(prices, ps[j])
        && (Takes(Map(ValueOf(prices), ps), want)[j] > 0.0 ==>
              Takes(Map(ValueOf(prices), ps), want)[i] == Value(prices, ps[i]))
    ensures multiset(SortedLoans(a.loans)) == multiset(a.loans)
  {
    var ls, ps := SortedLoans(a.loans), SortedPledges(prices, a.pledges);
    SortDescending(ByAmount(), a.loans);
    SortElements(ByAmount(), a.loans);
    SortedTotals(prices, a);
    if j < |ls| {
      assert Map(ByAmount(), ls)[j] <= Map(ByAmount(), ls)[i];
      if Repaid(prices, ls, total)[j] > 0.0 {
        TakesInOrder(Map(OwedOn(prices), ls), total, i, j);
      }
    }
    if j < |ps| {
      assert Map(ValueOf(prices), ps)[j] <= Map(ValueOf(prices), ps)[i];
      if Takes(Map(ValueOf(prices), ps), want)[j] > 0.0 {
        TakesInOrder(Map(ValueOf(prices), ps), want, i, j);
      }
    }
  }

  function WantedFor(prices: Prices, a: Account): seq<real> { Scale(Repayments(prices, a), BONUS) }

  lemma {:induction false} RoundCollateral(prices: Prices, a: Account)
    requires Sane(prices, a) && Eligible(prices, a)
    ensures var vs := Map(ValueOf(prices), SortedPledges(prices, a.pledges));
      && Descending(vs) && Sum(vs) == C(prices, a) > 0.0 && NonNegative(WantedFor(prices, a))
      && C(prices, Round(prices, a)) == C(prices, a) - Sum(Taken(vs, WantedFor(prices, a)))
    ensures Sum(WantedFor(prices, a)) == 1.05 * ToRepay(C(prices, a), B(prices, a))
    ensures Sane(prices, Round(prices, a))
  {
    EligibleRepays(prices, a);
    SortedTotals(prices, a);
    var ps, ls := SortedPledges(prices, a.pledges), SortedLoans(a.loans);
    var seized := Seized(prices, ps, ls, ToRepay(C(prices, a), B(prices, a)));
    SeizedValue(prices, ps, seized);
    SumScale(Repayments(prices, a), BONUS);
    assert forall i | 0 <= i < |WantedFor(prices, a)| :: WantedFor(prices, a)[i] == Repayments(prices, a)[i] * 1.05;
    ValuedTwice(prices, SeizeEach(prices, ps, seized), ls);
    StillPriced(prices, ps, seized);
  }

  lemma {:induction false} StillPriced(prices: Prices, ps: seq<Pledge>, dollars: seq<real>)
    requires |ps| == |dollars| && forall p <- ps :: PriceOf(prices, p.symbol) > 0.0
    ensures forall p <- Valued(prices, SeizeEach(prices, ps, dollars)) :: PriceOf(prices, p.symbol) > 0.0
  {
    var after := Valued(prices, SeizeEach(prices, ps, dollars));
    forall p | p in after ensures PriceOf(prices, p.symbol) > 0.0 {
      var i :| 0 <= i < |after| && after[i] == p;
      assert ps[i] in ps;
    }
  }

  /**
   * While no single repayment with its bonus exceeds the collateral, a round seizes exactly 1.05
   * times what it repays, so collateral less 1.05 times the debt does not move. When one does, no
   * collateral is left.
   */
  lemma {:induction false} RoundConserves(prices: Prices, a: Account)
    requires Sane(prices, a) && Eligible(prices, a)
    ensures Sane(prices, Round(prices, a))
    ensures B(prices, Round(prices, a)) == 0.7 * C(prices, a)
    ensures (forall i | 0 <= i < |WantedFor(prices, a)| :: WantedFor(prices, a)[i] <= C(prices, a)) ==>
              C(prices, Round(prices, a)) - 1.05 * B(prices, Round(prices, a)) == C(prices, a) - 1.05 * B(prices, a)
    ensures (exists i | 0 <= i < |WantedFor(prices, a)| :: WantedFor(prices, a)[i] > C(prices, a)) ==>
              C(prices, Round(prices, a)) <= 0.0
  {
    EligibleRepays(prices, a);
    RoundCollateral(prices, a);
    var vs := Map(ValueOf(prices), SortedPledges(prices, a.pledges));
    var wants := WantedFor(prices, a);
    if forall i | 0 <= i < |wants| :: wants[i] <= C(prices, a) {
      SumTaken(vs, wants);
    } else {
      SumTakenExhausts(vs, wants);
    }
  }

  /** For pledges none of which is negative, that condition is exact. */
  lemma {:induction false} ConservesIff(prices: Prices, a: Account)
    requires Sane(prices, a) && Eligible(prices, a) && forall p <- a.pledges :: p.amount >= 0.0
    ensures C(prices, Round(prices, a)) - 1.05 * B(prices, Round(prices, a)) == C(prices, a) - 1.05 * B(prices, a)
       <==> forall i | 0 <= i < |WantedFor(prices, a)| :: WantedFor(prices, a)[i] <= C(prices, a)
  {
    EligibleRepays(prices, a);
    RoundCollateral(prices, a);
    SortedNonNegative(prices, a);
    TakenInFullIff(Map(ValueOf(prices), SortedPledges(prices, a.pledges)), WantedFor(prices, a));
  }

  lemma {:induction false} SortedNonNegative(prices: Prices, a: Account)
    requires Sane(prices, a) && forall p <- a.pledges :: p.amount >= 0.0
    ensures NonNegative(Map(ValueOf(prices), SortedPledges(prices, a.pledges)))
  {
    hide Sort, Sum;
    var vs := Valued(prices, a.pledges);
    SortElements(ByValuation(), vs);
    var ps := SortedPledges(prices, a.pledges);
    forall i | 0 <= i < |ps| ensures 0.0 <= Value(prices, ps[i]) {
      assert ps[i] in multiset(vs);
      var j :| 0 <= j < |vs| && vs[j] == ps[i];
      assert a.pledges[j] in a.pledges;
    }
  }

  /**
   * No pledge is overdrawn exactly when at most one loan is repaid, or the largest pledge alone
   * covers everything seized: for each further loan the pledges are read before the first seizure.
   */
  lemma {:induction false} NoPledgeOverdrawnIff(prices: Prices, a: Account)
    requires Sane(prices, a) && Eligible(prices, a) && forall p <- a.pledges :: p.amount >= 0.0
    ensures SortedPledges(prices, a.pledges) != []
    ensures (forall p <- Round(prices, a).pledges :: p.amount >= 0.0)
       <==> (AtMostOne(Repayments(prices, a))
         || 1.05 * ToRepay(C(prices, a), B(prices, a)) <= Value(prices, SortedPledges(prices, a.pledges)[0]))
  {
    EligibleRepays(prices, a);
    RoundCollateral(prices, a);
    SortedNonNegative(prices, a);
    SortedTotals(prices, a);
    var ps := SortedPledges(prices, a.pledges);
    var vs, wants := Map(ValueOf(prices), ps), WantedFor(prices, a);
    assert vs != [];
    if vs[0] <= 0.0 {
      DescendingTail(vs);
    }
    NothingOverdrawnIff(vs, wants);
    AtMostOneScaled(Repayments(prices, a));
    SeizedValue(prices, ps, Taken(vs, wants));
    SignOfRows(prices, SeizeEach(prices, ps, Taken(vs, wants)));
  }

  lemma {:induction false} AtMostOneScaled(vs: seq<real>)
    ensures AtMostOne(Scale(vs, BONUS)) <==> AtMostOne(vs)
  {
    var ws := Scale(vs, BONUS);
    assert forall l | 0 <= l < |vs| :: ws[l] <= 0.0 <==> vs[l] <= 0.0;
  }

  lemma {:induction false} SignOfRows(prices: Prices, ps: seq<Pledge>)
    requires forall p <- Valued(prices, ps) :: PriceOf(prices, p.symbol) > 0.0
    ensures NonNegative(Map(ValueOf(prices), ps)) <==> forall p <- Valued(prices, ps) :: p.amount >= 0.0
  {
    var after := Valued(prices, ps);
    forall i | 0 <= i < |ps| ensures after[i].amount >= 0.0 <==> Value(prices, ps[i]) >= 0.0 {
      assert after[i] in after;
      var price := PriceOf(prices, ps[i].symbol);
      assert ps[i].amount == Value(prices, ps[i]) / price;
    }
    if NonNegative(Map(ValueOf(prices), ps)) {
      forall p | p in after ensures p.amount >= 0.0 {
        var i :| 0 <= i < |after| && after[i] == p;
        assert Map(ValueOf(prices), ps)[i] >= 0.0;
      }
    }
  }

  /**
   * The loan-to-value ratio after a round that the collateral can pay for: still above the 70% it
   * aims at, and lower than before exactly when the collateral exceeded 1.05 times the debt.
   */
  lemma {:induction false} RatioAfterRound(prices: Prices, a: Account)
    requires Sane(prices, a) && Eligible(prices, a)
    requires 1.05 * ToRepay(C(prices, a), B(prices, a)) < C(prices, a)
    ensures var r := Round(prices, a);
      && C(prices, r) > 0.0
      && HealthOf(prices, r.pledges, r.loans).ltv > TARGET_LTV
      && (HealthOf(prices, r.pledges, r.loans).ltv < HealthOf(prices, a.pledges, a.loans).ltv
          <==> C(prices, a) > 1.05 * B(prices, a))
  {
    EligibleRepays(prices, a);
    RoundConserves(prices, a);
    RoundCollateral(prices, a);
    SumNonNegative(WantedFor(prices, a));
    RatioCompared(C(prices, a), B(prices, a), ToRepay(C(prices, a), B(prices, a)));
  }

  lemma {:induction false} RatioCompared(c: real, b: real, t: real)
    requires c > 0.0 && t == b - 0.7 * c > 0.0 && 1.05 * t < c
    ensures Ltv(c - 1.05 * t, b - t) > 0.7
    ensures Ltv(c - 1.05 * t, b - t) < Ltv(c, b) <==> c > 1.05 * b
  {
    var c', b' := c - 1.05 * t, b - t;
    assert b' == 0.7 * c > 0.7 * c';
    var x, y := b' / c', b / c;
    assert x * c' == b' && y * c == b;
    Quotient(b', c', 0.7);
    assert b' * c - b * c' == t * (1.05 * b - c);
    assert b' * c - b * c' == (x - y) * (c * c') by {
      assert b' * c == x * c' * c == x * (c * c');
      assert b * c' == y * c * c' == y * (c * c');
    }
    MulSign(x - y, c * c');
    MulSign(1.05 * b - c, t);
  }

  /**
   * A liquidation leaves no collateral exactly when 1.05 times what it repays reaches the collateral.
   * It then leaves a debt of 70% of the old collateral, and the account reads as healthy.
   */
  lemma {:induction false} UncoveredReadsHealthy(prices: Prices, a: Account)
    requires Sane(prices, a) && Eligible(prices, a)
    ensures C(prices, Round(prices, a)) <= 0.0 <==> 1.05 * ToRepay(C(prices, a), B(prices, a)) >= C(prices, a)
    ensures 1.05 * ToRepay(C(prices, a), B(prices, a)) >= C(prices, a) ==>
      var r := Round(prices, a);
      var h := HealthOf(prices, r.pledges, r.loans);
      h.collateral <= 0.0 && h.borrowed == 0.7 * C(prices, a) > 0.0 && h.ltv == 0.0 && h.status == HEALTHY
  {
    EligibleRepays(prices, a);
    RoundConserves(prices, a);
    RoundCollateral(prices, a);
    SumNonNegative(WantedFor(prices, a));
  }

  // ---------------------------------------------------------------------------------------------
  // Any number of rounds
  // ---------------------------------------------------------------------------------------------

  lemma {:induction false} RoundStaysSane(prices: Prices, a: Account)
    requires Sane(prices, a)
    ensures Sane(prices, Round(prices, a))
    ensures var r := Round(prices, a);
      !Eligible(prices, a) ==> HealthOf(prices, r.pledges, r.loans) == HealthOf(prices, a.pledges, a.loans)
  {
    if Eligible(prices, a) {
      RoundConserves(prices, a);
    } else {
      var vs := Valued(prices, a.pledges);
      forall p | p in vs ensures PriceOf(prices, p.symbol) > 0.0 {
        var i :| 0 <= i < |vs| && vs[i] == p;
        assert a.pledges[i] in a.pledges;
      }
      ValuedTwice(prices, a.pledges, a.loans);
    }
  }

  function After(prices: Prices, a: Account, n: nat): (r: Account)
    requires Sane(prices, a)
    ensures Sane(prices, r)
    decreases n
  {
    if n == 0 then a
    else
      RoundStaysSane(prices, a);
      After(prices, Round(prices, a), n - 1)
  }

  /** One round on an account whose collateral exceeds 1.05 times its debt. */
  lemma {:induction false} CoveredRound(prices: Prices, a: Account)
    requires Sane(prices, a) && Eligible(prices, a) && C(prices, a) > 1.05 * B(prices, a)
    ensures var d := C(prices, a) - 1.05 * B(prices, a);
      && C(prices, Round(prices, a)) - 1.05 * B(prices, Round(prices, a)) == d
      && B(prices, Round(prices, a)) <= 7.0 / 9.0 * B(prices, a)
      && B(prices, Round(prices, a)) <= B(prices, a) - 40.0 / 11.0 * d
  {
    EligibleRepays(prices, a);
    RoundConserves(prices, a);
    RoundCollateral(prices, a);
    SumNonNegative(WantedFor(prices, a));
  }

  /**
   * As many rounds as cover 11 B / (40 (C - 1.05 B)) bring an account whose collateral exceeds
   * 1.05 times its debt below the liquidation threshold, with collateral left and the difference
   * conserved, and it stays there.
   */
  lemma {:induction false} RoundsSuffice(prices: Prices, a: Account, n: nat)
    requires Sane(prices, a) && C(prices, a) > 1.05 * B(prices, a)
    requires 40.0 / 11.0 * (C(prices, a) - 1.05 * B(prices, a)) * (n as real) >= B(prices, a)
    ensures Safe(prices, After(prices, a, n))
    ensures C(prices, After(prices, a, n)) - 1.05 * B(prices, After(prices, a, n)) == C(prices, a) - 1.05 * B(prices, a)
    decreases n
  {
    hide Round, Eligible, Sane, C, B;
    var d := C(prices, a) - 1.05 * B(prices, a);
    OwedTotal(prices, a);
    if n == 0 {
      NoDebtIsSafe(prices, a);
    } else {
      RoundStaysSane(prices, a);
      var r := Round(prices, a);
      OwedTotal(prices, r);
      if Eligible(prices, a) {
        CoveredRound(prices, a);
        assert 40.0 / 11.0 * d * ((n - 1) as real) == 40.0 / 11.0 * d * (n as real) - 40.0 / 11.0 * d;
        RoundsSuffice(prices, r, n - 1);
      } else {
        assert C(prices, r) == C(prices, a) && B(prices, r) == B(prices, a) && !Eligible(prices, r) by {
          SameTotals(prices, a);
        }
        StaysPut(prices, r, n - 1);
      }
    }
  }

  lemma {:induction false} OwedTotal(prices: Prices, a: Account)
    requires Sane(prices, a)
    ensures 0.0 <= B(prices, a)
  {
    OwedNonNegative(prices, a.loans);
  }

  lemma {:induction false} NoDebtIsSafe(prices: Prices, a: Account)
    requires Sane(prices, a) && B(prices, a) <= 0.0 && C(prices, a) > 1.05 * B(prices, a)
    ensures Safe(prices, a)
  {
    OwedTotal(prices, a);
  }

  lemma {:induction false} SameTotals(prices: Prices, a: Account)
    requires Sane(prices, a) && !Eligible(prices, a)
    ensures C(prices, Round(prices, a)) == C(prices, a) && B(prices, Round(prices, a)) == B(prices, a)
    ensures !Eligible(prices, Round(prices, a))
  {
    RoundStaysSane(prices, a);
    ValuedTwice(prices, a.pledges, a.loans);
  }

  /** An account that is not eligible is left alone by every later round. */
  lemma {:induction false} StaysPut(prices: Prices, a: Account, n: nat)
    requires Sane(prices, a) && !Eligible(prices, a)
    ensures !Eligible(prices, After(prices, a, n))
    ensures C(prices, After(prices, a, n)) == C(prices, a) && B(prices, After(prices, a, n)) == B(prices, a)
    decreases n
  {
    hide Round, Eligible, Sane, C, B;
    if n > 0 {
      RoundStaysSane(prices, a);
      SameTotals(prices, a);
      StaysPut(prices, Round(prices, a), n - 1);
    }
  }

  /** Collateral of at most 1.05 times the debt: no number of rounds makes the account safe. */
  lemma {:induction false} NeverRescued(prices: Prices, a: Account, n: nat)
    requires Sane(prices, a) && !Safe(prices, a) && C(prices, a) <= 1.05 * B(prices, a)
    ensures !Safe(prices, After(prices, a, n))
    decreases n
  {
    hide Round, Sane, C, B;
    if n > 0 {
      RoundStaysSane(prices, a);
      var r := Round(prices, a);
      if Eligible(prices, a) {
        UncoveredRound(prices, a);
        NeverRescued(prices, r, n - 1);
      } else {
        SameTotals(prices, a);
        NeverRescued(prices, r, n - 1);
      }
    }
  }

  lemma {:induction false} UncoveredRound(prices: Prices, a: Account)
    requires Sane(prices, a) && Eligible(prices, a) && C(prices, a) <= 1.05 * B(prices, a)
    ensures Sane(prices, Round(prices, a)) && !Safe(prices, Round(prices, a))
    ensures C(prices, Round(prices, a)) <= 1.05 * B(prices, Round(prices, a))
  {
    hide Round, C, B, WantedFor;
    RoundConserves(prices, a);
    var r := Round(prices, a);
    OwedTotal(prices, r);
    UncoveredTotals(C(prices, r), B(prices, r));
    assert !Safe(prices, r) by {
      SafeByTotals(prices, r);
    }
  }

  lemma {:induction false} SafeByTotals(prices: Prices, a: Account)
    ensures Safe(prices, a) <==> C(prices, a) > 0.0 && Ltv(C(prices, a), B(prices, a)) < 0.9
  {
  }

  lemma {:induction false} UncoveredTotals(c: real, b: real)
    requires 0.0 <= b && (c <= 0.0 || c <= 1.05 * b)
    ensures c <= 1.05 * b && !(c > 0.0 && Ltv(c, b) < 0.9)
  {
    if c > 0.0 {
      var ltv := b / c;
      assert ltv * c == b;
      MulSign(ltv - 0.9, c);
    }
  }

  /**
   * Repeated partial liquidation at fixed prices rescues an eligible account, that is brings it
   * below the threshold with collateral to its name, exactly when collateral exceeds 1.05 times debt.
   */
  lemma {:induction false} RescuedIff(prices: Prices, a: Account)
    requires Sane(prices, a) && Eligible(prices, a)
    ensures (exists n: nat :: Safe(prices, After(prices, a, n))) <==> C(prices, a) > 1.05 * B(prices, a)
  {
    if C(prices, a) > 1.05 * B(prices, a) {
      var d := 40.0 / 11.0 * (C(prices, a) - 1.05 * B(prices, a));
      OwedTotal(prices, a);
      var n := Covers(d, B(prices, a));
      RoundsSuffice(prices, a, n);
    } else {
      forall n: nat ensures !Safe(prices, After(prices, a, n)) {
        NeverRescued(prices, a, n);
      }
    }
  }

  lemma {:induction false} Covers(step: real, total: real) returns (n: nat)
    requires 0.0 < step && 0.0 <= total
    ensures step * (n as real) >= total
  {
    n := (total / step).Floor + 1;
    assert (n as real) >= total / step;
    assert step * (n as real) >= step * (total / step) == total;
  }
}
