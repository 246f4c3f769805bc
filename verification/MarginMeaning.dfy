/** What the numbers of a margin account mean, and what a full liquidation leaves. */
module MarginMeaning {
  import opened Greedy
  import opened Sorting
  import opened Margin
  import opened LiquidationRounds

  lemma {:induction false} SumMapAppend<T>(f: T -> real, s: seq<T>, x: T)
    ensures Sum(Map(f, s + [x])) == Sum(Map(f, s)) + f(x)
  {
    PrefixSum(f, s + [x], |s|);
    assert (s + [x])[..|s| + 1] == s + [x] && (s + [x])[..|s|] == s;
  }

  /** A further pledge adds its amount at its price to the collateral, and that less its haircut to the adjusted total. */
  lemma {:induction false} PledgeAdds(prices: Prices, pledges: seq<Pledge>, loans: seq<Loan>, p: Pledge)
    ensures var before, after := HealthOf(prices, pledges, loans), HealthOf(prices, pledges + [p], loans);
      var price := if p.symbol in prices then prices[p.symbol] else 0.0;
      && after.collateral == before.collateral + p.amount * price
      && after.adjusted == before.adjusted + p.amount * price - p.haircut * (p.amount * price)
      && after.borrowed == before.borrowed
  {
    hide Sum, Map;
    SumMapAppend(ValueOf(prices), pledges, p);
    SumMapAppend(AdjustedOf(prices), pledges, p);
    var value := Value(prices, p);
    assert value * (1.0 - p.haircut) == value - p.haircut * value;
  }

  /** A further loan adds its principal and its interest at their price to the debt. */
  lemma {:induction false} LoanAdds(prices: Prices, pledges: seq<Pledge>, loans: seq<Loan>, l: Loan)
    ensures var before, after := HealthOf(prices, pledges, loans), HealthOf(prices, pledges, loans + [l]);
      var price := if l.symbol in prices then prices[l.symbol] else 0.0;
      && after.borrowed == before.borrowed + l.amount * price + l.accruedInterest * price
      && after.collateral == before.collateral && after.adjusted == before.adjusted
  {
    hide Sum, Map;
    SumMapAppend(OwedOn(prices), loans, l);
    var price := PriceOf(prices, l.symbol);
    assert (l.amount + l.accruedInterest) * price == l.amount * price + l.accruedInterest * price;
  }

  /** An account without rows has nothing and owes nothing. */
  lemma {:induction false} NoRows(prices: Prices)
    ensures var h := HealthOf(prices, [], []);
      h.collateral == h.adjusted == h.borrowed == h.ltv == 0.0 && h.factor == 100.0 && h.status == HEALTHY
  {
    assert Map(ValueOf(prices), []) == [] && Map(AdjustedOf(prices), []) == [] && Map(OwedOn(prices), []) == [];
  }

  /**
   * The ratio and the factor against the totals, and the status against both limits: called from 80%
   * of the collateral on, to be liquidated from 90% on, and healthy whatever the debt without collateral.
   */
  lemma {:induction false} HealthMeaning(prices: Prices, pledges: seq<Pledge>, loans: seq<Loan>)
    ensures var h := HealthOf(prices, pledges, loans);
      && (h.collateral > 0.0 ==> h.ltv * h.collateral == h.borrowed)
      && (h.borrowed > 0.0 ==> h.factor * h.borrowed == h.adjusted)
      && (h.collateral > 0.0 ==>
            && (h.status == LIQUIDATION_PENDING <==> 0.9 * h.collateral <= h.borrowed)
            && (h.status == MARGIN_CALL <==> 0.8 * h.collateral <= h.borrowed < 0.9 * h.collateral)
            && (h.status == HEALTHY <==> h.borrowed < 0.8 * h.collateral))
      && (h.collateral <= 0.0 ==> h.ltv == 0.0 && h.status == HEALTHY)
      && (AtRisk(h) <==> h.status != HEALTHY) && (Eligible(prices, Account(pledges, loans)) <==> h.status == LIQUIDATION_PENDING)
  {
    var c, b := Collateral(prices, pledges), Borrowed(prices, loans);
    var a := Sum(Map(AdjustedOf(prices), pledges));
    hide Collateral, Borrowed;
    if c > 0.0 {
      LimitAt(c, b, 0.9);
      LimitAt(c, b, 0.8);
    }
    if b > 0.0 {
      assert a / b * b == a;
    }
  }

  lemma {:induction false} LimitAt(c: real, b: real, k: real)
    requires c > 0.0
    ensures b / c >= k <==> k * c <= b
    ensures b / c * c == b
  {
    var q := b / c;
    assert q * c == b;
    MulSign(k - q, c);
    assert (k - q) * c == k * c - b;
  }

  /** A full liquidation repays every loan in full, in whatever order, and wants 1.05 times the debt for it. */
  lemma {:induction false} FullLiquidation(prices: Prices, a: Account)
    requires Sane(prices, a)
    ensures var ls := SortedLoans(a.loans);
      && AllPriced(prices, a.pledges, ls)
      && Borrowed(prices, RepayEach(prices, ls, Repaid(prices, ls, B(prices, a)))) == 0.0
      && Sum(Wanted(prices, ls, B(prices, a))) == 1.05 * B(prices, a)
  {
    SortedTotals(prices, a);
    SortKeepsPrices(prices, a.pledges, a.loans);
    var ls := SortedLoans(a.loans);
    OwedNonNegative(prices, ls);
    TakesFit(Map(OwedOn(prices), ls), B(prices, a));
    RepaidDebt(prices, ls, Repaid(prices, ls, B(prices, a)));
    SumScale(Repaid(prices, ls, B(prices, a)), BONUS);
  }

  /** The monitor looks at every account but those stored as healthy with a ratio below 80%. */
  lemma {:induction false} AtRiskIff(h: Health)
    ensures AtRisk(h) <==> !(h.status == HEALTHY && h.ltv < 0.8)
  {
  }
}
