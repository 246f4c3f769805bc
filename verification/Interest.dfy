/** New loans and the interest that accrues on them: how long an accepted loan stays healthy. */
module Interest {
  import opened Greedy
  import opened Sorting
  import opened Margin

  predicate NonNegativePrices(prices: Prices) { forall s <- prices :: prices[s] >= 0.0 }

  /** What one year adds to a loan, in dollars: simple interest on the principal. */
  function YearlyOn(prices: Prices): Loan -> real {
    (l: Loan) => l.amount * l.interestRate * PriceOf(prices, l.symbol)
  }

  function Yearly(prices: Prices, loans: seq<Loan>): real { Sum(Map(YearlyOn(prices), loans)) }

  function Days(loans: seq<Loan>, n: nat): seq<Loan>
    decreases n
  {
    if n == 0 then loans else Days(Accrued(loans), n - 1)
  }

  lemma {:induction false} SumNonNegativeOf<T>(f: T -> real, s: seq<T>)
    requires forall i | 0 <= i < |s| :: 0.0 <= f(s[i])
    ensures 0.0 <= Sum(Map(f, s))
  {
    SumNonNegative(Map(f, s));
  }

  /** A request is granted on positive collateral up to 70%, and on an overdrawn account always. */
  lemma {:induction false} GrantedIff(prices: Prices, pledges: seq<Pledge>, loans: seq<Loan>, value: real)
    requires NonNegativePrices(prices) && Sound(loans) && 0.0 <= value
    ensures var c, total := Collateral(prices, pledges), Borrowed(prices, loans) + value;
      !Refused(c, Borrowed(prices, loans), value) <==>
        (c < 0.0 || (c == 0.0 && total == 0.0) || (c > 0.0 && total <= 0.7 * c))
  {
    DebtNonNegative(prices, loans);
    if Collateral(prices, pledges) != 0.0 {
      Quotient(Borrowed(prices, loans) + value, Collateral(prices, pledges), 0.7);
    }
  }

  lemma {:induction false} DebtNonNegative(prices: Prices, loans: seq<Loan>)
    requires NonNegativePrices(prices) && Sound(loans)
    ensures 0.0 <= Borrowed(prices, loans)
  {
    forall i | 0 <= i < |loans| ensures 0.0 <= Owes(prices, loans[i]) {
      assert loans[i] in loans;
    }
    SumNonNegativeOf(OwedOn(prices), loans);
  }

  /** A loan granted on positive collateral leaves the account healthy at 70% or less. */
  lemma {:induction false} GrantedLoanIsHealthy(prices: Prices, pledges: seq<Pledge>, loans: seq<Loan>, loan: Loan)
    requires NonNegativePrices(prices) && Sound(loans) && Sound([loan]) && loan.accruedInterest == 0.0
    requires Collateral(prices, pledges) > 0.0
    requires !Refused(Collateral(prices, pledges), Borrowed(prices, loans), loan.amount * PriceOf(prices, loan.symbol))
    ensures Sound(loans + [loan])
    ensures HealthOf(prices, pledges, loans + [loan]).ltv <= 0.7
    ensures HealthOf(prices, pledges, loans + [loan]).status == HEALTHY
  {
    assert loan in [loan];
    GrantedIff(prices, pledges, loans, loan.amount * PriceOf(prices, loan.symbol));
    PrefixSum(OwedOn(prices), loans + [loan], |loans|);
    assert (loans + [loan])[..|loans|] == loans && (loans + [loan])[..|loans| + 1] == loans + [loan];
    Quotient(Borrowed(prices, loans + [loan]), Collateral(prices, pledges), 0.7);
  }

  lemma {:induction false} OneDay(prices: Prices, loans: seq<Loan>)
    requires Sound(loans)
    ensures Sound(Accrued(loans))
    ensures Borrowed(prices, Accrued(loans)) == Borrowed(prices, loans) + Yearly(prices, loans) / 365.0
    ensures Yearly(prices, Accrued(loans)) == Yearly(prices, loans)
  {
    var after := Accrued(loans);
    var daily := Scale(Map(YearlyOn(prices), loans), 1.0 / 365.0);
    assert after == seq(|loans|, i requires 0 <= i < |loans| => AccruedOnce(loans[i]));
    hide Owes, PriceOf, Accrued, Sum, Scale, AccruedOnce;
    forall l | l in after
      ensures 0.0 <= l.amount && 0.0 <= l.accruedInterest && 0.0 <= l.interestRate <= INTEREST_RATE
    {
      var i :| 0 <= i < |after| && after[i] == l;
      assert loans[i] in loans;
      AccruedRow(prices, loans[i]);
    }
    ScaleAt(Map(YearlyOn(prices), loans), 1.0 / 365.0);
    forall i | 0 <= i < |loans|
      ensures Owes(prices, after[i]) == Owes(prices, loans[i]) + daily[i]
      ensures YearlyOn(prices)(after[i]) == YearlyOn(prices)(loans[i])
    {
      AccruedRow(prices, loans[i]);
    }
    assert Map(OwedOn(prices), after) == Plus(Map(OwedOn(prices), loans), daily);
    SumPlus(Map(OwedOn(prices), loans), daily);
    SumScale(Map(YearlyOn(prices), loans), 1.0 / 365.0);
    assert Map(YearlyOn(prices), after) == Map(YearlyOn(prices), loans);
  }

  function AccruedOnce(l: Loan): Loan {
    l.(accruedInterest := l.accruedInterest + l.amount * (l.interestRate / 365.0))
  }

  lemma {:induction false} AccruedRow(prices: Prices, l: Loan)
    ensures Owes(prices, AccruedOnce(l)) == Owes(prices, l) + YearlyOn(prices)(l) * (1.0 / 365.0)
    ensures YearlyOn(prices)(AccruedOnce(l)) == YearlyOn(prices)(l)
    ensures 0.0 <= l.amount && 0.0 <= l.interestRate ==> l.accruedInterest <= AccruedOnce(l).accruedInterest
    ensures AccruedOnce(l).amount == l.amount && AccruedOnce(l).interestRate == l.interestRate
  {
    var price := PriceOf(prices, l.symbol);
    var yearly := l.amount * l.interestRate;
    assert l.amount * (l.interestRate / 365.0) == yearly * (1.0 / 365.0);
    assert (yearly * (1.0 / 365.0)) * price == (yearly * price) * (1.0 / 365.0);
  }

  /** After n days the debt has grown by n days of simple interest, whatever had accrued before. */
  lemma {:induction false} DebtAfterDays(prices: Prices, loans: seq<Loan>, n: nat)
    requires Sound(loans)
    ensures Borrowed(prices, Days(loans, n)) == Borrowed(prices, loans) + n as real * Yearly(prices, loans) / 365.0
    decreases n
  {
    if n > 0 {
      OneDay(prices, loans);
      DebtAfterDays(prices, Accrued(loans), n - 1);
      assert (n - 1) as real * Yearly(prices, loans) == n as real * Yearly(prices, loans) - Yearly(prices, loans);
    }
  }

  /** The account is still healthy on day n exactly while the interest fits below 80% of the collateral. */
  lemma {:induction false} HealthyOnDayIff(prices: Prices, pledges: seq<Pledge>, loans: seq<Loan>, n: nat)
    requires Sound(loans) && Collateral(prices, pledges) > 0.0
    ensures HealthOf(prices, pledges, Days(loans, n)).status == HEALTHY
       <==> Borrowed(prices, loans) + n as real * Yearly(prices, loans) / 365.0 < 0.8 * Collateral(prices, pledges)
  {
    DebtAfterDays(prices, loans, n);
    var c, b := Collateral(prices, pledges), Borrowed(prices, Days(loans, n));
    HealthyTotals(c, b);
  }

  lemma {:induction false} HealthyTotals(c: real, b: real)
    requires c > 0.0
    ensures StatusOf(Ltv(c, b)) == HEALTHY <==> b < 0.8 * c
  {
    var ltv := b / c;
    assert ltv * c == b;
    MulSign(0.8 - ltv, c);
    assert (0.8 - ltv) * c == 0.8 * c - b;
  }

  /** A year of interest is at most 5% of what is owed. */
  lemma {:induction false} YearlyBound(prices: Prices, loans: seq<Loan>)
    requires NonNegativePrices(prices) && Sound(loans)
    ensures Yearly(prices, loans) <= 0.05 * Borrowed(prices, loans)
    decreases |loans|
  {
    if loans != [] {
      var l := loans[0];
      assert l in loans && Sound(loans[1..]);
      YearlyBound(prices, loans[1..]);
      assert Map(YearlyOn(prices), loans)[1..] == Map(YearlyOn(prices), loans[1..]);
      assert Map(OwedOn(prices), loans)[1..] == Map(OwedOn(prices), loans[1..]);
      var price := PriceOf(prices, l.symbol);
      assert l.amount * l.interestRate <= l.amount * 0.05;
      assert l.amount * l.interestRate <= (l.amount + l.accruedInterest) * 0.05;
      Monotone(l.amount * l.interestRate, (l.amount + l.accruedInterest) * 0.05, price);
    }
  }

  /**
   * An account at 70% or less stays healthy through 1042 daily accruals at constant prices, however
   * many loans it has and however much of its debt is interest.
   */
  lemma {:induction false} HealthyFor1042Days(prices: Prices, pledges: seq<Pledge>, loans: seq<Loan>, n: nat)
    requires NonNegativePrices(prices) && Sound(loans) && Collateral(prices, pledges) > 0.0
    requires HealthOf(prices, pledges, loans).ltv <= 0.7 && n <= 1042
    ensures HealthOf(prices, pledges, Days(loans, n)).status == HEALTHY
  {
    hide Sum, Map, Days, NonNegativePrices, Sound, Owes, Value, PriceOf;
    var c, b, y := Collateral(prices, pledges), Borrowed(prices, loans), Yearly(prices, loans);
    assert HealthOf(prices, pledges, loans).ltv == b / c;
    Quotient(b, c, 0.7);
    YearlyBound(prices, loans);
    HealthyOnDayIff(prices, pledges, loans, n);
    InterestFits(c, b, y, n);
  }

  lemma {:induction false} InterestFits(c: real, b: real, y: real, n: nat)
    requires 0.0 < c && b <= 0.7 * c && y <= 0.05 * b && n <= 1042
    ensures b + n as real * y / 365.0 < 0.8 * c
  {
    var days := n as real;
    var most := 0.035 * c;
    Monotone(y, most, days);
    Monotone(days, 1042.0, most);
    assert days * y == y * days <= most * days == days * most <= 1042.0 * most;
    BelowMarginCall(c, b, days * y);
  }

  lemma {:induction false} BelowMarginCall(c: real, b: real, z: real)
    requires 0.0 < c && b <= 0.7 * c && z <= 1042.0 * (0.035 * c)
    ensures b + z / 365.0 < 0.8 * c
  {
    assert z <= 36.47 * c;
  }

  /** One day more is too many: a fresh loan at exactly 70% is called on day 1043. */
  lemma {:induction false} Day1043Calls(prices: Prices, pledges: seq<Pledge>, loans: seq<Loan>)
    requires prices == map["USDC" := 1.0, "XLM" := 0.12]
    requires pledges == [Pledge(1, "USDC", 100.0, 0.05, 100.0)]
    requires loans == [Loan(1, "USDC", 70.0, 0.0, INTEREST_RATE)]
    ensures HealthOf(prices, pledges, loans).ltv <= 0.7 && HealthOf(prices, pledges, loans).status == HEALTHY
    ensures HealthOf(prices, pledges, Days(loans, 1043)).status != HEALTHY
  {
    hide Days, Sum;
    SumOne(100.0);
    SumOne(70.0);
    SumOne(3.5);
    assert Map(ValueOf(prices), pledges) == [100.0] && Map(OwedOn(prices), loans) == [70.0];
    assert Map(YearlyOn(prices), loans) == [3.5];
    HealthyOnDayIff(prices, pledges, loans, 1043);
  }
}
