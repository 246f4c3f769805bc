/** Margin accounts: valuation, new loans, daily interest, and the liquidation of one account. */
module Margin {
  import opened Common
  import opened Greedy
  import opened Sorting

  /** `lastValuation` is the dollar value stored by the latest health calculation. */
  datatype Pledge = Pledge(id: int, symbol: string, amount: real, haircut: real, lastValuation: real)

  /** An active loan. One that is repaid in full stays as a row that owes nothing. */
  datatype Loan = Loan(id: int, symbol: string, amount: real, accruedInterest: real, interestRate: real)

  datatype Status = HEALTHY | MARGIN_CALL | LIQUIDATION_PENDING

  datatype Health = Health(collateral: real, adjusted: real, borrowed: real, ltv: real, factor: real, status: Status)

  datatype Result = Done | NotEligible | NothingToLiquidate | ExceedsMaximumLtv

  const TARGET_LTV := 0.7
  const MAX_INITIAL_LTV := 0.7
  const BONUS := 1.05
  const INTEREST_RATE := 0.05

  /** Oracle prices; an unknown symbol is priced 0. */
  type Prices = map<string, real>

  function PriceOf(prices: Prices, symbol: string): real {
    if symbol in prices then prices[symbol] else 0.0
  }

  predicate AllPriced(prices: Prices, pledges: seq<Pledge>, loans: seq<Loan>) {
    && (forall p <- pledges :: PriceOf(prices, p.symbol) > 0.0)
    && (forall l <- loans :: PriceOf(prices, l.symbol) > 0.0)
  }

  predicate Sound(loans: seq<Loan>) {
    forall l <- loans :: 0.0 <= l.amount && 0.0 <= l.accruedInterest && 0.0 <= l.interestRate <= INTEREST_RATE
  }

  function Value(prices: Prices, p: Pledge): real { p.amount * PriceOf(prices, p.symbol) }

  function Owes(prices: Prices, l: Loan): real { (l.amount + l.accruedInterest) * PriceOf(prices, l.symbol) }

  function ValueOf(prices: Prices): Pledge -> real { (p: Pledge) => Value(prices, p) }

  function AdjustedOf(prices: Prices): Pledge -> real { (p: Pledge) => Value(prices, p) * (1.0 - p.haircut) }

  function OwedOn(prices: Prices): Loan -> real { (l: Loan) => Owes(prices, l) }

  function Collateral(prices: Prices, pledges: seq<Pledge>): real { Sum(Map(ValueOf(prices), pledges)) }

  function Borrowed(prices: Prices, loans: seq<Loan>): real { Sum(Map(OwedOn(prices), loans)) }

  function Ltv(collateral: real, borrowed: real): real {
    if collateral > 0.0 then borrowed / collateral else 0.0
  }

  function StatusOf(ltv: real): Status {
    if ltv >= 0.9 then LIQUIDATION_PENDING else if ltv >= 0.8 then MARGIN_CALL else HEALTHY
  }

  function HealthOf(prices: Prices, pledges: seq<Pledge>, loans: seq<Loan>): Health {
    var c := Collateral(prices, pledges);
    var a := Sum(Map(AdjustedOf(prices), pledges));
    var b := Borrowed(prices, loans);
    Health(c, a, b, Ltv(c, b), if b > 0.0 then a / b else 100.0, StatusOf(Ltv(c, b)))
  }

  function Valued(prices: Prices, pledges: seq<Pledge>): (r: seq<Pledge>)
    ensures |r| == |pledges|
  {
    seq(|pledges|, i requires 0 <= i < |pledges| => pledges[i].(lastValuation := Value(prices, pledges[i])))
  }

  /** Exactly when a loan worth `value` dollars is refused; a division by zero yields infinity, or no number for 0/0. */
  predicate Refused(collateral: real, borrowed: real, value: real) {
    if collateral == 0.0 then borrowed + value > 0.0
    else (borrowed + value) / collateral > MAX_INITIAL_LTV
  }

  function Accrued(loans: seq<Loan>): (r: seq<Loan>)
    ensures |r| == |loans|
  {
    seq(|loans|, i requires 0 <= i < |loans| =>
      loans[i].(accruedInterest := loans[i].accruedInterest + loans[i].amount * (loans[i].interestRate / 365.0)))
  }

  // ---------------------------------------------------------------------------------------------
  // Liquidation, as a function of the rows
  // ---------------------------------------------------------------------------------------------

  /** How much debt, in dollars, a partial liquidation sets out to repay. */
  function ToRepay(collateral: real, borrowed: real): real {
    MaxR(borrowed - collateral * TARGET_LTV, borrowed * 0.2)
  }

  /** A pledge row after `dollars` worth of it has been seized. */
  function Seize(prices: Prices, p: Pledge, dollars: real): Pledge
    requires PriceOf(prices, p.symbol) > 0.0
  {
    p.(amount := p.amount - dollars / PriceOf(prices, p.symbol))
  }

  /** A loan row after `dollars` worth of it has been repaid: interest first, then principal. */
  function Repay(prices: Prices, l: Loan, dollars: real): Loan
    requires PriceOf(prices, l.symbol) > 0.0
  {
    var amount := dollars / PriceOf(prices, l.symbol);
    if amount >= l.amount + l.accruedInterest then l.(amount := 0.0, accruedInterest := 0.0)
    else
      var interest := MinR(l.accruedInterest, amount);
      l.(accruedInterest := l.accruedInterest - interest, amount := l.amount - (amount - interest))
  }

  function SeizeEach(prices: Prices, pledges: seq<Pledge>, dollars: seq<real>): (r: seq<Pledge>)
    requires |pledges| == |dollars| && forall p <- pledges :: PriceOf(prices, p.symbol) > 0.0
    ensures |r| == |pledges|
  {
    seq(|pledges|, i requires 0 <= i < |pledges| => Seize(prices, pledges[i], dollars[i]))
  }

  function RepayEach(prices: Prices, loans: seq<Loan>, dollars: seq<real>): (r: seq<Loan>)
    requires |loans| == |dollars| && forall l <- loans :: PriceOf(prices, l.symbol) > 0.0
    ensures |r| == |loans|
  {
    seq(|loans|, i requires 0 <= i < |loans| => Repay(prices, loans[i], dollars[i]))
  }

  function ByValuation(): Pledge -> real { (p: Pledge) => p.lastValuation }

  function ByAmount(): Loan -> real { (l: Loan) => l.amount }

  /** The order in which pledges are seized and loans repaid. */
  function SortedPledges(prices: Prices, pledges: seq<Pledge>): seq<Pledge> {
    Sort(ByValuation(), Valued(prices, pledges))
  }

  function SortedLoans(loans: seq<Loan>): seq<Loan> { Sort(ByAmount(), loans) }

  /** Dollars repaid on each loan of a sorted list. */
  function Repaid(prices: Prices, loans: seq<Loan>, total: real): (r: seq<real>)
    ensures |r| == |loans|
  {
    Takes(Map(OwedOn(prices), loans), total)
  }

  /** Dollars of collateral wanted for each loan of a sorted list: the repayment and the bonus. */
  function Wanted(prices: Prices, loans: seq<Loan>, total: real): (r: seq<real>)
    ensures |r| == |loans|
  {
    Scale(Repaid(prices, loans, total), BONUS)
  }

  /**
   * Dollars taken from each pledge of a sorted list. For every loan the pledges are read as they
   * were before the liquidation began.
   */
  function Seized(prices: Prices, pledges: seq<Pledge>, loans: seq<Loan>, total: real): (r: seq<real>)
    ensures |r| == |pledges|
  {
    Taken(Map(ValueOf(prices), pledges), Wanted(prices, loans, total))
  }

  lemma {:induction false} SortKeepsPrices(prices: Prices, pledges: seq<Pledge>, loans: seq<Loan>)
    requires AllPriced(prices, pledges, loans)
    ensures AllPriced(prices, SortedPledges(prices, pledges), SortedLoans(loans))
    ensures Sound(loans) ==> Sound(SortedLoans(loans))
  {
    var vs := Valued(prices, pledges);
    SortElements(ByValuation(), vs);
    SortElements(ByAmount(), loans);
    forall p | p in SortedPledges(prices, pledges) ensures PriceOf(prices, p.symbol) > 0.0 {
      assert p in multiset(vs);
      var i :| 0 <= i < |vs| && vs[i] == p;
      assert pledges[i] in pledges;
    }
    forall l | l in SortedLoans(loans) ensures l in loans {
      assert l in multiset(loans);
    }
  }

  /** The rows of an account as one value. */
  datatype Account = Account(pledges: seq<Pledge>, loans: seq<Loan>)

  predicate Sane(prices: Prices, a: Account) { AllPriced(prices, a.pledges, a.loans) && Sound(a.loans) }

  predicate Eligible(prices: Prices, a: Account) { HealthOf(prices, a.pledges, a.loans).ltv >= 0.9 }

  /** The rows after one liquidation pass over the account. */
  function Round(prices: Prices, a: Account): Account
    requires Sane(prices, a)
  {
    if !Eligible(prices, a) then Account(Valued(prices, a.pledges), a.loans)
    else
      SortKeepsPrices(prices, a.pledges, a.loans);
      var ps, ls := SortedPledges(prices, a.pledges), SortedLoans(a.loans);
      var total := ToRepay(Collateral(prices, a.pledges), Borrowed(prices, a.loans));
      Account(Valued(prices, SeizeEach(prices, ps, Seized(prices, ps, ls, total))),
              RepayEach(prices, ls, Repaid(prices, ls, total)))
  }

  lemma {:induction false} SeizeTwice(prices: Prices, pledges: seq<Pledge>, a: seq<real>, b: seq<real>)
    requires |pledges| == |a| == |b| && forall p <- pledges :: PriceOf(prices, p.symbol) > 0.0
    ensures forall p <- SeizeEach(prices, pledges, a) :: PriceOf(prices, p.symbol) > 0.0
    ensures SeizeEach(prices, SeizeEach(prices, pledges, a), b) == SeizeEach(prices, pledges, Plus(a, b))
  {
    var once := SeizeEach(prices, pledges, a);
    forall p | p in once ensures PriceOf(prices, p.symbol) > 0.0 {
      var i :| 0 <= i < |once| && once[i] == p;
      assert pledges[i] in pledges;
    }
    forall i | 0 <= i < |pledges|
      ensures Seize(prices, once[i], b[i]) == Seize(prices, pledges[i], Plus(a, b)[i])
    {
      var price := PriceOf(prices, pledges[i].symbol);
      assert a[i] / price + b[i] / price == (a[i] + b[i]) / price;
    }
  }

  lemma {:induction false} TakenLast(vs: seq<real>, wants: seq<real>, n: nat)
    requires n < |wants|
    ensures Plus(Taken(vs, wants[..n]), Takes(vs, wants[n])) == Taken(vs, wants[..n + 1])
  {
    forall i | 0 <= i < |vs|
      ensures TakenAt(vs, wants[..n], i) + Takes(vs, wants[n])[i] == TakenAt(vs, wants[..n + 1], i)
    {
      TakenAtLast(vs, wants, n, i);
    }
  }

  lemma {:induction false} TakenAtLast(vs: seq<real>, wants: seq<real>, n: nat, i: nat)
    requires n < |wants| && i < |vs|
    ensures TakenAt(vs, wants[..n], i) + Takes(vs, wants[n])[i] == TakenAt(vs, wants[..n + 1], i)
    decreases n
  {
    if n == 0 {
      assert wants[..1][1..] == [];
    } else {
      TakenAtLast(vs, wants[1..], n - 1, i);
      assert wants[..n][1..] == wants[1..][..n - 1];
      assert wants[..n + 1][1..] == wants[1..][..n];
    }
  }

  lemma {:induction false} RepayNothing(prices: Prices, l: Loan)
    requires PriceOf(prices, l.symbol) > 0.0 && 0.0 <= l.amount && 0.0 <= l.accruedInterest
    ensures Repay(prices, l, 0.0) == l
  {
  }

  /** The accounts the monitor selects, by the health stored at their last calculation. */
  predicate AtRisk(h: Health) { h.status == MARGIN_CALL || h.status == LIQUIDATION_PENDING || h.ltv >= 0.8 }

  lemma {:induction false} ValuedKeepsPrices(prices: Prices, pledges: seq<Pledge>, loans: seq<Loan>)
    requires AllPriced(prices, pledges, loans) && Sound(loans)
    ensures AllPriced(prices, Valued(prices, pledges), loans)
    ensures var a := Account(pledges, loans);
      Round(prices, a.(pledges := Valued(prices, pledges))) == Round(prices, a)
  {
    var vs := Valued(prices, pledges);
    forall p | p in vs ensures PriceOf(prices, p.symbol) > 0.0 {
      var i :| 0 <= i < |vs| && vs[i] == p;
      assert pledges[i] in pledges;
    }
    ValuedTwice(prices, pledges, loans);
  }

  // ---------------------------------------------------------------------------------------------
  // The account
  // ---------------------------------------------------------------------------------------------

  /** The rows of one margin account. The tables have no order; rows are listed as last read. */
  class MarginAccount {
    var pledges: seq<Pledge>
    var loans: seq<Loan>
    var health: Health

    constructor (pledges: seq<Pledge>, loans: seq<Loan>, health: Health)
      ensures this.pledges == pledges && this.loans == loans && this.health == health
    {
      this.pledges, this.loans, this.health := pledges, loans, health;
    }

    method CalculateHealth(prices: Prices)
      modifies this
      ensures loans == old(loans) && pledges == Valued(prices, old(pledges))
      ensures health == HealthOf(prices, old(pledges), loans)
    {
      ghost var was := pledges;
      var collateral, adjusted := ValuePledges(prices);
      var borrowed := 0.0;
      var i := 0;
      while i < |loans|
        invariant 0 <= i <= |loans| && loans == old(loans) && pledges == Valued(prices, was)
        invariant borrowed == Borrowed(prices, loans[..i])
      {
        var loan := loans[i];
        borrowed := borrowed + Owes(prices, loan);
        PrefixSum(OwedOn(prices), loans, i);
        i := i + 1;
      }
      assert loans[..i] == loans;
      var ltv := if collateral > 0.0 then borrowed / collateral else 0.0;
      var factor := if borrowed > 0.0 then adjusted / borrowed else 100.0;
      var status := HEALTHY;
      if ltv >= 0.9 {
        status := LIQUIDATION_PENDING;
      } else if ltv >= 0.8 {
        status := MARGIN_CALL;
      }
      health := Health(collateral, adjusted, borrowed, ltv, factor, status);
    }

    /** The loop over the pledges: their total value before and after haircuts. */
    method ValuePledges(prices: Prices) returns (collateral: real, adjusted: real)
      modifies this`pledges
      ensures pledges == Valued(prices, old(pledges))
      ensures collateral == Collateral(prices, old(pledges))
      ensures adjusted == Sum(Map(AdjustedOf(prices), old(pledges)))
    {
      hide Value, Sum, PriceOf;
      PrefixNothing(ValueOf(prices), pledges);
      PrefixNothing(AdjustedOf(prices), pledges);
      ghost var was := pledges;
      ghost var goal := Valued(prices, was);
      collateral, adjusted := 0.0, 0.0;
      var i := 0;
      while i < |pledges|
        invariant 0 <= i <= |pledges| == |was|
        invariant forall k | 0 <= k < i :: pledges[k] == goal[k]
        invariant forall k | i <= k < |was| :: pledges[k] == was[k]
        invariant collateral == Collateral(prices, was[..i])
        invariant adjusted == Sum(Map(AdjustedOf(prices), was[..i]))
      {
        var pledge := pledges[i];
        var value := Value(prices, pledge);
        PrefixSum(ValueOf(prices), was, i);
        PrefixSum(AdjustedOf(prices), was, i);
        assert AdjustedOf(prices)(was[i]) == value * (1.0 - pledge.haircut);
        collateral := collateral + value;
        adjusted := adjusted + value * (1.0 - pledge.haircut);
        pledges := pledges[i := pledge.(lastValuation := value)];
        i := i + 1;
      }
      assert was[..i] == was;
    }

    method RequestLoan(prices: Prices, id: int, symbol: string, amount: real) returns (result: Result)
      requires 1.0 <= amount
      modifies this
      ensures pledges == Valued(prices, old(pledges))
      ensures var refused := Refused(Collateral(prices, old(pledges)), Borrowed(prices, old(loans)),
          amount * PriceOf(prices, symbol));
        && result == (if refused then ExceedsMaximumLtv else Done)
        && loans == (if refused then old(loans) else old(loans) + [Loan(id, symbol, amount, 0.0, INTEREST_RATE)])
      ensures health == HealthOf(prices, old(pledges), loans)
    {
      CalculateHealth(prices);
      var borrowed := health.borrowed + amount * PriceOf(prices, symbol);
      if if health.collateral == 0.0 then borrowed > 0.0 else borrowed / health.collateral > MAX_INITIAL_LTV {
        return ExceedsMaximumLtv;
      }
      loans := loans + [Loan(id, symbol, amount, 0.0, INTEREST_RATE)];
      ValuedTwice(prices, old(pledges), loans);
      CalculateHealth(prices);
      return Done;
    }

    method AccrueInterest()
      modifies this`loans
      ensures loans == Accrued(old(loans))
    {
      ghost var goal := Accrued(loans);
      var i := 0;
      while i < |loans|
        invariant 0 <= i <= |loans| == |old(loans)|
        invariant forall k | 0 <= k < i :: loans[k] == goal[k]
        invariant forall k | i <= k < |loans| :: loans[k] == old(loans)[k]
      {
        var loan := loans[i];
        var dailyInterest := loan.amount * (loan.interestRate / 365.0);
        loans := loans[i := loan.(accruedInterest := loan.accruedInterest + dailyInterest)];
        i := i + 1;
      }
    }

    /** Seizes `needed` dollars of collateral in the order, and at the amounts, of the snapshot. */
    method SeizeFor(prices: Prices, snapshot: seq<Pledge>, needed: real)
      requires |snapshot| == |pledges| && forall p <- pledges :: PriceOf(prices, p.symbol) > 0.0
      modifies this`pledges
      ensures pledges == SeizeEach(prices, old(pledges), Takes(Map(ValueOf(prices), snapshot), needed))
    {
      hide Value, Seize, Takes, PriceOf;
      ghost var values := Map(ValueOf(prices), snapshot);
      ghost var takes := Takes(values, needed);
      ghost var goal := SeizeEach(prices, pledges, takes);
      assert values[0..] == values && takes[0..] == takes;
      var seized := 0.0;
      var j := 0;
      while j < |snapshot| && seized < needed
        invariant 0 <= j <= |snapshot| == |pledges| == |old(pledges)|
        invariant Takes(values[j..], needed - seized) == takes[j..]
        invariant forall k | 0 <= k < j :: pledges[k] == goal[k]
        invariant forall k | j <= k < |pledges| :: pledges[k] == old(pledges)[k]
      {
        var take := MinR(Value(prices, snapshot[j]), needed - seized);
        TakesStep(values, takes, j, needed - seized);
        assert pledges[j] in old(pledges);
        pledges := pledges[j := Seize(prices, pledges[j], take)];
        seized := seized + take;
        j := j + 1;
      }
      UnseizedRows(prices, snapshot, old(pledges), needed, j, needed - seized);
    }

    method LiquidateAccount(prices: Prices, partial: bool) returns (result: Result)
      requires AllPriced(prices, pledges, loans) && Sound(loans)
      modifies this
      ensures
        var h := HealthOf(prices, old(pledges), old(loans));
        var ps, ls := SortedPledges(prices, old(pledges)), SortedLoans(old(loans));
        var total := if partial then ToRepay(h.collateral, h.borrowed) else h.borrowed;
        AllPriced(prices, ps, ls) &&
        if h.ltv < 0.9 then
          result == NotEligible && pledges == Valued(prices, old(pledges)) && loans == old(loans) && health == h
        else
          && result == Done
          && pledges == Valued(prices, SeizeEach(prices, ps, Seized(prices, ps, ls, total)))
          && loans == RepayEach(prices, ls, Repaid(prices, ls, total))
          && health == HealthOf(prices, pledges, loans)
      ensures partial ==> Account(pledges, loans) == Round(prices, Account(old(pledges), old(loans)))
    {
      hide Value, Owes, Seize, Repay, Sort, SeizeEach, RepayEach, Seized, Repaid, Valued, Sum, Sound, AllPriced;
      SortKeepsPrices(prices, pledges, loans);
      EligibleHasRows(prices, pledges, loans);
      CalculateHealth(prices);
      if health.status != LIQUIDATION_PENDING && health.ltv < 0.9 {
        return NotEligible;
      }
      if |pledges| == 0 || |loans| == 0 {
        assert false;
        return NothingToLiquidate;
      }
      var ps := Sort(ByValuation(), pledges);
      var ls := Sort(ByAmount(), loans);
      var total := health.borrowed;
      if partial {
        total := MaxR(health.borrowed - health.collateral * TARGET_LTV, health.borrowed * 0.2);
      }
      pledges, loans := ps, ls;
      RepayAndSeize(prices, total);
      ValuedTwice(prices, pledges, loans);
      CalculateHealth(prices);
      result := Done;
    }

    /** The monitor's visit: only an account whose stored health is at risk is looked at. */
    method Monitor(prices: Prices)
      requires AllPriced(prices, pledges, loans) && Sound(loans)
      modifies this
      ensures
        if AtRisk(old(health)) then
          && Account(pledges, loans) == Round(prices, Account(old(pledges), old(loans)))
          && health == HealthOf(prices, pledges, loans)
        else
          pledges == old(pledges) && loans == old(loans) && health == old(health)
    {
      if health.status == MARGIN_CALL || health.status == LIQUIDATION_PENDING || health.ltv >= 0.8 {
        ValuedTwice(prices, pledges, loans);
        ValuedKeepsPrices(prices, pledges, loans);
        CalculateHealth(prices);
        if health.status == LIQUIDATION_PENDING {
          var _ := LiquidateAccount(prices, true);
        }
      }
    }

    /** The loop over the loans, of which each is repaid and paid for out of the pledges. */
    method RepayAndSeize(prices: Prices, total: real)
      requires AllPriced(prices, pledges, loans) && Sound(loans)
      modifies this`pledges, this`loans
      ensures pledges == SeizeEach(prices, old(pledges), Seized(prices, old(pledges), old(loans), total))
      ensures loans == RepayEach(prices, old(loans), Repaid(prices, old(loans), total))
    {
      hide Value, Owes, Seize, Repay, TakenAt, Taken, SeizeEach, PriceOf, Takes;
      var ps, ls := pledges, loans;
      var remaining := total;
      ghost var owed := Map(OwedOn(prices), ls);
      ghost var vs := Map(ValueOf(prices), ps);
      ghost var takes, wants := Repaid(prices, ls, total), Wanted(prices, ls, total);
      ghost var goal := RepayEach(prices, ls, takes);
      var i := 0;
      SeizeNothing(prices, ps, vs, wants);
      assert owed[0..] == owed && takes[0..] == takes;
      while i < |ls| && remaining > 0.0
        invariant 0 <= i <= |ls| == |loans| && |ps| == |pledges|
        invariant Takes(owed[i..], remaining) == takes[i..]
        invariant forall k | 0 <= k < i :: loans[k] == goal[k]
        invariant forall k | i <= k < |ls| :: loans[k] == ls[k]
        invariant pledges == SeizeEach(prices, ps, Taken(vs, wants[..i]))
      {
        var loan := ls[i];
        assert loan in ls;
        var valueToRepay := MinR(Owes(prices, loan), remaining);
        TakesStep(owed, takes, i, remaining);
        SeizeStep(prices, ps, vs, wants, i);
        SeizeFor(prices, ps, valueToRepay * BONUS);
        loans := loans[i := Repay(prices, loan, valueToRepay)];
        remaining := remaining - valueToRepay;
        i := i + 1;
      }
      RestUntouched(prices, ps, ls, total, i, remaining);
    }
  }

  lemma {:induction false} SeizeStep(prices: Prices, ps: seq<Pledge>, vs: seq<real>, wants: seq<real>, i: nat)
    requires |vs| == |ps| && i < |wants| && forall p <- ps :: PriceOf(prices, p.symbol) > 0.0
    ensures forall p <- SeizeEach(prices, ps, Taken(vs, wants[..i])) :: PriceOf(prices, p.symbol) > 0.0
    ensures SeizeEach(prices, SeizeEach(prices, ps, Taken(vs, wants[..i])), Takes(vs, wants[i]))
         == SeizeEach(prices, ps, Taken(vs, wants[..i + 1]))
  {
    TakenLast(vs, wants, i);
    SeizeTwice(prices, ps, Taken(vs, wants[..i]), Takes(vs, wants[i]));
  }

  lemma {:induction false} SeizeNothing(prices: Prices, pledges: seq<Pledge>, vs: seq<real>, wants: seq<real>)
    requires |vs| == |pledges| && forall p <- pledges :: PriceOf(prices, p.symbol) > 0.0
    ensures SeizeEach(prices, pledges, Taken(vs, wants[..0])) == pledges
  {
    forall i | 0 <= i < |pledges| ensures Seize(prices, pledges[i], TakenAt(vs, wants[..0], i)) == pledges[i] {
      assert pledges[i] in pledges;
    }
  }

  /** An account that is eligible for liquidation owns a pledge and owes on a loan. */
  lemma {:induction false} EligibleHasRows(prices: Prices, pledges: seq<Pledge>, loans: seq<Loan>)
    ensures HealthOf(prices, pledges, loans).ltv >= 0.9 ==> pledges != [] && loans != []
  {
    assert Map(ValueOf(prices), pledges) == [] || pledges != [];
    assert Map(OwedOn(prices), loans) == [] || loans != [];
  }

  lemma {:induction false} UnseizedRows(prices: Prices, snapshot: seq<Pledge>, pledges: seq<Pledge>,
      needed: real, j: nat, left: real)
    requires |snapshot| == |pledges| && forall p <- pledges :: PriceOf(prices, p.symbol) > 0.0
    requires j <= |pledges| && (j == |pledges| || left <= 0.0)
    requires Takes(Map(ValueOf(prices), snapshot)[j..], left) == Takes(Map(ValueOf(prices), snapshot), needed)[j..]
    ensures forall k | j <= k < |pledges| ::
              SeizeEach(prices, pledges, Takes(Map(ValueOf(prices), snapshot), needed))[k] == pledges[k]
  {
    var takes := Takes(Map(ValueOf(prices), snapshot), needed);
    if j < |pledges| {
      NothingWanted(Map(ValueOf(prices), snapshot)[j..], left);
    }
    forall k | j <= k < |pledges| ensures takes[k] == 0.0 && pledges[k] in pledges {
      assert takes[k] == takes[j..][k - j];
    }
  }

  lemma {:induction false} RestUntouched(prices: Prices, ps: seq<Pledge>, ls: seq<Loan>, total: real, i: nat,
      remaining: real)
    requires AllPriced(prices, ps, ls) && Sound(ls) && i <= |ls|
    requires i == |ls| || remaining <= 0.0
    requires Takes(Map(OwedOn(prices), ls)[i..], remaining) == Repaid(prices, ls, total)[i..]
    ensures forall k | i <= k < |ls| :: RepayEach(prices, ls, Repaid(prices, ls, total))[k] == ls[k]
    ensures Taken(Map(ValueOf(prices), ps), Wanted(prices, ls, total)[..i]) == Seized(prices, ps, ls, total)
  {
    var takes := Repaid(prices, ls, total);
    var vs := Map(ValueOf(prices), ps);
    if i < |ls| {
      NothingWanted(Map(OwedOn(prices), ls)[i..], remaining);
    }
    forall k | i <= k < |ls| ensures takes[k] == 0.0 && Repay(prices, ls[k], takes[k]) == ls[k] {
      assert takes[k] == takes[i..][k - i];
      assert ls[k] in ls;
      RepayNothing(prices, ls[k]);
    }
    TakenPrefix(vs, Wanted(prices, ls, total), i);
  }

  lemma {:induction false} TakenPrefix(vs: seq<real>, wants: seq<real>, n: nat)
    requires n <= |wants| && forall k | n <= k < |wants| :: wants[k] == 0.0
    ensures Taken(vs, wants[..n]) == Taken(vs, wants)
    decreases |wants| - n
  {
    if n == |wants| {
      assert wants[..n] == wants;
    } else {
      TakenPrefix(vs, wants, n + 1);
      TakenLast(vs, wants, n);
      NothingWanted(vs, 0.0);
      assert Plus(Taken(vs, wants[..n]), Takes(vs, 0.0)) == Taken(vs, wants[..n]);
    }
  }

  /** Storing valuations changes neither the valuations nor the health. */
  lemma {:induction false} ValuedTwice(prices: Prices, pledges: seq<Pledge>, loans: seq<Loan>)
    ensures Valued(prices, Valued(prices, pledges)) == Valued(prices, pledges)
    ensures Map(ValueOf(prices), Valued(prices, pledges)) == Map(ValueOf(prices), pledges)
    ensures HealthOf(prices, Valued(prices, pledges), loans) == HealthOf(prices, pledges, loans)
  {
    var vs := Valued(prices, pledges);
    forall i | 0 <= i < |pledges|
      ensures ValueOf(prices)(vs[i]) == ValueOf(prices)(pledges[i])
      ensures AdjustedOf(prices)(vs[i]) == AdjustedOf(prices)(pledges[i])
    {
    }
    assert Map(ValueOf(prices), vs) == Map(ValueOf(prices), pledges);
    assert Map(AdjustedOf(prices), vs) == Map(AdjustedOf(prices), pledges);
  }
}
