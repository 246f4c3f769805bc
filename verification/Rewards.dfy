/** Liquidity mining for one pair: stakes, locks, and rewards that can be claimed once. */
module Rewards {
  import opened Common
  import opened Greedy
  import opened Sorting

  datatype Stake = Stake(user: string, balance: real, tier: int, lockedUntil: Option<int>, debt: real)

  datatype Claim = Claim(user: string, amount: real)

  /** The pair's emissions and whether it is active never change; stakes and claims do. */
  datatype Pool = Pool(emissions: real, active: bool, stakes: seq<Stake>, claims: seq<Claim>)

  datatype Result = Done | NotActive | NotPositive | InvalidTier | NoStake | Insufficient | Locked | NothingToClaim

  const DAY := 24 * 60 * 60 * 1000

  function TierDays(tier: int): Option<int> {
    match tier
    case 1 => Some(30)
    case 2 => Some(90)
    case 3 => Some(180)
    case _ => None
  }

  function Multiplier(tier: int): real {
    match tier
    case 1 => 200.0
    case 2 => 300.0
    case 3 => 500.0
    case _ => 100.0
  }

  /** The place of a user's stake, or the number of stakes. */
  function Find(stakes: seq<Stake>, user: string): (i: nat)
    ensures i <= |stakes|
    ensures i < |stakes| ==> stakes[i].user == user
    ensures forall k | 0 <= k < i :: stakes[k].user != user
  {
    if stakes == [] || stakes[0].user == user then 0 else 1 + Find(stakes[1..], user)
  }

  function Balance(): Stake -> real { (s: Stake) => s.balance }

  function TotalStaked(stakes: seq<Stake>): real { Sum(Map(Balance(), stakes)) }

  function BaseShare(p: Pool, s: Stake): real
    requires TotalStaked(p.stakes) > 0.0
  {
    s.balance / TotalStaked(p.stakes) * p.emissions
  }

  /** What a stake may claim: its share of one block's emissions, times its bonus, less what it had. */
  function Pending(p: Pool, i: nat): real
    requires i < |p.stakes|
  {
    var s := p.stakes[i];
    if s.balance <= 0.0 || TotalStaked(p.stakes) <= 0.0 then 0.0
    else BaseShare(p, s) * Multiplier(s.tier) / 100.0 - s.debt
  }

  function Provided(p: Pool, user: string, amount: real, tier: int, now: int): (Pool, Result) {
    if !p.active then (p, NotActive)
    else if amount <= 0.0 then (p, NotPositive)
    else if tier > 0 && TierDays(tier).None? then (p, InvalidTier)
    else
      var lock := if tier > 0 then Some(now + TierDays(tier).value * DAY) else None;
      var i := Find(p.stakes, user);
      if i == |p.stakes| then (p.(stakes := p.stakes + [Stake(user, amount, tier, lock, 0.0)]), Done)
      else
        var s := p.stakes[i];
        (p.(stakes := p.stakes[i := s.(balance := s.balance + amount,
                                      tier := if tier != 0 then tier else s.tier,
                                      lockedUntil := if lock.Some? then lock else s.lockedUntil)]), Done)
  }

  function Claimed(p: Pool, user: string): (Pool, Result) {
    var i := Find(p.stakes, user);
    if i == |p.stakes| || Pending(p, i) <= 0.0 then (p, NothingToClaim)
    else
      var s := p.stakes[i];
      var pending := Pending(p, i);
      (p.(stakes := p.stakes[i := s.(debt := s.debt + pending)], claims := p.claims + [Claim(user, pending)]), Done)
  }

  function Withdrawn(p: Pool, user: string, amount: real, now: int): (Pool, Result) {
    var i := Find(p.stakes, user);
    if i == |p.stakes| then (p, NoStake)
    else if amount <= 0.0 then (p, NotPositive)
    else if amount > p.stakes[i].balance then (p, Insufficient)
    else if p.stakes[i].lockedUntil.Some? && p.stakes[i].lockedUntil.value > now then (p, Locked)
    else
      var q := Claimed(p, user).0;
      if i < |q.stakes| then (q.(stakes := q.stakes[i := q.stakes[i].(balance := p.stakes[i].balance - amount)]), Done)
      else (q, NoStake)
  }

  class LiquidityMiningPair {
    const emissions: real
    const active: bool
    var stakes: seq<Stake>
    var claims: seq<Claim>

    ghost function View(): Pool
      reads this
    {
      Pool(emissions, active, stakes, claims)
    }

    constructor (emissions: real, active: bool)
      ensures View() == Pool(emissions, active, [], [])
    {
      this.emissions, this.active := emissions, active;
      stakes, claims := [], [];
    }

    method ProvideLiquidity(user: string, amount: real, tier: int, now: int) returns (result: Result)
      modifies this
      ensures (View(), result) == Provided(old(View()), user, amount, tier, now)
    {
      if !active {
        return NotActive;
      }
      if amount <= 0.0 {
        return NotPositive;
      }
      var lock: Option<int> := None;
      if tier > 0 {
        var days := TierDays(tier);
        if days.None? {
          return InvalidTier;
        }
        lock := Some(now + days.value * DAY);
      }
      var i := Find(stakes, user);
      if i < |stakes| {
        var s := stakes[i];
        stakes := stakes[i := s.(balance := s.balance + amount,
                                 tier := if tier != 0 then tier else s.tier,
                                 lockedUntil := if lock.Some? then lock else s.lockedUntil)];
      } else {
        stakes := stakes + [Stake(user, amount, tier, lock, 0.0)];
      }
      return Done;
    }

    method CalculatePendingRewards(user: string) returns (pending: real)
      ensures var i := Find(stakes, user); pending == if i == |stakes| then 0.0 else Pending(View(), i)
    {
      var i := Find(stakes, user);
      if i == |stakes| || stakes[i].balance <= 0.0 {
        return 0.0;
      }
      var total := TotalStaked(stakes);
      if total <= 0.0 {
        return 0.0;
      }
      var base := stakes[i].balance / total * emissions;
      return base * Multiplier(stakes[i].tier) / 100.0 - stakes[i].debt;
    }

    method ClaimRewards(user: string) returns (result: Result)
      modifies this
      ensures (View(), result) == Claimed(old(View()), user)
    {
      var pending := CalculatePendingRewards(user);
      if pending <= 0.0 {
        return NothingToClaim;
      }
      var i := Find(stakes, user);
      claims := claims + [Claim(user, pending)];
      stakes := stakes[i := stakes[i].(debt := stakes[i].debt + pending)];
      return Done;
    }

    method WithdrawLiquidity(user: string, amount: real, now: int) returns (result: Result)
      modifies this
      ensures (View(), result) == Withdrawn(old(View()), user, amount, now)
    {
      var i := Find(stakes, user);
      if i == |stakes| {
        return NoStake;
      }
      if amount <= 0.0 {
        return NotPositive;
      }
      if amount > stakes[i].balance {
        return Insufficient;
      }
      if stakes[i].lockedUntil.Some? && stakes[i].lockedUntil.value > now {
        return Locked;
      }
      var balance := stakes[i].balance;
      var pending := CalculatePendingRewards(user);
      if pending > 0.0 {
        var _ := ClaimRewards(user);
      }
      stakes := stakes[i := stakes[i].(balance := balance - amount)];
      return Done;
    }
  }

  // ---------------------------------------------------------------------------------------------
  // What every run keeps
  // ---------------------------------------------------------------------------------------------

  datatype Op = Provide(user: string, amount: real, tier: int, now: int)
              | Withdraw(user: string, amount: real, now: int)
              | Collect(user: string)

  function Apply(p: Pool, op: Op): Pool {
    match op
    case Provide(user, amount, tier, now) => Provided(p, user, amount, tier, now).0
    case Withdraw(user, amount, now) => Withdrawn(p, user, amount, now).0
    case Collect(user) => Claimed(p, user).0
  }

  function Run(p: Pool, ops: seq<Op>): Pool
    decreases |ops|
  {
    if ops == [] then p else Run(Apply(p, ops[0]), ops[1..])
  }

  function ClaimedBy(claims: seq<Claim>, user: string): real {
    if claims == [] then 0.0
    else
      var last := claims[|claims| - 1];
      ClaimedBy(claims[..|claims| - 1], user) + (if last.user == user then last.amount else 0.0)
  }

  /** The most a stake can ever be paid: one block's emissions at the highest bonus. */
  function Ceiling(p: Pool): real { MaxR(0.0, 5.0 * p.emissions) }

  ghost predicate Fair(p: Pool) {
    && (forall i, j | 0 <= i < j < |p.stakes| :: p.stakes[i].user != p.stakes[j].user)
    && (forall s <- p.stakes :: 0.0 <= s.balance && 0.0 <= s.debt <= Ceiling(p) && s.debt == ClaimedBy(p.claims, s.user))
    && (forall c <- p.claims :: exists s <- p.stakes :: s.user == c.user)
  }

  lemma {:induction false} BalancesBelowTotal(p: Pool, i: nat)
    requires Fair(p) && i < |p.stakes|
    ensures p.stakes[i].balance <= TotalStaked(p.stakes)
  {
    var vs := Map(Balance(), p.stakes);
    forall k | 0 <= k < |vs| ensures 0.0 <= vs[k] {
      assert p.stakes[k] in p.stakes;
    }
    SumNonNegative(vs);
    assert vs[i] <= Sum(vs);
  }

  lemma {:induction false} PayoutBound(balance: real, total: real, emissions: real, multiplier: real)
    requires 0.0 <= balance <= total && 0.0 < total && 100.0 <= multiplier <= 500.0
    ensures balance / total * emissions * multiplier / 100.0 <= MaxR(0.0, 5.0 * emissions)
  {
    var share := balance / total;
    assert share * total == balance;
    assert 0.0 <= share <= 1.0;
    var paid := share * emissions;
    if emissions >= 0.0 {
      Monotone(share, 1.0, emissions);
      Monotone(0.0, share, emissions);
      Monotone(multiplier, 500.0, paid);
    } else {
      Monotone(0.0, share, -emissions);
      Monotone(0.0, multiplier, -paid);
    }
    assert paid * multiplier <= MaxR(0.0, 500.0 * emissions);
  }

  lemma {:induction false} PendingBound(p: Pool, i: nat)
    requires Fair(p) && i < |p.stakes|
    ensures p.stakes[i].debt + Pending(p, i) <= Ceiling(p)
  {
    var s := p.stakes[i];
    assert s in p.stakes;
    if s.balance > 0.0 && TotalStaked(p.stakes) > 0.0 {
      BalancesBelowTotal(p, i);
      PayoutBound(s.balance, TotalStaked(p.stakes), p.emissions, Multiplier(s.tier));
    }
  }

  lemma {:induction false} NoClaims(claims: seq<Claim>, user: string)
    requires forall c <- claims :: c.user != user
    ensures ClaimedBy(claims, user) == 0.0
    decreases |claims|
  {
    if claims != [] {
      assert claims[|claims| - 1] in claims;
      NoClaims(claims[..|claims| - 1], user);
    }
  }

  lemma {:induction false} ClaimedByLast(claims: seq<Claim>, c: Claim, user: string)
    ensures ClaimedBy(claims + [c], user) == ClaimedBy(claims, user) + (if c.user == user then c.amount else 0.0)
  {
    assert (claims + [c])[..|claims|] == claims;
  }

  lemma {:induction false} ProvideIsFair(p: Pool, user: string, amount: real, tier: int, now: int)
    requires Fair(p)
    ensures Fair(Provided(p, user, amount, tier, now).0)
  {
    hide ClaimedBy;
    var q := Provided(p, user, amount, tier, now).0;
    var i := Find(p.stakes, user);
    if q != p {
      if i == |p.stakes| {
        NoClaims(p.claims, user);
        assert forall s <- p.stakes :: s in q.stakes;
      } else {
        assert p.stakes[i] in p.stakes;
        SameUsers(p, q, i);
      }
    }
  }

  /** Claims still belong to stakes when one stake is rewritten for its own user. */
  lemma {:induction false} SameUsers(p: Pool, q: Pool, i: nat)
    requires Fair(p) && i < |p.stakes| == |q.stakes| && q.stakes == p.stakes[i := q.stakes[i]]
    requires q.stakes[i].user == p.stakes[i].user
    ensures forall s <- p.stakes :: exists t <- q.stakes :: t.user == s.user
    ensures forall s <- q.stakes :: s == q.stakes[i] || (s in p.stakes && s.user != q.stakes[i].user)
  {
    forall s | s in p.stakes ensures exists t <- q.stakes :: t.user == s.user {
      var k :| 0 <= k < |p.stakes| && p.stakes[k] == s;
      assert q.stakes[k] in q.stakes && q.stakes[k].user == s.user;
    }
  }

  lemma {:induction false} ClaimIsFair(p: Pool, user: string)
    requires Fair(p)
    ensures Fair(Claimed(p, user).0)
  {
    var q := Claimed(p, user).0;
    var i := Find(p.stakes, user);
    if q != p {
      PendingBound(p, i);
      assert p.stakes[i] in p.stakes;
      var c := Claim(user, Pending(p, i));
      SameUsers(p, q, i);
      forall s | s in q.stakes ensures s.debt == ClaimedBy(q.claims, s.user) {
        ClaimedByLast(p.claims, c, s.user);
      }
      hide ClaimedBy, Pending;
    }
  }

  lemma {:induction false} WithdrawIsFair(p: Pool, user: string, amount: real, now: int)
    requires Fair(p)
    ensures Fair(Withdrawn(p, user, amount, now).0)
  {
    ClaimIsFair(p, user);
    hide ClaimedBy, Pending;
    var q := Claimed(p, user).0;
    var r := Withdrawn(p, user, amount, now).0;
    var i := Find(p.stakes, user);
    if r != p {
      assert q.stakes[i] in q.stakes;
      SameUsers(q, r, i);
    }
  }

  lemma {:induction false} ApplyIsFair(p: Pool, op: Op)
    requires Fair(p)
    ensures Fair(Apply(p, op)) && Apply(p, op).emissions == p.emissions
  {
    hide Fair, Find, Pending;
    match op
    case Provide(user, amount, tier, now) => ProvideIsFair(p, user, amount, tier, now);
    case Withdraw(user, amount, now) => WithdrawIsFair(p, user, amount, now);
    case Collect(user) => ClaimIsFair(p, user);
  }

  /** Over every run of a pair, each stake's debt is what it has claimed and stays under the ceiling. */
  lemma {:induction false} EveryRunIsFair(p: Pool, ops: seq<Op>)
    requires Fair(p)
    ensures Fair(Run(p, ops)) && Run(p, ops).emissions == p.emissions
    decreases |ops|
  {
    hide Fair, Apply;
    if ops != [] {
      ApplyIsFair(p, ops[0]);
      EveryRunIsFair(Apply(p, ops[0]), ops[1..]);
    }
  }

  /** Whoever stakes, withdraws or claims, and however often, no user is ever paid more than the ceiling. */
  lemma {:induction false} LifetimeRewardBound(emissions: real, active: bool, ops: seq<Op>, user: string)
    ensures ClaimedBy(Run(Pool(emissions, active, [], []), ops).claims, user) <= MaxR(0.0, 5.0 * emissions)
  {
    hide ClaimedBy;
    var p := Pool(emissions, active, [], []);
    EveryRunIsFair(p, ops);
    var q := Run(p, ops);
    if s :| s in q.stakes && s.user == user {
    } else {
      NoClaims(q.claims, user);
    }
  }

  /** A claim leaves nothing pending. */
  lemma {:induction false} ClaimLeavesNothing(p: Pool, user: string)
    requires Claimed(p, user).1 == Done
    ensures var q := Claimed(p, user).0;
      var i := Find(q.stakes, user);
      i < |q.stakes| && Pending(q, i) == 0.0 && Claimed(q, user).1 == NothingToClaim
  {
    var i := Find(p.stakes, user);
    var q := Claimed(p, user).0;
    assert Map(Balance(), q.stakes) == Map(Balance(), p.stakes);
    assert Find(q.stakes, user) == i;
  }

  function ShareIn(p: Pool): Stake -> real
    requires TotalStaked(p.stakes) > 0.0
  {
    (s: Stake) => BaseShare(p, s)
  }

  /** The stakers' base shares add up to one block's emissions. */
  lemma {:induction false} SharesAddUpToEmissions(p: Pool)
    requires TotalStaked(p.stakes) > 0.0
    ensures Sum(Map(ShareIn(p), p.stakes)) == p.emissions
  {
    var k := p.emissions / TotalStaked(p.stakes);
    SharesOf(p, p.stakes, k);
    assert TotalStaked(p.stakes) * k == p.emissions;
  }

  lemma {:induction false} SharesOf(p: Pool, stakes: seq<Stake>, k: real)
    requires TotalStaked(p.stakes) > 0.0 && k == p.emissions / TotalStaked(p.stakes)
    ensures Sum(Map(ShareIn(p), stakes)) == Sum(Map(Balance(), stakes)) * k
  {
    if stakes == [] {
      assert 0.0 * k == 0.0;
    } else {
      SharesOf(p, stakes[1..], k);
      ShareScales(stakes[0].balance, TotalStaked(p.stakes), p.emissions);
      assert Map(ShareIn(p), stakes)[1..] == Map(ShareIn(p), stakes[1..]);
      assert Map(Balance(), stakes)[1..] == Map(Balance(), stakes[1..]);
      Distribute(stakes[0].balance, Sum(Map(Balance(), stakes[1..])), k);
    }
  }

  lemma {:induction false} ShareScales(balance: real, total: real, emissions: real)
    requires total > 0.0
    ensures balance / total * emissions == balance * (emissions / total)
  {
  }

  /** Adding to a stake shortens its lock exactly when it names a tier that ends before the lock does. */
  lemma {:induction false} LockShortensIff(p: Pool, user: string, amount: real, tier: int, now: int, until: int)
    requires var i := Find(p.stakes, user); i < |p.stakes| && p.stakes[i].lockedUntil == Some(until)
    ensures var (q, result) := Provided(p, user, amount, tier, now);
      var i := Find(p.stakes, user);
      i < |q.stakes| && q.stakes[i].lockedUntil.Some? &&
      (q.stakes[i].lockedUntil.value < until <==>
        result == Done && TierDays(tier).Some? && now + TierDays(tier).value * DAY < until)
  {
  }
}
