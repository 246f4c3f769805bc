/** What each operation of a pair does to each user: who is refused, what a stake holds, what is paid. */
module RewardMoves {
  import opened Common
  import opened Rewards

  function StakeOf(p: Pool, user: string): Option<Stake> {
    var i := Find(p.stakes, user);
    if i < |p.stakes| then Some(p.stakes[i]) else None
  }

  function Held(p: Pool, user: string): real {
    if StakeOf(p, user).Some? then StakeOf(p, user).value.balance else 0.0
  }

  /** Nothing changes for anybody else, nor the pair itself. */
  ghost predicate OthersKeep(p: Pool, q: Pool, user: string) {
    && q.emissions == p.emissions && q.active == p.active
    && forall other | other != user :: StakeOf(q, other) == StakeOf(p, other)
  }

  lemma {:induction false} FindIs(stakes: seq<Stake>, user: string, k: nat)
    requires k <= |stakes| && (k < |stakes| ==> stakes[k].user == user)
    requires forall j | 0 <= j < k :: stakes[j].user != user
    ensures Find(stakes, user) == k
  {
    if k > 0 {
      assert stakes[0].user != user;
      FindIs(stakes[1..], user, k - 1);
    }
  }

  lemma {:induction false} UpdateOthers(stakes: seq<Stake>, i: nat, s: Stake, user: string)
    requires i < |stakes| && i == Find(stakes, s.user)
    ensures Find(stakes[i := s], user) == Find(stakes, user)
  {
    FindIs(stakes[i := s], user, Find(stakes, user));
  }

  lemma {:induction false} AppendOthers(stakes: seq<Stake>, s: Stake, user: string)
    requires Find(stakes, s.user) == |stakes|
    ensures s.user == user ==> Find(stakes + [s], user) == |stakes|
    ensures s.user != user && Find(stakes, user) < |stakes| ==> Find(stakes + [s], user) == Find(stakes, user)
    ensures s.user != user && Find(stakes, user) == |stakes| ==> Find(stakes + [s], user) == |stakes| + 1
  {
    var j := Find(stakes, user);
    FindIs(stakes + [s], user, if j == |stakes| && s.user != user then j + 1 else j);
  }

  /** One stake is written: its own user sees it, and nobody else sees anything. */
  lemma {:induction false} Written(p: Pool, q: Pool, i: nat, s: Stake)
    requires i == Find(p.stakes, s.user) && q.emissions == p.emissions && q.active == p.active
    requires q.stakes == if i < |p.stakes| then p.stakes[i := s] else p.stakes + [s]
    ensures StakeOf(q, s.user) == Some(s) && OthersKeep(p, q, s.user)
  {
    forall user: string
      ensures user == s.user ==> StakeOf(q, user) == Some(s)
      ensures user != s.user ==> StakeOf(q, user) == StakeOf(p, user)
    {
      if i < |p.stakes| {
        UpdateOthers(p.stakes, i, s, user);
      } else {
        AppendOthers(p.stakes, s, user);
      }
    }
  }

  /** The length of a lock in days. */
  function LockDays(tier: int): int
    requires 1 <= tier <= 3
  {
    if tier == 1 then 30 else if tier == 2 then 90 else 180
  }

  /**
   * Liquidity is accepted exactly by an active pair, for a positive amount, and for no tier or one of
   * the three; otherwise nothing changes. Accepted, it adds to the user's stake, and a tier locks the
   * whole stake for 30, 90 or 180 days from now.
   */
  lemma {:induction false} ProvideOutcome(p: Pool, user: string, amount: real, tier: int, now: int)
    ensures var (q, result) := Provided(p, user, amount, tier, now);
      && (result == Done <==> p.active && amount > 0.0 && tier <= 3)
      && (result != Done ==> q == p)
      && (result == Done ==>
            && OthersKeep(p, q, user) && q.claims == p.claims && StakeOf(q, user).Some?
            && var s := StakeOf(q, user).value;
            && s.balance == Held(p, user) + amount
            && s.debt == (if StakeOf(p, user).Some? then StakeOf(p, user).value.debt else 0.0)
            && (tier != 0 ==> s.tier == tier)
            && (tier == 0 ==> s.tier == if StakeOf(p, user).Some? then StakeOf(p, user).value.tier else 0)
            && (1 <= tier ==> s.lockedUntil == Some(now + LockDays(tier) * 24 * 60 * 60 * 1000))
            && (tier <= 0 ==> s.lockedUntil == if StakeOf(p, user).Some? then StakeOf(p, user).value.lockedUntil else None))
  {
    var (q, result) := Provided(p, user, amount, tier, now);
    if result == Done {
      var i := Find(p.stakes, user);
      var s := q.stakes[i];
      hide Find;
      Written(p, q, i, s);
    }
  }

  predicate Unlocked(s: Stake, now: int) { s.lockedUntil.Some? ==> s.lockedUntil.value <= now }

  /**
   * A withdrawal goes through exactly for a positive amount within an unlocked stake; otherwise
   * nothing changes. It pays what is pending, if anything, and takes the amount off the stake.
   */
  lemma {:induction false} WithdrawOutcome(p: Pool, user: string, amount: real, now: int)
    ensures var (q, result) := Withdrawn(p, user, amount, now);
      && (result == Done <==>
            StakeOf(p, user).Some? && 0.0 < amount <= Held(p, user) && Unlocked(StakeOf(p, user).value, now))
      && (result != Done ==> q == p)
      && (result == Done ==>
            && OthersKeep(p, q, user)
            && var due := MaxR(0.0, Pending(p, Find(p.stakes, user)));
            && var s := StakeOf(p, user).value;
            && StakeOf(q, user) == Some(s.(balance := s.balance - amount, debt := s.debt + due))
            && q.claims == p.claims + (if due > 0.0 then [Claim(user, due)] else []))
  {
    var (q, result) := Withdrawn(p, user, amount, now);
    if result == Done {
      var i := Find(p.stakes, user);
      hide Find, Pending;
      Written(p, q, i, q.stakes[i]);
    }
  }

  /** A claim goes through exactly if something is pending, and pays just that. */
  lemma {:induction false} ClaimOutcome(p: Pool, user: string)
    ensures var (q, result) := Claimed(p, user);
      && (result == Done <==> StakeOf(p, user).Some? && Pending(p, Find(p.stakes, user)) > 0.0)
      && (result != Done ==> q == p)
      && (result == Done ==>
            && OthersKeep(p, q, user)
            && var s, due := StakeOf(p, user).value, Pending(p, Find(p.stakes, user));
            && StakeOf(q, user) == Some(s.(debt := s.debt + due)) && q.claims == p.claims + [Claim(user, due)])
  {
    var (q, result) := Claimed(p, user);
    if result == Done {
      var i := Find(p.stakes, user);
      hide Find, Pending;
      Written(p, q, i, q.stakes[i]);
    }
  }

  /**
   * What is pending for a stake with a balance: its share of one block's emissions, doubled, tripled
   * or times five by its tier, less what it was paid before.
   */
  lemma {:induction false} BonusByTier(p: Pool, user: string)
    requires StakeOf(p, user).Some? && TotalStaked(p.stakes) > 0.0
    ensures var s := StakeOf(p, user).value;
      var bonus := if s.tier == 1 then 2.0 else if s.tier == 2 then 3.0 else if s.tier == 3 then 5.0 else 1.0;
      Pending(p, Find(p.stakes, user))
      == if s.balance > 0.0 then s.balance / TotalStaked(p.stakes) * p.emissions * bonus - s.debt else 0.0
  {
    var s := StakeOf(p, user).value;
    var base := BaseShare(p, s);
    assert base * 200.0 / 100.0 == base * 2.0 && base * 300.0 / 100.0 == base * 3.0;
    assert base * 500.0 / 100.0 == base * 5.0 && base * 100.0 / 100.0 == base * 1.0;
  }

  /** A stake that a tier has just locked cannot be withdrawn from before its time, and can at it. */
  lemma {:induction false} TierLocks(p: Pool, user: string, amount: real, tier: int, now: int, out: real, later: int)
    requires p.active && amount > 0.0 && 1 <= tier <= 3 && 0.0 < out <= Held(p, user) + amount
    ensures var q := Provided(p, user, amount, tier, now).0;
      Withdrawn(q, user, out, later).1 == Done <==> now + LockDays(tier) * 24 * 60 * 60 * 1000 <= later
  {
    ProvideOutcome(p, user, amount, tier, now);
    var q := Provided(p, user, amount, tier, now).0;
    hide Provided, Find, Withdrawn;
    WithdrawOutcome(q, user, out, later);
  }

  // ---------------------------------------------------------------------------------------------
  // Over runs
  // ---------------------------------------------------------------------------------------------

  /** What an operation that goes through adds to a user's stake. */
  function FlowOf(p: Pool, op: Op, user: string): real {
    match op
    case Provide(u, amount, tier, now) => if u == user && Provided(p, u, amount, tier, now).1 == Done then amount else 0.0
    case Withdraw(u, amount, now) => if u == user && Withdrawn(p, u, amount, now).1 == Done then -amount else 0.0
    case Collect(_) => 0.0
  }

  function NetFlow(p: Pool, ops: seq<Op>, user: string): real
    decreases |ops|
  {
    if ops == [] then 0.0 else FlowOf(p, ops[0], user) + NetFlow(Apply(p, ops[0]), ops[1..], user)
  }

  lemma {:induction false} StepFlows(p: Pool, op: Op, user: string)
    ensures Held(Apply(p, op), user) == Held(p, user) + FlowOf(p, op, user)
  {
    hide Find, Provided, Withdrawn, Claimed, Pending;
    match op
    case Provide(u, amount, tier, now) => ProvideOutcome(p, u, amount, tier, now);
    case Withdraw(u, amount, now) => WithdrawOutcome(p, u, amount, now);
    case Collect(u) => ClaimOutcome(p, u);
  }

  /** In every run a user's stake is what it put in less what it took out, whatever others do. */
  lemma {:induction false} StakeIsNetFlow(p: Pool, ops: seq<Op>, user: string)
    ensures Held(Run(p, ops), user) == Held(p, user) + NetFlow(p, ops, user)
    decreases |ops|
  {
    hide Apply, FlowOf, Held;
    if ops != [] {
      StepFlows(p, ops[0], user);
      StakeIsNetFlow(Apply(p, ops[0]), ops[1..], user);
    }
  }
}
