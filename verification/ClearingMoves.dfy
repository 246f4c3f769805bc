/** Which way money moves: positions taken, price moves, margin reserved, and who is found in breach. */
module ClearingMoves {
  import opened Common
  import opened Greedy
  import opened Sorting
  import opened Clearing
  import opened ClearingRuns
  import opened SmokeClearing

  function QuantityOf(m: string, instrument: string): Position -> real {
    (p: Position) => if p.member == m && p.instrument == instrument then p.quantity else 0.0
  }

  /** How much of an instrument a member holds, sales counting negative. */
  function Net(positions: seq<Position>, m: string, instrument: string): real {
    Sum(Map(QuantityOf(m, instrument), positions))
  }

  // ---------------------------------------------------------------------------------------------
  // Trades
  // ---------------------------------------------------------------------------------------------

  lemma {:induction false} PutNew(s: seq<Position>, p: Position)
    requires forall q <- s :: q.id != p.id
    ensures Put(s, p) == s + [p]
  {
    if s != [] {
      assert s[0] in s;
      PutNew(s[1..], p);
    }
  }

  lemma {:induction false} SumAppend(f: Position -> real, s: seq<Position>, p: Position)
    ensures Sum(Map(f, s + [p])) == Sum(Map(f, s)) + f(p)
  {
    PrefixSum(f, s + [p], |s|);
    assert (s + [p])[..|s| + 1] == s + [p] && (s + [p])[..|s|] == s;
  }

  lemma {:induction false} AcceptAppends(b: Book, t: Trade)
    requires !Known(b.positions, t.id)
    ensures Accept(b, t).positions == b.positions + [BuyerPosition(t)] + [SellerPosition(t)]
  {
    PutNew(b.positions, BuyerPosition(t));
    PutNew(b.positions + [BuyerPosition(t)], SellerPosition(t));
  }

  lemma {:induction false} FreshNet(b: Book, t: Trade, m: string, instrument: string)
    requires !Known(b.positions, t.id)
    ensures Net(Accept(b, t).positions, m, instrument) - Net(b.positions, m, instrument)
         == (if instrument != t.instrument then 0.0
             else (if m == t.buyer then t.notional else 0.0) - (if m == t.seller then t.notional else 0.0))
  {
    hide Sum, Accept;
    AcceptAppends(b, t);
    SumAppend(QuantityOf(m, instrument), b.positions, BuyerPosition(t));
    SumAppend(QuantityOf(m, instrument), b.positions + [BuyerPosition(t)], SellerPosition(t));
  }

  lemma {:induction false} FreshIsFlat(b: Book, t: Trade, m: string)
    requires !Known(b.positions, t.id)
    ensures MemberVariation(Accept(b, t).positions, m, t.instrument, t.price)
         == MemberVariation(b.positions, m, t.instrument, t.price)
  {
    hide Sum, Accept;
    AcceptAppends(b, t);
    SumAppend(VariationTo(m, t.instrument, t.price), b.positions, BuyerPosition(t));
    SumAppend(VariationTo(m, t.instrument, t.price), b.positions + [BuyerPosition(t)], SellerPosition(t));
  }

  lemma {:induction false} BothReserve(b: Book, t: Trade, m: string)
    ensures var sides := (if m == t.buyer then 1.0 else 0.0) + (if m == t.seller then 1.0 else 0.0);
      var reserved := 0.05 * AbsR(t.notional * t.price) * sides;
      var a := MarginOf(b.members, m);
      MarginOf(Accept(b, t).members, m) == Margin(a.initial + reserved, a.variation, a.balance - reserved)
  {
    hide Put;
    assert AbsR(-t.notional * t.price) == AbsR(t.notional * t.price) by {
      assert -t.notional * t.price == -(t.notional * t.price);
    }
  }

  /**
   * A trade under a new id: the buyer holds the notional more and the seller as much less, each
   * reserves 5% of the value as initial margin out of its balance, and at the trade's own price the
   * new positions are worth nothing to anybody.
   */
  lemma {:induction false} FreshTrade(b: Book, t: Trade, m: string, instrument: string)
    requires !Known(b.positions, t.id)
    ensures var after := Accept(b, t);
      && Net(after.positions, m, instrument) - Net(b.positions, m, instrument)
         == (if instrument != t.instrument then 0.0
             else (if m == t.buyer then t.notional else 0.0) - (if m == t.seller then t.notional else 0.0))
      && MemberVariation(after.positions, m, t.instrument, t.price) == MemberVariation(b.positions, m, t.instrument, t.price)
    ensures var sides := (if m == t.buyer then 1.0 else 0.0) + (if m == t.seller then 1.0 else 0.0);
      var reserved := 0.05 * AbsR(t.notional * t.price) * sides;
      var a := MarginOf(b.members, m);
      MarginOf(Accept(b, t).members, m) == Margin(a.initial + reserved, a.variation, a.balance - reserved)
  {
    hide Sum, Accept, Net, MemberVariation, Known;
    FreshNet(b, t, m, instrument);
    FreshIsFlat(b, t, m);
    BothReserve(b, t, m);
  }

  // ---------------------------------------------------------------------------------------------
  // Price moves
  // ---------------------------------------------------------------------------------------------

  lemma {:induction false} MoveOfOne(p: Position, m: string, instrument: string, price: real, d: real)
    ensures VariationTo(m, instrument, price + d)(p)
         == VariationTo(m, instrument, price)(p) + QuantityOf(m, instrument)(p) * d
  {
    assert p.quantity * (price + d - p.avgPrice) == p.quantity * (price - p.avgPrice) + p.quantity * d;
    assert 0.0 * d == 0.0;
  }

  /** When the price rises by `d`, a settlement is worth `d` times its net holding more to a member. */
  lemma {:induction false} PriceMove(s: seq<Position>, m: string, instrument: string, price: real, d: real)
    ensures MemberVariation(s, m, instrument, price + d) - MemberVariation(s, m, instrument, price)
         == Net(s, m, instrument) * d
  {
    hide Scale, VariationTo, QuantityOf, Sum;
    var f, g, q := VariationTo(m, instrument, price), VariationTo(m, instrument, price + d), QuantityOf(m, instrument);
    var before, moves := Map(f, s), Scale(Map(q, s), d);
    ScaleAt(Map(q, s), d);
    forall i | 0 <= i < |s| ensures g(s[i]) == Plus(before, moves)[i] {
      MoveOfOne(s[i], m, instrument, price, d);
      assert moves[i] == q(s[i]) * d;
    }
    assert Map(g, s) == Plus(before, moves);
    SumPlus(before, moves);
    SumScale(Map(q, s), d);
  }

  /** Marking again at the same price is worth nothing. */
  lemma {:induction false} MarkedIsFlat(s: seq<Position>, m: string, instrument: string, price: real)
    ensures MemberVariation(Marked(s, instrument, price), m, instrument, price) == 0.0
    ensures Net(Marked(s, instrument, price), m, instrument) == Net(s, m, instrument)
  {
    var t := Marked(s, instrument, price);
    var zero := Map(VariationTo(m, instrument, price), t);
    assert Map(QuantityOf(m, instrument), t) == Map(QuantityOf(m, instrument), s);
    AllZero(zero);
  }

  lemma {:induction false} AllZero(vs: seq<real>)
    requires forall i | 0 <= i < |vs| :: vs[i] == 0.0
    ensures Sum(vs) == 0.0
  {
    if vs != [] {
      AllZero(vs[1..]);
    }
  }

  lemma {:induction false} MoveAfterMark(s: seq<Position>, m: string, instrument: string, price: real, d: real)
    ensures MemberVariation(Marked(s, instrument, price), m, instrument, price + d) == Net(s, m, instrument) * d
  {
    MarkedIsFlat(s, m, instrument, price);
    PriceMove(Marked(s, instrument, price), m, instrument, price, d);
  }

  /**
   * Two settlements in a row, the second at a price higher by `d`: the second credits each member's
   * variation with `d` times what it holds net, and charges its balance as much.
   */
  lemma {:induction false} SettlementPaysTheMove(b: Book, m: string, instrument: string, price: real, d: real)
    requires m in b.members
    ensures var first := Settled(b, instrument, price);
      var second := Settled(first, instrument, price + d);
      m in second.members && m in first.members &&
      var x, y := first.members[m], second.members[m];
      var gain := Net(b.positions, m, instrument) * d;
      y == Margin(x.initial, x.variation + gain, x.balance - gain)
  {
    MoveAfterMark(b.positions, m, instrument, price, d);
  }

  /** The same book, settled by the script: the variation of a member is what its positions moved by. */
  lemma {:induction false} SmokeVariation(b: Book, i: nat, m: string, instrument: string, price: real)
    requires HasAccounts(b) && i <= |b.positions| && m in b.members
    ensures m in SettleFrom(b, i, instrument, price).members
    ensures SettleFrom(b, i, instrument, price).members[m].variation
         == b.members[m].variation + MemberVariation(b.positions[i..], m, instrument, price)
    decreases |b.positions| - i
  {
    if i == |b.positions| {
      assert b.positions[i..] == [];
    } else {
      StillHasAccounts(b, i, instrument, price);
      var next := SettlePosition(b, i, instrument, price);
      var f := VariationTo(m, instrument, price);
      assert b.positions[i..][1..] == next.positions[i + 1..];
      assert Map(f, b.positions[i..])[1..] == Map(f, next.positions[i + 1..]);
      hide Sum, HasAccounts, Drain;
      SmokeVariation(next, i + 1, m, instrument, price);
      SumFirst(Map(f, b.positions[i..]));
    }
  }

  lemma {:induction false} SumFirst(vs: seq<real>)
    requires vs != []
    ensures Sum(vs) == vs[0] + Sum(vs[1..])
  {
  }

  lemma {:induction false} SmokeFirst(b: Book, m: string, instrument: string, price: real)
    requires HasAccounts(b) && Closed(b) && m in b.members
    ensures var first := SettleFrom(b, 0, instrument, price);
      HasAccounts(first) && m in first.members && first.positions == Marked(b.positions, instrument, price)
  {
    SettleFromCovers(b, 0, instrument, price);
    SmokeVariation(b, 0, m, instrument, price);
    hide SettleFrom, Marked, MemberVariation;
    assert b.positions[..0] == [] && b.positions[0..] == b.positions;
  }

  /** So a price move of `d` between two settlements of the script is worth the net holding times `d`. */
  lemma {:induction false} SmokePaysTheMove(b: Book, m: string, instrument: string, price: real, d: real)
    requires HasAccounts(b) && Closed(b) && m in b.members
    ensures var first := SettleFrom(b, 0, instrument, price);
      HasAccounts(first) && m in first.members &&
      var second := SettleFrom(first, 0, instrument, price + d);
      m in second.members && second.members[m].variation - first.members[m].variation == Net(b.positions, m, instrument) * d
  {
    hide SettleFrom, Closed, HasAccounts, Marked, MemberVariation, Net;
    SmokeFirst(b, m, instrument, price);
    var first := SettleFrom(b, 0, instrument, price);
    assert first.positions[0..] == first.positions;
    SmokeVariation(first, 0, m, instrument, price + d);
    MoveAfterMark(b.positions, m, instrument, price, d);
  }

  // ---------------------------------------------------------------------------------------------
  // Breaches
  // ---------------------------------------------------------------------------------------------

  /**
   * In every reachable book a settlement finds a member in breach exactly if its variation and its
   * contributions add up to a gain: gains lower the balance, so whoever profits defaults, and no
   * loss ever does.
   */
  lemma {:induction false} BreachIff(ops: seq<Op>, m: string)
    requires m in Run(Empty(), ops).members
    ensures var b := Run(Empty(), ops);
      var a := b.members[m];
      && (a.balance < -a.initial <==> a.variation + ContributedBy(b.contributions, m) > 0.0)
      && Drained(a) == (var gain := a.variation + ContributedBy(b.contributions, m);
                        if gain > 0.0 then a.initial + gain else 0.0)
  {
    EveryRunIsSound(Empty(), ops);
    assert Balanced(Run(Empty(), ops).members, Run(Empty(), ops).contributions);
  }

  // ---------------------------------------------------------------------------------------------
  // Reports, contributions and defaults
  // ---------------------------------------------------------------------------------------------

  /** What a report says a member gained. */
  function ReportedFor(details: seq<Detail>, m: string): real {
    if details == [] then 0.0
    else
      var last := details[|details| - 1];
      ReportedFor(details[..|details| - 1], m) + (if last.member == m then last.variation else 0.0)
  }

  function InInstrument(positions: seq<Position>, instrument: string): nat {
    if positions == [] then 0
    else InInstrument(positions[..|positions| - 1], instrument)
         + (if positions[|positions| - 1].instrument == instrument then 1 else 0)
  }

  /** A report has one entry for each position in the instrument, and for each member they add up to what it is paid. */
  lemma {:induction false} ReportAddsUp(b: Book, instrument: string, price: real, n: nat, m: string)
    requires n <= |b.positions|
    ensures var details := Report(b, instrument, price, n);
      && |details| == InInstrument(b.positions[..n], instrument)
      && ReportedFor(details, m) == MemberVariation(b.positions[..n], m, instrument, price)
    decreases n
  {
    hide Sum, Drained, ShiftedMembers, Pnl;
    if n > 0 {
      ReportAddsUp(b, instrument, price, n - 1, m);
      PrefixSum(VariationTo(m, instrument, price), b.positions, n - 1);
      assert b.positions[..n][..n - 1] == b.positions[..n - 1];
      var before, details := Report(b, instrument, price, n - 1), Report(b, instrument, price, n);
      if b.positions[n - 1].instrument == instrument {
        assert details[..|details| - 1] == before;
      } else {
        assert details == before;
      }
    } else {
      EmptySum(VariationTo(m, instrument, price), b.positions);
    }
  }

  lemma {:induction false} EmptySum(f: Position -> real, s: seq<Position>)
    ensures Sum(Map(f, s[..0])) == 0.0
  {
  }

  /** A positive contribution goes from the balance to the fund and to the member's contributions; no other does anything. */
  lemma {:induction false} ContributionOutcome(b: Book, m: string, amount: real, other: string)
    ensures var r := Contribute(b, m, amount);
      var paid := if amount > 0.0 then amount else 0.0;
      && r.positions == b.positions && r.fund == b.fund + paid
      && ContributedBy(r.contributions, other) == ContributedBy(b.contributions, other) + (if other == m then paid else 0.0)
      && MarginOf(r.members, other)
         == MarginOf(b.members, other).(balance := MarginOf(b.members, other).balance - if other == m then paid else 0.0)
  {
    AddedSum(b.contributions, m, amount);
  }

  /** The script takes a contribution of any sign. */
  lemma {:induction false} SmokeContributionOutcome(b: Book, m: string, amount: real, other: string)
    ensures var r := ContributeDefault(b, m, amount);
      && r.positions == b.positions && r.fund == b.fund + amount
      && ContributedBy(r.contributions, other) == ContributedBy(b.contributions, other) + (if other == m then amount else 0.0)
      && MarginOf(r.members, other)
         == MarginOf(b.members, other).(balance := MarginOf(b.members, other).balance - if other == m then amount else 0.0)
  {
    AddedSum(b.contributions, m, amount);
  }

  /**
   * A default: the defaulter's margin first, in name only, then the fund as far as it goes, and the
   * rest from the contributors in proportion to what they gave; nothing else moves.
   */
  lemma {:induction false} DefaultOutcome(b: Book, defaulter: string, shortfall: real, m: string)
    requires defaulter in b.members && m in b.members && 0.0 <= shortfall && 0.0 <= b.fund
    requires FundInOrder(b.(fund := Sum(Map(Amounts(), b.contributions))))
    ensures var r := Defaulted(b, defaulter, shortfall);
      var own := MinR(shortfall, MaxR(0.0, b.members[defaulter].initial - b.members[defaulter].balance));
      var drained := MinR(b.fund, shortfall - own);
      var given := Sum(Map(Amounts(), b.contributions));
      && r.positions == b.positions && r.contributions == b.contributions && r.members.Keys == b.members.Keys
      && r.fund == b.fund - drained
      && (given > 0.0 ==>
            r.members[m] == b.members[m].(
              balance := b.members[m].balance - ContributedBy(b.contributions, m) * ((shortfall - own - drained) / given)))
      && (given <= 0.0 ==> r.members == b.members)
  {
    var w := Absorb(b, b.members[defaulter], shortfall);
    var given := Sum(Map(Amounts(), b.contributions));
    if given > 0.0 {
      hide Sum, Mutualise;
      MutualiseCharges(b.members, b.contributions, given, w.mutual, m);
      assert 0.0 / given == 0.0 && ContributedBy(b.contributions, m) * 0.0 == 0.0;
    }
  }

  /** In the script the fund fills a breach up to the margin exactly, or gives all it has. */
  lemma {:induction false} SmokeBreachOutcome(b: Book, i: nat, instrument: string, price: real)
    requires i < |b.positions| && b.positions[i].member in b.members && b.positions[i].instrument == instrument
    requires 0.0 <= b.fund && 0.0 <= b.members[b.positions[i].member].initial
    ensures var p := b.positions[i];
      var was := b.members[p.member];
      var gain := p.quantity * price - p.quantity * p.avgPrice - p.pnl;
      var missing := -was.initial - (was.balance - gain);
      var r := SettlePosition(b, i, instrument, price);
      && p.member in r.members
      && r.members[p.member].initial == was.initial && r.members[p.member].variation == was.variation + gain
      && r.members[p.member].balance
         == was.balance - gain + (if missing <= 0.0 then 0.0 else MinR(b.fund, missing))
      && r.fund == b.fund - (if missing <= 0.0 then 0.0 else MinR(b.fund, missing))
  {
    var p := b.positions[i];
    assert p.quantity * (price - p.avgPrice) == p.quantity * price - p.quantity * p.avgPrice;
  }
}
