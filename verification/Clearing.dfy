/** The central counterparty: mirrored positions, margin accounts, and the default fund. */
module Clearing {
  import opened Common
  import opened Greedy
  import opened Sorting

  datatype Side = Buy | Sell

  datatype PositionId = PositionId(tradeId: string, side: Side)

  datatype Position = Position(id: PositionId, member: string, instrument: string, quantity: real, avgPrice: real, pnl: real)

  datatype Margin = Margin(initial: real, variation: real, balance: real)

  datatype Contribution = Contribution(member: string, amount: real)

  datatype Trade = Trade(id: string, buyer: string, seller: string, instrument: string, notional: real, price: real)

  datatype Detail = Detail(member: string, variation: real, drained: real)

  /** Positions and contributions are listed in the order in which their keys were first inserted. */
  datatype Book = Book(positions: seq<Position>, members: map<string, Margin>, fund: real, contributions: seq<Contribution>)

  const NO_MARGIN := Margin(0.0, 0.0, 0.0)

  function InitialMargin(p: Position): real { AbsR(p.quantity * p.avgPrice) * 0.05 }

  function BuyerPosition(t: Trade): Position {
    Position(PositionId(t.id, Buy), t.buyer, t.instrument, t.notional, t.price, 0.0)
  }

  function SellerPosition(t: Trade): Position {
    Position(PositionId(t.id, Sell), t.seller, t.instrument, -t.notional, t.price, 0.0)
  }

  /** Inserting under a key: a known key keeps its place. */
  function Put(positions: seq<Position>, p: Position): seq<Position> {
    if positions == [] then [p]
    else if positions[0].id == p.id then [p] + positions[1..]
    else [positions[0]] + Put(positions[1..], p)
  }

  function MarginOf(members: map<string, Margin>, m: string): Margin { if m in members then members[m] else NO_MARGIN }

  function Reserved(a: Margin, amount: real): Margin { a.(initial := a.initial + amount, balance := a.balance - amount) }

  function Reserve(members: map<string, Margin>, m: string, amount: real): map<string, Margin> {
    members[m := Reserved(MarginOf(members, m), amount)]
  }

  function Accept(b: Book, t: Trade): Book {
    var buyer, seller := BuyerPosition(t), SellerPosition(t);
    b.(positions := Put(Put(b.positions, buyer), seller),
       members := Reserve(Reserve(b.members, t.buyer, InitialMargin(buyer)), t.seller, InitialMargin(seller)))
  }

  function ContributedBy(contributions: seq<Contribution>, m: string): real {
    if contributions == [] then 0.0
    else (if contributions[0].member == m then contributions[0].amount else 0.0) + ContributedBy(contributions[1..], m)
  }

  function AddContribution(contributions: seq<Contribution>, m: string, amount: real): seq<Contribution> {
    if contributions == [] then [Contribution(m, amount)]
    else if contributions[0].member == m then [Contribution(m, contributions[0].amount + amount)] + contributions[1..]
    else [contributions[0]] + AddContribution(contributions[1..], m, amount)
  }

  function Contribute(b: Book, m: string, amount: real): Book {
    if amount <= 0.0 then b
    else
      var a := MarginOf(b.members, m);
      b.(contributions := AddContribution(b.contributions, m, amount),
         fund := b.fund + amount,
         members := b.members[m := a.(balance := a.balance - amount)])
  }

  // ---------------------------------------------------------------------------------------------
  // Settlement: what a price change is worth to each position and member
  // ---------------------------------------------------------------------------------------------

  function Pnl(p: Position, price: real): real { p.quantity * (price - p.avgPrice) }

  function Variation(p: Position, instrument: string, price: real): real {
    if p.instrument == instrument then Pnl(p, price) - p.pnl else 0.0
  }

  function MarkedPosition(p: Position, instrument: string, price: real): Position {
    if p.instrument == instrument then p.(pnl := Pnl(p, price)) else p
  }

  function Marked(positions: seq<Position>, instrument: string, price: real): (r: seq<Position>)
    ensures |r| == |positions|
  {
    seq(|positions|, i requires 0 <= i < |positions| => MarkedPosition(positions[i], instrument, price))
  }

  function VariationTo(m: string, instrument: string, price: real): Position -> real {
    (p: Position) => if p.member == m then Variation(p, instrument, price) else 0.0
  }

  function VariationAt(instrument: string, price: real): Position -> real {
    (p: Position) => Variation(p, instrument, price)
  }

  /** What a settlement is worth to one member, over all its positions. */
  function MemberVariation(positions: seq<Position>, m: string, instrument: string, price: real): real {
    Sum(Map(VariationTo(m, instrument, price), positions))
  }

  function TotalVariation(positions: seq<Position>, instrument: string, price: real): real {
    Sum(Map(VariationAt(instrument, price), positions))
  }

  function Shifted(a: Margin, variation: real): Margin {
    a.(variation := a.variation + variation, balance := a.balance - variation)
  }

  function ShiftedMembers(members: map<string, Margin>, positions: seq<Position>, instrument: string, price: real)
    : map<string, Margin>
  {
    map m | m in members :: Shifted(members[m], MemberVariation(positions, m, instrument, price))
  }

  /** The book after marking an instrument to a price: nothing else moves. */
  function Settled(b: Book, instrument: string, price: real): Book {
    b.(positions := Marked(b.positions, instrument, price),
       members := ShiftedMembers(b.members, b.positions, instrument, price))
  }

  /** What a settlement reports as drained for an account: all it owes on a breach. */
  function Drained(a: Margin): real { if a.balance < -a.initial then AbsR(a.balance) else 0.0 }

  /** The report on the first `n` positions: each variation, and the state it leaves its member in. */
  function Report(b: Book, instrument: string, price: real, n: nat): seq<Detail>
    requires n <= |b.positions|
  {
    if n == 0 then []
    else
      var p := b.positions[n - 1];
      var after := ShiftedMembers(b.members, b.positions[..n], instrument, price);
      var entry := Detail(p.member, Pnl(p, price) - p.pnl, Drained(MarginOf(after, p.member)));
      Report(b, instrument, price, n - 1) + (if p.instrument == instrument then [entry] else [])
  }

  /** The accounts a settlement needs, and the sign it relies on. */
  ghost predicate Funded(b: Book) {
    && (forall p <- b.positions :: p.member in b.members)
    && (forall m <- b.members :: 0.0 <= b.members[m].initial)
  }

  // ---------------------------------------------------------------------------------------------
  // The default waterfall
  // ---------------------------------------------------------------------------------------------

  /** How a shortfall is split: the defaulter's margin, the fund, the contributors, and what nobody bears. */
  datatype Waterfall = Waterfall(own: real, fund: real, mutual: real, unborne: real)

  function Amounts(): Contribution -> real { (c: Contribution) => c.amount }

  function Absorb(b: Book, defaulter: Margin, shortfall: real): Waterfall {
    var own := MinR(shortfall, MaxR(0.0, defaulter.initial - defaulter.balance));
    var rest := shortfall - own;
    var fund := if rest > 0.0 && b.fund > 0.0 then MinR(b.fund, rest) else 0.0;
    var last := rest - fund;
    var mutual := if last > 0.0 && Sum(Map(Amounts(), b.contributions)) > 0.0 then last else 0.0;
    Waterfall(own, fund, mutual, last - mutual)
  }

  function Share(c: Contribution, total: real, loss: real): real
    requires total > 0.0
  {
    c.amount / total * loss
  }

  /** Each contributor with an account pays its share of `loss`. */
  function Mutualise(members: map<string, Margin>, contributions: seq<Contribution>, total: real, loss: real)
    : map<string, Margin>
    requires total > 0.0
  {
    if contributions == [] then members
    else
      var c := contributions[|contributions| - 1];
      var before := Mutualise(members, contributions[..|contributions| - 1], total, loss);
      if c.member in before then
        before[c.member := before[c.member].(balance := before[c.member].balance - Share(c, total, loss))]
      else before
  }

  function Defaulted(b: Book, defaulter: string, shortfall: real): Book
    requires defaulter in b.members
  {
    var w := Absorb(b, b.members[defaulter], shortfall);
    var total := Sum(Map(Amounts(), b.contributions));
    b.(fund := b.fund - w.fund,
       members := if w.mutual > 0.0 then Mutualise(b.members, b.contributions, total, w.mutual) else b.members)
  }

  class ClearingService {
    var positions: seq<Position>
    var members: map<string, Margin>
    var fund: real
    var contributions: seq<Contribution>

    ghost function View(): Book
      reads this
    {
      Book(positions, members, fund, contributions)
    }

    constructor ()
      ensures View() == Book([], map[], 0.0, [])
    {
      positions, members, fund, contributions := [], map[], 0.0, [];
    }

    method EnsureAccount(m: string)
      modifies this`members
      ensures members == if m in old(members) then old(members) else old(members)[m := NO_MARGIN]
    {
      if m !in members {
        members := members[m := NO_MARGIN];
      }
    }

    method ReserveInitialMargin(m: string, amount: real)
      requires m in members
      modifies this`members
      ensures members == old(members)[m := Reserved(old(members)[m], amount)]
    {
      var account := members[m];
      members := members[m := Margin(account.initial + amount, account.variation, account.balance - amount)];
    }

    method AcceptTrade(t: Trade)
      modifies this
      ensures View() == Accept(old(View()), t)
    {
      var buyer, seller := BuyerPosition(t), SellerPosition(t);
      positions := Put(positions, buyer);
      positions := Put(positions, seller);
      ghost var was := members;
      EnsureAccount(t.buyer);
      EnsureAccount(t.seller);
      ReserveInitialMargin(t.buyer, InitialMargin(buyer));
      ReserveInitialMargin(t.seller, InitialMargin(seller));
      assert members == Reserve(Reserve(was, t.buyer, InitialMargin(buyer)), t.seller, InitialMargin(seller));
    }

    method ContributeDefaultFund(m: string, amount: real)
      modifies this
      ensures View() == Contribute(old(View()), m, amount)
    {
      if amount <= 0.0 {
        return;
      }
      contributions := AddContribution(contributions, m, amount);
      fund := fund + amount;
      EnsureAccount(m);
      var account := members[m];
      members := members[m := account.(balance := account.balance - amount)];
    }

    /** The last tier: every contributor with an account pays its share of the loss. */
    method ChargeContributors(total: real, loss: real)
      requires total > 0.0
      modifies this`members
      ensures members == Mutualise(old(members), contributions, total, loss)
    {
      hide Share;
      var i := 0;
      while i < |contributions|
        invariant 0 <= i <= |contributions|
        invariant members == Mutualise(old(members), contributions[..i], total, loss)
      {
        var c := contributions[i];
        var take := Share(c, total, loss);
        if c.member in members {
          members := members[c.member := members[c.member].(balance := members[c.member].balance - take)];
        }
        assert contributions[..i + 1][..i] == contributions[..i] && contributions[..i + 1][i] == c;
        i := i + 1;
      }
      assert contributions[..i] == contributions;
    }

    method HandleDefault(defaulter: string, shortfall: real) returns (absorbed: real)
      requires defaulter in members && 0.0 <= shortfall
      modifies this
      ensures View() == Defaulted(old(View()), defaulter, shortfall)
      ensures var w := Absorb(old(View()), old(members)[defaulter], shortfall); absorbed == w.own + w.fund
    {
      hide Sum, Mutualise;
      var account := members[defaulter];
      var own := MinR(shortfall, MaxR(0.0, account.initial + account.balance * -1.0));
      var rest := shortfall - own;
      var drained := 0.0;
      if rest > 0.0 && fund > 0.0 {
        drained := MinR(fund, rest);
        fund := fund - drained;
        rest := rest - drained;
      }
      if rest > 0.0 {
        var total := Sum(Map(Amounts(), contributions));
        if total > 0.0 {
          ChargeContributors(total, rest);
        }
      }
      absorbed := drained + own;
    }

    /**
     * Marks every position in the instrument and moves the difference through its member's account.
     * A breach calls the waterfall, which here finds all it needs in the defaulter's own margin.
     */
    method SettleMarkToMarket(instrument: string, price: real) returns (total: real, details: seq<Detail>)
      requires Funded(View())
      modifies this
      ensures View() == Settled(old(View()), instrument, price)
      ensures total == TotalVariation(old(positions), instrument, price)
      ensures details == Report(old(View()), instrument, price, |old(positions)|)
    {
      hide Sum, Variation, ShiftedMembers, TotalVariation, Absorb, Defaulted, Funded, Pnl;
      total, details := 0.0, [];
      ghost var was := View();
      ghost var goal := Marked(positions, instrument, price);
      ShiftNothing(was, instrument, price);
      assert details == [];
      var i := 0;
      while i < |positions|
        invariant 0 <= i <= |positions| == |was.positions|
        invariant forall k | 0 <= k < i :: positions[k] == goal[k]
        invariant forall k | i <= k < |positions| :: positions[k] == was.positions[k]
        invariant members == ShiftedMembers(was.members, was.positions[..i], instrument, price)
        invariant fund == was.fund && contributions == was.contributions
        invariant total == TotalVariation(was.positions[..i], instrument, price)
        invariant details == Report(was, instrument, price, i)
      {
        ShiftStep(was, instrument, price, i);
        var p := positions[i];
        assert goal[i] == MarkedPosition(p, instrument, price);
        if p.instrument == instrument {
          var variation := Pnl(p, price) - p.pnl;
          positions := positions[i := p.(pnl := Pnl(p, price))];
          members := members[p.member := Shifted(members[p.member], variation)];
          var account := members[p.member];
          var drained := 0.0;
          if account.balance < -account.initial {
            TierOneAbsorbs(View(), p.member);
            drained := HandleDefault(p.member, AbsR(account.balance));
          }
          details := details + [Detail(p.member, variation, drained)];
          total := total + variation;
        }
        i := i + 1;
      }
      assert was.positions[..i] == was.positions;
    }
  }

  lemma {:induction false} ShiftNothing(b: Book, instrument: string, price: real)
    ensures ShiftedMembers(b.members, b.positions[..0], instrument, price) == b.members
    ensures TotalVariation(b.positions[..0], instrument, price) == 0.0
  {
  }

  lemma {:induction false} ShiftStep(b: Book, instrument: string, price: real, i: nat)
    requires Funded(b) && i < |b.positions|
    ensures var p := b.positions[i];
      var before := ShiftedMembers(b.members, b.positions[..i], instrument, price);
      var after := ShiftedMembers(b.members, b.positions[..i + 1], instrument, price);
      && p.member in before && before[p.member].initial >= 0.0
      && (if p.instrument == instrument
          then after == before[p.member := Shifted(before[p.member], Pnl(p, price) - p.pnl)]
          else after == before)
    ensures TotalVariation(b.positions[..i + 1], instrument, price)
         == TotalVariation(b.positions[..i], instrument, price)
          + (if b.positions[i].instrument == instrument then Pnl(b.positions[i], price) - b.positions[i].pnl else 0.0)
  {
    hide Sum, Pnl;
    assert b.positions[i] in b.positions;
    PrefixSum(VariationAt(instrument, price), b.positions, i);
    forall m: string
      ensures MemberVariation(b.positions[..i + 1], m, instrument, price)
           == MemberVariation(b.positions[..i], m, instrument, price) + VariationTo(m, instrument, price)(b.positions[i])
    {
      PrefixSum(VariationTo(m, instrument, price), b.positions, i);
    }
  }

  /** For a breached account the defaulter's margin covers the whole of what the settlement asks for. */
  lemma {:induction false} TierOneAbsorbs(b: Book, m: string)
    requires m in b.members && 0.0 <= b.members[m].initial && b.members[m].balance < -b.members[m].initial
    ensures var shortfall := AbsR(b.members[m].balance);
      Absorb(b, b.members[m], shortfall) == Waterfall(shortfall, 0.0, 0.0, 0.0) && Defaulted(b, m, shortfall) == b
  {
  }
}
