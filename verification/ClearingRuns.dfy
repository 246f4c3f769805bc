/** What every run of trades, contributions and settlements keeps, and how the waterfall splits a loss. */
module ClearingRuns {
  import opened Common
  import opened Greedy
  import opened Sorting
  import opened Clearing

  datatype Op = TradeOp(t: Trade) | ContributeOp(m: string, amount: real) | SettleOp(instrument: string, price: real)

  function Apply(b: Book, op: Op): Book {
    match op
    case TradeOp(t) => Accept(b, t)
    case ContributeOp(m, amount) => Contribute(b, m, amount)
    case SettleOp(instrument, price) => Settled(b, instrument, price)
  }

  function Run(b: Book, ops: seq<Op>): Book
    decreases |ops|
  {
    if ops == [] then b else Run(Apply(b, ops[0]), ops[1..])
  }

  function Empty(): Book { Book([], map[], 0.0, []) }

  // ---------------------------------------------------------------------------------------------
  // Mirrored pairs
  // ---------------------------------------------------------------------------------------------

  predicate IsPair(a: Position, b: Position) {
    && a.id == PositionId(b.id.tradeId, Buy) && b.id.side == Sell
    && a.instrument == b.instrument && a.avgPrice == b.avgPrice
    && a.quantity == -b.quantity && a.pnl == -b.pnl
  }

  /** Every trade's two positions stand side by side and mirror each other. */
  predicate Paired(s: seq<Position>) {
    s == [] || (|s| >= 2 && IsPair(s[0], s[1]) && Paired(s[2..]))
  }

  lemma {:induction false} PutPair(s: seq<Position>, t: Trade)
    requires Paired(s)
    ensures Paired(Put(Put(s, BuyerPosition(t)), SellerPosition(t)))
  {
    var buyer, seller := BuyerPosition(t), SellerPosition(t);
    if s == [] {
      assert Put(Put([], buyer), seller) == [buyer] + Put([], seller) by {
        assert [buyer][1..] == [];
      }
      assert [buyer, seller][2..] == [];
      assert [buyer] + [seller] == [buyer, seller];
    } else {
      var rest := s[2..];
      assert s[1..] == [s[1]] + rest;
      if s[0].id == buyer.id {
        assert s[1].id == seller.id;
        var once := [buyer] + s[1..];
        assert once[1..] == s[1..] && once[1..][1..] == rest;
        assert Put(s[1..], seller) == [seller] + s[1..][1..];
        var r := [buyer] + Put(once[1..], seller);
        assert r[0] == buyer && r[1] == seller && r[2..] == rest;
      } else {
        PutPair(rest, t);
        assert s[1..][1..] == rest;
        var once := [s[0]] + ([s[1]] + Put(rest, buyer));
        assert Put(s[1..], buyer) == [s[1]] + Put(rest, buyer);
        assert once[1..] == [s[1]] + Put(rest, buyer) && once[1..][1..] == Put(rest, buyer);
        assert s[1].id != seller.id;
        var twice := Put(rest, buyer);
        var r := [s[0]] + ([s[1]] + Put(twice, seller));
        assert Put(once[1..], seller) == [s[1]] + Put(twice, seller);
        assert Put(once, seller) == r;
        assert r[0] == s[0] && r[1] == s[1] && r[2..] == Put(twice, seller);
      }
    }
  }

  lemma {:induction false} MarkedPaired(s: seq<Position>, instrument: string, price: real)
    requires Paired(s)
    ensures Paired(Marked(s, instrument, price))
  {
    if s != [] {
      MarkedPaired(s[2..], instrument, price);
      assert Marked(s, instrument, price)[2..] == Marked(s[2..], instrument, price);
      assert s[0].quantity * (price - s[0].avgPrice) == -(s[1].quantity * (price - s[1].avgPrice));
    }
  }

  /** Whatever cancels within each pair sums to zero. */
  lemma {:induction false} PairsCancel(f: Position -> real, s: seq<Position>)
    requires Paired(s) && forall a, b | IsPair(a, b) :: f(a) + f(b) == 0.0
    ensures Sum(Map(f, s)) == 0.0
  {
    if s != [] {
      PairsCancel(f, s[2..]);
      var vs := Map(f, s);
      assert vs[1..][1..] == Map(f, s[2..]);
      assert IsPair(s[0], s[1]);
    }
  }

  function QuantityIn(instrument: string): Position -> real {
    (p: Position) => if p.instrument == instrument then p.quantity else 0.0
  }

  function NotionalIn(instrument: string): Position -> real {
    (p: Position) => if p.instrument == instrument then p.quantity * p.avgPrice else 0.0
  }

  function PnlIn(instrument: string): Position -> real {
    (p: Position) => if p.instrument == instrument then p.pnl else 0.0
  }

  /** Per instrument, quantities, quantities times prices, and profits sum to zero, and so does a settlement. */
  lemma {:induction false} PairedIsZeroSum(s: seq<Position>, instrument: string, price: real)
    requires Paired(s)
    ensures Sum(Map(QuantityIn(instrument), s)) == 0.0
    ensures Sum(Map(NotionalIn(instrument), s)) == 0.0
    ensures Sum(Map(PnlIn(instrument), s)) == 0.0
    ensures TotalVariation(s, instrument, price) == 0.0
  {
    PairsCancel(QuantityIn(instrument), s);
    forall a, b | IsPair(a, b) ensures NotionalIn(instrument)(a) + NotionalIn(instrument)(b) == 0.0 {
      assert a.quantity * a.avgPrice == -(b.quantity * b.avgPrice);
    }
    PairsCancel(NotionalIn(instrument), s);
    PairsCancel(PnlIn(instrument), s);
    forall a, b | IsPair(a, b) ensures VariationAt(instrument, price)(a) + VariationAt(instrument, price)(b) == 0.0 {
      assert a.quantity * (price - a.avgPrice) == -(b.quantity * (price - b.avgPrice));
    }
    PairsCancel(VariationAt(instrument, price), s);
  }

  // ---------------------------------------------------------------------------------------------
  // The invariant of every run
  // ---------------------------------------------------------------------------------------------

  predicate OnePerMember(contributions: seq<Contribution>) {
    forall i, j | 0 <= i < j < |contributions| :: contributions[i].member != contributions[j].member
  }

  /** What a member has reserved, been paid, holds and contributed always adds up to nothing. */
  ghost predicate Balanced(members: map<string, Margin>, contributions: seq<Contribution>) {
    forall m <- members ::
      members[m].initial + members[m].variation + members[m].balance + ContributedBy(contributions, m) == 0.0
  }

  ghost predicate FundInOrder(b: Book) {
    && OnePerMember(b.contributions)
    && (forall c <- b.contributions :: c.amount > 0.0 && c.member in b.members)
    && b.fund == Sum(Map(Amounts(), b.contributions))
  }

  ghost predicate Sound(b: Book) {
    Paired(b.positions) && Funded(b) && Balanced(b.members, b.contributions) && FundInOrder(b)
  }

  lemma {:induction false} PutMembers(s: seq<Position>, p: Position)
    ensures forall q <- Put(s, p) :: q == p || q in s
  {
    if s != [] && s[0].id != p.id {
      PutMembers(s[1..], p);
    }
  }

  lemma {:induction false} NoContribution(contributions: seq<Contribution>, m: string)
    requires forall c <- contributions :: c.member != m
    ensures ContributedBy(contributions, m) == 0.0
  {
    if contributions != [] {
      assert contributions[0] in contributions;
      NoContribution(contributions[1..], m);
    }
  }

  lemma {:induction false} AcceptIsSound(b: Book, t: Trade)
    requires Sound(b)
    ensures Sound(Accept(b, t))
  {
    var buyer, seller := BuyerPosition(t), SellerPosition(t);
    PutPair(b.positions, t);
    PutMembers(b.positions, buyer);
    PutMembers(Put(b.positions, buyer), seller);
    var once := Reserve(b.members, t.buyer, InitialMargin(buyer));
    ReserveKeeps(b, b.members, t.buyer, InitialMargin(buyer));
    ReserveKeeps(b, once, t.seller, InitialMargin(seller));
  }

  lemma {:induction false} ReserveKeeps(b: Book, members: map<string, Margin>, m: string, amount: real)
    requires FundInOrder(b) && Balanced(members, b.contributions) && 0.0 <= amount
    requires forall k <- b.members :: k in members
    requires forall k <- members :: 0.0 <= members[k].initial
    ensures var r := Reserve(members, m, amount);
      && Balanced(r, b.contributions)
      && (forall k <- members :: k in r) && m in r
      && (forall k <- r :: 0.0 <= r[k].initial)
  {
    if m !in members {
      NoContribution(b.contributions, m);
    }
  }

  lemma {:induction false} AddedSum(contributions: seq<Contribution>, m: string, amount: real)
    ensures Sum(Map(Amounts(), AddContribution(contributions, m, amount))) == Sum(Map(Amounts(), contributions)) + amount
    ensures forall k :: ContributedBy(AddContribution(contributions, m, amount), k)
                     == ContributedBy(contributions, k) + (if k == m then amount else 0.0)
  {
    var r := AddContribution(contributions, m, amount);
    if contributions == [] {
      assert Map(Amounts(), r)[1..] == [];
    } else {
      var rest := contributions[1..];
      assert Map(Amounts(), contributions)[1..] == Map(Amounts(), rest);
      if contributions[0].member == m {
        assert Map(Amounts(), r)[1..] == Map(Amounts(), rest);
      } else {
        AddedSum(rest, m, amount);
        assert Map(Amounts(), r)[1..] == Map(Amounts(), AddContribution(rest, m, amount));
      }
    }
  }

  lemma {:induction false} AddedMembers(contributions: seq<Contribution>, m: string, amount: real)
    requires OnePerMember(contributions)
    ensures var r := AddContribution(contributions, m, amount);
      && OnePerMember(r)
      && (forall c <- r :: c.member == m || c in contributions)
      && (forall c <- r :: c.member == m ==> c.amount == ContributedBy(contributions, m) + amount)
  {
    if contributions != [] {
      var rest := contributions[1..];
      assert forall i | 0 <= i < |rest| :: rest[i] == contributions[i + 1];
      if contributions[0].member == m {
        NoContribution(rest, m);
      } else {
        AddedMembers(rest, m, amount);
        var r := AddContribution(contributions, m, amount);
        assert forall i | 1 <= i < |r| :: r[i] in AddContribution(rest, m, amount);
      }
    }
  }

  lemma {:induction false} ContributionPositive(contributions: seq<Contribution>, m: string)
    requires forall c <- contributions :: c.amount > 0.0
    ensures 0.0 <= ContributedBy(contributions, m)
  {
    if contributions != [] {
      assert contributions[0] in contributions;
      ContributionPositive(contributions[1..], m);
    }
  }

  lemma {:induction false} ContributeIsSound(b: Book, m: string, amount: real)
    requires Sound(b)
    ensures Sound(Contribute(b, m, amount))
  {
    if amount > 0.0 {
      AddedSum(b.contributions, m, amount);
      AddedMembers(b.contributions, m, amount);
      ContributionPositive(b.contributions, m);
      if m !in b.members {
        NoContribution(b.contributions, m);
      }
    }
  }

  lemma {:induction false} SettledIsSound(b: Book, instrument: string, price: real)
    requires Sound(b)
    ensures Sound(Settled(b, instrument, price))
  {
    hide Sum, MemberVariation;
    MarkedPaired(b.positions, instrument, price);
    var after := Settled(b, instrument, price);
    forall p | p in after.positions ensures p.member in after.members {
      var i :| 0 <= i < |after.positions| && after.positions[i] == p;
      assert b.positions[i] in b.positions;
    }
  }

  lemma {:induction false} ApplyIsSound(b: Book, op: Op)
    requires Sound(b)
    ensures Sound(Apply(b, op))
  {
    hide Sound, Accept, Contribute, Settled;
    match op
    case TradeOp(t) => AcceptIsSound(b, t);
    case ContributeOp(m, amount) => ContributeIsSound(b, m, amount);
    case SettleOp(instrument, price) => SettledIsSound(b, instrument, price);
  }

  /** The invariant holds after every run, whatever the trades, prices, contributions and reused trade ids. */
  lemma {:induction false} EveryRunIsSound(b: Book, ops: seq<Op>)
    requires Sound(b)
    ensures Sound(Run(b, ops))
    decreases |ops|
  {
    hide Sound, Apply;
    if ops != [] {
      ApplyIsSound(b, ops[0]);
      EveryRunIsSound(Apply(b, ops[0]), ops[1..]);
    }
  }

  /** So every instrument is zero-sum in every reachable book, and every settlement totals zero. */
  lemma {:induction false} EverySettlementIsZeroSum(ops: seq<Op>, instrument: string, price: real)
    ensures var b := Run(Empty(), ops);
      && Sum(Map(QuantityIn(instrument), b.positions)) == 0.0
      && Sum(Map(NotionalIn(instrument), b.positions)) == 0.0
      && Sum(Map(PnlIn(instrument), b.positions)) == 0.0
      && TotalVariation(b.positions, instrument, price) == 0.0
  {
    EveryRunIsSound(Empty(), ops);
    PairedIsZeroSum(Run(Empty(), ops).positions, instrument, price);
  }

  // ---------------------------------------------------------------------------------------------
  // Path independence
  // ---------------------------------------------------------------------------------------------

  lemma {:induction false} MarkedTwice(p: Position, instrument: string, first: real, second: real)
    ensures var q := MarkedPosition(p, instrument, first);
      && MarkedPosition(q, instrument, second) == MarkedPosition(p, instrument, second) && q.member == p.member
      && Variation(p, instrument, first) + Variation(q, instrument, second) == Variation(p, instrument, second)
  {
  }

  /** Settling at one price and then another is settling at the other. */
  lemma {:induction false} SettlingTelescopes(b: Book, instrument: string, first: real, second: real)
    ensures Settled(Settled(b, instrument, first), instrument, second) == Settled(b, instrument, second)
  {
    var s := b.positions;
    var t := Marked(s, instrument, first);
    forall i | 0 <= i < |s|
      ensures MarkedPosition(t[i], instrument, second) == MarkedPosition(s[i], instrument, second)
      ensures t[i].member == s[i].member
      ensures Variation(s[i], instrument, first) + Variation(t[i], instrument, second) == Variation(s[i], instrument, second)
    {
      MarkedTwice(s[i], instrument, first, second);
    }
    hide Variation, MarkedPosition, Sum;
    assert Marked(t, instrument, second) == Marked(s, instrument, second);
    forall m: string
      ensures MemberVariation(s, m, instrument, first) + MemberVariation(t, m, instrument, second)
           == MemberVariation(s, m, instrument, second)
    {
      var vs, ws := Map(VariationTo(m, instrument, first), s), Map(VariationTo(m, instrument, second), t);
      assert Plus(vs, ws) == Map(VariationTo(m, instrument, second), s);
      SumPlus(vs, ws);
    }
    hide MemberVariation;
  }

  function SettleAll(b: Book, instrument: string, prices: seq<real>): Book
    decreases |prices|
  {
    if prices == [] then b else SettleAll(Settled(b, instrument, prices[0]), instrument, prices[1..])
  }

  /** Only the last of a series of settlement prices matters. */
  lemma {:induction false} OnlyLastPriceMatters(b: Book, instrument: string, prices: seq<real>)
    requires prices != []
    ensures SettleAll(b, instrument, prices) == Settled(b, instrument, prices[|prices| - 1])
    decreases |prices|
  {
    hide Settled;
    if |prices| > 1 {
      OnlyLastPriceMatters(Settled(b, instrument, prices[0]), instrument, prices[1..]);
      SettlingTelescopes(b, instrument, prices[0], prices[|prices| - 1]);
    } else {
      assert prices[1..] == [];
    }
  }

  // ---------------------------------------------------------------------------------------------
  // Variation margin against positions
  // ---------------------------------------------------------------------------------------------

  function PnlOf(m: string): Position -> real { (p: Position) => if p.member == m then p.pnl else 0.0 }

  function PnlTotal(positions: seq<Position>, m: string): real { Sum(Map(PnlOf(m), positions)) }

  /** Each member's variation is the profit of its open positions. */
  ghost predicate Explained(b: Book) {
    forall m <- b.members :: b.members[m].variation == PnlTotal(b.positions, m)
  }

  lemma {:induction false} SettledExplains(b: Book, instrument: string, price: real)
    ensures Explained(b) <==> Explained(Settled(b, instrument, price))
  {
    forall m: string
      ensures PnlTotal(Marked(b.positions, instrument, price), m)
           == PnlTotal(b.positions, m) + MemberVariation(b.positions, m, instrument, price)
    {
      var vs, ws := Map(PnlOf(m), b.positions), Map(VariationTo(m, instrument, price), b.positions);
      assert Plus(vs, ws) == Map(PnlOf(m), Marked(b.positions, instrument, price));
      SumPlus(vs, ws);
    }
    hide PnlTotal, MemberVariation;
    var after := Settled(b, instrument, price);
    assert forall m :: m in b.members <==> m in after.members;
    if Explained(after) {
      forall m | m in b.members ensures b.members[m].variation == PnlTotal(b.positions, m) {
        assert m in after.members;
      }
    }
  }

  lemma {:induction false} ContributeExplains(b: Book, m: string, amount: real)
    requires Explained(b) && Funded(b)
    ensures Explained(Contribute(b, m, amount))
  {
    if m !in b.members {
      NobodysPnl(b.positions, m);
    }
  }

  lemma {:induction false} NobodysPnl(s: seq<Position>, m: string)
    requires forall p <- s :: p.member != m
    ensures PnlTotal(s, m) == 0.0
  {
    if s != [] {
      assert s[0] in s;
      NobodysPnl(s[1..], m);
      assert Map(PnlOf(m), s)[1..] == Map(PnlOf(m), s[1..]);
    }
  }

  /** What a known position contributes to the profit of a member, before it is replaced. */
  function PnlUnder(s: seq<Position>, id: PositionId, m: string): real {
    if s == [] then 0.0
    else if s[0].id == id then PnlOf(m)(s[0])
    else PnlUnder(s[1..], id, m)
  }

  lemma {:induction false} PutPnl(s: seq<Position>, p: Position, m: string)
    ensures PnlTotal(Put(s, p), m) == PnlTotal(s, m) - PnlUnder(s, p.id, m) + PnlOf(m)(p)
    ensures forall id | id != p.id :: PnlUnder(Put(s, p), id, m) == PnlUnder(s, id, m)
  {
    var r := Put(s, p);
    if s == [] {
      assert Map(PnlOf(m), r)[1..] == Map(PnlOf(m), s);
      assert r[1..] == [];
    } else {
      assert Map(PnlOf(m), s)[1..] == Map(PnlOf(m), s[1..]);
      if s[0].id == p.id {
        assert Map(PnlOf(m), r)[1..] == Map(PnlOf(m), s[1..]);
        assert r[1..] == s[1..];
      } else {
        PutPnl(s[1..], p, m);
        assert r[1..] == Put(s[1..], p);
        assert Map(PnlOf(m), r)[1..] == Map(PnlOf(m), Put(s[1..], p));
      }
    }
  }

  /**
   * Accepting a trade keeps variation explained exactly when the positions it replaces, if its id
   * was used before, carry no profit to any member.
   */
  lemma {:induction false} AcceptExplainsIff(b: Book, t: Trade)
    requires Sound(b) && Explained(b)
    ensures Explained(Accept(b, t)) <==>
      forall m :: PnlReplaced(b, t, m) == 0.0
  {
    var after := Accept(b, t);
    AcceptMembers(b, t);
    forall m: string
      ensures PnlTotal(after.positions, m) == PnlTotal(b.positions, m) - PnlReplaced(b, t, m)
      ensures m !in b.members ==> PnlTotal(b.positions, m) == 0.0 == PnlReplaced(b, t, m)
    {
      AcceptPnl(b, t, m);
    }
    hide PnlTotal, PnlUnder, Accept, PnlReplaced;
    if Explained(after) {
      forall m: string ensures PnlReplaced(b, t, m) == 0.0 {
        assert m in b.members ==> m in after.members;
      }
    }
  }

  function PnlReplaced(b: Book, t: Trade, m: string): real {
    PnlUnder(b.positions, PositionId(t.id, Buy), m) + PnlUnder(b.positions, PositionId(t.id, Sell), m)
  }

  lemma {:induction false} AcceptMembers(b: Book, t: Trade)
    ensures var after := Accept(b, t);
      && (forall m <- b.members :: m in after.members && after.members[m].variation == b.members[m].variation)
      && (forall m <- after.members :: m in b.members || after.members[m].variation == 0.0)
  {
  }

  lemma {:induction false} AcceptPnl(b: Book, t: Trade, m: string)
    requires Funded(b)
    ensures PnlTotal(Accept(b, t).positions, m) == PnlTotal(b.positions, m) - PnlReplaced(b, t, m)
    ensures m !in b.members ==> PnlTotal(b.positions, m) == 0.0 == PnlReplaced(b, t, m)
  {
    var buyer, seller := BuyerPosition(t), SellerPosition(t);
    PutPnl(b.positions, buyer, m);
    PutPnl(Put(b.positions, buyer), seller, m);
    if m !in b.members {
      NobodysPnl(b.positions, m);
      NothingUnder(b.positions, buyer.id, m);
      NothingUnder(b.positions, seller.id, m);
    }
  }

  lemma {:induction false} NothingUnder(s: seq<Position>, id: PositionId, m: string)
    requires forall p <- s :: p.id != id || p.member != m
    ensures PnlUnder(s, id, m) == 0.0
  {
    if s != [] {
      assert s[0] in s;
      NothingUnder(s[1..], id, m);
    }
  }

  predicate Known(s: seq<Position>, tradeId: string) { exists p <- s :: p.id.tradeId == tradeId }

  /** No trade of the run reuses the id of a position on the book. */
  predicate FreshIds(b: Book, ops: seq<Op>)
    decreases |ops|
  {
    ops == [] || ((ops[0].TradeOp? ==> !Known(b.positions, ops[0].t.id)) && FreshIds(Apply(b, ops[0]), ops[1..]))
  }

  lemma {:induction false} ApplyExplains(b: Book, op: Op)
    requires Sound(b) && Explained(b) && (op.TradeOp? ==> !Known(b.positions, op.t.id))
    ensures Explained(Apply(b, op))
  {
    hide Accept, Contribute, Settled, Explained, PnlUnder;
    match op
    case TradeOp(t) =>
      forall m: string ensures PnlReplaced(b, t, m) == 0.0 {
        NothingUnder(b.positions, PositionId(t.id, Buy), m);
        NothingUnder(b.positions, PositionId(t.id, Sell), m);
      }
      AcceptExplainsIff(b, t);
    case ContributeOp(m, amount) => ContributeExplains(b, m, amount);
    case SettleOp(instrument, price) => SettledExplains(b, instrument, price);
  }

  /** With fresh trade ids, in every reachable book each member's variation is its positions' profit. */
  lemma {:induction false} VariationIsExplained(b: Book, ops: seq<Op>)
    requires Sound(b) && Explained(b) && FreshIds(b, ops)
    ensures Explained(Run(b, ops))
    decreases |ops|
  {
    hide Sound, Explained, Apply, Known;
    if ops != [] {
      ApplyIsSound(b, ops[0]);
      ApplyExplains(b, ops[0]);
      VariationIsExplained(Apply(b, ops[0]), ops[1..]);
    }
  }

  // ---------------------------------------------------------------------------------------------
  // The waterfall on an arbitrary shortfall
  // ---------------------------------------------------------------------------------------------

  /** The tiers add up to the shortfall and are drawn on in order. */
  lemma {:induction false} WaterfallInOrder(b: Book, defaulter: Margin, shortfall: real)
    requires 0.0 <= shortfall && FundInOrder(b.(fund := Sum(Map(Amounts(), b.contributions))))
    requires 0.0 <= b.fund
    ensures var w := Absorb(b, defaulter, shortfall);
      && 0.0 <= w.own && 0.0 <= w.fund <= b.fund && 0.0 <= w.mutual && 0.0 <= w.unborne
      && w.own + w.fund + w.mutual + w.unborne == shortfall
      && (w.fund > 0.0 ==> w.own == MaxR(0.0, defaulter.initial - defaulter.balance))
      && (w.mutual > 0.0 ==> w.fund == b.fund)
      && (w.unborne > 0.0 <==> b.contributions == [] && shortfall > w.own + w.fund)
  {
    var total := Sum(Map(Amounts(), b.contributions));
    if b.contributions != [] {
      var amounts := Map(Amounts(), b.contributions);
      forall i | 0 <= i < |amounts| ensures 0.0 < amounts[i] {
        assert b.contributions[i] in b.contributions;
      }
      SumNonNegative(amounts);
      assert amounts[0] <= total;
    }
  }

  function ShareOf(total: real, loss: real): Contribution -> real
    requires total > 0.0
  {
    (c: Contribution) => Share(c, total, loss)
  }

  lemma {:induction false} ShareScaled(c: Contribution, total: real, loss: real)
    requires total > 0.0
    ensures Share(c, total, loss) == c.amount * (loss / total)
  {
  }

  lemma {:induction false} SharesScale(contributions: seq<Contribution>, total: real, loss: real)
    requires total > 0.0
    ensures Sum(Map(ShareOf(total, loss), contributions)) == Sum(Map(Amounts(), contributions)) * (loss / total)
  {
    var k := loss / total;
    if contributions == [] {
      assert 0.0 * k == 0.0;
    } else {
      var rest := contributions[1..];
      SharesScale(rest, total, loss);
      ShareScaled(contributions[0], total, loss);
      hide Share;
      assert Map(ShareOf(total, loss), contributions)[1..] == Map(ShareOf(total, loss), rest);
      assert Map(Amounts(), contributions)[1..] == Map(Amounts(), rest);
      Distribute(contributions[0].amount, Sum(Map(Amounts(), rest)), k);
    }
  }

  /** The shares of a mutualised loss add up to the loss. */
  lemma {:induction false} SharesAddUp(contributions: seq<Contribution>, total: real, loss: real)
    requires total > 0.0 && total == Sum(Map(Amounts(), contributions))
    ensures Sum(Map(ShareOf(total, loss), contributions)) == loss
  {
    SharesScale(contributions, total, loss);
    assert total * (loss / total) == loss;
  }

  lemma {:induction false} ContributedByLast(front: seq<Contribution>, last: Contribution, m: string)
    ensures ContributedBy(front + [last], m) == ContributedBy(front, m) + (if last.member == m then last.amount else 0.0)
  {
    if front == [] {
      assert (front + [last])[1..] == [];
    } else {
      ContributedByLast(front[1..], last, m);
      assert (front + [last])[1..] == front[1..] + [last];
    }
  }

  /** A mutualised loss charges each member in proportion to what it contributed, and nothing else moves. */
  lemma {:induction false} MutualiseCharges(members: map<string, Margin>, contributions: seq<Contribution>,
      total: real, loss: real, m: string)
    requires total > 0.0 && m in members
    ensures var r := Mutualise(members, contributions, total, loss);
      && r.Keys == members.Keys
      && r[m] == members[m].(balance := members[m].balance - ContributedBy(contributions, m) * (loss / total))
    decreases |contributions|
  {
    hide Share, ContributedBy;
    var k := loss / total;
    if contributions == [] {
      NoContribution(contributions, m);
      assert 0.0 * k == 0.0;
    } else {
      var n := |contributions| - 1;
      var front, last := contributions[..n], contributions[n];
      assert contributions == front + [last];
      MutualiseCharges(members, front, total, loss, m);
      ContributedByLast(front, last, m);
      ShareScaled(last, total, loss);
      Distribute(ContributedBy(front, m), last.amount, k);
    }
  }
}
