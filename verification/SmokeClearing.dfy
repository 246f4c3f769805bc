/** The clearing of the smoke script, in which a breach really drains the default fund. */
module SmokeClearing {
  import opened Common
  import opened Clearing
  import opened ClearingRuns

  /** A contribution, of whatever sign. */
  function ContributeDefault(b: Book, m: string, amount: real): Book {
    var a := MarginOf(b.members, m);
    b.(contributions := AddContribution(b.contributions, m, amount),
       fund := b.fund + amount,
       members := b.members[m := a.(balance := a.balance - amount)])
  }

  /** What an account takes out of the fund after a settlement. */
  function Drain(fund: real, a: Margin): real {
    if a.balance < -a.initial then MinR(fund, AbsR(a.balance) - a.initial) else 0.0
  }

  function SettlePosition(b: Book, i: nat, instrument: string, price: real): Book
    requires i < |b.positions| && b.positions[i].member in b.members
  {
    var p := b.positions[i];
    if p.instrument != instrument then b
    else
      var a := Shifted(b.members[p.member], Pnl(p, price) - p.pnl);
      var drain := Drain(b.fund, a);
      b.(positions := b.positions[i := p.(pnl := Pnl(p, price))],
         members := b.members[p.member := a.(balance := a.balance + drain)],
         fund := b.fund - drain)
  }

  ghost predicate HasAccounts(b: Book) { forall p <- b.positions :: p.member in b.members }

  lemma {:induction false} StillHasAccounts(b: Book, i: nat, instrument: string, price: real)
    requires HasAccounts(b) && i < |b.positions|
    ensures b.positions[i].member in b.members
    ensures HasAccounts(SettlePosition(b, i, instrument, price))
    ensures |SettlePosition(b, i, instrument, price).positions| == |b.positions|
  {
    assert b.positions[i] in b.positions;
    var r := SettlePosition(b, i, instrument, price);
    forall p | p in r.positions ensures p.member in r.members {
      var k :| 0 <= k < |r.positions| && r.positions[k] == p;
      assert b.positions[k] in b.positions;
    }
  }

  /** Settling the positions from the i-th on, one after the other. */
  ghost function SettleFrom(b: Book, i: nat, instrument: string, price: real): Book
    requires HasAccounts(b) && i <= |b.positions|
    decreases |b.positions| - i
  {
    if i == |b.positions| then b
    else
      StillHasAccounts(b, i, instrument, price);
      SettleFrom(SettlePosition(b, i, instrument, price), i + 1, instrument, price)
  }

  class SimpleClearing {
    var positions: seq<Position>
    var margins: map<string, Margin>
    var fund: real
    var contributions: seq<Contribution>

    ghost function View(): Book
      reads this
    {
      Book(positions, margins, fund, contributions)
    }

    constructor ()
      ensures View() == Empty()
    {
      positions, margins, fund, contributions := [], map[], 0.0, [];
    }

    method AcceptTrade(t: Trade)
      modifies this
      ensures View() == Accept(old(View()), t)
    {
      var buyer, seller := BuyerPosition(t), SellerPosition(t);
      positions := Put(Put(positions, buyer), seller);
      margins := margins[t.buyer := MarginOf(margins, t.buyer)];
      margins := margins[t.seller := MarginOf(margins, t.seller)];
      margins := margins[t.buyer := Reserved(margins[t.buyer], InitialMargin(buyer))];
      margins := margins[t.seller := Reserved(margins[t.seller], InitialMargin(seller))];
      assert margins == Accept(old(View()), t).members;
    }

    method ContributeDefaultFund(m: string, amount: real)
      modifies this
      ensures View() == ContributeDefault(old(View()), m, amount)
    {
      if m !in margins {
        margins := margins[m := NO_MARGIN];
      }
      contributions := AddContribution(contributions, m, amount);
      fund := fund + amount;
      margins := margins[m := margins[m].(balance := margins[m].balance - amount)];
    }

    method Settle(instrument: string, price: real)
      requires HasAccounts(View())
      modifies this
      ensures View() == SettleFrom(old(View()), 0, instrument, price)
    {
      ghost var was := View();
      var i := 0;
      while i < |positions|
        invariant 0 <= i <= |positions| && HasAccounts(View()) && HasAccounts(was)
        invariant SettleFrom(View(), i, instrument, price) == SettleFrom(was, 0, instrument, price)
        decreases |positions| - i
      {
        hide HasAccounts;
        StillHasAccounts(View(), i, instrument, price);
        ghost var next := SettlePosition(View(), i, instrument, price);
        var p := positions[i];
        if p.instrument == instrument {
          var variation := Pnl(p, price) - p.pnl;
          positions := positions[i := p.(pnl := Pnl(p, price))];
          var account := margins[p.member];
          account := Margin(account.initial, account.variation + variation, account.balance - variation);
          if account.balance < -account.initial {
            var need := AbsR(account.balance) - account.initial;
            var drain := MinR(fund, need);
            fund := fund - drain;
            account := account.(balance := account.balance + drain);
          }
          margins := margins[p.member := account];
        }
        assert View() == next;
        i := i + 1;
      }
    }
  }

  // ---------------------------------------------------------------------------------------------
  // The grand total
  // ---------------------------------------------------------------------------------------------

  function Worth(a: Margin): real { a.initial + a.variation + a.balance }

  ghost function Pick(members: map<string, Margin>): (m: string)
    requires members != map[]
    ensures m in members
  {
    var m :| m in members;
    m
  }

  ghost function Total(members: map<string, Margin>): real {
    if members == map[] then 0.0
    else Worth(members[Pick(members)]) + Total(members - {Pick(members)})
  }

  lemma {:induction false} TotalSplit(members: map<string, Margin>, k: string)
    requires k in members
    ensures Total(members) == Worth(members[k]) + Total(members - {k})
    decreases |members|
  {
    var m := Pick(members);
    if m != k {
      TotalSplit(members - {m}, k);
      TotalSplit(members - {k}, m);
      assert (members - {m}) - {k} == (members - {k}) - {m};
    }
  }

  lemma {:induction false} TotalUpdate(members: map<string, Margin>, k: string, a: Margin)
    ensures Total(members[k := a]) == Total(members) - Worth(MarginOf(members, k)) + Worth(a)
  {
    TotalSplit(members[k := a], k);
    if k in members {
      TotalSplit(members, k);
      assert members[k := a] - {k} == members - {k};
    } else {
      assert members[k := a] - {k} == members;
    }
  }

  datatype SmokeOp = TradeSmoke(t: Trade) | ContributeSmoke(m: string,
      amount: real) | SettleSmoke(instrument: string, price: real)

  /** Money is neither made nor lost; accounts exist where needed; reserves and the fund are not negative. */
  ghost predicate Closed(b: Book) {
    && HasAccounts(b)
    && (forall m <- b.members :: 0.0 <= b.members[m].initial)
    && Total(b.members) + b.fund == 0.0
    && 0.0 <= b.fund
  }

  ghost function ApplySmoke(b: Book, op: SmokeOp): Book
    requires HasAccounts(b)
  {
    match op
    case TradeSmoke(t) => Accept(b, t)
    case ContributeSmoke(m, amount) => ContributeDefault(b, m, amount)
    case SettleSmoke(instrument, price) => SettleFrom(b, 0, instrument, price)
  }

  lemma {:induction false} ReserveIsClosed(members: map<string, Margin>, m: string, amount: real)
    requires 0.0 <= amount && forall k <- members :: 0.0 <= members[k].initial
    ensures var r := Reserve(members, m, amount);
      && Total(r) == Total(members) && m in r
      && (forall k <- members :: k in r)
      && (forall k <- r :: 0.0 <= r[k].initial)
  {
    TotalUpdate(members, m, Reserved(MarginOf(members, m), amount));
  }

  lemma {:induction false} AcceptIsClosed(b: Book, t: Trade)
    requires Closed(b)
    ensures Closed(Accept(b, t))
  {
    hide Total, Put, Reserve;
    var buyer, seller := BuyerPosition(t), SellerPosition(t);
    PutMembers(b.positions, buyer);
    PutMembers(Put(b.positions, buyer), seller);
    ReserveIsClosed(b.members, t.buyer, InitialMargin(buyer));
    ReserveIsClosed(Reserve(b.members, t.buyer, InitialMargin(buyer)), t.seller, InitialMargin(seller));
  }

  lemma {:induction false} ContributeIsClosed(b: Book, m: string, amount: real)
    requires Closed(b) && 0.0 <= amount
    ensures Closed(ContributeDefault(b, m, amount))
  {
    TotalUpdate(b.members, m, ContributeDefault(b, m, amount).members[m]);
  }

  /** One position: the drain stays within the fund and leaves no breach unless it empties the fund. */
  lemma {:induction false} SettlePositionIsClosed(b: Book, i: nat, instrument: string, price: real)
    requires HasAccounts(b) && i < |b.positions| && Closed(b) && b.positions[i].member in b.members
    ensures var r := SettlePosition(b, i, instrument, price);
      var p := b.positions[i];
      && Closed(r)
      && r.fund <= b.fund
      && (p.instrument == instrument ==> r.members[p.member].balance >= -r.members[p.member].initial || r.fund == 0.0)
      && (forall m <- b.members :: m in r.members && (m != p.member ==> r.members[m] == b.members[m]))
      && r.positions == b.positions[i := MarkedPosition(p, instrument, price)]
  {
    StillHasAccounts(b, i, instrument, price);
    var p := b.positions[i];
    if p.instrument == instrument {
      hide Pnl;
      TotalUpdate(b.members, p.member, SettlePosition(b, i, instrument, price).members[p.member]);
    }
  }

  /** Of the positions settled so far, every holder is within its margin or the fund is empty. */
  ghost predicate Covered(b: Book, i: nat, instrument: string)
    requires i <= |b.positions|
  {
    forall k | 0 <= k < i && b.positions[k].instrument == instrument && b.positions[k].member in b.members ::
      var a := b.members[b.positions[k].member]; a.balance >= -a.initial || b.fund == 0.0
  }

  /**
   * A settlement keeps the grand total at zero and the fund from going negative, marks every
   * position, and leaves each holder of the instrument within its margin unless the fund is empty.
   */
  lemma {:induction false} SettleFromCovers(b: Book, i: nat, instrument: string, price: real)
    requires HasAccounts(b) && i <= |b.positions| && Closed(b) && Covered(b, i, instrument)
    ensures var r := SettleFrom(b, i, instrument, price);
      && Closed(r) && |r.positions| == |b.positions| && Covered(r, |r.positions|, instrument)
      && r.fund <= b.fund
      && r.positions == b.positions[..i] + Marked(b.positions[i..], instrument, price)
    decreases |b.positions| - i
  {
    hide Marked;
    if i == |b.positions| {
      MarkedNothing(instrument, price);
      assert b.positions[..i] == b.positions && b.positions[i..] == [];
    } else {
      StillHasAccounts(b, i, instrument, price);
      SettlePositionIsClosed(b, i, instrument, price);
      var next := SettlePosition(b, i, instrument, price);
      CoveredStep(b, i, instrument, price);
      hide SettlePosition, Covered, Closed, HasAccounts, MarkedPosition, Marked;
      SettleFromCovers(next, i + 1, instrument, price);
      MarkedFrom(b.positions, i, instrument, price);
    }
  }

  lemma {:induction false} MarkedNothing(instrument: string, price: real)
    ensures Marked([], instrument, price) == []
  {
  }

  lemma {:induction false} MarkedFrom(s: seq<Position>, i: nat, instrument: string, price: real)
    requires i < |s|
    ensures var t := s[i := MarkedPosition(s[i], instrument, price)];
      t[..i + 1] + Marked(t[i + 1..], instrument, price) == s[..i] + Marked(s[i..], instrument, price)
  {
  }

  lemma {:induction false} CoveredStep(b: Book, i: nat, instrument: string, price: real)
    requires HasAccounts(b) && i < |b.positions| && Closed(b) && Covered(b, i,
        instrument) && b.positions[i].member in b.members
    ensures i + 1 <= |SettlePosition(b, i, instrument, price).positions|
    ensures Covered(SettlePosition(b, i, instrument, price), i + 1, instrument)
  {
    SettlePositionIsClosed(b, i, instrument, price);
    hide SettlePosition, MarkedPosition;
    var r := SettlePosition(b, i, instrument, price);
    forall k | 0 <= k < i + 1 && r.positions[k].instrument == instrument && r.positions[k].member in r.members
      ensures var a := r.members[r.positions[k].member]; a.balance >= -a.initial || r.fund == 0.0
    {
      assert MarkedKeeps(b.positions[i], instrument, price);
      if k < i {
        assert b.positions[k] in b.positions;
      }
    }
  }

  predicate MarkedKeeps(p: Position, instrument: string, price: real)
    ensures MarkedKeeps(p, instrument, price)
  {
    var q := MarkedPosition(p, instrument, price);
    q.member == p.member && q.instrument == p.instrument
  }

  ghost predicate NonNegativeContributions(ops: seq<SmokeOp>) {
    forall op <- ops :: op.ContributeSmoke? ==> 0.0 <= op.amount
  }

  ghost function RunSmoke(b: Book, ops: seq<SmokeOp>): Book
    requires Closed(b) && NonNegativeContributions(ops)
    decreases |ops|
  {
    if ops == [] then b
    else
      assert ops[0] in ops;
      ApplyIsClosed(b, ops[0]);
      RunSmoke(ApplySmoke(b, ops[0]), ops[1..])
  }

  lemma {:induction false} ApplyIsClosed(b: Book, op: SmokeOp)
    requires Closed(b) && (op.ContributeSmoke? ==> 0.0 <= op.amount)
    ensures Closed(ApplySmoke(b, op))
  {
    hide Accept, ContributeDefault;
    match op
    case TradeSmoke(t) => AcceptIsClosed(b, t);
    case ContributeSmoke(m, amount) => ContributeIsClosed(b, m, amount);
    case SettleSmoke(instrument, price) => SettleFromCovers(b, 0, instrument, price);
  }

  /** Every reachable book closes, and one more settlement covers every holder or empties the fund. */
  lemma {:induction false} EveryRunCloses(b: Book, ops: seq<SmokeOp>, instrument: string, price: real)
    requires Closed(b) && NonNegativeContributions(ops)
    ensures Closed(RunSmoke(b, ops))
    ensures var end := RunSmoke(b, ops);
      var after := SettleFrom(end, 0, instrument, price);
      && Closed(after)
      && after.positions == Marked(end.positions, instrument, price)
      && forall p <- after.positions :: p.instrument == instrument ==>
           && p.member in after.members
           && (after.members[p.member].balance >= -after.members[p.member].initial || after.fund == 0.0)
    decreases |ops|
  {
    if ops == [] {
      SettleFromCovers(b, 0, instrument, price);
      assert b.positions[..0] == [] && b.positions[0..] == b.positions;
    } else {
      hide Closed;
      assert ops[0] in ops;
      ApplyIsClosed(b, ops[0]);
      EveryRunCloses(ApplySmoke(b, ops[0]), ops[1..], instrument, price);
    }
  }
}
