/** The contract event indexer: its SQLite tables, its event handlers and its polling step. */
module Indexer {
  import opened Common

  datatype Status = Pending | Approved | Rejected | Executed | Cancelled

  datatype TradeInfo = TradeInfo(
    trader: string, pair: string, amount: int, price: int, isBuy: bool, feeAmount: int, feeToken: string,
    timestamp: int)

  datatype ProposalInfo = ProposalInfo(
    proposer: string, newContractHash: string, targetContract: string, description: string,
    approvalThreshold: int, timelockDelay: int, createdAt: int)

  datatype RewardInfo = RewardInfo(
    user: string, amount: int, rewardType: string, reason: string, grantedBy: string, grantedAt: int)

  /**
   * A decoded event. `Misfit` stands for data that carries a handled topic but lacks the id its
   * handler reads: token approvals share the topic of proposal approvals, staking claims that of
   * reward claims. `LogOnly` covers the pause, fee and unknown topics.
   */
  datatype Body =
    | TradeExecuted(tradeId: int, trade: TradeInfo)
    | ProposalCreated(proposalId: int, proposal: ProposalInfo)
    | ProposalApproved(proposalId: int, currentApprovals: int, threshold: int)
    | ProposalRejected(proposalId: int)
    | ProposalExecuted(proposalId: int)
    | ProposalCancelled(proposalId: int)
    | RewardAdded(rewardId: int, reward: RewardInfo)
    | RewardClaimed(rewardId: int, claimedAt: int)
    | LogOnly(topic: string)
    | Misfit(topic: string)

  datatype Event = Event(contract: string, ledger: nat, closedAt: string, tx: string, index: int, body: Body)

  type Id = (string, int)

  datatype TradeRow = TradeRow(info: TradeInfo, ledger: nat, tx: string)

  datatype ProposalRow = ProposalRow(info: ProposalInfo, ledger: nat, tx: string, approvals: int, status: Status)

  datatype RewardRow = RewardRow(info: RewardInfo, ledger: nat, tx: string, claimedAt: Option<int>)

  /** The four tables, each by its UNIQUE key. */
  datatype Tables = Tables(
    events: map<Id, Event>, trades: map<Id, TradeRow>, proposals: map<Id, ProposalRow>, rewards: map<Id, RewardRow>)

  /** One SQL statement. Each commits on its own, so a crash can fall between any two. */
  datatype Write =
    | InsertEvent(event: Event)
    | InsertTrade(id: Id, trade: TradeRow)
    | InsertProposal(id: Id, proposal: ProposalRow)
    | SetApprovals(id: Id, approvals: int)
    | SetStatus(id: Id, status: Status)
    | InsertReward(id: Id, reward: RewardRow)
    | SetClaimed(id: Id, claimedAt: int)

  function InsertOrIgnore<V>(m: map<Id, V>, k: Id, v: V): map<Id, V> { if k in m then m else m[k := v] }

  function Apply(t: Tables, w: Write): Tables {
    match w
    case InsertEvent(e) => t.(events := InsertOrIgnore(t.events, (e.tx, e.index), e))
    case InsertTrade(id, row) => t.(trades := InsertOrIgnore(t.trades, id, row))
    case InsertProposal(id, row) => t.(proposals := InsertOrIgnore(t.proposals, id, row))
    case SetApprovals(id, n) =>
      if id in t.proposals then t.(proposals := t.proposals[id := t.proposals[id].(approvals := n)]) else t
    case SetStatus(id, s) =>
      if id in t.proposals then t.(proposals := t.proposals[id := t.proposals[id].(status := s)]) else t
    case InsertReward(id, row) => t.(rewards := InsertOrIgnore(t.rewards, id, row))
    case SetClaimed(id, at) =>
      if id in t.rewards then t.(rewards := t.rewards[id := t.rewards[id].(claimedAt := Some(at))]) else t
  }

  function ApplyAll(t: Tables, ws: seq<Write>): Tables {
    if ws == [] then t else Apply(ApplyAll(t, ws[..|ws| - 1]), ws[|ws| - 1])
  }

  /** What the handler of an event writes after the generic row. */
  function Handler(e: Event): seq<Write> {
    match e.body
    case TradeExecuted(id, info) => [InsertTrade((e.contract, id), TradeRow(info, e.ledger, e.tx))]
    case ProposalCreated(id, info) =>
      [InsertProposal((e.contract, id), ProposalRow(info, e.ledger, e.tx, 0, Pending))]
    case ProposalApproved(id, n, threshold) =>
      [SetApprovals((e.contract, id), n)] + (if n >= threshold then [SetStatus((e.contract, id), Approved)] else [])
    case ProposalRejected(id) => [SetStatus((e.contract, id), Rejected)]
    case ProposalExecuted(id) => [SetStatus((e.contract, id), Executed)]
    case ProposalCancelled(id) => [SetStatus((e.contract, id), Cancelled)]
    case RewardAdded(id, info) => [InsertReward((e.contract, id), RewardRow(info, e.ledger, e.tx, None))]
    case RewardClaimed(id, at) => [SetClaimed((e.contract, id), at)]
    case LogOnly(_) => []
    case Misfit(_) => []
  }

  function Writes(e: Event): seq<Write> { [InsertEvent(e)] + Handler(e) }

  function AllWrites(es: seq<Event>): seq<Write> {
    if es == [] then [] else AllWrites(es[..|es| - 1]) + Writes(es[|es| - 1])
  }

  predicate Handled(es: seq<Event>) { forall e <- es :: !e.body.Misfit? }

  /** The events up to and including the first one whose handler throws. */
  function Attempted(es: seq<Event>): seq<Event> {
    if es == [] then [] else if es[0].body.Misfit? then [es[0]] else [es[0]] + Attempted(es[1..])
  }

  /** The database file: tables and cursor row. */
  class EventDatabase {
    var events: map<Id, Event>
    var trades: map<Id, TradeRow>
    var proposals: map<Id, ProposalRow>
    var rewards: map<Id, RewardRow>
    var lastLedger: int

    function View(): Tables
      reads this
    {
      Tables(events, trades, proposals, rewards)
    }

    constructor ()
      ensures View() == Tables(map[], map[], map[], map[]) && lastLedger == 0
    {
      events, trades, proposals, rewards, lastLedger := map[], map[], map[], map[], 0;
    }

    method Execute(w: Write)
      modifies this
      ensures View() == Apply(old(View()), w) && lastLedger == old(lastLedger)
    {
      match w {
        case InsertEvent(e) =>
          if (e.tx, e.index) !in events {
            events := events[(e.tx, e.index) := e];
          }
        case InsertTrade(id, row) =>
          if id !in trades {
            trades := trades[id := row];
          }
        case InsertProposal(id, row) =>
          if id !in proposals {
            proposals := proposals[id := row];
          }
        case SetApprovals(id, n) =>
          if id in proposals {
            proposals := proposals[id := proposals[id].(approvals := n)];
          }
        case SetStatus(id, s) =>
          if id in proposals {
            proposals := proposals[id := proposals[id].(status := s)];
          }
        case InsertReward(id, row) =>
          if id !in rewards {
            rewards := rewards[id := row];
          }
        case SetClaimed(id, at) =>
          if id in rewards {
            rewards := rewards[id := rewards[id].(claimedAt := Some(at))];
          }
      }
    }

    method UpdateCursor(ledger: int)
      modifies this
      ensures View() == old(View()) && lastLedger == ledger
    {
      lastLedger := ledger;
    }
  }

  /** What the RPC node answers to getEvents. */
  datatype Rpc = Page(events: seq<Event>) | StartTooOld(latest: int) | Unreachable

  /** The whole persistent and volatile state of the indexer process. */
  datatype State = State(tables: Tables, cursor: int, start: int)

  /**
   * One turn of the polling loop. `budget` is the number of SQL statements that succeed before the
   * database or the process fails; a page needs one per write and one for the cursor.
   */
  function PollOnce(s: State, rpc: Rpc, budget: nat): State {
    match rpc
    case Unreachable => s
    case StartTooOld(latest) =>
      if budget == 0 then s else s.(cursor := latest - 10, start := latest - 10 + 1)
    case Page(es) =>
      var ws := AllWrites(Attempted(es));
      if es == [] then s.(start := s.cursor + 1)
      else if budget <= |ws| then s.(tables := ApplyAll(s.tables, ws[..budget]))
      else if !Handled(es) then s.(tables := ApplyAll(s.tables, ws))
      else
        var ledger := es[|es| - 1].ledger;
        State(ApplyAll(s.tables, ws), ledger, ledger + 1)
  }

  lemma {:induction false} AllWritesAppend(es: seq<Event>, fs: seq<Event>)
    ensures AllWrites(es + fs) == AllWrites(es) + AllWrites(fs)
    decreases |fs|
  {
    hide Writes;
    if fs == [] {
      assert es + fs == es;
    } else {
      var n := |fs| - 1;
      assert (es + fs)[..|es + fs| - 1] == es + fs[..n];
      AllWritesAppend(es, fs[..n]);
    }
  }

  lemma {:induction false} AttemptedPrefix(es: seq<Event>)
    ensures Attempted(es) <= es
    ensures Handled(es) ==> Attempted(es) == es
    ensures es != [] ==> Attempted(es) != []
    ensures !Handled(es) ==>
              Attempted(es) != [] && Attempted(es)[|Attempted(es)| - 1].body.Misfit?
              && Handled(Attempted(es)[..|Attempted(es)| - 1])
  {
    if es != [] && !es[0].body.Misfit? {
      AttemptedPrefix(es[1..]);
      assert es == [es[0]] + es[1..];
      var r := Attempted(es[1..]);
      if !Handled(es) {
        assert !Handled(es[1..]);
        assert ([es[0]] + r)[..|r|] == [es[0]] + r[..|r| - 1];
      }
    } else if es != [] {
      assert es[0] in es;
    }
  }

  class EventIndexer {
    const db: EventDatabase
    var startLedger: int

    function View(): State
      reads this, db
    {
      State(db.View(), db.lastLedger, startLedger)
    }

    constructor (db: EventDatabase, start: int)
      ensures this.db == db && startLedger == start
    {
      this.db, startLedger := db, start;
    }

    /** Runs the statements of one event until `budget` of them have been spent. */
    method ProcessEvent(e: Event, budget: nat) returns (used: nat, ok: bool)
      modifies db
      ensures used == if budget < |Writes(e)| then budget else |Writes(e)|
      ensures db.View() == ApplyAll(old(db.View()), Writes(e)[..used]) && db.lastLedger == old(db.lastLedger)
      ensures ok == (used == |Writes(e)| && !e.body.Misfit?)
    {
      var ws := Writes(e);
      used := 0;
      while used < |ws| && used < budget
        invariant used <= |ws| && used <= budget
        invariant db.View() == ApplyAll(old(db.View()), ws[..used]) && db.lastLedger == old(db.lastLedger)
      {
        db.Execute(ws[used]);
        assert ws[..used + 1][..used] == ws[..used];
        used := used + 1;
      }
      ok := used == |ws| && !e.body.Misfit?;
    }

    method Poll(rpc: Rpc, budget: nat)
      modifies this, db
      ensures View() == PollOnce(old(View()), rpc, budget)
    {
      match rpc {
        case Unreachable => return;
        case StartTooOld(latest) =>
          if budget == 0 {
            return;
          }
          db.UpdateCursor(latest - 10);
          startLedger := db.lastLedger + 1;
        case Page(es) =>
          if es == [] {
            startLedger := db.lastLedger + 1;
            return;
          }
          ghost var ws := AllWrites(Attempted(es));
          var ok := PollPage(es, budget);
          assert ws[..|ws|] == ws;
          if ok {
            startLedger := db.lastLedger + 1;
          }
      }
    }

    /** The body of pollEvents for a non-empty page; `ok` is false if it throws. */
    method PollPage(es: seq<Event>, budget: nat) returns (ok: bool)
      requires es != []
      modifies db
      ensures var ws := AllWrites(Attempted(es));
              && ok == (budget > |ws| && Handled(es))
              && db.View() == ApplyAll(old(db.View()), if budget < |ws| then ws[..budget] else ws)
              && db.lastLedger == if ok then es[|es| - 1].ledger else old(db.lastLedger)
    {
      hide Writes, Attempted, Apply;
      ghost var t := db.View();
      var spent := 0;
      for i := 0 to |es|
        invariant spent == |AllWrites(es[..i])| <= budget && Handled(es[..i])
        invariant db.View() == ApplyAll(t, AllWrites(es[..i])) && db.lastLedger == old(db.lastLedger)
      {
        var used, done := ProcessEvent(es[i], budget - spent);
        ApplyAllAppend(t, AllWrites(es[..i]), Writes(es[i])[..used]);
        PageWrites(es, i, used);
        spent := spent + used;
        if !done {
          return false;
        }
      }
      assert es[..|es|] == es;
      AttemptedPrefix(es);
      if spent == budget {
        return false;
      }
      db.UpdateCursor(es[|es| - 1].ledger);
      return true;
    }
  }

  lemma {:induction false} ApplyAllAppend(t: Tables, us: seq<Write>, vs: seq<Write>)
    ensures ApplyAll(t, us + vs) == ApplyAll(ApplyAll(t, us), vs)
    decreases |vs|
  {
    if vs == [] {
      assert us + vs == us;
    } else {
      var n := |vs| - 1;
      assert (us + vs)[..|us + vs| - 1] == us + vs[..n];
      ApplyAllAppend(t, us, vs[..n]);
    }
  }

  /** Where the statements of event `i` stand among those of its page. */
  lemma {:induction false} PageWrites(es: seq<Event>, i: nat, used: nat)
    requires i < |es| && Handled(es[..i]) && used <= |Writes(es[i])|
    ensures var ws := AllWrites(Attempted(es));
            var upTo := AllWrites(es[..i]) + Writes(es[i])[..used];
            && |upTo| <= |ws| && upTo == ws[..|upTo|]
            && (used < |Writes(es[i])| ==> |upTo| < |ws|)
            && (used == |Writes(es[i])| && es[i].body.Misfit? ==> upTo == ws && !Handled(es))
            && (used == |Writes(es[i])| && !es[i].body.Misfit? ==>
                  upTo == AllWrites(es[..i + 1]) && Handled(es[..i + 1]))
  {
    hide Writes, Attempted;
    AttemptedAt(es, i);
    var a := Attempted(es);
    assert a == a[..i + 1] + a[i + 1..];
    AllWritesAppend(a[..i + 1], a[i + 1..]);
    assert es[..i + 1][..i] == es[..i];
    var whole := AllWrites(es[..i]) + Writes(es[i]);
    assert AllWrites(es[..i + 1]) == whole;
    var upTo := AllWrites(es[..i]) + Writes(es[i])[..used];
    assert upTo == whole[..|upTo|];
    assert es[i] in es;
    if used == |Writes(es[i])| && es[i].body.Misfit? {
      assert a[i + 1..] == [];
    }
  }

  lemma {:induction false} AttemptedAt(es: seq<Event>, i: nat)
    requires i < |es| && Handled(es[..i])
    ensures i < |Attempted(es)| && Attempted(es)[..i + 1] == es[..i + 1]
    ensures es[i].body.Misfit? ==> |Attempted(es)| == i + 1
  {
    if i > 0 {
      assert es[0] in es[..i];
      assert es[1..][..i - 1] == es[..i][1..];
      AttemptedAt(es[1..], i - 1);
      assert es[..i + 1] == [es[0]] + es[1..][..i];
    }
  }
}
