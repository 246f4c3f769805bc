/** What the events of one pass mean for the tables, kind of event by kind of event. */
module IndexerMeaning {
  import opened Common
  import opened Indexer
  import opened IndexerReplay

  /** One in-order pass over the events. */
  function Pass(es: seq<Event>): Tables { ApplyAll(EMPTY, AllWrites(es)) }

  predicate CreatesProposal(e: Event, id: Id) {
    e.body.ProposalCreated? && (e.contract, e.body.proposalId) == id
  }

  /** An approval counts for the status once the threshold is reached. */
  predicate SetsStatus(e: Event, id: Id) {
    && (e.body.ProposalRejected? || e.body.ProposalExecuted? || e.body.ProposalCancelled?
        || (e.body.ProposalApproved? && e.body.currentApprovals >= e.body.threshold))
    && (e.contract, e.body.proposalId) == id
  }

  predicate SetsApprovals(e: Event, id: Id) {
    e.body.ProposalApproved? && (e.contract, e.body.proposalId) == id
  }

  predicate AddsReward(e: Event, id: Id) { e.body.RewardAdded? && (e.contract, e.body.rewardId) == id }

  predicate ClaimsReward(e: Event, id: Id) { e.body.RewardClaimed? && (e.contract, e.body.rewardId) == id }

  predicate MakesTrade(e: Event, id: Id) { e.body.TradeExecuted? && (e.contract, e.body.tradeId) == id }

  // ---------------------------------------------------------------------------------------------
  // One event
  // ---------------------------------------------------------------------------------------------

  function After(t: Tables, e: Event): Tables { ApplyAll(t, Writes(e)) }

  lemma {:induction false} ApplyOne(t: Tables, w: Write)
    ensures ApplyAll(t, [w]) == Apply(t, w)
  {
    assert [w][..0] == [] && ApplyAll(t, []) == t;
  }

  lemma {:induction false} AfterIs(t: Tables, e: Event)
    ensures After(t, e) == ApplyAll(Apply(t, InsertEvent(e)), Handler(e))
    ensures |Handler(e)| == 1 ==>
              ApplyAll(Apply(t, InsertEvent(e)), Handler(e)) == Apply(Apply(t, InsertEvent(e)), Handler(e)[0])
    ensures |Handler(e)| == 2 ==>
              ApplyAll(Apply(t, InsertEvent(e)), Handler(e))
              == Apply(Apply(Apply(t, InsertEvent(e)), Handler(e)[0]), Handler(e)[1])
  {
    hide Apply, Handler;
    var ws := Handler(e);
    ApplyAllAppend(t, [InsertEvent(e)], ws);
    ApplyOne(t, InsertEvent(e));
    var u := Apply(t, InsertEvent(e));
    if |ws| == 1 {
      assert ws == [ws[0]];
      ApplyOne(u, ws[0]);
    } else if |ws| == 2 {
      assert ws == [ws[0]] + [ws[1]];
      ApplyAllAppend(u, [ws[0]], [ws[1]]);
      ApplyOne(u, ws[0]);
      ApplyOne(Apply(u, ws[0]), ws[1]);
    }
  }

  lemma {:induction false} ApplyOnProposal(t: Tables, w: Write, id: Id)
    ensures var u := Apply(t, w);
      && (id in u.proposals <==> id in t.proposals || (w.InsertProposal? && w.id == id))
      && (id !in t.proposals && id in u.proposals ==> u.proposals[id] == w.proposal)
      && (id in t.proposals ==>
            u.proposals[id] == if w.SetApprovals? && w.id == id then t.proposals[id].(approvals := w.approvals)
                               else if w.SetStatus? && w.id == id then t.proposals[id].(status := w.status)
                               else t.proposals[id])
  {
  }

  lemma {:induction false} AfterOnProposal(t: Tables, e: Event, id: Id)
    ensures var u := After(t, e);
      && (id in u.proposals <==> id in t.proposals || CreatesProposal(e, id))
      && (id !in t.proposals && CreatesProposal(e, id) ==>
            u.proposals[id] == ProposalRow(e.body.proposal, e.ledger, e.tx, 0, Pending))
      && (id in t.proposals ==>
            var p, q := t.proposals[id], u.proposals[id];
            && q.info == p.info && q.ledger == p.ledger && q.tx == p.tx
            && q.approvals == (if SetsApprovals(e, id) then e.body.currentApprovals else p.approvals)
            && q.status == (if !SetsStatus(e, id) then p.status
                            else if e.body.ProposalRejected? then Rejected
                            else if e.body.ProposalExecuted? then Executed
                            else if e.body.ProposalCancelled? then Cancelled
                            else Approved))
  {
    hide Apply;
    AfterIs(t, e);
    var ws := Handler(e);
    var t0 := Apply(t, InsertEvent(e));
    ApplyOnProposal(t, InsertEvent(e), id);
    if |ws| > 0 {
      ApplyOnProposal(t0, ws[0], id);
    }
    if |ws| > 1 {
      ApplyOnProposal(Apply(t0, ws[0]), ws[1], id);
    }
  }

  lemma {:induction false} ApplyOnReward(t: Tables, w: Write, id: Id)
    ensures var u := Apply(t, w);
      && (id in u.rewards <==> id in t.rewards || (w.InsertReward? && w.id == id))
      && (id !in t.rewards && id in u.rewards ==> u.rewards[id] == w.reward)
      && (id in t.rewards ==>
            u.rewards[id] == if w.SetClaimed? && w.id == id then t.rewards[id].(claimedAt := Some(w.claimedAt))
                             else t.rewards[id])
  {
  }

  lemma {:induction false} AfterOnReward(t: Tables, e: Event, id: Id)
    ensures var u := After(t, e);
      && (id in u.rewards <==> id in t.rewards || AddsReward(e, id))
      && (id !in t.rewards && AddsReward(e, id) ==> u.rewards[id] == RewardRow(e.body.reward, e.ledger, e.tx, None))
      && (id in t.rewards ==>
            u.rewards[id] == t.rewards[id].(
              claimedAt := if ClaimsReward(e, id) then Some(e.body.claimedAt) else t.rewards[id].claimedAt))
  {
    hide Apply;
    AfterIs(t, e);
    var ws := Handler(e);
    var t0 := Apply(t, InsertEvent(e));
    ApplyOnReward(t, InsertEvent(e), id);
    if |ws| > 0 {
      ApplyOnReward(t0, ws[0], id);
    }
    if |ws| > 1 {
      ApplyOnReward(Apply(t0, ws[0]), ws[1], id);
    }
  }

  lemma {:induction false} ApplyOnTrade(t: Tables, w: Write, id: Id)
    ensures var u := Apply(t, w);
      && (id in u.trades <==> id in t.trades || (w.InsertTrade? && w.id == id))
      && (id !in t.trades && id in u.trades ==> u.trades[id] == w.trade)
      && (id in t.trades ==> u.trades[id] == t.trades[id])
  {
  }

  lemma {:induction false} AfterOnTrade(t: Tables, e: Event, id: Id)
    ensures var u := After(t, e);
      && (id in u.trades <==> id in t.trades || MakesTrade(e, id))
      && (id !in t.trades && MakesTrade(e, id) ==> u.trades[id] == TradeRow(e.body.trade, e.ledger, e.tx))
      && (id in t.trades ==> u.trades[id] == t.trades[id])
  {
    hide Apply;
    AfterIs(t, e);
    var ws := Handler(e);
    var t0 := Apply(t, InsertEvent(e));
    ApplyOnTrade(t, InsertEvent(e), id);
    if |ws| > 0 {
      ApplyOnTrade(t0, ws[0], id);
    }
    if |ws| > 1 {
      ApplyOnTrade(Apply(t0, ws[0]), ws[1], id);
    }
  }

  lemma {:induction false} ApplyOnEvents(t: Tables, w: Write, id: Id)
    ensures var u := Apply(t, w);
      && (id in u.events <==> id in t.events || (w.InsertEvent? && (w.event.tx, w.event.index) == id))
      && (id !in t.events && id in u.events ==> u.events[id] == w.event)
      && (id in t.events ==> u.events[id] == t.events[id])
  {
  }

  lemma {:induction false} AfterOnEvents(t: Tables, e: Event, id: Id)
    ensures var u := After(t, e);
      && (id in u.events <==> id in t.events || id == (e.tx, e.index))
      && (id in u.events ==> u.events[id] == if id in t.events then t.events[id] else e)
  {
    hide Apply;
    AfterIs(t, e);
    var ws := Handler(e);
    var t0 := Apply(t, InsertEvent(e));
    ApplyOnEvents(t, InsertEvent(e), id);
    if |ws| > 0 {
      ApplyOnEvents(t0, ws[0], id);
    }
    if |ws| > 1 {
      ApplyOnEvents(Apply(t0, ws[0]), ws[1], id);
    }
  }

  lemma {:induction false} PassLast(es: seq<Event>)
    requires es != []
    ensures Pass(es) == After(Pass(es[..|es| - 1]), es[|es| - 1])
  {
    hide Writes, Apply;
    ApplyAllAppend(EMPTY, AllWrites(es[..|es| - 1]), Writes(es[|es| - 1]));
  }

  // ---------------------------------------------------------------------------------------------
  // A whole pass
  // ---------------------------------------------------------------------------------------------

  /** Event `i` is the last one of some kind; without one from `b` on, `i` is `b`. */
  predicate IsLast(es: seq<Event>, kind: Event -> bool, b: nat, i: nat) {
    && b <= i < |es| && (i == b || kind(es[i])) && forall j | i < j < |es| :: !kind(es[j])
  }

  /** Event `b` is the first one of some kind. */
  predicate IsFirst(es: seq<Event>, kind: Event -> bool, b: nat) {
    b < |es| && kind(es[b]) && forall j | 0 <= j < b :: !kind(es[j])
  }

  lemma {:induction false} LastEarlier(es: seq<Event>, kind: Event -> bool, b: nat, i: nat)
    requires IsLast(es, kind, b, i) && i < |es| - 1
    ensures IsLast(es[..|es| - 1], kind, b, i)
  {
  }

  lemma {:induction false} FirstEarlier(es: seq<Event>, kind: Event -> bool, b: nat)
    requires IsFirst(es, kind, b) && b < |es| - 1
    ensures IsFirst(es[..|es| - 1], kind, b)
  {
  }

  function ProposalCreation(id: Id): Event -> bool { (e: Event) => CreatesProposal(e, id) }

  function StatusChange(id: Id): Event -> bool { (e: Event) => SetsStatus(e, id) }

  function Approval(id: Id): Event -> bool { (e: Event) => SetsApprovals(e, id) }

  function RewardAddition(id: Id): Event -> bool { (e: Event) => AddsReward(e, id) }

  function RewardClaim(id: Id): Event -> bool { (e: Event) => ClaimsReward(e, id) }

  function TradeExecution(id: Id): Event -> bool { (e: Event) => MakesTrade(e, id) }

  /** A row exists exactly if an event creates it. */
  lemma {:induction false} RowsExistIff(es: seq<Event>, id: Id)
    ensures id in Pass(es).proposals <==> exists e <- es :: CreatesProposal(e, id)
    ensures id in Pass(es).rewards <==> exists e <- es :: AddsReward(e, id)
    ensures id in Pass(es).trades <==> exists e <- es :: MakesTrade(e, id)
    ensures id in Pass(es).events <==> exists e <- es :: (e.tx, e.index) == id
    decreases |es|
  {
    hide Apply, AllWrites, After, CreatesProposal, AddsReward, MakesTrade;
    if es == [] {
      NoEvents();
    } else {
      var front, e := es[..|es| - 1], es[|es| - 1];
      RowsExistIff(front, id);
      PassLast(es);
      AfterOnProposal(Pass(front), e, id);
      AfterOnReward(Pass(front), e, id);
      AfterOnTrade(Pass(front), e, id);
      AfterOnEvents(Pass(front), e, id);
      assert es == front + [e];
      hide Pass;
      assert forall x :: x in es <==> x in front || x == e;
    }
  }

  lemma {:induction false} NoEvents()
    ensures Pass([]) == EMPTY
  {
  }

  /**
   * A proposal's row after a pass: what the first event that created it says, the status set by the
   * last of its status events since then, and the count of the last of its approvals since then.
   */
  lemma {:induction false} ProposalIsLast(es: seq<Event>, id: Id, b: nat, i: nat, j: nat)
    requires IsFirst(es, ProposalCreation(id), b)
    requires IsLast(es, StatusChange(id), b, i) && IsLast(es, Approval(id), b, j)
    ensures id in Pass(es).proposals
    ensures var row := Pass(es).proposals[id];
      && row.info == es[b].body.proposal && row.ledger == es[b].ledger && row.tx == es[b].tx
      && (i == b ==> row.status == Pending)
      && (i > b && es[i].body.ProposalRejected? ==> row.status == Rejected)
      && (i > b && es[i].body.ProposalExecuted? ==> row.status == Executed)
      && (i > b && es[i].body.ProposalCancelled? ==> row.status == Cancelled)
      && (i > b && es[i].body.ProposalApproved? ==> row.status == Approved)
      && row.approvals == if j == b then 0 else es[j].body.currentApprovals
    decreases |es|
  {
    hide Apply, AllWrites, After;
    var n := |es| - 1;
    var front, e := es[..n], es[n];
    RowsExistIff(front, id);
    PassLast(es);
    AfterOnProposal(Pass(front), e, id);
    hide Pass;
    if b < n {
      FirstEarlier(es, ProposalCreation(id), b);
      if i < n {
        LastEarlier(es, StatusChange(id), b, i);
      }
      if j < n {
        LastEarlier(es, Approval(id), b, j);
      }
      var i' := if i < n then i else LastOf(front, StatusChange(id), b);
      var j' := if j < n then j else LastOf(front, Approval(id), b);
      ProposalIsLast(front, id, b, i', j');
    }
  }

  /** The last event of a kind after `b`, or `b`. */
  function LastOf(es: seq<Event>, kind: Event -> bool, b: nat): (i: nat)
    requires b < |es|
    ensures IsLast(es, kind, b, i)
    decreases |es|
  {
    var n := |es| - 1;
    if n == b || kind(es[n]) then n else LastOf(es[..n], kind, b)
  }

  /** A reward's row: what the first event that added it says, and the time of the last claim since then. */
  lemma {:induction false} RewardIsLast(es: seq<Event>, id: Id, b: nat, i: nat)
    requires IsFirst(es, RewardAddition(id), b) && IsLast(es, RewardClaim(id), b, i)
    ensures id in Pass(es).rewards
    ensures Pass(es).rewards[id]
         == RewardRow(es[b].body.reward, es[b].ledger, es[b].tx, if i == b then None else Some(es[i].body.claimedAt))
    decreases |es|
  {
    hide Apply, AllWrites, After;
    var n := |es| - 1;
    var front, e := es[..n], es[n];
    RowsExistIff(front, id);
    PassLast(es);
    AfterOnReward(Pass(front), e, id);
    hide Pass;
    if b < n {
      FirstEarlier(es, RewardAddition(id), b);
      if i < n {
        LastEarlier(es, RewardClaim(id), b, i);
      }
      RewardIsLast(front, id, b, if i < n then i else LastOf(front, RewardClaim(id), b));
    }
  }

  /** A trade's row, and the stored event itself, are those of the first event with that key. */
  lemma {:induction false} FirstEventStays(es: seq<Event>, id: Id, b: nat)
    requires IsFirst(es, TradeExecution(id), b) || IsFirst(es, (e: Event) => (e.tx, e.index) == id, b)
    ensures IsFirst(es, TradeExecution(id), b) ==>
              id in Pass(es).trades && Pass(es).trades[id] == TradeRow(es[b].body.trade, es[b].ledger, es[b].tx)
    ensures IsFirst(es, (e: Event) => (e.tx, e.index) == id, b) ==>
              id in Pass(es).events && Pass(es).events[id] == es[b]
    decreases |es|
  {
    hide Apply, AllWrites, After;
    var n := |es| - 1;
    var front, e := es[..n], es[n];
    RowsExistIff(front, id);
    PassLast(es);
    AfterOnTrade(Pass(front), e, id);
    AfterOnEvents(Pass(front), e, id);
    hide Pass;
    if b < n {
      FirstEventStays(front, id, b);
    }
  }
}
