/** What the indexer misses or repeats: pages, first answers, early updates, handlers that throw, resets. */
module IndexerGaps {
  import opened Indexer
  import opened IndexerReplay
  import opened IndexerRuns

  /**
   * A poll that succeeds continues right after its page exactly if the chain goes on with a later
   * ledger than the page's last; what it skips is just the rest of that ledger.
   */
  lemma {:induction false} ResumesAfterPageIff(chain: seq<Event>, s: State, avail: nat, budget: nat)
    requires Sorted(chain) && avail <= |chain|
    requires var page := Fetch(chain, avail, s.start);
             page != [] && Handled(page) && budget > |AllWrites(Attempted(page))|
    ensures var page := Fetch(chain, avail, s.start);
            var q := Pos(chain, s.start) + |page|;
            var next := Pos(chain, PollOnce(s, Page(page), budget).start);
            && 1 <= q <= next <= |chain|
            && (next == q <==> q == |chain| || chain[q].ledger > chain[q - 1].ledger)
            && forall i | q <= i < |chain| :: i < next <==> chain[i].ledger == chain[q - 1].ledger
  {
    hide AllWrites, Attempted, ApplyAll, Pos, Fetch;
    var page := Fetch(chain, avail, s.start);
    var q := Pos(chain, s.start) + |page|;
    FetchShape(chain, avail, s.start);
    var ledger := chain[q - 1].ledger;
    PosSplits(chain, ledger + 1, q - 1);
    forall i | q <= i < |chain| ensures i < Pos(chain, ledger + 1) <==> chain[i].ledger == ledger {
      PosSplits(chain, ledger + 1, i);
    }
  }

  /**
   * The first poll of a new database that succeeds keeps to the configured start exactly if an event
   * from there on has been published; otherwise it goes back to ledger 1.
   */
  lemma {:induction false} EmptyFirstAnswerForgetsStart(
      chain: seq<Event>, configured: int, latest: int, avail: nat, budget: nat)
    requires Sorted(chain) && avail <= |chain| && configured > 1
    requires var page := Fetch(chain, avail, configured); Handled(page) && budget > |AllWrites(Attempted(page))|
    ensures var s := State(EMPTY, 0, StartingLedger(0, configured, latest));
            var v := PollOnce(s, Page(Fetch(chain, avail, s.start)), budget);
            && (v.start >= configured <==> exists i | 0 <= i < avail :: chain[i].ledger >= configured)
            && (v.start < configured ==> v.start == 1)
  {
    hide AllWrites, Attempted, ApplyAll, Pos, Fetch;
    var p := Pos(chain, configured);
    var page := Fetch(chain, avail, configured);
    FetchShape(chain, avail, configured);
    if page == [] {
      forall i | 0 <= i < avail ensures chain[i].ledger < configured {
        PosSplits(chain, configured, i);
      }
    } else {
      PosSplits(chain, configured, p + |page| - 1);
      NonEmptyPage(chain, avail, configured);
    }
  }

  lemma {:induction false} NonEmptyPage(chain: seq<Event>, avail: nat, start: int)
    requires avail <= |chain| && Fetch(chain, avail, start) != []
    ensures Pos(chain, start) < avail && chain[Pos(chain, start)].ledger >= start
  {
  }

  /** An approval that precedes its proposal has no effect the first time, and has one on replay. */
  lemma {:induction false} EarlyApprovalBreaksReplay(info: ProposalInfo)
    ensures var id := ("c", 1);
            var ws := [SetApprovals(id, 1), InsertProposal(id, ProposalRow(info, 5, "tx", 0, Pending))];
            var once := ApplyAll(EMPTY, ws);
            var twice := ApplyAll(once, ws);
            && once.proposals[id].approvals == 0 && twice.proposals[id].approvals == 1
            && !ReplaySafe(ws)
  {
    var id := ("c", 1);
    var w0, w1 := SetApprovals(id, 1), InsertProposal(id, ProposalRow(info, 5, "tx", 0, Pending));
    var ws := [w0, w1];
    ApplyTwo(EMPTY, w0, w1);
    ApplyTwo(ApplyAll(EMPTY, ws), w0, w1);
    var f := ApprovalsOf(id);
    assert LastUpdate(ws, 0, 1, f) && FirstCreates(ws, 1, f) && Written(ws[0], f) != Initial(ws[1], f);
  }

  lemma {:induction false} ApplyTwo(t: Tables, v: Write, w: Write)
    ensures ApplyAll(t, [v, w]) == Apply(Apply(t, v), w)
  {
    assert [v, w][..1] == [v] && [v][..0] == [];
    assert ApplyAll(t, [v]) == Apply(ApplyAll(t, []), v);
  }

  // ---------------------------------------------------------------------------------------------
  // An event whose handler throws
  // ---------------------------------------------------------------------------------------------

  predicate FreeRun(chain: seq<Event>, s: State, steps: seq<Step>, last: State)
    decreases |steps|
  {
    if steps == [] then last == s
    else Feasible(chain, steps[0]) && FreeRun(chain, Next(chain, s, steps[0]), steps[1..], last)
  }

  /** The indexer has yet to get past event `m`. */
  predicate Ahead(chain: seq<Event>, m: nat, s: State)
    requires m < |chain|
  {
    s.cursor < chain[m].ledger && s.start <= chain[m].ledger
  }

  /**
   * The ways past an event: a reset to its ledger or a later one, a page that is handled and whose
   * last event precedes it in the same ledger, and a restart of a new database at a later ledger.
   */
  predicate Passes(chain: seq<Event>, m: nat, s: State, step: Step)
    requires m < |chain| && Feasible(chain, step)
  {
    match step
    case Poll(avail, budget) =>
      var page := Fetch(chain, avail, s.start);
      && page != [] && Handled(page) && budget > |AllWrites(page)|
      && Pos(chain, s.start) + |page| <= m && page[|page| - 1].ledger == chain[m].ledger
    case RpcFailure => false
    case Restart(configured, latest) => s.cursor == 0 && StartingLedger(0, configured, latest) > chain[m].ledger
    case Reset(latest, budget) => budget > 0 && latest - 10 >= chain[m].ledger
  }

  predicate NeverPasses(chain: seq<Event>, m: nat, s: State, steps: seq<Step>)
    requires m < |chain|
    decreases |steps|
  {
    steps == [] ||
    (Feasible(chain, steps[0]) && !Passes(chain, m, s, steps[0])
     && NeverPasses(chain, m, Next(chain, s, steps[0]), steps[1..]))
  }

  predicate AlwaysAhead(chain: seq<Event>, m: nat, s: State, steps: seq<Step>)
    requires m < |chain|
    decreases |steps|
  {
    && Ahead(chain, m, s)
    && (steps == [] || (Feasible(chain, steps[0]) && AlwaysAhead(chain, m, Next(chain, s, steps[0]), steps[1..])))
  }

  /** Whatever happens, a step gets past an event that throws exactly in one of those ways. */
  lemma {:induction false} MisfitBlocksStep(chain: seq<Event>, m: nat, s: State, step: Step)
    requires Sorted(chain) && m < |chain| && chain[m].body.Misfit? && Ahead(chain, m, s) && Feasible(chain, step)
    ensures Ahead(chain, m, Next(chain, s, step)) <==> !Passes(chain, m, s, step)
  {
    hide AllWrites, Attempted, ApplyAll, Handled, Pos, Fetch, Sorted;
    if step.Poll? {
      var page := Fetch(chain, step.avail, s.start);
      var p := Pos(chain, s.start);
      FetchShape(chain, step.avail, s.start);
      AttemptedPrefix(page);
      PosSplits(chain, s.start, m);
      if m < p + |page| {
        MisfitInPage(chain, m, p, page);
      } else if page != [] {
        InOrder(chain, p + |page| - 1, m);
      }
    }
  }

  lemma {:induction false} InOrder(chain: seq<Event>, i: nat, j: nat)
    requires Sorted(chain) && i <= j < |chain|
    ensures chain[i].ledger <= chain[j].ledger
  {
  }

  lemma {:induction false} MisfitInPage(chain: seq<Event>, m: nat, p: nat, page: seq<Event>)
    requires p <= m < p + |page| <= |chain| && page == chain[p..p + |page|] && chain[m].body.Misfit?
    ensures !Handled(page)
  {
    assert page[m - p] == chain[m] && page[m - p] in page;
  }

  /** So every run stays before the event exactly until such a step. */
  lemma {:induction false} MisfitBlocks(chain: seq<Event>, m: nat, s: State, steps: seq<Step>, last: State)
    requires Sorted(chain) && m < |chain| && chain[m].body.Misfit? && Ahead(chain, m, s)
    requires FreeRun(chain, s, steps, last)
    ensures AlwaysAhead(chain, m, s, steps) <==> NeverPasses(chain, m, s, steps)
    ensures NeverPasses(chain, m, s, steps) ==> Ahead(chain, m, last)
    decreases |steps|
  {
    hide Next, Feasible, Passes, Sorted, Ahead;
    if steps != [] {
      MisfitBlocksStep(chain, m, s, steps[0]);
      var v := Next(chain, s, steps[0]);
      if Ahead(chain, m, v) {
        MisfitBlocks(chain, m, v, steps[1..], last);
      } else {
        assert !AlwaysAhead(chain, m, v, steps[1..]);
      }
    }
  }

  // ---------------------------------------------------------------------------------------------
  // What a reset loses
  // ---------------------------------------------------------------------------------------------

  /** Every event in `t` that is not in `base` is of ledger `r` or later. */
  predicate LaterOnly(base: Tables, t: Tables, r: int) {
    forall k <- t.events :: k in base.events || t.events[k].ledger >= r
  }

  predicate InsertsFrom(ws: seq<Write>, r: int) { forall w <- ws :: w.InsertEvent? ==> w.event.ledger >= r }

  lemma {:induction false} ApplyLater(base: Tables, t: Tables, ws: seq<Write>, r: int)
    requires LaterOnly(base, t, r) && InsertsFrom(ws, r)
    ensures LaterOnly(base, ApplyAll(t, ws), r)
    decreases |ws|
  {
    if ws != [] {
      var w := ws[|ws| - 1];
      assert w in ws;
      ApplyLater(base, t, ws[..|ws| - 1], r);
    }
  }

  lemma {:induction false} WritesOfLater(es: seq<Event>, r: int)
    requires forall e <- es :: e.ledger >= r
    ensures InsertsFrom(AllWrites(es), r)
    decreases |es|
  {
    if es != [] {
      var e := es[|es| - 1];
      assert e in es;
      WritesOfLater(es[..|es| - 1], r);
    }
  }

  lemma {:induction false} FetchedIsLater(chain: seq<Event>, avail: nat, start: int)
    requires Sorted(chain) && avail <= |chain|
    ensures forall e <- Fetch(chain, avail, start) :: e.ledger >= start
  {
    hide Pos, Fetch, Sorted;
    var page := Fetch(chain, avail, start);
    FetchShape(chain, avail, start);
    forall e | e in page ensures e.ledger >= start {
      var i :| 0 <= i < |page| && page[i] == e;
      PosSplits(chain, start, Pos(chain, start) + i);
    }
  }

  /** Behind ledger `r` nothing is read any more. */
  ghost predicate Behind(base: Tables, r: int, s: State) { r <= s.cursor && r <= s.start && LaterOnly(base, s.tables, r) }

  lemma {:induction false} StaysBehind(chain: seq<Event>, base: Tables, r: int, s: State, step: Step)
    requires Sorted(chain) && 1 <= r && Behind(base, r, s) && Feasible(chain, step) && !step.Reset?
    ensures Behind(base, r, Next(chain, s, step))
  {
    hide AllWrites, Attempted, ApplyAll, Handled, Fetch, Sorted, InsertsFrom, LaterOnly;
    if step.Poll? {
      var page := Fetch(chain, step.avail, s.start);
      FetchedIsLater(chain, step.avail, s.start);
      AttemptedPrefix(page);
      var a := Attempted(page);
      forall e | e in a ensures e.ledger >= r {
        assert e in page;
      }
      WritesOfLater(a, r);
      var ws := AllWrites(a);
      var k := if step.budget <= |ws| then step.budget else |ws|;
      PrefixInserts(ws, k, r);
      ApplyLater(base, s.tables, ws[..k], r);
      assert ws[..|ws|] == ws;
    }
  }

  lemma {:induction false} PrefixInserts(ws: seq<Write>, k: nat, r: int)
    requires InsertsFrom(ws, r) && k <= |ws|
    ensures InsertsFrom(ws[..k], r)
  {
  }

  lemma {:induction false} RunStaysBehind(
      chain: seq<Event>, base: Tables, r: int, s: State, steps: seq<Step>, last: State)
    requires Sorted(chain) && 1 <= r && Behind(base, r, s) && FreeRun(chain, s, steps, last)
    requires forall step <- steps :: !step.Reset?
    ensures Behind(base, r, last)
    decreases |steps|
  {
    hide Behind, Next, Feasible, Sorted;
    if steps != [] {
      assert steps[0] in steps;
      StaysBehind(chain, base, r, s, steps[0]);
      RunStaysBehind(chain, base, r, Next(chain, s, steps[0]), steps[1..], last);
    }
  }

  /**
   * After a reset the indexer reads nothing before ledger `latest - 10` again, however it goes on: an
   * earlier event that was not in the table at the reset never gets there.
   */
  lemma {:induction false} ResetLoses(
      chain: seq<Event>, s: State, latest: int, budget: nat, steps: seq<Step>, last: State)
    requires Sorted(chain) && 1 <= latest - 10 && 0 < budget
    requires FreeRun(chain, Next(chain, s, Reset(latest, budget)), steps, last)
    requires forall step <- steps :: !step.Reset?
    ensures latest - 10 <= last.cursor && latest - 10 <= last.start
    ensures forall k <- last.tables.events :: last.tables.events[k].ledger < latest - 10 ==> k in s.tables.events
  {
    hide FreeRun, Sorted;
    RunStaysBehind(chain, s.tables, latest - 10, Next(chain, s, Reset(latest, budget)), steps, last);
  }

  /**
   * A page holds the first hundred of the published events from its start on, or all of them if they
   * are fewer, in order.
   */
  lemma {:induction false} PageMeaning(chain: seq<Event>, avail: nat, start: int) returns (p: nat)
    requires Sorted(chain) && avail <= |chain|
    ensures var page := Fetch(chain, avail, start);
      && |page| <= 100
      && (forall e <- page :: e.ledger >= start)
      && (|page| < 100 ==> forall i | 0 <= i < avail && chain[i].ledger >= start :: chain[i] in page)
      && p + |page| <= |chain| && page == chain[p..p + |page|] && (page != [] ==> p + |page| <= avail)
      && forall i | 0 <= i < p :: chain[i].ledger < start
  {
    hide Pos, Sorted;
    p := Pos(chain, start);
    var page := Fetch(chain, avail, start);
    FetchedIsLater(chain, avail, start);
    forall i | 0 <= i < |chain| ensures i < p <==> chain[i].ledger < start {
      PosSplits(chain, start, i);
    }
    if |page| < 100 {
      forall i | 0 <= i < avail && chain[i].ledger >= start ensures chain[i] in page {
        assert page[i - p] == chain[i];
      }
    }
  }

  /** Where a process starts: at its cursor if it has one, else as configured, else 100 ledgers back. */
  lemma {:induction false} StartOutcome(chain: seq<Event>, s: State, configured: int, latest: int)
    ensures var v := Next(chain, s, Restart(configured, latest));
      && v.tables == s.tables && v.cursor == s.cursor
      && (s.cursor != 0 ==> v.start == s.cursor)
      && (s.cursor == 0 && configured != 0 ==> v.start == configured)
      && (s.cursor == 0 && configured == 0 ==> v.start + 100 == latest)
  {
  }
}
