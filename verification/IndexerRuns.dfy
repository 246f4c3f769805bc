/** Runs of the indexer: polls, failures at any statement, crashes and restarts. */
module IndexerRuns {
  import opened Indexer
  import opened IndexerReplay

  const PAGE_LIMIT: nat := 100

  predicate Sorted(chain: seq<Event>) { forall i, j | 0 <= i < j < |chain| :: chain[i].ledger <= chain[j].ledger }

  /** How many events of the chain lie before ledger `l`. */
  function Pos(chain: seq<Event>, l: int): (p: nat)
    ensures p <= |chain|
    ensures p < |chain| ==> chain[p].ledger >= l
    ensures 0 < p ==> chain[p - 1].ledger < l
  {
    if chain == [] then 0
    else if chain[|chain| - 1].ledger < l then |chain|
    else Pos(chain[..|chain| - 1], l)
  }

  lemma {:induction false} PosSplits(chain: seq<Event>, l: int, i: nat)
    requires Sorted(chain) && i < |chain|
    ensures i < Pos(chain, l) <==> chain[i].ledger < l
  {
    var p := Pos(chain, l);
    if i < p && i < p - 1 {
      assert chain[i].ledger <= chain[p - 1].ledger;
    }
    if p < i {
      assert chain[p].ledger <= chain[i].ledger;
    }
  }

  lemma {:induction false} PosMonotone(chain: seq<Event>, l: int, m: int)
    requires Sorted(chain) && l <= m
    ensures Pos(chain, l) <= Pos(chain, m)
  {
    var p := Pos(chain, m);
    if p < |chain| {
      PosSplits(chain, l, p);
    }
  }

  /** getEvents, when the node has published the first `avail` events of the chain. */
  function Fetch(chain: seq<Event>, avail: nat, start: int): seq<Event>
    requires avail <= |chain|
  {
    var p := Pos(chain, start);
    if avail <= p then [] else chain[p..if p + PAGE_LIMIT <= avail then p + PAGE_LIMIT else avail]
  }

  lemma {:induction false} FetchShape(chain: seq<Event>, avail: nat, start: int)
    requires avail <= |chain|
    ensures var p := Pos(chain, start);
            var page := Fetch(chain, avail, start);
            && p + |page| <= |chain| && page == chain[p..p + |page|]
            && (page != [] ==> page[|page| - 1] == chain[p + |page| - 1])
            && (page == [] ==> avail <= p)
  {
  }

  /** The page does not stop in the middle of a ledger. */
  predicate EndsOnBoundary(chain: seq<Event>, start: int, page: seq<Event>) {
    page == [] || Pos(chain, page[|page| - 1].ledger + 1) == Pos(chain, start) + |page|
  }

  /** `Reset` is a poll that the node refuses because its start is too old. */
  datatype Step =
    | Poll(avail: nat, budget: nat)
    | RpcFailure
    | Restart(configured: int, latest: int)
    | Reset(latest: int, budget: nat)

  /** The first lines of `start`. */
  function StartingLedger(cursor: int, configured: int, latest: int): int {
    if cursor != 0 then cursor else if configured != 0 then configured else latest - 100
  }

  predicate Feasible(chain: seq<Event>, step: Step) { step.Poll? ==> step.avail <= |chain| }

  function Next(chain: seq<Event>, s: State, step: Step): State
    requires Feasible(chain, step)
  {
    match step
    case Poll(avail, budget) => PollOnce(s, Page(Fetch(chain, avail, s.start)), budget)
    case RpcFailure => PollOnce(s, Unreachable, 0)
    case Restart(configured, latest) => s.(start := StartingLedger(s.cursor, configured, latest))
    case Reset(latest, budget) => PollOnce(s, StartTooOld(latest), budget)
  }

  /** The node serves from every start, published ledgers stay published, and pages end on ledger boundaries. */
  predicate Possible(chain: seq<Event>, s: State, step: Step) {
    match step
    case Poll(avail, _) =>
      && Pos(chain, s.cursor + 1) <= avail <= |chain|
      && EndsOnBoundary(chain, s.start, Fetch(chain, avail, s.start))
    case RpcFailure => true
    case Restart(_, _) => s.cursor != 0
    case Reset(_, _) => false
  }

  predicate Run(chain: seq<Event>, s: State, steps: seq<Step>, last: State)
    decreases |steps|
  {
    if steps == [] then last == s
    else Possible(chain, s, steps[0]) && Run(chain, Next(chain, s, steps[0]), steps[1..], last)
  }

  // ---------------------------------------------------------------------------------------------
  // Positions in the chain and positions among its statements
  // ---------------------------------------------------------------------------------------------

  function Offset(chain: seq<Event>, p: nat): nat
    requires p <= |chain|
  {
    |AllWrites(chain[..p])|
  }

  lemma {:induction false} OffsetSlice(chain: seq<Event>, p: nat, q: nat)
    requires p <= q <= |chain|
    ensures Offset(chain, p) <= Offset(chain, q) <= |AllWrites(chain)|
    ensures AllWrites(chain)[Offset(chain, p)..Offset(chain, q)] == AllWrites(chain[p..q])
  {
    assert chain[..q] == chain[..p] + chain[p..q];
    AllWritesAppend(chain[..p], chain[p..q]);
    assert chain == chain[..q] + chain[q..];
    AllWritesAppend(chain[..q], chain[q..]);
  }

  lemma {:induction false} OffsetOfSlice(chain: seq<Event>, p: nat, q: nat)
    requires p <= q <= |chain|
    ensures Offset(chain, p) + |AllWrites(chain[p..q])| == Offset(chain, q)
  {
    hide AllWrites;
    OffsetSlice(chain, p, q);
  }

  lemma {:induction false} AttemptedIsPrefix(es: seq<Event>)
    ensures AllWrites(Attempted(es)) <= AllWrites(es)
    ensures Handled(es) ==> AllWrites(Attempted(es)) == AllWrites(es)
  {
    AttemptedPrefix(es);
    var a := Attempted(es);
    assert es == a + es[|a|..];
    AllWritesAppend(a, es[|a|..]);
  }

  // ---------------------------------------------------------------------------------------------
  // What every step keeps
  // ---------------------------------------------------------------------------------------------

  /** Started at or after the cursor; without a cursor, at the first event. */
  predicate Placed(chain: seq<Event>, s: State) {
    || (1 <= s.cursor && (s.start == s.cursor || s.start == s.cursor + 1))
    || (s.cursor == 0 && Pos(chain, s.start) == 0 && Pos(chain, 1) == 0)
  }

  lemma {:induction false} PlacedBefore(chain: seq<Event>, s: State)
    requires Sorted(chain) && Placed(chain, s)
    ensures Pos(chain, s.start) <= Pos(chain, s.cursor + 1)
  {
    if s.cursor != 0 {
      PosMonotone(chain, s.start, s.cursor + 1);
    }
  }

  ghost predicate Inv(chain: seq<Event>, s: State, h: nat) {
    && Placed(chain, s)
    && Recoverable(s.tables, AllWrites(chain), Offset(chain, Pos(chain, s.start)), h)
  }

  lemma {:induction false} LaterStart(chain: seq<Event>, s: State, h: nat, start: int)
    requires Sorted(chain) && Inv(chain, s, h) && start == s.cursor != 0
    ensures Inv(chain, s.(start := start), h)
  {
    PosMonotone(chain, start, s.start);
    OffsetSlice(chain, Pos(chain, start), Pos(chain, s.start));
    MoreToReplay(s.tables, AllWrites(chain), Offset(chain, Pos(chain, start)), Offset(chain, Pos(chain, s.start)), h);
  }

  /** The tables after `k` statements of the page starting at the current position. */
  lemma {:induction false} PagePart(chain: seq<Event>, s: State, h: nat, q: nat, k: nat) returns (g: nat)
    requires Sorted(chain) && ReplaySafe(AllWrites(chain)) && Inv(chain, s, h)
    requires Pos(chain, s.start) <= q <= |chain| && k <= |AllWrites(chain[Pos(chain, s.start)..q])|
    ensures var p := Pos(chain, s.start);
            var t := ApplyAll(s.tables, AllWrites(chain[p..q])[..k]);
            && Offset(chain, p) + k <= Offset(chain, q)
            && Recoverable(t, AllWrites(chain), Offset(chain, p), g)
            && Recoverable(t, AllWrites(chain), Offset(chain, p) + k, g)
  {
    hide ReplaySafe, Recoverable, AllWrites;
    var p := Pos(chain, s.start);
    var ws := AllWrites(chain);
    OffsetSlice(chain, p, q);
    var a := Offset(chain, p);
    assert ws[a..a + k] == AllWrites(chain[p..q])[..k];
    Replay(s.tables, ws, a, a + k, h);
    g := MaxN(h, a + k);
    MoreToReplay(ApplyAll(s.tables, ws[a..a + k]), ws, a, a + k, g);
  }

  lemma {:induction false} EmptyPageKeeps(chain: seq<Event>, s: State, h: nat, avail: nat)
    requires Sorted(chain) && Inv(chain, s, h)
    requires Pos(chain, s.cursor + 1) <= avail <= |chain| && Fetch(chain, avail, s.start) == []
    ensures Inv(chain, s.(start := s.cursor + 1), h)
  {
    PlacedBefore(chain, s);
  }

  /** A page whose processing stops after `k` statements. */
  lemma {:induction false} BrokenPageKeeps(chain: seq<Event>, s: State, h: nat, q: nat, k: nat) returns (g: nat)
    requires Sorted(chain) && ReplaySafe(AllWrites(chain)) && Inv(chain, s, h)
    requires Pos(chain, s.start) <= q <= |chain|
    requires k <= |AllWrites(Attempted(chain[Pos(chain, s.start)..q]))|
    ensures Inv(chain, s.(tables := ApplyAll(s.tables, AllWrites(Attempted(chain[Pos(chain, s.start)..q]))[..k])), g)
  {
    hide AllWrites, Attempted, Recoverable, ReplaySafe, ApplyAll, Sorted, Offset;
    var page := chain[Pos(chain, s.start)..q];
    AttemptedIsPrefix(page);
    g := PagePart(chain, s, h, q, k);
    assert AllWrites(Attempted(page))[..k] == AllWrites(page)[..k];
  }

  /** A page that is processed completely. */
  lemma {:induction false} WholePageKeeps(chain: seq<Event>, s: State, h: nat, q: nat) returns (g: nat)
    requires Sorted(chain) && ReplaySafe(AllWrites(chain)) && Inv(chain, s, h)
    requires Pos(chain, s.start) < q <= |chain| && Pos(chain, chain[q - 1].ledger + 1) == q
    ensures var ledger := chain[q - 1].ledger;
            Inv(chain, State(ApplyAll(s.tables, AllWrites(chain[Pos(chain, s.start)..q])), ledger, ledger + 1), g)
  {
    hide AllWrites, Recoverable, ReplaySafe, ApplyAll, Pos, Offset, Sorted;
    var p := Pos(chain, s.start);
    var ws := AllWrites(chain[p..q]);
    OffsetOfSlice(chain, p, q);
    g := PagePart(chain, s, h, q, |ws|);
    assert ws[..|ws|] == ws;
    SuccessKeeps(chain, s, q, chain[q - 1].ledger, ApplyAll(s.tables, ws), g);
  }

  lemma {:induction false} PollKeeps(chain: seq<Event>, s: State, h: nat, avail: nat, budget: nat) returns (g: nat)
    requires Sorted(chain) && ReplaySafe(AllWrites(chain)) && Inv(chain, s, h)
    requires Possible(chain, s, Poll(avail, budget))
    ensures Inv(chain, Next(chain, s, Poll(avail, budget)), g)
  {
    hide Inv, AllWrites, Attempted, ReplaySafe, ApplyAll, Sorted, Handled, Pos, Fetch;
    var page := Fetch(chain, avail, s.start);
    FetchShape(chain, avail, s.start);
    if page == [] {
      EmptyPageKeeps(chain, s, h, avail);
      g := h;
    } else {
      g := PageKeeps(chain, s, h, Pos(chain, s.start) + |page|, budget);
    }
  }

  lemma {:induction false} PageKeeps(chain: seq<Event>, s: State, h: nat, q: nat, budget: nat) returns (g: nat)
    requires Sorted(chain) && ReplaySafe(AllWrites(chain)) && Inv(chain, s, h)
    requires Pos(chain, s.start) < q <= |chain| && Pos(chain, chain[q - 1].ledger + 1) == q
    ensures Inv(chain, PollOnce(s, Page(chain[Pos(chain, s.start)..q]), budget), g)
  {
    hide Inv, AllWrites, Attempted, ReplaySafe, ApplyAll, Sorted, Handled, Pos;
    var page := chain[Pos(chain, s.start)..q];
    AttemptedIsPrefix(page);
    var ws := AllWrites(Attempted(page));
    assert page[|page| - 1] == chain[q - 1];
    if budget > |ws| && Handled(page) {
      g := WholePageKeeps(chain, s, h, q);
    } else {
      var k := if budget <= |ws| then budget else |ws|;
      assert ws[..|ws|] == ws;
      g := BrokenPageKeeps(chain, s, h, q, k);
    }
  }

  lemma {:induction false} SuccessKeeps(chain: seq<Event>, s: State, q: nat, ledger: nat, t: Tables, g: nat)
    requires Sorted(chain) && Placed(chain, s)
    requires Pos(chain, s.start) < q <= |chain| && chain[q - 1].ledger == ledger
    requires Pos(chain, ledger + 1) == q
    requires Recoverable(t, AllWrites(chain), Offset(chain, q), g)
    ensures Inv(chain, State(t, ledger, ledger + 1), g)
  {
    hide Pos, Sorted, Recoverable, AllWrites;
    PosSplits(chain, s.start, q - 1);
    PosSplits(chain, 1, q - 1);
  }

  lemma {:induction false} StepKeeps(chain: seq<Event>, s: State, h: nat, step: Step) returns (g: nat)
    requires Sorted(chain) && ReplaySafe(AllWrites(chain)) && Inv(chain, s, h) && Possible(chain, s, step)
    ensures Inv(chain, Next(chain, s, step), g)
  {
    match step {
      case Poll(avail, budget) => g := PollKeeps(chain, s, h, avail, budget);
      case RpcFailure => g := h;
      case Restart(_, _) =>
        LaterStart(chain, s, h, s.cursor);
        g := h;
    }
  }

  lemma {:induction false} RunKeeps(chain: seq<Event>, s: State, h: nat, steps: seq<Step>, last: State) returns (g: nat)
    requires Sorted(chain) && ReplaySafe(AllWrites(chain)) && Inv(chain, s, h) && Run(chain, s, steps, last)
    ensures Inv(chain, last, g)
    decreases |steps|
  {
    hide Inv, Next, ReplaySafe, EndsOnBoundary, Pos;
    if steps == [] {
      g := h;
    } else {
      g := StepKeeps(chain, s, h, steps[0]);
      g := RunKeeps(chain, Next(chain, s, steps[0]), g, steps[1..], last);
    }
  }

  /** An indexer that has so far indexed everything up to its non-zero cursor, just started. */
  function Resumed(chain: seq<Event>, cursor: int): State {
    State(ApplyAll(EMPTY, AllWrites(chain[..Pos(chain, cursor + 1)])), cursor, cursor)
  }

  lemma {:induction false} ResumedIsOk(chain: seq<Event>, cursor: int) returns (h: nat)
    requires Sorted(chain) && 1 <= cursor
    ensures Inv(chain, Resumed(chain, cursor), h)
  {
    var p, q := Pos(chain, cursor), Pos(chain, cursor + 1);
    PosMonotone(chain, cursor, cursor + 1);
    OffsetSlice(chain, p, q);
    OffsetSlice(chain, 0, q);
    h := Offset(chain, q);
    var ws := AllWrites(chain);
    assert chain[0..q] == chain[..q] && chain[..0] == [];
    assert ws[..h] == AllWrites(chain[..q]);
    var t := Resumed(chain, cursor).tables;
    SameRowsReflexive(t);
    assert Recoverable(t, ws, h, h);
    MoreToReplay(t, ws, Offset(chain, p), h, h);
  }

  /**
   * Crash recovery. Whatever failed, at whatever statement, and however often the process was
   * restarted: once the indexer waits at the end of the chain, its tables equal a single in-order
   * pass over all events.
   */
  lemma {:induction false} CaughtUpMeansOnePass(chain: seq<Event>, cursor: int, steps: seq<Step>, s: State)
    requires Sorted(chain) && ReplaySafe(AllWrites(chain)) && 1 <= cursor
    requires Run(chain, Resumed(chain, cursor), steps, s) && Pos(chain, s.start) == |chain|
    ensures s.tables == ApplyAll(EMPTY, AllWrites(chain))
  {
    var h := ResumedIsOk(chain, cursor);
    var g := RunKeeps(chain, Resumed(chain, cursor), h, steps, s);
    AtTheEnd(chain, s, g);
  }

  lemma {:induction false} AtTheEnd(chain: seq<Event>, s: State, g: nat)
    requires Inv(chain, s, g) && Pos(chain, s.start) == |chain|
    ensures s.tables == ApplyAll(EMPTY, AllWrites(chain))
  {
    var ws := AllWrites(chain);
    assert chain[..|chain|] == chain && ws[..|ws|] == ws;
    RecoverableBounds(s.tables, ws, Offset(chain, |chain|), g);
    ExactWhenNothingToReplay(s.tables, ws, g);
  }

  // ---------------------------------------------------------------------------------------------
  // Recovery always succeeds
  // ---------------------------------------------------------------------------------------------

  /** From any ledger boundary, one page of the published chain ends on a ledger boundary again. */
  ghost predicate PagesFit(chain: seq<Event>) {
    forall l: int :: EndsOnBoundary(chain, l, Fetch(chain, |chain|, l))
  }

  /** `n` undisturbed polls of the complete chain. */
  function Settle(chain: seq<Event>, s: State, n: nat): State
    decreases n
  {
    if n == 0 then s
    else
      var page := Fetch(chain, |chain|, s.start);
      Settle(chain, PollOnce(s, Page(page), |AllWrites(page)| + 1), n - 1)
  }

  lemma {:induction false} PollAdvances(chain: seq<Event>, s: State)
    requires Sorted(chain) && PagesFit(chain) && Handled(chain)
    requires Placed(chain, s)
    ensures var page := Fetch(chain, |chain|, s.start);
            var v := PollOnce(s, Page(page), |AllWrites(page)| + 1);
            && Pos(chain, v.start) >= Pos(chain, s.start)
            && (Pos(chain, s.start) < |chain| ==> Pos(chain, v.start) > Pos(chain, s.start))
            && EndsOnBoundary(chain, s.start, page)
  {
    hide AllWrites, Attempted, ApplyAll, Pos, Fetch;
    var page := Fetch(chain, |chain|, s.start);
    FetchShape(chain, |chain|, s.start);
    PlacedBefore(chain, s);
    assert EndsOnBoundary(chain, s.start, page);
    assert Handled(page) by {
      forall e | e in page ensures !e.body.Misfit? {
        assert e in chain;
      }
    }
    AttemptedIsPrefix(page);
  }

  /**
   * Whatever happened before, as many undisturbed polls as there are events left bring the tables to
   * the result of one in-order pass.
   */
  lemma {:induction false} SettlingReachesOnePass(chain: seq<Event>, s: State, h: nat, n: nat)
    requires Sorted(chain) && ReplaySafe(AllWrites(chain)) && PagesFit(chain) && Handled(chain)
    requires Inv(chain, s, h) && |chain| - Pos(chain, s.start) <= n
    ensures Settle(chain, s, n).tables == ApplyAll(EMPTY, AllWrites(chain))
    decreases n
  {
    hide AllWrites, Recoverable, ReplaySafe, ApplyAll, Pos, Fetch, PollOnce, Handled, PagesFit, EndsOnBoundary;
    if n == 0 {
      AtTheEnd(chain, s, h);
    } else {
      var page := Fetch(chain, |chain|, s.start);
      var budget := |AllWrites(page)| + 1;
      PollAdvances(chain, s);
      var g := PollKeeps(chain, s, h, |chain|, budget);
      SettlingReachesOnePass(chain, PollOnce(s, Page(page), budget), g, n - 1);
    }
  }

  // ---------------------------------------------------------------------------------------------
  // A new database
  // ---------------------------------------------------------------------------------------------

  /** The events from ledger `first` on. */
  function From(chain: seq<Event>, first: int): seq<Event> { chain[Pos(chain, first)..] }

  lemma {:induction false} PosFrom(chain: seq<Event>, first: int, l: int)
    requires Sorted(chain) && first <= l
    ensures Sorted(From(chain, first))
    ensures Pos(chain, l) == Pos(chain, first) + Pos(From(chain, first), l)
  {
    var p, q := Pos(chain, first), Pos(chain, l);
    PosMonotone(chain, first, l);
    hide Pos;
    PosIs(From(chain, first), l, q - p);
  }

  lemma {:induction false} PosIs(chain: seq<Event>, l: int, k: nat)
    requires Sorted(chain) && k <= |chain|
    requires (k < |chain| ==> l <= chain[k].ledger) && (0 < k ==> chain[k - 1].ledger < l)
    ensures Pos(chain, l) == k
  {
    hide Pos, Sorted;
    if k < |chain| {
      PosSplits(chain, l, k);
    }
    if 0 < k {
      PosSplits(chain, l, k - 1);
    }
  }

  lemma {:induction false} FetchFrom(chain: seq<Event>, first: int, avail: nat, start: int)
    requires Sorted(chain) && first <= start && Pos(chain, first) <= avail <= |chain|
    ensures var rest := From(chain, first);
            && avail - Pos(chain, first) <= |rest|
            && Fetch(rest, avail - Pos(chain, first), start) == Fetch(chain, avail, start)
  {
    hide Pos, Sorted;
    PosFrom(chain, first, start);
    var p, q := Pos(chain, first), Pos(chain, start);
    if q < avail {
      SliceOfRest(chain, p, q - p, if q + PAGE_LIMIT <= avail then q - p + PAGE_LIMIT else avail - p);
    }
  }

  lemma {:induction false} SliceOfRest(chain: seq<Event>, p: nat, a: nat, b: nat)
    requires a <= b && p + b <= |chain|
    ensures chain[p..][a..b] == chain[p + a..p + b]
  {
  }

  lemma {:induction false} BoundaryFrom(chain: seq<Event>, first: int, start: int, page: seq<Event>)
    requires Sorted(chain) && first <= start && EndsOnBoundary(chain, start, page)
    requires page != [] ==> page[|page| - 1].ledger >= start
    ensures EndsOnBoundary(From(chain, first), start, page)
  {
    hide Pos, Sorted, From;
    if page != [] {
      PosFrom(chain, first, start);
      PosFrom(chain, first, page[|page| - 1].ledger + 1);
    }
  }

  lemma {:induction false} PageIsLater(chain: seq<Event>, avail: nat, start: int)
    requires Sorted(chain) && avail <= |chain|
    ensures var page := Fetch(chain, avail, start); page != [] ==> page[|page| - 1].ledger >= start
  {
    hide Pos, Fetch, Sorted;
    var page := Fetch(chain, avail, start);
    FetchShape(chain, avail, start);
    if page != [] {
      PosSplits(chain, start, Pos(chain, start) + |page| - 1);
    }
  }

  /** Without a cursor, restarts begin where the first start did, and the node has events from there on. */
  predicate FromFirst(chain: seq<Event>, first: int, s: State, step: Step) {
    s.cursor == 0 ==>
      && (step.Restart? ==> StartingLedger(0, step.configured, step.latest) == first)
      && (step.Poll? ==> Pos(chain, first) < step.avail)
  }

  predicate NewRun(chain: seq<Event>, first: int, s: State, steps: seq<Step>, last: State)
    decreases |steps|
  {
    if steps == [] then last == s
    else
      && (Possible(chain, s, steps[0]) || (steps[0].Restart? && s.cursor == 0)) && FromFirst(chain, first, s, steps[0])
      && NewRun(chain, first, Next(chain, s, steps[0]), steps[1..], last)
  }

  /** A state of an indexer whose first start was at `first`. */
  predicate Opened(first: int, s: State) { if s.cursor == 0 then s.start == first else first <= s.cursor && first <= s.start }

  /** The same step, seen by an indexer of the later events only. */
  function Seen(chain: seq<Event>, first: int, s: State, step: Step): Step {
    match step
    case Poll(avail, budget) =>
      if Pos(chain, first) <= avail then Poll(avail - Pos(chain, first), budget) else RpcFailure
    case Restart(_, _) => if s.cursor == 0 then RpcFailure else step
    case _ => step
  }

  lemma {:induction false} StepSeen(chain: seq<Event>, first: int, s: State, step: Step)
    requires Sorted(chain) && 1 <= first && Opened(first, s) && FromFirst(chain, first, s, step)
    requires Possible(chain, s, step) || (step.Restart? && s.cursor == 0)
    ensures Feasible(chain, step)
    ensures var rest := From(chain, first);
            var seen := Seen(chain, first, s, step);
            && Possible(rest, s, seen) && Next(rest, s, seen) == Next(chain, s, step)
            && Opened(first, Next(chain, s, step))
  {
    hide Pos, Fetch, From, EndsOnBoundary, AllWrites, Attempted, ApplyAll, Handled, Sorted;
    if step.Poll? {
      if s.cursor == 0 {
        NothingBefore(chain, first);
        NonEmptyFirst(chain, first, step.avail);
      } else {
        PosMonotone(chain, first, s.cursor + 1);
        PosFrom(chain, first, s.cursor + 1);
      }
      FetchFrom(chain, first, step.avail, s.start);
      PageIsLater(chain, step.avail, s.start);
      BoundaryFrom(chain, first, s.start, Fetch(chain, step.avail, s.start));
    }
  }

  lemma {:induction false} NothingBefore(chain: seq<Event>, first: int)
    requires Sorted(chain) && 1 <= first
    ensures Pos(From(chain, first), 1) == 0 && Pos(From(chain, first), first) == 0
  {
    PosFrom(chain, first, first);
    PosMonotone(From(chain, first), 1, first);
  }

  lemma {:induction false} NonEmptyFirst(chain: seq<Event>, first: int, avail: nat)
    requires Pos(chain, first) < avail <= |chain|
    ensures Fetch(chain, avail, first) != []
  {
  }

  lemma {:induction false} RunSeen(chain: seq<Event>, first: int, s: State, steps: seq<Step>, last: State)
    returns (seen: seq<Step>)
    requires Sorted(chain) && 1 <= first && Opened(first, s) && NewRun(chain, first, s, steps, last)
    ensures Run(From(chain, first), s, seen, last) && Opened(first, last)
    decreases |steps|
  {
    hide Next, Possible, FromFirst, From, Opened, Seen, Sorted;
    if steps == [] {
      seen := [];
    } else {
      StepSeen(chain, first, s, steps[0]);
      var rest := RunSeen(chain, first, Next(chain, s, steps[0]), steps[1..], last);
      seen := [Seen(chain, first, s, steps[0])] + rest;
      assert seen[1..] == rest;
    }
  }

  /**
   * Crash recovery of a new database that starts at `first`, configured or recent: once it waits at
   * the end of the chain, its tables equal one in-order pass over the events from there on.
   */
  lemma {:induction false} NewDatabaseMeansOnePass(chain: seq<Event>, first: int, steps: seq<Step>, s: State)
    requires Sorted(chain) && 1 <= first && ReplaySafe(AllWrites(From(chain, first)))
    requires NewRun(chain, first, State(EMPTY, 0, first), steps, s) && Pos(chain, s.start) == |chain|
    ensures s.tables == ApplyAll(EMPTY, AllWrites(From(chain, first)))
  {
    var s0 := State(EMPTY, 0, first);
    var rest := From(chain, first);
    var seen := RunSeen(chain, first, s0, steps, s);
    NothingBefore(chain, first);
    PosFrom(chain, first, s.start);
    NewIsOk(rest, first);
    hide Run, From, NewRun;
    var g := RunKeeps(rest, s0, 0, seen, s);
    AtTheEnd(rest, s, g);
  }

  lemma {:induction false} NewIsOk(rest: seq<Event>, first: int)
    requires Pos(rest, first) == 0 && Pos(rest, 1) == 0
    ensures Inv(rest, State(EMPTY, 0, first), 0)
  {
    assert rest[..0] == [];
    SameRowsReflexive(EMPTY);
  }
}
