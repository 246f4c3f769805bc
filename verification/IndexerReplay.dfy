/** Replaying a stretch of statements over tables that already contain their effects. */
module IndexerReplay {
  import opened Common
  import opened Indexer

  /** The fields that later statements may overwrite; everything else is fixed at insertion. */
  datatype Field = ApprovalsOf(id: Id) | StatusOf(id: Id) | ClaimOf(id: Id)

  datatype Value = Count(n: int) | Stage(s: Status) | Claimed(at: Option<int>)

  predicate Exists(t: Tables, f: Field) {
    if f.ClaimOf? then f.id in t.rewards else f.id in t.proposals
  }

  function Read(t: Tables, f: Field): Value
    requires Exists(t, f)
  {
    match f
    case ApprovalsOf(id) => Count(t.proposals[id].approvals)
    case StatusOf(id) => Stage(t.proposals[id].status)
    case ClaimOf(id) => Claimed(t.rewards[id].claimedAt)
  }

  predicate Updates(w: Write, f: Field) {
    match f
    case ApprovalsOf(id) => w.SetApprovals? && w.id == id
    case StatusOf(id) => w.SetStatus? && w.id == id
    case ClaimOf(id) => w.SetClaimed? && w.id == id
  }

  function Written(w: Write, f: Field): Value
    requires Updates(w, f)
  {
    match f
    case ApprovalsOf(_) => Count(w.approvals)
    case StatusOf(_) => Stage(w.status)
    case ClaimOf(_) => Claimed(Some(w.claimedAt))
  }

  /** The statement creates the row that field `f` belongs to. */
  predicate Creates(w: Write, f: Field) {
    if f.ClaimOf? then w.InsertReward? && w.id == f.id else w.InsertProposal? && w.id == f.id
  }

  predicate BornBefore(ws: seq<Write>, i: nat, f: Field)
    requires i <= |ws|
  {
    exists j: nat | j < i :: Creates(ws[j], f)
  }

  /** The value that the creation of its row gives a field. */
  function Initial(w: Write, f: Field): Value
    requires Creates(w, f)
  {
    match f
    case ApprovalsOf(_) => Count(w.proposal.approvals)
    case StatusOf(_) => Stage(w.proposal.status)
    case ClaimOf(_) => Claimed(w.reward.claimedAt)
  }

  predicate FirstCreates(ws: seq<Write>, c: nat, f: Field)
    requires c < |ws|
  {
    Creates(ws[c], f) && !BornBefore(ws, c, f)
  }

  predicate LastUpdate(ws: seq<Write>, i: nat, n: nat, f: Field)
    requires i < n <= |ws|
  {
    Updates(ws[i], f) && Untouched(ws, i + 1, n, f)
  }

  /**
   * If a field is updated before its row is first created, the last such update writes what the
   * creation does. Updates of rows that the statements never create are free.
   */
  ghost predicate ReplaySafe(ws: seq<Write>) {
    forall i: nat, c: nat, f: Field | i < c < |ws| && LastUpdate(ws, i, c, f) && FirstCreates(ws, c, f) ::
      Written(ws[i], f) == Initial(ws[c], f)
  }

  predicate SameProposal(a: ProposalRow, b: ProposalRow) { a.info == b.info && a.ledger == b.ledger && a.tx == b.tx }

  predicate SameReward(a: RewardRow, b: RewardRow) { a.info == b.info && a.ledger == b.ledger && a.tx == b.tx }

  /** The same rows, up to the fields that may be overwritten. */
  predicate SameRows(t: Tables, u: Tables) {
    && t.events == u.events && t.trades == u.trades
    && t.proposals.Keys == u.proposals.Keys && t.rewards.Keys == u.rewards.Keys
    && (forall id <- t.proposals :: SameProposal(t.proposals[id], u.proposals[id]))
    && (forall id <- t.rewards :: SameReward(t.rewards[id], u.rewards[id]))
  }

  function Fold(base: Tables, ws: seq<Write>, n: nat): Tables
    requires n <= |ws|
  {
    ApplyAll(base, ws[..n])
  }

  predicate Untouched(ws: seq<Write>, a: nat, h: nat, f: Field)
    requires h <= |ws|
  {
    forall i: nat | a <= i < h :: !Updates(ws[i], f)
  }

  /**
   * Statements up to `h` have taken effect at some time, and every field is up to date except,
   * perhaps, those that a replay from `a` up to `h` will write again.
   */
  ghost predicate Recoverable(t: Tables, ws: seq<Write>, a: nat, h: nat) {
    && a <= h <= |ws|
    && var u := Fold(EMPTY, ws, h);
    && SameRows(t, u)
    && forall f: Field | Exists(u, f) && Untouched(ws, a, h, f) :: Exists(t, f) && Read(t, f) == Read(u, f)
  }

  const EMPTY := Tables(map[], map[], map[], map[])

  lemma {:induction false} ExactWhenNothingToReplay(t: Tables, ws: seq<Write>, h: nat)
    requires Recoverable(t, ws, h, h)
    ensures t == Fold(EMPTY, ws, h)
  {
    var u := Fold(EMPTY, ws, h);
    forall id | id in t.proposals ensures t.proposals[id] == u.proposals[id] {
      assert SameProposal(t.proposals[id], u.proposals[id]);
      assert Exists(u, ApprovalsOf(id)) && Untouched(ws, h, h, ApprovalsOf(id));
      assert Exists(u, StatusOf(id)) && Untouched(ws, h, h, StatusOf(id));
      assert Read(t, ApprovalsOf(id)) == Read(u, ApprovalsOf(id));
      assert Read(t, StatusOf(id)) == Read(u, StatusOf(id));
    }
    forall id | id in t.rewards ensures t.rewards[id] == u.rewards[id] {
      assert SameReward(t.rewards[id], u.rewards[id]);
      assert Exists(u, ClaimOf(id)) && Untouched(ws, h, h, ClaimOf(id));
      assert Read(t, ClaimOf(id)) == Read(u, ClaimOf(id));
    }
    assert t.proposals == u.proposals && t.rewards == u.rewards;
  }

  lemma {:induction false} MoreToReplay(t: Tables, ws: seq<Write>, a: nat, b: nat, h: nat)
    requires a <= b && Recoverable(t, ws, b, h)
    ensures Recoverable(t, ws, a, h)
  {
  }

  // ---------------------------------------------------------------------------------------------
  // One statement
  // ---------------------------------------------------------------------------------------------

  /** The row or rows a statement creates exist in `t`. */
  predicate Present(t: Tables, w: Write) {
    match w
    case InsertEvent(e) => (e.tx, e.index) in t.events
    case InsertTrade(id, _) => id in t.trades
    case InsertProposal(id, _) => id in t.proposals
    case InsertReward(id, _) => id in t.rewards
    case _ => true
  }

  predicate Grown(t: Tables, u: Tables) {
    && t.events.Keys <= u.events.Keys && t.trades.Keys <= u.trades.Keys
    && t.proposals.Keys <= u.proposals.Keys && t.rewards.Keys <= u.rewards.Keys
  }

  lemma {:induction false} ApplyGrows(t: Tables, w: Write)
    ensures Grown(t, Apply(t, w)) && Present(Apply(t, w), w)
  {
  }

  lemma {:induction false} FoldGrows(ws: seq<Write>, i: nat, n: nat)
    requires i <= n <= |ws|
    ensures Grown(Fold(EMPTY, ws, i), Fold(EMPTY, ws, n))
    decreases n
  {
    if i < n {
      FoldGrows(ws, i, n - 1);
      assert ws[..n][..n - 1] == ws[..n - 1];
      ApplyGrows(Fold(EMPTY, ws, n - 1), ws[n - 1]);
    }
  }

  lemma {:induction false} FoldPresent(ws: seq<Write>, i: nat, n: nat)
    requires i < n <= |ws|
    ensures Present(Fold(EMPTY, ws, n), ws[i])
  {
    assert ws[..i + 1][..i] == ws[..i];
    ApplyGrows(Fold(EMPTY, ws, i), ws[i]);
    FoldGrows(ws, i + 1, n);
  }

  lemma {:induction false} CreatedExists(ws: seq<Write>, i: nat, n: nat, f: Field)
    requires i <= n <= |ws| && BornBefore(ws, i, f)
    ensures Exists(Fold(EMPTY, ws, n), f)
  {
    var j: nat :| j < i && Creates(ws[j], f);
    FoldPresent(ws, j, n);
  }

  lemma {:induction false} ApplyReads(t: Tables, w: Write, f: Field)
    requires Exists(t, f)
    ensures Exists(Apply(t, w), f)
    ensures Read(Apply(t, w), f) == if Updates(w, f) then Written(w, f) else Read(t, f)
  {
  }

  lemma {:induction false} ApplyKeepsRows(t: Tables, w: Write)
    requires Present(t, w)
    ensures SameRows(Apply(t, w), t)
  {
  }

  lemma {:induction false} CreationReads(t: Tables, w: Write, f: Field)
    requires !Exists(t, f) && Exists(Apply(t, w), f)
    ensures Creates(w, f) && Read(Apply(t, w), f) == Initial(w, f)
  {
  }

  lemma {:induction false} ExistingWasCreated(ws: seq<Write>, n: nat, f: Field)
    requires n <= |ws| && Exists(Fold(EMPTY, ws, n), f)
    ensures BornBefore(ws, n, f)
    decreases n
  {
    if n > 0 {
      assert ws[..n][..n - 1] == ws[..n - 1];
      if Exists(Fold(EMPTY, ws, n - 1), f) {
        ExistingWasCreated(ws, n - 1, f);
        var j: nat :| j < n - 1 && Creates(ws[j], f);
      } else {
        CreationReads(Fold(EMPTY, ws, n - 1), ws[n - 1], f);
      }
    }
  }

  /** The last update of a field before `n` decides its value, even if its row is created later. */
  lemma {:induction false} LastUpdateWins(ws: seq<Write>, i: nat, n: nat, f: Field)
    requires ReplaySafe(ws) && i < n <= |ws| && LastUpdate(ws, i, n, f)
    requires Exists(Fold(EMPTY, ws, n), f)
    ensures Read(Fold(EMPTY, ws, n), f) == Written(ws[i], f)
    decreases n
  {
    hide ReplaySafe;
    assert ws[..n][..n - 1] == ws[..n - 1];
    var before := Fold(EMPTY, ws, n - 1);
    if Exists(before, f) {
      ApplyReads(before, ws[n - 1], f);
      if n > i + 1 {
        LastUpdateWins(ws, i, n - 1, f);
      }
    } else {
      CreationReads(before, ws[n - 1], f);
      assert n - 1 > i;
      if BornBefore(ws, n - 1, f) {
        CreatedExists(ws, n - 1, n - 1, f);
      }
      SafeHere(ws, i, n - 1, f);
    }
  }

  lemma {:induction false} SafeHere(ws: seq<Write>, i: nat, c: nat, f: Field)
    requires ReplaySafe(ws) && i < c < |ws| && LastUpdate(ws, i, c, f) && FirstCreates(ws, c, f)
    ensures Written(ws[i], f) == Initial(ws[c], f)
  {
  }

  lemma {:induction false} SameRowsTransitive(t: Tables, u: Tables, v: Tables)
    requires SameRows(t, u) && SameRows(u, v)
    ensures SameRows(t, v)
  {
    forall id | id in t.proposals ensures SameProposal(t.proposals[id], v.proposals[id]) {
      assert SameProposal(t.proposals[id], u.proposals[id]) && SameProposal(u.proposals[id], v.proposals[id]);
    }
    forall id | id in t.rewards ensures SameReward(t.rewards[id], v.rewards[id]) {
      assert SameReward(t.rewards[id], u.rewards[id]) && SameReward(u.rewards[id], v.rewards[id]);
    }
  }

  function MaxN(a: nat, b: nat): nat { if a <= b then b else a }

  /** Replaying a statement whose effect is already in the tables. */
  lemma {:induction false} ReplayKnown(t: Tables, ws: seq<Write>, a: nat, h: nat)
    requires ReplaySafe(ws) && Recoverable(t, ws, a, h) && a < h
    ensures Recoverable(Apply(t, ws[a]), ws, a + 1, h)
  {
    var u := Fold(EMPTY, ws, h);
    var w := ws[a];
    var v := Apply(t, w);
    FoldPresent(ws, a, h);
    PresentInSame(t, u, w);
    ApplyKeepsRows(t, w);
    SameRowsTransitive(v, t, u);
    forall f: Field | Exists(u, f) && Untouched(ws, a + 1, h, f)
      ensures Exists(v, f) && Read(v, f) == Read(u, f)
    {
      ExistsInSame(t, u, f);
      ApplyReads(t, w, f);
      if Updates(w, f) {
        LastUpdateWins(ws, a, h, f);
      } else {
        assert Untouched(ws, a, h, f);
      }
    }
  }

  lemma {:induction false} PresentInSame(t: Tables, u: Tables, w: Write)
    requires SameRows(t, u) && Present(u, w)
    ensures Present(t, w)
  {
  }

  lemma {:induction false} ExistsInSame(t: Tables, u: Tables, f: Field)
    requires SameRows(t, u) && Exists(u, f)
    ensures Exists(t, f)
  {
  }

  lemma {:induction false} ReplayOne(t: Tables, ws: seq<Write>, a: nat, h: nat)
    requires ReplaySafe(ws) && Recoverable(t, ws, a, h) && a < |ws|
    ensures Recoverable(Apply(t, ws[a]), ws, a + 1, MaxN(h, a + 1))
  {
    if a < h {
      ReplayKnown(t, ws, a, h);
    } else {
      ExactWhenNothingToReplay(t, ws, h);
      assert ws[..h + 1][..h] == ws[..h];
      SameRowsReflexive(Fold(EMPTY, ws, h + 1));
    }
  }

  lemma {:induction false} SameRowsReflexive(t: Tables)
    ensures SameRows(t, t)
  {
  }

  /** A replay of any length moves the recovery point to its end. */
  lemma {:induction false} Replay(t: Tables, ws: seq<Write>, a: nat, b: nat, h: nat)
    requires ReplaySafe(ws) && a <= b <= |ws| && Recoverable(t, ws, a, h)
    ensures Recoverable(ApplyAll(t, ws[a..b]), ws, b, MaxN(h, b))
    decreases b
  {
    hide Recoverable, Apply, ReplaySafe;
    if a < b {
      Replay(t, ws, a, b - 1, h);
      assert ws[a..b][..b - 1 - a] == ws[a..b - 1];
      ReplayOne(ApplyAll(t, ws[a..b - 1]), ws, b - 1, MaxN(h, b - 1));
    } else {
      assert ws[a..b] == [];
      RecoverableBounds(t, ws, a, h);
    }
  }

  lemma {:induction false} RecoverableBounds(t: Tables, ws: seq<Write>, a: nat, h: nat)
    requires Recoverable(t, ws, a, h)
    ensures a <= h <= |ws|
  {
  }

  // ---------------------------------------------------------------------------------------------
  // Exactly when a replay changes nothing
  // ---------------------------------------------------------------------------------------------

  /** Replaying statements `a` to `h` over tables that hold the first `h` gives the same tables. */
  predicate ReplayIsIdle(ws: seq<Write>, a: nat, h: nat)
    requires a <= h <= |ws|
  {
    ApplyAll(Fold(EMPTY, ws, h), ws[a..h]) == Fold(EMPTY, ws, h)
  }

  lemma {:induction false} SafeReplayIsIdle(ws: seq<Write>, a: nat, h: nat)
    requires ReplaySafe(ws) && a <= h <= |ws|
    ensures ReplayIsIdle(ws, a, h)
  {
    hide ReplaySafe, SameRows, Apply;
    var u := Fold(EMPTY, ws, h);
    SameRowsReflexive(u);
    assert Recoverable(u, ws, h, h);
    MoreToReplay(u, ws, a, h, h);
    Replay(u, ws, a, h, h);
    ExactWhenNothingToReplay(ApplyAll(u, ws[a..h]), ws, h);
  }

  /** Over a table that has the row, the last update decides. */
  lemma {:induction false} ReplayedValue(u: Tables, ws: seq<Write>, i: nat, n: nat, f: Field)
    requires Exists(u, f) && i < n <= |ws| && LastUpdate(ws, i, n, f)
    ensures Exists(ApplyAll(u, ws[..n]), f) && Read(ApplyAll(u, ws[..n]), f) == Written(ws[i], f)
    decreases n
  {
    assert ws[..n][..n - 1] == ws[..n - 1];
    RowStays(u, ws[..n - 1], f);
    ApplyReads(ApplyAll(u, ws[..n - 1]), ws[n - 1], f);
    if n > i + 1 {
      ReplayedValue(u, ws, i, n - 1, f);
    }
  }

  lemma {:induction false} RowStays(u: Tables, ws: seq<Write>, f: Field)
    requires Exists(u, f)
    ensures Exists(ApplyAll(u, ws), f)
    decreases |ws|
  {
    hide Apply;
    if ws != [] {
      RowStays(u, ws[..|ws| - 1], f);
      ApplyReads(ApplyAll(u, ws[..|ws| - 1]), ws[|ws| - 1], f);
    }
  }

  /** A row updated before it is created differs once the updates are replayed. */
  lemma {:induction false} UnsafeReplayDiffers(ws: seq<Write>, i: nat, c: nat, f: Field)
    requires i < c < |ws| && LastUpdate(ws, i, c, f) && FirstCreates(ws, c, f)
    requires Written(ws[i], f) != Initial(ws[c], f)
    ensures !ReplayIsIdle(ws, 0, c + 1)
  {
    hide Apply;
    var before, u := Fold(EMPTY, ws, c), Fold(EMPTY, ws, c + 1);
    assert ws[..c + 1][..c] == ws[..c] && ws[0..c + 1] == ws[..c + 1];
    if Exists(before, f) {
      ExistingWasCreated(ws, c, f);
    }
    FoldPresent(ws, c, c + 1);
    CreationReads(before, ws[c], f);
    ReplayedValue(u, ws, i, c + 1, f);
  }

  /** Replaying any prefix over its own result changes nothing exactly if the statements are replay-safe. */
  lemma {:induction false} ReplayIsIdleIff(ws: seq<Write>)
    ensures (forall h: nat | h <= |ws| :: ReplayIsIdle(ws, 0, h)) <==> ReplaySafe(ws)
    ensures ReplaySafe(ws) ==> forall a: nat, h: nat | a <= h <= |ws| :: ReplayIsIdle(ws, a, h)
  {
    hide ReplayIsIdle;
    if ReplaySafe(ws) {
      forall a: nat, h: nat | a <= h <= |ws| ensures ReplayIsIdle(ws, a, h) {
        SafeReplayIsIdle(ws, a, h);
      }
    } else {
      var i: nat, c: nat, f: Field :| i < c < |ws| && LastUpdate(ws, i, c, f) && FirstCreates(ws, c, f)
                                      && Written(ws[i], f) != Initial(ws[c], f);
      UnsafeReplayDiffers(ws, i, c, f);
    }
  }
}
