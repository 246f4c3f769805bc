/** When the retention loop ends and what it has done by then. */
module RetentionRuns {
  import opened Common
  import opened Filtering
  import opened Retention

  function Concat(batches: seq<seq<Record>>): seq<Record> {
    if batches == [] then [] else batches[0] + Concat(batches[1..])
  }

  lemma {:induction false} ConcatLast(batches: seq<seq<Record>>, last: seq<Record>)
    ensures Concat(batches + [last]) == Concat(batches) + last
  {
    if batches == [] {
      assert [last][1..] == [];
    } else {
      ConcatLast(batches[1..], last);
      assert (batches + [last])[1..] == batches[1..] + [last];
    }
  }

  function HeldCount(job: Job, rows: seq<Record>): nat { |Filter(IsExpiredHeld(job), rows)| }

  // ---------------------------------------------------------------------------------------------
  // Pages
  // ---------------------------------------------------------------------------------------------

  /** The due records of a page are a stretch of all the due records, in order. */
  lemma {:induction false} PageOfDue(job: Job, rows: seq<Record>, skip: nat)
    ensures var matching := Filter(IsExpired(job), rows);
      var from := Min(skip, |matching|);
      Filter(IsDue(job), rows)
        == Filter(IsFree(job), matching[..from]) + Filter(IsFree(job), Page(job, rows, skip))
         + Filter(IsFree(job), matching[from + |Page(job, rows, skip)|..])
  {
    var matching := Filter(IsExpired(job), rows);
    var from := Min(skip, |matching|);
    var page := Page(job, rows, skip);
    FilterTwice(IsFree(job), IsExpired(job), IsDue(job), rows);
    assert matching == matching[..from] + (page + matching[from + |page|..]);
    FilterConcat(IsFree(job), matching[..from], page + matching[from + |page|..]);
    FilterConcat(IsFree(job), page, matching[from + |page|..]);
  }

  lemma {:induction false} PageSplits(job: Job, page: seq<Record>)
    ensures |Filter(IsFree(job), page)| + |Filter(IsHeld(job), page)| == |page|
  {
    FilterSplit(IsFree(job), IsHeld(job), page);
  }

  lemma {:induction false} HeldOnPage(job: Job, rows: seq<Record>, skip: nat)
    ensures |Filter(IsHeld(job), Page(job, rows, skip))| <= HeldCount(job, rows)
    ensures HeldCount(job, rows) <= |Filter(IsExpired(job), rows)|
  {
    var matching := Filter(IsExpired(job), rows);
    var from := Min(skip, |matching|);
    var page := Page(job, rows, skip);
    FilterTwice(IsHeld(job), IsExpired(job), IsExpiredHeld(job), rows);
    assert matching == matching[..from] + (page + matching[from + |page|..]);
    FilterConcat(IsHeld(job), matching[..from], page + matching[from + |page|..]);
    FilterConcat(IsHeld(job), page, matching[from + |page|..]);
  }

  // ---------------------------------------------------------------------------------------------
  // Deletion
  // ---------------------------------------------------------------------------------------------

  lemma {:induction false} UniqueAfterFilter(p: Record -> bool, rows: seq<Record>)
    requires UniqueIds(rows)
    ensures UniqueIds(Filter(p, rows))
  {
    if rows != [] {
      assert forall i | 0 <= i < |rows[1..]| :: rows[1..][i] == rows[i + 1];
      UniqueAfterFilter(p, rows[1..]);
      var t := Filter(p, rows[1..]);
      FilterMembers(p, rows[1..]);
      if p(rows[0]) {
        forall j | 0 <= j < |t| ensures t[j].id != rows[0].id {
          assert t[j] in rows[1..];
        }
      }
    }
  }

  lemma {:induction false} SameIdSameRecord(rows: seq<Record>, x: Record, y: Record)
    requires UniqueIds(rows) && x in rows && y in rows && x.id == y.id
    ensures x == y
  {
  }

  /** Deleting by id the leading due records of the table removes them and nothing else. */
  lemma {:induction false} DeleteTakes(job: Job, rows: seq<Record>, taken: seq<Record>, rest: seq<Record>)
    requires UniqueIds(rows) && Filter(IsDue(job), rows) == taken + rest
    ensures var left := Filter(NotIn(Ids(taken)), rows);
      && UniqueIds(left)
      && Filter(IsDue(job), left) == rest
      && Filter(IsKept(job), left) == Filter(IsKept(job), rows)
      && |rows| - |left| == |taken|
  {
    var due, stays := IsDue(job), NotIn(Ids(taken));
    var left := Filter(stays, rows);
    UniqueAfterFilter(stays, rows);
    UniqueAfterFilter(due, rows);
    FilterMembers(due, rows);
    FilterMembers(IsKept(job), rows);
    FilterSwap(due, stays, rows);
    FilterConcat(stays, taken, rest);
    FilterNone(stays, taken);
    forall r | r in rest ensures stays(r) {
      if r.id in Ids(taken) {
        var x :| x in taken && x.id == r.id;
        TwiceInConcat(taken, rest, x, r);
      }
    }
    FilterAll(stays, rest);
    FilterSwap(IsKept(job), stays, rows);
    forall r | r in Filter(IsKept(job), rows) ensures stays(r) {
      if r.id in Ids(taken) {
        var x :| x in taken && x.id == r.id;
        assert x in taken + rest && x in Filter(due, rows);
        SameIdSameRecord(rows, x, r);
      }
    }
    FilterAll(stays, Filter(IsKept(job), rows));
    FilterSplit(due, IsKept(job), rows);
    FilterSplit(due, IsKept(job), left);
  }

  lemma {:induction false} TwiceInConcat(s: seq<Record>, t: seq<Record>, x: Record, y: Record)
    requires UniqueIds(s + t) && x in s && y in t
    ensures x.id != y.id
  {
    var i :| 0 <= i < |s| && s[i] == x;
    var j :| 0 <= j < |t| && t[j] == y;
    assert (s + t)[i] == x && (s + t)[|s| + j] == y;
  }

  // ---------------------------------------------------------------------------------------------
  // The live run
  // ---------------------------------------------------------------------------------------------

  /** What every turn of a live run keeps, relative to the table it started on. */
  ghost predicate LiveInvariant(job: Job, rows: seq<Record>, s: Progress) {
    LiveTable(job, rows, s) && LiveReport(job, s) && LiveArchive(job, rows, s)
  }

  ghost predicate LiveTable(job: Job, rows: seq<Record>, s: Progress) {
    && UniqueIds(s.rows) && s.skip == 0
    && Filter(IsKept(job), s.rows) == Filter(IsKept(job), rows)
    && s.report.deleted + |Filter(IsDue(job), s.rows)| == |Filter(IsDue(job), rows)|
    && (s.done && job.size > 0 ==> Filter(IsDue(job), s.rows) == [])
  }

  ghost predicate LiveReport(job: Job, s: Progress) {
    && s.report.examined - s.report.held == s.report.deleted
    && s.report.shredded == (if job.rule.secureDelete then s.report.deleted else 0)
    && s.report.archived == (if job.rule.archiveEnabled then s.report.deleted else 0)
  }

  ghost predicate LiveArchive(job: Job, rows: seq<Record>, s: Progress) {
    if job.rule.archiveEnabled then Concat(s.archive) + Filter(IsDue(job), s.rows) == Filter(IsDue(job), rows)
    else Concat(s.archive) == []
  }

  function FreeOnPage(job: Job, s: Progress): seq<Record> { Filter(IsFree(job), Page(job, s.rows, s.skip)) }

  /** A live turn on an unfinished table deletes exactly the due records of the first page. */
  lemma {:induction false} LiveTurn(job: Job, s: Progress)
    requires !job.dryRun && !s.done && s.skip == 0 && UniqueIds(s.rows)
    ensures var t := Turn(job, s);
      var free := FreeOnPage(job, s);
      && UniqueIds(t.rows) && t.skip == 0
      && Filter(IsDue(job), s.rows) == free + Filter(IsDue(job), t.rows)
      && Filter(IsKept(job), t.rows) == Filter(IsKept(job), s.rows)
      && t.report.deleted == s.report.deleted + |free|
      && (t.done && job.size > 0 ==> Filter(IsDue(job), t.rows) == [])
  {
    hide IsDue, IsFree, IsKept, IsExpired, IsHeld, UniqueIds;
    var page := Page(job, s.rows, 0);
    var free := Filter(IsFree(job), page);
    var matching := Filter(IsExpired(job), s.rows);
    assert matching[..0] == [];
    var rest := Filter(IsFree(job), matching[|page|..]);
    PageOfDue(job, s.rows, 0);
    assert Filter(IsDue(job), s.rows) == free + rest;
    DeleteTakes(job, s.rows, free, rest);
    if page == [] {
      assert free == [];
      NothingToDelete(s.rows);
    }
    if |page| < job.size {
      assert matching[|page|..] == [];
    }
  }

  /** What a turn, live or dry, reports and archives. */
  lemma {:induction false} TurnReports(job: Job, s: Progress)
    requires !s.done
    ensures var t := Turn(job, s);
      var free := FreeOnPage(job, s);
      && t.report.examined - t.report.held == s.report.examined - s.report.held + |free|
      && t.report.shredded == s.report.shredded + (if job.rule.secureDelete then |free| else 0)
      && t.report.archived == s.report.archived + (if job.rule.archiveEnabled then |free| else 0)
      && Concat(t.archive) == Concat(s.archive) + (if job.rule.archiveEnabled then free else [])
  {
    hide IsFree, IsExpired, IsHeld, Filter, Concat, Page;
    var page := Page(job, s.rows, s.skip);
    PageSplits(job, page);
    ConcatLast(s.archive, Filter(IsFree(job), page));
  }

  lemma {:induction false} LiveTurnKeeps(job: Job, rows: seq<Record>, s: Progress)
    requires !job.dryRun && LiveInvariant(job, rows, s)
    ensures LiveInvariant(job, rows, Turn(job, s))
  {
    if s.done {
      assert Turn(job, s) == s;
    } else {
      hide LiveTable, LiveReport, LiveArchive, Turn;
      LiveTableKeeps(job, rows, s);
      LiveReportKeeps(job, s);
      LiveArchiveKeeps(job, rows, s);
    }
  }

  lemma {:induction false} LiveTableKeeps(job: Job, rows: seq<Record>, s: Progress)
    requires !job.dryRun && !s.done && LiveTable(job, rows, s)
    ensures LiveTable(job, rows, Turn(job, s)) && s.skip == 0 && UniqueIds(s.rows)
  {
    LiveTurn(job, s);
    hide IsDue, IsKept, UniqueIds, Filter, Turn, Concat, FreeOnPage;
    assert |Filter(IsDue(job), s.rows)| == |FreeOnPage(job, s)| + |Filter(IsDue(job), Turn(job, s).rows)|;
  }

  lemma {:induction false} LiveReportKeeps(job: Job, s: Progress)
    requires !job.dryRun && !s.done && s.skip == 0 && UniqueIds(s.rows) && LiveReport(job, s)
    ensures LiveReport(job, Turn(job, s))
  {
    LiveTurn(job, s);
    TurnReports(job, s);
    hide IsDue, IsKept, UniqueIds, Filter, Turn, Concat, FreeOnPage;
  }

  lemma {:induction false} LiveArchiveKeeps(job: Job, rows: seq<Record>, s: Progress)
    requires !job.dryRun && !s.done && s.skip == 0 && UniqueIds(s.rows) && LiveArchive(job, rows, s)
    ensures LiveArchive(job, rows, Turn(job, s))
  {
    LiveTurn(job, s);
    TurnReports(job, s);
    hide IsDue, IsKept, UniqueIds, Filter, Turn, Concat, FreeOnPage;
    var t, free := Turn(job, s), FreeOnPage(job, s);
    if job.rule.archiveEnabled {
      Regroup(Concat(s.archive), free, Filter(IsDue(job), t.rows));
    }
  }

  lemma {:induction false} LiveStart(job: Job, rows: seq<Record>)
    requires UniqueIds(rows)
    ensures LiveInvariant(job, rows, Turns(job, Start(rows), 0))
  {
    hide Filter, IsDue, IsKept, UniqueIds;
    assert [] + Filter(IsDue(job), rows) == Filter(IsDue(job), rows);
  }

  lemma {:induction false} LiveRunKeeps(job: Job, rows: seq<Record>, n: nat)
    requires !job.dryRun && UniqueIds(rows)
    ensures LiveInvariant(job, rows, Turns(job, Start(rows), n))
    decreases n
  {
    hide LiveInvariant, Turn, Turns, UniqueIds;
    if n == 0 {
      LiveStart(job, rows);
    } else {
      LiveRunKeeps(job, rows, n - 1);
      TurnsLast(job, Start(rows), n - 1);
      LiveTurnKeeps(job, rows, Turns(job, Start(rows), n - 1));
    }
  }

  /**
   * A live run that has ended leaves the original table without its due records, in the same order;
   * it has archived each of them once, in order, and its counts say so.
   */
  lemma {:induction false} LiveRunIsExact(job: Job, rows: seq<Record>, n: nat)
    requires !job.dryRun && 0 < job.size && UniqueIds(rows)
    requires Turns(job, Start(rows), n).done
    ensures var end := Turns(job, Start(rows), n);
      var due := Filter(IsDue(job), rows);
      && end.rows == Filter(IsKept(job), rows)
      && end.report.deleted == end.report.examined - end.report.held == |due|
      && Concat(end.archive) == (if job.rule.archiveEnabled then due else [])
      && end.report.archived == (if job.rule.archiveEnabled then |due| else 0)
      && end.report.shredded == (if job.rule.secureDelete then |due| else 0)
  {
    LiveRunKeeps(job, rows, n);
    var end := Turns(job, Start(rows), n);
    forall r | r in end.rows ensures IsKept(job)(r) {
      if Due(job, r) {
        FilterIn(IsDue(job), end.rows, r);
      }
    }
    FilterAll(IsKept(job), end.rows);
  }

  // ---------------------------------------------------------------------------------------------
  // Termination
  // ---------------------------------------------------------------------------------------------

  lemma {:induction false} HeldStays(job: Job, rows: seq<Record>, left: seq<Record>)
    requires Filter(IsKept(job), left) == Filter(IsKept(job), rows)
    ensures HeldCount(job, left) == HeldCount(job, rows)
  {
    FilterTwice(IsExpiredHeld(job), IsKept(job), IsExpiredHeld(job), rows);
    FilterTwice(IsExpiredHeld(job), IsKept(job), IsExpiredHeld(job), left);
  }

  lemma {:induction false} TurnShrinks(job: Job, s: Progress)
    requires !job.dryRun && !s.done && s.skip == 0 && UniqueIds(s.rows)
    ensures HeldCount(job, s.rows) < job.size ==>
              Turn(job, s).done || |Filter(IsDue(job), Turn(job, s).rows)| < |Filter(IsDue(job), s.rows)|
    ensures 0 < job.size <= HeldCount(job, s.rows) ==> !Turn(job, s).done
  {
    LiveTurn(job, s);
    HeldOnPage(job, s.rows, 0);
    PageSplits(job, Page(job, s.rows, 0));
    hide Filter, IsDue, IsFree, IsHeld, IsExpired, HeldCount, UniqueIds;
  }

  /** With fewer held records than fit on a page, every turn that does not end the run deletes one at least. */
  lemma {:induction false} LiveProgress(job: Job, rows: seq<Record>, n: nat)
    requires !job.dryRun && UniqueIds(rows) && HeldCount(job, rows) < job.size
    ensures var s := Turns(job, Start(rows), n);
      s.done || |Filter(IsDue(job), s.rows)| + n <= |Filter(IsDue(job), rows)|
    decreases n
  {
    hide Turns, Turn, IsDue, UniqueIds, HeldCount, Filter;
    if n == 0 {
      TurnsNone(job, Start(rows));
    } else {
      LiveProgress(job, rows, n - 1);
      TurnsLast(job, Start(rows), n - 1);
      var s := Turns(job, Start(rows), n - 1);
      StillUnique(job, rows, n - 1);
      TurnIdle(job, s);
      if !s.done {
        TurnShrinks(job, s);
      }
    }
  }

  lemma {:induction false} StillUnique(job: Job, rows: seq<Record>, n: nat)
    requires !job.dryRun && UniqueIds(rows)
    ensures var s := Turns(job, Start(rows), n);
      s.skip == 0 && UniqueIds(s.rows) && HeldCount(job, s.rows) == HeldCount(job, rows)
  {
    hide Turns, HeldCount;
    LiveRunKeeps(job, rows, n);
    HeldStays(job, rows, Turns(job, Start(rows), n).rows);
  }

  /** With a page full of held records, or more, no turn ends the run. */
  lemma {:induction false} LiveForever(job: Job, rows: seq<Record>, n: nat)
    requires !job.dryRun && UniqueIds(rows) && 0 < job.size <= HeldCount(job, rows)
    ensures !Turns(job, Start(rows), n).done
    decreases n
  {
    hide Turns, Turn, UniqueIds, HeldCount;
    if n == 0 {
      TurnsNone(job, Start(rows));
    } else {
      LiveForever(job, rows, n - 1);
      TurnsLast(job, Start(rows), n - 1);
      StillUnique(job, rows, n - 1);
      TurnShrinks(job, Turns(job, Start(rows), n - 1));
    }
  }

  /** A live run ends exactly when the expired records on hold do not fill a page. */
  lemma {:induction false} LiveRunEndsIff(job: Job, rows: seq<Record>)
    requires !job.dryRun && 0 < job.size && UniqueIds(rows)
    ensures (exists n: nat :: Turns(job, Start(rows), n).done) <==> HeldCount(job, rows) < job.size
  {
    if HeldCount(job, rows) < job.size {
      var n := |Filter(IsDue(job), rows)| + 1;
      LiveProgress(job, rows, n);
      assert Turns(job, Start(rows), n).done;
    } else {
      forall n: nat ensures !Turns(job, Start(rows), n).done {
        LiveForever(job, rows, n);
      }
    }
  }

  // ---------------------------------------------------------------------------------------------
  // The dry run
  // ---------------------------------------------------------------------------------------------

  ghost predicate DryInvariant(job: Job, rows: seq<Record>, s: Progress) {
    var matching := Filter(IsExpired(job), rows);
    && s.rows == rows && s.skip <= |matching| && s.report.deleted == 0
    && s.report.examined - s.report.held == |Filter(IsFree(job), matching[..s.skip])|
    && Concat(s.archive) == (if job.rule.archiveEnabled then Filter(IsFree(job), matching[..s.skip]) else [])
    && (s.done && 0 < job.size ==> s.skip == |matching|)
  }

  lemma {:induction false} DryTurnKeeps(job: Job, rows: seq<Record>, s: Progress)
    requires job.dryRun && DryInvariant(job, rows, s)
    ensures DryInvariant(job, rows, Turn(job, s))
    ensures !Turn(job, s).done ==> s.skip + job.size == Turn(job, s).skip
  {
    hide IsDue, IsFree, IsExpired, IsHeld, Filter, Concat;
    if !s.done {
      var matching := Filter(IsExpired(job), rows);
      var page := Page(job, rows, s.skip);
      assert matching[..s.skip] + page == matching[..s.skip + |page|];
      FilterConcat(IsFree(job), matching[..s.skip], page);
      TurnReports(job, s);
    }
  }

  lemma {:induction false} DryStart(job: Job, rows: seq<Record>)
    ensures Turns(job, Start(rows), 0).skip == 0 && DryInvariant(job, rows, Turns(job, Start(rows), 0))
  {
    assert Filter(IsExpired(job), rows)[..0] == [];
    FilterEmpty(IsFree(job));
  }

  lemma {:induction false} DryRunKeeps(job: Job, rows: seq<Record>, n: nat)
    requires job.dryRun && 0 < job.size
    ensures var s := Turns(job, Start(rows), n);
      DryInvariant(job, rows, s) && (s.done || n <= s.skip)
    decreases n
  {
    hide Turn, Turns, DryInvariant;
    if n == 0 {
      DryStart(job, rows);
    } else {
      DryRunKeeps(job, rows, n - 1);
      TurnsLast(job, Start(rows), n - 1);
      TurnIdle(job, Turns(job, Start(rows), n - 1));
      DryTurnKeeps(job, rows, Turns(job, Start(rows), n - 1));
    }
  }

  /**
   * A dry run always ends, deletes nothing, and counts as eligible exactly the records a live run
   * deletes; with archiving on it still archives every one of them.
   */
  lemma {:induction false} DryRunForecasts(job: Job, rows: seq<Record>) returns (n: nat)
    requires job.dryRun && 0 < job.size
    ensures var end := Turns(job, Start(rows), n);
      var due := Filter(IsDue(job), rows);
      && end.done && end.rows == rows && end.report.deleted == 0
      && end.report.examined - end.report.held == |due|
      && Concat(end.archive) == (if job.rule.archiveEnabled then due else [])
  {
    var matching := Filter(IsExpired(job), rows);
    n := |matching| + 1;
    DryRunKeeps(job, rows, n);
    assert matching[..|matching|] == matching;
    FilterTwice(IsFree(job), IsExpired(job), IsDue(job), rows);
  }

  /** A dry run and a live run that ended, on the same table, agree on what is eligible. */
  lemma {:induction false} DryRunAgreesWithLive(dry: Job, live: Job, rows: seq<Record>, n: nat) returns (m: nat)
    requires dry.dryRun && live == dry.(dryRun := false) && 0 < dry.size && UniqueIds(rows)
    requires Turns(live, Start(rows), n).done
    ensures var l, d := Turns(live, Start(rows), n), Turns(dry, Start(rows), m);
      && d.done && d.report.examined - d.report.held == l.report.deleted
      && Concat(d.archive) == Concat(l.archive)
  {
    m := DryRunForecasts(dry, rows);
    LiveRunIsExact(live, rows, n);
    FilterAgree(IsDue(dry), IsDue(live), rows);
  }
}
