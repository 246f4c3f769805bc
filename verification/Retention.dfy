/** The retention loop: pages of expired records are archived and deleted unless held. */
module Retention {
  import opened Common
  import opened Filtering

  datatype Record = Record(id: int, time: int, tenant: int)

  /** A legal hold on one record of the rule's data type. */
  datatype Hold = Hold(referenceId: int, isActive: bool, expiresAt: Option<int>)

  datatype Rule = Rule(cutoff: int, tenant: Option<int>, archiveEnabled: bool, secureDelete: bool)

  /** What stays fixed during a run: the rule, the holds, the clock, the page size, and the mode. */
  datatype Job = Job(rule: Rule, holds: seq<Hold>, now: int, size: nat, dryRun: bool)

  datatype Report = Report(examined: nat, held: nat, archived: nat, deleted: nat, shredded: nat)

  /** The rows in the order the query lists them, the batches archived so far, and where the loop stands. */
  datatype Progress = Progress(rows: seq<Record>, archive: seq<seq<Record>>, skip: nat, report: Report, done: bool)

  predicate Expired(job: Job, r: Record) {
    r.time < job.rule.cutoff && (job.rule.tenant.None? || job.rule.tenant.value == r.tenant)
  }

  predicate Held(job: Job, r: Record) {
    exists h <- job.holds :: h.referenceId == r.id && h.isActive && (h.expiresAt.None? || h.expiresAt.value > job.now)
  }

  predicate Due(job: Job, r: Record) { Expired(job, r) && !Held(job, r) }

  function IsExpired(job: Job): Record -> bool { (r: Record) => Expired(job, r) }

  function IsHeld(job: Job): Record -> bool { (r: Record) => Held(job, r) }

  function IsFree(job: Job): Record -> bool { (r: Record) => !Held(job, r) }

  function IsDue(job: Job): Record -> bool { (r: Record) => Due(job, r) }

  function IsKept(job: Job): Record -> bool { (r: Record) => !Due(job, r) }

  function IsExpiredHeld(job: Job): Record -> bool { (r: Record) => Expired(job, r) && Held(job, r) }

  predicate UniqueIds(rows: seq<Record>) {
    forall i, j | 0 <= i < j < |rows| :: rows[i].id != rows[j].id
  }

  function Page(job: Job, rows: seq<Record>, skip: nat): (page: seq<Record>)
    ensures |page| <= job.size
  {
    var matching := Filter(IsExpired(job), rows);
    var from := Min(skip, |matching|);
    matching[from..Min(from + job.size, |matching|)]
  }

  function Ids(records: seq<Record>): set<int> { set r | r in records :: r.id }

  function NotIn(ids: set<int>): Record -> bool { (r: Record) => r.id !in ids }

  function Start(rows: seq<Record>): Progress {
    Progress(rows, [], 0, Report(0, 0, 0, 0, 0), false)
  }

  /** One turn of the loop. */
  function Turn(job: Job, s: Progress): Progress {
    var page := Page(job, s.rows, s.skip);
    if s.done then s
    else if page == [] then s.(done := true)
    else
      var free := Filter(IsFree(job), page);
      var archives := job.rule.archiveEnabled && free != [];
      var rows := if job.dryRun then s.rows else Filter(NotIn(Ids(free)), s.rows);
      Progress(
        rows,
        if archives then s.archive + [free] else s.archive,
        if job.dryRun then s.skip + |page| else s.skip,
        Report(
          s.report.examined + |page|,
          s.report.held + |Filter(IsHeld(job), page)|,
          s.report.archived + (if archives then |free| else 0),
          s.report.deleted + (|s.rows| - |rows|),
          s.report.shredded + (if job.rule.secureDelete then |free| else 0)),
        |page| < job.size)
  }

  function Turns(job: Job, s: Progress, n: nat): Progress
    decreases n
  {
    if n == 0 then s else Turns(job, Turn(job, s), n - 1)
  }

  lemma {:induction false} TurnsLast(job: Job, s: Progress, n: nat)
    ensures Turns(job, s, n + 1) == Turn(job, Turns(job, s, n))
    decreases n
  {
    hide Turn;
    if n > 0 {
      TurnsLast(job, Turn(job, s), n - 1);
    }
  }

  lemma {:induction false} DoneStays(job: Job, s: Progress, n: nat)
    requires s.done
    ensures Turns(job, s, n) == s
    decreases n
  {
    if n > 0 {
      TurnIdle(job, s);
      DoneStays(job, s, n - 1);
    }
  }

  /** The table a rule works on, and the archive. */
  class RetentionTable {
    var rows: seq<Record>
    var archive: seq<seq<Record>>

    constructor (rows: seq<Record>)
      ensures this.rows == rows && this.archive == []
    {
      this.rows, this.archive := rows, [];
    }

    method DeleteByIds(ids: set<int>) returns (count: nat)
      modifies this`rows
      ensures rows == Filter(NotIn(ids), old(rows)) && count == |old(rows)| - |rows|
    {
      var before := |rows|;
      rows := Filter(NotIn(ids), rows);
      count := before - |rows|;
    }

    /**
     * Runs the loop for at most `turns` turns; `done` tells whether it left by itself. The loop has
     * no bound of its own, so the result is stated for every bound.
     */
    method ExecuteRetentionLoop(job: Job, turns: nat) returns (done: bool, report: Report)
      modifies this
      ensures var end := Turns(job, Start(old(rows)), turns);
        rows == end.rows && archive == old(archive) + end.archive && report == end.report && done == end.done
    {
      hide Turns, Page, Filter;
      var examined: nat, held: nat, archived: nat, deleted: nat, shredded: nat := 0, 0, 0, 0, 0;
      var skip: nat := 0;
      var n := 0;
      done := false;
      ghost var start := Start(rows);
      ghost var batches: seq<seq<Record>> := [];
      TurnsNone(job, start);
      while n < turns && !done
        invariant n <= turns && archive == old(archive) + batches
        invariant Turns(job, start, n)
               == Progress(rows, batches, skip, Report(examined, held, archived, deleted, shredded), done)
      {
        TurnsLast(job, start, n);
        n := n + 1;
        var records := Page(job, rows, skip);
        if |records| == 0 {
          done := true;
        } else {
          examined := examined + |records|;
          held := held + |Filter(IsHeld(job), records)|;
          var free := Filter(IsFree(job), records);
          var ids := Ids(free);
          if job.rule.archiveEnabled && |free| > 0 {
            archive := archive + [free];
            batches := batches + [free];
            archived := archived + |free|;
          }
          if job.rule.secureDelete && |free| > 0 {
            shredded := shredded + |free|;
          }
          if !job.dryRun {
            if |free| > 0 {
              var count := DeleteByIds(ids);
              deleted := deleted + count;
            } else {
              NothingToDelete(rows);
            }
          }
          if job.dryRun {
            skip := skip + |records|;
          }
          if |records| < job.size {
            done := true;
          }
        }
      }
      RestIdle(job, start, n, turns);
      report := Report(examined, held, archived, deleted, shredded);
    }
  }

  lemma {:induction false} TurnsNone(job: Job, s: Progress)
    ensures Turns(job, s, 0) == s
  {
  }

  lemma {:induction false} NothingToDelete(rows: seq<Record>)
    ensures Filter(NotIn(Ids([])), rows) == rows
  {
    FilterAll(NotIn(Ids([])), rows);
  }

  lemma {:induction false} TurnIdle(job: Job, s: Progress)
    ensures s.done ==> Turn(job, s) == s
  {
  }

  lemma {:induction false} RestIdle(job: Job, s: Progress, n: nat, turns: nat)
    requires n <= turns && (n == turns || Turns(job, s, n).done)
    ensures Turns(job, s, turns) == Turns(job, s, n)
    decreases turns
  {
    hide Turn, Turns;
    if n < turns {
      TurnIdle(job, Turns(job, s, n));
      RestIdle(job, s, n, turns - 1);
      TurnsLast(job, s, turns - 1);
    }
  }
}
