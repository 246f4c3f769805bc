/** What the fields of records, rules and legal holds mean for who survives a retention run. */
module RetentionHolds {
  import opened Common
  import opened Filtering
  import opened Retention
  import opened RetentionRuns

  /** An active hold on this record that has no end, or one still to come. */
  predicate Protects(h: Hold, r: Record, now: int) {
    h.referenceId == r.id && h.isActive && match h.expiresAt case None => true case Some(end) => now < end
  }

  /** A hold on another record, lifted, or past its end. */
  predicate Lapsed(h: Hold, r: Record, now: int) {
    h.referenceId != r.id || !h.isActive || (h.expiresAt.Some? && h.expiresAt.value <= now)
  }

  predicate OldEnough(rule: Rule, r: Record) {
    r.time < rule.cutoff && match rule.tenant case None => true case Some(tenant) => r.tenant == tenant
  }

  lemma {:induction false} KeptStays(job: Job, rows: seq<Record>, n: nat, r: Record)
    requires UniqueIds(rows) && r in rows && !Due(job, r)
    ensures r in Turns(job, Start(rows), n).rows
  {
    if job.dryRun {
      DryRowsStay(job, Start(rows), n);
    } else {
      LiveRunKeeps(job, rows, n);
      var end := Turns(job, Start(rows), n);
      FilterIn(IsKept(job), rows, r);
      FilterMembers(IsKept(job), end.rows);
    }
  }

  lemma {:induction false} DryRowsStay(job: Job, s: Progress, n: nat)
    requires job.dryRun
    ensures Turns(job, s, n).rows == s.rows
    decreases n
  {
    if n > 0 {
      DryRowsStay(job, Turn(job, s), n - 1);
    }
  }

  /** Under a hold that is active and not over, a record is in the table after any number of turns. */
  lemma {:induction false} HoldProtects(job: Job, rows: seq<Record>, n: nat, r: Record, h: Hold)
    requires UniqueIds(rows) && r in rows
    requires h in job.holds && Protects(h, r, job.now)
    ensures r in Turns(job, Start(rows), n).rows
  {
    KeptStays(job, rows, n, r);
  }

  /** So is a record that is too recent, or of another tenant than the rule's. */
  lemma {:induction false} RecentStays(job: Job, rows: seq<Record>, n: nat, r: Record)
    requires UniqueIds(rows) && r in rows && !OldEnough(job.rule, r)
    ensures r in Turns(job, Start(rows), n).rows
  {
    KeptStays(job, rows, n, r);
  }

  /**
   * A live run that has ended has deleted a record exactly if it is old enough and every hold on it
   * is lifted or over.
   */
  lemma {:induction false} DeletedIff(job: Job, rows: seq<Record>, n: nat, r: Record)
    requires !job.dryRun && 0 < job.size && UniqueIds(rows) && r in rows
    requires Turns(job, Start(rows), n).done
    ensures r !in Turns(job, Start(rows), n).rows
       <==> OldEnough(job.rule, r) && forall h <- job.holds :: Lapsed(h, r, job.now)
  {
    LiveRunIsExact(job, rows, n);
    FilterMembers(IsKept(job), rows);
    if !Due(job, r) {
      FilterIn(IsKept(job), rows, r);
    }
    assert OldEnough(job.rule, r) <==> Expired(job, r);
    assert forall h <- job.holds :: Lapsed(h, r, job.now) <==> !Protects(h, r, job.now);
    assert Held(job, r) <==> exists h <- job.holds :: Protects(h, r, job.now);
  }

  /** `g` holds at least as long as `h`. */
  predicate Outlasts(g: Hold, h: Hold) {
    && g.referenceId == h.referenceId && (h.isActive ==> g.isActive)
    && (g.expiresAt.Some? ==> h.expiresAt.Some? && h.expiresAt.value <= g.expiresAt.value)
  }

  /** Adding holds, lengthening them or making them active never deletes more, at any point of the other run. */
  lemma {:induction false} MoreHoldsDeleteLess(
      job: Job, other: Job, rows: seq<Record>, n: nat, m: nat, r: Record)
    requires UniqueIds(rows) && r in rows && !job.dryRun && 0 < job.size
    requires other == job.(holds := other.holds)
    requires forall h <- job.holds :: exists g <- other.holds :: Outlasts(g, h)
    requires Turns(job, Start(rows), n).done && r in Turns(job, Start(rows), n).rows
    ensures r in Turns(other, Start(rows), m).rows
  {
    DeletedIff(job, rows, n, r);
    if OldEnough(job.rule, r) {
      var h :| h in job.holds && !Lapsed(h, r, job.now);
      var g :| g in other.holds && Outlasts(g, h);
      HoldProtects(other, rows, m, r, g);
    } else {
      RecentStays(other, rows, m, r);
    }
  }
}
