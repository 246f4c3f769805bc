/** Which way a circuit moves on each event, whom it admits, and what its totals count. */
module BreakerMoves {
  import opened Common
  import opened Breaker
  import opened BreakerRuns

  /** The event is a success that reaches the threshold. */
  predicate Recovers(c: Circuit, e: Event) {
    e.FinishOk? && c.consecutiveSuccesses + 1 >= c.config.halfOpenSuccessThreshold
  }

  predicate ForcedTo(e: Event, mode: Override) { e.Force? && e.mode == mode }

  /**
   * From HALF_OPEN a circuit closes exactly on the success that reaches the threshold, a forced close
   * or a reset, and opens exactly on a failure or a forced opening, its timeout running from then.
   */
  lemma {:induction false} HalfOpenOutcome(w: World, e: Event)
    requires Core(w) && Possible(w, e) && w.c.state == HALF_OPEN
    ensures var d := Step(w, e).c;
      && (d.state == CLOSED <==> Recovers(w.c, e) || ForcedTo(e, FORCE_CLOSED) || e.ResetAll?)
      && (d.state == OPEN <==> e.FinishBad? || ForcedTo(e, FORCE_OPEN))
      && (d.state == OPEN ==> d.openedAt == Some(e.now))
      && (d.state == HALF_OPEN ==>
            && d.openedAt == w.c.openedAt
            && d.consecutiveSuccesses == w.c.consecutiveSuccesses + (if e.FinishOk? then 1 else 0))
  {
    hide Since;
  }

  /**
   * From OPEN a circuit closes exactly on a forced close or a reset, and lets a probe through exactly
   * on a call under automatic control once the timeout has passed since it opened.
   */
  lemma {:induction false} OpenOutcome(w: World, e: Event)
    requires Core(w) && Possible(w, e) && w.c.state == OPEN
    ensures var d := Step(w, e).c;
      && (d.state == CLOSED <==> ForcedTo(e, FORCE_CLOSED) || e.ResetAll?)
      && (d.state == HALF_OPEN <==>
            e.Begin? && w.c.override == AUTO && w.c.openedAt.value + w.c.config.openTimeoutMs <= e.now)
      && (d.state == OPEN ==> d.openedAt == w.c.openedAt)
      && (d.state == HALF_OPEN ==> Admitted(w.c, e) && d.inFlight == 1 && d.consecutiveSuccesses == 0)
  {
    hide Since;
  }

  /** From CLOSED it never goes half-open, and opens only on a failure or a forced opening, from then. */
  lemma {:induction false} ClosedOutcome(w: World, e: Event)
    requires Core(w) && Possible(w, e) && w.c.state == CLOSED
    ensures var d := Step(w, e).c;
      && d.state != HALF_OPEN
      && (ForcedTo(e, FORCE_OPEN) ==> d.state == OPEN)
      && (d.state == OPEN ==> (e.FinishBad? || ForcedTo(e, FORCE_OPEN)) && d.openedAt == Some(e.now))
  {
    hide Since;
  }

  /**
   * A call is let through exactly if the circuit is forced closed or, under automatic control, is
   * CLOSED, is OPEN past its timeout, or is HALF_OPEN with fewer probes counted than it allows.
   */
  lemma {:induction false} AdmittedIff(w: World, e: Event)
    requires Core(w) && Possible(w, e) && e.Begin?
    ensures Admitted(w.c, e) <==>
      || w.c.override == FORCE_CLOSED
      || (w.c.override == AUTO
          && match w.c.state
             case CLOSED => true
             case OPEN => w.c.openedAt.value + w.c.config.openTimeoutMs <= e.now
             case HALF_OPEN => w.c.inFlight < w.c.allowedCalls)
  {
  }

  /** An override is in force until the next one or a reset. */
  lemma {:induction false} OverrideOutcome(w: World, e: Event)
    ensures Step(w, e).c.override == if e.Force? then e.mode else if e.ResetAll? then AUTO else w.c.override
  {
    hide Since;
  }

  // ---------------------------------------------------------------------------------------------
  // Configuration
  // ---------------------------------------------------------------------------------------------

  /** Of a passed number the larger of it and the bound is taken; what is not passed stays. */
  predicate Takes(low: int, base: int, p: Option<int>, r: int) {
    match p
    case None => low <= base ==> r == base
    case Some(v) => (v >= low ==> r == v) && (v < low ==> r == low)
  }

  lemma {:induction false} MergeTakes(base: Config, p: PartialConfig)
    ensures var r := MergeConfig(base, p);
      && Takes(1, base.failureThreshold, p.failureThreshold, r.failureThreshold)
      && Takes(1000, base.failureWindowMs, p.failureWindowMs, r.failureWindowMs)
      && Takes(1000, base.openTimeoutMs, p.openTimeoutMs, r.openTimeoutMs)
      && Takes(1, base.halfOpenMaxCalls, p.halfOpenMaxCalls, r.halfOpenMaxCalls)
      && Takes(1, base.halfOpenSuccessThreshold, p.halfOpenSuccessThreshold, r.halfOpenSuccessThreshold)
  {
  }

  lemma {:induction false} FixedNeverWidens(w: World, es: seq<Event>)
    requires FixedConfig(es)
    ensures NeverWidens(w, es)
    decreases |es|
  {
    hide Step;
    if es != [] {
      assert es[0] in es;
      assert FixedConfig(es[1..]) by {
        forall e | e in es[1..] ensures e in es {}
      }
      FixedNeverWidens(Step(w, es[0]), es[1..]);
    }
  }

  /**
   * In every run of a circuit that nobody configures: a failure trips it while CLOSED exactly if it is
   * at least the fifth within ten seconds, and a call probes it while OPEN exactly from thirty seconds on.
   */
  lemma {:induction false} UnconfiguredCircuit(t0: int, es: seq<Event>, w: World, e: Event)
    requires Run(Start(MergeConfig(DEFAULT_CONFIG, PartialConfig(None, None, None, None, None)), t0), es, w)
    requires FixedConfig(es) && Possible(w, e)
    ensures w.c.state == CLOSED && e.FinishBad? ==>
              (Step(w, e).c.state == OPEN <==> |Since(w.log + [e.now], e.now - 10000)| >= 5)
    ensures w.c.state == OPEN && w.c.override == AUTO && e.Begin? && w.c.openedAt.Some? ==>
              (Step(w, e).c.state == HALF_OPEN <==> w.c.openedAt.value + 30000 <= e.now)
    ensures w.c.state == HALF_OPEN ==> w.c.allowedCalls == Min(10, 1 + w.c.consecutiveSuccesses)
    ensures w.c.state == HALF_OPEN && e.FinishOk? ==>
              (Step(w, e).c.state == CLOSED <==> w.c.consecutiveSuccesses >= 2)
  {
    hide Since, Run, FixedConfig, Step, NeverWidens;
    var config := MergeConfig(DEFAULT_CONFIG, PartialConfig(None, None, None, None, None));
    ReachableCircuitIsCapped(config, t0, es, w);
    if w.c.state == CLOSED && e.FinishBad? {
      FixedNeverWidens(Start(config, t0), es);
      TripsExactlyOnFullHistory(config, t0, es, w, e);
    } else if w.c.state == OPEN {
      OpenOutcome(w, e);
    } else if w.c.state == HALF_OPEN {
      HalfOpenOutcome(w, e);
    }
  }

  // ---------------------------------------------------------------------------------------------
  // Totals
  // ---------------------------------------------------------------------------------------------

  datatype Tally = Tally(requests: int, successes: int, failures: int, rejected: int, fallbacks: int)

  function One(b: bool): int { if b then 1 else 0 }

  /** What an observer adds up for one event. */
  function Counted(t: Tally, c: Circuit, e: Event): Tally {
    var refused := e.Begin? && !Admitted(c, e);
    Tally(t.requests + One(e.Begin?), t.successes + One(e.FinishOk?), t.failures + One(e.FinishBad?),
          t.rejected + One(refused), t.fallbacks + One((refused || e.FinishBad?) && e.hasFallback))
  }

  function CountAll(t: Tally, w: World, es: seq<Event>): Tally
    decreases |es|
  {
    if es == [] then t else CountAll(Counted(t, w.c, es[0]), Step(w, es[0]), es[1..])
  }

  function Totals(c: Circuit): Tally {
    Tally(c.totalRequests, c.totalSuccesses, c.totalFailures, c.totalRejected, c.totalFallbacks)
  }

  lemma {:induction false} StepCounts(w: World, e: Event)
    ensures Totals(Step(w, e).c) == Counted(Totals(w.c), w.c, e)
    ensures Step(w, e).c.lastFailureAt == if e.FinishBad? then Some(e.now) else if e.ResetAll? then None else w.c.lastFailureAt
    ensures Step(w, e).c.transitions
         == w.c.transitions + One(e.ResetAll? || Step(w, e).c.state != w.c.state)
  {
    hide Since;
  }

  /**
   * In every run the totals are what an observer counts: calls, successes, failures, refusals, and
   * the fallbacks of refused and failed calls; resets and reconfigurations leave them alone.
   */
  lemma {:induction false} EveryRunCounts(w: World, es: seq<Event>, last: World)
    requires Run(w, es, last)
    ensures Totals(last.c) == CountAll(Totals(w.c), w, es)
    decreases |es|
  {
    hide Step, Counted, Totals, Possible;
    if es != [] {
      StepCounts(w, es[0]);
      EveryRunCounts(Step(w, es[0]), es[1..], last);
    }
  }

  /** For a new circuit, that is everything since it was made. */
  lemma {:induction false} NewCircuitCounts(config: Config, t0: int, es: seq<Event>, last: World)
    requires Run(Start(config, t0), es, last)
    ensures Totals(last.c) == CountAll(Tally(0, 0, 0, 0, 0), Start(config, t0), es)
    ensures Start(config, t0).c.transitions == 0 && Start(config, t0).c.state == CLOSED
  {
    hide Run, CountAll;
    EveryRunCounts(Start(config, t0), es, last);
  }
}
