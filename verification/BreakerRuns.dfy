/** Runs of one circuit: any number of overlapping calls, overrides, resets and reconfigurations. */
module BreakerRuns {
  import opened Common
  import opened Breaker

  datatype Event =
    | Begin(id: nat, now: int, hasFallback: bool)
    | FinishOk(id: nat, now: int)
    | FinishBad(id: nat, now: int, hasFallback: bool)
    | Force(mode: Override, now: int)
    | ResetAll(now: int)
    | Configure(partial: PartialConfig, now: int)

  /**
   * The circuit together with what an outside observer records: the clock, the running calls (each
   * with the transition count at its admission), every failure seen while CLOSED since the circuit
   * last closed, and the latest window start by which the runtime has dropped failures.
   */
  datatype World = World(c: Circuit, now: int, running: map<nat, int>, log: seq<int>, cut: int)

  function Start(config: Config, now: int): World {
    World(Fresh(config), now, map[], [], now - config.failureWindowMs)
  }

  predicate Possible(w: World, e: Event) {
    && w.now <= e.now
    && match e
       case Begin(id, _, _) => id !in w.running
       case FinishOk(id, _) => id in w.running
       case FinishBad(id, _, _) => id in w.running
       case _ => true
  }

  function NextCircuit(c: Circuit, e: Event): Circuit {
    match e
    case Begin(_, now, fb) => BeginCall(c, now, fb).0
    case FinishOk(_, now) => Succeed(c, now)
    case FinishBad(_, now, fb) => Fail(c, now, fb)
    case Force(mode, now) => SetOverride(c, mode, now)
    case ResetAll(_) => Reset(c)
    case Configure(p, _) => c.(config := MergeConfig(c.config, p))
  }

  predicate Admitted(c: Circuit, e: Event) {
    e.Begin? && BeginCall(c, e.now, e.hasFallback).1
  }

  predicate Finish(e: Event) { e.FinishOk? || e.FinishBad? }

  /** The failures an observer of the whole history counts: those since the circuit last closed. */
  function NextLog(w: World, e: Event): seq<int> {
    var d := NextCircuit(w.c, e);
    if d.state == CLOSED && (w.c.state != CLOSED || e.ResetAll?) then []
    else if e.FinishBad? && w.c.state == CLOSED then w.log + [e.now]
    else w.log
  }

  predicate Trims(c: Circuit, e: Event) { e.FinishOk? || (e.FinishBad? && c.state == CLOSED) }

  function Step(w: World, e: Event): World {
    var d := NextCircuit(w.c, e);
    World(d, e.now,
          NextRunning(w.running, e, Admitted(w.c, e), d.transitions),
          NextLog(w, e),
          if Trims(w.c, e) then Max(w.cut, e.now - w.c.config.failureWindowMs) else w.cut)
  }

  predicate Run(w: World, es: seq<Event>, last: World)
    decreases |es|
  {
    if es == [] then last == w
    else Possible(w, es[0]) && Run(Step(w, es[0]), es[1..], last)
  }

  predicate FixedConfig(es: seq<Event>) { forall e <- es :: !e.Configure? }

  // ---------------------------------------------------------------------------------------------
  // What every step keeps
  // ---------------------------------------------------------------------------------------------

  /** The calls admitted since transition number `t`. */
  function AdmittedSince(running: map<nat, int>, t: int): set<nat> {
    set id | id in running && running[id] == t
  }

  /** While HALF_OPEN, exactly the running probes. */
  function Probes(w: World): set<nat> { AdmittedSince(w.running, w.c.transitions) }

  /** What a circuit by itself satisfies in every reachable state, even across reconfigurations. */
  predicate Consistent(c: Circuit, now: int) {
    && ValidConfig(c.config)
    && (c.state == HALF_OPEN ==> c.override == AUTO)
    && (c.openedAt == None <==> c.state == CLOSED)
    && (c.openedAt.Some? ==> c.openedAt.value <= now)
    && 0 <= c.inFlight
    && 0 <= c.consecutiveSuccesses
    && 1 <= c.allowedCalls <= 1 + c.consecutiveSuccesses
    && (c.state != HALF_OPEN ==> c.inFlight == c.consecutiveSuccesses == 0)
  }

  /** Requests still running according to the circuit's own totals. */
  function Outstanding(c: Circuit): int {
    c.totalRequests - c.totalRejected - c.totalSuccesses - c.totalFailures
  }

  predicate Core(w: World) {
    && Consistent(w.c, w.now)
    && Outstanding(w.c) == |w.running|
    && (forall id <- w.running :: w.running[id] <= w.c.transitions)
    && w.c.inFlight <= |Probes(w)|
  }

  /** The cap on concurrent probes. */
  predicate Capped(c: Circuit) {
    && c.allowedCalls == Min(c.config.halfOpenMaxCalls, 1 + c.consecutiveSuccesses)
    && c.inFlight <= c.allowedCalls
  }

  /** What one event does to the counters that the bookkeeping below depends on. */
  ghost predicate Moves(c: Circuit, e: Event, d: Circuit) {
    && (c.transitions == d.transitions ==> c.state == d.state)
    && d.transitions >= c.transitions
    && (!e.Configure? ==> d.config == c.config)
    && Outstanding(d) == Outstanding(c) + (if Admitted(c, e) then 1 else if Finish(e) then -1 else 0)
    && (c.transitions < d.transitions ==>
          d.inFlight == if d.state == HALF_OPEN && Admitted(c, e) then 1 else 0)
    && (c.transitions == d.transitions && d.state == HALF_OPEN ==>
          d.inFlight == if Admitted(c, e) then c.inFlight + 1
                        else if Finish(e) && c.inFlight > 0 then c.inFlight - 1
                        else c.inFlight)
  }

  lemma {:induction false} CircuitMoves(c: Circuit, e: Event, t: int)
    requires Consistent(c, t) && t <= e.now
    ensures Consistent(NextCircuit(c, e), e.now) && Moves(c, e, NextCircuit(c, e))
    ensures Capped(c) && !e.Configure? ==> Capped(NextCircuit(c, e))
  {
    hide Since;
  }

  function NextRunning(running: map<nat, int>, e: Event, admitted: bool, t: int): map<nat, int> {
    if admitted && e.Begin? then running[e.id := t]
    else if Finish(e) then running - {e.id}
    else running
  }

  /** How the number of running probes follows the calls. */
  lemma {:induction false} CountMoves(running: map<nat, int>, e: Event, admitted: bool, t: int, u: int)
    requires forall id <- running :: running[id] <= t
    requires t <= u
    requires e.Begin? ==> e.id !in running
    requires Finish(e) ==> e.id in running
    ensures var r := NextRunning(running, e, admitted, u);
            && (forall id <- r :: r[id] <= u)
            && |r| == |running| + (if e.Begin? && admitted then 1 else if Finish(e) then -1 else 0)
            && |AdmittedSince(r, u)| ==
               (if t == u then |AdmittedSince(running, t)| else 0)
               + (if e.Begin? && admitted then 1
                  else if Finish(e) && running[e.id] == u then -1 else 0)
  {
    var r := NextRunning(running, e, admitted, u);
    var before := AdmittedSince(running, u);
    assert t < u ==> before == {};
    if e.Begin? && admitted {
      assert AdmittedSince(r, u) == before + {e.id};
    } else if Finish(e) {
      assert AdmittedSince(r, u) == before - {e.id};
      assert r.Keys == running.Keys - {e.id};
    }
  }

  lemma {:induction false} StepKeepsCore(w: World, e: Event)
    requires Core(w) && Possible(w, e)
    ensures Core(Step(w, e)) && Step(w, e).now == e.now
    ensures !e.Configure? ==> Step(w, e).c.config == w.c.config
    ensures Capped(w.c) && !e.Configure? ==> Capped(Step(w, e).c)
  {
    CircuitMoves(w.c, e, w.now);
    CountMoves(w.running, e, Admitted(w.c, e), w.c.transitions, NextCircuit(w.c, e).transitions);
  }

  /** Every run, of any overlapping calls: counters, states and totals stay consistent. */
  lemma {:induction false} EveryRunKeepsCore(w: World, es: seq<Event>, last: World)
    requires Core(w) && Run(w, es, last)
    ensures Core(last)
    ensures Capped(w.c) && FixedConfig(es) ==> Capped(last.c) && last.c.config == w.c.config
    decreases |es|
  {
    if es != [] {
      StepKeepsCore(w, es[0]);
      EveryRunKeepsCore(Step(w, es[0]), es[1..], last);
      if FixedConfig(es) {
        assert FixedConfig(es[1..]) by { forall e | e in es[1..] ensures e in es {} }
        assert es[0] in es;
      }
    }
  }

  /** From a new circuit under one configuration, the probe cap is never exceeded. */
  lemma {:induction false} ReachableCircuitIsCapped(config: Config, t0: int, es: seq<Event>, last: World)
    requires ValidConfig(config) && Run(Start(config, t0), es, last) && FixedConfig(es)
    ensures Core(last) && Capped(last.c) && last.c.config == config
  {
    hide Run, Core, Capped;
    StartIsOk(config, t0);
    EveryRunKeepsCore(Start(config, t0), es, last);
  }

  /** Reconfiguring keeps the cap in force exactly when it leaves the cap's present value alone. */
  lemma {:induction false} ReconfiguringKeepsCapIff(w: World, e: Event)
    requires Core(w) && Capped(w.c) && Possible(w, e) && e.Configure?
    ensures Capped(Step(w, e).c) <==>
            Min(MergeConfig(w.c.config, e.partial).halfOpenMaxCalls, 1 + w.c.consecutiveSuccesses)
            == Min(w.c.config.halfOpenMaxCalls, 1 + w.c.consecutiveSuccesses)
  {
  }

  // ---------------------------------------------------------------------------------------------
  // Does inFlight count the probes that are really running?
  // ---------------------------------------------------------------------------------------------

  predicate Accurate(w: World) { w.c.state == HALF_OPEN ==> w.c.inFlight == |Probes(w)| }

  /** A call admitted before the present HALF_OPEN period succeeds inside it, below the success threshold. */
  predicate StaleRelease(w: World, e: Event) {
    && e.FinishOk? && e.id in w.running && w.running[e.id] != w.c.transitions
    && w.c.state == HALF_OPEN && w.c.inFlight > 0
    && w.c.consecutiveSuccesses + 1 < w.c.config.halfOpenSuccessThreshold
  }

  lemma {:induction false} AccurateAfterStepIff(w: World, e: Event)
    requires Core(w) && Accurate(w) && Possible(w, e)
    ensures Accurate(Step(w, e)) <==> !StaleRelease(w, e)
  {
    hide Since, NextLog;
    CircuitMoves(w.c, e, w.now);
    CountMoves(w.running, e, Admitted(w.c, e), w.c.transitions, NextCircuit(w.c, e).transitions);
  }

  predicate NoStaleRelease(w: World, es: seq<Event>)
    decreases |es|
  {
    es == [] || (!StaleRelease(w, es[0]) && NoStaleRelease(Step(w, es[0]), es[1..]))
  }

  /** Without such calls the counter is exact throughout, so the cap bounds the real probes too. */
  lemma {:induction false} ProbeCountIsExact(w: World, es: seq<Event>, last: World)
    requires Core(w) && Accurate(w) && Run(w, es, last) && NoStaleRelease(w, es)
    ensures Accurate(last)
    decreases |es|
  {
    if es != [] {
      StepKeepsCore(w, es[0]);
      AccurateAfterStepIff(w, es[0]);
      ProbeCountIsExact(Step(w, es[0]), es[1..], last);
    }
  }

  lemma {:induction false} SinceOne(t: int, low: int)
    ensures Since([t], low) == Since([] + [t], low) == if low <= t then [t] else []
    ensures [] + [t] == [t]
  {
    assert [] + [t] == [t];
    assert [t][..0] == [];
  }

  const TRIP_AT_ONCE := DEFAULT_CONFIG.(failureThreshold := 1)

  /** Two overlapping calls; one trips the circuit; after the timeout a probe; the other call ends; two more probes. */
  const STALE_RUN: seq<Event> := [
    Begin(0, 0, false), Begin(1, 0, false), FinishBad(0, 0, false), Begin(2, 30000, false), FinishOk(1, 30000),
    Begin(3, 30000, false), Begin(4, 30000, false)]

  /** The circuit after one of the two has tripped it at time 0. */
  function TrippedAtZero(): Circuit {
    Fresh(TRIP_AT_ONCE).(state := OPEN, openedAt := Some(0), lastFailureAt := Some(0), failureTimestamps := [0],
                         totalRequests := 2, totalFailures := 1, transitions := 1)
  }

  function Probing(): Circuit {
    TrippedAtZero().(state := HALF_OPEN, transitions := 2, totalRequests := 3, inFlight := 1)
  }

  /** The circuit when the other old call has ended well. */
  function AfterStaleFinish(): Circuit {
    Probing().(totalSuccesses := 1, consecutiveSuccesses := 1, allowedCalls := 2, inFlight := 0, failureTimestamps := [])
  }

  function Stage(i: nat): World
    requires i <= 7
  {
    match i
    case 0 => Start(TRIP_AT_ONCE, 0)
    case 1 => World(Fresh(TRIP_AT_ONCE).(totalRequests := 1), 0, map[0 := 0], [], -10000)
    case 2 => World(Fresh(TRIP_AT_ONCE).(totalRequests := 2), 0, map[0 := 0, 1 := 0], [], -10000)
    case 3 => World(TrippedAtZero(), 0, map[1 := 0], [0], -10000)
    case 4 => World(Probing(), 30000, map[1 := 0, 2 := 2], [0], -10000)
    case 5 => World(AfterStaleFinish(), 30000, map[2 := 2], [0], 20000)
    case 6 => World(AfterStaleFinish().(totalRequests := 4, inFlight := 1), 30000, map[2 := 2, 3 := 2], [0], 20000)
    case 7 => World(AfterStaleFinish().(totalRequests := 5, inFlight := 2), 30000, map[2 := 2, 3 := 2, 4 := 2], [0], 20000)
  }

  predicate Leads(i: nat)
    requires i < 7
  {
    Possible(Stage(i), STALE_RUN[i]) && Step(Stage(i), STALE_RUN[i]) == Stage(i + 1)
  }

  lemma {:induction false} TwoCallsTrip()
    ensures Leads(0) && Leads(1) && Leads(2)
  {
    hide Since;
    SinceOne(0, -10000);
    assert Step(Stage(0), STALE_RUN[0]).running == Stage(1).running;
    assert Step(Stage(1), STALE_RUN[1]).running == Stage(2).running;
    assert Step(Stage(2), STALE_RUN[2]).running == Stage(3).running;
  }

  lemma {:induction false} ProbeStarts()
    ensures Leads(3)
  {
    assert Step(Stage(3), STALE_RUN[3]).running == Stage(4).running;
  }

  /** While the first probe runs, the end of the old call takes its slot back. */
  lemma {:induction false} StaleFinishFreesSlot()
    ensures Leads(4) && STALE_RUN[4] == FinishOk(1, 30000) && Stage(4).running[1] < Stage(4).c.transitions
    ensures StaleRelease(Stage(4), STALE_RUN[4])
    ensures Probes(Stage(4)) == Probes(Stage(5)) == {2} && Stage(4).c.inFlight == 1 && Stage(5).c.inFlight == 0
  {
    hide Since;
    SinceOne(0, 20000);
    assert Step(Stage(4), STALE_RUN[4]).running == Stage(5).running;
  }

  lemma {:induction false} TwoMoreProbes()
    ensures Leads(5) && Leads(6)
  {
    assert Step(Stage(5), STALE_RUN[5]).running == Stage(6).running;
    assert Step(Stage(6), STALE_RUN[6]).running == Stage(7).running;
  }

  lemma {:induction false} FromStage(i: nat)
    requires i <= 7
    ensures Run(Stage(i), STALE_RUN[i..], Stage(7))
    decreases 7 - i
  {
    hide Stage, Step, Possible;
    if i < 7 {
      assert Leads(i) by {
        match i {
          case 0 => TwoCallsTrip();
          case 1 => TwoCallsTrip();
          case 2 => TwoCallsTrip();
          case 3 => ProbeStarts();
          case 4 => StaleFinishFreesSlot();
          case 5 => TwoMoreProbes();
          case 6 => TwoMoreProbes();
        }
      }
      FromStage(i + 1);
    }
  }

  lemma {:induction false} LastStage()
    ensures Probes(Stage(7)) == {2, 3, 4} && |{2, 3, 4}| == 3
    ensures var c := Stage(7).c; c.state == HALF_OPEN && c.inFlight == c.allowedCalls == 2
  {
  }

  /** In this run from a new circuit, three probes end up running at once under a cap of two. */
  lemma {:induction false} StaleFinishOverrunsCap()
    ensures Run(Start(TRIP_AT_ONCE, 0), STALE_RUN, Stage(7)) && FixedConfig(STALE_RUN)
    ensures var c := Stage(7).c; c.state == HALF_OPEN && c.inFlight == c.allowedCalls == 2
    ensures |Probes(Stage(7))| == 3
  {
    hide Run, Start;
    FromStage(0);
    assert Run(Stage(0), STALE_RUN, Stage(7)) by {
      assert STALE_RUN[0..] == STALE_RUN;
    }
    LastStage();
  }

  // ---------------------------------------------------------------------------------------------
  // The trimmed window agrees with the complete failure log
  // ---------------------------------------------------------------------------------------------

  lemma {:induction false} SinceAppend(ts: seq<int>, us: seq<int>, low: int)
    ensures Since(ts + us, low) == Since(ts, low) + Since(us, low)
    decreases |us|
  {
    if us == [] {
      assert ts + us == ts;
    } else {
      assert (ts + us)[..|ts + us| - 1] == ts + us[..|us| - 1];
      SinceAppend(ts, us[..|us| - 1], low);
    }
  }

  /** The runtime's list is the complete log without the entries that some past window excluded. */
  predicate Remembers(w: World) { w.c.failureTimestamps == Since(w.log, w.cut) && w.cut <= w.now }

  /** No past window began later than the present one. */
  predicate WindowOk(w: World) { Remembers(w) && w.cut <= w.now - w.c.config.failureWindowMs }

  /** A reconfiguration may change anything but must not enlarge the failure window. */
  predicate Widens(c: Circuit, e: Event) {
    e.Configure? && MergeConfig(c.config, e.partial).failureWindowMs > c.config.failureWindowMs
  }

  predicate NeverWidens(w: World, es: seq<Event>)
    decreases |es|
  {
    es == [] || (!Widens(w.c, es[0]) && NeverWidens(Step(w, es[0]), es[1..]))
  }

  lemma {:induction false} TimestampsMove(c: Circuit, e: Event)
    ensures var d := NextCircuit(c, e);
            var low := e.now - c.config.failureWindowMs;
            d.failureTimestamps ==
            if d.state == CLOSED && (c.state != CLOSED || e.ResetAll?) then []
            else if e.FinishOk? then Since(c.failureTimestamps, low)
            else if e.FinishBad? && c.state == CLOSED then Since(c.failureTimestamps + [e.now], low)
            else c.failureTimestamps
    ensures NextCircuit(c, e).config == if e.Configure? then MergeConfig(c.config, e.partial) else c.config
  {
  }

  lemma {:induction false} SinceEither(ts: seq<int>, a: int, b: int)
    ensures Since(Since(ts, a), b) == Since(ts, Max(a, b))
  {
    if ts != [] {
      var n := |ts| - 1;
      SinceEither(ts[..n], a, b);
      SinceAppend(Since(ts[..n], a), if a <= ts[n] then [ts[n]] else [], b);
    }
  }

  /** Forgetting before a new entry is forgetting after it. */
  lemma {:induction false} SinceWindow(log: seq<int>, cut: int, t: int, low: int)
    requires cut <= t && low <= t
    ensures Since(Since(log, cut) + [t], low) == Since(log + [t], Max(cut, low))
  {
    SinceEither(log, cut, low);
    SinceAppend(log, [t], Max(cut, low));
    SinceAppend(Since(log, cut), [t], low);
  }

  lemma {:induction false} SinceNothing(low: int)
    ensures Since([], low) == []
  {
  }

  lemma {:induction false} StepRemembers(w: World, e: Event)
    requires Core(w) && Remembers(w) && Possible(w, e)
    ensures Core(Step(w, e)) && Remembers(Step(w, e))
    ensures WindowOk(w) && !Widens(w.c, e) ==> WindowOk(Step(w, e))
  {
    hide Since, NextCircuit, NextRunning, Probes;
    var low := e.now - w.c.config.failureWindowMs;
    StepKeepsCore(w, e);
    TimestampsMove(w.c, e);
    SinceNothing(Step(w, e).cut);
    SinceEither(w.log, w.cut, low);
    SinceWindow(w.log, w.cut, e.now, low);
  }

  lemma {:induction false} StartIsOk(config: Config, t0: int)
    requires ValidConfig(config)
    ensures Core(Start(config, t0)) && WindowOk(Start(config, t0)) && Capped(Start(config, t0).c)
  {
    assert Probes(Start(config, t0)) == {};
  }

  /** The decision a failure makes in a CLOSED circuit. */
  lemma {:induction false} TripsOnThreshold(c: Circuit, e: Event)
    requires e.FinishBad? && c.state == CLOSED
    ensures var n := |Since(c.failureTimestamps + [e.now], e.now - c.config.failureWindowMs)|;
            NextCircuit(c, e).state == if n >= c.config.failureThreshold then OPEN else CLOSED
  {
  }

  lemma {:induction false} EveryRunRemembers(w: World, es: seq<Event>, last: World)
    requires Core(w) && Remembers(w) && Run(w, es, last)
    ensures Core(last) && Remembers(last)
    ensures WindowOk(w) && NeverWidens(w, es) ==> WindowOk(last)
    decreases |es|
  {
    hide Core, Remembers, WindowOk, Possible, Step, Widens;
    if es != [] {
      StepRemembers(w, es[0]);
      EveryRunRemembers(Step(w, es[0]), es[1..], last);
    }
  }

  /**
   * After any run at all, a failure trips a CLOSED circuit exactly when the complete log of failures
   * since it last closed has enough entries in the present window and in every window used before.
   */
  lemma {:induction false} TripsOnRememberedHistory(config: Config, t0: int, es: seq<Event>, w: World, e: Event)
    requires ValidConfig(config) && Run(Start(config, t0), es, w)
    requires Possible(w, e) && e.FinishBad? && w.c.state == CLOSED
    ensures Step(w, e).c.state in {OPEN, CLOSED}
    ensures Step(w, e).c.state == OPEN <==>
            |Since(w.log + [e.now], Max(w.cut, e.now - w.c.config.failureWindowMs))| >= w.c.config.failureThreshold
  {
    hide NextCircuit, Since, Run;
    StartIsOk(config, t0);
    EveryRunRemembers(Start(config, t0), es, w);
    TripsOnThreshold(w.c, e);
    SinceWindow(w.log, w.cut, e.now, e.now - w.c.config.failureWindowMs);
  }

  /**
   * After any run in which no reconfiguration widens the window, that is the sliding window over
   * the complete log.
   */
  lemma {:induction false} TripsExactlyOnFullHistory(config: Config, t0: int, es: seq<Event>, w: World, e: Event)
    requires ValidConfig(config) && Run(Start(config, t0), es, w) && NeverWidens(Start(config, t0), es)
    requires Possible(w, e) && e.FinishBad? && w.c.state == CLOSED
    ensures Step(w, e).c.state == OPEN <==>
            |Since(w.log + [e.now], e.now - w.c.config.failureWindowMs)| >= w.c.config.failureThreshold
  {
    hide NextCircuit, Since, Run, NeverWidens;
    StartIsOk(config, t0);
    EveryRunRemembers(Start(config, t0), es, w);
    TripsOnRememberedHistory(config, t0, es, w, e);
  }

  /**
   * Widening the window revives nothing: with a threshold of two, a failure at 0, a success at 2000
   * under a window of 1000, a window of 10000 from then on, and a second failure, the circuit stays
   * CLOSED although both failures are within the window.
   */
  lemma {:induction false} WideningWindowForgetsFailures(c: Circuit)
    requires c == Fresh(DEFAULT_CONFIG.(failureThreshold := 2, failureWindowMs := 1000))
    ensures var narrow := Succeed(Fail(c, 0, false), 2000);
            var wide := narrow.(config := MergeConfig(narrow.config, PartialConfig(None, Some(10000), None, None, None)));
            && wide.config.failureWindowMs == 10000 && wide.failureTimestamps == []
            && Fail(wide, 2000, false).state == CLOSED
            && |Since([0, 2000], 2000 - wide.config.failureWindowMs)| == wide.config.failureThreshold
  {
    hide Since;
    SinceOne(0, -1000);
    SinceOne(0, 1000);
    SinceOne(2000, -8000);
    SinceAppend([0], [2000], -8000);
    SinceOne(0, -8000);
    assert [0] + [2000] == [0, 2000];
  }

  // ---------------------------------------------------------------------------------------------
  // Lock-out and recovery
  // ---------------------------------------------------------------------------------------------

  predicate Quiet(es: seq<Event>, deadline: int) {
    forall e <- es :: e.now < deadline && !e.Force? && !e.ResetAll? && !e.Configure?
  }

  function Begins(es: seq<Event>): nat {
    if es == [] then 0 else (if es[0].Begin? then 1 else 0) + Begins(es[1..])
  }

  /** From a trip until the timeout has passed, every call is rejected, whatever else finishes. */
  lemma {:induction false} NothingAdmittedBeforeTimeout(w: World, es: seq<Event>, last: World)
    requires w.c.state == OPEN && w.c.override != FORCE_CLOSED && w.c.openedAt.Some?
    requires Run(w, es, last) && Quiet(es, w.c.openedAt.value + w.c.config.openTimeoutMs)
    ensures last.c.state == OPEN && last.c.openedAt == w.c.openedAt
    ensures last.c.totalRejected == w.c.totalRejected + Begins(es)
    ensures last.running.Keys <= w.running.Keys
    decreases |es|
  {
    if es != [] {
      assert es[0] in es;
      assert forall e | e in es[1..] :: e in es;
      NothingAdmittedBeforeTimeout(Step(w, es[0]), es[1..], last);
    }
  }

  /** `k` probes one after the other, each successful, at time `now`. */
  function Recover(c: Circuit, k: nat, now: int): Circuit {
    if k == 0 then c else Succeed(BeginCall(Recover(c, k - 1, now), now, false).0, now)
  }

  /**
   * After the timeout, successful probes are admitted one by one, and the circuit closes on the
   * probe that reaches the success threshold: not earlier, and with an empty failure list.
   */
  lemma {:induction false} ClosesOnThresholdProbe(c: Circuit, k: nat, now: int)
    requires ValidConfig(c.config) && c.state == OPEN && c.override == AUTO && TimeoutElapsed(c, now)
    requires 1 <= k <= c.config.halfOpenSuccessThreshold
    ensures BeginCall(Recover(c, k - 1, now), now, false).1
    ensures var r := Recover(c, k, now);
            && r.config == c.config && r.override == AUTO && r.inFlight == 0
            && (k < c.config.halfOpenSuccessThreshold ==>
                  r.state == HALF_OPEN && r.consecutiveSuccesses == k && 1 <= r.allowedCalls)
            && (k == c.config.halfOpenSuccessThreshold ==>
                  r.state == CLOSED && r.failureTimestamps == [] && r.openedAt == None)
  {
    if k > 1 {
      ClosesOnThresholdProbe(c, k - 1, now);
    }
  }
}
