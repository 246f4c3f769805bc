/** One circuit of the circuit breaker service: the runtime record and its transitions. */
module Breaker {
  import opened Common

  datatype State = CLOSED | OPEN | HALF_OPEN

  datatype Override = AUTO | FORCE_OPEN | FORCE_CLOSED

  datatype Config = Config(
    failureThreshold: int,
    failureWindowMs: int,
    openTimeoutMs: int,
    halfOpenMaxCalls: int,
    halfOpenSuccessThreshold: int)

  datatype PartialConfig = PartialConfig(
    failureThreshold: Option<int>,
    failureWindowMs: Option<int>,
    openTimeoutMs: Option<int>,
    halfOpenMaxCalls: Option<int>,
    halfOpenSuccessThreshold: Option<int>)

  const DEFAULT_CONFIG := Config(5, 10000, 30000, 10, 3)

  /** The value of a runtime record, as snapshotCircuit copies it. */
  datatype Circuit = Circuit(
    state: State,
    override: Override,
    config: Config,
    failureTimestamps: seq<int>,
    consecutiveSuccesses: int,
    allowedCalls: int,
    inFlight: int,
    openedAt: Option<int>,
    lastFailureAt: Option<int>,
    totalRequests: int,
    totalSuccesses: int,
    totalFailures: int,
    totalRejected: int,
    totalFallbacks: int,
    transitions: int)

  predicate ValidConfig(c: Config) {
    && 1 <= c.failureThreshold
    && 1000 <= c.failureWindowMs
    && 1000 <= c.openTimeoutMs
    && 1 <= c.halfOpenMaxCalls
    && 1 <= c.halfOpenSuccessThreshold
  }

  function Merged(low: int, base: int, p: Option<int>): int {
    Max(low, if p.Some? then p.value else base)
  }

  /** Every merged configuration is usable, whatever numbers the caller passes. */
  function MergeConfig(base: Config, p: PartialConfig): (r: Config)
    ensures ValidConfig(r)
    ensures ValidConfig(base) && p == PartialConfig(None, None, None, None, None) ==> r == base
  {
    Config(
      Merged(1, base.failureThreshold, p.failureThreshold),
      Merged(1000, base.failureWindowMs, p.failureWindowMs),
      Merged(1000, base.openTimeoutMs, p.openTimeoutMs),
      Merged(1, base.halfOpenMaxCalls, p.halfOpenMaxCalls),
      Merged(1, base.halfOpenSuccessThreshold, p.halfOpenSuccessThreshold))
  }

  /** The timestamps not older than `low`, in their order. */
  function Since(ts: seq<int>, low: int): seq<int> {
    if ts == [] then []
    else Since(ts[..|ts| - 1], low) + (if low <= ts[|ts| - 1] then [ts[|ts| - 1]] else [])
  }

  function Fresh(config: Config): Circuit {
    Circuit(CLOSED, AUTO, config, [], 0, 1, 0, None, None, 0, 0, 0, 0, 0, 0)
  }

  function Transition(c: Circuit, next: State, now: int): Circuit {
    if c.state == next then c
    else
      c.(state := next,
         transitions := c.transitions + 1,
         consecutiveSuccesses := 0,
         allowedCalls := 1,
         inFlight := 0,
         openedAt := match next case OPEN => Some(now) case HALF_OPEN => c.openedAt case CLOSED => None,
         failureTimestamps := if next == CLOSED then [] else c.failureTimestamps)
  }

  function Trim(c: Circuit, now: int): Circuit {
    c.(failureTimestamps := Since(c.failureTimestamps, now - c.config.failureWindowMs))
  }

  function Reject(c: Circuit, hasFallback: bool): Circuit {
    c.(totalRejected := c.totalRejected + 1,
       totalFallbacks := c.totalFallbacks + if hasFallback then 1 else 0)
  }

  predicate TimeoutElapsed(c: Circuit, now: int) {
    c.openedAt.Some? && now - c.openedAt.value >= c.config.openTimeoutMs
  }

  /** `execute` up to the point where it awaits the action; the flag says whether the action starts. */
  function BeginCall(c0: Circuit, now: int, hasFallback: bool): (Circuit, bool) {
    var c := c0.(totalRequests := c0.totalRequests + 1);
    if c.override == FORCE_OPEN then (Reject(c, hasFallback), false)
    else if c.override == FORCE_CLOSED then (c, true)
    else if c.state == OPEN && !TimeoutElapsed(c, now) then (Reject(c, hasFallback), false)
    else
      var d := if c.state == OPEN then Transition(c, HALF_OPEN, now) else c;
      if d.state != HALF_OPEN then (d, true)
      else if d.inFlight >= d.allowedCalls then (Reject(d, hasFallback), false)
      else (d.(inFlight := d.inFlight + 1), true)
  }

  function OnSuccess(c0: Circuit, now: int): Circuit {
    var c := Trim(c0, now);
    if c.state != HALF_OPEN then c
    else
      var d := c.(consecutiveSuccesses := c.consecutiveSuccesses + 1,
                  allowedCalls := Min(c.config.halfOpenMaxCalls, c.allowedCalls + 1));
      if d.consecutiveSuccesses >= d.config.halfOpenSuccessThreshold then Transition(d, CLOSED, now) else d
  }

  function OnFailure(c0: Circuit, now: int): Circuit {
    var c := c0.(lastFailureAt := Some(now));
    match c.state
    case HALF_OPEN => Transition(c, OPEN, now)
    case OPEN => c
    case CLOSED =>
      var d := Trim(c.(failureTimestamps := c.failureTimestamps + [now]), now);
      if |d.failureTimestamps| >= d.config.failureThreshold then Transition(d, OPEN, now) else d
  }

  /** The `finally` block: any call that ends while the circuit is HALF_OPEN gives a slot back. */
  function Release(c: Circuit): Circuit {
    if c.state == HALF_OPEN && c.inFlight > 0 then c.(inFlight := c.inFlight - 1) else c
  }

  function Succeed(c: Circuit, now: int): Circuit {
    Release(OnSuccess(c.(totalSuccesses := c.totalSuccesses + 1), now))
  }

  function Fail(c: Circuit, now: int, hasFallback: bool): Circuit {
    var d := OnFailure(c.(totalFailures := c.totalFailures + 1), now);
    Release(d.(totalFallbacks := d.totalFallbacks + if hasFallback then 1 else 0))
  }

  function SetOverride(c0: Circuit, mode: Override, now: int): Circuit {
    var c := c0.(override := mode);
    match mode
    case AUTO => c
    case FORCE_CLOSED => Transition(c, CLOSED, now)
    case FORCE_OPEN => Transition(c, OPEN, now)
  }

  function Reset(c: Circuit): Circuit {
    c.(state := CLOSED, override := AUTO, failureTimestamps := [], consecutiveSuccesses := 0,
       allowedCalls := 1, inFlight := 0, openedAt := None, lastFailureAt := None,
       transitions := c.transitions + 1)
  }

  /** The mutable record itself. Every method is one synchronous segment of the service. */
  class CircuitRuntime {
    var state: State
    var override: Override
    var config: Config
    var failureTimestamps: seq<int>
    var consecutiveHalfOpenSuccesses: int
    var halfOpenAllowedCalls: int
    var halfOpenInFlight: int
    var openedAt: Option<int>
    var lastFailureAt: Option<int>
    var totalRequests: int
    var totalSuccesses: int
    var totalFailures: int
    var totalRejected: int
    var totalFallbacks: int
    var transitions: int

    function Snapshot(): Circuit
      reads this
    {
      Circuit(state, override, config, failureTimestamps, consecutiveHalfOpenSuccesses,
              halfOpenAllowedCalls, halfOpenInFlight, openedAt, lastFailureAt, totalRequests,
              totalSuccesses, totalFailures, totalRejected, totalFallbacks, transitions)
    }

    constructor (p: PartialConfig)
      ensures Snapshot() == Fresh(MergeConfig(DEFAULT_CONFIG, p))
    {
      state, override, config := CLOSED, AUTO, MergeConfig(DEFAULT_CONFIG, p);
      failureTimestamps, openedAt, lastFailureAt := [], None, None;
      consecutiveHalfOpenSuccesses, halfOpenAllowedCalls, halfOpenInFlight := 0, 1, 0;
      totalRequests, totalSuccesses, totalFailures := 0, 0, 0;
      totalRejected, totalFallbacks, transitions := 0, 0, 0;
    }

    method Configure(p: PartialConfig)
      modifies this
      ensures Snapshot() == old(Snapshot()).(config := MergeConfig(old(config), p))
    {
      config := MergeConfig(config, p);
    }

    method TransitionState(next: State, now: int)
      modifies this
      ensures Snapshot() == Transition(old(Snapshot()), next, now)
    {
      if state == next {
        return;
      }
      state := next;
      transitions := transitions + 1;
      if next == OPEN {
        openedAt := Some(now);
        consecutiveHalfOpenSuccesses, halfOpenAllowedCalls, halfOpenInFlight := 0, 1, 0;
      }
      if next == HALF_OPEN {
        consecutiveHalfOpenSuccesses, halfOpenAllowedCalls, halfOpenInFlight := 0, 1, 0;
      }
      if next == CLOSED {
        failureTimestamps := [];
        openedAt := None;
        consecutiveHalfOpenSuccesses, halfOpenAllowedCalls, halfOpenInFlight := 0, 1, 0;
      }
    }

    method TrimFailures(now: int)
      modifies this
      ensures Snapshot() == Trim(old(Snapshot()), now)
    {
      var minTimestamp := now - config.failureWindowMs;
      var kept := [];
      for i := 0 to |failureTimestamps|
        invariant Snapshot() == old(Snapshot())
        invariant kept == Since(failureTimestamps[..i], minTimestamp)
      {
        assert failureTimestamps[..i + 1][..i] == failureTimestamps[..i];
        if failureTimestamps[i] >= minTimestamp {
          kept := kept + [failureTimestamps[i]];
        }
      }
      assert failureTimestamps[..|failureTimestamps|] == failureTimestamps;
      failureTimestamps := kept;
    }

    method HandleRejected(hasFallback: bool)
      modifies this
      ensures Snapshot() == Reject(old(Snapshot()), hasFallback)
    {
      totalRejected := totalRejected + 1;
      if hasFallback {
        totalFallbacks := totalFallbacks + 1;
      }
    }

    /** `execute`, first segment. */
    method Begin(now: int, hasFallback: bool) returns (admitted: bool)
      modifies this
      ensures (Snapshot(), admitted) == BeginCall(old(Snapshot()), now, hasFallback)
    {
      totalRequests := totalRequests + 1;
      if override == FORCE_OPEN {
        HandleRejected(hasFallback);
        return false;
      }
      if override != FORCE_CLOSED {
        if state == OPEN {
          var canProbeHalfOpen := openedAt.Some? && now - openedAt.value >= config.openTimeoutMs;
          if !canProbeHalfOpen {
            HandleRejected(hasFallback);
            return false;
          }
          TransitionState(HALF_OPEN, now);
        }
        if state == HALF_OPEN {
          if halfOpenInFlight >= halfOpenAllowedCalls {
            HandleRejected(hasFallback);
            return false;
          }
          halfOpenInFlight := halfOpenInFlight + 1;
        }
      }
      return true;
    }

    method RecordSuccess(now: int)
      modifies this
      ensures Snapshot() == OnSuccess(old(Snapshot()), now)
    {
      TrimFailures(now);
      if state != HALF_OPEN {
        return;
      }
      consecutiveHalfOpenSuccesses := consecutiveHalfOpenSuccesses + 1;
      halfOpenAllowedCalls := Min(config.halfOpenMaxCalls, halfOpenAllowedCalls + 1);
      if consecutiveHalfOpenSuccesses >= config.halfOpenSuccessThreshold {
        TransitionState(CLOSED, now);
      }
    }

    method RecordFailure(now: int)
      modifies this
      ensures Snapshot() == OnFailure(old(Snapshot()), now)
    {
      lastFailureAt := Some(now);
      if state == HALF_OPEN {
        TransitionState(OPEN, now);
        return;
      }
      if state == OPEN {
        return;
      }
      failureTimestamps := failureTimestamps + [now];
      TrimFailures(now);
      if |failureTimestamps| >= config.failureThreshold {
        TransitionState(OPEN, now);
      }
    }

    /** `execute`, the segment after the action resolves. */
    method FinishSuccess(now: int)
      modifies this
      ensures Snapshot() == Succeed(old(Snapshot()), now)
    {
      totalSuccesses := totalSuccesses + 1;
      RecordSuccess(now);
      ReleaseSlot();
    }

    /** `execute`, the segment after the action rejects. */
    method FinishFailure(now: int, hasFallback: bool)
      modifies this
      ensures Snapshot() == Fail(old(Snapshot()), now, hasFallback)
    {
      totalFailures := totalFailures + 1;
      RecordFailure(now);
      if hasFallback {
        totalFallbacks := totalFallbacks + 1;
      }
      ReleaseSlot();
    }

    method ReleaseSlot()
      modifies this
      ensures Snapshot() == Release(old(Snapshot()))
    {
      if state == HALF_OPEN && halfOpenInFlight > 0 {
        halfOpenInFlight := halfOpenInFlight - 1;
      }
    }

    method ForceOverride(mode: Override, now: int)
      modifies this
      ensures Snapshot() == SetOverride(old(Snapshot()), mode, now)
    {
      override := mode;
      if mode == FORCE_CLOSED {
        TransitionState(CLOSED, now);
      }
      if mode == FORCE_OPEN {
        TransitionState(OPEN, now);
      }
    }

    method ResetCircuit()
      modifies this
      ensures Snapshot() == Reset(old(Snapshot()))
    {
      state, override, failureTimestamps := CLOSED, AUTO, [];
      consecutiveHalfOpenSuccesses, halfOpenAllowedCalls, halfOpenInFlight := 0, 1, 0;
      openedAt, lastFailureAt := None, None;
      transitions := transitions + 1;
    }
  }
}
