/** The lock with an expiry that keeps retention workers apart, as steps of any number of workers. */
module Lock {
  import opened Common

  /** `since` is when the lock was taken; `own` is whether the key read at the end held the worker's token. */
  datatype Phase = Idle | Running(token: nat, since: int) | Releasing(token: nat, since: int, own: bool)

  datatype Entry = Entry(token: nat, expiresAt: int)

  /** One key of the store, the worker phases (Idle when absent), the clock, and the next unused token. */
  datatype State = State(now: int, key: Option<Entry>, workers: map<nat, Phase>, next: nat)

  /** Taking the lock and reading-then-deleting at the end are separate requests to the store. */
  datatype Action = Tick(elapsed: nat) | TryAcquire(w: nat) | Finish(w: nat) | Release(w: nat) | Crash(w: nat)

  function PhaseOf(s: State, w: nat): Phase { if w in s.workers then s.workers[w] else Idle }

  predicate Busy(s: State, w: nat) { !PhaseOf(s, w).Idle? }

  /** The entry as the store shows it: an expired one is gone. */
  function Live(s: State): Option<Entry> {
    if s.key.Some? && s.now < s.key.value.expiresAt then s.key else None
  }

  function Step(ttl: nat, s: State, a: Action): State {
    match a
    case Tick(d) => s.(now := s.now + d)
    case TryAcquire(w) =>
      if Busy(s, w) || Live(s).Some? then s
      else s.(key := Some(Entry(s.next, s.now + ttl)), workers := s.workers[w := Running(s.next, s.now)], next := s.next + 1)
    case Finish(w) =>
      var p := PhaseOf(s, w);
      if !p.Running? then s
      else s.(workers := s.workers[w := Releasing(p.token, p.since, Live(s).Some? && Live(s).value.token == p.token)])
    case Release(w) =>
      var p := PhaseOf(s, w);
      if !p.Releasing? then s
      else s.(key := if p.own then None else s.key, workers := s.workers[w := Idle])
    case Crash(w) => s.(workers := s.workers[w := Idle])
  }

  function Run(ttl: nat, s: State, actions: seq<Action>): State
    decreases |actions|
  {
    if actions == [] then s else Run(ttl, Step(ttl, s, actions[0]), actions[1..])
  }

  /** No worker is still running or releasing when its lock has expired. */
  ghost predicate OnTime(ttl: nat, s: State) {
    forall w | w in s.workers && Busy(s, w) :: s.now < s.workers[w].since + ttl
  }

  /** On time in every state of the run. */
  ghost predicate AlwaysOnTime(ttl: nat, s: State, actions: seq<Action>)
    decreases |actions|
  {
    OnTime(ttl, s) && (actions != [] ==> AlwaysOnTime(ttl, Step(ttl, s, actions[0]), actions[1..]))
  }

  ghost predicate AtMostOneBusy(s: State) {
    forall v, w | v in s.workers && w in s.workers && Busy(s, v) && Busy(s, w) :: v == w
  }

  /**
   * The entry under the key, expired or not, is that of the busy worker, if there is one; and if that
   * worker has looked and not found it, it has expired.
   */
  ghost predicate Holding(ttl: nat, s: State) {
    && (s.key.Some? ==> s.key.value.token < s.next)
    && (forall w | w in s.workers && Busy(s, w) ::
         && s.key == Some(Entry(s.workers[w].token, s.workers[w].since + ttl))
         && (s.workers[w].Releasing? && !s.workers[w].own ==> s.now >= s.workers[w].since + ttl))
    && AtMostOneBusy(s)
  }

  /** And a worker about to release knows that the entry is its own. */
  ghost predicate Exclusive(ttl: nat, s: State) {
    Holding(ttl, s) && forall w | w in s.workers && s.workers[w].Releasing? :: s.workers[w].own
  }

  lemma {:induction false} StepKeepsExclusive(ttl: nat, s: State, a: Action)
    requires Exclusive(ttl, s) && OnTime(ttl, s)
    ensures Exclusive(ttl, Step(ttl, s, a))
  {
    match a
    case TryAcquire(w) => AcquireKeepsExclusive(ttl, s, w);
    case Release(w) => ReleaseKeepsExclusive(ttl, s, w);
    case _ =>
  }

  lemma {:induction false} AcquireKeepsExclusive(ttl: nat, s: State, w: nat)
    requires Exclusive(ttl, s) && OnTime(ttl, s)
    ensures Exclusive(ttl, Step(ttl, s, TryAcquire(w)))
  {
    if !Busy(s, w) && Live(s).None? {
      forall v | v in s.workers ensures !Busy(s, v) {
        assert Busy(s, v) ==> Live(s) == s.key;
      }
    }
  }

  /** The releasing worker is the only busy one, so after it nobody is. */
  lemma {:induction false} ReleaseKeepsExclusive(ttl: nat, s: State, w: nat)
    requires Exclusive(ttl, s)
    ensures Exclusive(ttl, Step(ttl, s, Release(w)))
  {
    if PhaseOf(s, w).Releasing? {
      assert w in s.workers && Busy(s, w);
    }
  }

  /** A run that starts with nobody busy and is always on time has at most one busy worker at every point. */
  lemma {:induction false} MutualExclusion(ttl: nat, s: State, actions: seq<Action>)
    requires Exclusive(ttl, s) && AlwaysOnTime(ttl, s, actions)
    ensures Exclusive(ttl, Run(ttl, s, actions))
    ensures forall v, w | Busy(Run(ttl, s, actions), v) && Busy(Run(ttl, s, actions), w) :: v == w
    decreases |actions|
  {
    if actions != [] {
      StepKeepsExclusive(ttl, s, actions[0]);
      MutualExclusion(ttl, Step(ttl, s, actions[0]), actions[1..]);
    }
  }

  /** A worker asks for the lock while another one is busy past the expiry of its own. */
  ghost predicate Overtakes(ttl: nat, s: State, a: Action) {
    a.TryAcquire? && !Busy(s, a.w) && exists v | v in s.workers && Busy(s, v) :: s.now >= s.workers[v].since + ttl
  }

  ghost predicate NeverOvertaken(ttl: nat, s: State, actions: seq<Action>)
    decreases |actions|
  {
    actions == [] || (!Overtakes(ttl, s, actions[0]) && NeverOvertaken(ttl, Step(ttl, s, actions[0]), actions[1..]))
  }

  ghost predicate AlwaysOneBusy(ttl: nat, s: State, actions: seq<Action>)
    decreases |actions|
  {
    AtMostOneBusy(s) && (actions == [] || AlwaysOneBusy(ttl, Step(ttl, s, actions[0]), actions[1..]))
  }

  lemma {:induction false} StepOverlapsIff(ttl: nat, s: State, a: Action)
    requires Holding(ttl, s)
    ensures Overtakes(ttl, s, a) ==> !AtMostOneBusy(Step(ttl, s, a))
    ensures !Overtakes(ttl, s, a) ==> Holding(ttl, Step(ttl, s, a))
  {
    var t := Step(ttl, s, a);
    if Overtakes(ttl, s, a) {
      var v :| v in s.workers && Busy(s, v) && s.now >= s.workers[v].since + ttl;
      assert Busy(t, v) && Busy(t, a.w) && v != a.w;
    } else if a.TryAcquire? && !Busy(s, a.w) && Live(s).None? {
      forall v | v in s.workers ensures !Busy(s, v) {
        assert Busy(s, v) ==> Live(s) == s.key;
      }
    } else if a.Release? && PhaseOf(s, a.w).Releasing? {
      assert a.w in s.workers && Busy(s, a.w);
    }
  }

  /**
   * Without any assumption on how long workers take: in every state of a run at most one is busy
   * exactly if no worker asks for the lock while another is busy past its expiry.
   */
  lemma {:induction false} MutualExclusionIff(ttl: nat, s: State, actions: seq<Action>)
    requires Holding(ttl, s)
    ensures AlwaysOneBusy(ttl, s, actions) <==> NeverOvertaken(ttl, s, actions)
    decreases |actions|
  {
    hide Holding, Step, AtMostOneBusy, Overtakes;
    assert AtMostOneBusy(s) by {
      HoldingIsOne(ttl, s);
    }
    if actions != [] {
      StepOverlapsIff(ttl, s, actions[0]);
      if Overtakes(ttl, s, actions[0]) {
        assert !AlwaysOneBusy(ttl, Step(ttl, s, actions[0]), actions[1..]);
      } else {
        MutualExclusionIff(ttl, Step(ttl, s, actions[0]), actions[1..]);
      }
    }
  }

  lemma {:induction false} HoldingIsOne(ttl: nat, s: State)
    requires Holding(ttl, s)
    ensures AtMostOneBusy(s)
  {
  }

  lemma {:induction false} RunHolds(ttl: nat, s: State, actions: seq<Action>)
    requires Holding(ttl, s) && NeverOvertaken(ttl, s, actions)
    ensures Holding(ttl, Run(ttl, s, actions))
    decreases |actions|
  {
    hide Holding, Step, Overtakes;
    if actions != [] {
      StepOverlapsIff(ttl, s, actions[0]);
      RunHolds(ttl, Step(ttl, s, actions[0]), actions[1..]);
    }
  }

  /** The release of worker `w` would delete an entry that is not its own. */
  predicate RemovesAnothers(ttl: nat, s: State, w: nat) {
    Step(ttl, s, Release(w)).key != s.key && s.key.value.token != PhaseOf(s, w).token
  }

  /**
   * With workers of any speed: while nobody is overtaken, no release removes another worker's entry.
   * The entry is the releasing worker's own; a worker in time deletes it, one that did not find it
   * leaves it expired, and either way the next worker that asks gets the lock.
   */
  lemma {:induction false} ReleaseDeletesOwn(ttl: nat, s: State, actions: seq<Action>, w: nat, next: nat)
    requires Holding(ttl, s) && NeverOvertaken(ttl, s, actions)
    requires PhaseOf(Run(ttl, s, actions), w).Releasing?
    ensures var end := Run(ttl, s, actions);
      var p := PhaseOf(end, w);
      var freed := Step(ttl, end, Release(w));
      && end.key == Some(Entry(p.token, p.since + ttl)) && !RemovesAnothers(ttl, end, w)
      && freed.key == (if p.own then None else end.key) && Live(freed) == None
      && (end.now < p.since + ttl ==> freed.key == None)
      && PhaseOf(Step(ttl, freed, TryAcquire(next)), next).Running?
  {
    RunHolds(ttl, s, actions);
    var end := Run(ttl, s, actions);
    hide Run;
    assert w in end.workers && Busy(end, w);
    var freed := Step(ttl, end, Release(w));
    assert !Busy(freed, next);
  }

  /** An action by which worker `v` does not end its turn. */
  predicate Leaves(a: Action, v: nat) { a != Release(v) && a != Crash(v) }

  /** Worker `v` still holds its token, which is not under the key and never will be; `own` is what it read. */
  ghost predicate Displaced(s: State, v: nat, token: nat, own: bool) {
    && !PhaseOf(s, v).Idle? && PhaseOf(s, v).token == token < s.next
    && (s.key.Some? ==> token != s.key.value.token < s.next)
    && (own <==> PhaseOf(s, v).Releasing? && PhaseOf(s, v).own)
  }

  lemma {:induction false} StaysDisplaced(ttl: nat, s: State, actions: seq<Action>, v: nat, token: nat, own: bool)
    requires Displaced(s, v, token, own) && forall a <- actions :: Leaves(a, v)
    ensures Displaced(Run(ttl, s, actions), v, token, own)
    decreases |actions|
  {
    if actions != [] {
      assert Leaves(actions[0], v);
      StaysDisplaced(ttl, Step(ttl, s, actions[0]), actions[1..], v, token, own);
    }
  }

  /**
   * When a worker `x` overtakes `v`, whatever happens until `v` releases: that release removes an
   * entry of another worker exactly if `v` had already found its own entry under the key, and an
   * entry is there by then. Released at once, it removes the entry of `x`.
   */
  lemma {:induction false} OvertakenReleaseIff(ttl: nat, s: State, x: nat, v: nat, actions: seq<Action>)
    requires Holding(ttl, s) && Overtakes(ttl, s, TryAcquire(x)) && v in s.workers && Busy(s, v)
    requires forall a <- actions :: Leaves(a, v)
    ensures var t := Step(ttl, s, TryAcquire(x));
      && t.key == Some(Entry(PhaseOf(t, x).token, s.now + ttl))
      && (RemovesAnothers(ttl, t, v) <==> s.workers[v].Releasing? && s.workers[v].own)
    ensures var end := Run(ttl, Step(ttl, s, TryAcquire(x)), actions);
      RemovesAnothers(ttl, end, v) <==> s.workers[v].Releasing? && s.workers[v].own && end.key.Some?
  {
    var t := Step(ttl, s, TryAcquire(x));
    var own := s.workers[v].Releasing? && s.workers[v].own;
    assert Displaced(t, v, s.workers[v].token, own);
    StaysDisplaced(ttl, t, actions, v, s.workers[v].token, own);
  }

  /** A worker that dies with the lock holds up the others until the entry expires, and no longer. */
  lemma {:induction false} CrashExpires(ttl: nat, s: State, w: nat, next: nat, elapsed: nat)
    requires Exclusive(ttl, s) && OnTime(ttl, s) && Busy(s, w)
    ensures var later := Step(ttl, Step(ttl, s, Crash(w)), Tick(elapsed));
      PhaseOf(Step(ttl, later, TryAcquire(next)), next).Running? <==> s.now + elapsed >= PhaseOf(s, w).since + ttl
  {
    assert w in s.workers;
    var crashed := Step(ttl, s, Crash(w));
    forall v ensures !Busy(crashed, v) {
      if v != w && v in s.workers && Busy(s, v) {
        assert false;
      }
    }
  }

  /** Without the hypothesis: a run that outlives its lock leaves two workers running. */
  lemma {:induction false} OverrunLetsAnotherIn(ttl: nat, s: State) returns (actions: seq<Action>)
    requires s == State(0, None, map[], 0)
    ensures var end := Run(ttl, s, actions);
      PhaseOf(end, 1).Running? && PhaseOf(end, 2).Running?
  {
    var s1 := Step(ttl, s, TryAcquire(1));
    var s2 := Step(ttl, s1, Tick(ttl));
    var s3 := Step(ttl, s2, TryAcquire(2));
    actions := [TryAcquire(1), Tick(ttl), TryAcquire(2)];
    RunThree(ttl, s, actions[0], actions[1], actions[2]);
  }

  lemma {:induction false} RunThree(ttl: nat, s: State, a: Action, b: Action, c: Action)
    ensures Run(ttl, s, [a, b, c]) == Step(ttl, Step(ttl, Step(ttl, s, a), b), c)
  {
    assert [a, b, c][1..] == [b, c] && [b, c][1..] == [c] && [c][1..] == [];
    var s1 := Step(ttl, s, a);
    var s2 := Step(ttl, s1, b);
    assert Run(ttl, s2, [c]) == Run(ttl, Step(ttl, s2, c), []);
    assert Run(ttl, s1, [b, c]) == Run(ttl, s2, [c]);
  }

  /**
   * Without it, too: a worker that read its own token in time but deletes after expiry removes the
   * next worker's live entry, so that a third runs beside a second that is on time.
   */
  lemma {:induction false} LateDeleteRemovesAnothersLock(ttl: nat, s: State) returns (early: seq<Action>, late: seq<Action>)
    requires 0 < ttl && s == State(0, None, map[], 0)
    ensures var middle := Run(ttl, s, early);
      && PhaseOf(middle, 1).Releasing? && PhaseOf(middle, 2).Running?
      && Live(middle).Some? && Live(middle).value.token == PhaseOf(middle, 2).token != PhaseOf(middle, 1).token
      && var end := Run(ttl, middle, late);
        PhaseOf(end, 2).Running? && PhaseOf(end, 3).Running? && end.now < PhaseOf(end, 2).since + ttl
  {
    early := [TryAcquire(1), Finish(1), Tick(ttl)] + [TryAcquire(2)];
    var s1 := Run(ttl, s, [TryAcquire(1), Finish(1), Tick(ttl)]);
    RunThree(ttl, s, TryAcquire(1), Finish(1), Tick(ttl));
    RunConcat(ttl, s, [TryAcquire(1), Finish(1), Tick(ttl)], [TryAcquire(2)]);
    var middle := Run(ttl, s, early);
    assert [TryAcquire(2)][1..] == [];
    assert middle == Step(ttl, s1, TryAcquire(2));
    late := [Release(1), TryAcquire(3)];
    assert late[1..] == [TryAcquire(3)] && late[1..][1..] == [];
    assert Run(ttl, middle, late) == Step(ttl, Step(ttl, middle, Release(1)), TryAcquire(3));
  }

  lemma {:induction false} RunConcat(ttl: nat, s: State, a: seq<Action>, b: seq<Action>)
    ensures Run(ttl, s, a + b) == Run(ttl, Run(ttl, s, a), b)
    decreases |a|
  {
    if a == [] {
      assert a + b == b;
    } else {
      RunConcat(ttl, Step(ttl, s, a[0]), a[1..], b);
      assert (a + b)[1..] == a[1..] + b;
    }
  }
}
