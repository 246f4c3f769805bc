/** Graceful shutdown: counting requests in flight and letting waiters go when none is left. */
module Drain {
  import opened Common

  predicate Includes(path: string, part: string) {
    part <= path || (path != "" && Includes(path[1..], part))
  }

  class ApplicationState {
    var activeRequests: int
    var draining: bool
    var drainWaiters: seq<nat>
    /** Waiters whose promise has been resolved. */
    var resolved: set<nat>

    constructor ()
      ensures activeRequests == 0 && !draining && drainWaiters == [] && resolved == {}
    {
      activeRequests, draining, drainWaiters, resolved := 0, false, [], {};
    }

    method IncrementActiveRequests()
      modifies this`activeRequests
      ensures activeRequests == old(activeRequests) + 1
    {
      activeRequests := activeRequests + 1;
    }

    method DecrementActiveRequests()
      modifies this
      ensures activeRequests == Max(0, old(activeRequests) - 1) && draining == old(draining)
      ensures activeRequests == 0 ==> drainWaiters == [] && resolved == old(resolved) + Elements(old(drainWaiters))
      ensures activeRequests != 0 ==> drainWaiters == old(drainWaiters) && resolved == old(resolved)
    {
      activeRequests := Max(0, activeRequests - 1);
      if activeRequests == 0 {
        ResolveDrainWaiters();
      }
    }

    method ResolveDrainWaiters()
      modifies this`drainWaiters, this`resolved
      ensures drainWaiters == [] && resolved == old(resolved) + Elements(old(drainWaiters))
    {
      var waiters := drainWaiters;
      drainWaiters := [];
      var i := 0;
      while i < |waiters|
        invariant 0 <= i <= |waiters| && drainWaiters == []
        invariant resolved == old(resolved) + Elements(waiters[..i])
      {
        resolved := resolved + {waiters[i]};
        i := i + 1;
      }
      assert waiters[..i] == waiters;
    }

    predicate ShouldRejectIncomingRequest(path: string)
      reads this
    {
      draining && !Includes(path, "/health")
    }

    method BeginDrain()
      modifies this`draining
      ensures draining
    {
      if draining {
        return;
      }
      draining := true;
    }

    /** Registers a waiter unless nothing is in flight; the timeout it races with is a step of its own. */
    method WaitForInflightRequests(waiter: nat)
      modifies this
      ensures activeRequests == old(activeRequests) && draining == old(draining)
      ensures activeRequests == 0 ==> drainWaiters == old(drainWaiters) && resolved == old(resolved) + {waiter}
      ensures activeRequests != 0 ==> drainWaiters == old(drainWaiters) + [waiter] && resolved == old(resolved)
    {
      if activeRequests == 0 {
        resolved := resolved + {waiter};
        return;
      }
      drainWaiters := drainWaiters + [waiter];
    }
  }

  function Elements(s: seq<nat>): set<nat> { set x | x in s }

  /** The closure that a request's finish and close events share. */
  class InflightRequest {
    var settled: bool

    constructor ()
      ensures !settled
    {
      settled := false;
    }

    method Finalize(app: ApplicationState)
      modifies this, app
      ensures settled
      ensures old(settled) ==>
        && app.activeRequests == old(app.activeRequests)
        && app.drainWaiters == old(app.drainWaiters) && app.resolved == old(app.resolved)
      ensures !old(settled) ==>
        && app.activeRequests == Max(0, old(app.activeRequests) - 1)
        && (app.activeRequests == 0 ==>
              app.drainWaiters == [] && app.resolved == old(app.resolved) + Elements(old(app.drainWaiters)))
        && (app.activeRequests != 0 ==> app.drainWaiters == old(app.drainWaiters) && app.resolved == old(app.resolved))
      ensures app.draining == old(app.draining)
    {
      if settled {
        return;
      }
      settled := true;
      app.DecrementActiveRequests();
    }
  }

  // ---------------------------------------------------------------------------------------------
  // The protocol over all interleavings
  // ---------------------------------------------------------------------------------------------

  /** `open` holds the admitted requests that are not settled; the rest are the fields of the state. */
  datatype World = World(
    active: int, draining: bool, waiters: seq<nat>, resolved: set<nat>, open: set<nat>, seen: set<nat>, refused: set<nat>,
    admittedLate: seq<string>)

  /** A request arrives once; its finish and close events may each fire any number of times. */
  datatype Action = Arrive(id: nat, path: string) | Event(id: nat) | BeginDrain | Wait(waiter: nat) | Timeout(waiter: nat)

  function Step(w: World, a: Action): World {
    match a
    case Arrive(id, path) =>
      if id in w.seen then w
      else if w.draining && !Includes(path, "/health") then w.(seen := w.seen + {id}, refused := w.refused + {id})
      else w.(seen := w.seen + {id}, open := w.open + {id}, active := w.active + 1,
              admittedLate := if w.draining then w.admittedLate + [path] else w.admittedLate)
    case Event(id) =>
      if id !in w.open then w
      else
        var left := Max(0, w.active - 1);
        w.(open := w.open - {id}, active := left,
           resolved := if left == 0 then w.resolved + Elements(w.waiters) else w.resolved,
           waiters := if left == 0 then [] else w.waiters)
    case BeginDrain => w.(draining := true)
    case Wait(waiter) =>
      if w.active == 0 then w.(resolved := w.resolved + {waiter}) else w.(waiters := w.waiters + [waiter])
    case Timeout(waiter) => w.(resolved := w.resolved + {waiter})
  }

  /**
   * The middleware, with the closure it makes for each admitted request. Its view is the protocol's
   * state, and what it does is the protocol's step.
   */
  class InflightRequestMiddleware {
    const app: ApplicationState
    var requests: map<nat, InflightRequest>
    ghost var refused: set<nat>
    ghost var admittedLate: seq<string>

    /** No two requests share a closure. */
    ghost predicate Valid()
      reads this
    {
      forall i, j | i in requests && j in requests && requests[i] == requests[j] :: i == j
    }

    ghost function View(): World
      reads this, app, requests.Values
    {
      World(app.activeRequests, app.draining, app.drainWaiters, app.resolved,
            (set id | id in requests && !requests[id].settled), requests.Keys + refused, refused, admittedLate)
    }

    constructor (app: ApplicationState)
      ensures this.app == app && requests == map[] && refused == {} && admittedLate == [] && Valid()
    {
      this.app, requests, refused, admittedLate := app, map[], {}, [];
    }

    /** A new request: refused, or counted and given a closure. */
    method Use(id: nat, path: string) returns (admitted: bool)
      requires Valid() && id !in requests && id !in refused
      modifies this, app
      ensures Valid() && View() == Step(old(View()), Arrive(id, path))
      ensures admitted <==> id in requests
    {
      if app.ShouldRejectIncomingRequest(path) {
        refused := refused + {id};
        assert View().seen == old(View()).seen + {id};
        return false;
      }
      app.IncrementActiveRequests();
      var request := new InflightRequest();
      requests := requests[id := request];
      admittedLate := if app.draining then admittedLate + [path] else admittedLate;
      assert View().open == old(View()).open + {id};
      assert View().seen == old(View()).seen + {id};
      return true;
    }

    /** The response's finish or close event. */
    method OnFinishOrClose(id: nat)
      requires Valid() && id in requests
      modifies app, requests[id]
      ensures Valid() && View() == Step(old(View()), Event(id))
    {
      requests[id].Finalize(app);
      assert View().open == old(View()).open - {id};
    }

    /** The shutdown handler up to its first await, */
    method OnSignal()
      requires Valid()
      modifies app
      ensures Valid() && View() == Step(old(View()), Action.BeginDrain)
    {
      app.BeginDrain();
    }

    /** and after it. */
    method OnDraining(waiter: nat)
      requires Valid()
      modifies app
      ensures Valid() && View() == Step(old(View()), Wait(waiter))
    {
      app.WaitForInflightRequests(waiter);
    }
  }

  function Run(w: World, actions: seq<Action>): World
    decreases |actions|
  {
    if actions == [] then w else Run(Step(w, actions[0]), actions[1..])
  }

  function Fresh(): World { World(0, false, [], {}, {}, {}, {}, []) }

  /** The count is the number of open requests, and nobody waits when there are none. */
  ghost predicate Counted(w: World) {
    && w.active == |w.open| && w.open <= w.seen && w.refused <= w.seen && w.open !! w.refused
    && (w.active == 0 ==> w.waiters == [])
    && (forall p <- w.admittedLate :: Includes(p, "/health"))
  }

  /** A request settles once: the first of its events lowers a positive count by one, later ones do nothing. */
  lemma {:induction false} EventKeepsCount(w: World, id: nat)
    requires Counted(w)
    ensures var after := Step(w, Event(id));
      && Counted(after)
      && (if id in w.open then w.active > 0 && after.active == w.active - 1 else after == w)
      && Step(after, Event(id)) == after
      && (after.active == 0 && id in w.open ==> forall x <- w.waiters :: x in after.resolved)
  {
    hide Includes;
    if id in w.open {
      assert |w.open - {id}| == |w.open| - 1;
    }
  }

  lemma {:induction false} StepKeepsCount(w: World, a: Action)
    requires Counted(w)
    ensures Counted(Step(w, a))
    ensures w.resolved <= Step(w, a).resolved && w.refused <= Step(w, a).refused
    ensures forall x <- w.waiters :: x in Step(w, a).waiters || x in Step(w, a).resolved
  {
    hide Includes;
    match a
    case Arrive(id, _) => assert id !in w.seen ==> |w.open + {id}| == |w.open| + 1;
    case Event(id) => EventKeepsCount(w, id);
    case _ =>
  }

  lemma {:induction false} EveryRunCounts(w: World, actions: seq<Action>)
    requires Counted(w)
    ensures Counted(Run(w, actions))
    decreases |actions|
  {
    hide Counted, Step;
    if actions != [] {
      StepKeepsCount(w, actions[0]);
      EveryRunCounts(Step(w, actions[0]), actions[1..]);
    }
  }

  /** Whoever ever waited is either still waiting, with requests in flight, or has been let go. */
  lemma {:induction false} NoWaiterIsLost(w: World, actions: seq<Action>, waiter: nat)
    requires Counted(w) && (waiter in w.waiters || waiter in w.resolved || Wait(waiter) in actions)
    ensures var end := Run(w, actions);
      (waiter in end.waiters && end.active > 0) || waiter in end.resolved
    ensures Run(w, actions).open == {} ==> waiter in Run(w, actions).resolved
    decreases |actions|
  {
    if actions != [] {
      StepKeepsCount(w, actions[0]);
      hide Includes;
      assert actions == [actions[0]] + actions[1..];
      NoWaiterIsLost(Step(w, actions[0]), actions[1..], waiter);
    }
  }

  /** Once a drain has begun, a request whose path does not mention health is refused and never opens. */
  lemma {:induction false} NothingAdmittedWhileDraining(before: seq<Action>, after: seq<Action>, id: nat, path: string)
    requires var w := Run(Fresh(), before); w.draining && id !in w.seen && !Includes(path, "/health")
    ensures var w := Run(Fresh(), before);
      var end := Run(Step(w, Arrive(id, path)), after);
      id in end.refused && id !in end.open
  {
    EveryRunCounts(Fresh(), before);
    var w := Run(Fresh(), before);
    StepKeepsCount(w, Arrive(id, path));
    StaysRefused(Step(w, Arrive(id, path)), after, id);
  }

  lemma {:induction false} StaysRefused(w: World, actions: seq<Action>, id: nat)
    requires Counted(w) && id in w.refused
    ensures id in Run(w, actions).refused && id !in Run(w, actions).open
    decreases |actions|
  {
    if actions != [] {
      StepKeepsCount(w, actions[0]);
      hide Step;
      StaysRefused(Step(w, actions[0]), actions[1..], id);
    }
  }

  predicate StandsAt(path: string, part: string, i: nat) { i + |part| <= |path| && path[i..i + |part|] == part }

  /** A path mentions a part exactly if the part stands somewhere in it. */
  lemma {:induction false} IncludesIff(path: string, part: string)
    ensures Includes(path, part) <==> exists i: nat :: StandsAt(path, part, i)
  {
    assert part <= path <==> StandsAt(path, part, 0);
    if path != "" {
      IncludesIff(path[1..], part);
      forall i: nat ensures StandsAt(path[1..], part, i) <==> StandsAt(path, part, i + 1) {
        StandsLater(path, part, i);
      }
      hide StandsAt;
      if i: nat :| StandsAt(path, part, i) && i > 0 {
        assert StandsAt(path[1..], part, i - 1) <==> StandsAt(path, part, i - 1 + 1);
      }
      if i: nat :| StandsAt(path[1..], part, i) {
        assert StandsAt(path, part, i + 1);
      }
    }
  }

  lemma {:induction false} StandsLater(path: string, part: string, i: nat)
    requires path != ""
    ensures StandsAt(path[1..], part, i) <==> StandsAt(path, part, i + 1)
  {
    if i + |part| <= |path| - 1 {
      assert path[1..][i..i + |part|] == path[i + 1..i + 1 + |part|];
    }
  }

  /**
   * A request that has not been seen is let in exactly if no drain has begun or its path mentions
   * health; it is counted if it is let in, and refused otherwise.
   */
  lemma {:induction false} ArrivalOutcome(w: World, id: nat, path: string)
    requires Counted(w) && id !in w.seen
    ensures var after := Step(w, Arrive(id, path));
      var welcome := !w.draining || Includes(path, "/health");
      && (id in after.open <==> welcome) && (id in after.refused <==> !welcome)
      && after.active == w.active + (if welcome then 1 else 0)
      && after.waiters == w.waiters && after.resolved == w.resolved && after.draining == w.draining
  {
  }

  lemma {:induction false} StaysDraining(w: World, actions: seq<Action>)
    ensures Run(w, actions).draining <==> w.draining || BeginDrain in actions
    decreases |actions|
  {
    hide Includes;
    if actions != [] {
      StaysDraining(Step(w, actions[0]), actions[1..]);
      assert actions == [actions[0]] + actions[1..];
    }
  }

  lemma {:induction false} RunJoins(w: World, a: seq<Action>, b: seq<Action>)
    ensures Run(w, a + b) == Run(Run(w, a), b)
    decreases |a|
  {
    hide Step;
    if a == [] {
      assert a + b == b;
    } else {
      assert (a + b)[1..] == a[1..] + b;
      RunJoins(Step(w, a[0]), a[1..], b);
    }
  }

  /**
   * In any run from the start: a request arriving for the first time is let in exactly if no drain
   * has begun before it or its path mentions health.
   */
  lemma {:induction false} AdmittedIff(before: seq<Action>, id: nat, path: string)
    requires id !in Run(Fresh(), before).seen
    ensures id in Run(Fresh(), before + [Arrive(id, path)]).open <==> BeginDrain !in before || Includes(path, "/health")
  {
    hide Includes, Step, Counted;
    EveryRunCounts(Fresh(), before) by {
      FreshIsCounted();
    }
    StaysDraining(Fresh(), before);
    RunJoins(Fresh(), before, [Arrive(id, path)]);
    ArrivalOutcome(Run(Fresh(), before), id, path);
    assert [Arrive(id, path)][1..] == [];
  }

  lemma {:induction false} FreshIsCounted()
    ensures Counted(Fresh())
  {
  }

  /** A waiter is let go at its timeout, whatever is still in flight, and at once if nothing is. */
  lemma {:induction false} WaiterOutcome(w: World, waiter: nat)
    ensures waiter in Step(w, Timeout(waiter)).resolved
    ensures Step(w, Timeout(waiter)).active == w.active && Step(w, Timeout(waiter)).open == w.open
    ensures w.active == 0 ==> waiter in Step(w, Wait(waiter)).resolved
    ensures w.active != 0 ==> Step(w, Wait(waiter)).waiters == w.waiters + [waiter]
    ensures w.active != 0 ==> Step(w, Wait(waiter)).resolved == w.resolved
  {
  }
}
