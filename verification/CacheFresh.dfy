/** When the key of a returned value was complete, against the versions in it and the bumps before the read. */
module CacheFresh {
  import opened Common
  import opened CacheProtocol
  import opened CacheInvariant
  import opened CacheSteps

  lemma {:induction false} EmptyIsOk(n: nat, latency: nat, now: int)
    ensures Inv(Empty(n, latency, now))
  {
  }

  /** Call `id` has returned this value. */
  predicate Returned(w: World, id: nat, i: Item) {
    id < |w.calls| && w.calls[id].pc == Done(Some(i))
  }

  /** What a later state still knows of an earlier one. */
  ghost predicate Later(w: World, v: World) {
    && |v.nodes| == |w.nodes| && |w.calls| <= |v.calls| && v.latency == w.latency && w.now <= v.now
    && Grows(w.since, v.since, w.now)
    && (forall n: nat | n < |w.nodes| :: FloorLe(w.nodes[n].floor, v.nodes[n].floor))
    && (forall id: nat | id < |w.calls| :: Advances(w.calls[id], v.calls[id]))
    && (forall id: nat | |w.calls| <= id < |v.calls| ::
          && v.calls[id].node < |w.nodes|
          && FloorLe(w.nodes[v.calls[id].node].floor, v.calls[id].floor)
          && w.now <= v.calls[id].started)
  }

  lemma {:induction false} LaterTransitive(u: World, v: World, w: World)
    requires Later(u, v) && Later(v, w)
    ensures Later(u, w)
  {
    forall n: nat | n < |u.nodes| ensures FloorLe(u.nodes[n].floor, w.nodes[n].floor) {
      FloorLeTransitive(u.nodes[n].floor, v.nodes[n].floor, w.nodes[n].floor);
    }
    forall id: nat | id < |u.calls| ensures Advances(u.calls[id], w.calls[id]) {
      assert Advances(u.calls[id], v.calls[id]) && Advances(v.calls[id], w.calls[id]);
    }
    forall id: nat | |u.calls| <= id < |w.calls|
      ensures w.calls[id].node < |u.nodes|
      ensures FloorLe(u.nodes[w.calls[id].node].floor, w.calls[id].floor)
      ensures u.now <= w.calls[id].started
    {
      if |v.calls| <= id {
        FloorLeTransitive(u.nodes[w.calls[id].node].floor, v.nodes[w.calls[id].node].floor, w.calls[id].floor);
      } else {
        assert Advances(v.calls[id], w.calls[id]);
      }
    }
  }

  lemma {:induction false} FloorLeTransitive(a: map<Tag, int>, b: map<Tag, int>, c: map<Tag, int>)
    requires FloorLe(a, b) && FloorLe(b, c)
    ensures FloorLe(a, c)
  {
    forall t: Tag ensures FloorOf(a, t) <= FloorOf(c, t) {
      assert FloorOf(a, t) <= FloorOf(b, t) <= FloorOf(c, t);
    }
  }

  /** One call advances; floors stay; history may grow. */
  predicate Local(w: World, v: World, id: nat) {
    && id < |w.calls| && |v.calls| == |w.calls| && v.calls == w.calls[id := v.calls[id]]
    && Advances(w.calls[id], v.calls[id])
    && |v.nodes| == |w.nodes| && (forall n: nat | n < |w.nodes| :: v.nodes[n].floor == w.nodes[n].floor)
    && v.latency == w.latency && v.now == w.now && Grows(w.since, v.since, w.now)
  }

  lemma {:induction false} LocalIsLater(w: World, v: World, id: nat)
    requires Local(w, v, id)
    ensures Later(w, v)
  {
  }

  lemma {:induction false} LookupLocal(w: World, a: Action, id: nat)
    requires CallPossible(w, a, id) && (a.UseCached? || a.AskVersion? || a.InitVersion? || a.Bump? || a.BumpDone?)
    ensures Local(w, CallStep(w, a, id), id)
  {
  }

  lemma {:induction false} ReadLocal(w: World, a: Action, id: nat)
    requires CallPossible(w, a, id)
    requires a.HitL1? || a.Join? || a.Miss? || a.AskL2? || a.Wake?
    ensures Local(w, CallStep(w, a, id), id)
  {
  }

  lemma {:induction false} StoreLocal(w: World, a: Action, id: nat)
    requires CallPossible(w, a, id)
    requires a.FetchOk? || a.FetchFail? || a.Settle? || a.WriteNow?
    ensures Local(w, CallStep(w, a, id), id)
  {
  }

  /** The shape shared by all these steps. */
  lemma {:induction false} PatchIsLocal(w: World, v: World, id: nat, d: Call, m: Node)
    requires id < |w.calls| && d.node < |w.nodes| && Advances(w.calls[id], d)
    requires m.floor == w.nodes[d.node].floor && v == SetNode(SetCall(w, id, d), d.node, m)
    ensures Local(w, v, id)
  {
  }

  lemma {:induction false} DeliverLocal(w: World, n: nat)
    requires DeliverPossible(w, n) && !w.calls[w.nodes[n].queue[0]].pc.reply.Bumped?
    requires var c := w.calls[w.nodes[n].queue[0]]; c.pc.reply.Version? ==> |c.got| < |c.tags|
    ensures Local(w, DeliverStep(w, n), w.nodes[n].queue[0])
  {
    hide Local, KeyOf;
    var id := w.nodes[n].queue[0];
    var c := w.calls[id];
    var m := w.nodes[n].(queue := w.nodes[n].queue[1..]);
    match c.pc.reply {
      case Version(v) =>
        var t := c.tags[|c.got|];
        PatchIsLocal(w, DeliverStep(w, n), id, c.(got := c.got + [(t, v)], pc := Versions),
                     m.(tagCache := m.tagCache[t := CachedVersion(v, w.now + TAG_CACHE_TTL_MS)]));
      case Absent => PatchIsLocal(w, DeliverStep(w, n), id, c.(pc := Init), m);
      case FromL2(Some(i)) =>
        PatchIsLocal(w, DeliverStep(w, n), id, c.(pc := Done(Some(i))), m.(l1 := m.l1[KeyOf(c) := i]));
      case FromL2(None) =>
        if c.kind.Read? {
          PatchIsLocal(w, DeliverStep(w, n), id, c.(pc := Fetching(w.step)), m.(inflight := m.inflight[KeyOf(c) := id]));
        } else {
          PatchIsLocal(w, DeliverStep(w, n), id, c.(pc := Done(None)), m);
        }
    }
  }

  lemma {:induction false} DeliverLater(w: World, n: nat)
    requires Inv(w) && DeliverPossible(w, n)
    ensures Later(w, DeliverStep(w, n))
  {
    hide Inv, CallOk, NodeOk, DeliverStep, Local;
    var id := w.nodes[n].queue[0];
    HeadIsOk(w, n);
    if w.calls[id].pc.reply.Bumped? {
      BumpedLater(w, n);
    } else {
      DeliverLocal(w, n);
      LocalIsLater(w, DeliverStep(w, n), id);
    }
  }

  lemma {:induction false} BumpedLater(w: World, n: nat)
    requires Inv(w) && DeliverPossible(w, n) && w.calls[w.nodes[n].queue[0]].pc.reply.Bumped?
    ensures Later(w, DeliverStep(w, n))
  {
    var c := w.calls[w.nodes[n].queue[0]];
    VersionsArePositive(w, w.nodes[n].queue[0]);
    forall t: Tag ensures FloorOf(w.nodes[n].floor, t) <= FloorOf(Raise(w.nodes[n].floor, c.got), t) {
      RaiseIsLeast(w.nodes[n].floor, c.got, t);
    }
    hide Inv, Raise;
  }

  lemma {:induction false} StepLater1(w: World, a: Action)
    requires Inv(w) && Possible(w, a)
    ensures Later(w, Effect(w, a))
  {
    hide CallPossible, DeliverPossible, Local, Inv, CallStep, DeliverStep;
    match a {
      case Deliver(n) => DeliverLater(w, n);
      case Start(_, _, _, _) =>
      case Tick(_) =>
      case LandWrite(_, _) =>
      case ForgetL1(_, _) =>
      case ForgetL2(_) =>
      case ExpireTag(_) =>
      case UseCached(id) => LookupLocal(w, a, id); LocalIsLater(w, Effect(w, a), id);
      case AskVersion(id) => LookupLocal(w, a, id); LocalIsLater(w, Effect(w, a), id);
      case InitVersion(id) => LookupLocal(w, a, id); LocalIsLater(w, Effect(w, a), id);
      case Bump(id) => LookupLocal(w, a, id); LocalIsLater(w, Effect(w, a), id);
      case BumpDone(id) => LookupLocal(w, a, id); LocalIsLater(w, Effect(w, a), id);
      case HitL1(id) => ReadLocal(w, a, id); LocalIsLater(w, Effect(w, a), id);
      case Join(id) => ReadLocal(w, a, id); LocalIsLater(w, Effect(w, a), id);
      case Miss(id) => ReadLocal(w, a, id); LocalIsLater(w, Effect(w, a), id);
      case AskL2(id, _) => ReadLocal(w, a, id); LocalIsLater(w, Effect(w, a), id);
      case Wake(id) => ReadLocal(w, a, id); LocalIsLater(w, Effect(w, a), id);
      case FetchOk(id, _) => StoreLocal(w, a, id); LocalIsLater(w, Effect(w, a), id);
      case FetchFail(id) => StoreLocal(w, a, id); LocalIsLater(w, Effect(w, a), id);
      case Settle(id) => StoreLocal(w, a, id); LocalIsLater(w, Effect(w, a), id);
      case WriteNow(id) => StoreLocal(w, a, id); LocalIsLater(w, Effect(w, a), id);
    }
  }

  lemma {:induction false} RunLater(w: World, acts: seq<Action>, last: World)
    requires Inv(w) && SafeRun(w, acts, last)
    ensures Inv(last) && Later(w, last)
    decreases |acts|
  {
    hide Inv, Later, Effect;
    if acts == [] {
      LaterItself(w);
    } else {
      var v := Next(w, acts[0]);
      StepKeeps(w, acts[0]);
      StepLater1(w, acts[0]);
      LaterTicked(w, Effect(w, acts[0]));
      RunLater(v, acts[1..], last);
      LaterTransitive(w, v, last);
    }
  }

  lemma {:induction false} LaterItself(w: World)
    ensures Later(w, w)
  {
  }

  lemma {:induction false} LaterTicked(w: World, v: World)
    requires Later(w, v)
    ensures Later(w, Ticked(v))
  {
  }

  // ---------------------------------------------------------------------------------------------
  // When the key was complete
  // ---------------------------------------------------------------------------------------------

  /**
   * Any read that has returned: the value is filed under exactly the key the read computed, and that
   * key was complete no earlier than the INCR that made each tag version in it.
   */
  lemma {:induction false} ReturnedKeyMatches(n: nat, latency: nat, t0: int, acts: seq<Action>, w: World,
      id: nat, i: Item, k: nat)
    requires SafeRun(Empty(n, latency, t0), acts, w) && Returned(w, id, i)
    requires k < |w.calls[id].tags|
    ensures i.key.base == w.calls[id].base && |i.key.versions| == |w.calls[id].tags|
    ensures i.key.versions[k].0 == w.calls[id].tags[k]
    ensures i.key.versions[k] in w.since && w.since[i.key.versions[k]].step <= i.keyed
  {
    EmptyIsOk(n, latency, t0);
    EveryRunKeeps(Empty(n, latency, t0), acts, w);
    hide SafeRun;
    MatchesKey(w, id, i, k);
  }

  lemma {:induction false} MatchesKey(w: World, id: nat, i: Item, k: nat)
    requires Inv(w) && Returned(w, id, i) && k < |w.calls[id].tags|
    ensures i.key.base == w.calls[id].base && |i.key.versions| == |w.calls[id].tags|
    ensures i.key.versions[k].0 == w.calls[id].tags[k]
    ensures i.key.versions[k] in w.since && w.since[i.key.versions[k]].step <= i.keyed
  {
    CallIsOk(w, id);
    hide Inv;
    assert GotOk(w.since, Slack(w), w.calls[id], k);
  }

  lemma {:induction false} FreshFor(w: World, id: nat, i: Item, k: nat, v: int)
    requires Inv(w) && Returned(w, id, i) && k < |w.calls[id].tags|
    requires (w.calls[id].tags[k], v) in w.since
    requires v <= FloorOf(w.calls[id].floor, w.calls[id].tags[k])
             || w.since[(w.calls[id].tags[k], v)].ms + Slack(w) <= w.calls[id].started
    ensures w.since[(w.calls[id].tags[k], v)].step <= i.keyed
  {
    CallIsOk(w, id);
    var c := w.calls[id];
    assert GotOk(w.since, Slack(w), c, k);
    assert c.got[k] == (c.tags[k], c.got[k].1);
    assert v <= c.got[k].1;
    assert HistoryOk(w.redis, w.since, w.step, w.now);
  }

  /**
   * Same node. An invalidation of tag `t` completes (its pipeline reply is handled); a read that
   * starts later on that node, whatever runs in between, returns only a value whose key was complete
   * after the invalidation's INCR.
   */
  lemma {:induction false} KeyedAfterInvalidation(
      nodes: nat, latency: nat, t0: int, before: seq<Action>, w: World, n: nat, j: nat,
      after: seq<Action>, last: World, id: nat, i: Item, k: nat)
    requires SafeRun(Empty(nodes, latency, t0), before, w)
    requires DeliverPossible(w, n) && w.calls[w.nodes[n].queue[0]].pc.reply.Bumped?
    requires j < |w.calls[w.nodes[n].queue[0]].got|
    requires SafeRun(Next(w, Deliver(n)), after, last)
    requires |w.calls| <= id && Returned(last, id, i) && last.calls[id].node == n
    requires k < |last.calls[id].tags| && last.calls[id].tags[k] == w.calls[w.nodes[n].queue[0]].got[j].0
    ensures w.calls[w.nodes[n].queue[0]].got[j] in w.since
    ensures w.since[w.calls[w.nodes[n].queue[0]].got[j]].step <= i.keyed
  {
    EmptyIsOk(nodes, latency, t0);
    EveryRunKeeps(Empty(nodes, latency, t0), before, w);
    hide Inv, FloorOf;
    var bump := w.calls[w.nodes[n].queue[0]].got[j];
    FloorAfterInvalidation(w, n, j);
    var v := Next(w, Deliver(n));
    DeliverKeeps(w, n);
    RunLater(v, after, last);
    FloorAtStart(v, last, id, bump.0);
    hide Next, Later;
    assert bump == (bump.0, bump.1);
    FreshFor(last, id, i, k, bump.1);
  }

  lemma {:induction false} FloorAfterInvalidation(w: World, n: nat, j: nat)
    requires Inv(w) && DeliverPossible(w, n) && w.calls[w.nodes[n].queue[0]].pc.reply.Bumped?
    requires j < |w.calls[w.nodes[n].queue[0]].got|
    ensures var bump := w.calls[w.nodes[n].queue[0]].got[j];
            var v := Next(w, Deliver(n));
            && v.since == w.since && |v.calls| == |w.calls| && |v.nodes| == |w.nodes|
            && bump in w.since && bump.1 <= FloorOf(v.nodes[n].floor, bump.0)
  {
    var c := w.calls[w.nodes[n].queue[0]];
    VersionsArePositive(w, w.nodes[n].queue[0]);
    RaiseIsLeast(w.nodes[n].floor, c.got, c.got[j].0);
    hide Inv, Raise, FloorOf;
  }

  lemma {:induction false} FloorAtStart(v: World, last: World, id: nat, t: Tag)
    requires Later(v, last) && |v.calls| <= id < |last.calls|
    ensures last.calls[id].node < |v.nodes|
    ensures FloorOf(v.nodes[last.calls[id].node].floor, t) <= FloorOf(last.calls[id].floor, t)
    ensures forall p <- v.since :: p in last.since && last.since[p] == v.since[p]
  {
    assert FloorLe(v.nodes[last.calls[id].node].floor, last.calls[id].floor);
  }

  /**
   * Any node. A read returns no value whose key was complete before a bump of one of its tags that
   * happened at least the 30 s of the local version cache plus one reply latency before the read.
   */
  lemma {:induction false} KeyedAfterOldBump(
      n: nat, latency: nat, t0: int, acts: seq<Action>, w: World, id: nat, i: Item, k: nat, v: int)
    requires SafeRun(Empty(n, latency, t0), acts, w) && Returned(w, id, i) && k < |w.calls[id].tags|
    requires (w.calls[id].tags[k], v) in w.since
    requires w.since[(w.calls[id].tags[k], v)].ms + TAG_CACHE_TTL_MS + latency <= w.calls[id].started
    ensures w.since[(w.calls[id].tags[k], v)].step <= i.keyed
  {
    EmptyIsOk(n, latency, t0);
    RunLater(Empty(n, latency, t0), acts, w);
    hide Inv;
    FreshFor(w, id, i, k, v);
  }
}
