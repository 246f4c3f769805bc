/** Single-flight: how many fetches of one key can run at once on one node. */
module CacheFlights {
  import opened Common
  import opened CacheProtocol
  import opened CacheTrace

  /** The call runs a flight: from its registration until it is about to be unregistered. */
  predicate Owns(c: Call) { c.pc.Fetching? || c.pc.Stored? }

  predicate SameTarget(c: Call, d: Call) { c.node == d.node && KeyOf(c) == KeyOf(d) }

  predicate Registered(nodes: seq<Node>, id: nat, c: Call) {
    c.node < |nodes| && KeyOf(c) in nodes[c.node].inflight && nodes[c.node].inflight[KeyOf(c)] == id
  }

  predicate Flies(calls: seq<Call>, n: nat, k: Key, id: nat) {
    id < |calls| && Owns(calls[id]) && calls[id].node == n && KeyOf(calls[id]) == k
  }

  /** The registered flights are exactly the running ones. */
  predicate Tracked(calls: seq<Call>, nodes: seq<Node>) {
    && (forall id: nat | id < |calls| && Owns(calls[id]) :: Registered(nodes, id, calls[id]))
    && (forall n: nat, k: Key | n < |nodes| && k in nodes[n].inflight :: Flies(calls, n, k, nodes[n].inflight[k]))
  }

  /** A read's L2 miss is handled while another call's flight is registered for the key. */
  predicate Doubles(w: World, a: Action) {
    && a.Deliver? && DeliverPossible(w, a.node)
    && var c := w.calls[w.nodes[a.node].queue[0]];
    && c.kind.Read? && c.pc.reply == FromL2(None) && KeyOf(c) in w.nodes[a.node].inflight
  }

  /** No node runs two flights for one key. */
  predicate SingleFlight(calls: seq<Call>) {
    forall id: nat, jd: nat | id < |calls| && jd < |calls| && Owns(calls[id]) && Owns(calls[jd]) ::
      SameTarget(calls[id], calls[jd]) ==> id == jd
  }

  predicate Inflights(w: World, v: World) {
    |v.nodes| == |w.nodes| && forall n: nat | n < |w.nodes| :: v.nodes[n].inflight == w.nodes[n].inflight
  }

  lemma {:induction false} TrackedIsSingle(calls: seq<Call>, nodes: seq<Node>)
    requires Tracked(calls, nodes)
    ensures SingleFlight(calls)
  {
    hide KeyOf;
    forall id: nat, jd: nat | id < |calls| && jd < |calls| && Owns(calls[id]) && Owns(calls[jd])
      ensures SameTarget(calls[id], calls[jd]) ==> id == jd
    {
      assert Registered(nodes, id, calls[id]) && Registered(nodes, jd, calls[jd]);
    }
  }

  /** One call changes, and its flight, if it has one, stays as it is. */
  lemma {:induction false} OneCallKeeps(w: World, v: World, id: nat)
    requires Tracked(w.calls, w.nodes) && id < |w.calls| && Inflights(w, v)
    requires |v.calls| == |w.calls| && v.calls == w.calls[id := v.calls[id]]
    requires Owns(v.calls[id]) <==> Owns(w.calls[id])
    requires Owns(v.calls[id]) ==> SameTarget(w.calls[id], v.calls[id])
    ensures Tracked(v.calls, v.nodes)
  {
    hide KeyOf;
    forall jd: nat | jd < |v.calls| && Owns(v.calls[jd]) ensures Registered(v.nodes, jd, v.calls[jd]) {
      assert Registered(w.nodes, jd, w.calls[jd]);
    }
    forall n: nat, k: Key | n < |v.nodes| && k in v.nodes[n].inflight
      ensures Flies(v.calls, n, k, v.nodes[n].inflight[k])
    {
      assert Flies(w.calls, n, k, w.nodes[n].inflight[k]);
    }
  }

  lemma {:induction false} LookupKeepsTracked(w: World, a: Action, id: nat)
    requires Tracked(w.calls, w.nodes) && CallPossible(w, a, id)
    requires a.UseCached? || a.AskVersion? || a.InitVersion? || a.Bump? || a.BumpDone?
    ensures var v := CallStep(w, a, id); Tracked(v.calls, v.nodes)
  {
    hide Tracked;
    OneCallKeeps(w, CallStep(w, a, id), id);
  }

  lemma {:induction false} ReadKeepsTracked(w: World, a: Action, id: nat)
    requires Tracked(w.calls, w.nodes) && CallPossible(w, a, id)
    requires a.HitL1? || a.Join? || a.Miss? || a.Wake? || a.AskL2? || a.WriteNow? || a.FetchOk?
    ensures var v := CallStep(w, a, id); Tracked(v.calls, v.nodes)
  {
    hide Tracked;
    OneCallKeeps(w, CallStep(w, a, id), id);
  }

  lemma {:induction false} EndKeepsTracked(w: World, a: Action, id: nat)
    requires Tracked(w.calls, w.nodes) && CallPossible(w, a, id) && (a.FetchFail? || a.Settle?)
    ensures var v := CallStep(w, a, id); Tracked(v.calls, v.nodes)
  {
    hide KeyOf;
    var v := CallStep(w, a, id);
    assert Registered(w.nodes, id, w.calls[id]);
    forall jd: nat | jd < |v.calls| && Owns(v.calls[jd]) ensures Registered(v.nodes, jd, v.calls[jd]) {
      assert jd != id && Registered(w.nodes, jd, w.calls[jd]);
    }
    forall n: nat, k: Key | n < |v.nodes| && k in v.nodes[n].inflight
      ensures Flies(v.calls, n, k, v.nodes[n].inflight[k])
    {
      assert Flies(w.calls, n, k, w.nodes[n].inflight[k]);
    }
  }

  lemma {:induction false} IdlePatch(w: World, v: World, id: nat, d: Call, m: Node)
    requires Tracked(w.calls, w.nodes) && id < |w.calls| && w.calls[id].node == d.node < |w.nodes|
    requires v == SetNode(SetCall(w, id, d), d.node, m) && m.inflight == w.nodes[d.node].inflight
    requires !Owns(w.calls[id]) && !Owns(d)
    ensures Tracked(v.calls, v.nodes)
  {
    hide Tracked, KeyOf;
    OneCallKeeps(w, v, id);
  }

  lemma {:induction false} DeliverIdle(w: World, n: nat)
    requires Tracked(w.calls, w.nodes) && DeliverPossible(w, n)
    requires var c := w.calls[w.nodes[n].queue[0]]; !(c.kind.Read? && c.pc.reply == FromL2(None))
    ensures var v := DeliverStep(w, n); Tracked(v.calls, v.nodes)
  {
    hide Tracked, KeyOf, Forget, Raise;
    var id := w.nodes[n].queue[0];
    var c := w.calls[id];
    var m := w.nodes[n].(queue := w.nodes[n].queue[1..]);
    match c.pc.reply {
      case Version(v) =>
        if |c.got| < |c.tags| {
          var t := c.tags[|c.got|];
          IdlePatch(w, DeliverStep(w, n), id, c.(got := c.got + [(t, v)], pc := Versions),
                    m.(tagCache := m.tagCache[t := CachedVersion(v, w.now + TAG_CACHE_TTL_MS)]));
        } else {
          IdlePatch(w, DeliverStep(w, n), id, c.(pc := Versions), m);
        }
      case Absent => IdlePatch(w, DeliverStep(w, n), id, c.(pc := Init), m);
      case FromL2(Some(i)) =>
        IdlePatch(w, DeliverStep(w, n), id, c.(pc := Done(Some(i))), m.(l1 := m.l1[KeyOf(c) := i]));
      case FromL2(None) => IdlePatch(w, DeliverStep(w, n), id, c.(pc := Done(None)), m);
      case Bumped =>
        IdlePatch(w, DeliverStep(w, n), id, c.(pc := Done(None)),
                  m.(tagCache := Forget(m.tagCache, c.tags), floor := Raise(m.floor, c.got)));
    }
  }

  lemma {:induction false} RegisterKeepsTracked(w: World, n: nat)
    requires Tracked(w.calls, w.nodes) && DeliverPossible(w, n) && !Doubles(w, Deliver(n))
    requires var c := w.calls[w.nodes[n].queue[0]]; c.kind.Read? && c.pc.reply == FromL2(None)
    ensures var v := DeliverStep(w, n); Tracked(v.calls, v.nodes)
  {
    var id := w.nodes[n].queue[0];
    var v := DeliverStep(w, n);
    forall jd: nat | jd < |v.calls| && Owns(v.calls[jd]) ensures Registered(v.nodes, jd, v.calls[jd]) {
      if jd != id {
        assert Registered(w.nodes, jd, w.calls[jd]);
      }
    }
    forall m: nat, k: Key | m < |v.nodes| && k in v.nodes[m].inflight
      ensures Flies(v.calls, m, k, v.nodes[m].inflight[k])
    {
      if !(m == n && k == KeyOf(w.calls[id])) {
        assert Flies(w.calls, m, k, w.nodes[m].inflight[k]);
      }
    }
  }

  /** The registered flight goes on beside the new one. */
  lemma {:induction false} DoublingIsDouble(w: World, a: Action)
    requires Tracked(w.calls, w.nodes) && Doubles(w, a)
    ensures !SingleFlight(Next(w, a).calls)
  {
    var id := w.nodes[a.node].queue[0];
    var k := KeyOf(w.calls[id]);
    var jd := w.nodes[a.node].inflight[k];
    assert Flies(w.calls, a.node, k, jd);
    var v := Next(w, a);
    assert Owns(v.calls[id]) && Owns(v.calls[jd]) && SameTarget(v.calls[id], v.calls[jd]) && id != jd;
  }

  lemma {:induction false} DeliverKeepsTracked(w: World, n: nat)
    requires Tracked(w.calls, w.nodes) && DeliverPossible(w, n) && !Doubles(w, Deliver(n))
    ensures var v := DeliverStep(w, n); Tracked(v.calls, v.nodes)
  {
    hide Tracked, DeliverStep, DeliverPossible, Doubles;
    assert n < |w.nodes| && w.nodes[n].queue != [] && w.nodes[n].queue[0] < |w.calls|
           && w.calls[w.nodes[n].queue[0]].pc.Replied? by {
      QueueHead(w, n);
    }
    var c := w.calls[w.nodes[n].queue[0]];
    if c.kind.Read? && c.pc.reply == FromL2(None) {
      RegisterKeepsTracked(w, n);
    } else {
      DeliverIdle(w, n);
    }
  }

  lemma {:induction false} QueueHead(w: World, n: nat)
    requires DeliverPossible(w, n)
    ensures n < |w.nodes| && w.nodes[n].queue != [] && w.nodes[n].queue[0] < |w.calls|
    ensures w.calls[w.nodes[n].queue[0]].pc.Replied?
  {
  }

  lemma {:induction false} StepKeepsTracked(w: World, a: Action)
    requires Tracked(w.calls, w.nodes) && Possible(w, a) && !Doubles(w, a)
    ensures Tracked(Next(w, a).calls, Next(w, a).nodes)
  {
    hide CallStep, CallPossible, DeliverStep, DeliverPossible, Doubles;
    match a {
      case Start(_, _, _, _) => StartKeepsTracked(w, a);
      case Tick(_) =>
      case LandWrite(_, _) =>
      case ForgetL1(_, _) =>
      case ForgetL2(_) =>
      case ExpireTag(_) =>
      case Deliver(n) => DeliverKeepsTracked(w, n);
      case FetchFail(id) => EndKeepsTracked(w, a, id);
      case Settle(id) => EndKeepsTracked(w, a, id);
      case HitL1(id) => ReadKeepsTracked(w, a, id);
      case Join(id) => ReadKeepsTracked(w, a, id);
      case Miss(id) => ReadKeepsTracked(w, a, id);
      case Wake(id) => ReadKeepsTracked(w, a, id);
      case AskL2(id, _) => ReadKeepsTracked(w, a, id);
      case WriteNow(id) => ReadKeepsTracked(w, a, id);
      case FetchOk(id, _) => ReadKeepsTracked(w, a, id);
      case UseCached(id) => LookupKeepsTracked(w, a, id);
      case AskVersion(id) => LookupKeepsTracked(w, a, id);
      case InitVersion(id) => LookupKeepsTracked(w, a, id);
      case Bump(id) => LookupKeepsTracked(w, a, id);
      case BumpDone(id) => LookupKeepsTracked(w, a, id);
    }
  }

  lemma {:induction false} StartKeepsTracked(w: World, a: Action)
    requires Tracked(w.calls, w.nodes) && Possible(w, a) && a.Start?
    ensures Tracked(Next(w, a).calls, Next(w, a).nodes)
  {
    var v := Next(w, a);
    forall n: nat, k: Key | n < |v.nodes| && k in v.nodes[n].inflight
      ensures Flies(v.calls, n, k, v.nodes[n].inflight[k])
    {
      assert Flies(w.calls, n, k, w.nodes[n].inflight[k]);
    }
  }

  predicate NeverDoubles(w: World, acts: seq<Action>)
    decreases |acts|
  {
    acts == [] || (Possible(w, acts[0]) && !Doubles(w, acts[0]) && NeverDoubles(Next(w, acts[0]), acts[1..]))
  }

  predicate SingleThroughout(w: World, acts: seq<Action>)
    decreases |acts|
  {
    SingleFlight(w.calls) && (acts == [] || (Possible(w, acts[0]) && SingleThroughout(Next(w, acts[0]), acts[1..])))
  }

  lemma {:induction false} RunTracks(w: World, acts: seq<Action>, last: World)
    requires Tracked(w.calls, w.nodes) && Run(w, acts, last)
    ensures SingleThroughout(w, acts) <==> NeverDoubles(w, acts)
    ensures NeverDoubles(w, acts) ==> Tracked(last.calls, last.nodes)
    decreases |acts|
  {
    hide Tracked, Next, Doubles, Possible, SingleFlight;
    TrackedIsSingle(w.calls, w.nodes);
    if acts != [] {
      if Doubles(w, acts[0]) {
        DoublingIsDouble(w, acts[0]);
      } else {
        StepKeepsTracked(w, acts[0]);
        RunTracks(Next(w, acts[0]), acts[1..], last);
      }
    }
  }

  /**
   * No state of a run has two flights for one key on one node exactly if no caller's L2 miss is
   * handled while a flight for its key, which it did not see when it checked, is registered.
   */
  lemma {:induction false} SingleFlightIff(n: nat, latency: nat, t0: int, acts: seq<Action>, w: World)
    requires Run(Empty(n, latency, t0), acts, w)
    ensures SingleThroughout(Empty(n, latency, t0), acts) <==> NeverDoubles(Empty(n, latency, t0), acts)
  {
    hide Run, SingleThroughout, NeverDoubles;
    RunTracks(Empty(n, latency, t0), acts, w);
  }

  /** In such a run a read that misses L1 while a fetch of its key runs can only join it. */
  lemma {:induction false} AtMostOneFetchPerKey(
      n: nat, latency: nat, t0: int, acts: seq<Action>, w: World, id: nat, jd: nat)
    requires Run(Empty(n, latency, t0), acts, w) && NeverDoubles(Empty(n, latency, t0), acts)
    requires id < |w.calls| && jd < |w.calls| && w.calls[id].pc.Fetching?
    requires SameTarget(w.calls[id], w.calls[jd])
    ensures w.calls[jd].pc.Fetching? ==> id == jd
    ensures w.calls[jd].kind.Read? ==> !Possible(w, Miss(jd))
    ensures Possible(w, Join(jd)) ==> Next(w, Join(jd)).calls[jd].pc == Joined(id)
  {
    RunTracks(Empty(n, latency, t0), acts, w);
    hide Run, NeverDoubles, SingleThroughout;
    assert Registered(w.nodes, id, w.calls[id]);
    assert Owns(w.calls[jd]) ==> Registered(w.nodes, jd, w.calls[jd]);
  }

  const KEY := Key("k", [])

  function Reader(begun: nat, pc: Pc): Call { Call(0, Read, "k", [], 0, begun, map[], [], pc) }

  function One(step: nat, calls: seq<Call>, queue: seq<nat>, inflight: map<Key, nat>): World {
    World(step, 0, 0, map[], map[], map[], {}, [Node(map[], map[], inflight, queue, map[])], calls)
  }

  /** Two reads start together and check one after the other. */
  const ACTS: seq<Action> := [
    Start(0, Read, "k", []), Start(0, Read, "k", []), Miss(0), Miss(1), AskL2(0, true), AskL2(1, true),
    Deliver(0), Deliver(0)]

  function W(i: nat): World
    requires i <= 8
  {
    var gone := Replied(FromL2(None), 0);
    match i
    case 0 => One(0, [], [], map[])
    case 1 => One(1, [Reader(0, Versions)], [], map[])
    case 2 => One(2, [Reader(0, Versions), Reader(1, Versions)], [], map[])
    case 3 => One(3, [Reader(0, WantL2), Reader(1, Versions)], [], map[])
    case 4 => One(4, [Reader(0, WantL2), Reader(1, WantL2)], [], map[])
    case 5 => One(5, [Reader(0, gone), Reader(1, WantL2)], [0], map[])
    case 6 => One(6, [Reader(0, gone), Reader(1, gone)], [0, 1], map[])
    case 7 => One(7, [Reader(0, Fetching(6)), Reader(1, gone)], [1], map[KEY := 0])
    case 8 => One(8, [Reader(0, Fetching(6)), Reader(1, Fetching(7))], [], map[KEY := 1])
  }

  predicate Leads(i: nat)
    requires i < 8
  {
    Possible(W(i), ACTS[i]) && Next(W(i), ACTS[i]) == W(i + 1)
  }

  lemma {:induction false} Steps0And1()
    ensures Leads(0) && Leads(1)
  {
    assert Leads(0) by {
      Same(Next(W(0), ACTS[0]), W(1));
    }
    assert Leads(1) by {
      Same(Next(W(1), ACTS[1]), W(2));
    }
  }

  lemma {:induction false} Steps2And3()
    ensures Leads(2) && Leads(3)
  {
    assert Leads(2) by {
      Same(Next(W(2), ACTS[2]), W(3));
    }
    assert Leads(3) by {
      Same(Next(W(3), ACTS[3]), W(4));
    }
  }

  lemma {:induction false} Steps4And5()
    ensures Leads(4) && Leads(5)
  {
    assert Leads(4) by {
      Same(Next(W(4), ACTS[4]), W(5));
    }
    assert Leads(5) by {
      Same(Next(W(5), ACTS[5]), W(6));
    }
  }

  lemma {:induction false} Steps6And7()
    ensures Leads(6) && Leads(7)
  {
    assert Leads(6) by {
      Same(Next(W(6), ACTS[6]), W(7));
    }
    assert Leads(7) by {
      Same(Next(W(7), ACTS[7]), W(8));
    }
  }

  lemma {:induction false} FromHere(i: nat)
    requires i <= 8
    ensures Run(W(i), ACTS[i..], W(8))
    decreases 8 - i
  {
    hide W, Next, Possible;
    if i < 8 {
      assert Possible(W(i), ACTS[i]) && Next(W(i), ACTS[i]) == W(i + 1) by {
        match i {
          case 0 => Steps0And1();
          case 1 => Steps0And1();
          case 2 => Steps2And3();
          case 3 => Steps2And3();
          case 4 => Steps4And5();
          case 5 => Steps4And5();
          case 6 => Steps6And7();
          case 7 => Steps6And7();
        }
      }
      FromHere(i + 1);
      Prepend(W(i), ACTS[i], W(i + 1), ACTS[i + 1..], W(8));
      assert [ACTS[i]] + ACTS[i + 1..] == ACTS[i..];
    }
  }

  /** Otherwise it fails: both reads fetch the same key at once. */
  lemma {:induction false} TwoFetchesOfOneKey() returns (acts: seq<Action>, w: World)
    ensures Run(Empty(1, 0, 0), acts, w) && |w.calls| == 2 && SameTarget(w.calls[0], w.calls[1])
    ensures w.calls[0].pc.Fetching? && w.calls[1].pc.Fetching?
  {
    Same(W(0), Empty(1, 0, 0));
    assert W(8).calls == [Reader(0, Fetching(6)), Reader(1, Fetching(7))];
    hide W, Run, Empty;
    FromHere(0);
    acts, w := ACTS[0..], W(8);
  }
}
