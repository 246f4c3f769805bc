/** Where a returned value came from, and so how fresh it is. */
module CacheOrigin {
  import opened Common
  import opened CacheProtocol
  import opened CacheInvariant
  import opened CacheSteps
  import opened CacheFresh

  /** The fetches that have succeeded: for which key, and what they returned. */
  type Fetches = set<(Key, int)>

  /** A value is the result of a fetch for its key, or the one its set call stored. */
  predicate Sourced(calls: seq<Call>, f: Fetches, i: Item) {
    match i.writer
    case None => (i.key, i.payload) in f
    case Some(id) => id < |calls| && calls[id].pc == Wrote(i)
  }

  /** A set stores its own argument, under the key it computed, after it started. */
  predicate WroteOk(calls: seq<Call>, id: nat, step: nat)
    requires id < |calls|
  {
    var c := calls[id];
    && c.begun < step
    && (c.pc.Wrote? ==>
         && c.pc.item.writer == Some(id) && c.kind == Write(c.pc.item.payload) && KeyOf(c) == c.pc.item.key && Full(c)
         && c.begun < c.pc.item.keyed < step)
  }

  /** The value a call holds or awaits the handling of. */
  function Held(pc: Pc): Option<Item> {
    match pc
    case Stored(i) => Some(i)
    case Done(o) => o
    case Replied(FromL2(o), _) => o
    case _ => None
  }

  predicate HeldOk(calls: seq<Call>, f: Fetches, pc: Pc) { Held(pc).Some? ==> Sourced(calls, f, Held(pc).value) }

  predicate AllSourced(calls: seq<Call>, f: Fetches, m: map<Key, Item>) { forall k <- m :: Sourced(calls, f, m[k]) }

  predicate NodesSourced(calls: seq<Call>, f: Fetches, nodes: seq<Node>) {
    forall n: nat | n < |nodes| :: AllSourced(calls, f, nodes[n].l1)
  }

  predicate CallsSourced(calls: seq<Call>, f: Fetches, step: nat) {
    && (forall id: nat | id < |calls| :: WroteOk(calls, id, step))
    && (forall id: nat | id < |calls| :: HeldOk(calls, f, calls[id].pc))
  }

  predicate WritesSourced(calls: seq<Call>, f: Fetches, writes: set<(Key, Item)>) { forall p <- writes :: Sourced(calls, f, p.1) }

  predicate Origin(w: World, f: Fetches) {
    && CallsSourced(w.calls, f, w.step) && NodesSourced(w.calls, f, w.nodes)
    && AllSourced(w.calls, f, w.l2) && WritesSourced(w.calls, f, w.writes)
  }

  // ---------------------------------------------------------------------------------------------
  // Every step keeps it
  // ---------------------------------------------------------------------------------------------

  /** Calls are added or move on; one that has written stays as it is. */
  predicate Evolves(calls: seq<Call>, next: seq<Call>) {
    && |calls| <= |next|
    && forall id: nat | id < |calls| ::
         next[id].begun == calls[id].begun && (calls[id].pc.Wrote? ==> next[id] == calls[id])
  }

  lemma {:induction false} EvolvesSourced(calls: seq<Call>, next: seq<Call>, f: Fetches, g: Fetches, i: Item)
    requires Evolves(calls, next) && f <= g && Sourced(calls, f, i)
    ensures Sourced(next, g, i)
  {
  }

  lemma {:induction false} EvolvesAll(calls: seq<Call>, next: seq<Call>, f: Fetches, g: Fetches, m: map<Key, Item>)
    requires Evolves(calls, next) && f <= g && AllSourced(calls, f, m)
    ensures AllSourced(next, g, m)
  {
    hide Evolves, Sourced;
    forall k | k in m ensures Sourced(next, g, m[k]) {
      EvolvesSourced(calls, next, f, g, m[k]);
    }
  }

  lemma {:induction false} EvolvesShared(w: World, v: World, f: Fetches, g: Fetches)
    requires Origin(w, f) && f <= g && Evolves(w.calls, v.calls)
    requires v.l2 == w.l2 && v.writes == w.writes
    ensures AllSourced(v.calls, g, v.l2) && WritesSourced(v.calls, g, v.writes)
    ensures forall n: nat | n < |w.nodes| :: AllSourced(v.calls, g, w.nodes[n].l1)
    ensures forall id: nat | id < |w.calls| :: HeldOk(v.calls, g, w.calls[id].pc)
  {
    hide Evolves, Sourced, AllSourced;
    EvolvesAll(w.calls, v.calls, f, g, w.l2);
    forall p | p in w.writes ensures Sourced(v.calls, g, p.1) {
      EvolvesSourced(w.calls, v.calls, f, g, p.1);
    }
    forall n: nat | n < |w.nodes| ensures AllSourced(v.calls, g, w.nodes[n].l1) {
      EvolvesAll(w.calls, v.calls, f, g, w.nodes[n].l1);
    }
    forall id: nat | id < |w.calls| ensures HeldOk(v.calls, g, w.calls[id].pc) {
      if Held(w.calls[id].pc).Some? {
        EvolvesSourced(w.calls, v.calls, f, g, Held(w.calls[id].pc).value);
      }
    }
  }

  /** One call moves to `d` and its node to `m`: what has to be shown about the two. */
  lemma {:induction false} OriginPatched(w: World, v: World, f: Fetches, g: Fetches, id: nat, d: Call, m: Node)
    requires Origin(w, f) && f <= g && id < |w.calls| && d.node < |w.nodes| && !w.calls[id].pc.Wrote?
    requires v.calls == w.calls[id := d] && v.nodes == w.nodes[d.node := m]
    requires v.l2 == w.l2 && v.writes == w.writes && v.step == w.step + 1
    requires d.begun == w.calls[id].begun && WroteOk(v.calls, id, v.step)
    requires HeldOk(v.calls, g, d.pc) && AllSourced(v.calls, g, m.l1)
    ensures Origin(v, g)
  {
    assert Evolves(w.calls, v.calls);
    EvolvesShared(w, v, f, g);
    hide Sourced, AllSourced, Evolves, Held;
    forall k: nat | k < |v.calls| ensures WroteOk(v.calls, k, v.step) {
      assert WroteOk(w.calls, k, w.step);
    }
  }

  /** A step that moves one call, to a state that holds nothing new, and its node without touching L1. */
  lemma {:induction false} OriginMoves(w: World, v: World, f: Fetches, id: nat, d: Call, m: Node)
    requires Origin(w, f) && id < |w.calls| && d.node < |w.nodes| && !w.calls[id].pc.Wrote? && !d.pc.Wrote?
    requires v.calls == w.calls[id := d] && v.nodes == w.nodes[d.node := m]
    requires v.l2 == w.l2 && v.writes == w.writes && v.step == w.step + 1
    requires d.begun == w.calls[id].begun && m.l1 == w.nodes[d.node].l1
    requires Held(d.pc).Some? ==> Sourced(w.calls, f, Held(d.pc).value)
    ensures Origin(v, f)
  {
    assert WroteOk(w.calls, id, w.step);
    assert Evolves(w.calls, v.calls);
    assert AllSourced(w.calls, f, w.nodes[d.node].l1);
    EvolvesAll(w.calls, v.calls, f, f, m.l1);
    if Held(d.pc).Some? {
      EvolvesSourced(w.calls, v.calls, f, f, Held(d.pc).value);
    }
    hide Sourced, AllSourced, Evolves, Held;
    OriginPatched(w, v, f, f, id, d, m);
  }

  /** A value enters both tiers by the call that holds it. */
  lemma {:induction false} OriginPuts(w: World, v: World, f: Fetches, g: Fetches, id: nat, d: Call, i: Item)
    requires Origin(w, f) && f <= g && id < |w.calls| && d.node < |w.nodes| && !w.calls[id].pc.Wrote?
    requires v == Put(SetCall(w, id, d), d.node, i).(step := w.step + 1)
    requires d.begun == w.calls[id].begun && WroteOk(v.calls, id, v.step)
    requires HeldOk(v.calls, g, d.pc) && Sourced(v.calls, g, i)
    ensures Origin(v, g)
  {
    var u := v.(writes := w.writes);
    var n := w.nodes[d.node];
    var m := n.(l1 := n.l1[i.key := i]);
    assert Evolves(w.calls, v.calls);
    assert AllSourced(w.calls, f, n.l1);
    EvolvesAll(w.calls, v.calls, f, g, n.l1);
    hide Sourced, Evolves, Held, WroteOk;
    OriginPatched(w, u, f, g, id, d, m);
  }

  lemma {:induction false} LookupKeepsOrigin(w: World, f: Fetches, a: Action, id: nat)
    requires Origin(w, f) && CallPossible(w, a, id) && Possible(w, a) && a.id == id
    requires a.UseCached? || a.AskVersion? || a.InitVersion? || a.Bump? || a.BumpDone?
    ensures Origin(Next(w, a), f)
  {
    hide Origin;
    var v := Next(w, a);
    OriginMoves(w, v, f, id, v.calls[id], v.nodes[w.calls[id].node]);
  }

  lemma {:induction false} ReadKeepsOrigin(w: World, f: Fetches, a: Action, id: nat)
    requires Origin(w, f) && CallPossible(w, a, id) && Possible(w, a) && a.id == id
    requires a.HitL1? || a.Join? || a.Miss? || a.AskL2? || a.Wake? || a.FetchFail? || a.Settle?
    ensures Origin(Next(w, a), f)
  {
    var v := Next(w, a);
    var c := w.calls[id];
    assert HeldOk(w.calls, f, c.pc);
    assert AllSourced(w.calls, f, w.nodes[c.node].l1);
    if a.Wake? {
      assert HeldOk(w.calls, f, w.calls[c.pc.leader].pc);
    }
    assert Held(v.calls[id].pc).Some? ==> Sourced(w.calls, f, Held(v.calls[id].pc).value);
    hide Origin, Sourced;
    OriginMoves(w, v, f, id, v.calls[id], v.nodes[c.node]);
  }

  lemma {:induction false} FetchOkKeepsOrigin(w: World, f: Fetches, id: nat, payload: int)
    requires Origin(w, f) && CallPossible(w, FetchOk(id, payload), id)
    ensures id < |w.calls|
    ensures Origin(Next(w, FetchOk(id, payload)), f + {(KeyOf(w.calls[id]), payload)})
  {
    var c := w.calls[id];
    var i := Item(KeyOf(c), payload, c.pc.born, None);
    assert WroteOk(w.calls, id, w.step);
    hide Origin;
    OriginPuts(w, Next(w, FetchOk(id, payload)), f, f + {(KeyOf(c), payload)}, id, c.(pc := Stored(i)), i);
  }

  lemma {:induction false} WriteNowKeepsOrigin(w: World, f: Fetches, id: nat)
    requires Origin(w, f) && CallPossible(w, WriteNow(id), id)
    ensures Origin(Next(w, WriteNow(id)), f)
  {
    var c := w.calls[id];
    var i := Item(KeyOf(c), c.kind.payload, w.step, Some(id));
    assert WroteOk(w.calls, id, w.step);
    hide Origin;
    OriginPuts(w, Next(w, WriteNow(id)), f, f, id, c.(pc := Wrote(i)), i);
  }

  lemma {:induction false} DeliverHitKeepsOrigin(w: World, f: Fetches, n: nat)
    requires Origin(w, f) && DeliverPossible(w, n)
    requires var r := w.calls[w.nodes[n].queue[0]].pc.reply; r.FromL2? && r.item.Some?
    ensures Origin(Next(w, Deliver(n)), f)
  {
    var v := Next(w, Deliver(n));
    var id := w.nodes[n].queue[0];
    var c := w.calls[id];
    var i := c.pc.reply.item.value;
    assert HeldOk(w.calls, f, c.pc) && WroteOk(w.calls, id, w.step) && AllSourced(w.calls, f, w.nodes[n].l1);
    assert Evolves(w.calls, v.calls);
    EvolvesAll(w.calls, v.calls, f, f, w.nodes[n].l1);
    EvolvesSourced(w.calls, v.calls, f, f, i);
    hide Origin, Sourced, Evolves;
    OriginPatched(w, v, f, f, id, c.(pc := Done(Some(i))), v.nodes[n]);
  }

  lemma {:induction false} DeliverKeepsOrigin(w: World, f: Fetches, n: nat)
    requires Origin(w, f) && DeliverPossible(w, n)
    ensures Origin(Next(w, Deliver(n)), f)
  {
    hide Origin, Raise, Forget, KeyOf, HeldOk, Sourced;
    var v := Next(w, Deliver(n));
    var id := w.nodes[n].queue[0];
    var c := w.calls[id];
    var m := w.nodes[n].(queue := w.nodes[n].queue[1..]);
    match c.pc.reply {
      case Version(version) =>
        if |c.got| < |c.tags| {
          var t := c.tags[|c.got|];
          OriginMoves(w, v, f, id, c.(got := c.got + [(t, version)], pc := Versions),
                      m.(tagCache := m.tagCache[t := CachedVersion(version, w.now + TAG_CACHE_TTL_MS)]));
        } else {
          OriginMoves(w, v, f, id, c.(pc := Versions), m);
        }
      case Absent => OriginMoves(w, v, f, id, c.(pc := Init), m);
      case FromL2(Some(i)) => DeliverHitKeepsOrigin(w, f, n);
      case FromL2(None) =>
        if c.kind.Read? {
          OriginMoves(w, v, f, id, c.(pc := Fetching(w.step)), m.(inflight := m.inflight[KeyOf(c) := id]));
        } else {
          OriginMoves(w, v, f, id, c.(pc := Done(None)), m);
        }
      case Bumped =>
        OriginMoves(w, v, f, id, c.(pc := Done(None)),
                    m.(tagCache := Forget(m.tagCache, c.tags), floor := Raise(m.floor, c.got)));
    }
  }

  lemma {:induction false} StartKeepsOrigin(w: World, f: Fetches, n: nat, kind: Kind, base: string, tags: seq<Tag>)
    requires Origin(w, f) && n < |w.nodes|
    ensures Origin(Next(w, Start(n, kind, base, tags)), f)
  {
    var v := Next(w, Start(n, kind, base, tags));
    assert Evolves(w.calls, v.calls);
    EvolvesShared(w, v, f, f);
    hide Sourced, AllSourced, Evolves, Held;
    forall k: nat | k < |v.calls| ensures WroteOk(v.calls, k, v.step) {
      assert k < |w.calls| ==> WroteOk(w.calls, k, w.step);
    }
  }

  lemma {:induction false} QuietKeepsOrigin(w: World, f: Fetches, a: Action)
    requires Origin(w, f) && Possible(w, a)
    requires a.Tick? || a.LandWrite? || a.ForgetL1? || a.ForgetL2? || a.ExpireTag?
    ensures Origin(Next(w, a), f)
  {
    hide Sourced, Held;
    var v := Next(w, a);
    forall k: nat | k < |v.calls| ensures WroteOk(v.calls, k, v.step) {
      assert WroteOk(w.calls, k, w.step);
    }
    forall n: nat | n < |v.nodes| ensures AllSourced(v.calls, f, v.nodes[n].l1) {
      assert AllSourced(w.calls, f, w.nodes[n].l1);
    }
  }

  /** What an action fetches. */
  function FetchedBy(w: World, a: Action): Fetches {
    if a.FetchOk? && a.id < |w.calls| then {(KeyOf(w.calls[a.id]), a.payload)} else {}
  }

  /** What a run fetches. */
  function FetchedIn(w: World, acts: seq<Action>): Fetches
    decreases |acts|
  {
    if acts == [] || !Possible(w, acts[0]) then {}
    else FetchedBy(w, acts[0]) + FetchedIn(Next(w, acts[0]), acts[1..])
  }

  lemma {:induction false} StepKeepsOrigin(w: World, f: Fetches, a: Action)
    requires Origin(w, f) && Possible(w, a)
    ensures Origin(Next(w, a), f + FetchedBy(w, a))
  {
    hide Origin, CallPossible, DeliverPossible, Effect;
    if a.FetchOk? {
      FetchOkKeepsOrigin(w, f, a.id, a.payload);
    } else {
      OtherStepKeepsOrigin(w, f, a);
      assert f + {} == f;
    }
  }

  lemma {:induction false} OtherStepKeepsOrigin(w: World, f: Fetches, a: Action)
    requires Origin(w, f) && Possible(w, a) && !a.FetchOk?
    ensures Origin(Next(w, a), f)
  {
    hide Origin, CallPossible, DeliverPossible, Effect;
    match a {
      case Start(n, kind, base, tags) => StartKeepsOrigin(w, f, n, kind, base, tags);
      case Deliver(n) => DeliverKeepsOrigin(w, f, n);
      case Tick(_) => QuietKeepsOrigin(w, f, a);
      case LandWrite(_, _) => QuietKeepsOrigin(w, f, a);
      case ForgetL1(_, _) => QuietKeepsOrigin(w, f, a);
      case ForgetL2(_) => QuietKeepsOrigin(w, f, a);
      case ExpireTag(_) => QuietKeepsOrigin(w, f, a);
      case UseCached(id) => LookupKeepsOrigin(w, f, a, id);
      case AskVersion(id) => LookupKeepsOrigin(w, f, a, id);
      case InitVersion(id) => LookupKeepsOrigin(w, f, a, id);
      case Bump(id) => LookupKeepsOrigin(w, f, a, id);
      case BumpDone(id) => LookupKeepsOrigin(w, f, a, id);
      case HitL1(id) => ReadKeepsOrigin(w, f, a, id);
      case Join(id) => ReadKeepsOrigin(w, f, a, id);
      case Miss(id) => ReadKeepsOrigin(w, f, a, id);
      case AskL2(id, _) => ReadKeepsOrigin(w, f, a, id);
      case Wake(id) => ReadKeepsOrigin(w, f, a, id);
      case FetchFail(id) => ReadKeepsOrigin(w, f, a, id);
      case Settle(id) => ReadKeepsOrigin(w, f, a, id);
      case WriteNow(id) => WriteNowKeepsOrigin(w, f, id);
    }
  }

  lemma {:induction false} EmptyHasOrigin(n: nat, latency: nat, now: int)
    ensures Origin(Empty(n, latency, now), {})
  {
  }

  // ---------------------------------------------------------------------------------------------
  // What runs leave of earlier calls
  // ---------------------------------------------------------------------------------------------

  /** Calls move on, looking up versions in order; those added began later. */
  predicate Aftermath(u: World, v: World) {
    && Evolves(u.calls, v.calls) && u.step <= v.step
    && (forall id: nat | id < |u.calls| :: u.calls[id].got <= v.calls[id].got && v.calls[id].tags == u.calls[id].tags)
    && (forall id: nat | |u.calls| <= id < |v.calls| :: u.step <= v.calls[id].begun)
  }

  lemma {:induction false} AftermathTransitive(u: World, v: World, w: World)
    requires Aftermath(u, v) && Aftermath(v, w)
    ensures Aftermath(u, w)
  {
  }

  lemma {:induction false} OneCallMoves(u: World, v: World, id: nat, d: Call)
    requires id < |u.calls| && v.calls == u.calls[id := d] && v.step == u.step + 1
    requires !u.calls[id].pc.Wrote? && d.begun == u.calls[id].begun
    requires u.calls[id].got <= d.got && d.tags == u.calls[id].tags
    ensures Aftermath(u, v)
  {
  }

  lemma {:induction false} CallStepMoves(w: World, a: Action, id: nat)
    requires CallPossible(w, a, id) && Possible(w, a) && a.id == id
    requires !a.Start? && !a.Deliver? && !a.Tick? && !a.LandWrite? && !a.ForgetL1? && !a.ForgetL2? && !a.ExpireTag?
    ensures Aftermath(w, Next(w, a))
  {
    OneCallMoves(w, Next(w, a), id, Next(w, a).calls[id]);
  }

  lemma {:induction false} DeliverMoves(w: World, n: nat)
    requires DeliverPossible(w, n)
    ensures Aftermath(w, Next(w, Deliver(n)))
  {
    hide Aftermath, Raise, Forget, KeyOf;
    var v := Next(w, Deliver(n));
    var id := w.nodes[n].queue[0];
    var c := w.calls[id];
    match c.pc.reply {
      case Version(version) =>
        if |c.got| < |c.tags| {
          OneCallMoves(w, v, id, c.(got := c.got + [(c.tags[|c.got|], version)], pc := Versions));
        } else {
          OneCallMoves(w, v, id, c.(pc := Versions));
        }
      case Absent => OneCallMoves(w, v, id, c.(pc := Init));
      case FromL2(Some(i)) => OneCallMoves(w, v, id, c.(pc := Done(Some(i))));
      case FromL2(None) => OneCallMoves(w, v, id, c.(pc := if c.kind.Read? then Fetching(w.step) else Done(None)));
      case Bumped => OneCallMoves(w, v, id, c.(pc := Done(None)));
    }
  }

  lemma {:induction false} QuietMoves(w: World, a: Action)
    requires Possible(w, a)
    requires a.Start? || a.Tick? || a.LandWrite? || a.ForgetL1? || a.ForgetL2? || a.ExpireTag?
    ensures Aftermath(w, Next(w, a))
  {
  }

  lemma {:induction false} StepMoves(w: World, a: Action)
    requires Possible(w, a)
    ensures Aftermath(w, Next(w, a))
  {
    hide CallPossible, DeliverPossible, Next, Aftermath;
    if a.Deliver? {
      DeliverMoves(w, a.node);
    } else if a.Start? || a.Tick? || a.LandWrite? || a.ForgetL1? || a.ForgetL2? || a.ExpireTag? {
      QuietMoves(w, a);
    } else {
      CallStepMoves(w, a, a.id);
    }
  }

  lemma {:induction false} SafeRunIsRun(w: World, acts: seq<Action>, last: World)
    requires SafeRun(w, acts, last)
    ensures Run(w, acts, last)
    decreases |acts|
  {
    hide Possible, Next, Safe;
    if acts != [] {
      SafeRunIsRun(Next(w, acts[0]), acts[1..], last);
    }
  }

  lemma {:induction false} RunKeepsOrigin(w: World, f: Fetches, acts: seq<Action>, last: World)
    requires Origin(w, f) && Run(w, acts, last)
    ensures Origin(last, f + FetchedIn(w, acts)) && Aftermath(w, last)
    decreases |acts|
  {
    hide Origin, Next, Possible, Safe, Aftermath, FetchedBy;
    if acts == [] {
      assert Aftermath(w, w) by {
        AftermathItself(w);
      }
      assert f + {} == f;
    } else {
      StepKeepsOrigin(w, f, acts[0]);
      StepMoves(w, acts[0]);
      var next := Next(w, acts[0]);
      RunKeepsOrigin(next, f + FetchedBy(w, acts[0]), acts[1..], last);
      assert f + FetchedBy(w, acts[0]) + FetchedIn(next, acts[1..]) == f + FetchedIn(w, acts);
      AftermathTransitive(w, Next(w, acts[0]), last);
    }
  }

  lemma {:induction false} AftermathItself(w: World)
    ensures Aftermath(w, w)
  {
  }

  // ---------------------------------------------------------------------------------------------
  // Main results
  // ---------------------------------------------------------------------------------------------

  /** The step at which a value came to be: when its fetch began, or when the set that brought it started. */
  function Began(w: World, i: Item): nat {
    if i.writer.Some? && i.writer.value < |w.calls| then w.calls[i.writer.value].begun else i.keyed
  }

  /** The value came to be no earlier than this version of a tag. */
  predicate Fresh(w: World, i: Item, p: (Tag, int)) { p in w.since && w.since[p].step <= Began(w, i) }

  /** A value with a writer is the argument of that set call, stored under the key the call computed. */
  predicate Genuine(w: World, i: Item) {
    i.writer.Some? ==>
      && i.writer.value < |w.calls|
      && var c := w.calls[i.writer.value];
      && c.kind == Write(i.payload) && KeyOf(c) == i.key && c.pc == Wrote(i) && c.begun < i.keyed
  }

  /** A set call that has started and not yet stored its value. */
  predicate Underway(u: World, writer: Option<nat>) {
    writer.Some? && writer.value < |u.calls| && !u.calls[writer.value].pc.Wrote?
  }

  lemma {:induction false} ReturnedIsGenuine(w: World, f: Fetches, id: nat, i: Item)
    requires Origin(w, f) && Returned(w, id, i)
    ensures Genuine(w, i)
    ensures i.writer.None? ==> (i.key, i.payload) in f
  {
    assert HeldOk(w.calls, f, w.calls[id].pc);
    if i.writer.Some? {
      assert WroteOk(w.calls, i.writer.value, w.step);
    }
  }

  /** The version a bump is about to make. */
  function NextVersion(u: World, b: nat): (Tag, int)
    requires CallPossible(u, Bump(b), b)
  {
    var c := u.calls[b];
    (c.tags[|c.got|], Bumped1(u, c.tags[|c.got|]))
  }

  lemma {:induction false} BumpMakesVersion(u: World, b: nat)
    requires Inv(u) && CallPossible(u, Bump(b), b)
    ensures var p := NextVersion(u, b);
            var v := Next(u, Bump(b));
            && p in v.since && v.since[p] == Stamp(u.step, u.now)
            && |v.calls| == |u.calls| && |v.calls[b].got| == |u.calls[b].got| + 1 && v.calls[b].got[|u.calls[b].got|] == p
  {
    assert HistoryOk(u.redis, u.since, u.step, u.now);
    hide Inv, HistoryOk;
    var p := NextVersion(u, b);
    assert p !in u.since by {
      VersionIsNew(u, p);
    }
  }

  lemma {:induction false} VersionIsNew(u: World, p: (Tag, int))
    requires HistoryOk(u.redis, u.since, u.step, u.now) && p.1 == Bumped1(u, p.0)
    ensures p !in u.since
  {
  }

  /**
   * A value whose key was complete after a bump is fresh exactly unless the set call that brought it
   * was under way when the bump happened.
   */
  lemma {:induction false} FreshIffNotUnderway(u: World, f: Fetches, b: nat, after: seq<Action>, last: World, id: nat, i: Item)
    requires Inv(u) && Origin(u, f) && CallPossible(u, Bump(b), b) && SafeRun(Next(u, Bump(b)), after, last)
    requires Returned(last, id, i)
    requires var p := NextVersion(u, b); p in last.since && last.since[p].step <= i.keyed
    ensures last.since[NextVersion(u, b)] == Stamp(u.step, u.now)
    ensures Genuine(last, i)
    ensures Fresh(last, i, NextVersion(u, b)) <==> !Underway(u, i.writer)
  {
    hide Inv, Next, SafeRun, CallPossible, Origin, Aftermath, Returned;
    BumpStays(u, b, after, last);
    BumpThenRun(u, f, b, after, last);
    ReturnedIsGenuine(last, f + FetchedIn(Next(u, Bump(b)), after), id, i);
    WriterAgainstBump(u, f, last, i, u.step);
  }

  lemma {:induction false} BumpThenRun(u: World, f: Fetches, b: nat, after: seq<Action>, last: World)
    requires Origin(u, f) && CallPossible(u, Bump(b), b) && SafeRun(Next(u, Bump(b)), after, last)
    ensures Origin(last, f + FetchedIn(Next(u, Bump(b)), after)) && Aftermath(u, last)
  {
    hide Origin, Next, Aftermath, SafeRun, CallPossible;
    assert Possible(u, Bump(b));
    OtherStepKeepsOrigin(u, f, Bump(b));
    StepMoves(u, Bump(b));
    SafeRunIsRun(Next(u, Bump(b)), after, last);
    RunKeepsOrigin(Next(u, Bump(b)), f, after, last);
    AftermathTransitive(u, Next(u, Bump(b)), last);
  }

  /** A writer known at a step started before it, and had not stored by then what was keyed after it. */
  lemma {:induction false} WriterAgainstBump(u: World, f: Fetches, last: World, i: Item, step: nat)
    requires Origin(u, f) && Aftermath(u, last) && Genuine(last, i) && step == u.step <= i.keyed
    ensures step <= Began(last, i) <==> !Underway(u, i.writer)
  {
    if i.writer.Some? && i.writer.value < |u.calls| {
      assert WroteOk(u.calls, i.writer.value, u.step);
    }
  }

  /**
   * Any read that has returned: the value is filed under exactly the key the read computed; a fetched
   * value came to be after each tag version in it, and any other is what some set call stored there.
   */
  lemma {:induction false} ReturnedValueMatchesKey(
      n: nat, latency: nat, t0: int, acts: seq<Action>, w: World, id: nat, i: Item, k: nat)
    requires SafeRun(Empty(n, latency, t0), acts, w) && Returned(w, id, i)
    requires k < |w.calls[id].tags|
    ensures i.key.base == w.calls[id].base && |i.key.versions| == |w.calls[id].tags|
    ensures i.key.versions[k].0 == w.calls[id].tags[k]
    ensures i.writer.None? ==> Fresh(w, i, i.key.versions[k])
    ensures Genuine(w, i) && i.key.versions[k] in w.since && w.since[i.key.versions[k]].step <= i.keyed
  {
    EmptyHasOrigin(n, latency, t0);
    SafeRunIsRun(Empty(n, latency, t0), acts, w);
    RunKeepsOrigin(Empty(n, latency, t0), {}, acts, w);
    ReturnedKeyMatches(n, latency, t0, acts, w, id, i, k);
    ReturnedIsGenuine(w, {} + FetchedIn(Empty(n, latency, t0), acts), id, i);
  }

  lemma {:induction false} FetchedAt(w: World, acts: seq<Action>, last: World, k: Key, p: int)
    returns (m: nat, u: World, j: nat)
    requires Run(w, acts, last) && (k, p) in FetchedIn(w, acts)
    ensures m < |acts| && Run(w, acts[..m], u) && acts[m] == FetchOk(j, p) && Possible(u, acts[m])
    ensures j < |u.calls| && u.calls[j].pc.Fetching? && KeyOf(u.calls[j]) == k
    decreases |acts|
  {
    hide Next, Effect;
    if (k, p) in FetchedBy(w, acts[0]) {
      m, u, j := 0, w, acts[0].id;
    } else {
      var n: nat;
      n, u, j := FetchedAt(Next(w, acts[0]), acts[1..], last, k, p);
      m := n + 1;
      assert acts[..m][1..] == acts[1..][..n];
    }
  }

  /**
   * In any run, safe or not: a returned value that no set call brought is what a fetch of the run
   * returned to a call that had computed exactly the value's key.
   */
  lemma {:induction false} ReturnedValueWasFetched(
      n: nat, latency: nat, t0: int, acts: seq<Action>, w: World, id: nat, i: Item) returns (m: nat, u: World, j: nat)
    requires Run(Empty(n, latency, t0), acts, w) && Returned(w, id, i) && i.writer.None?
    ensures m < |acts| && Run(Empty(n, latency, t0), acts[..m], u) && acts[m] == FetchOk(j, i.payload)
    ensures j < |u.calls| && u.calls[j].pc.Fetching? && KeyOf(u.calls[j]) == i.key
  {
    hide Origin, Empty, Returned, Run, Possible, FetchedIn;
    var e := Empty(n, latency, t0);
    EmptyHasOrigin(n, latency, t0);
    RunKeepsOrigin(e, {}, acts, w);
    ReturnedIsGenuine(w, {} + FetchedIn(e, acts), id, i);
    m, u, j := FetchedAt(e, acts, w, i.key, i.payload);
  }

  /**
   * Same node. Call `b` bumps a tag in state `u`; its pipeline reply is handled in state `w`; a read
   * of the tag that starts later on that node returns a value from after the bump, exactly unless the
   * value was brought by a set call under way at the bump.
   */
  lemma {:induction false} NoStaleValueAfterInvalidation(
      nodes: nat, latency: nat, t0: int, before: seq<Action>, u: World, b: nat, between: seq<Action>, w: World, n: nat,
      after: seq<Action>, last: World, id: nat, i: Item, k: nat)
    requires SafeRun(Empty(nodes, latency, t0), before, u) && CallPossible(u, Bump(b), b)
    requires SafeRun(Next(u, Bump(b)), between, w)
    requires DeliverPossible(w, n) && w.nodes[n].queue[0] == b && w.calls[b].pc.reply.Bumped?
    requires SafeRun(Next(w, Deliver(n)), after, last)
    requires |w.calls| <= id && Returned(last, id, i) && last.calls[id].node == n
    requires k < |last.calls[id].tags| && last.calls[id].tags[k] == NextVersion(u, b).0
    ensures Fresh(last, i, NextVersion(u, b)) <==> !Underway(u, i.writer)
    ensures Genuine(last, i)
  {
    hide Inv, Origin, Next, Aftermath;
    EmptyIsOk(nodes, latency, t0);
    EmptyHasOrigin(nodes, latency, t0);
    EveryRunKeeps(Empty(nodes, latency, t0), before, u);
    SafeRunIsRun(Empty(nodes, latency, t0), before, u);
    RunKeepsOrigin(Empty(nodes, latency, t0), {}, before, u);
    var f := {} + FetchedIn(Empty(nodes, latency, t0), before);
    var j := |u.calls[b].got|;
    var p := NextVersion(u, b);
    KeptInInvalidation(u, f, b, between, w);
    var whole := before + [Bump(b)] + between;
    Assembled(Empty(nodes, latency, t0), before, u, Bump(b), between, w);
    KeyedAfterInvalidation(nodes, latency, t0, whole, w, n, j, after, last, id, i, k);
    Assembled(Next(u, Bump(b)), between, w, Deliver(n), after, last);
    SinceStays(Empty(nodes, latency, t0), whole, w, n, after, last, p);
    FreshIffNotUnderway(u, f, b, between + [Deliver(n)] + after, last, id, i);
  }

  /** The bumped version stays in the bumping call's list. */
  lemma {:induction false} KeptInInvalidation(u: World, f: Fetches, b: nat, between: seq<Action>, w: World)
    requires Inv(u) && Origin(u, f) && CallPossible(u, Bump(b), b) && SafeRun(Next(u, Bump(b)), between, w)
    ensures b < |w.calls| && |u.calls[b].got| < |w.calls[b].got| && w.calls[b].got[|u.calls[b].got|] == NextVersion(u, b)
  {
    var v := Next(u, Bump(b));
    BumpMakesVersion(u, b);
    OtherStepKeepsOrigin(u, f, Bump(b));
    SafeRunIsRun(v, between, w);
    RunKeepsOrigin(v, f, between, w);
    hide Inv, Origin, Next;
    assert v.calls[b].got <= w.calls[b].got;
  }

  /** Two safe runs with a safe step between them make one. */
  lemma {:induction false} Assembled(w: World, before: seq<Action>, u: World, a: Action, after: seq<Action>, last: World)
    requires SafeRun(w, before, u) && Possible(u, a) && Safe(u, a) && SafeRun(Next(u, a), after, last)
    ensures SafeRun(w, before + [a] + after, last)
    decreases |before|
  {
    hide Possible, Safe, Next;
    if before == [] {
      assert ([a] + after)[1..] == after && before + [a] + after == [a] + after;
    } else {
      Assembled(Next(w, before[0]), before[1..], u, a, after, last);
      assert (before + [a] + after)[1..] == before[1..] + [a] + after;
    }
  }

  lemma {:induction false} SinceStays(
      e: World, before: seq<Action>, w: World, n: nat, after: seq<Action>, last: World, p: (Tag, int))
    requires Inv(e) && SafeRun(e, before, w) && DeliverPossible(w, n) && SafeRun(Next(w, Deliver(n)), after, last)
    requires p in w.since
    ensures p in last.since && last.since[p] == w.since[p]
  {
    hide Inv, FloorLe, Advances;
    EveryRunKeeps(e, before, w);
    StepLater1(w, Deliver(n));
    StepKeeps(w, Deliver(n));
    RunLater(Next(w, Deliver(n)), after, last);
    hide DeliverStep;
    assert Grows(w.since, Next(w, Deliver(n)).since, w.now);
  }

  /**
   * Any node. Of a bump at least the 30 s of the local version cache plus one reply latency before
   * its start, a read returns a value from after it, again unless a set call was under way at it.
   */
  lemma {:induction false} StalenessIsBounded(
      n: nat, latency: nat, t0: int, before: seq<Action>, u: World, b: nat, after: seq<Action>, last: World,
      id: nat, i: Item, k: nat)
    requires SafeRun(Empty(n, latency, t0), before, u) && CallPossible(u, Bump(b), b)
    requires SafeRun(Next(u, Bump(b)), after, last) && Returned(last, id, i)
    requires k < |last.calls[id].tags| && last.calls[id].tags[k] == NextVersion(u, b).0
    requires u.now + TAG_CACHE_TTL_MS + latency <= last.calls[id].started
    ensures Fresh(last, i, NextVersion(u, b)) <==> !Underway(u, i.writer)
    ensures Genuine(last, i)
  {
    hide Inv, Origin, Next, Aftermath;
    EmptyIsOk(n, latency, t0);
    EmptyHasOrigin(n, latency, t0);
    EveryRunKeeps(Empty(n, latency, t0), before, u);
    SafeRunIsRun(Empty(n, latency, t0), before, u);
    RunKeepsOrigin(Empty(n, latency, t0), {}, before, u);
    var f := {} + FetchedIn(Empty(n, latency, t0), before);
    BumpMakesVersion(u, b);
    BumpStays(u, b, after, last);
    Assembled(Empty(n, latency, t0), before, u, Bump(b), after, last);
    KeyedAfterOldBump(n, latency, t0, before + [Bump(b)] + after, last, id, i, k, NextVersion(u, b).1);
    FreshIffNotUnderway(u, f, b, after, last, id, i);
  }

  lemma {:induction false} BumpStays(u: World, b: nat, after: seq<Action>, last: World)
    requires Inv(u) && CallPossible(u, Bump(b), b) && SafeRun(Next(u, Bump(b)), after, last)
    ensures var p := NextVersion(u, b); p in last.since && last.since[p] == Stamp(u.step, u.now)
  {
    var v := Next(u, Bump(b));
    BumpMakesVersion(u, b);
    StepKeeps(u, Bump(b));
    RunLater(v, after, last);
    hide Inv, Next, FloorLe, Advances;
    assert Grows(v.since, last.since, v.now);
  }
}
