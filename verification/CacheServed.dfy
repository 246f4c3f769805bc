/** What reads are served: the result of a flight, and what either tier holds for their key. */
module CacheServed {
  import opened Common
  import opened CacheProtocol

  /** The call whose state an action moves, if there is one. */
  function Mover(w: World, a: Action): Option<nat>
    requires Possible(w, a)
  {
    match a
    case Start(_, _, _, _) => None
    case Tick(_) => None
    case LandWrite(_, _) => None
    case ForgetL1(_, _) => None
    case ForgetL2(_) => None
    case ExpireTag(_) => None
    case Deliver(n) => Some(w.nodes[n].queue[0])
    case _ => Some(a.id)
  }

  /** What a caller asked for. */
  predicate SameRequest(c: Call, d: Call) {
    && d.node == c.node && d.kind == c.kind && d.base == c.base && d.tags == c.tags
    && d.started == c.started && d.begun == c.begun && d.floor == c.floor
  }

  /** Handling a reply changes one call and its node. */
  lemma {:induction false} DeliverShape(w: World, n: nat) returns (d: Call, m: Node)
    requires DeliverPossible(w, n)
    ensures var id := w.nodes[n].queue[0];
      var c := w.calls[id];
      && DeliverStep(w, n) == SetNode(SetCall(w, id, d), n, m)
      && m.l1 == (if c.pc.reply.FromL2? && c.pc.reply.item.Some? then w.nodes[n].l1[KeyOf(c) := c.pc.reply.item.value]
                  else w.nodes[n].l1)
      && SameRequest(c, d)
  {
    hide Raise, Forget, KeyOf;
    var id := w.nodes[n].queue[0];
    var c := w.calls[id];
    m := w.nodes[n].(queue := w.nodes[n].queue[1..]);
    match c.pc.reply {
      case Version(v) =>
        d := c.(pc := Versions);
        if |c.got| < |c.tags| {
          var t := c.tags[|c.got|];
          d := c.(got := c.got + [(t, v)], pc := Versions);
          m := m.(tagCache := m.tagCache[t := CachedVersion(v, w.now + TAG_CACHE_TTL_MS)]);
        }
      case Absent => d := c.(pc := Init);
      case FromL2(Some(i)) =>
        d := c.(pc := Done(Some(i)));
        m := m.(l1 := m.l1[KeyOf(c) := i]);
      case FromL2(None) =>
        d := c.(pc := if c.kind.Read? then Fetching(w.step) else Done(None));
        if c.kind.Read? {
          m := m.(inflight := m.inflight[KeyOf(c) := id]);
        }
      case Bumped =>
        d := c.(pc := Done(None));
        m := m.(tagCache := Forget(m.tagCache, c.tags), floor := Raise(m.floor, c.got));
    }
  }

  lemma {:induction false} CallLeavesOthers(w: World, a: Action, id: nat, jd: nat)
    requires CallPossible(w, a, id) && jd < |w.calls| && jd != id
    ensures jd < |CallStep(w, a, id).calls| && CallStep(w, a, id).calls[jd] == w.calls[jd]
  {
    hide KeyOf;
  }

  predicate OfNoCall(a: Action) {
    a.Start? || a.Deliver? || a.Tick? || a.LandWrite? || a.ForgetL1? || a.ForgetL2? || a.ExpireTag?
  }

  lemma {:induction false} OthersStay(w: World, a: Action, id: nat)
    requires Possible(w, a) && id < |w.calls| && Mover(w, a) != Some(id)
    ensures id < |Next(w, a).calls| && Next(w, a).calls[id] == w.calls[id]
  {
    hide CallStep, CallPossible, DeliverStep;
    if a.Deliver? {
      var d, m := DeliverShape(w, a.node);
    } else if !OfNoCall(a) {
      CallLeavesOthers(w, a, a.id, id);
    }
  }

  // ---------------------------------------------------------------------------------------------
  // Flights
  // ---------------------------------------------------------------------------------------------

  /** A fetched value: what the fetcher returned, for this key. */
  predicate Fetched(i: Item, k: Key, payload: int) { i.key == k && i.payload == payload && i.writer.None? }

  /** The call has fetched this, and holds or has returned it. */
  predicate Carries(w: World, id: nat, k: Key, payload: int) {
    id < |w.calls| && match w.calls[id].pc
      case Stored(i) => Fetched(i, k, payload)
      case Done(Some(i)) => Fetched(i, k, payload)
      case _ => false
  }

  /** The call waits for that flight, or has returned its result. */
  predicate Follows(w: World, jd: nat, id: nat, k: Key, payload: int) {
    jd < |w.calls| && match w.calls[jd].pc
      case Joined(leader) => leader == id
      case Done(Some(i)) => Fetched(i, k, payload)
      case _ => false
  }

  /** A fetch that succeeds: the caller holds its result, and settling returns it. */
  lemma {:induction false} FetchThenSettle(w: World, id: nat, payload: int)
    requires Possible(w, FetchOk(id, payload))
    ensures var v := Next(w, FetchOk(id, payload));
      var k := KeyOf(w.calls[id]);
      && Carries(v, id, k, payload) && Possible(v, Settle(id))
      && var c := Next(v, Settle(id)).calls[id];
      && c.pc.Done? && c.pc.result.Some? && Fetched(c.pc.result.value, k, payload)
  {
  }

  lemma {:induction false} CarriesStays(w: World, a: Action, id: nat, k: Key, payload: int)
    requires Possible(w, a) && Carries(w, id, k, payload)
    ensures Carries(Next(w, a), id, k, payload)
  {
    if Mover(w, a) != Some(id) {
      hide Possible, Next;
      OthersStay(w, a, id);
    }
  }

  lemma {:induction false} FollowsStays(w: World, a: Action, jd: nat, id: nat, k: Key, payload: int)
    requires Possible(w, a) && Carries(w, id, k, payload) && Follows(w, jd, id, k, payload)
    ensures Follows(Next(w, a), jd, id, k, payload)
  {
    if Mover(w, a) != Some(jd) {
      hide Possible, Next;
      OthersStay(w, a, jd);
    }
  }

  /**
   * Once a call's fetch has succeeded, in every later state the call holds or has returned what the
   * fetcher returned, and so does every caller that has joined it, once woken.
   */
  lemma {:induction false} FlightDelivers(
      w: World, id: nat, jd: nat, k: Key, payload: int, acts: seq<Action>, last: World)
    requires Run(w, acts, last) && Carries(w, id, k, payload)
    ensures Carries(last, id, k, payload)
    ensures Follows(w, jd, id, k, payload) ==> Follows(last, jd, id, k, payload)
    decreases |acts|
  {
    hide Next, Possible, Carries, Follows;
    if acts != [] {
      CarriesStays(w, acts[0], id, k, payload);
      if Follows(w, jd, id, k, payload) {
        FollowsStays(w, acts[0], jd, id, k, payload);
      }
      FlightDelivers(Next(w, acts[0]), id, jd, k, payload, acts[1..], last);
    }
  }

  /** A flight that fails is nobody's result: its caller and whoever joined it return nothing. */
  lemma {:induction false} FailedFlight(w: World, id: nat, jd: nat)
    requires Possible(w, FetchFail(id)) && jd < |w.calls| && jd != id && w.calls[jd].pc == Joined(id)
    requires w.calls[jd].node < |w.nodes|
    ensures var v := Next(w, FetchFail(id));
      && v.calls[id].pc == Done(None) && Possible(v, Wake(jd)) && Next(v, Wake(jd)).calls[jd].pc == Done(None)
  {
  }

  // ---------------------------------------------------------------------------------------------
  // L1
  // ---------------------------------------------------------------------------------------------

  /** The value an action stores in the L1 of node `n` under key `k`. */
  function StoredBy(w: World, a: Action, n: nat, k: Key): Option<Item>
    requires Possible(w, a)
  {
    if a.FetchOk? && w.calls[a.id].node == n && KeyOf(w.calls[a.id]) == k then
      Some(Item(k, a.payload, w.calls[a.id].pc.born, None))
    else if a.WriteNow? && w.calls[a.id].node == n && KeyOf(w.calls[a.id]) == k then
      Some(Item(k, w.calls[a.id].kind.payload, w.step, Some(a.id)))
    else if a.Deliver? && a.node == n && KeyOf(w.calls[w.nodes[n].queue[0]]) == k
            && w.calls[w.nodes[n].queue[0]].pc.reply.FromL2? then
      w.calls[w.nodes[n].queue[0]].pc.reply.item
    else None
  }

  /** What an L1 holds for a key afterwards, given what was stored there. */
  predicate L1Moves(w: World, v: World, n: nat, k: Key, stored: Option<Item>) {
    && n < |w.nodes| && n < |v.nodes|
    && Lookup(v.nodes[n].l1, k) == if stored.Some? then stored else Lookup(w.nodes[n].l1, k)
  }

  lemma {:induction false} L1AfterDeliver(w: World, m: nat, n: nat, k: Key)
    requires DeliverPossible(w, m) && n < |w.nodes|
    ensures L1Moves(w, DeliverStep(w, m), n, k, StoredBy(w, Deliver(m), n, k))
  {
    hide DeliverStep, KeyOf;
    var d, x := DeliverShape(w, m);
  }

  lemma {:induction false} L1AfterCall(w: World, a: Action, id: nat, n: nat, k: Key)
    requires Possible(w, a) && CallPossible(w, a, id) && a.id == id && n < |w.nodes|
    ensures L1Moves(w, CallStep(w, a, id), n, k, StoredBy(w, a, n, k))
  {
  }

  /** The L1 of a node after any action: what it stored, and what it forgot, are all that changes. */
  lemma {:induction false} L1After(w: World, a: Action, n: nat, k: Key)
    requires Possible(w, a) && n < |w.nodes|
    ensures n < |Next(w, a).nodes|
    ensures Lookup(Next(w, a).nodes[n].l1, k)
         == (if StoredBy(w, a, n, k).Some? then StoredBy(w, a, n, k)
             else if a == ForgetL1(n, k) then None
             else Lookup(w.nodes[n].l1, k))
  {
    hide CallStep, DeliverStep, CallPossible, DeliverPossible;
    if a.Deliver? {
      L1AfterDeliver(w, a.node, n, k);
    } else if !OfNoCall(a) {
      L1AfterCall(w, a, a.id, n, k);
    }
  }

  /** No action of the run stores under the key or forgets it. */
  predicate Undisturbed(w: World, acts: seq<Action>, n: nat, k: Key)
    decreases |acts|
  {
    acts == [] ||
    (Possible(w, acts[0]) && StoredBy(w, acts[0], n, k).None? && acts[0] != ForgetL1(n, k)
     && Undisturbed(Next(w, acts[0]), acts[1..], n, k))
  }

  /** No action of the run forgets the key. */
  predicate Remembered(acts: seq<Action>, n: nat, k: Key) { forall a <- acts :: a != ForgetL1(n, k) }

  lemma {:induction false} L1Stays(w: World, acts: seq<Action>, last: World, n: nat, k: Key)
    requires Run(w, acts, last) && n < |w.nodes| && k in w.nodes[n].l1 && Remembered(acts, n, k)
    ensures n < |last.nodes| && k in last.nodes[n].l1
    ensures Undisturbed(w, acts, n, k) ==> last.nodes[n].l1[k] == w.nodes[n].l1[k]
    decreases |acts|
  {
    hide Next, Possible, StoredBy;
    if acts != [] {
      assert acts[0] in acts;
      assert Remembered(acts[1..], n, k) by {
        forall a | a in acts[1..] ensures a in acts {}
      }
      L1After(w, acts[0], n, k);
      L1Stays(Next(w, acts[0]), acts[1..], last, n, k);
    }
  }

  /**
   * What is in a node's L1 is what the node's reads of that key return, without asking Redis or
   * fetching: as long as nothing forgets the key, a read that has computed it can only hit, and while
   * nothing else is stored under it, it returns that very value.
   */
  lemma {:induction false} StoredIsServed(
      w: World, acts: seq<Action>, last: World, n: nat, k: Key, id: nat)
    requires Run(w, acts, last) && n < |w.nodes| && k in w.nodes[n].l1 && Remembered(acts, n, k)
    requires id < |last.calls| && last.calls[id].node == n && KeyOf(last.calls[id]) == k
    requires Resolved(last.calls[id]) && (last.calls[id].kind.Read? || last.calls[id].kind.Peek?)
    ensures Possible(last, HitL1(id)) && !Possible(last, Miss(id)) && !Possible(last, Join(id))
    ensures Undisturbed(w, acts, n, k) ==>
              Next(last, HitL1(id)).calls[id].pc == Done(Some(w.nodes[n].l1[k]))
  {
    L1Stays(w, acts, last, n, k);
    hide Run, Undisturbed, Remembered;
  }

  /** A successful fetch and a set put their value into the L1 of their node, and send it to L2. */
  lemma {:induction false} PutsInBothTiers(w: World, a: Action)
    requires Possible(w, a) && (a.FetchOk? || a.WriteNow?)
    ensures var c := w.calls[a.id];
      var v := Next(w, a);
      var i := Lookup(v.nodes[c.node].l1, KeyOf(c));
      && i.Some? && i.value.key == KeyOf(c)
      && i.value.payload == (if a.FetchOk? then a.payload else c.kind.payload)
      && i.value.writer == (if a.FetchOk? then None else Some(a.id))
      && (KeyOf(c), i.value) in v.writes && Possible(v, LandWrite(KeyOf(c), i.value))
      && v.calls[a.id].pc == (if a.FetchOk? then Stored(i.value) else Wrote(i.value))
  {
  }

  // ---------------------------------------------------------------------------------------------
  // L2
  // ---------------------------------------------------------------------------------------------

  /** The shared tier after any action: a write that lands, a key that goes. */
  lemma {:induction false} L2After(w: World, a: Action, k: Key)
    requires Possible(w, a)
    ensures Lookup(Next(w, a).l2, k)
         == (if a.LandWrite? && a.key == k then Some(a.item) else if a == ForgetL2(k) then None else Lookup(w.l2, k))
  {
    hide Raise, Forget;
  }

  predicate Untouched(acts: seq<Action>, k: Key) { forall a <- acts :: !(a.LandWrite? && a.key == k) && a != ForgetL2(k) }

  lemma {:induction false} L2Stays(w: World, acts: seq<Action>, last: World, k: Key)
    requires Run(w, acts, last) && Untouched(acts, k)
    ensures Lookup(last.l2, k) == Lookup(w.l2, k)
    decreases |acts|
  {
    hide Next, Possible;
    if acts != [] {
      assert acts[0] in acts;
      L2After(w, acts[0], k);
      L2Stays(Next(w, acts[0]), acts[1..], last, k);
    }
  }

  /**
   * A value whose write has landed is what any node is answered later, until its key is written again
   * or goes: the reply carries it, and handling the reply returns it and puts it into that node's L1.
   */
  lemma {:induction false} LandedIsShared(w: World, k: Key, i: Item, acts: seq<Action>, u: World, id: nat)
    requires Possible(w, LandWrite(k, i)) && Run(Next(w, LandWrite(k, i)), acts, u) && Untouched(acts, k)
    requires Possible(u, AskL2(id, true)) && KeyOf(u.calls[id]) == k
    ensures Next(u, AskL2(id, true)).calls[id].pc == Replied(FromL2(Some(i)), u.now)
  {
    hide Run, Untouched;
    L2After(w, LandWrite(k, i), k);
    L2Stays(Next(w, LandWrite(k, i)), acts, u, k);
  }

  lemma {:induction false} L2HitIsServed(w: World, n: nat)
    requires DeliverPossible(w, n) && w.calls[w.nodes[n].queue[0]].pc.reply.FromL2?
    requires w.calls[w.nodes[n].queue[0]].pc.reply.item.Some?
    ensures var id := w.nodes[n].queue[0];
      var i := w.calls[id].pc.reply.item;
      var v := Next(w, Deliver(n));
      v.calls[id].pc == Done(i) && Lookup(v.nodes[n].l1, KeyOf(w.calls[id])) == i
  {
  }

  // ---------------------------------------------------------------------------------------------
  // Requests
  // ---------------------------------------------------------------------------------------------

  /** A new call stands for just what its caller asked, and has looked nothing up yet. */
  lemma {:induction false} StartOutcome(w: World, n: nat, kind: Kind, base: string, tags: seq<Tag>)
    requires n < |w.nodes|
    ensures Next(w, Start(n, kind, base, tags))
         == w.(step := w.step + 1,
               calls := w.calls + [Call(n, kind, base, tags, w.now, w.step, w.nodes[n].floor, [], Versions)])
  {
  }

  lemma {:induction false} CallKeepsRequest(w: World, a: Action, id: nat)
    requires CallPossible(w, a, id)
    ensures id < |CallStep(w, a, id).calls| && SameRequest(w.calls[id], CallStep(w, a, id).calls[id])
  {
    hide KeyOf;
  }

  lemma {:induction false} StepKeepsRequest(w: World, a: Action, id: nat)
    requires Possible(w, a) && id < |w.calls|
    ensures id < |Next(w, a).calls| && SameRequest(w.calls[id], Next(w, a).calls[id])
  {
    if Mover(w, a) != Some(id) {
      hide Possible, Next, Mover;
      OthersStay(w, a, id);
    } else {
      hide CallStep, CallPossible, DeliverStep;
      if a.Deliver? {
        var d, m := DeliverShape(w, a.node);
      } else {
        CallKeepsRequest(w, a, id);
      }
    }
  }

  /** Whatever happens, a call goes on asking for what it was started for. */
  lemma {:induction false} RequestStays(w: World, acts: seq<Action>, last: World, id: nat)
    requires Run(w, acts, last) && id < |w.calls|
    ensures id < |last.calls| && SameRequest(w.calls[id], last.calls[id])
    decreases |acts|
  {
    hide Next, Possible;
    if acts != [] {
      StepKeepsRequest(w, acts[0], id);
      RequestStays(Next(w, acts[0]), acts[1..], last, id);
    }
  }

  // ---------------------------------------------------------------------------------------------
  // Tag versions
  // ---------------------------------------------------------------------------------------------

  /** Looking a version up answers with what Redis has for the tag, or that it has none. */
  lemma {:induction false} VersionIsRead(w: World, id: nat)
    requires Possible(w, AskVersion(id))
    ensures var c := w.calls[id];
      var t := c.tags[|c.got|];
      var v := Next(w, AskVersion(id));
      && v.calls[id].pc == Replied(if t in w.redis then Version(w.redis[t]) else Absent, w.now)
      && v.redis == w.redis && v.nodes[c.node].queue == w.nodes[c.node].queue + [id]
  {
  }

  /** For a tag that had no version when it was looked up, version 1 is written, whatever is there by then. */
  lemma {:induction false} FirstUseSets(w: World, id: nat, other: Tag)
    requires Possible(w, InitVersion(id))
    ensures var c := w.calls[id];
      var t := c.tags[|c.got|];
      var v := Next(w, InitVersion(id));
      && Lookup(v.redis, t) == Some(1) && (other != t ==> Lookup(v.redis, other) == Lookup(w.redis, other))
      && v.calls[id].pc == Replied(Version(1), w.now) && v.nodes[c.node].queue == w.nodes[c.node].queue + [id]
  {
  }

  /** An invalidation raises each tag by one, from nothing to 1, and no other tag. */
  lemma {:induction false} BumpRaises(w: World, id: nat, other: Tag)
    requires Possible(w, Bump(id))
    ensures var c := w.calls[id];
      var t := c.tags[|c.got|];
      var v := Next(w, Bump(id));
      && t in v.redis && v.redis[t] == (if t in w.redis then w.redis[t] + 1 else 1)
      && (other != t ==> Lookup(v.redis, other) == Lookup(w.redis, other))
      && v.calls[id].got == c.got + [(t, v.redis[t])]
  {
  }

  /** When an invalidation's answer is handled, its node has forgotten just the versions of its tags. */
  lemma {:induction false} InvalidationForgets(w: World, n: nat, t: Tag)
    requires DeliverPossible(w, n) && w.calls[w.nodes[n].queue[0]].pc.reply.Bumped?
    ensures var c := w.calls[w.nodes[n].queue[0]];
      var v := Next(w, Deliver(n));
      && v.calls[w.nodes[n].queue[0]].pc == Done(None)
      && Lookup(v.nodes[n].tagCache, t) == if t in c.tags then None else Lookup(w.nodes[n].tagCache, t)
  {
    hide Raise, KeyOf;
  }

  /** A looked-up version is remembered for 30 s, and used by the call that asked. */
  lemma {:induction false} VersionIsRemembered(w: World, n: nat)
    requires DeliverPossible(w, n)
    requires var c := w.calls[w.nodes[n].queue[0]]; c.pc.reply.Version? && |c.got| < |c.tags|
    ensures var c := w.calls[w.nodes[n].queue[0]];
      var t, version := c.tags[|c.got|], c.pc.reply.version;
      var v := Next(w, Deliver(n));
      && v.calls[w.nodes[n].queue[0]].got == c.got + [(t, version)]
      && Lookup(v.nodes[n].tagCache, t) == Some(CachedVersion(version, w.now + 30000))
  {
    hide Raise, Forget, KeyOf;
  }

  // ---------------------------------------------------------------------------------------------
  // Progress
  // ---------------------------------------------------------------------------------------------

  /** Which kinds of call take which steps: sets alone write, invalidations alone bump, reads alone fetch. */
  lemma {:induction false} WhoDoesWhat(w: World, a: Action)
    requires Possible(w, a) && !OfNoCall(a)
    ensures var c := w.calls[a.id];
      && (a.WriteNow? ==> c.kind.Write? && |c.got| == |c.tags|)
      && (a.Bump? ==> c.kind.Invalidate? && |c.got| < |c.tags|) && (a.BumpDone? ==> c.kind.Invalidate? && |c.got| == |c.tags|)
      && (a.UseCached? || a.AskVersion? ==> !c.kind.Invalidate? && |c.got| < |c.tags|)
      && (a.HitL1? || a.Miss? ==> (c.kind.Read? || c.kind.Peek?) && |c.got| == |c.tags|)
      && (a.Join? ==> c.kind.Read? && |c.got| == |c.tags|)
    ensures a.UseCached? ==>
              var c := w.calls[a.id];
              var cache, t := w.nodes[c.node].tagCache, c.tags[|c.got|];
              t in cache && w.now < cache[t].expiresAt && Next(w, a).calls[a.id].got == c.got + [(t, cache[t].version)]
    ensures a.HitL1? ==> KeyOf(w.calls[a.id]) in w.nodes[w.calls[a.id].node].l1
    ensures a.Join? || a.Miss? ==> KeyOf(w.calls[a.id]) !in w.nodes[w.calls[a.id].node].l1
    ensures a.Join? ==> KeyOf(w.calls[a.id]) in w.nodes[w.calls[a.id].node].inflight
    ensures a.Miss? && w.calls[a.id].kind.Read? ==> KeyOf(w.calls[a.id]) !in w.nodes[w.calls[a.id].node].inflight
  {
  }

  /**
   * A call that has not finished and does not wait, for a reply or for another call's flight, always
   * has a step of its own to take, and a reader may use a version its node still remembers.
   */
  lemma {:induction false} NeverStuck(w: World, id: nat) returns (a: Action)
    requires id < |w.calls| && w.calls[id].node < |w.nodes|
    requires var c := w.calls[id];
      && (if c.pc.Init? then |c.got| < |c.tags| else |c.got| <= |c.tags|)
      && !c.pc.Replied? && !c.pc.Joined? && !c.pc.Wrote? && !c.pc.Done?
    ensures Possible(w, a) && Mover(w, a) == Some(id)
    ensures var c := w.calls[id];
      && (c.pc.Init? ==> a.InitVersion?) && (c.pc.WantL2? ==> a.AskL2?) && (c.pc.Stored? ==> a.Settle?)
      && (c.pc.Versions? && |c.got| == |c.tags| ==>
            if c.kind.Write? then a.WriteNow?
            else if c.kind.Invalidate? then a.BumpDone?
            else if KeyOf(c) in w.nodes[c.node].l1 then a.HitL1?
            else a.Join? || a.Miss?)
      && (c.pc.Versions? && |c.got| < |c.tags| ==> if c.kind.Invalidate? then a.Bump? else a.AskVersion?)
    ensures w.calls[id].pc.Fetching? ==> forall payload :: Possible(w, FetchOk(id, payload))
  {
    var c := w.calls[id];
    match c.pc
    case Versions =>
      if |c.got| < |c.tags| {
        a := if c.kind.Invalidate? then Bump(id) else AskVersion(id);
      } else if c.kind.Write? {
        a := WriteNow(id);
      } else if c.kind.Invalidate? {
        a := BumpDone(id);
      } else if KeyOf(c) in w.nodes[c.node].l1 {
        a := HitL1(id);
      } else if c.kind.Read? && KeyOf(c) in w.nodes[c.node].inflight {
        a := Join(id);
      } else {
        a := Miss(id);
      }
    case Init => a := InitVersion(id);
    case WantL2 => a := AskL2(id, true);
    case Fetching(_) => a := FetchFail(id);
    case Stored(_) => a := Settle(id);
  }

  /** A remembered version can be used exactly until its time is over. */
  lemma {:induction false} UseCachedIff(w: World, id: nat)
    requires id < |w.calls| && w.calls[id].node < |w.nodes| && !w.calls[id].kind.Invalidate?
    requires w.calls[id].pc.Versions? && |w.calls[id].got| < |w.calls[id].tags|
    ensures var t := w.calls[id].tags[|w.calls[id].got|];
      var known := Lookup(w.nodes[w.calls[id].node].tagCache, t);
      Possible(w, UseCached(id)) <==> known.Some? && w.now < known.value.expiresAt
  {
  }

  /** A call that joined a flight is woken once the flight has ended. */
  lemma {:induction false} WakeIff(w: World, id: nat)
    requires id < |w.calls| && w.calls[id].node < |w.nodes| && w.calls[id].pc.Joined?
    ensures var leader := w.calls[id].pc.leader;
      Possible(w, Wake(id)) <==> leader < |w.calls| && w.calls[leader].pc.Done?
  {
  }

  /** Time passes for all; an expired tag version is gone and no other. */
  lemma {:induction false} WorldMoves(w: World, ms: nat, t: Tag, other: Tag)
    ensures Next(w, Tick(ms)) == w.(step := w.step + 1, now := w.now + ms)
    ensures t in w.redis ==>
              && Possible(w, ExpireTag(t)) && t !in Next(w, ExpireTag(t)).redis
              && (other != t ==> Lookup(Next(w, ExpireTag(t)).redis, other) == Lookup(w.redis, other))
  {
  }
}
