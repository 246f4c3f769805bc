/** Every action of the cache protocol keeps the invariant. */
module CacheSteps {
  import opened Common
  import opened CacheProtocol
  import opened CacheInvariant

  function Ticked(w: World): World { w.(step := w.step + 1) }

  lemma {:induction false} StepLater(w: World)
    requires Inv(w)
    ensures Inv(Ticked(w))
  {
    hide CallsOk, NodesOk, QueuesOk, LinksOk;
  }

  /** What `Inv` is made of, apart from the calls. */
  lemma {:induction false} PartsOk(w: World)
    requires Inv(w)
    ensures QueuesOk(w.calls, w.nodes) && LinksOk(w.calls, w.nodes) && SharedOk(w)
    ensures NodesOk(w.since, Slack(w), w.now, w.nodes) && HistoryOk(w.redis, w.since, w.step, w.now)
  {
  }

  lemma {:induction false} PartsMake(w: World)
    requires QueuesOk(w.calls, w.nodes) && LinksOk(w.calls, w.nodes) && SharedOk(w)
    requires NodesOk(w.since, Slack(w), w.now, w.nodes) && HistoryOk(w.redis, w.since, w.step, w.now)
    requires CallsOk(w.since, Slack(w), w.now, w.nodes, w.calls)
    ensures Inv(w)
  {
  }

  lemma {:induction false} CallIsOk(w: World, id: nat)
    requires Inv(w) && id < |w.calls|
    ensures w.calls[id].node < |w.nodes|
    ensures CallOk(w.since, Slack(w), w.now, w.nodes[w.calls[id].node].floor, w.calls[id])
    ensures NodeOk(w.since, Slack(w), w.now, w.nodes[w.calls[id].node])
    ensures QueueOk(w.calls, w.calls[id].node, w.nodes[w.calls[id].node].queue)
  {
  }

  /** Call `id` moves to `d`; its node is untouched. */
  lemma {:induction false} CallMoves(w: World, id: nat, d: Call)
    requires Inv(w) && id < |w.calls| && Advances(w.calls[id], d)
    requires d.node < |w.nodes| && CallOk(w.since, Slack(w), w.now, w.nodes[d.node].floor, d)
    requires !w.calls[id].pc.Replied? && !d.pc.Replied?
    requires d.pc.Joined? ==> FlightOk(w.calls, KeyOf(d), d.pc.leader)
    ensures Inv(SetCall(w, id, d))
  {
    hide CallsOk, CallOk, NodesOk, QueuesOk, LinksOk;
    CallIsOk(w, id);
    Patched(w, id, d, w.nodes[d.node]);
    var v := SetNode(SetCall(w, id, d), d.node, w.nodes[d.node]);
    assert v.nodes == w.nodes;
    assert v == SetCall(w, id, d);
  }

  /** Adding the next looked-up version to a call. */
  lemma {:induction false} GotGrows(sn: History, slack: int, now: int, floor: map<Tag, int>, c: Call, v: int, at: int)
    requires CallOk(sn, slack, now, floor, c) && !Full(c) && 0 < slack
    requires Newest(sn, c.tags[|c.got|], v, at) && c.started < at + slack
    requires FloorOf(floor, c.tags[|c.got|]) <= v
    ensures CallOk(sn, slack, now, floor, c.(got := c.got + [(c.tags[|c.got|], v)], pc := Versions))
  {
    var d := c.(got := c.got + [(c.tags[|c.got|], v)], pc := Versions);
    forall i: nat | i < |d.got| ensures GotOk(sn, slack, d, i) {
      if i < |c.got| {
        assert GotOk(sn, slack, c, i);
      }
    }
  }

  lemma {:induction false} CachedIsNewest(sn: History, slack: int, now: int, n: Node, t: Tag)
    requires NodeOk(sn, slack, now, n) && t in n.tagCache
    ensures Newest(sn, t, n.tagCache[t].version, n.tagCache[t].expiresAt - slack)
    ensures FloorOf(n.floor, t) <= n.tagCache[t].version
  {
    assert CachedOk(sn, slack, now, n.floor, t, n.tagCache[t]);
  }

  lemma {:induction false} UseCachedKeeps(w: World, id: nat)
    requires Inv(w) && CallPossible(w, UseCached(id), id)
    ensures Inv(Next(w, UseCached(id)))
  {
    hide Inv, CallOk, NodeOk, QueueOk, Newest;
    CallIsOk(w, id);
    var c := w.calls[id];
    var n := w.nodes[c.node];
    var t := c.tags[|c.got|];
    var v := n.tagCache[t].version;
    CachedIsNewest(w.since, Slack(w), w.now, n, t);
    StartedBefore(w, id);
    GotGrows(w.since, Slack(w), w.now, n.floor, c, v, n.tagCache[t].expiresAt - Slack(w));
    CallMoves(w, id, c.(got := c.got + [(t, v)]));
    StepLater(SetCall(w, id, c.(got := c.got + [(t, v)])));
  }

  lemma {:induction false} StartedBefore(w: World, id: nat)
    requires Inv(w) && id < |w.calls|
    ensures w.calls[id].started <= w.now && |w.calls[id].got| <= |w.calls[id].tags|
    ensures w.calls[id].node < |w.nodes|
  {
    CallIsOk(w, id);
  }

  // ---------------------------------------------------------------------------------------------
  // Redis answers
  // ---------------------------------------------------------------------------------------------

  /** The newest version in Redis is at least what every queued INCR reply made. */
  lemma {:induction false} NewReplyIsBehind(w: World, id: nat, d: Call)
    requires Inv(w) && id < |w.calls| && Advances(w.calls[id], d) && d.pc.Replied?
    requires d.pc.reply.Version? ==>
               |d.got| < |d.tags| && d.tags[|d.got|] in w.redis && w.redis[d.tags[|d.got|]] == d.pc.reply.version
    requires w.calls[id].node < |w.nodes|
    ensures var q := w.nodes[w.calls[id].node].queue;
            forall i: nat | i < |q| :: q[i] < |w.calls| && Behind(w.calls[q[i]], d)
  {
    var q := w.nodes[w.calls[id].node].queue;
    CallIsOk(w, id);
    forall i: nat | i < |q| ensures q[i] < |w.calls| && Behind(w.calls[q[i]], d) {
      CallIsOk(w, q[i]);
      var c := w.calls[q[i]];
      forall j: nat | j < |c.got| && d.pc.reply.Version? && c.got[j].0 == d.tags[|d.got|]
        ensures c.got[j].1 <= d.pc.reply.version
      {
        assert GotOk(w.since, Slack(w), c, j);
      }
    }
  }

  lemma {:induction false} Answered(w: World, id: nat, r: Reply)
    requires Inv(w) && id < |w.calls| && !w.calls[id].pc.Replied?
    requires w.calls[id].node < |w.nodes|
    requires CallOk(w.since, Slack(w), w.now, w.nodes[w.calls[id].node].floor, w.calls[id].(pc := Replied(r, w.now)))
    requires r.Version? ==>
               var c := w.calls[id];
               |c.got| < |c.tags| && c.tags[|c.got|] in w.redis && w.redis[c.tags[|c.got|]] == r.version
    ensures Inv(Answer(w, id, r))
  {
    var c := w.calls[id];
    var d := c.(pc := Replied(r, w.now));
    var n := w.nodes[c.node];
    var m := n.(queue := n.queue + [id]);
    CallIsOk(w, id);
    NewReplyIsBehind(w, id, d);
    assert Enqueued(w.calls, id, d, n, m);
    assert NodeOk(w.since, Slack(w), w.now, m);
    assert FlightsMove(w.calls, w.nodes, id, d, m);
    hide Inv, CallOk, NodeOk, QueueOk, Enqueued, FlightsMove;
    Patched(w, id, d, m);
  }

  /** In a state satisfying the invariant, the version in Redis is the newest ever made. */
  lemma {:induction false} RedisIsNewest(w: World, id: nat, t: Tag)
    requires Inv(w) && id < |w.calls| && t in w.redis
    ensures Newest(w.since, t, w.redis[t], w.now)
    ensures FloorOf(w.nodes[w.calls[id].node].floor, t) <= w.redis[t]
  {
    CallIsOk(w, id);
    hide CallsOk, QueuesOk, LinksOk, NodesOk, CallOk, QueueOk, SharedOk;
    assert forall p <- w.since :: p.0 == t ==> p.1 <= w.redis[t];
  }

  function VersionReply(redis: map<Tag, int>, t: Tag): Reply { if t in redis then Version(redis[t]) else Absent }

  lemma {:induction false} VersionReplyOk(w: World, id: nat)
    requires Inv(w) && CallPossible(w, AskVersion(id), id)
    ensures var c := w.calls[id];
            var r := VersionReply(w.redis, c.tags[|c.got|]);
            CallOk(w.since, Slack(w), w.now, w.nodes[c.node].floor, c.(pc := Replied(r, w.now)))
  {
    var c := w.calls[id];
    var t := c.tags[|c.got|];
    CallIsOk(w, id);
    if t in w.redis {
      RedisIsNewest(w, id, t);
    }
    hide Inv;
    RestatePc(w.since, Slack(w), w.now, w.nodes[c.node].floor, c, Replied(VersionReply(w.redis, t), w.now));
  }

  lemma {:induction false} AskVersionKeeps(w: World, id: nat)
    requires Inv(w) && CallPossible(w, AskVersion(id), id)
    ensures Inv(Next(w, AskVersion(id)))
  {
    hide Inv, CallOk, NodeOk, QueueOk;
    var c := w.calls[id];
    var r := VersionReply(w.redis, c.tags[|c.got|]);
    VersionReplyOk(w, id);
    Answered(w, id, r);
    StepLater(Answer(w, id, r));
  }

  /** Only the program counter changes. */
  lemma {:induction false} RestatePc(sn: History, slack: int, now: int, floor: map<Tag, int>, c: Call, pc: Pc)
    requires CallOk(sn, slack, now, floor, c) && PcOk(sn, now, floor, c.(pc := pc))
    ensures CallOk(sn, slack, now, floor, c.(pc := pc))
  {
    var d := c.(pc := pc);
    forall i: nat | i < |d.got| ensures GotOk(sn, slack, d, i) {
      assert GotOk(sn, slack, c, i);
    }
  }

  lemma {:induction false} L2ReplyOk(w: World, id: nat, o: Option<Item>)
    requires Inv(w) && id < |w.calls| && w.calls[id].pc.WantL2?
    requires o.Some? ==> KeyOf(w.calls[id]) in w.l2 && o.value == w.l2[KeyOf(w.calls[id])]
    ensures var c := w.calls[id];
            && c.node < |w.nodes|
            && CallOk(w.since, Slack(w), w.now, w.nodes[c.node].floor, c.(pc := Replied(FromL2(o), w.now)))
  {
    var c := w.calls[id];
    CallIsOk(w, id);
    hide CallsOk, NodesOk, QueuesOk, LinksOk;
    RestatePc(w.since, Slack(w), w.now, w.nodes[c.node].floor, c, Replied(FromL2(o), w.now));
  }

  lemma {:induction false} AskL2Keeps(w: World, id: nat, readable: bool)
    requires Inv(w) && CallPossible(w, AskL2(id, readable), id)
    ensures Inv(Next(w, AskL2(id, readable)))
  {
    hide Inv, CallOk, NodeOk, QueueOk;
    var o := if readable then Lookup(w.l2, KeyOf(w.calls[id])) else None;
    L2ReplyOk(w, id, o);
    Answered(w, id, FromL2(o));
    StepLater(Answer(w, id, FromL2(o)));
  }

  lemma {:induction false} BumpReplyOk(w: World, id: nat)
    requires Inv(w) && id < |w.calls| && Full(w.calls[id])
    ensures var c := w.calls[id];
            && c.node < |w.nodes|
            && CallOk(w.since, Slack(w), w.now, w.nodes[c.node].floor, c.(pc := Replied(Bumped, w.now)))
  {
    var c := w.calls[id];
    CallIsOk(w, id);
    hide Inv;
    RestatePc(w.since, Slack(w), w.now, w.nodes[c.node].floor, c, Replied(Bumped, w.now));
  }

  lemma {:induction false} BumpDoneKeeps(w: World, id: nat)
    requires Inv(w) && CallPossible(w, BumpDone(id), id)
    ensures Inv(Next(w, BumpDone(id)))
  {
    hide Inv, CallOk, NodeOk, QueueOk;
    BumpReplyOk(w, id);
    Answered(w, id, Bumped);
    StepLater(Answer(w, id, Bumped));
  }

  // ---------------------------------------------------------------------------------------------
  // A tag version comes into being
  // ---------------------------------------------------------------------------------------------

  /** The version written is the next one, the first one, or a rewrite of the first one. */
  predicate NextVersion(w: World, t: Tag, v: int) {
    if t in w.redis then v == w.redis[t] + 1 || v == w.redis[t] else v == 1
  }

  lemma {:induction false} OrderedGrows(sn: History, tn: History, t: Tag, v: int, x: Stamp)
    requires Ordered(sn) && tn == sn[(t, v) := x]
    requires forall p <- sn :: sn[p].step <= x.step && sn[p].ms <= x.ms
    requires forall p <- sn :: p.0 == t ==> p.1 < v
    ensures Ordered(tn)
  {
    forall p, q | p in tn && q in tn && p.0 == q.0 && p.1 <= q.1
      ensures tn[p].step <= tn[q].step && tn[p].ms <= tn[q].ms
    {
      assert (p == (t, v) || p in sn) && (q == (t, v) || q in sn);
      assert p == (t, v) ==> q == (t, v);
    }
  }

  lemma {:induction false} HistoryGrows(redis: map<Tag, int>, sn: History, step: nat, now: int, t: Tag, v: int)
    requires HistoryOk(redis, sn, step, now)
    requires if t in redis then v == redis[t] + 1 || v == redis[t] else v == 1
    ensures var tn := if (t, v) in sn then sn else sn[(t, v) := Stamp(step, now)];
            HistoryOk(redis[t := v], tn, step + 1, now) && Grows(sn, tn, now)
  {
    hide Ordered;
    if (t, v) in sn {
      assert v == redis[t] && redis[t := v] == redis;
    } else {
      OrderedGrows(sn, sn[(t, v) := Stamp(step, now)], t, v, Stamp(step, now));
    }
  }

  lemma {:induction false} EstablishKeeps(w: World, t: Tag, v: int)
    requires Inv(w) && NextVersion(w, t, v)
    ensures Inv(Ticked(Establish(w, t, v)))
  {
    var u := Ticked(Establish(w, t, v));
    HistoryGrows(w.redis, w.since, w.step, w.now, t, v);
    hide CallsOk, NodesOk, QueuesOk, LinksOk;
    LaterKeeps(w, u);
  }

  /** Time passing and history growing keep everything but the history's own well-formedness. */
  lemma {:induction false} LaterKeeps(w: World, u: World)
    requires Inv(w) && HistoryOk(u.redis, u.since, u.step, u.now) && Grows(w.since, u.since, w.now) && w.now <= u.now
    requires u.latency == w.latency && u.nodes == w.nodes && u.calls == w.calls
    requires u.l2 == w.l2 && u.writes == w.writes
    ensures Inv(u)
  {
    assert CallsOk(u.since, Slack(u), u.now, u.nodes, u.calls) by {
      forall id: nat | id < |u.calls|
        ensures u.calls[id].node < |u.nodes|
        ensures CallOk(u.since, Slack(u), u.now, u.nodes[u.calls[id].node].floor, u.calls[id])
      {
        CallIsOk(w, id);
        CallLater(w.since, u.since, Slack(w), w.now, u.now, w.nodes[w.calls[id].node].floor, w.calls[id]);
      }
    }
    assert NodesOk(u.since, Slack(u), u.now, u.nodes) by {
      forall n: nat | n < |u.nodes| ensures NodeOk(u.since, Slack(u), u.now, u.nodes[n]) {
        NodeLater(w.since, u.since, Slack(w), w.now, u.now, w.nodes[n]);
      }
    }
    SharedLater(w, u);
  }

  lemma {:induction false} SharedLater(w: World, u: World)
    requires SharedOk(w) && Grows(w.since, u.since, w.now) && u.l2 == w.l2 && u.writes == w.writes
    ensures SharedOk(u)
  {
    forall k | k in u.l2 ensures ItemOk(u.since, k, u.l2[k]) {
      ItemLater(w.since, u.since, w.now, k, w.l2[k]);
    }
    forall p | p in u.writes ensures ItemOk(u.since, p.0, p.1) {
      ItemLater(w.since, u.since, w.now, p.0, p.1);
    }
  }

  lemma {:induction false} TickKeeps(w: World, ms: nat)
    requires Inv(w)
    ensures Inv(Next(w, Tick(ms)))
  {
    hide Inv, CallsOk, QueuesOk, LinksOk, NodesOk, SharedOk;
    var u := w.(now := w.now + ms, step := w.step + 1);
    PartsOk(w);
    LaterKeeps(w, u);
  }

  lemma {:induction false} FirstVersion(w: World, id: nat)
    requires Inv(w) && CallPossible(w, InitVersion(id), id) && !RollsBack(w, InitVersion(id))
    ensures NextVersion(w, w.calls[id].tags[|w.calls[id].got|], 1)
  {
    hide CallsOk, QueuesOk, LinksOk, NodesOk, SharedOk;
  }

  lemma {:induction false} InitReplyOk(w: World, id: nat)
    requires Inv(w) && CallPossible(w, InitVersion(id), id)
    requires var c := w.calls[id]; c.tags[|c.got|] in w.redis && w.redis[c.tags[|c.got|]] == 1
    ensures var c := w.calls[id];
            CallOk(w.since, Slack(w), w.now, w.nodes[c.node].floor, c.(pc := Replied(Version(1), w.now)))
  {
    var c := w.calls[id];
    CallIsOk(w, id);
    RedisIsNewest(w, id, c.tags[|c.got|]);
    hide Inv;
    RestatePc(w.since, Slack(w), w.now, w.nodes[c.node].floor, c, Replied(Version(1), w.now));
  }

  lemma {:induction false} InitVersionKeeps(w: World, id: nat)
    requires Inv(w) && CallPossible(w, InitVersion(id), id) && !RollsBack(w, InitVersion(id))
    ensures Inv(Next(w, InitVersion(id)))
  {
    var c := w.calls[id];
    var t := c.tags[|c.got|];
    FirstVersion(w, id);
    EstablishKeeps(w, t, 1);
    hide Inv, CallOk, NodeOk, QueueOk;
    var u := Ticked(Establish(w, t, 1));
    InitReplyOk(u, id);
    Answered(u, id, Version(1));
    assert Next(w, InitVersion(id)) == Answer(u, id, Version(1));
  }

  lemma {:induction false} BumpKeeps(w: World, id: nat)
    requires Inv(w) && CallPossible(w, CacheProtocol.Bump(id), id)
    ensures Inv(Next(w, CacheProtocol.Bump(id)))
  {
    hide Inv, CallOk, NodeOk, QueueOk, Newest;
    var c := w.calls[id];
    var t := c.tags[|c.got|];
    var v := Bumped1(w, t);
    EstablishKeeps(w, t, v);
    var u := Ticked(Establish(w, t, v));
    CallIsOk(u, id);
    RedisIsNewest(u, id, t);
    StartedBefore(u, id);
    GotGrows(u.since, Slack(u), u.now, u.nodes[c.node].floor, c, v, u.now);
    CallMoves(u, id, c.(got := c.got + [(t, v)]));
    assert Next(w, CacheProtocol.Bump(id)) == SetCall(u, id, c.(got := c.got + [(t, v)]));
  }

  // ---------------------------------------------------------------------------------------------
  // A call uses what the node has
  // ---------------------------------------------------------------------------------------------

  /** A call changes only its program counter, and is not involved with the reply queue. */
  lemma {:induction false} PcMoves(w: World, id: nat, pc: Pc)
    requires Inv(w) && id < |w.calls| && w.calls[id].node < |w.nodes|
    requires !w.calls[id].pc.Replied? && !pc.Replied? && |w.calls[id].got| <= |w.calls[id].tags|
    requires PcOk(w.since, w.now, w.nodes[w.calls[id].node].floor, w.calls[id].(pc := pc))
    requires pc.Joined? ==> FlightOk(w.calls, KeyOf(w.calls[id]), pc.leader)
    ensures Inv(SetCall(w, id, w.calls[id].(pc := pc)))
    ensures Inv(Ticked(SetCall(w, id, w.calls[id].(pc := pc))))
  {
    hide Inv, CallOk, NodeOk, QueueOk, PcOk;
    var c := w.calls[id];
    CallIsOk(w, id);
    RestatePc(w.since, Slack(w), w.now, w.nodes[c.node].floor, c, pc);
    CallMoves(w, id, c.(pc := pc));
    StepLater(SetCall(w, id, c.(pc := pc)));
  }

  lemma {:induction false} L1IsOk(w: World, n: nat, k: Key)
    requires Inv(w) && n < |w.nodes| && k in w.nodes[n].l1
    ensures ItemOk(w.since, k, w.nodes[n].l1[k])
  {
    assert NodeOk(w.since, Slack(w), w.now, w.nodes[n]);
  }

  lemma {:induction false} FlightIsOk(w: World, n: nat, k: Key)
    requires Inv(w) && n < |w.nodes| && k in w.nodes[n].inflight
    ensures FlightOk(w.calls, k, w.nodes[n].inflight[k])
  {
  }

  lemma {:induction false} HitL1Keeps(w: World, id: nat)
    requires Inv(w) && CallPossible(w, HitL1(id), id)
    ensures Inv(Next(w, HitL1(id)))
  {
    hide Inv;
    L1IsOk(w, w.calls[id].node, KeyOf(w.calls[id]));
    PcMoves(w, id, Done(Some(w.nodes[w.calls[id].node].l1[KeyOf(w.calls[id])])));
  }

  lemma {:induction false} JoinKeeps(w: World, id: nat)
    requires Inv(w) && CallPossible(w, Join(id), id)
    ensures Inv(Next(w, Join(id)))
  {
    hide Inv;
    FlightIsOk(w, w.calls[id].node, KeyOf(w.calls[id]));
    PcMoves(w, id, Joined(w.nodes[w.calls[id].node].inflight[KeyOf(w.calls[id])]));
  }

  lemma {:induction false} MissKeeps(w: World, id: nat)
    requires Inv(w) && CallPossible(w, Miss(id), id)
    ensures Inv(Next(w, Miss(id)))
  {
    hide Inv;
    PcMoves(w, id, WantL2);
  }

  lemma {:induction false} LeaderIsOk(w: World, id: nat)
    requires Inv(w) && id < |w.calls| && w.calls[id].pc.Joined?
    ensures var c := w.calls[id];
            && FlightOk(w.calls, KeyOf(c), c.pc.leader)
            && (w.calls[c.pc.leader].pc.Done? && w.calls[c.pc.leader].pc.result.Some? ==>
                  ItemOk(w.since, KeyOf(c), w.calls[c.pc.leader].pc.result.value))
            && Full(c)
  {
    CallIsOk(w, id);
    CallIsOk(w, w.calls[id].pc.leader);
  }

  lemma {:induction false} WakeKeeps(w: World, id: nat)
    requires Inv(w) && CallPossible(w, Wake(id), id)
    ensures Inv(Next(w, Wake(id)))
  {
    hide Inv;
    LeaderIsOk(w, id);
    PcMoves(w, id, w.calls[w.calls[id].pc.leader].pc);
  }

  // ---------------------------------------------------------------------------------------------
  // Flights and writes
  // ---------------------------------------------------------------------------------------------

  /** Unregistering a flight, whoever registered it. */
  lemma {:induction false} Unregister(w: World, n: nat, k: Key)
    requires Inv(w) && n < |w.nodes|
    ensures Inv(SetNode(w, n, w.nodes[n].(inflight := w.nodes[n].inflight - {k})))
  {
    var m := w.nodes[n].(inflight := w.nodes[n].inflight - {k});
    NodeMoves(w, n, m);
  }

  /** A node's caches change; floors and queue do not. */
  lemma {:induction false} NodeMoves(w: World, n: nat, m: Node)
    requires Inv(w) && n < |w.nodes|
    requires m.floor == w.nodes[n].floor && m.queue == w.nodes[n].queue
    requires NodeOk(w.since, Slack(w), w.now, m)
    requires forall k <- m.inflight :: k in w.nodes[n].inflight && m.inflight[k] == w.nodes[n].inflight[k]
    ensures Inv(SetNode(w, n, m))
  {
    var v := SetNode(w, n, m);
    hide NodeOk, CallOk, QueueOk, FlightOk, PcOk, GotOk;
    NodesPatched(w.since, Slack(w), w.now, w.nodes, n, m);
    assert CallsOk(v.since, Slack(v), v.now, v.nodes, v.calls);
    assert QueuesOk(v.calls, v.nodes);
    assert LinksOk(v.calls, v.nodes);
  }

  lemma {:induction false} FetchedIsOk(w: World, id: nat)
    requires Inv(w) && id < |w.calls| && (w.calls[id].pc.Fetching? || w.calls[id].pc.Stored?)
    ensures w.calls[id].node < |w.nodes| && Full(w.calls[id])
    ensures w.calls[id].pc.Fetching? ==> Reached(w.since, KeyOf(w.calls[id]), w.calls[id].pc.born)
    ensures w.calls[id].pc.Stored? ==> ItemOk(w.since, KeyOf(w.calls[id]), w.calls[id].pc.item)
  {
    CallIsOk(w, id);
  }

  lemma {:induction false} FetchFailKeeps(w: World, id: nat)
    requires Inv(w) && CallPossible(w, FetchFail(id), id)
    ensures Inv(Next(w, FetchFail(id)))
  {
    hide Inv;
    FetchedIsOk(w, id);
    PcMoves(w, id, Done(None));
    var v := SetCall(w, id, w.calls[id].(pc := Done(None)));
    Unregister(v, w.calls[id].node, KeyOf(w.calls[id]));
    var n := w.calls[id].node;
    StepLater(SetNode(v, n, v.nodes[n].(inflight := v.nodes[n].inflight - {KeyOf(w.calls[id])})));
  }

  lemma {:induction false} SettleKeeps(w: World, id: nat)
    requires Inv(w) && CallPossible(w, Settle(id), id)
    ensures Inv(Next(w, Settle(id)))
  {
    hide Inv;
    FetchedIsOk(w, id);
    PcMoves(w, id, Done(Some(w.calls[id].pc.item)));
    var v := SetCall(w, id, w.calls[id].(pc := Done(Some(w.calls[id].pc.item))));
    Unregister(v, w.calls[id].node, KeyOf(w.calls[id]));
    var n := w.calls[id].node;
    StepLater(SetNode(v, n, v.nodes[n].(inflight := v.nodes[n].inflight - {KeyOf(w.calls[id])})));
  }

  /** A value whose key had been reached when it was begun may enter both tiers. */
  lemma {:induction false} PutKeeps(w: World, n: nat, i: Item)
    requires Inv(w) && n < |w.nodes| && Reached(w.since, i.key, i.keyed)
    ensures Inv(Put(w, n, i))
  {
    hide Inv, NodeOk;
    NodeIsOk(w, n);
    L1Grows(w.since, Slack(w), w.now, w.nodes[n], i.key, i);
    var v := SetNode(w, n, w.nodes[n].(l1 := w.nodes[n].l1[i.key := i]));
    NodeMoves(w, n, v.nodes[n]);
    WritesGrow(v, i);
  }

  lemma {:induction false} NodeIsOk(w: World, n: nat)
    requires Inv(w) && n < |w.nodes|
    ensures NodeOk(w.since, Slack(w), w.now, w.nodes[n])
  {
  }

  lemma {:induction false} WritesGrow(w: World, i: Item)
    requires Inv(w) && Reached(w.since, i.key, i.keyed)
    ensures Inv(w.(writes := w.writes + {(i.key, i)}))
  {
    hide CallsOk, NodesOk, QueuesOk, LinksOk, HistoryOk;
  }

  lemma {:induction false} FetchOkKeeps(w: World, id: nat, payload: int)
    requires Inv(w) && CallPossible(w, FetchOk(id, payload), id)
    ensures Inv(Next(w, FetchOk(id, payload)))
  {
    hide Inv;
    FetchedIsOk(w, id);
    var c := w.calls[id];
    var i := Item(KeyOf(c), payload, c.pc.born, None);
    PcMoves(w, id, Stored(i));
    PutKeeps(SetCall(w, id, c.(pc := Stored(i))), c.node, i);
    StepLater(Put(SetCall(w, id, c.(pc := Stored(i))), c.node, i));
  }

  /** A complete key names versions that exist by now. */
  lemma {:induction false} ResolvedIsReached(w: World, id: nat)
    requires Inv(w) && id < |w.calls| && Full(w.calls[id])
    ensures Reached(w.since, KeyOf(w.calls[id]), w.step)
    ensures w.calls[id].node < |w.nodes|
  {
    CallIsOk(w, id);
    var c := w.calls[id];
    forall i: nat | i < |c.got| ensures c.got[i] in w.since && w.since[c.got[i]].step <= w.step {
      assert GotOk(w.since, Slack(w), c, i);
    }
  }

  lemma {:induction false} WriteNowKeeps(w: World, id: nat)
    requires Inv(w) && CallPossible(w, WriteNow(id), id)
    ensures Inv(Next(w, WriteNow(id)))
  {
    hide Inv;
    var c := w.calls[id];
    var i := Item(KeyOf(c), c.kind.payload, w.step, Some(id));
    ResolvedIsReached(w, id);
    PcMoves(w, id, Wrote(i));
    PutKeeps(SetCall(w, id, c.(pc := Wrote(i))), c.node, i);
    StepLater(Put(SetCall(w, id, c.(pc := Wrote(i))), c.node, i));
  }

  // ---------------------------------------------------------------------------------------------
  // A node handles a reply
  // ---------------------------------------------------------------------------------------------

  /** The call whose reply is handled moves to `d`, its node to `m`. */
  lemma {:induction false} Handled(w: World, n: nat, d: Call, m: Node)
    requires Inv(w) && DeliverPossible(w, n) && !d.pc.Replied? && !d.pc.Joined?
    requires Advances(w.calls[w.nodes[n].queue[0]], d)
    requires m.queue == w.nodes[n].queue[1..] && m.floor == w.nodes[n].floor
    requires CallOk(w.since, Slack(w), w.now, m.floor, d) && NodeOk(w.since, Slack(w), w.now, m)
    requires m.inflight == w.nodes[n].inflight
             || (Full(d) && m.inflight == w.nodes[n].inflight[KeyOf(d) := w.nodes[n].queue[0]])
    ensures Inv(SetNode(SetCall(w, w.nodes[n].queue[0], d), n, m))
    ensures Inv(Ticked(SetNode(SetCall(w, w.nodes[n].queue[0], d), n, m)))
  {
    hide Inv, CallOk, NodeOk;
    var id := w.nodes[n].queue[0];
    Patched(w, id, d, m);
    StepLater(SetNode(SetCall(w, id, d), n, m));
  }

  /** What the invariant says about the call at the head of a queue. */
  lemma {:induction false} HeadIsOk(w: World, n: nat)
    requires Inv(w) && DeliverPossible(w, n)
    ensures var c := w.calls[w.nodes[n].queue[0]];
            && CallOk(w.since, Slack(w), w.now, w.nodes[n].floor, c)
            && |c.got| <= |c.tags| && c.started <= w.now
            && PcOk(w.since, w.now, w.nodes[n].floor, c)
    ensures NodeOk(w.since, Slack(w), w.now, w.nodes[n])
  {
    CallIsOk(w, w.nodes[n].queue[0]);
  }

  /** Remembering a version that was the newest when Redis answered, at most `latency` ago. */
  lemma {:induction false} Remember(sn: History, slack: int, now: int, n: Node, m: Node, t: Tag, v: int, at: int)
    requires NodeOk(sn, slack, now, n) && Newest(sn, t, v, at) && FloorOf(n.floor, t) <= v
    requires at <= now && now + TAG_CACHE_TTL_MS <= at + slack
    requires m.l1 == n.l1 && m.floor == n.floor
    requires m.tagCache == n.tagCache[t := CachedVersion(v, now + TAG_CACHE_TTL_MS)]
    ensures NodeOk(sn, slack, now, m)
  {
    forall s | s in m.tagCache ensures CachedOk(sn, slack, now, m.floor, s, m.tagCache[s]) {
      if s != t {
        assert CachedOk(sn, slack, now, n.floor, s, n.tagCache[s]);
      }
    }
  }

  lemma {:induction false} DeliverVersionKeeps(w: World, n: nat)
    requires Inv(w) && DeliverPossible(w, n) && w.calls[w.nodes[n].queue[0]].pc.reply.Version?
    ensures Inv(Next(w, Deliver(n)))
  {
    hide Inv, CallOk, NodeOk, Newest;
    HeadIsOk(w, n);
    var c := w.calls[w.nodes[n].queue[0]];
    var t, v := c.tags[|c.got|], c.pc.reply.version;
    var m := w.nodes[n].(queue := w.nodes[n].queue[1..],
                         tagCache := w.nodes[n].tagCache[t := CachedVersion(v, w.now + TAG_CACHE_TTL_MS)]);
    Remember(w.since, Slack(w), w.now, w.nodes[n], m, t, v, c.pc.at);
    GotGrows(w.since, Slack(w), w.now, w.nodes[n].floor, c, v, c.pc.at);
    Handled(w, n, c.(got := c.got + [(t, v)], pc := Versions), m);
  }

  lemma {:induction false} DeliverAbsentKeeps(w: World, n: nat)
    requires Inv(w) && DeliverPossible(w, n) && w.calls[w.nodes[n].queue[0]].pc.reply.Absent?
    ensures Inv(Next(w, Deliver(n)))
  {
    hide Inv, CallOk;
    HeadIsOk(w, n);
    var c := w.calls[w.nodes[n].queue[0]];
    var m := w.nodes[n].(queue := w.nodes[n].queue[1..]);
    RestatePc(w.since, Slack(w), w.now, w.nodes[n].floor, c, Init);
    Handled(w, n, c.(pc := Init), m);
  }

  lemma {:induction false} DeliverHitKeeps(w: World, n: nat)
    requires Inv(w) && DeliverPossible(w, n)
    requires var r := w.calls[w.nodes[n].queue[0]].pc.reply; r.FromL2? && r.item.Some?
    ensures Inv(Next(w, Deliver(n)))
  {
    hide Inv, CallOk;
    HeadIsOk(w, n);
    var c := w.calls[w.nodes[n].queue[0]];
    var i := c.pc.reply.item.value;
    var m := w.nodes[n].(queue := w.nodes[n].queue[1..]);
    L1Grows(w.since, Slack(w), w.now, m, KeyOf(c), i);
    RestatePc(w.since, Slack(w), w.now, w.nodes[n].floor, c, Done(Some(i)));
    hide NodeOk;
    Handled(w, n, c.(pc := Done(Some(i))), m.(l1 := m.l1[KeyOf(c) := i]));
  }

  lemma {:induction false} DeliverMissKeeps(w: World, n: nat)
    requires Inv(w) && DeliverPossible(w, n)
    requires var r := w.calls[w.nodes[n].queue[0]].pc.reply; r.FromL2? && r.item.None?
    ensures Inv(Next(w, Deliver(n)))
  {
    hide Inv, CallOk;
    HeadIsOk(w, n);
    var id := w.nodes[n].queue[0];
    var c := w.calls[id];
    var m := w.nodes[n].(queue := w.nodes[n].queue[1..]);
    if c.kind.Read? {
      ResolvedIsReached(w, id);
      RestatePc(w.since, Slack(w), w.now, w.nodes[n].floor, c, Fetching(w.step));
      Handled(w, n, c.(pc := Fetching(w.step)), m.(inflight := m.inflight[KeyOf(c) := id]));
    } else {
      RestatePc(w.since, Slack(w), w.now, w.nodes[n].floor, c, Done(None));
      Handled(w, n, c.(pc := Done(None)), m);
    }
  }

  lemma {:induction false} L1Grows(sn: History, slack: int, now: int, n: Node, k: Key, i: Item)
    requires NodeOk(sn, slack, now, n) && ItemOk(sn, k, i)
    ensures NodeOk(sn, slack, now, n.(l1 := n.l1[k := i]))
  {
    hide CachedOk;
  }

  // ---------------------------------------------------------------------------------------------
  // An invalidation completes
  // ---------------------------------------------------------------------------------------------

  lemma {:induction false} RaiseIsLeast(m: map<Tag, int>, ps: seq<(Tag, int)>, t: Tag)
    requires forall i: nat | i < |ps| :: 1 <= ps[i].1
    ensures var r := FloorOf(Raise(m, ps), t);
            && FloorOf(m, t) <= r
            && (forall i: nat | i < |ps| :: ps[i].0 == t ==> ps[i].1 <= r)
            && (r == FloorOf(m, t) || exists i: nat | i < |ps| :: ps[i] == (t, r))
  {
    if ps != [] {
      var n := |ps| - 1;
      RaiseIsLeast(m, ps[..n], t);
      var r := FloorOf(Raise(m, ps[..n]), t);
      if r != FloorOf(m, t) {
        var i: nat :| i < |ps[..n]| && ps[..n][i] == (t, r);
        assert ps[i] == (t, r);
      }
      assert ps[n] == (ps[n].0, ps[n].1);
      forall i: nat | i < |ps| && ps[i].0 == t
        ensures ps[i].1 <= FloorOf(Raise(m, ps), t)
      {
        assert i < n ==> ps[..n][i] == ps[i];
      }
    }
  }

  lemma {:induction false} RaiseInHistory(sn: History, m: map<Tag, int>, ps: seq<(Tag, int)>)
    requires forall t <- m :: (t, m[t]) in sn
    requires forall i: nat | i < |ps| :: ps[i] in sn && 1 <= ps[i].1
    ensures forall t <- Raise(m, ps) :: (t, Raise(m, ps)[t]) in sn
  {
    if ps != [] {
      var n := |ps| - 1;
      assert forall i: nat | i < n :: ps[..n][i] == ps[i];
      RaiseInHistory(sn, m, ps[..n]);
      assert ps[n] == (ps[n].0, ps[n].1);
    }
  }

  /** A reply still queued was computed after this invalidation's INCRs, so the new floor fits. */
  lemma {:induction false} FloorFits(w: World, n: nat, id: nat)
    requires Inv(w) && DeliverPossible(w, n) && w.calls[w.nodes[n].queue[0]].pc.reply.Bumped?
    requires id < |w.calls| && w.calls[id].node == n && id != w.nodes[n].queue[0]
    ensures CallOk(w.since, Slack(w), w.now, Raise(w.nodes[n].floor, w.calls[w.nodes[n].queue[0]].got), w.calls[id])
  {
    var q := w.nodes[n].queue;
    var c, d := w.calls[q[0]], w.calls[id];
    var floor := w.nodes[n].floor;
    CallIsOk(w, q[0]);
    CallIsOk(w, id);
    VersionsArePositive(w, q[0]);
    forall t: Tag ensures FloorOf(d.floor, t) <= FloorOf(Raise(floor, c.got), t) {
      RaiseIsLeast(floor, c.got, t);
    }
    if d.pc.Replied? && d.pc.reply.Version? {
      RaiseIsLeast(floor, c.got, d.tags[|d.got|]);
      var j: nat :| j < |q| && q[j] == id;
      assert Behind(w.calls[q[0]], w.calls[q[j]]);
    }
  }

  lemma {:induction false} VersionsArePositive(w: World, id: nat)
    requires Inv(w) && id < |w.calls|
    ensures forall i: nat | i < |w.calls[id].got| :: w.calls[id].got[i] in w.since && 1 <= w.calls[id].got[i].1
  {
    CallIsOk(w, id);
    forall i: nat | i < |w.calls[id].got|
      ensures w.calls[id].got[i] in w.since && 1 <= w.calls[id].got[i].1
    {
      assert GotOk(w.since, Slack(w), w.calls[id], i);
    }
  }

  lemma {:induction false} ForgetFits(w: World, n: nat, id: nat)
    requires Inv(w) && n < |w.nodes| && w.nodes[n].queue != [] && id < |w.calls| && Full(w.calls[id])
    ensures var c := w.calls[id];
            var m := w.nodes[n];
            NodeOk(w.since, Slack(w), w.now,
                   m.(queue := m.queue[1..],
                      tagCache := Forget(m.tagCache, c.tags), floor := Raise(m.floor, c.got)))
  {
    var c := w.calls[id];
    var m := w.nodes[n];
    var tags := Forget(m.tagCache, c.tags);
    VersionsArePositive(w, id);
    NodeIsOk(w, n);
    CallIsOk(w, id);
    RaiseInHistory(w.since, m.floor, c.got);
    forall t | t in tags
      ensures CachedOk(w.since, Slack(w), w.now, Raise(m.floor, c.got), t, tags[t])
    {
      assert CachedOk(w.since, Slack(w), w.now, m.floor, t, m.tagCache[t]);
      RaiseIsLeast(m.floor, c.got, t);
      forall i: nat | i < |c.got| ensures c.got[i].0 != t {
        assert GotOk(w.since, Slack(w), c, i);
        assert c.tags[i] in c.tags;
      }
    }
  }

  lemma {:induction false} CallsRaised(w: World, n: nat)
    requires Inv(w) && DeliverPossible(w, n) && w.calls[w.nodes[n].queue[0]].pc.reply.Bumped?
    ensures var id := w.nodes[n].queue[0];
            var c := w.calls[id];
            var m := w.nodes[n];
            CallsOk(w.since, Slack(w), w.now,
                    w.nodes[n := m.(queue := m.queue[1..], tagCache := Forget(m.tagCache, c.tags),
                        floor := Raise(m.floor, c.got))],
                    w.calls[id := c.(pc := Done(None))])
  {
    var head := w.nodes[n].queue[0];
    var c := w.calls[head];
    var floor := Raise(w.nodes[n].floor, c.got);
    VersionsArePositive(w, head);
    forall id: nat | id < |w.calls|
      ensures w.calls[id].node < |w.nodes|
      ensures w.calls[id].node == n && id != head ==> CallOk(w.since, Slack(w), w.now, floor, w.calls[id])
      ensures w.calls[id].node != n ==>
                CallOk(w.since, Slack(w), w.now, w.nodes[w.calls[id].node].floor, w.calls[id])
    {
      CallIsOk(w, id);
      if w.calls[id].node == n && id != head {
        FloorFits(w, n, id);
      }
    }
    HeadRaised(w, n);
    hide Inv, CallOk;
  }

  lemma {:induction false} HeadRaised(w: World, n: nat)
    requires Inv(w) && DeliverPossible(w, n) && w.calls[w.nodes[n].queue[0]].pc.reply.Bumped?
    ensures var c := w.calls[w.nodes[n].queue[0]];
            CallOk(w.since, Slack(w), w.now, Raise(w.nodes[n].floor, c.got), c.(pc := Done(None)))
  {
    HeadIsOk(w, n);
    var c := w.calls[w.nodes[n].queue[0]];
    VersionsArePositive(w, w.nodes[n].queue[0]);
    RestatePc(w.since, Slack(w), w.now, w.nodes[n].floor, c, Done(None));
    forall t: Tag ensures FloorOf(c.floor, t) <= FloorOf(Raise(w.nodes[n].floor, c.got), t) {
      RaiseIsLeast(w.nodes[n].floor, c.got, t);
    }
  }

  lemma {:induction false} DeliverBumpedKeeps(w: World, n: nat)
    requires Inv(w) && DeliverPossible(w, n) && w.calls[w.nodes[n].queue[0]].pc.reply.Bumped?
    ensures Inv(Next(w, Deliver(n)))
  {
    hide Inv, CallOk, NodeOk, CallsOk, QueuesOk, LinksOk, NodesOk, Forget, Raise;
    var id := w.nodes[n].queue[0];
    HeadIsOk(w, n);
    ForgetFits(w, n, id);
    CallsRaised(w, n);
    PartsOk(w);
    var c := w.calls[id];
    var d := c.(pc := Done(None));
    var m := w.nodes[n].(queue := w.nodes[n].queue[1..], tagCache := Forget(w.nodes[n].tagCache, c.tags),
                         floor := Raise(w.nodes[n].floor, c.got));
    QueuesPatched(w.calls, w.nodes, id, d, m);
    LinksPatched(w.calls, w.nodes, id, d, m);
    NodesPatched(w.since, Slack(w), w.now, w.nodes, n, m);
    var v := SetNode(SetCall(w, id, d), n, m);
    PartsMake(v);
    StepLater(v);
  }

  lemma {:induction false} DeliverKeeps(w: World, n: nat)
    requires Inv(w) && DeliverPossible(w, n)
    ensures Inv(Next(w, Deliver(n)))
  {
    hide Inv, Next;
    match w.calls[w.nodes[n].queue[0]].pc.reply {
      case Version(_) => DeliverVersionKeeps(w, n);
      case Absent => DeliverAbsentKeeps(w, n);
      case FromL2(Some(_)) => DeliverHitKeeps(w, n);
      case FromL2(None) => DeliverMissKeeps(w, n);
      case Bumped => DeliverBumpedKeeps(w, n);
    }
  }

  // ---------------------------------------------------------------------------------------------
  // The remaining actions, and whole runs
  // ---------------------------------------------------------------------------------------------

  lemma {:induction false} StartKeeps(w: World, n: nat, kind: Kind, base: string, tags: seq<Tag>)
    requires Inv(w) && n < |w.nodes|
    ensures Inv(Next(w, Start(n, kind, base, tags)))
  {
    hide Inv, CallsOk, NodesOk, QueuesOk, LinksOk;
    var c := Call(n, kind, base, tags, w.now, w.step, w.nodes[n].floor, [], Versions);
    var v := w.(calls := w.calls + [c]);
    PartsOk(w);
    CallsAppended(w, c);
    QueuesAppended(w.calls, w.nodes, c);
    LinksAppended(w.calls, w.nodes, c);
    PartsMake(v);
    StepLater(v);
  }

  lemma {:induction false} CallsAppended(w: World, c: Call)
    requires Inv(w) && c.node < |w.nodes| && c.got == [] && c.pc.Versions?
    requires c.started == w.now && c.floor == w.nodes[c.node].floor
    ensures CallsOk(w.since, Slack(w), w.now, w.nodes, w.calls + [c])
  {
    assert CallOk(w.since, Slack(w), w.now, w.nodes[c.node].floor, c);
    hide CallOk, NodesOk, QueuesOk, LinksOk;
  }

  lemma {:induction false} QueuesAppended(calls: seq<Call>, nodes: seq<Node>, c: Call)
    requires QueuesOk(calls, nodes) && !c.pc.Replied?
    ensures QueuesOk(calls + [c], nodes)
  {
    hide Behind;
    forall m: nat | m < |nodes| ensures QueueOk(calls + [c], m, nodes[m].queue) {
      assert QueueOk(calls, m, nodes[m].queue);
    }
  }

  lemma {:induction false} LinksAppended(calls: seq<Call>, nodes: seq<Node>, c: Call)
    requires LinksOk(calls, nodes) && !c.pc.Joined?
    ensures LinksOk(calls + [c], nodes)
  {
    assert forall k, l: nat | FlightOk(calls, k, l) :: FlightOk(calls + [c], k, l);
  }

  lemma {:induction false} L1Shrinks(sn: History, slack: int, now: int, n: Node, k: Key)
    requires NodeOk(sn, slack, now, n)
    ensures NodeOk(sn, slack, now, n.(l1 := n.l1 - {k}))
  {
    hide CachedOk;
  }

  lemma {:induction false} ForgetL1Keeps(w: World, n: nat, k: Key)
    requires Inv(w) && n < |w.nodes|
    ensures Inv(Next(w, ForgetL1(n, k)))
  {
    hide Inv, NodeOk;
    NodeIsOk(w, n);
    var m := w.nodes[n].(l1 := w.nodes[n].l1 - {k});
    L1Shrinks(w.since, Slack(w), w.now, w.nodes[n], k);
    NodeMoves(w, n, m);
    StepLater(SetNode(w, n, m));
  }

  lemma {:induction false} SharedActionKeeps(w: World, a: Action)
    requires Inv(w) && Possible(w, a) && (a.LandWrite? || a.ForgetL2?)
    ensures Inv(Next(w, a))
  {
    hide CallsOk, NodesOk, QueuesOk, LinksOk;
  }

  lemma {:induction false} StepKeeps(w: World, a: Action)
    requires Inv(w) && Possible(w, a) && Safe(w, a)
    ensures Inv(Next(w, a))
  {
    hide Inv, Next, CallPossible, DeliverPossible;
    match a {
      case Start(n, kind, base, tags) => StartKeeps(w, n, kind, base, tags);
      case UseCached(id) => UseCachedKeeps(w, id);
      case AskVersion(id) => AskVersionKeeps(w, id);
      case InitVersion(id) => InitVersionKeeps(w, id);
      case Deliver(n) => DeliverKeeps(w, n);
      case HitL1(id) => HitL1Keeps(w, id);
      case Join(id) => JoinKeeps(w, id);
      case Miss(id) => MissKeeps(w, id);
      case AskL2(id, readable) => AskL2Keeps(w, id, readable);
      case FetchOk(id, payload) => FetchOkKeeps(w, id, payload);
      case FetchFail(id) => FetchFailKeeps(w, id);
      case Settle(id) => SettleKeeps(w, id);
      case Wake(id) => WakeKeeps(w, id);
      case WriteNow(id) => WriteNowKeeps(w, id);
      case Bump(id) => BumpKeeps(w, id);
      case BumpDone(id) => BumpDoneKeeps(w, id);
      case Tick(ms) => TickKeeps(w, ms);
      case LandWrite(_, _) => SharedActionKeeps(w, a);
      case ForgetL1(n, k) => ForgetL1Keeps(w, n, k);
      case ForgetL2(_) => SharedActionKeeps(w, a);
    }
  }

  lemma {:induction false} EveryRunKeeps(w: World, acts: seq<Action>, last: World)
    requires Inv(w) && SafeRun(w, acts, last)
    ensures Inv(last)
    decreases |acts|
  {
    hide Inv, Next;
    if acts != [] {
      StepKeeps(w, acts[0]);
      EveryRunKeeps(Next(w, acts[0]), acts[1..], last);
    }
  }
}
