/** What every reachable state of the cache protocol satisfies. */
module CacheInvariant {
  import opened Common
  import opened CacheProtocol

  type History = map<(Tag, int), Stamp>

  /** Every version in the key already existed when the value's production began. */
  predicate Reached(sn: History, k: Key, born: nat) {
    forall i | 0 <= i < |k.versions| :: k.versions[i] in sn && sn[k.versions[i]].step <= born
  }

  predicate ItemOk(sn: History, k: Key, i: Item) { i.key == k && Reached(sn, k, i.keyed) }

  predicate Full(c: Call) { |c.got| == |c.tags| }

  /** Version `v` of `t` was the newest one at time `at`. */
  predicate Newest(sn: History, t: Tag, v: int, at: int) {
    (t, v) in sn && forall p <- sn :: p.0 == t && p.1 > v ==> sn[p].ms >= at
  }

  /** Versions are numbered and stamped in the order in which they came into being. */
  predicate HistoryOk(redis: map<Tag, int>, sn: History, step: nat, now: int) {
    && (forall t <- redis :: (t, redis[t]) in sn)
    && (forall p <- sn :: p.0 in redis && 1 <= p.1 <= redis[p.0])
    && (forall p <- sn :: sn[p].step < step && sn[p].ms <= now)
    && Ordered(sn)
  }

  predicate Ordered(sn: History) {
    forall p <- sn, q <- sn :: p.0 == q.0 && p.1 <= q.1 ==> sn[p].step <= sn[q].step && sn[p].ms <= sn[q].ms
  }

  /** A version a call has looked up is new enough for the invalidations before the call. */
  predicate GotOk(sn: History, slack: int, c: Call, i: nat)
    requires i < |c.got| <= |c.tags|
  {
    && c.got[i].0 == c.tags[i]
    && c.got[i] in sn
    && FloorOf(c.floor, c.tags[i]) <= c.got[i].1
    && forall p <- sn :: p.0 == c.tags[i] && sn[p].ms + slack <= c.started ==> p.1 <= c.got[i].1
  }

  predicate PcOk(sn: History, now: int, floor: map<Tag, int>, c: Call)
    requires |c.got| <= |c.tags|
  {
    match c.pc
    case Versions => true
    case Init => !Full(c)
    case Replied(r, at) =>
      && at <= now
      && (match r
          case Version(v) =>
            && !Full(c)
            && Newest(sn, c.tags[|c.got|], v, at)
            && FloorOf(floor, c.tags[|c.got|]) <= v
          case Absent => !Full(c)
          case FromL2(o) => Full(c) && (o.Some? ==> ItemOk(sn, KeyOf(c), o.value))
          case Bumped => Full(c))
    case WantL2 => Full(c)
    case Fetching(born) => Full(c) && Reached(sn, KeyOf(c), born)
    case Stored(i) => Full(c) && ItemOk(sn, KeyOf(c), i)
    case Wrote(i) => Full(c) && ItemOk(sn, KeyOf(c), i)
    case Joined(_) => Full(c)
    case Done(o) => o.Some? ==> Full(c) && ItemOk(sn, KeyOf(c), o.value)
  }

  ghost predicate FloorLe(a: map<Tag, int>, b: map<Tag, int>) {
    forall t: Tag :: FloorOf(a, t) <= FloorOf(b, t)
  }

  ghost predicate CallOk(sn: History, slack: int, now: int, floor: map<Tag, int>, c: Call) {
    && c.started <= now
    && FloorLe(c.floor, floor)
    && |c.got| <= |c.tags|
    && (forall i: nat | i < |c.got| :: GotOk(sn, slack, c, i))
    && PcOk(sn, now, floor, c)
  }

  predicate CachedOk(sn: History, slack: int, now: int, floor: map<Tag, int>, t: Tag, cv: CachedVersion) {
    && (t, cv.version) in sn
    && FloorOf(floor, t) <= cv.version
    && cv.expiresAt <= now + TAG_CACHE_TTL_MS
    && forall p <- sn :: p.0 == t && p.1 > cv.version ==> sn[p].ms + slack >= cv.expiresAt
  }

  predicate NodeOk(sn: History, slack: int, now: int, n: Node) {
    && (forall t <- n.tagCache :: CachedOk(sn, slack, now, n.floor, t, n.tagCache[t]))
    && (forall k <- n.l1 :: ItemOk(sn, k, n.l1[k]))
    && (forall t <- n.floor :: (t, n.floor[t]) in sn)
  }

  /** Flights are found under the key they fetch. */
  predicate FlightOk(calls: seq<Call>, k: Key, leader: nat) {
    leader < |calls| && Full(calls[leader]) && KeyOf(calls[leader]) == k
  }

  predicate LinksOk(calls: seq<Call>, nodes: seq<Node>) {
    && (forall id: nat | id < |calls| && calls[id].pc.Joined? :: FlightOk(calls, KeyOf(calls[id]), calls[id].pc.leader))
    && (forall n: nat | n < |nodes| :: forall k <- nodes[n].inflight :: FlightOk(calls, k, nodes[n].inflight[k]))
  }

  /** A version read after an invalidation's INCR is at least the version that INCR made. */
  predicate Behind(first: Call, second: Call) {
    first.pc.Replied? && first.pc.reply.Bumped? && second.pc.Replied? && second.pc.reply.Version?
    && |second.got| < |second.tags| ==>
      forall i: nat | i < |first.got| ::
        first.got[i].0 == second.tags[|second.got|] ==> first.got[i].1 <= second.pc.reply.version
  }

  predicate QueueOk(calls: seq<Call>, n: nat, q: seq<nat>) {
    && (forall i: nat | i < |q| :: q[i] < |calls| && calls[q[i]].node == n && calls[q[i]].pc.Replied?)
    && (forall i: nat, j: nat | i < j < |q| :: q[i] != q[j])
    && (forall id: nat | id < |calls| && calls[id].node == n && calls[id].pc.Replied? :: id in q)
    && (forall i: nat, j: nat | i < j < |q| :: Behind(calls[q[i]], calls[q[j]]))
  }

  function Slack(w: World): int { TAG_CACHE_TTL_MS + w.latency }

  ghost predicate CallsOk(sn: History, slack: int, now: int, nodes: seq<Node>, calls: seq<Call>) {
    && (forall id: nat | id < |calls| :: calls[id].node < |nodes|)
    && (forall id: nat | id < |calls| :: CallOk(sn, slack, now, nodes[calls[id].node].floor, calls[id]))
  }

  predicate NodesOk(sn: History, slack: int, now: int, nodes: seq<Node>) {
    forall n: nat | n < |nodes| :: NodeOk(sn, slack, now, nodes[n])
  }

  predicate QueuesOk(calls: seq<Call>, nodes: seq<Node>) {
    forall n: nat | n < |nodes| :: QueueOk(calls, n, nodes[n].queue)
  }

  predicate SharedOk(w: World) {
    && (forall k <- w.l2 :: ItemOk(w.since, k, w.l2[k]))
    && (forall p <- w.writes :: ItemOk(w.since, p.0, p.1))
  }

  ghost predicate Inv(w: World) {
    && HistoryOk(w.redis, w.since, w.step, w.now)
    && CallsOk(w.since, Slack(w), w.now, w.nodes, w.calls)
    && NodesOk(w.since, Slack(w), w.now, w.nodes)
    && QueuesOk(w.calls, w.nodes)
    && LinksOk(w.calls, w.nodes)
    && SharedOk(w)
  }

  // ---------------------------------------------------------------------------------------------
  // Later states know at least as much
  // ---------------------------------------------------------------------------------------------

  predicate Grows(sn: History, tn: History, now: int) {
    && (forall p <- sn :: p in tn && tn[p] == sn[p])
    && (forall p <- tn :: p !in sn ==> tn[p].ms >= now)
  }

  lemma {:induction false} ItemLater(sn: History, tn: History, now: int, k: Key, i: Item)
    requires Grows(sn, tn, now) && ItemOk(sn, k, i)
    ensures ItemOk(tn, k, i)
  {
  }

  lemma {:induction false} CallLater(sn: History, tn: History, slack: int, now: int, now': int,
      floor: map<Tag, int>, c: Call)
    requires 0 < slack && now <= now' && Grows(sn, tn, now) && CallOk(sn, slack, now, floor, c)
    ensures CallOk(tn, slack, now', floor, c)
  {
    forall i: nat | i < |c.got| ensures GotOk(tn, slack, c, i) {
      assert GotOk(sn, slack, c, i);
    }
  }

  lemma {:induction false} NodeLater(sn: History, tn: History, slack: int, now: int, now': int, n: Node)
    requires TAG_CACHE_TTL_MS <= slack && now <= now' && Grows(sn, tn, now) && NodeOk(sn, slack, now, n)
    ensures NodeOk(tn, slack, now', n)
  {
    forall t | t in n.tagCache ensures CachedOk(tn, slack, now', n.floor, t, n.tagCache[t]) {
      assert CachedOk(sn, slack, now, n.floor, t, n.tagCache[t]);
    }
  }

  // ---------------------------------------------------------------------------------------------
  // One call and its node move on
  // ---------------------------------------------------------------------------------------------

  /** The same call, at most further along; once its key is complete it never changes. */
  predicate Advances(c: Call, d: Call) {
    && d.node == c.node && d.kind == c.kind && d.base == c.base && d.tags == c.tags
    && d.started == c.started && d.begun == c.begun && d.floor == c.floor
    && (Full(c) ==> d.got == c.got)
  }

  predicate SameQueue(c: Call, d: Call, n: Node, m: Node) {
    m.queue == n.queue && !c.pc.Replied? && !d.pc.Replied?
  }

  predicate Enqueued(calls: seq<Call>, id: nat, d: Call, n: Node, m: Node)
    requires id < |calls|
  {
    && m.queue == n.queue + [id] && !calls[id].pc.Replied? && d.pc.Replied?
    && forall i: nat | i < |n.queue| :: n.queue[i] < |calls| && Behind(calls[n.queue[i]], d)
  }

  predicate Dequeued(id: nat, c: Call, d: Call, n: Node, m: Node) {
    n.queue != [] && n.queue[0] == id && m.queue == n.queue[1..] && c.pc.Replied? && !d.pc.Replied?
  }

  predicate QueueMoves(calls: seq<Call>, nodes: seq<Node>, id: nat, d: Call, m: Node)
    requires id < |calls| && d.node < |nodes|
  {
    || SameQueue(calls[id], d, nodes[d.node], m)
    || Enqueued(calls, id, d, nodes[d.node], m)
    || Dequeued(id, calls[id], d, nodes[d.node], m)
  }

  /** A queue that does not mention the call is unaffected by it. */
  lemma {:induction false} OtherQueue(calls: seq<Call>, n: nat, q: seq<nat>, id: nat, d: Call)
    requires id < |calls| && QueueOk(calls, n, q) && d.node == calls[id].node
    requires forall i: nat | i < |q| :: q[i] != id
    requires d.pc.Replied? ==> d.node != n
    ensures QueueOk(calls[id := d], n, q)
  {
    hide Behind;
  }

  lemma {:induction false} QueueAppended(calls: seq<Call>, n: nat, q: seq<nat>, id: nat, d: Call)
    requires id < |calls| && QueueOk(calls, n, q) && d.node == calls[id].node == n
    requires !calls[id].pc.Replied? && d.pc.Replied?
    requires forall i: nat | i < |q| :: q[i] < |calls| && Behind(calls[q[i]], d)
    ensures QueueOk(calls[id := d], n, q + [id])
  {
    hide Behind;
    assert forall i: nat | i < |q| :: q[i] != id;
  }

  lemma {:induction false} QueuePopped(calls: seq<Call>, n: nat, q: seq<nat>, id: nat, d: Call)
    requires id < |calls| && q != [] && QueueOk(calls, n, q) && q[0] == id
    requires d.node == calls[id].node && !d.pc.Replied?
    ensures QueueOk(calls[id := d], n, q[1..])
  {
    hide Behind;
    var r := q[1..];
    assert forall i: nat | i < |r| :: r[i] == q[i + 1] && r[i] != id;
    forall k: nat | k < |calls| && k != id && calls[k].node == n && calls[k].pc.Replied? ensures k in r {
      assert k in q;
    }
  }

  lemma {:induction false} QueuesPatched(calls: seq<Call>, nodes: seq<Node>, id: nat, d: Call, m: Node)
    requires id < |calls| && calls[id].node == d.node < |nodes|
    requires QueuesOk(calls, nodes) && QueueMoves(calls, nodes, id, d, m)
    ensures QueuesOk(calls[id := d], nodes[d.node := m])
  {
    var calls', nodes' := calls[id := d], nodes[d.node := m];
    forall n: nat | n < |nodes'|
      ensures QueueOk(calls', n, nodes'[n].queue)
    {
      var q := nodes[n].queue;
      assert QueueOk(calls, n, q);
      if n != d.node || SameQueue(calls[id], d, nodes[n], m) {
        assert forall i: nat | i < |q| :: q[i] != id;
        hide QueueOk;
        OtherQueue(calls, n, q, id, d);
      } else if Enqueued(calls, id, d, nodes[n], m) {
        hide QueueOk;
        QueueAppended(calls, n, q, id, d);
      } else {
        hide QueueOk;
        QueuePopped(calls, n, q, id, d);
      }
    }
  }

  predicate FlightsMove(calls: seq<Call>, nodes: seq<Node>, id: nat, d: Call, m: Node)
    requires d.node < |nodes|
  {
    && (d.pc.Joined? ==> FlightOk(calls, KeyOf(d), d.pc.leader))
    && forall k <- m.inflight ::
         || (k in nodes[d.node].inflight && m.inflight[k] == nodes[d.node].inflight[k])
         || (m.inflight[k] == id && Full(d) && KeyOf(d) == k)
  }

  lemma {:induction false} LinksPatched(calls: seq<Call>, nodes: seq<Node>, id: nat, d: Call, m: Node)
    requires id < |calls| && Advances(calls[id], d) && d.node < |nodes| && LinksOk(calls, nodes)
    requires FlightsMove(calls, nodes, id, d, m)
    ensures LinksOk(calls[id := d], nodes[d.node := m])
  {
    var calls' := calls[id := d];
    assert forall k, l: nat | FlightOk(calls, k, l) :: FlightOk(calls', k, l);
  }

  lemma {:induction false} CallsPatched(sn: History, slack: int, now: int, nodes: seq<Node>, calls: seq<Call>,
      id: nat, d: Call, m: Node)
    requires CallsOk(sn, slack, now, nodes, calls)
    requires id < |calls| && d.node == calls[id].node && m.floor == nodes[d.node].floor
    requires CallOk(sn, slack, now, m.floor, d)
    ensures CallsOk(sn, slack, now, nodes[d.node := m], calls[id := d])
  {
    hide CallOk;
  }

  lemma {:induction false} NodesPatched(sn: History, slack: int, now: int, nodes: seq<Node>, n: nat, m: Node)
    requires NodesOk(sn, slack, now, nodes) && n < |nodes| && NodeOk(sn, slack, now, m)
    ensures NodesOk(sn, slack, now, nodes[n := m])
  {
    hide NodeOk;
  }

  /** The invariant after call `id` becomes `d` and its node `m`, with all histories unchanged. */
  lemma {:induction false} Patched(w: World, id: nat, d: Call, m: Node)
    requires Inv(w) && id < |w.calls| && Advances(w.calls[id], d)
    requires d.node < |w.nodes| && m.floor == w.nodes[d.node].floor
    requires CallOk(w.since, Slack(w), w.now, m.floor, d)
    requires NodeOk(w.since, Slack(w), w.now, m)
    requires QueueMoves(w.calls, w.nodes, id, d, m)
    requires FlightsMove(w.calls, w.nodes, id, d, m)
    ensures Inv(SetNode(SetCall(w, id, d), d.node, m))
  {
    hide CallOk, NodeOk, QueueMoves, FlightsMove, CallsOk, NodesOk, QueuesOk, LinksOk;
    QueuesPatched(w.calls, w.nodes, id, d, m);
    LinksPatched(w.calls, w.nodes, id, d, m);
    CallsPatched(w.since, Slack(w), w.now, w.nodes, w.calls, id, d, m);
    NodesPatched(w.since, Slack(w), w.now, w.nodes, d.node, m);
  }
}
