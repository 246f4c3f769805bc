/**
 * The two-tier cache as a protocol: any number of nodes share one Redis; each node runs any number
 * of calls, which interleave at every `await`. A command takes effect in Redis at one instant; its
 * reply joins the node's queue and is handled later, in order.
 */
module CacheProtocol {
  import opened Common

  type Tag = string

  const TAG_CACHE_TTL_MS := 30000

  /** The effective key: base key and the tag versions baked into it, in the caller's order. */
  datatype Key = Key(base: string, versions: seq<(Tag, int)>)

  /**
   * A cached value: the key it was produced for, what it is, the step at which that key was complete,
   * and the set call that supplied it, if it was not fetched. A fetch begins at that step; a set call
   * has had its value in hand since it started.
   */
  datatype Item = Item(key: Key, payload: int, keyed: nat, writer: Option<nat>)

  datatype Kind = Read | Peek | Write(payload: int) | Invalidate

  datatype Reply = Version(version: int) | Absent | FromL2(item: Option<Item>) | Bumped

  datatype Pc =
    | Versions                        // next: the version of tags[|got|], or INCR of it
    | Init                            // Redis had no version for tags[|got|]; about to SET it to 1
    | Replied(reply: Reply, at: int)  // Redis has answered at time `at`; reply not yet handled
    | WantL2                          // missed L1 and found no flight to join
    | Fetching(born: nat)             // owns a registered flight
    | Stored(item: Item)              // fetched and stored, flight not yet unregistered
    | Joined(leader: nat)             // awaits another call's flight
    | Wrote(item: Item)               // a set that has stored its value
    | Done(result: Option<Item>)

  /** `begun` is the step at which the call started, `started` the time of it; `floor` records, for each
      tag, the newest version whose invalidation had completed on this node when the call started. */
  datatype Call = Call(
    node: nat, kind: Kind, base: string, tags: seq<Tag>, started: int, begun: nat, floor: map<Tag, int>,
    got: seq<(Tag, int)>, pc: Pc)

  datatype CachedVersion = CachedVersion(version: int, expiresAt: int)

  datatype Node = Node(
    tagCache: map<Tag, CachedVersion>, l1: map<Key, Item>, inflight: map<Key, nat>,
    queue: seq<nat>, floor: map<Tag, int>)

  /** When a tag version came into being: protocol step and wall clock. */
  datatype Stamp = Stamp(step: nat, ms: int)

  datatype World = World(
    step: nat, now: int, latency: nat,
    redis: map<Tag, int>, since: map<(Tag, int), Stamp>,
    l2: map<Key, Item>, writes: set<(Key, Item)>,
    nodes: seq<Node>, calls: seq<Call>)

  datatype Action =
    | Start(node: nat, kind: Kind, base: string, tags: seq<Tag>)
    | UseCached(id: nat)
    | AskVersion(id: nat)
    | InitVersion(id: nat)
    | Deliver(node: nat)
    | HitL1(id: nat)
    | Join(id: nat)
    | Miss(id: nat)
    | AskL2(id: nat, readable: bool)
    | FetchOk(id: nat, payload: int)
    | FetchFail(id: nat)
    | Settle(id: nat)
    | Wake(id: nat)
    | WriteNow(id: nat)
    | Bump(id: nat)
    | BumpDone(id: nat)
    | Tick(ms: nat)
    | LandWrite(key: Key, item: Item)
    | ForgetL1(node: nat, key: Key)
    | ForgetL2(key: Key)
    | ExpireTag(tag: Tag)

  function KeyOf(c: Call): Key { Key(c.base, c.got) }

  predicate Resolved(c: Call) { c.pc.Versions? && |c.got| == |c.tags| }

  predicate Resolving(c: Call) { c.pc.Versions? && |c.got| < |c.tags| }

  function FloorOf(m: map<Tag, int>, t: Tag): int { if t in m then m[t] else 0 }

  function Raise(m: map<Tag, int>, ps: seq<(Tag, int)>): map<Tag, int> {
    if ps == [] then m
    else
      var r := Raise(m, ps[..|ps| - 1]);
      var p := ps[|ps| - 1];
      r[p.0 := Max(FloorOf(r, p.0), p.1)]
  }

  /** The tags an invalidation forgets locally once its pipeline has been answered. */
  function Forget(m: map<Tag, CachedVersion>, tags: seq<Tag>): map<Tag, CachedVersion> {
    map t | t in m && t !in tags :: m[t]
  }

  predicate CallPossible(w: World, a: Action, id: nat) {
    id < |w.calls| && w.calls[id].node < |w.nodes| &&
    var c := w.calls[id];
    var n := w.nodes[c.node];
    match a
    case UseCached(_) =>
      && Resolving(c) && !c.kind.Invalidate?
      && c.tags[|c.got|] in n.tagCache && w.now < n.tagCache[c.tags[|c.got|]].expiresAt
    case AskVersion(_) => Resolving(c) && !c.kind.Invalidate?
    case InitVersion(_) => c.pc.Init? && |c.got| < |c.tags|
    case HitL1(_) => Resolved(c) && (c.kind.Read? || c.kind.Peek?) && KeyOf(c) in n.l1
    case Join(_) => Resolved(c) && c.kind.Read? && KeyOf(c) !in n.l1 && KeyOf(c) in n.inflight
    case Miss(_) =>
      && Resolved(c) && KeyOf(c) !in n.l1
      && (c.kind.Peek? || (c.kind.Read? && KeyOf(c) !in n.inflight))
    case AskL2(_, _) => c.pc.WantL2?
    case FetchOk(_, _) => c.pc.Fetching?
    case FetchFail(_) => c.pc.Fetching?
    case Settle(_) => c.pc.Stored?
    case Wake(_) => c.pc.Joined? && c.pc.leader < |w.calls| && w.calls[c.pc.leader].pc.Done?
    case WriteNow(_) => Resolved(c) && c.kind.Write?
    case Bump(_) => Resolving(c) && c.kind.Invalidate?
    case BumpDone(_) => Resolved(c) && c.kind.Invalidate?
    case _ => false
  }

  /** Redis answers within `latency` milliseconds; every finite run has such a bound. */
  predicate DeliverPossible(w: World, n: nat) {
    && n < |w.nodes| && w.nodes[n].queue != []
    && var id := w.nodes[n].queue[0];
    && id < |w.calls| && w.calls[id].node == n && w.calls[id].pc.Replied?
    && w.now <= w.calls[id].pc.at + w.latency
  }

  predicate Possible(w: World, a: Action) {
    match a
    case Start(n, _, _, _) => n < |w.nodes|
    case Deliver(n) => DeliverPossible(w, n)
    case Tick(_) => true
    case LandWrite(k, i) => (k, i) in w.writes
    case ForgetL1(n, _) => n < |w.nodes|
    case ForgetL2(_) => true
    case ExpireTag(t) => t in w.redis
    case _ => CallPossible(w, a, a.id)
  }

  function SetCall(w: World, id: nat, c: Call): World
    requires id < |w.calls|
  {
    w.(calls := w.calls[id := c])
  }

  function SetNode(w: World, n: nat, d: Node): World
    requires n < |w.nodes|
  {
    w.(nodes := w.nodes[n := d])
  }

  function Lookup<K, V>(m: map<K, V>, k: K): Option<V> { if k in m then Some(m[k]) else None }

  /** Redis answers call `id`: the reply goes to the end of its node's queue. */
  function Answer(w: World, id: nat, reply: Reply): World
    requires id < |w.calls| && w.calls[id].node < |w.nodes|
  {
    var c := w.calls[id];
    var n := w.nodes[c.node];
    SetNode(SetCall(w, id, c.(pc := Replied(reply, w.now))), c.node, n.(queue := n.queue + [id]))
  }

  /** A tag version is written in Redis; its first appearance is recorded. */
  function Establish(w: World, t: Tag, v: int): World {
    w.(redis := w.redis[t := v],
       since := if (t, v) in w.since then w.since else w.since[(t, v) := Stamp(w.step, w.now)])
  }

  function Bumped1(w: World, t: Tag): int { if t in w.redis then w.redis[t] + 1 else 1 }

  /** A fresh or fetched value enters both tiers: L1 at once, L2 when the write lands. */
  function Put(w: World, n: nat, i: Item): World
    requires n < |w.nodes|
  {
    SetNode(w, n, w.nodes[n].(l1 := w.nodes[n].l1[i.key := i])).(writes := w.writes + {(i.key, i)})
  }

  function CallStep(w: World, a: Action, id: nat): World
    requires CallPossible(w, a, id)
  {
    var c := w.calls[id];
    var n := w.nodes[c.node];
    match a
    case UseCached(_) =>
      var t := c.tags[|c.got|];
      SetCall(w, id, c.(got := c.got + [(t, n.tagCache[t].version)]))
    case AskVersion(_) =>
      var t := c.tags[|c.got|];
      Answer(w, id, if t in w.redis then Version(w.redis[t]) else Absent)
    case InitVersion(_) => Answer(Establish(w, c.tags[|c.got|], 1), id, Version(1))
    case HitL1(_) => SetCall(w, id, c.(pc := Done(Some(n.l1[KeyOf(c)]))))
    case Join(_) => SetCall(w, id, c.(pc := Joined(n.inflight[KeyOf(c)])))
    case Miss(_) => SetCall(w, id, c.(pc := WantL2))
    case AskL2(_, readable) => Answer(w, id, FromL2(if readable then Lookup(w.l2, KeyOf(c)) else None))
    case FetchOk(_, payload) =>
      var i := Item(KeyOf(c), payload, c.pc.born, None);
      Put(SetCall(w, id, c.(pc := Stored(i))), c.node, i)
    case FetchFail(_) =>
      SetNode(SetCall(w, id, c.(pc := Done(None))), c.node, n.(inflight := n.inflight - {KeyOf(c)}))
    case Settle(_) =>
      SetNode(SetCall(w, id, c.(pc := Done(Some(c.pc.item)))), c.node, n.(inflight := n.inflight - {KeyOf(c)}))
    case Wake(_) => SetCall(w, id, c.(pc := w.calls[c.pc.leader].pc))
    case WriteNow(_) =>
      var i := Item(KeyOf(c), c.kind.payload, w.step, Some(id));
      Put(SetCall(w, id, c.(pc := Wrote(i))), c.node, i)
    case Bump(_) =>
      var t := c.tags[|c.got|];
      SetCall(Establish(w, t, Bumped1(w, t)), id, c.(got := c.got + [(t, Bumped1(w, t))]))
    case BumpDone(_) => Answer(w, id, Bumped)
  }

  /** The node handles the oldest reply in its queue and runs the waiting call to its next await. */
  function DeliverStep(w: World, n: nat): World
    requires DeliverPossible(w, n)
  {
    var d := w.nodes[n].(queue := w.nodes[n].queue[1..]);
    var id := w.nodes[n].queue[0];
    var c := w.calls[id];
    match c.pc.reply
    case Version(v) =>
      if |c.got| < |c.tags| then
        var t := c.tags[|c.got|];
        SetNode(SetCall(w, id, c.(got := c.got + [(t, v)], pc := Versions)), n,
                d.(tagCache := d.tagCache[t := CachedVersion(v, w.now + TAG_CACHE_TTL_MS)]))
      else SetNode(SetCall(w, id, c.(pc := Versions)), n, d)
    case Absent => SetNode(SetCall(w, id, c.(pc := Init)), n, d)
    case FromL2(Some(i)) =>
      SetNode(SetCall(w, id, c.(pc := Done(Some(i)))), n, d.(l1 := d.l1[KeyOf(c) := i]))
    case FromL2(None) =>
      if c.kind.Read? then
        SetNode(SetCall(w, id, c.(pc := Fetching(w.step))), n, d.(inflight := d.inflight[KeyOf(c) := id]))
      else SetNode(SetCall(w, id, c.(pc := Done(None))), n, d)
    case Bumped =>
      SetNode(SetCall(w, id, c.(pc := Done(None))), n,
              d.(tagCache := Forget(d.tagCache, c.tags), floor := Raise(d.floor, c.got)))
  }

  function Effect(w: World, a: Action): World
    requires Possible(w, a)
  {
    match a
    case Start(n, kind, base, tags) =>
      w.(calls := w.calls + [Call(n, kind, base, tags, w.now, w.step, w.nodes[n].floor, [], Versions)])
    case Deliver(n) => DeliverStep(w, n)
    case Tick(ms) => w.(now := w.now + ms)
    case LandWrite(k, i) => w.(l2 := w.l2[k := i])
    case ForgetL1(n, k) => SetNode(w, n, w.nodes[n].(l1 := w.nodes[n].l1 - {k}))
    case ForgetL2(k) => w.(l2 := w.l2 - {k})
    case ExpireTag(t) => w.(redis := w.redis - {t})
    case _ => CallStep(w, a, a.id)
  }

  function Next(w: World, a: Action): World
    requires Possible(w, a)
  {
    Effect(w, a).(step := w.step + 1)
  }

  /** The first-use SET writes 1 unconditionally; it rolls a tag back if others moved it on. */
  predicate RollsBack(w: World, a: Action) {
    && a.InitVersion? && a.id < |w.calls| && |w.calls[a.id].got| < |w.calls[a.id].tags|
    && var t := w.calls[a.id].tags[|w.calls[a.id].got|];
    && t in w.redis && w.redis[t] > 1
  }

  predicate Safe(w: World, a: Action) { !a.ExpireTag? && !RollsBack(w, a) }

  predicate Run(w: World, acts: seq<Action>, last: World)
    decreases |acts|
  {
    if acts == [] then last == w
    else Possible(w, acts[0]) && Run(Next(w, acts[0]), acts[1..], last)
  }

  predicate SafeRun(w: World, acts: seq<Action>, last: World)
    decreases |acts|
  {
    if acts == [] then last == w
    else Possible(w, acts[0]) && Safe(w, acts[0]) && SafeRun(Next(w, acts[0]), acts[1..], last)
  }

  /** `n` nodes, nothing cached anywhere, no tag version yet. */
  function Empty(n: nat, latency: nat, now: int): World {
    World(0, now, latency, map[], map[], map[], {}, seq(n, _ => Node(map[], map[], map[], [], map[])), [])
  }
}
