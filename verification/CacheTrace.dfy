/** Tools for writing out concrete runs of the cache protocol. */
module CacheTrace {
  import opened CacheProtocol

  /** Equality of one-node states, component by component. */
  lemma {:induction false} Same(u: World, v: World)
    requires u.step == v.step && u.now == v.now && u.latency == v.latency
    requires u.redis == v.redis && u.since == v.since && u.l2 == v.l2 && u.writes == v.writes
    requires |u.nodes| == |v.nodes| == 1 && |u.calls| == |v.calls|
    requires u.nodes[0].tagCache == v.nodes[0].tagCache && u.nodes[0].l1 == v.nodes[0].l1
    requires u.nodes[0].inflight == v.nodes[0].inflight && u.nodes[0].floor == v.nodes[0].floor
    requires u.nodes[0].queue == v.nodes[0].queue
    requires forall i: nat | i < |u.calls| :: SameCall(u.calls[i], v.calls[i])
    ensures u == v
  {
    assert forall i: nat | i < |u.calls| :: u.calls[i] == v.calls[i] by {
      forall i: nat | i < |u.calls| ensures u.calls[i] == v.calls[i] {
        assert SameCall(u.calls[i], v.calls[i]);
      }
    }
    assert u.nodes[0] == v.nodes[0];
    assert u.nodes == v.nodes && u.calls == v.calls;
  }

  predicate SameCall(c: Call, d: Call) {
    && c.node == d.node && c.kind == d.kind && c.base == d.base && c.tags == d.tags
    && c.started == d.started && c.begun == d.begun && c.floor == d.floor && c.got == d.got && c.pc == d.pc
  }

  lemma {:induction false} Prepend(w: World, a: Action, v: World, acts: seq<Action>, last: World)
    requires Possible(w, a) && Next(w, a) == v && Run(v, acts, last)
    ensures Run(w, [a] + acts, last)
  {
    hide Possible, Next;
    assert ([a] + acts)[0] == a && ([a] + acts)[1..] == acts;
  }
}
