/**
 * The first-use SET (advanced-cache.service.ts:102-108) can serve stale data. Two calls find tag "t"
 * without a version. One of them sets it to 1 and writes value 7; an invalidation moves it to 2 and
 * completes; then the other call's pending SET puts it back to 1, and a read that starts after all
 * this, on the same node, returns 7.
 */
module CacheRollback {
  import opened Common
  import opened CacheProtocol
  import opened CacheTrace

  const KEY := Key("k", [("t", 1)])
  const OLD := Item(KEY, 7, 8, Some(1))

  const ACTS: seq<Action> := [
    Start(0, Read, "k", ["t"]), AskVersion(0), Deliver(0),
    Start(0, Write(7), "k", ["t"]), AskVersion(1), Deliver(0), InitVersion(1), Deliver(0), WriteNow(1),
    Start(0, Invalidate, "", ["t"]), Bump(2), BumpDone(2), Deliver(0),
    InitVersion(0), Deliver(0),
    Start(0, Read, "k", ["t"]), UseCached(3), HitL1(3)]

  function Slow(i: nat): Call {
    Call(0, Read, "k", ["t"], 0, 0, map[], if i < 15 then [] else [("t", 1)],
         if i == 2 then Replied(Absent, 0)
         else if 3 <= i < 14 then Init
         else if i == 14 then Replied(Version(1), 0)
         else Versions)
  }

  function Writer(i: nat): Call {
    Call(0, Write(7), "k", ["t"], 0, 3, map[], if i < 8 then [] else [("t", 1)],
         if i == 5 then Replied(Absent, 0)
         else if i == 6 then Init
         else if i == 7 then Replied(Version(1), 0)
         else if i < 9 then Versions
         else Wrote(OLD))
  }

  function Invalidator(i: nat): Call {
    Call(0, Invalidate, "", ["t"], 0, 9, map[], if i < 11 then [] else [("t", 2)],
         if i == 12 then Replied(Bumped, 0) else if i < 12 then Versions else Done(None))
  }

  function LateReader(i: nat): Call {
    Call(0, Read, "k", ["t"], 0, 15, map["t" := 2], if i < 17 then [] else [("t", 1)],
         if i < 18 then Versions else Done(Some(OLD)))
  }

  function Calls(i: nat): seq<Call> {
    if i == 0 then []
    else if i < 4 then [Slow(i)]
    else if i < 10 then [Slow(i), Writer(i)]
    else if i < 16 then [Slow(i), Writer(i), Invalidator(i)]
    else [Slow(i), Writer(i), Invalidator(i), LateReader(i)]
  }

  function W(i: nat): World {
    World(
      i, 0, 0,
      if i < 7 then map[] else if i < 11 || i >= 14 then map["t" := 1] else map["t" := 2],
      if i < 7 then map[]
      else if i < 11 then map[("t", 1) := Stamp(6, 0)]
      else map[("t", 1) := Stamp(6, 0), ("t", 2) := Stamp(10, 0)],
      map[],
      if i < 9 then {} else {(KEY, OLD)},
      [Node(
        if i < 8 || 13 <= i < 15 then map[] else map["t" := CachedVersion(1, 30000)],
        if i < 9 then map[] else map[KEY := OLD],
        map[],
        if i == 2 || i == 14 then [0] else if i == 5 || i == 7 then [1] else if i == 12 then [2] else [],
        if i < 13 then map[] else map["t" := 2])],
      Calls(i))
  }

  /** INCR on version 1, for the third call. */
  lemma {:induction false} BumpOnce(w: World, v: World)
    requires |w.calls| == 3 && w.calls[2] == Invalidator(10) && |w.nodes| == 1
    requires "t" in w.redis && w.redis["t"] == 1 && ("t", 2) !in w.since
    requires v == w.(step := w.step + 1, redis := w.redis["t" := 2],
                     since := w.since[("t", 2) := Stamp(w.step, w.now)],
                     calls := [w.calls[0], w.calls[1], Invalidator(11)])
    ensures Possible(w, Bump(2)) && Next(w, Bump(2)) == v
  {
    assert w.calls[2 := Invalidator(11)] == v.calls;
    assert Invalidator(11) == Invalidator(10).(got := [] + [("t", 2)]);
  }

  lemma {:induction false} RaiseOne(t: Tag, v: int)
    requires 0 < v
    ensures Raise(map[], [(t, v)]) == map[t := v]
  {
    assert [(t, v)][..0] == [];
  }

  predicate Leads(i: nat)
    requires i < 18
  {
    Possible(W(i), ACTS[i]) && Next(W(i), ACTS[i]) == W(i + 1)
  }

  lemma {:induction false} Steps0And1()
    ensures Leads(0) && Leads(1)
  {
    assert Leads(0) by {
      Same(Next(W(0), ACTS[0]), W(1));
    }
    assert Leads(1) by {
      Same(Next(W(1), ACTS[1]), W(2));
    }
  }

  lemma {:induction false} Steps2And3()
    ensures Leads(2) && Leads(3)
  {
    assert Leads(2) by {
      Same(Next(W(2), ACTS[2]), W(3));
    }
    assert Leads(3) by {
      Same(Next(W(3), ACTS[3]), W(4));
    }
  }

  lemma {:induction false} Steps4And5()
    ensures Leads(4) && Leads(5)
  {
    assert Leads(4) by {
      Same(Next(W(4), ACTS[4]), W(5));
    }
    assert Leads(5) by {
      Same(Next(W(5), ACTS[5]), W(6));
    }
  }

  lemma {:induction false} Step6()
    ensures Leads(6)
  {
    Same(Next(W(6), ACTS[6]), W(7));
  }

  lemma {:induction false} Step7()
    ensures Leads(7)
  {
    Same(Next(W(7), ACTS[7]), W(8));
  }

  lemma {:induction false} Step8()
    ensures Leads(8)
  {
    Same(Next(W(8), ACTS[8]), W(9));
  }

  lemma {:induction false} Step9()
    ensures Leads(9)
  {
    Same(Next(W(9), ACTS[9]), W(10));
  }

  lemma {:induction false} Step10()
    ensures Leads(10)
  {
    BumpOnce(W(10), W(11));
  }

  lemma {:induction false} Step11()
    ensures Leads(11)
  {
    Same(Next(W(11), ACTS[11]), W(12));
  }

  lemma {:induction false} Step12()
    ensures Leads(12)
  {
    RaiseOne("t", 2);
    Same(Next(W(12), ACTS[12]), W(13));
  }

  lemma {:induction false} Step13()
    ensures Leads(13)
  {
    Same(Next(W(13), ACTS[13]), W(14));
  }

  lemma {:induction false} Steps14And15()
    ensures Leads(14) && Leads(15)
  {
    assert Leads(14) by {
      Same(Next(W(14), ACTS[14]), W(15));
    }
    assert Leads(15) by {
      Same(Next(W(15), ACTS[15]), W(16));
    }
  }

  lemma {:induction false} Step16()
    ensures Leads(16)
  {
    Same(Next(W(16), ACTS[16]), W(17));
  }

  lemma {:induction false} Step17()
    ensures Leads(17)
  {
    Same(Next(W(17), ACTS[17]), W(18));
  }

  lemma {:induction false} Step(i: nat)
    requires i < 18
    ensures Possible(W(i), ACTS[i]) && Next(W(i), ACTS[i]) == W(i + 1)
  {
    hide W, Next, Possible;
    match i {
      case 0 => Steps0And1();
      case 1 => Steps0And1();
      case 2 => Steps2And3();
      case 3 => Steps2And3();
      case 4 => Steps4And5();
      case 5 => Steps4And5();
      case 6 => Step6();
      case 7 => Step7();
      case 8 => Step8();
      case 9 => Step9();
      case 10 => Step10();
      case 11 => Step11();
      case 12 => Step12();
      case 13 => Step13();
      case 14 => Steps14And15();
      case 15 => Steps14And15();
      case 16 => Step16();
      case 17 => Step17();
    }
  }

  lemma {:induction false} FromHere(i: nat)
    requires i <= 18
    ensures Run(W(i), ACTS[i..], W(18))
    decreases 18 - i
  {
    hide W, Next, Possible;
    if i < 18 {
      Step(i);
      FromHere(i + 1);
      Prepend(W(i), ACTS[i], W(i + 1), ACTS[i + 1..], W(18));
      assert [ACTS[i]] + ACTS[i + 1..] == ACTS[i..];
    }
  }

  lemma {:induction false} EndState()
    ensures W(18).calls[3].pc == Done(Some(OLD)) && W(18).calls[3].floor == map["t" := 2]
    ensures ("t", 2) in W(18).since && OLD.keyed < W(18).since[("t", 2)].step
  {
  }

  lemma {:induction false} StartState()
    ensures W(0) == Empty(1, 0, 0)
  {
    Same(W(0), Empty(1, 0, 0));
  }

  /** The one step outside the safe runs. */
  lemma {:induction false} TheSetRollsBack()
    ensures RollsBack(W(13), InitVersion(0))
  {
  }

  /**
   * The final state of the run: call 3 started after the invalidation had completed on its node (its
   * floor holds version 2), yet it returns a value produced before version 2 was made.
   */
  lemma {:induction false} FirstUseSetRevivesOldVersion() returns (acts: seq<Action>, w: World)
    ensures Run(Empty(1, 0, 0), acts, w) && |w.calls| == 4
    ensures w.calls[3].pc == Done(Some(OLD)) && w.calls[3].floor == map["t" := 2]
    ensures ("t", 2) in w.since && OLD.keyed < w.since[("t", 2)].step
  {
    EndState();
    StartState();
    assert |W(18).calls| == 4;
    hide W, Run, Empty;
    FromHere(0);
    acts, w := ACTS[0..], W(18);
  }
}
