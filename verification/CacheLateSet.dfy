/**
 * A set that was under way at an invalidation. It starts before the tag is bumped, looks the version
 * up afterwards, and so files its old value under the new version; a read that starts after the
 * invalidation has completed, on the same node, returns it.
 */
module CacheLateSet {
  import opened Common
  import opened CacheProtocol
  import opened CacheFresh
  import opened CacheOrigin
  import opened CacheTrace

  const KEY := Key("k", [("t", 1)])
  const LATE := Item(KEY, 7, 7, Some(0))

  const ACTS: seq<Action> := [
    Start(0, Write(7), "k", ["t"]),
    Start(0, Invalidate, "", ["t"]), Bump(1), BumpDone(1), Deliver(0),
    AskVersion(0), Deliver(0), WriteNow(0),
    Start(0, Read, "k", ["t"]), UseCached(2), HitL1(2)]

  function Setter(i: nat): Call {
    Call(0, Write(7), "k", ["t"], 0, 0, map[], if i < 7 then [] else [("t", 1)],
         if i == 6 then Replied(Version(1), 0) else if i < 8 then Versions else Wrote(LATE))
  }

  function Invalidator(i: nat): Call {
    Call(0, Invalidate, "", ["t"], 0, 1, map[], if i < 3 then [] else [("t", 1)],
         if i == 4 then Replied(Bumped, 0) else if i < 4 then Versions else Done(None))
  }

  function LateReader(i: nat): Call {
    Call(0, Read, "k", ["t"], 0, 8, map["t" := 1], if i < 10 then [] else [("t", 1)],
         if i < 11 then Versions else Done(Some(LATE)))
  }

  function Calls(i: nat): seq<Call> {
    if i == 0 then []
    else if i == 1 then [Setter(i)]
    else if i < 9 then [Setter(i), Invalidator(i)]
    else [Setter(i), Invalidator(i), LateReader(i)]
  }

  function W(i: nat): World {
    World(
      i, 0, 0,
      if i < 3 then map[] else map["t" := 1],
      if i < 3 then map[] else map[("t", 1) := Stamp(2, 0)],
      map[],
      if i < 8 then {} else {(KEY, LATE)},
      [Node(
        if i < 7 then map[] else map["t" := CachedVersion(1, 30000)],
        if i < 8 then map[] else map[KEY := LATE],
        map[],
        if i == 4 then [1] else if i == 6 then [0] else [],
        if i < 5 then map[] else map["t" := 1])],
      Calls(i))
  }

  predicate Leads(i: nat)
    requires i < 11
  {
    Possible(W(i), ACTS[i]) && Next(W(i), ACTS[i]) == W(i + 1)
  }

  lemma {:induction false} RaiseOne(t: Tag, v: int)
    requires 0 < v
    ensures Raise(map[], [(t, v)]) == map[t := v]
  {
    assert [(t, v)][..0] == [];
  }

  lemma {:induction false} Step0()
    ensures Leads(0)
  {
    Same(Next(W(0), ACTS[0]), W(1));
  }

  lemma {:induction false} Step1()
    ensures Leads(1)
  {
    Same(Next(W(1), ACTS[1]), W(2));
  }

  lemma {:induction false} Step2()
    ensures Leads(2)
  {
    Same(Next(W(2), ACTS[2]), W(3));
  }

  lemma {:induction false} Step3()
    ensures Leads(3)
  {
    Same(Next(W(3), ACTS[3]), W(4));
  }

  lemma {:induction false} Step4()
    ensures Leads(4)
  {
    RaiseOne("t", 1);
    Same(Next(W(4), ACTS[4]), W(5));
  }

  lemma {:induction false} Step5()
    ensures Leads(5)
  {
    Same(Next(W(5), ACTS[5]), W(6));
  }

  lemma {:induction false} Step6()
    ensures Leads(6)
  {
    Same(Next(W(6), ACTS[6]), W(7));
  }

  lemma {:induction false} Step7()
    ensures Leads(7)
  {
    Same(Next(W(7), ACTS[7]), W(8));
  }

  lemma {:induction false} Step8()
    ensures Leads(8)
  {
    Same(Next(W(8), ACTS[8]), W(9));
  }

  lemma {:induction false} Step9()
    ensures Leads(9)
  {
    Same(Next(W(9), ACTS[9]), W(10));
  }

  lemma {:induction false} Step10()
    ensures Leads(10)
  {
    Same(Next(W(10), ACTS[10]), W(11));
  }

  lemma {:induction false} FromHere(i: nat)
    requires i <= 11
    ensures Run(W(i), ACTS[i..], W(11))
    decreases 11 - i
  {
    hide W, Next, Possible;
    if i < 11 {
      Step(i);
      FromHere(i + 1);
      Prepend(W(i), ACTS[i], W(i + 1), ACTS[i + 1..], W(11));
      assert [ACTS[i]] + ACTS[i + 1..] == ACTS[i..];
    }
  }

  lemma {:induction false} Step(i: nat)
    requires i < 11
    ensures Possible(W(i), ACTS[i]) && Next(W(i), ACTS[i]) == W(i + 1)
  {
    hide W, Next, Possible;
    match i {
      case 0 => Step0();
      case 1 => Step1();
      case 2 => Step2();
      case 3 => Step3();
      case 4 => Step4();
      case 5 => Step5();
      case 6 => Step6();
      case 7 => Step7();
      case 8 => Step8();
      case 9 => Step9();
      case 10 => Step10();
    }
  }

  predicate Plain(acts: seq<Action>) { forall a <- acts :: !a.InitVersion? && !a.ExpireTag? }

  lemma {:induction false} PlainIsSafe(w: World, acts: seq<Action>, last: World)
    requires Run(w, acts, last) && Plain(acts)
    ensures SafeRun(w, acts, last)
    decreases |acts|
  {
    hide Possible, Next;
    if acts != [] {
      assert acts[0] in acts;
      PlainIsSafe(Next(w, acts[0]), acts[1..], last);
    }
  }

  lemma {:induction false} ActsArePlain()
    ensures Plain(ACTS)
  {
  }

  lemma {:induction false} WholeRun()
    ensures SafeRun(W(0), ACTS, W(11))
  {
    hide W, Run, SafeRun, Plain;
    FromHere(0);
    assert ACTS[0..] == ACTS;
    ActsArePlain();
    PlainIsSafe(W(0), ACTS, W(11));
  }

  lemma {:induction false} FirstWorld()
    ensures W(0) == Empty(1, 0, 0)
  {
    Same(W(0), Empty(1, 0, 0));
  }

  /**
   * In the last state of this safe run call 2 started after the invalidation had completed on its
   * node (its floor holds the version made), yet returns the argument of call 0, a set that started
   * before that version was made.
   */
  lemma {:induction false} SetUnderwayIsReadAsStale()
    ensures SafeRun(Empty(1, 0, 0), ACTS, W(11)) && |W(11).calls| == 3
    ensures W(11).calls[0].kind == Write(7) && Returned(W(11), 2, LATE) && LATE.payload == 7
    ensures W(11).calls[2].floor == map["t" := 1]
    ensures ("t", 1) in W(11).since && !Fresh(W(11), LATE, ("t", 1))
  {
    hide Run, SafeRun, Empty;
    WholeRun();
    FirstWorld();
  }
}
