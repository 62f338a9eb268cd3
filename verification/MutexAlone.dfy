/** How many steps a call on a 4-byte mutex takes that no other thread disturbs. */
module MutexAlone {
  import opened Base
  import opened Mutex
  import opened MutexRuns
  import MutexRest

  /** With the swap to come: one more walk if it is lost already. */
  function SwapLeft(s: State, seen: nat): nat {
    if s.waitq == seen then 3 else |s.line| + 4
  }

  /** The steps a call still takes when only its thread steps. */
  function Left(s: State, t: Tid): nat {
    match At(s, t)
    case Blocked => if t in s.signalled then 1 else 0
    case Unlock => |s.line| + 4
    case Walk(seen, _, _, j) => 1 + j + SwapLeft(s, seen)
    case Swap(seen, _, _) => SwapLeft(s, seen)
    case Unlink(_) => 2
    case Wake(_) => 1
    case _ => 0
  }

  lemma {:induction false} ReadLowers(s: State, t: Tid)
    requires s.waitq != NIL ==> s.line != []
    ensures Left(ReadWordOf(s, t), t) < |s.line| + 4
  {
  }

  lemma {:induction false} WalkLowers(s: State, t: Tid)
    requires At(s, t).Walk? && (At(s, t).j == 0 ==> Next(s, At(s, t).cur) == NIL)
    ensures Left(StepWalkOf(s, t), t) < Left(s, t)
  {
  }

  lemma {:induction false} SwapLowers(s: State, t: Tid)
    requires At(s, t).Swap? && (s.waitq != NIL ==> s.line != []) && s.owner == t
    ensures Left(SwapOf(s, t), t) < Left(s, t)
  {
    if s.waitq != At(s, t).seen {
      ReadLowers(s, t);
    }
  }

  /** The walk's place counts down to the oldest waiter, which has no link. */
  lemma {:induction false} WalkEnds(s: State, t: Tid)
    requires Inv(s) && At(s, t).Walk? && At(s, t).j == 0
    ensures Next(s, At(s, t).cur) == NIL
  {
    assert ThreadOk(s, t);
    LineAt(s, 0);
    if s.tail != [] {
      LinkAt(s, 0);
    }
  }

  lemma {:induction false} LinePlace(s: State)
    requires ChainOk(s)
    ensures s.waitq != NIL ==> s.line != []
  {
  }

  lemma {:induction false} OwnerHas(s: State, t: Tid)
    requires Inv(s) && At(s, t).Swap?
    ensures s.owner == t
  {
    assert ThreadOk(s, t);
  }

  lemma {:induction false} EndLowers(s: State, a: Action)
    requires Can(s, a) && (a.Resume? || a.DoUnlink? || a.Signal?)
    ensures Left(Do(s, a), a.t) < Left(s, a.t)
  {
  }

  lemma {:induction false} StepLowers(s: State, a: Action)
    requires Inv(s) && Can(s, a) && MutexRest.Inner(a)
    ensures Left(Do(s, a), a.t) < Left(s, a.t)
  {
    LinePlace(s);
    match a
    case ReadWord(t) => ReadLowers(s, t);
    case StepWalk(t) =>
      if At(s, t).j == 0 {
        WalkEnds(s, t);
      }
      WalkLowers(s, t);
    case DoSwap(t) =>
      OwnerHas(s, t);
      SwapLowers(s, t);
    case _ => EndLowers(s, a);
  }

  predicate Alone(acts: seq<Action>, j: nat, k: nat, t: Tid)
    requires j <= k <= |acts|
  {
    forall m :: j <= m < k ==> MutexRest.Inner(acts[m]) && acts[m].t == t
  }

  predicate Lower(ss: seq<State>, k: nat, t: Tid)
    requires 0 < k < |ss|
  {
    Left(ss[k], t) < Left(ss[k - 1], t)
  }

  lemma {:induction false} RunLower(ss: seq<State>, acts: seq<Action>, k: nat)
    requires Run(ss, acts) && k < |acts| && MutexRest.Inner(acts[k])
    ensures Lower(ss, k + 1, acts[k].t)
  {
    RunInv(ss, acts, k);
    StepLowers(ss[k], acts[k]);
  }

  lemma {:induction false} LowerSteps(ss: seq<State>, j: nat, k: nat, t: Tid)
    requires j <= k < |ss| && forall m :: j < m <= k ==> Lower(ss, m, t)
    ensures k - j + Left(ss[k], t) <= Left(ss[j], t)
    decreases k
  {
    if j < k {
      LowerSteps(ss, j, k - 1, t);
      assert Lower(ss, k, t);
    }
  }

  ghost predicate Lowers(ss: seq<State>, acts: seq<Action>) {
    |ss| == |acts| + 1 && forall k :: 0 <= k < |acts| && MutexRest.Inner(acts[k]) ==> Lower(ss, k + 1, acts[k].t)
  }

  lemma {:induction false} RunLowers(ss: seq<State>, acts: seq<Action>)
    requires Run(ss, acts)
    ensures Lowers(ss, acts)
  {
    forall k | 0 <= k < |acts| && MutexRest.Inner(acts[k])
      ensures Lower(ss, k + 1, acts[k].t)
    {
      RunLower(ss, acts, k);
    }
  }

  lemma {:induction false} LeftFalls(ss: seq<State>, acts: seq<Action>, j: nat, k: nat, t: Tid)
    requires Lowers(ss, acts) && j <= k < |ss| && Alone(acts, j, k, t)
    ensures k - j <= Left(ss[j], t)
  {
    forall m | j < m <= k
      ensures Lower(ss, m, t)
    {
      assert Lower(ss, m - 1 + 1, acts[m - 1].t);
    }
    LowerSteps(ss, j, k, t);
  }

  lemma {:induction false} LeftBound(s: State, t: Tid)
    requires Inv(s)
    ensures Left(s, t) <= 2 * |s.line| + 4
  {
    assert ThreadOk(s, t);
  }

  /**
   * A call that no other thread disturbs ends or sleeps within as many steps as two walks over the line
   * and four more, however its swap had been lost before.
   */
  lemma {:induction false} EndsAlone(ss: seq<State>, acts: seq<Action>, j: nat, k: nat, t: Tid)
    requires Run(ss, acts) && j <= k < |ss| && Alone(acts, j, k, t)
    ensures k - j <= 2 * |ss[j].line| + 4
  {
    RunLowers(ss, acts);
    LeftFalls(ss, acts, j, k, t);
    RunInv(ss, acts, j);
    LeftBound(ss[j], t);
  }
}
