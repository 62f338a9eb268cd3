/** How many steps a push or a pop takes that no other thread disturbs. */
module LfStackAlone {
  import opened Base
  import opened LfStack
  import opened LfStackCalls

  predicate Inner(a: Action) {
    !Begins(a) && !a.Overwrite? && !a.Give?
  }

  /** The steps a call still takes when only its thread steps: one more round if its swap is lost already. */
  function Left(s: State, t: Tid): nat {
    match At(s, t)
    case Push(_, seen) => if Matches(s, seen) then 2 else 4
    case PushSwap(_, seen) => if Matches(s, seen) then 1 else 3
    case Pop(seen) => if Matches(s, seen) then 3 else 5
    case PopSwap(seen, _) => if Matches(s, seen) then 2 else 4
    case Popped(_) => 1
    case _ => 0
  }

  lemma {:induction false} StepLowers(s: State, a: Action)
    requires Can(s, a) && s.tags > 0 && Inner(a)
    ensures Left(Do(s, a), a.t) < Left(s, a.t)
  {
  }

  predicate Alone(acts: seq<Action>, j: nat, k: nat, t: Tid)
    requires j <= k <= |acts|
  {
    forall m :: j <= m < k ==> Inner(acts[m]) && acts[m].t == t
  }

  predicate Lower(ss: seq<State>, k: nat, t: Tid)
    requires 0 < k < |ss|
  {
    Left(ss[k], t) < Left(ss[k - 1], t)
  }

  lemma {:induction false} RunLower(ss: seq<State>, acts: seq<Action>, k: nat)
    requires Run(ss, acts) && k < |acts| && Inner(acts[k])
    ensures Lower(ss, k + 1, acts[k].t)
  {
    StepLowers(ss[k], acts[k]);
  }

  lemma {:induction false} LowerSteps(ss: seq<State>, j: nat, k: nat, t: Tid)
    requires j <= k < |ss| && forall m :: j < m <= k ==> Lower(ss, m, t)
    ensures k - j + Left(ss[k], t) <= Left(ss[j], t)
    decreases k
  {
    if j < k {
      LowerSteps(ss, j, k - 1, t);
      assert Lower(ss, k, t);
    }
  }

  ghost predicate Lowers(ss: seq<State>, acts: seq<Action>) {
    |ss| == |acts| + 1 && forall k :: 0 <= k < |acts| && Inner(acts[k]) ==> Lower(ss, k + 1, acts[k].t)
  }

  lemma {:induction false} RunLowers(ss: seq<State>, acts: seq<Action>)
    requires Run(ss, acts)
    ensures Lowers(ss, acts)
  {
    forall k | 0 <= k < |acts| && Inner(acts[k])
      ensures Lower(ss, k + 1, acts[k].t)
    {
      RunLower(ss, acts, k);
    }
  }

  lemma {:induction false} LeftFalls(ss: seq<State>, acts: seq<Action>, j: nat, k: nat, t: Tid)
    requires Lowers(ss, acts) && j <= k < |ss| && Alone(acts, j, k, t)
    ensures k - j <= Left(ss[j], t)
  {
    forall m | j < m <= k
      ensures Lower(ss, m, t)
    {
      assert Lower(ss, m - 1 + 1, acts[m - 1].t);
    }
    LowerSteps(ss, j, k, t);
  }

  lemma {:induction false} LeftBound(s: State, t: Tid)
    ensures Left(s, t) <= 5
  {
  }

  /** A push or pop that no other thread disturbs ends within five steps, however its swap had been lost before. */
  lemma {:induction false} EndsAlone(ss: seq<State>, acts: seq<Action>, j: nat, k: nat, t: Tid)
    requires Run(ss, acts) && j <= k < |ss| && Alone(acts, j, k, t)
    ensures k - j <= 5
  {
    RunLowers(ss, acts);
    LeftFalls(ss, acts, j, k, t);
    LeftBound(ss[j], t);
  }
}
