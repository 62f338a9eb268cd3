/** How many steps a call on a 2-byte mutex takes that no other thread disturbs. */
module Mutex2bAlone {
  import opened Base
  import opened Mutex2b
  import opened Mutex2bRuns
  import opened Mutex2bCalls

  predicate Inner(a: Action) {
    !Begins(a) && !a.TryLock?
  }

  function Where(q: seq<Tid>, x: Tid): (i: nat)
    ensures i <= |q| && (i < |q| ==> q[i] == x) && (x in q ==> i < |q|)
  {
    if q == [] || q[0] == x then 0 else 1 + Where(q[1..], x)
  }

  /** With the swap of an unlock to come: one more round, with a walk if none was made, if it is lost already. */
  function SwapLeft(s: State, m: Mid, seen: nat, walked: bool): nat {
    if Word(s, m) == seen then 3 else if walked then 5 else |Line(s, m)| + 6
  }

  /** The steps a call still takes when only its thread steps. */
  function Left(s: State, t: Tid): nat {
    match At(s, t)
    case Lock(_) => 2
    case LockSwap(m, seen) => if Word(s, m) == seen then 1 else 3
    case Blocked(_) => if t in s.signalled then 1 else 0
    case Unlock(m, found) => if found.Some? then 4 else |Line(s, m)| + 5
    case UnlockWalk(m, seen, cur) => Where(Line(s, m), cur) + SwapLeft(s, m, seen, true)
    case UnlockSwap(m, seen, found) => SwapLeft(s, m, seen, found.Some?)
    case HandOver(_, _) => 2
    case Wake(_, _) => 1
    case _ => 0
  }

  lemma {:induction false} WhereIs(q: seq<Tid>, i: nat)
    requires i < |q| && Distinct(q)
    ensures Where(q, q[i]) == i
  {
  }

  lemma {:induction false} LockLowers(s: State, t: Tid)
    requires At(s, t).LockSwap? && t !in s.signalled
    ensures Left(SwapLockOf(s, t), t) < Left(s, t)
  {
  }

  lemma {:induction false} ReadLowers(s: State, t: Tid)
    requires At(s, t).Unlock?
    requires var q := Line(s, At(s, t).m);
      Distinct(q) && q != [] && Word(s, At(s, t).m) == Last(q)
    ensures Left(ReadWordOf(s, t), t) < Left(s, t)
  {
    WhereIs(Line(s, At(s, t).m), |Line(s, At(s, t).m)| - 1);
  }

  lemma {:induction false} WalkLowers(s: State, t: Tid, i: nat)
    requires At(s, t).UnlockWalk?
    requires var p := At(s, t);
      var q := Line(s, p.m);
      && Distinct(q) && 1 <= i < |q| && q[i] == p.cur && Next(s, p.cur) == q[i - 1] && q[0] == t
    ensures Left(StepWalkOf(s, t), t) < Left(s, t)
  {
    var q := Line(s, At(s, t).m);
    WhereIs(q, i);
    WhereIs(q, i - 1);
  }

  lemma {:induction false} SwapLowers(s: State, t: Tid)
    requires At(s, t).UnlockSwap? && (At(s, t).seen == t <==> At(s, t).found == None)
    ensures Left(SwapUnlockOf(s, t), t) < Left(s, t)
  {
    var p' := SwapPc(s, t);
  }

  lemma {:induction false} SwapPc(s: State, t: Tid) returns (p': Pc)
    requires At(s, t).UnlockSwap? && (At(s, t).seen == t <==> At(s, t).found == None)
    ensures var p, s' := At(s, t), SwapUnlockOf(s, t);
      && s'.pc == s.pc[t := p']
      && if Word(s, p.m) == p.seen then p'.Idle? || p'.Fault? || p'.HandOver?
         else p'.Fault? || (p' == Unlock(p.m, p.found) && Line(s', p.m) == Line(s, p.m))
  {
    var p := At(s, t);
    p' := if p.found.Some? && Next(s, p.found.value) != t then Fault
          else if Word(s, p.m) != p.seen then Unlock(p.m, p.found)
          else if p.seen == t then Idle
          else HandOver(p.m, p.found.value);
  }

  /** The waiter the walk has reached, by its place in line. */
  lemma {:induction false} WalkPlace(s: State, t: Tid) returns (i: nat)
    requires Inv(s) && At(s, t).UnlockWalk?
    ensures var p := At(s, t);
      var q := Line(s, p.m);
      && Distinct(q) && 1 <= i < |q| && q[i] == p.cur && Next(s, p.cur) == q[i - 1] && q[0] == t
  {
    var p := At(s, t);
    InvAt(s, t, p.m);
    var j :| 0 <= j < |Line(s, p.m)| - 1 && Line(s, p.m)[1..][j] == p.cur;
    i := j + 1;
    assert LinkOk(s, p.m, i);
  }

  lemma {:induction false} StepLowers(s: State, a: Action)
    requires Inv(s) && Can(s, a) && Inner(a)
    ensures Left(Do(s, a), a.t) < Left(s, a.t)
  {
    var t := a.t;
    InvAt(s, t, if At(s, t).Idle? || At(s, t).Fault? then 0 else At(s, t).m);
    match a
    case SwapLock(_) => LockLowers(s, t);
    case ReadWord(_) => ReadLowers(s, t);
    case StepWalk(_) =>
      var i := WalkPlace(s, t);
      WalkLowers(s, t, i);
    case SwapUnlock(_) => SwapLowers(s, t);
    case _ =>
  }

  predicate Alone(acts: seq<Action>, j: nat, k: nat, t: Tid)
    requires j <= k <= |acts|
  {
    forall m :: j <= m < k ==> Inner(acts[m]) && acts[m].t == t
  }

  predicate Lower(ss: seq<State>, k: nat, t: Tid)
    requires 0 < k < |ss|
  {
    Left(ss[k], t) < Left(ss[k - 1], t)
  }

  lemma {:induction false} RunLower(ss: seq<State>, acts: seq<Action>, k: nat)
    requires Run(ss, acts) && k < |acts| && Inner(acts[k])
    ensures Lower(ss, k + 1, acts[k].t)
  {
    RunInv(ss, acts, k);
    StepLowers(ss[k], acts[k]);
  }

  lemma {:induction false} LowerSteps(ss: seq<State>, j: nat, k: nat, t: Tid)
    requires j <= k < |ss| && forall m :: j < m <= k ==> Lower(ss, m, t)
    ensures k - j + Left(ss[k], t) <= Left(ss[j], t)
    decreases k
  {
    if j < k {
      LowerSteps(ss, j, k - 1, t);
      assert Lower(ss, k, t);
    }
  }

  ghost predicate Lowers(ss: seq<State>, acts: seq<Action>) {
    |ss| == |acts| + 1 && forall k :: 0 <= k < |acts| && Inner(acts[k]) ==> Lower(ss, k + 1, acts[k].t)
  }

  lemma {:induction false} RunLowers(ss: seq<State>, acts: seq<Action>)
    requires Run(ss, acts)
    ensures Lowers(ss, acts)
  {
    forall k | 0 <= k < |acts| && Inner(acts[k])
      ensures Lower(ss, k + 1, acts[k].t)
    {
      RunLower(ss, acts, k);
    }
  }

  lemma {:induction false} LeftFalls(ss: seq<State>, acts: seq<Action>, j: nat, k: nat, t: Tid)
    requires Lowers(ss, acts) && j <= k < |ss| && Alone(acts, j, k, t)
    ensures k - j <= Left(ss[j], t)
  {
    forall m | j < m <= k
      ensures Lower(ss, m, t)
    {
      assert Lower(ss, m - 1 + 1, acts[m - 1].t);
    }
    LowerSteps(ss, j, k, t);
  }

  lemma {:induction false} LeftBound(s: State, t: Tid, m: Mid)
    requires !At(s, t).Idle? && !At(s, t).Fault? ==> At(s, t).m == m
    ensures Left(s, t) <= |Line(s, m)| + 6
  {
  }

  /**
   * A call on `m` that no other thread disturbs ends or sleeps within as many steps as one walk over the
   * line and six more, however its swaps had been lost before.
   */
  lemma {:induction false} EndsAlone(ss: seq<State>, acts: seq<Action>, j: nat, k: nat, t: Tid, m: Mid)
    requires Run(ss, acts) && j <= k < |ss| && Alone(acts, j, k, t)
    requires !At(ss[j], t).Idle? && !At(ss[j], t).Fault? ==> At(ss[j], t).m == m
    ensures k - j <= |Line(ss[j], m)| + 6
  {
    RunLowers(ss, acts);
    LeftFalls(ss, acts, j, k, t);
    LeftBound(ss[j], t, m);
  }
}
