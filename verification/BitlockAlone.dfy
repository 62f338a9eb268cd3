/** How many steps a call on a bitlock mutex takes that no other thread disturbs. */
module BitlockAlone {
  import opened Base
  import opened Bitlock
  import opened BitlockCalls

  /** The steps a call still takes when only its thread steps. */
  function Left(s: State, t: Tid): nat {
    match At(s, t)
    case Idle => 0
    case Blocked(_) => if t in s.signalled then 1 else 0
    case LockEnter(_) => 4
    case LockSet(_) => 3
    case LockGot(_) => 1
    case LockAppend(_) => 2
    case UnlockTry(_) => 7
    case UnlockEnter(_) => 6
    case UnlockFind(_) => 5
    case UnlockClear(_, _) => 4
    case UnlockExit(_, _) => 3
    case CvSet(_) => 8
    case CvEnter(_) => 7
    case CvDrop(_) => 6
    case CvFind(_) => 5
    case CvClear(_, _) => 4
    case CvAppend(_, _) => 3
    case SigEnter(_, _) => 4
    case SigMark(_, _) => 3
    case SigClear(_, _) => 2
    case SigSet(_) => 1
    case Wake(_, _, _) => 2
    case Fault => 0
  }

  lemma {:induction false} FindLeaves(s: State, t: Tid, l: Lid, cv: bool)
    ensures Left(FindOf(s, t, l, cv), t) <= 4
  {
    var p' := FindPc(s, t, l, cv);
  }

  lemma {:induction false} ClearLeaves(s: State, t: Tid, l: Lid, q: Pc)
    requires q.UnlockExit? || q.CvAppend?
    ensures Left(ClearOf(s, t, l, q), t) <= 3
  {
    var p' := ClearPc(s, t, l, q);
  }

  lemma {:induction false} MarkLeaves(s: State, t: Tid, l: Lid, all: bool)
    ensures Left(MarkOf(s, t, l, all), t) <= 2
  {
    var p' := MarkPc(s, t, l, all);
  }

  lemma {:induction false} FindLowers(s: State, t: Tid)
    requires At(s, t).UnlockFind? || At(s, t).CvFind?
    ensures Left(StepOf(s, t), t) < Left(s, t)
  {
    var p := At(s, t);
    assert StepOf(s, t) == FindOf(s, t, p.l, p.CvFind?);
    FindLeaves(s, t, p.l, p.CvFind?);
  }

  lemma {:induction false} ClearLowers(s: State, t: Tid)
    requires At(s, t).UnlockClear? || At(s, t).CvClear?
    ensures Left(StepOf(s, t), t) < Left(s, t)
  {
    var p := At(s, t);
    ClearLeaves(s, t, p.l, if p.UnlockClear? then UnlockExit(p.l, p.heir) else CvAppend(p.l, Some(p.heir)));
  }

  lemma {:induction false} MarkLowers(s: State, t: Tid)
    requires At(s, t).SigMark?
    ensures Left(StepOf(s, t), t) < Left(s, t)
  {
    MarkLeaves(s, t, At(s, t).l, At(s, t).all);
  }

  lemma {:induction false} LockLowers(s: State, t: Tid)
    requires var p := At(s, t); p.LockSet? || p.LockGot? || p.LockAppend? || p.UnlockTry? || p.UnlockExit?
    ensures Left(StepOf(s, t), t) < Left(s, t)
  {
  }

  lemma {:induction false} CvLowers(s: State, t: Tid)
    requires var p := At(s, t);
      p.CvSet? || p.CvDrop? || p.CvAppend? || p.SigClear? || p.SigSet? || p.Wake?
    ensures Left(StepOf(s, t), t) < Left(s, t)
  {
  }

  lemma {:induction false} StepLowers(s: State, a: Action)
    requires Can(s, a) && !Begins(a)
    ensures Left(Do(s, a), a.t) < Left(s, a.t)
  {
    if a.Step? {
      var p := At(s, a.t);
      if p.UnlockFind? || p.CvFind? {
        FindLowers(s, a.t);
      } else if p.UnlockClear? || p.CvClear? {
        ClearLowers(s, a.t);
      } else if p.SigMark? {
        MarkLowers(s, a.t);
      } else if p.LockSet? || p.LockGot? || p.LockAppend? || p.UnlockTry? || p.UnlockExit? {
        LockLowers(s, a.t);
      } else {
        CvLowers(s, a.t);
      }
    }
  }

  predicate Alone(acts: seq<Action>, j: nat, k: nat, t: Tid)
    requires j <= k <= |acts|
  {
    forall m :: j <= m < k ==> !Begins(acts[m]) && acts[m].t == t
  }

  predicate Lower(ss: seq<State>, k: nat, t: Tid)
    requires 0 < k < |ss|
  {
    Left(ss[k], t) < Left(ss[k - 1], t)
  }

  lemma {:induction false} RunLower(ss: seq<State>, acts: seq<Action>, k: nat)
    requires Run(ss, acts) && k < |acts| && !Begins(acts[k])
    ensures Lower(ss, k + 1, acts[k].t)
  {
    StepLowers(ss[k], acts[k]);
  }

  lemma {:induction false} LowerSteps(ss: seq<State>, j: nat, k: nat, t: Tid)
    requires j <= k < |ss| && forall m :: j < m <= k ==> Lower(ss, m, t)
    ensures k - j + Left(ss[k], t) <= Left(ss[j], t)
    decreases k
  {
    if j < k {
      LowerSteps(ss, j, k - 1, t);
      assert Lower(ss, k, t);
    }
  }

  ghost predicate Lowers(ss: seq<State>, acts: seq<Action>) {
    |ss| == |acts| + 1 && forall k :: 0 <= k < |acts| && !Begins(acts[k]) ==> Lower(ss, k + 1, acts[k].t)
  }

  lemma {:induction false} RunLowers(ss: seq<State>, acts: seq<Action>)
    requires Run(ss, acts)
    ensures Lowers(ss, acts)
  {
    forall k | 0 <= k < |acts| && !Begins(acts[k])
      ensures Lower(ss, k + 1, acts[k].t)
    {
      RunLower(ss, acts, k);
    }
  }

  lemma {:induction false} LeftFalls(ss: seq<State>, acts: seq<Action>, j: nat, k: nat, t: Tid)
    requires Lowers(ss, acts) && j <= k < |ss| && Alone(acts, j, k, t)
    ensures k - j <= Left(ss[j], t)
  {
    forall m | j < m <= k
      ensures Lower(ss, m, t)
    {
      assert Lower(ss, m - 1 + 1, acts[m - 1].t);
    }
    LowerSteps(ss, j, k, t);
  }

  lemma {:induction false} LeftBound(s: State, t: Tid)
    ensures Left(s, t) <= 8
  {
  }

  /** A call that no other thread disturbs ends or sleeps within eight steps. */
  lemma {:induction false} EndsAlone(ss: seq<State>, acts: seq<Action>, j: nat, k: nat, t: Tid)
    requires Run(ss, acts) && j <= k < |ss| && Alone(acts, j, k, t)
    ensures k - j <= 8
  {
    RunLowers(ss, acts);
    LeftFalls(ss, acts, j, k, t);
    LeftBound(ss[j], t);
  }
}
