/**
 * What is left of a 2-byte mutex when no call on it can take a step: sleeping waiters, and a caller that
 * has the mutex and has not given it back.
 */
module Mutex2bRest {
  import opened Base
  import opened Mutex2b
  import opened Mutex2bRuns
  import opened Mutex2bCalls

  predicate On(p: Pc, m: Mid) {
    !p.Idle? && !p.Fault? && p.m == m
  }

  /** No thread inside a call on `m` can take a step. */
  ghost predicate Still(s: State, m: Mid) {
    forall a :: !Begins(a) && !a.TryLock? && On(At(s, a.t), m) ==> !Can(s, a)
  }

  lemma {:induction false} StillThread(s: State, m: Mid, t: Tid)
    requires Still(s, m) && On(At(s, t), m)
    ensures At(s, t) == Blocked(m) && t !in s.signalled
  {
    assert !Can(s, SetNext(t)) && !Can(s, SwapLock(t)) && !Can(s, Resume(t)) && !Can(s, ReadWord(t));
    assert !Can(s, StepWalk(t)) && !Can(s, SwapUnlock(t)) && !Can(s, ClearNext(t)) && !Can(s, Signal(t));
  }

  lemma {:induction false} SleeperInLine(s: State, m: Mid, t: Tid)
    requires Inv(s) && Still(s, m) && At(s, t) == Blocked(m)
    ensures t in Line(s, m) && Line(s, m)[0] != t
  {
    InvAt(s, t, m);
    StillThread(s, m, t);
    if Owns(s, t, m) {
      StillThread(s, m, s.waker[m]);
    }
  }

  lemma {:induction false} OwnerRests(s: State, m: Mid)
    requires Inv(s) && Still(s, m) && Line(s, m) != []
    ensures (Line(s, m)[0], m) in s.has
  {
    var u := Line(s, m)[0];
    InvAt(s, u, m);
    if (u, m) !in s.has {
      StillThread(s, m, u);
      SleeperInLine(s, m, u);
    }
  }

  /**
   * No wake-up is lost, and no call waits for another call on the same mutex: when none can take a step,
   * every thread inside a call is asleep and in line behind an owner that has the mutex and is not inside
   * a call on it.
   */
  lemma {:induction false} StillOnlyWhileHeld(ss: seq<State>, acts: seq<Action>, k: nat, t: Tid, m: Mid)
    requires Run(ss, acts) && k < |ss| && Still(ss[k], m) && On(At(ss[k], t), m)
    ensures var s := ss[k];
      && At(s, t) == Blocked(m) && t in Line(s, m)
      && Line(s, m)[0] != t && (Line(s, m)[0], m) in s.has
  {
    RunInv(ss, acts, k);
    StillThread(ss[k], m, t);
    SleeperInLine(ss[k], m, t);
    OwnerRests(ss[k], m);
  }
}
