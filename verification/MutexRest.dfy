/**
 * What is left when no call of the 4-byte mutex can take a step: sleeping waiters, and a caller that has
 * the mutex and has not given it back.
 */
module MutexRest {
  import opened Base
  import opened Mutex
  import opened MutexRuns
  import opened MutexCalls

  predicate Inner(a: Action) {
    !Begins(a) && !a.TryLock?
  }

  ghost predicate Still(s: State) {
    forall a :: Inner(a) ==> !Can(s, a)
  }

  lemma {:induction false} StillThread(s: State, t: Tid)
    requires ThreadOk(s, t) && Still(s)
    ensures At(s, t).Idle? || At(s, t).Owning? || (At(s, t).Blocked? && t !in s.signalled)
  {
    assert !Can(s, Resume(t)) && !Can(s, ReadWord(t)) && !Can(s, StepWalk(t)) && !Can(s, DoSwap(t));
    assert !Can(s, DoUnlink(t)) && !Can(s, Signal(t));
  }

  lemma {:induction false} OwnerFits(ss: seq<State>, acts: seq<Action>, k: nat)
    requires Run(ss, acts) && k < |ss|
    ensures ss[k].owner <= NIL
  {
    if k > 0 {
      OwnerFits(ss, acts, k - 1);
      RunInv(ss, acts, k - 1);
      OwnerFitsStep(ss[k - 1], acts[k - 1], ss[k]);
    }
  }

  lemma {:induction false} OwnerFitsStep(s: State, a: Action, s': State)
    requires Inv(s) && Can(s, a) && s' == Do(s, a) && s.owner <= NIL
    ensures s'.owner <= NIL
  {
    assert ThreadOk(s, a.t);
    if a.DoSwap? && s.line != [] {
      LineAt(s, 0);
    }
  }

  lemma {:induction false} OwnerRests(s: State)
    requires Inv(s) && Still(s) && s.owner < NIL
    ensures At(s, s.owner).Owning?
  {
    assert ThreadOk(s, s.owner);
    StillThread(s, s.owner);
    if At(s, s.owner).Blocked? {
      assert ThreadOk(s, s.giver.value);
      StillThread(s, s.giver.value);
    }
  }

  /**
   * No wake-up is lost, and no call waits for another call: when no call can take a step, every thread
   * inside a call is asleep and in line, and the owner is at rest with the mutex.
   */
  lemma {:induction false} StillOnlyWhileHeld(ss: seq<State>, acts: seq<Action>, k: nat, t: Tid)
    requires Run(ss, acts) && k < |ss| && Still(ss[k]) && !At(ss[k], t).Idle? && !At(ss[k], t).Owning?
    ensures var s := ss[k];
      At(s, t).Blocked? && t in s.line && At(s, s.owner).Owning? && s.owner != t
  {
    var s := ss[k];
    RunInv(ss, acts, k);
    OwnerFits(ss, acts, k);
    assert ThreadOk(s, t);
    StillThread(s, t);
    if s.owner < NIL {
      OwnerRests(s);
    }
  }
}
