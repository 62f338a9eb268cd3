/**
 * What is left of a bitlock mutex when no call on it can take a step: sleeping waiters, and a caller that
 * has the lock and has not given it back.
 */
module BitlockRest {
  import opened Base
  import opened Bitlock
  import opened BitlockRuns
  import opened BitlockCalls

  /** No one uses the wait list, and no thread inside a call on `l` can take a step. */
  ghost predicate Still(s: State, l: Lid) {
    s.listHolder == None && forall a :: !Begins(a) && PcOn(At(s, a.t), l) != Idle ==> !Can(s, a)
  }

  lemma {:induction false} StillThread(s: State, l: Lid, t: Tid)
    requires ThreadOk(s, t) && Still(s, l) && PcOn(At(s, t), l) != Idle
    ensures At(s, t) == Blocked(l) && t !in s.signalled
  {
    var p := At(s, t);
    assert !Can(s, Step(t)) && !Can(s, TakeList(t)) && !Can(s, Resume(t));
  }

  lemma {:induction false} SleeperListed(s: State, l: Lid, t: Tid)
    requires Inv(s) && Still(s, l) && At(s, t) == Blocked(l)
    ensures !Holds(s, t, l) && (exists i :: 0 <= i < |s.list| && s.list[i].t == t && s.list[i].l == l)
  {
    InvAt(s, t, l);
    StillThread(s, l, t);
    if Holds(s, t, l) {
      InvAt(s, s.giver[l], l);
      StillThread(s, l, s.giver[l]);
    }
  }

  lemma {:induction false} HolderRests(s: State, l: Lid)
    requires Inv(s) && Still(s, l) && l in s.holder
    ensures (s.holder[l], l) in s.has
  {
    var u := s.holder[l];
    InvAt(s, u, l);
    if (u, l) !in s.has {
      StillThread(s, l, u);
      SleeperListed(s, l, u);
    }
  }

  /**
   * No wake-up is lost, and no call waits for another call: when the wait list is free and no call on the
   * lock can take a step, every thread inside a call on it is asleep and in the list, either for the
   * condition, or for the lock, and then someone has the lock and is not inside a call on it.
   */
  lemma {:induction false} StillOnlyWhileHeld(ss: seq<State>, acts: seq<Action>, k: nat, t: Tid, l: Lid) returns (i: nat)
    requires Run(ss, acts) && k < |ss| && Still(ss[k], l) && PcOn(At(ss[k], t), l) != Idle
    ensures var s := ss[k];
      && At(s, t) == Blocked(l) && i < |s.list| && s.list[i].t == t
      && (s.list[i] == Entry(t, l, Cv)
          || (s.list[i] == Entry(t, l, Wait) && l in s.holder && (s.holder[l], l) in s.has))
  {
    var s := ss[k];
    RunInv(ss, acts, k);
    InvAt(s, t, l);
    StillThread(s, l, t);
    SleeperListed(s, l, t);
    i :| 0 <= i < |s.list| && s.list[i].t == t && s.list[i].l == l;
    if s.list[i].kind == Wait {
      assert IsFor(s.list[i], l, Wait);
      assert Waits(s.list, l, Wait);
      HolderRests(s, l);
    }
  }
}
