/**
 * What is left of the pins when no call can take a step: removals that wait for pins which their holders
 * have not given back.
 */
module AtomicPinsRest {
  import opened Base
  import opened AtomicPins
  import opened AtomicPinsRuns

  /** A step inside a call, not the start of one. */
  predicate Inner(a: Action) {
    a.ForcePin? || a.Defer? || a.Leave? || a.Step?
  }

  ghost predicate Still(s: State) {
    forall a :: Inner(a) ==> !Can(s, a)
  }

  lemma {:induction false} NooneWalks(s: State, t: Tid)
    requires Still(s)
    ensures !At(s, t).Walking?
  {
    assert !Can(s, Leave(t));
  }

  lemma {:induction false} StillThread(s: State, t: Tid)
    requires Still(s) && !At(s, t).Fault?
    ensures At(s, t).Idle? || ((At(s, t).Waiting? || At(s, t).Deferred?) && t !in s.woken)
  {
    forall u
      ensures !At(s, u).Walking?
    {
      NooneWalks(s, u);
    }
    assert !Can(s, Step(t));
  }

  /** An iterator waits only as long as the removal is under way, and that does not wait then. */
  lemma {:induction false} NotDeferred(s: State, t: Tid)
    requires Inv(s) && Still(s)
    ensures !At(s, t).Deferred?
  {
    if At(s, t).Deferred? {
      var e := At(s, t).e;
      InvAt(s, t, t, e);
      StillThread(s, t);
      InvAt(s, s.remover[e], t, e);
      StillThread(s, s.remover[e]);
    }
  }

  /**
   * No wake-up is lost: when no call can take a step, every thread inside a call is a remover that waits
   * for an element on which someone has a pin, and the wait id names it; no iterator is left waiting.
   */
  lemma {:induction false} StillOnlyWhilePinned(ss: seq<State>, acts: seq<Action>, k: nat, t: Tid) returns (u: Tid)
    requires Run(ss, acts) && k < |ss| && Still(ss[k]) && !At(ss[k], t).Idle?
    ensures var s, p := ss[k], At(ss[k], t);
      p.Waiting? && u in Holds(s, p.e) && RefOf(s, p.e).wait == Some(t)
  {
    var s := ss[k];
    RunInv(ss, acts, k);
    InvAt(s, t, t, 0);
    StillThread(s, t);
    NotDeferred(s, t);
    InvAt(s, t, t, At(s, t).e);
    u :| u in Holds(s, At(s, t).e);
  }
}
