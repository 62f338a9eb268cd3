/**
 * What is left when no call of the 4-byte reader-writer lock can take a step: sleeping waiters, and a
 * caller that has the lock and has not given it back.
 */
module RwLockRest {
  import opened Base
  import opened RwSpec
  import opened RwLock
  import opened RwLockInv
  import opened RwLockCalls
  import RwLockRelease
  import RwLockRuns
  import RwLockSteps

  ghost predicate Still(s: State) {
    forall a :: !Begins(a) ==> !Can(s, a)
  }

  predicate Rests(p: Pc) {
    p.Idle? || p.Reading? || p.Writing?
  }

  predicate Looks(p: Pc) {
    p.Scan? || p.UnfairLook? || p.UnfairDown?
  }

  /** Whoever is inside a call has a step, unless it sleeps. */
  lemma {:induction false} OwnStep(s: State, t: Tid) returns (a: Action)
    requires var p := At(s, t); !Rests(p) && !p.Fault? && (p.Asleep? ==> t in s.signalled)
    requires Looks(At(s, t)) ==> Reads(s, s.queue)
    ensures !Begins(a) && Can(s, a)
  {
    match At(s, t)
    case Asleep(_) => a := Resume(t);
    case Unlock(_, _) => a := DoUnlock(t);
    case Scan(_, _) => a := DoScan(t, s.queue);
    case Cut(_, _, _, _, _, _) => a := SwapCut(t);
    case TryUpgrade(_) => a := DoTryUpgrade(t);
    case UnfairLook(_) => a := DoUnfairLook(t, s.queue);
    case UnfairDown(_) => a := DoUnfairDown(t, s.queue);
    case Split(_, _) => a := DoSplit(t);
    case Reinsert(_, _, _) => a := DoReinsert(t);
    case ReinsertWalk(_, _, _, _, _, _) => a := StepReinsert(t);
    case ReinsertLink(_, _, _, _, _, _) => a := LinkReinsert(t);
    case ReinsertSwap(_, _, _, _, _, _) => a := SwapReinsert(t);
    case UpStart => a := BeginUpWalk(t);
    case UpWalk(_) => a := StepUpWalk(t);
    case UpLink(_) => a := LinkUpgrade(t);
    case DownWalk(_) => a := StepDownWalk(t);
    case Wake(_) =>
      if t in s.waking.Values {
        var x :| x in s.waking && s.waking[x] == t;
        a := Signal(t, x);
      } else {
        a := WakeDone(t);
      }
  }

  lemma {:induction false} CanLook(s: State, t: Tid)
    requires Inv(s) && Looks(At(s, t))
    ensures Reads(s, s.queue)
  {
    assert ThreadOk(s, t);
    if At(s, t).Scan? {
      RwLockRelease.ScanFacts(s, t);
    } else {
      RwLockSteps.WriterFacts(s, t);
    }
  }

  lemma {:induction false} StillThread(s: State, t: Tid)
    requires Inv(s) && Still(s)
    ensures Rests(At(s, t)) || (At(s, t).Asleep? && t !in s.signalled)
  {
    NoFault(s, t);
    if !Rests(At(s, t)) && !(At(s, t).Asleep? && t !in s.signalled) {
      if Looks(At(s, t)) {
        CanLook(s, t);
      }
      var a := OwnStep(s, t);
    }
  }

  lemma {:induction false} NoFault(s: State, t: Tid)
    requires ThreadsOk(s)
    ensures !At(s, t).Fault?
  {
    assert ThreadOk(s, t);
  }

  lemma {:induction false} NooneWaking(s: State, x: Tid)
    requires Inv(s) && Still(s)
    ensures x !in s.waking
  {
    if x in s.waking {
      StillThread(s, s.waking[x]);
    }
  }

  lemma {:induction false} SleeperQueued(s: State, t: Tid)
    requires Inv(s) && Still(s) && At(s, t).Asleep?
    ensures Req(t, At(s, t).mode) in s.queue
  {
    StillThread(s, t);
    NooneWaking(s, t);
    assert ThreadOk(s, t);
  }

  /** A queue has someone to wait for. */
  lemma {:induction false} HeldOrTransit(s: State)
    requires Sound(LockOf(s)) && s.queue != []
    ensures s.readers != {} || s.writer.Some? || s.transit.Some?
  {
  }

  lemma {:induction false} NoTransit(s: State)
    requires Inv(s) && Still(s)
    ensures s.transit == None
  {
    if s.transit.Some? {
      assert ThreadOk(s, s.transit.value);
      StillThread(s, s.transit.value);
    }
  }

  lemma {:induction false} HolderRests(s: State, u: Tid)
    requires Inv(s) && Still(s) && (u in s.readers || s.writer == Some(u))
    ensures At(s, u).Reading? || At(s, u).Writing?
  {
    StillThread(s, u);
    NooneWaking(s, u);
    assert ThreadOk(s, u);
  }

  /**
   * No wake-up is lost, and no call waits for another call: when no call can take a step, every thread
   * inside a call is asleep and in the queue, and someone has the lock and is at rest with it.
   */
  lemma {:induction false} StillOnlyWhileHeld(ss: seq<State>, acts: seq<Action>, k: nat, t: Tid) returns (u: Tid)
    requires RwLock.Run(ss, acts) && k < |ss| && Still(ss[k]) && !Rests(At(ss[k], t))
    ensures var s := ss[k];
      && At(s, t).Asleep? && Req(t, At(s, t).mode) in s.queue
      && (At(s, u).Reading? || At(s, u).Writing?)
  {
    var s := ss[k];
    RwLockRuns.RunInv(ss, acts, k);
    StillThread(s, t);
    SleeperQueued(s, t);
    HeldOrTransit(s);
    NoTransit(s);
    if s.writer.Some? {
      u := s.writer.value;
    } else {
      u :| u in s.readers;
    }
    HolderRests(s, u);
  }
}
