/**
 * What the source asserts of the 4-byte reader-writer lock beyond the checks that lead to a fault in
 * the transition system: each holds, at its place, in every run.
 */
module RwLockChecks {
  import opened Base
  import opened RwSpec
  import opened RwLock
  import opened RwLockInv
  import opened RwLockChain
  import opened RwLockSteps
  import RwLockRuns

  /** The word, where a thread that holds the lock looks at it. */
  predicate WordChecks(s: State, p: Pc) {
    && (HoldsRead(p) ==> s.count > 0 && !s.wlocked)
    && (HoldsWrite(p) ==> s.count == 0 && s.wlocked)
    && (p.TryUpgrade? || p.UnfairLook? || p.UnfairDown? ==> s.unfair)
    && (p.Scan? && !p.excl ==> !s.unfair)
    && (p.Scan? || p.TryUpgrade? || p.UnfairLook? || p.UnfairDown? || p.UpStart? ==> s.waitq != NIL)
    && (p.Scan? && s.unfair ==> !OldestIs(s.queue, Shared))
  }

  /** The list an unfair release has taken off the lock, and who comes to wait meanwhile. */
  predicate SplitChecks(s: State, p: Pc) {
    && (p.Split? ==> OnlyShared(p.all) != [] && forall i :: 0 <= i < |p.all| ==> p.all[i].mode != Upgrade)
    && (p.ReinsertWalk? ==>
          && Tag(s, p.cur) != Shared
          && (Next(s, p.cur) != NIL ==> Tag(s, Next(s, p.cur)) != Shared))
    && (p.ReinsertLink? ==> Tag(s, p.cur) == Exclusive)
  }

  /** A thread that has been woken has what it asked for. */
  predicate WokenChecks(s: State, t: Tid, p: Pc) {
    p.Asleep? && t in s.signalled ==>
      && Tag(s, t) == p.mode
      && if p.mode == Shared then s.count > 0 && !s.wlocked else s.count == 0 && s.wlocked
  }

  lemma {:induction false} WordChecksHold(s: State, t: Tid)
    requires Inv(s)
    ensures WordChecks(s, At(s, t))
  {
    assert ThreadOk(s, t);
    PhysEmpty(s);
    if HoldsRead(At(s, t)) {
      ReaderFacts(s, t);
    } else if HoldsWrite(At(s, t)) {
      WriterFacts(s, t);
    }
  }

  lemma {:induction false} WokenChecksHold(s: State, t: Tid)
    requires Inv(s)
    ensures WokenChecks(s, t, At(s, t))
  {
    assert ThreadOk(s, t);
    if At(s, t).Asleep? && t in s.signalled {
      if At(s, t).mode == Shared {
        if SplitPc(KeeperPc(s)) {
          GrantedCount(s, t);
        }
        assert |s.readers| > 0;
      } else {
        NoReaders(s);
      }
    }
  }

  /** A newcomer's tag is what the queue says it asked for. */
  lemma {:induction false} NewcomerTag(s: State, i: nat)
    requires ChainOk(s) && Reinserting(KeeperPc(s)) && i < |s.phys|
    ensures Tag(s, s.phys[i].t) == s.phys[i].mode
    ensures Next(s, s.phys[i].t) == if i + 1 < |s.phys| then s.phys[i + 1].t else NIL
  {
    assert LinkOk(s, s.phys, i, NIL);
  }

  lemma {:induction false} InWeave(p: seq<Req>, w: seq<Req>, i: nat) returns (j: nat)
    requires i < |p|
    ensures j < |Weave(p, w)| && Weave(p, w)[j] == p[i]
    ensures UpTail(p) && i < |p| - 1 ==> j < |Weave(p, w)| - 1
  {
    j := if UpTail(p) && i == |p| - 1 then i + |w| else i;
  }

  /** Whoever comes to wait during the release is no reader; and but for the oldest, no upgrade. */
  lemma {:induction false} NewcomerMode(s: State, i: nat)
    requires ChainOk(s) && Reinserting(KeeperPc(s)) && i < |s.phys| && Sound(LockOf(s))
    requires s.unfair && s.readers != {}
    ensures s.phys[i].mode != Shared
    ensures UpTail(s.phys) && i < |s.phys| - 1 ==> s.phys[i].mode != Upgrade
  {
    var j := InWeave(s.phys, KeeperPc(s).back, i);
    assert s.queue[j] == s.phys[i];
  }

  lemma {:induction false} ReinsertChecks(s: State)
    requires ChainOk(s) && (KeeperPc(s).ReinsertWalk? || KeeperPc(s).ReinsertLink?) && Sound(LockOf(s))
    requires s.unfair && s.readers != {}
    ensures SplitChecks(s, KeeperPc(s))
  {
    var p := KeeperPc(s);
    if p.ReinsertWalk? {
      var i := ThreadAt(s.phys, p.cur);
      NewcomerTag(s, i);
      NewcomerMode(s, i);
      if i + 1 < |s.phys| {
        NewcomerTag(s, i + 1);
        NewcomerMode(s, i + 1);
      }
    } else {
      var i := if UpTail(s.phys) then |s.phys| - 2 else |s.phys| - 1;
      NewcomerTag(s, i);
      NewcomerMode(s, i);
    }
  }

  lemma {:induction false} SplitChecksHold(s: State, t: Tid)
    requires Inv(s)
    ensures SplitChecks(s, At(s, t))
  {
    assert ThreadOk(s, t);
    var p := At(s, t);
    if p.ReinsertWalk? || p.ReinsertLink? {
      ReinsertChecks(s);
    }
  }

  /** Over every run: what the source asserts of the word, of the lists and of a woken thread. */
  lemma {:induction false} ChecksHold(ss: seq<State>, acts: seq<Action>, k: nat, t: Tid)
    requires RwLock.Run(ss, acts) && k < |ss|
    ensures var s, p := ss[k], At(ss[k], t);
      && WordChecks(s, p) && SplitChecks(s, p) && WokenChecks(s, t, p)
      && (p.Idle? || p.Reading? || p.Writing? ==> Next(s, t) == NIL)
  {
    RwLockRuns.RunInv(ss, acts, k);
    assert ThreadOk(ss[k], t);
    WordChecksHold(ss[k], t);
    SplitChecksHold(ss[k], t);
    WokenChecksHold(ss[k], t);
  }
}
