/** The releasing actions of the 4-byte reader-writer lock, up to the swap that hands it over. */
module RwLockRelease {
  import opened Base
  import opened RwSpec
  import opened RwLock
  import opened RwLockInv
  import opened RwLockChain
  import opened RwLockSteps

  lemma {:induction false} StartUnlockGood(s: State, s': State, t: Tid)
    requires Inv(s) && Can(s, StartUnlock(t)) && s' == StartUnlockOf(s, t)
    ensures Kept(s, Quiet, s')
  {
    assert ThreadOk(s, t);
    assert ThreadOk(s', t);
    MovedGood(s, s', t, Unlock(At(s, t).Writing?, Leave));
  }

  // ---------- a reader that leaves others behind, or no one waiting ----------

  lemma {:induction false} ReadReleaseThreads(s: State, s': State, t: Tid, c: Cont)
    requires ThreadsOk(s) && HoldsRead(At(s, t)) && !IsKeeper(At(s, t)) && ContOf(At(s, t)) == c
    requires s.transit == None && s.count >= 1
    requires s' == To(s, t, After(c)).(count := s.count - 1, readers := s.readers - {t})
    ensures ThreadsOk(s')
  {
    assert ThreadOk(s, t);
    assert ThreadOk(s', t);
    forall u | u != t
      ensures SameFor(s, s', u) && (Anchored(At(s, u)) ==> AnchorKept(s, s', u))
    {
      assert ThreadOk(s, u);
      HoldsIs(s, t);
    }
    OthersBut(s, s', t);
  }

  lemma {:induction false} ReadReleaseCount(s: State, s': State, t: Tid)
    requires CountOk(s) && KeeperPc(s') == KeeperPc(s) && s'.keeper == s.keeper
    requires s'.unfair == s.unfair && s'.wlocked == s.wlocked && s'.count == s.count - 1
    requires t in s.readers && t !in s.waking && s'.readers == s.readers - {t}
    requires s'.writer == s.writer && s'.transit == s.transit && s'.waking == s.waking
    ensures CountOk(s')
  {
    assert s.keeper.Some? ==> GrantedBy(s', s.keeper.value) == GrantedBy(s, s.keeper.value);
  }

  lemma {:induction false} LeavesNoOne(s: State, t: Tid)
    requires Inv(s) && HoldsRead(At(s, t)) && !At(s, t).Cut? && (s.count >= 2 || s.waitq == NIL)
    ensures s.readers != {t} || s.queue == []
  {
    ReaderFacts(s, t);
    if s.count == 1 {
      SoleReader(s, t);
      EmptyChain(s);
    } else if s.readers == {t} {
      if SplitPc(KeeperPc(s)) {
        GrantedCount(s, t);
      }
      assert false;
    }
  }

  lemma {:induction false} ReadReleaseGood(s: State, s': State, t: Tid, c: Cont)
    requires Inv(s) && HoldsRead(At(s, t)) && !IsKeeper(At(s, t)) && ContOf(At(s, t)) == c
    requires s.count >= 2 || s.waitq == NIL
    requires s.count >= 1
    requires s' == To(s, t, After(c)).(count := s.count - 1, readers := s.readers - {t})
    ensures Kept(s, ReadReleased(t), s')
  {
    LeavesNoOne(s, t);
    ReaderFacts(s, t);
    KeeperPcKept(s, s', t);
    assert WakersOk(s') by { WakersKept(s, s', t); }
    assert CountOk(s') by { ReadReleaseCount(s, s', t); }
    assert ChainOk(s') by { ChainKept(s, s'); }
    ReadReleaseThreads(s, s', t, c);
  }

  // ---------- a writer with no one waiting ----------

  lemma {:induction false} WriteReleaseThreads(s: State, s': State, t: Tid)
    requires ThreadsOk(s) && HoldsWrite(At(s, t)) && !IsKeeper(At(s, t))
    requires s.queue == [] && s.transit == None && s.readers == {}
    requires forall u :: Anchored(At(s, u)) ==> u == t
    requires s' == To(s, t, After(ContOf(At(s, t)))).(wlocked := false, writer := None)
    ensures ThreadsOk(s')
  {
    assert ThreadOk(s, t);
    assert ThreadOk(s', t);
    OthersBut(s, s', t);
  }

  lemma {:induction false} WriteReleaseGood(s: State, s': State, t: Tid)
    requires Inv(s) && At(s, t).Unlock? && At(s, t).excl && s.waitq == NIL
    requires s' == To(s, t, After(At(s, t).cont)).(wlocked := false, writer := None)
    ensures Kept(s, WriteReleased(t), s')
  {
    WriterFacts(s, t);
    EmptyChain(s);
    assert ThreadOk(s, t);
    KeeperPcKept(s, s', t);
    assert WakersOk(s') by { WakersKept(s, s', t); }
    assert ChainOk(s') by { ChainKept(s, s'); }
    WriteReleaseThreads(s, s', t);
  }

  function UnlockEvent(s: State, t: Tid): Event
    requires At(s, t).Unlock?
  {
    if At(s, t).excl then
      if s.waitq == NIL then WriteReleased(t) else Quiet
    else
      if s.count == 1 && s.waitq != NIL then Quiet else ReadReleased(t)
  }

  lemma {:induction false} UnlockGood(s: State, s': State, t: Tid)
    requires Inv(s) && Can(s, DoUnlock(t)) && s' == UnlockOf(s, t)
    ensures Kept(s, UnlockEvent(s, t), s')
  {
    var p := At(s, t);
    if p.excl {
      WriterFacts(s, t);
      if s.waitq == NIL {
        WriteReleaseGood(s, s', t);
      } else {
        UnlockContended(s, s', t, if s.unfair then UnfairLook(p.cont) else Scan(true, p.cont));
      }
    } else {
      ReaderFacts(s, t);
      if s.count == 1 && s.waitq != NIL {
        SoleReader(s, t);
        UnlockContended(s, s', t, if s.unfair then TryUpgrade(p.cont) else Scan(false, p.cont));
      } else {
        ReadReleaseGood(s, s', t, p.cont);
      }
    }
  }

  lemma {:induction false} UnlockContended(s: State, s': State, t: Tid, p': Pc)
    requires Inv(s) && At(s, t).Unlock? && s.waitq != NIL && s' == To(s, t, p')
    requires !At(s, t).excl ==> s.readers == {t}
    requires p' == if At(s, t).excl
               then (if s.unfair then UnfairLook(At(s, t).cont) else Scan(true, At(s, t).cont))
               else (if s.unfair then TryUpgrade(At(s, t).cont) else Scan(false, At(s, t).cont))
    ensures Kept(s, Quiet, s')
  {
    PhysEmpty(s);
    assert ThreadOk(s, t);
    assert ThreadOk(s', t);
    MovedGood(s, s', t, p');
  }

  // ---------- the last reader of an unfair lock ----------

  lemma {:induction false} DrainThreads(s: State, s': State, t: Tid, c: Cont)
    requires ThreadsOk(s) && At(s, t) == TryUpgrade(c) && s.readers == {t}
    requires s.writer == None && s.transit == None && !OldestIs(s.queue, Shared)
    requires forall u :: Anchored(At(s, u)) ==> u == t
    requires s' == To(s, t, Scan(true, c)).(count := 0, wlocked := true, readers := s.readers - {t},
                                            transit := Some(t))
    ensures ThreadsOk(s')
  {
    assert ThreadOk(s, t);
    assert ThreadOk(s', t);
    OthersBut(s, s', t);
  }

  lemma {:induction false} DrainGood(s: State, s': State, t: Tid, c: Cont)
    requires Inv(s) && At(s, t) == TryUpgrade(c) && s.count == 1
    requires s' == To(s, t, Scan(true, c)).(count := 0, wlocked := true, readers := s.readers - {t},
                                            transit := Some(t))
    ensures Kept(s, Drained(t), s')
  {
    ReaderFacts(s, t);
    SoleReader(s, t);
    assert s.unfair && s.phys != [] by { assert ThreadOk(s, t); }
    assert s'.readers == {};
    assert WakersOk(s') by { WakersKept(s, s', t); }
    assert ChainOk(s') by { ChainKept(s, s'); }
    DrainThreads(s, s', t, c);
  }

  function TryUpgradeEvent(s: State, t: Tid): Event {
    if s.count == 1 then Drained(t) else ReadReleased(t)
  }

  lemma {:induction false} TryUpgradeGood(s: State, s': State, t: Tid)
    requires Inv(s) && Can(s, DoTryUpgrade(t)) && s' == TryUpgradeOf(s, t)
    ensures Kept(s, TryUpgradeEvent(s, t), s')
  {
    var c := At(s, t).cont;
    ReaderFacts(s, t);
    if s.count == 1 {
      DrainGood(s, s', t, c);
    } else {
      ReadReleaseGood(s, s', t, c);
    }
  }

  // ---------- the scan for whom to wake ----------

  /** A walk of the only holder reads the queue. */
  lemma {:induction false} WalkReadsQueue(s: State, q: seq<Req>)
    requires ChainOk(s) && s.queue == s.phys && Reads(s, q)
    ensures q == s.queue
  {
    SpellsUnique(s, s.waitq, q, s.phys);
  }

  lemma {:induction false} ScanFacts(s: State, t: Tid)
    requires Inv(s) && At(s, t).Scan?
    ensures s.keeper == None && s.queue == s.phys && s.phys != []
    ensures forall u :: Anchored(At(s, u)) ==> u == t
    ensures if At(s, t).excl then s.count == 0 && s.wlocked else s.count == 1 && !s.wlocked
  {
    assert ThreadOk(s, t);
    if At(s, t).excl {
      WriterFacts(s, t);
    } else {
      ReaderFacts(s, t);
      if SplitPc(KeeperPc(s)) {
        assert false;
      }
      SoleReader(s, t);
    }
  }

  lemma {:induction false} ScanThreads(s: State, s': State, t: Tid, p': Pc, k: nat)
    requires ThreadsOk(s) && At(s, t).Scan? && s.queue == s.phys && k <= |s.queue|
    requires s.keeper == None && forall u :: Anchored(At(s, u)) ==> u == t
    requires p'.Cut? && p'.excl == At(s, t).excl && p'.cont == At(s, t).cont
    requires s' == To(s, t, p').(keeper := Some(t), next := s'.next, phys := s'.phys)
    requires s'.next == if k == 0 then s.next else s.next[s.queue[k - 1].t := NIL]
    ensures ThreadsOk(s')
  {
    assert ThreadOk(s, t);
    if k > 0 {
      assert s.queue[k - 1].t in Threads(s.queue);
    }
    assert ThreadOk(s', t);
    OthersBut(s, s', t);
  }

  lemma {:induction false} CutGood(s: State, s': State, t: Tid, k: nat)
    requires Inv(s) && At(s, t).Scan? && s.queue == s.phys && s.phys != [] && s.keeper == None
    requires forall u :: Anchored(At(s, u)) ==> u == t
    requires k == |s.queue| - FairServed(s.queue)
    requires s' == To(s, t, Cut(At(s, t).excl, At(s, t).cont, s.count, s.waitq, s.queue[k..], k == 0))
                     .(keeper := Some(t),
                       next := if k == 0 then s.next else s.next[s.queue[k - 1].t := NIL],
                       phys := if k == 0 then s.phys else s.queue[..k])
    ensures Kept(s, Quiet, s')
  {
    assert WakersOk(s') by { WakersKept(s, s', t); }
    assert ChainOk(s') by { CutChain(s, s', t, k); }
    ScanThreads(s, s', t, At(s', t), k);
  }

  lemma {:induction false} ScanGood(s: State, s': State, t: Tid, q: seq<Req>)
    requires Inv(s) && Can(s, DoScan(t, q)) && s' == ScanOf(s, t, q)
    ensures Kept(s, Quiet, s')
  {
    ScanFacts(s, t);
    WalkReadsQueue(s, q);
    CutGood(s, s', t, |q| - FairServed(q));
  }

  lemma {:induction false} UnfairLookGood(s: State, s': State, t: Tid, q: seq<Req>)
    requires Inv(s) && Can(s, DoUnfairLook(t, q)) && s' == UnfairLookOf(s, t, q)
    ensures Kept(s, Quiet, s')
  {
    assert ThreadOk(s, t);
    WriterFacts(s, t);
    WalkReadsQueue(s, q);
    assert ThreadOk(s', t);
    MovedGood(s, s', t, At(s', t));
  }
}
