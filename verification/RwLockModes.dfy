/** Waking, upgrading and downgrading on the 4-byte reader-writer lock. */
module RwLockModes {
  import opened Base
  import opened RwSpec
  import opened RwLock
  import opened RwLockInv
  import opened RwLockChain
  import opened RwLockSteps

  // ---------- waking ----------

  lemma {:induction false} SignalledOk(s: State, s': State, x: Tid)
    requires ThreadOk(s, x) && x in s.waking && s' == SignalOf(s, x)
    ensures ThreadOk(s', x)
  {
  }

  lemma {:induction false} SignalOther(s: State, s': State, x: Tid, u: Tid)
    requires u != x && s' == s.(waking := s.waking - {x}, signalled := s.signalled + {x}, next := s'.next)
    requires Next(s', u) == Next(s, u)
    ensures SameFor(s, s', u)
  {
    assert At(s', u) == At(s, u) && Tag(s', u) == Tag(s, u);
    assert s'.queue == s.queue;
  }

  lemma {:induction false} SignalThreads(s: State, s': State, x: Tid)
    requires ThreadsOk(s) && x in s.waking && s' == SignalOf(s, x)
    ensures ThreadsOk(s')
  {
    assert ThreadOk(s, x);
    SignalledOk(s, s', x);
    forall u | u != x
      ensures SameFor(s, s', u) && AnchorKept(s, s', u)
    {
      SignalOther(s, s', x, u);
      assert s'.phys == s.phys && s'.queue == s.queue;
    }
    OthersBut(s, s', x);
  }

  lemma {:induction false} SignalGranted(s: State, s': State, t: Tid, x: Tid)
    requires ThreadsOk(s) && At(s, t).Wake? && x in s.waking && s.waking[x] == t && s' == SignalOf(s, x)
    ensures s.keeper.Some? && SplitPc(KeeperPc(s)) ==>
              GrantedBy(s', s.keeper.value) == GrantedBy(s, s.keeper.value)
    ensures x !in Threads(s.queue) && (s.keeper.Some? ==> x !in GrantedBy(s, s.keeper.value))
  {
    assert ThreadOk(s, t);
    WakingApart(s);
  }

  lemma {:induction false} SignalChain(s: State, s': State, x: Tid)
    requires ChainOk(s) && x !in Threads(s.queue) && s' == SignalOf(s, x)
    requires s.keeper.Some? ==> x !in GrantedBy(s, s.keeper.value)
    requires s.keeper.Some? && SplitPc(KeeperPc(s)) ==>
              GrantedBy(s', s.keeper.value) == GrantedBy(s, s.keeper.value)
    ensures ChainOk(s')
  {
    if s.keeper == None {
      PrivateThreads(s);
      SpellsElsewhere(s, s', s.waitq, s.phys, NIL);
    } else {
      ChainKept(s, s');
    }
  }

  lemma {:induction false} SignalGood(s: State, s': State, t: Tid, x: Tid)
    requires Inv(s) && Can(s, Signal(t, x)) && s' == SignalOf(s, x)
    ensures Kept(s, Quiet, s')
  {
    SignalGranted(s, s', t, x);
    CountKept(s, s');
    SignalChain(s, s', x);
    SignalThreads(s, s', x);
  }

  lemma {:induction false} AwakeOk(s: State, s': State, t: Tid)
    requires ThreadOk(s, t) && At(s, t).Wake? && s' == To(s, t, After(At(s, t).cont))
    ensures ThreadOk(s', t)
  {
  }

  lemma {:induction false} WakeDoneGood(s: State, s': State, t: Tid)
    requires Inv(s) && Can(s, WakeDone(t)) && s' == To(s, t, After(At(s, t).cont))
    ensures Kept(s, Quiet, s')
  {
    assert ThreadOk(s, t);
    AwakeOk(s, s', t);
    KeeperPcKept(s, s', t);
    assert CountOk(s') by { CountKept(s, s'); }
    assert ChainOk(s') by { ChainKept(s, s'); }
    MovedThreads(s, s', t, After(At(s, t).cont));
  }

  // ---------- upgrade ----------

  lemma {:induction false} UpStartGood(s: State, s': State, t: Tid)
    requires Inv(s) && At(s, t).Reading? && s.waitq != NIL
    requires s' == To(s, t, UpStart).(tag := s.tag[t := Upgrade])
    ensures Kept(s, Quiet, s')
  {
    assert t !in Linked(s) by {
      assert ThreadOk(s, t);
      Free(s, t);
    }
    KeeperPcKept(s, s', t);
    assert WakersOk(s') by { WakersKept(s, s', t); }
    assert CountOk(s') by { CountKept(s, s'); }
    assert ChainOk(s') by { ChainKept(s, s'); }
    PhysEmpty(s);
    PrivateThreads(s);
    UpStartThreads(s, s', t);
  }

  lemma {:induction false} UpStartThreads(s: State, s': State, t: Tid)
    requires ThreadsOk(s) && At(s, t).Reading? && s.phys != [] && Threads(s.phys) <= Threads(s.queue)
    requires s' == To(s, t, UpStart).(tag := s.tag[t := Upgrade])
    ensures ThreadsOk(s')
  {
    assert ThreadOk(s, t);
    Free(s, t);
    assert ThreadOk(s', t);
    forall u | u != t && Anchored(At(s, u))
      ensures AnchorKept(s, s', u)
    {
      assert ThreadOk(s, u);
    }
    OthersBut(s, s', t);
  }

  lemma {:induction false} UpgradedThreads(s: State, s': State, t: Tid)
    requires ThreadsOk(s) && At(s, t).Reading? && s.readers == {t} && s.writer == None && s.transit == None
    requires forall u :: Anchored(At(s, u)) ==> u == t
    requires s' == To(s, t, Writing)
                     .(wlocked := true, count := 0, readers := s.readers - {t}, writer := Some(t))
    ensures ThreadsOk(s')
  {
    assert ThreadOk(s, t);
    assert ThreadOk(s', t);
    OthersBut(s, s', t);
  }

  lemma {:induction false} UpgradedGood(s: State, s': State, t: Tid)
    requires Inv(s) && At(s, t).Reading? && s.waitq == NIL && s.count == 1
    requires s' == To(s, t, Writing)
                     .(wlocked := true, count := 0, readers := s.readers - {t}, writer := Some(t))
    ensures Kept(s, Upgraded(t), s')
  {
    ReaderFacts(s, t);
    SoleReader(s, t);
    EmptyChain(s);
    assert s'.readers == {};
    assert WakersOk(s') by { WakersKept(s, s', t); }
    assert ChainOk(s') by { ChainKept(s, s'); }
    UpgradedThreads(s, s', t);
  }

  /** While someone reads, the queue has an upgrade exactly when the chain on the lock has it. */
  lemma {:induction false} UpTailIs(s: State)
    requires KeeperOk(s) && !KeeperPc(s).Cut?
    ensures OldestIs(s.queue, Upgrade) <==> UpTail(s.phys)
  {
    var p := KeeperPc(s);
    if p.Split? {
      NotSharedFacts(p.all);
      WeaveTail(s.phys, NotShared(p.all));
    } else if Reinserting(p) {
      WeaveTail(s.phys, p.back);
    }
  }

  lemma {:induction false} WeaveTail(p: seq<Req>, w: seq<Req>)
    requires forall i :: 0 <= i < |w| ==> w[i].mode != Upgrade
    ensures OldestIs(Weave(p, w), Upgrade) <==> UpTail(p)
  {
  }

  /** The others when an upgrade `t` joins at the old end of the queue. */
  lemma {:induction false} JoinOther(s: State, s': State, t: Tid, u: Tid)
    requires ThreadOk(s, u) && u != t && t !in Threads(s.queue) && t !in Threads(s.phys)
    requires Threads(s.phys) <= Threads(s.queue)
    requires t in s.readers && (s'.readers == s.readers || s'.readers == s.readers - {t})
    requires s'.queue == s.queue + [Req(t, Upgrade)] && s'.phys == s.phys + [Req(t, Upgrade)]
    requires !OldestIs(s.queue, Shared) && s'.unfair == s.unfair
    requires At(s', u) == At(s, u)
    requires s'.writer == s.writer && s'.transit == s.transit && s'.keeper == s.keeper
    requires s'.waking == s.waking && s'.signalled == s.signalled
    requires forall x :: x !in Threads(s.queue) ==> Next(s', x) == Next(s, x)
    requires forall x :: x != t ==> Tag(s', x) == Tag(s, x)
    ensures SameFor(s, s', u)
    ensures Anchored(At(s, u)) ==> AnchorKept(s, s', u)
  {
    Joined(s.queue, Req(t, Upgrade));
    Joined(s.phys, Req(t, Upgrade));
  }

  lemma {:induction false} UpgradeAsleepOk(s: State, s': State, t: Tid)
    requires ThreadOk(s, t) && At(s, t).Reading? && s.transit == None && s.count >= 1
    requires s' == To(s, t, Asleep(Upgrade))
        .(tag := s.tag[t := Upgrade], waitq := t, count := s.count - 1,
          readers := s.readers - {t},
          queue := s.queue + [Req(t, Upgrade)], phys := [Req(t, Upgrade)])
    ensures ThreadOk(s', t)
  {
    Free(s, t);
    Joined(s.queue, Req(t, Upgrade));
  }

  lemma {:induction false} UpgradeWaitsOther(s: State, s': State, t: Tid, u: Tid)
    requires ThreadOk(s, u) && u != t && t !in Threads(s.queue) && t in s.readers && !OldestIs(s.queue, Shared)
    requires s.phys == [] && s.count >= 1
    requires s' == To(s, t, Asleep(Upgrade))
        .(tag := s.tag[t := Upgrade], waitq := t, count := s.count - 1,
          readers := s.readers - {t},
          queue := s.queue + [Req(t, Upgrade)], phys := [Req(t, Upgrade)])
    ensures SameFor(s, s', u) && (Anchored(At(s, u)) ==> AnchorKept(s, s', u))
  {
    assert s'.phys == s.phys + [Req(t, Upgrade)];
    JoinOther(s, s', t, u);
  }

  lemma {:induction false} UpgradeWaitsThreads(s: State, s': State, t: Tid)
    requires ThreadsOk(s) && At(s, t).Reading? && t in s.readers && !OldestIs(s.queue, Shared)
    requires s.phys == [] && s.transit == None && s.count >= 1
    requires s' == To(s, t, Asleep(Upgrade))
        .(tag := s.tag[t := Upgrade], waitq := t, count := s.count - 1,
          readers := s.readers - {t},
          queue := s.queue + [Req(t, Upgrade)], phys := [Req(t, Upgrade)])
    ensures ThreadsOk(s')
  {
    assert t !in Threads(s.queue) && ThreadOk(s', t) by {
      assert ThreadOk(s, t);
      Free(s, t);
      UpgradeAsleepOk(s, s', t);
    }
    forall u | u != t
      ensures SameFor(s, s', u) && (Anchored(At(s, u)) ==> AnchorKept(s, s', u))
    {
      assert ThreadOk(s, u);
      UpgradeWaitsOther(s, s', t, u);
    }
    OthersBut(s, s', t);
  }

  lemma {:induction false} UpgradeWaitsGood(s: State, s': State, t: Tid)
    requires Inv(s) && At(s, t).Reading? && s.waitq == NIL && s.count >= 2
    requires s' == To(s, t, Asleep(Upgrade))
        .(tag := s.tag[t := Upgrade], waitq := t, count := s.count - 1,
          readers := s.readers - {t},
          queue := s.queue + [Req(t, Upgrade)], phys := [Req(t, Upgrade)])
    ensures Kept(s, UpgradeWaits(t), s')
  {
    ReaderFacts(s, t);
    EmptyChain(s);
    KeeperPcKept(s, s', t);
    assert WakersOk(s') by { WakersKept(s, s', t); }
    assert CountOk(s') && s.readers != {t} by { UpgradeWaitsCount(s, s', t); }
    UpTailIs(s);
    assert ChainOk(s') by { UpgradeWaitsChain(s, s', t); }
    UpgradeWaitsThreads(s, s', t);
  }

  lemma {:induction false} UpgradeWaitsCount(s: State, s': State, t: Tid)
    requires CountOk(s) && KeeperPc(s') == KeeperPc(s) && s'.keeper == s.keeper
    requires s'.unfair == s.unfair && s'.wlocked == s.wlocked && s'.count == s.count - 1 && s.count >= 2
    requires t in s.readers && t !in s.waking && s'.readers == s.readers - {t}
    requires s'.writer == s.writer && s'.transit == s.transit && s'.waking == s.waking
    ensures CountOk(s') && s.readers != {t}
  {
    assert s.keeper.Some? ==> GrantedBy(s', s.keeper.value) == GrantedBy(s, s.keeper.value);
  }

  lemma {:induction false} UpgradeWaitsChain(s: State, s': State, t: Tid)
    requires Inv(s) && At(s, t).Reading? && s.phys == [] && !KeeperPc(s).Cut?
    requires s'.queue == s.queue + [Req(t, Upgrade)] && s'.phys == [Req(t, Upgrade)]
    requires s'.waitq == t && s'.next == s.next && s'.tag == s.tag[t := Upgrade]
    requires KeeperPc(s') == KeeperPc(s) && s'.keeper == s.keeper && s'.waking == s.waking
    ensures ChainOk(s')
  {
    assert ThreadOk(s, t);
    Free(s, t);
    WakingApart(s);
    UpgradeChain(s, s', t);
  }

  function StartUpgradeEvent(s: State, t: Tid): Event {
    if s.waitq != NIL then Quiet
    else if s.count == 1 then Upgraded(t)
    else UpgradeWaits(t)
  }

  lemma {:induction false} StartUpgradeGood(s: State, s': State, t: Tid)
    requires Inv(s) && Can(s, StartUpgrade(t)) && s' == StartUpgradeOf(s, t)
    ensures Kept(s, StartUpgradeEvent(s, t), s')
  {
    assert Next(s, t) == NIL by { assert ThreadOk(s, t); }
    ReaderFacts(s, t);
    if s.waitq != NIL {
      UpStartGood(s, s', t);
    } else if s.count == 1 {
      UpgradedGood(s, s', t);
    } else {
      UpgradeWaitsGood(s, s', t);
    }
  }

  lemma {:induction false} FirstLinked(s: State)
    requires Spells(s, s.waitq, s.phys, NIL) && s.phys != [] && KeeperOk(s) && QueueOk(s.queue)
    ensures s.waitq != NIL && s.waitq in Threads(s.phys)
  {
    PhysOk(s);
    assert s.phys[0].t in Threads(s.phys);
  }

  lemma {:induction false} BeginUpWalkGood(s: State, s': State, t: Tid)
    requires Inv(s) && Can(s, BeginUpWalk(t)) && s' == BeginUpWalkOf(s, t)
    ensures Kept(s, Quiet, s')
  {
    ReaderFacts(s, t);
    assert s.phys != [] && Tag(s, t) == Upgrade by { assert ThreadOk(s, t); }
    FirstLinked(s);
    UpMoveGood(s, s', t, UpWalk(s.waitq));
  }

  lemma {:induction false} UpgradeIsLast(s: State, cur: Tid)
    requires ChainOk(s) && Sound(LockOf(s)) && !KeeperPc(s).Cut? && cur in Threads(s.phys)
    ensures Tag(s, cur) == Upgrade ==> Next(s, cur) == NIL
    ensures Next(s, cur) != NIL ==> Next(s, cur) in Threads(s.phys)
    ensures s.phys != [] && (Next(s, cur) == NIL ==> Last(s.phys).t == cur)
    ensures Next(s, cur) == NIL && Tag(s, cur) != Upgrade ==> !UpTail(s.phys)
  {
    PhysOk(s);
    NilIsLast(s, cur);
    var i := ThreadAt(s.phys, cur);
    assert LinkOk(s, s.phys, i, NIL);
    if s.phys[i].mode == Upgrade {
      PhysUpgradeLast(s, i);
    }
  }

  lemma {:induction false} PhysUpgradeLast(s: State, i: nat)
    requires KeeperOk(s) && Sound(LockOf(s)) && !KeeperPc(s).Cut? && i < |s.phys| && s.phys[i].mode == Upgrade
    ensures i == |s.phys| - 1
  {
    var p := KeeperPc(s);
    if p.Split? {
      WeaveUpgradeLast(s.phys, NotShared(p.all), i);
    } else if Reinserting(p) {
      WeaveUpgradeLast(s.phys, p.back, i);
    }
  }

  lemma {:induction false} WeaveUpgradeLast(p: seq<Req>, w: seq<Req>, i: nat)
    requires i < |p| && p[i].mode == Upgrade
    requires forall j :: 0 <= j < |Weave(p, w)| && Weave(p, w)[j].mode == Upgrade ==>
               j == |Weave(p, w)| - 1
    ensures i == |p| - 1
  {
    if w == [] {
      WeaveNone(p);
    } else {
      UpgradeLast(p, w, i);
    }
  }

  lemma {:induction false} UpWalkFacts(s: State, t: Tid, cur: Tid)
    requires Inv(s) && (At(s, t) == UpWalk(cur) || At(s, t) == UpLink(cur))
    ensures s.phys != [] && Tag(s, t) == Upgrade && cur in Threads(s.phys)
    ensures Next(s, cur) != NIL ==> Tag(s, cur) != Upgrade && Next(s, cur) in Threads(s.phys)
    ensures Next(s, cur) == NIL ==> Last(s.phys).t == cur
    ensures Next(s, cur) == NIL && Tag(s, cur) != Upgrade ==> !UpTail(s.phys)
    ensures At(s, t).UpLink? ==> Tag(s, cur) != Upgrade
  {
    ReaderFacts(s, t);
    assert ThreadOk(s, t);
    UpgradeIsLast(s, cur);
  }

  lemma {:induction false} UpMoveGood(s: State, s': State, t: Tid, p': Pc)
    requires Inv(s) && (At(s, t).UpStart? || At(s, t).UpWalk? || At(s, t).UpLink?)
    requires (p'.Reading? || p'.UpStart? || p'.UpWalk? || p'.UpLink?) && AnchorOk(s, t, p')
    requires s' == To(s, t, p')
    ensures Kept(s, Quiet, s')
  {
    ReaderFacts(s, t);
    StandingGood(s, s', t, p');
  }

  lemma {:induction false} StepUpWalkGood(s: State, s': State, t: Tid)
    requires Inv(s) && Can(s, StepUpWalk(t)) && s' == StepUpWalkOf(s, t)
    ensures Kept(s, Quiet, s')
  {
    UpWalkFacts(s, t, At(s, t).cur);
    UpMoveGood(s, s', t, At(s', t));
  }

  lemma {:induction false} UpgradeJoinsThreads(s: State, s': State, t: Tid)
    requires ThreadsOk(s) && At(s, t).UpLink? && t in s.readers && !OldestIs(s.queue, Shared)
    requires s.phys != [] && s.transit == None && Threads(s.phys) <= Threads(s.queue)
    requires s' == To(s, t, Unlock(false, SleepAs(Upgrade)))
        .(next := s.next[Last(s.phys).t := t],
          queue := s.queue + [Req(t, Upgrade)], phys := s.phys + [Req(t, Upgrade)])
    ensures ThreadsOk(s')
  {
    assert ThreadOk(s, t);
    Free(s, t);
    LastIn(s.phys);
    assert ThreadOk(s', t) by { Joined(s.queue, Req(t, Upgrade)); }
    forall u | u != t
      ensures SameFor(s, s', u) && (Anchored(At(s, u)) ==> AnchorKept(s, s', u))
    {
      assert ThreadOk(s, u);
      JoinOther(s, s', t, u);
    }
    OthersBut(s, s', t);
  }

  lemma {:induction false} UpgradeJoinsChain(s: State, s': State, t: Tid)
    requires Inv(s) && At(s, t).UpLink? && s.phys != [] && !KeeperPc(s).Cut? && !UpTail(s.phys)
    requires s'.queue == s.queue + [Req(t, Upgrade)] && s'.phys == s.phys + [Req(t, Upgrade)]
    requires s'.waitq == s.waitq && s'.next == s.next[Last(s.phys).t := t] && s'.tag == s.tag
    requires KeeperPc(s') == KeeperPc(s) && s'.keeper == s.keeper && s'.waking == s.waking
    ensures ChainOk(s')
  {
    assert ThreadOk(s, t);
    Free(s, t);
    WakingApart(s);
    UpgradeChain(s, s', t);
  }

  lemma {:induction false} UpgradeJoinsFacts(s: State, t: Tid)
    requires Inv(s) && At(s, t).UpLink? && s.phys != [] && !UpTail(s.phys)
    ensures t in s.readers && s.transit == None && !KeeperPc(s).Cut? && s.queue != []
    ensures !OldestIs(s.queue, Upgrade) && !OldestIs(s.queue, Shared)
    ensures Threads(s.phys) <= Threads(s.queue)
  {
    ReaderFacts(s, t);
    assert !KeeperPc(s).Cut? by { assert ThreadOk(s, t); }
    UpTailIs(s);
    PrivateThreads(s);
    LastIn(s.phys);
  }

  lemma {:induction false} UpgradeJoinsGood(s: State, s': State, t: Tid)
    requires Inv(s) && At(s, t).UpLink? && s.phys != [] && !UpTail(s.phys)
    requires s' == To(s, t, Unlock(false, SleepAs(Upgrade)))
        .(next := s.next[Last(s.phys).t := t],
          queue := s.queue + [Req(t, Upgrade)], phys := s.phys + [Req(t, Upgrade)])
    ensures Kept(s, UpgradeJoins(t), s')
  {
    UpgradeJoinsFacts(s, t);
    KeeperPcKept(s, s', t);
    assert WakersOk(s') by { WakersKept(s, s', t); }
    assert CountOk(s') by { CountKept(s, s'); }
    assert ChainOk(s') by { UpgradeJoinsChain(s, s', t); }
    UpgradeJoinsThreads(s, s', t);
  }

  function LinkUpgradeEvent(s: State, t: Tid): Event
    requires At(s, t).UpLink?
  {
    if Next(s, At(s, t).cur) == NIL then UpgradeJoins(t) else Quiet
  }

  lemma {:induction false} LinkUpgradeGood(s: State, s': State, t: Tid)
    requires Inv(s) && Can(s, LinkUpgrade(t)) && s' == LinkUpgradeOf(s, t)
    ensures Kept(s, LinkUpgradeEvent(s, t), s')
  {
    var cur := At(s, t).cur;
    UpWalkFacts(s, t, cur);
    if Next(s, cur) == NIL {
      UpgradeJoinsGood(s, s', t);
    } else if Tag(s, Next(s, cur)) == Upgrade {
      UpMoveGood(s, s', t, Reading);
    } else {
      UpMoveGood(s, s', t, UpStart);
    }
  }

  // ---------- downgrade ----------

  lemma {:induction false} DowngradedThreads(s: State, s': State, t: Tid)
    requires ThreadsOk(s) && At(s, t).Writing? && s.readers == {} && s.writer == Some(t) && s.transit == None
    requires forall u :: Anchored(At(s, u)) ==> u == t
    requires s' == To(s, t, Reading).(wlocked := false, count := 1, readers := {t}, writer := None)
    ensures ThreadsOk(s')
  {
    assert ThreadOk(s, t);
    assert ThreadOk(s', t);
    OthersBut(s, s', t);
  }

  lemma {:induction false} DowngradedGood(s: State, s': State, t: Tid)
    requires Inv(s) && At(s, t).Writing? && s.waitq == NIL
    requires s' == To(s, t, Reading).(wlocked := false, count := 1, readers := {t}, writer := None)
    ensures Kept(s, Downgraded(t), s')
  {
    assert ThreadOk(s, t);
    WriterFacts(s, t);
    EmptyChain(s);
    assert WakersOk(s') by { WakersKept(s, s', t); }
    assert ChainOk(s') by { ChainKept(s, s'); }
    DowngradedThreads(s, s', t);
  }

  function StartDowngradeEvent(s: State, t: Tid): Event {
    if s.waitq != NIL then Quiet else Downgraded(t)
  }

  lemma {:induction false} StartDowngradeGood(s: State, s': State, t: Tid)
    requires Inv(s) && Can(s, StartDowngrade(t)) && s' == StartDowngradeOf(s, t)
    ensures Kept(s, StartDowngradeEvent(s, t), s')
  {
    WriterFacts(s, t);
    if s.waitq != NIL {
      PhysEmpty(s);
      FirstLinked(s);
      assert ThreadOk(s, t);
      StandingGood(s, s', t, DownWalk(s.waitq));
    } else {
      DowngradedGood(s, s', t);
    }
  }

  lemma {:induction false} DowngradeJoinsThreads(s: State, s': State, t: Tid)
    requires ThreadsOk(s) && At(s, t).DownWalk? && s.readers == {} && s.writer == Some(t)
    requires forall u :: Anchored(At(s, u)) ==> u == t
    requires s.phys != [] && s.phys == s.queue
    requires s' == To(s, t, Unlock(true, SleepAs(Shared)))
        .(next := s.next[Last(s.phys).t := t], tag := s.tag[t := Shared],
          queue := s.queue + [Req(t, Shared)], phys := s.phys + [Req(t, Shared)])
    ensures ThreadsOk(s')
  {
    assert ThreadOk(s, t);
    Free(s, t);
    LastIn(s.phys);
    Joined(s.queue, Req(t, Shared));
    assert ThreadOk(s', t);
    OthersBut(s, s', t);
  }

  lemma {:induction false} DowngradeJoinsGood(s: State, s': State, t: Tid)
    requires Inv(s) && At(s, t).DownWalk? && s.phys != []
    requires s' == To(s, t, Unlock(true, SleepAs(Shared)))
        .(next := s.next[Last(s.phys).t := t], tag := s.tag[t := Shared],
          queue := s.queue + [Req(t, Shared)], phys := s.phys + [Req(t, Shared)])
    ensures Kept(s, DowngradeJoins(t), s')
  {
    WriterFacts(s, t);
    assert ThreadOk(s, t);
    assert WakersOk(s') by { WakersKept(s, s', t); }
    assert ChainOk(s') by {
      Free(s, t);
      DowngradeJoinedChain(s, s', t);
    }
    DowngradeJoinsThreads(s, s', t);
  }

  function StepDownWalkEvent(s: State, t: Tid): Event
    requires At(s, t).DownWalk?
  {
    if Next(s, At(s, t).cur) != NIL then Quiet else DowngradeJoins(t)
  }

  lemma {:induction false} DownWalkFacts(s: State, t: Tid, cur: Tid)
    requires Inv(s) && At(s, t) == DownWalk(cur)
    ensures s.transit == None && Next(s, t) == NIL && s.phys != []
    ensures if Next(s, cur) == NIL then cur == Last(s.phys).t else Next(s, cur) in Threads(s.phys)
  {
    WriterFacts(s, t);
    assert ThreadOk(s, t);
    Free(s, t);
    NilIsLast(s, cur);
  }

  lemma {:induction false} StepDownWalkGood(s: State, s': State, t: Tid)
    requires Inv(s) && Can(s, StepDownWalk(t)) && s' == StepDownWalkOf(s, t)
    ensures Kept(s, StepDownWalkEvent(s, t), s')
  {
    var cur := At(s, t).cur;
    DownWalkFacts(s, t, cur);
    if Next(s, cur) != NIL {
      StandingGood(s, s', t, DownWalk(Next(s, cur)));
    } else {
      DowngradeJoinsGood(s, s', t);
    }
  }
}
