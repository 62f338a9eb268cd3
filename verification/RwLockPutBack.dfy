/**
 * The writer of an unfair 4-byte reader-writer lock that finds a reader waiting longest: it takes
 * the whole queue off the lock, lets every reader in, and puts the writers back.
 */
module RwLockPutBack {
  import opened Base
  import opened RwSpec
  import opened RwLock
  import opened RwLockInv
  import opened RwLockChain
  import opened RwLockSteps
  import opened RwLockRelease
  import opened RwLockHandOver

  // ---------- taking the queue off ----------

  lemma {:induction false} DownFacts(s: State, t: Tid)
    requires Inv(s) && At(s, t).UnfairDown?
    ensures s.unfair && OldestIs(s.queue, Shared) && s.queue == s.phys
    ensures s.readers == {} && s.writer == Some(t) && s.transit == None && s.keeper == None
    ensures s.count == 0 && s.wlocked && GrantedBy(s, t) == {}
    ensures forall u :: Anchored(At(s, u)) ==> u == t
    ensures forall i :: 0 <= i < |s.queue| ==> s.queue[i].mode != Upgrade
  {
    assert ThreadOk(s, t);
    WriterFacts(s, t);
  }

  lemma {:induction false} SharedRemoved(q: seq<Req>)
    requires QueueOk(q)
    ensures Removed(q, NotShared(q), Threads(OnlyShared(q)))
  {
    SubQueueOk(q);
    SplitThreads(q);
    NotSharedFacts(q);
  }

  lemma {:induction false} SharedGet(s: State, s': State, q: seq<Req>)
    requires q == s.queue && QueueOk(q) && Spells(s, First(q, NIL), q, NIL)
    requires s'.readers == Threads(OnlyShared(q)) && s'.writer == None
    ensures forall x, m :: x in Threads(OnlyShared(q)) && Req(x, m) in s.queue ==> GetsIts(s, s', x, m)
  {
    SubQueueOk(q);
    NotSharedFacts(q);
    SpelledTags(s, First(q, NIL), q, NIL);
  }

  lemma {:induction false} TakenOffThreads(s: State, s': State, t: Tid, c: Cont)
    requires Inv(s) && At(s, t) == UnfairDown(c) && s' == TakenOff(s, t, c, s.queue)
    ensures ThreadsOk(s')
  {
    DownFacts(s, t);
    var g := Threads(OnlyShared(s.queue));
    assert Removed(s.queue, s'.queue, g) by { SharedRemoved(s.queue); }
    assert LetsGo(s, s', t);
    assert Granting(s, s', g);
    assert forall x, m :: x in g && Req(x, m) in s.queue ==> GetsIts(s, s', x, m) by {
      SharedGet(s, s', s.queue);
    }
    GrantThreads(s, s', t, g);
  }

  lemma {:induction false} TakenOffCount(s: State, s': State, t: Tid, c: Cont, q: seq<Req>)
    requires QueueOk(q) && s.unfair && OldestIs(q, Shared) && s.transit == None
    requires s' == TakenOff(s, t, c, q)
    requires GrantedBy(s', t) == Threads(OnlyShared(q))
    ensures CountOk(s')
  {
    SubQueueOk(q);
    QueueCount(OnlyShared(q));
    NotSharedFacts(q);
    assert q[|q| - 1] in OnlyShared(q);
    assert OnlyShared(q)[0].t in Threads(OnlyShared(q));
  }

  lemma {:induction false} TakenOffGood(s: State, s': State, t: Tid, c: Cont)
    requires Inv(s) && At(s, t) == UnfairDown(c) && s' == TakenOff(s, t, c, s.queue)
    ensures Kept(s, WriteReleased(t), s')
  {
    DownFacts(s, t);
    TakenChain(s, s', t, s.queue);
    assert CountOk(s') by { TakenOffCount(s, s', t, c, s.queue); }
    assert WakersOk(s');
    TakenOffThreads(s, s', t, c);
  }

  lemma {:induction false} UnfairDownGood(s: State, s': State, t: Tid, q: seq<Req>)
    requires Inv(s) && Can(s, DoUnfairDown(t, q)) && s' == UnfairDownOf(s, t, q)
    ensures Kept(s, WriteReleased(t), s')
  {
    DownFacts(s, t);
    WalkReadsQueue(s, q);
    TakenOffGood(s, s', t, At(s, t).cont);
  }

  // ---------- sorting out the list ----------

  lemma {:induction false} SplitterFacts(s: State, t: Tid, p: Pc)
    requires Inv(s) && p == At(s, t) && SplitPc(p)
    ensures s.keeper == Some(t) && KeeperPc(s) == p && KeeperOk(s)
    ensures !s.wlocked && s.count >= 1 && Pend(p) >= 0 && s.writer == None && s.transit == None
    ensures forall i :: 0 <= i < |s.queue| && s.queue[i].mode == Upgrade ==> i == |s.queue| - 1
  {
    assert ThreadOk(s, t);
    GrantedCount(s, t);
    CardLe(GrantedBy(s, t), s.readers);
  }

  /** A move of the splitting thread that keeps its standing; only queued waiters' links change. */
  lemma {:induction false} SplitterThreads(s: State, s': State, t: Tid)
    requires ThreadsOk(s) && SplitPc(At(s, t)) && WakerPc(At(s', t))
    requires ContOf(At(s', t)) == ContOf(At(s, t)) && s'.pc == s.pc[t := At(s', t)]
    requires s'.queue == s.queue && Threads(s.phys) <= Threads(s'.phys) && (s.phys != [] ==> s'.phys != [])
    requires s'.tag == s.tag && s'.waking == s.waking && s'.signalled == s.signalled
    requires s'.readers == s.readers && s'.writer == s.writer && s'.transit == s.transit
    requires s'.keeper == if SplitPc(At(s', t)) then s.keeper else None
    requires s'.unfair == s.unfair
    requires forall x :: x !in Threads(s.queue) && (x !in s.waking || Tag(s, x) != Shared) ==>
               Next(s', x) == Next(s, x)
    ensures ThreadsOk(s')
  {
    assert ThreadOk(s, t);
    assert ThreadOk(s', t);
    OthersBut(s, s', t);
  }

  lemma {:induction false} SplitGrants(s: State, all: seq<Req>)
    requires s.keeper.Some? && SplitOk(s, all)
    ensures forall x :: x in Threads(all) ==>
              x in Threads(s.queue) || (x in s.waking && Tag(s, x) == Shared)
  {
    SpelledTags(s, First(all, NIL), all, NIL);
    SplitThreads(all);
    NotSharedFacts(all);
    WeaveThreads(s.phys, NotShared(all));
    forall x | x in Threads(OnlyShared(all))
      ensures Tag(s, x) == Shared
    {
      var i := ThreadAt(OnlyShared(all), x);
      assert OnlyShared(all)[i] in OnlyShared(all);
    }
  }

  lemma {:induction false} SplitGood(s: State, s': State, t: Tid)
    requires Inv(s) && Can(s, DoSplit(t)) && s' == SplitOf(s, t)
    ensures Kept(s, Quiet, s')
  {
    var p := At(s, t);
    SplitterFacts(s, t, p);
    assert ChainOk(s') && forall x :: x !in Threads(p.all) ==> Next(s', x) == Next(s, x) by {
      WakingApart(s);
      SplitChain(s, s', p);
      SplitLinks(s, s', p.all);
    }
    assert CountOk(s') by { SplitterCount(s, s', t); }
    assert WakersOk(s') by { WakersKept(s, s', t); }
    SplitGrants(s, p.all);
    SplitterThreads(s, s', t);
  }

  lemma {:induction false} SplitterCount(s: State, s': State, t: Tid)
    requires CountOk(s) && s.keeper == Some(t) && SplitPc(At(s, t)) && SplitPc(At(s', t))
    requires s'.keeper == s.keeper && Pend(At(s', t)) == Pend(At(s, t))
    requires s'.unfair == s.unfair && s'.wlocked == s.wlocked && s'.count == s.count
    requires s'.readers == s.readers && s'.writer == s.writer && s'.transit == s.transit
    requires s'.waking == s.waking
    ensures CountOk(s')
  {
    assert GrantedBy(s', t) == GrantedBy(s, t);
  }

  // ---------- putting the writers back ----------

  /** A move of the reinserting thread that changes links of queued waiters only. */
  lemma {:induction false} ReinsertMoveGood(s: State, s': State, t: Tid)
    requires Inv(s) && Reinserting(At(s, t)) && Reinserting(At(s', t)) && ChainOk(s')
    requires ContOf(At(s', t)) == ContOf(At(s, t)) && At(s', t).count == At(s, t).count
    requires s' == To(s, t, At(s', t)).(next := s'.next, phys := s'.phys)
    requires Threads(s.phys) <= Threads(s'.phys) && (s.phys != [] ==> s'.phys != [])
    requires forall x :: x !in Threads(s.queue) ==> Next(s', x) == Next(s, x)
    ensures Kept(s, Quiet, s')
  {
    SplitterFacts(s, t, At(s, t));
    assert CountOk(s') by { SplitterCount(s, s', t); }
    assert WakersOk(s') by { WakersKept(s, s', t); }
    SplitterThreads(s, s', t);
  }

  lemma {:induction false} FirstIn(s: State)
    requires ChainOk(s) && s.waitq != NIL
    ensures s.waitq in Threads(s.phys) && s.phys != []
  {
    assert s.phys[0].t in Threads(s.phys);
  }

  /** What a step of the walk finds: a newcomer, the upgrade behind the newcomers, or the end. */
  lemma {:induction false} WalkFinds(s: State, back: seq<Req>, cur: Tid)
    requires Spells(s, s.waitq, s.phys, NIL) && QueueOk(s.phys) && s.queue == Weave(s.phys, back)
    requires back != [] && cur in Threads(s.phys)
    requires forall i :: 0 <= i < |s.queue| && s.queue[i].mode == Upgrade ==> i == |s.queue| - 1
    ensures s.phys != []
    ensures var n := Next(s, cur);
            if n == NIL then Last(s.phys).t == cur && (UpTail(s.phys) <==> Tag(s, cur) == Upgrade)
            else
              && n in Threads(s.phys)
              && (Tag(s, n) == Upgrade ==>
                    && UpTail(s.phys) && Last(s.phys).t == n && Next(s, n) == NIL
                    && OldestPlain(s.phys, cur))
  {
    var i := ThreadAt(s.phys, cur);
    assert LinkOk(s, s.phys, i, NIL);
    if i + 1 < |s.phys| {
      assert LinkOk(s, s.phys, i + 1, NIL);
      assert s.phys[i + 1].t in Threads(s.phys);
      if s.phys[i + 1].mode == Upgrade {
        UpgradeLast(s.phys, back, i + 1);
      }
    }
  }

  lemma {:induction false} ReinsertFacts(s: State, t: Tid, p: Pc)
    requires Inv(s) && p == At(s, t) && Reinserting(p)
    ensures s.keeper == Some(t) && KeeperPc(s) == p
    ensures s.queue == Weave(s.phys, p.back) && BackLinked(s, p.back) && ReinsertOk(s, p)
    ensures QueueOk(s.phys) && Spells(s, s.waitq, s.phys, NIL)
    ensures Threads(s.phys) + Threads(p.back) <= Threads(s.queue)
    ensures forall i :: 0 <= i < |s.queue| && s.queue[i].mode == Upgrade ==> i == |s.queue| - 1
  {
    SplitterFacts(s, t, p);
    PhysOk(s);
    WeaveThreads(s.phys, p.back);
  }

  function SplicedNext(s: State, back: seq<Req>, cur: Tid): map<Tid, nat>
    requires back != []
  {
    if UpTail(s.phys) then s.next[Last(back).t := Last(s.phys).t][cur := back[0].t]
    else s.next[cur := back[0].t]
  }

  lemma {:induction false} SpliceGood(s: State, s': State, t: Tid, p: Pc)
    requires Inv(s) && p == At(s, t) && (p.ReinsertWalk? || p.ReinsertLink?) && p.back != []
    requires OldestPlain(s.phys, p.cur) && p.cur in Threads(s.queue)
    requires s' == Spliced(s, t, p, SplicedNext(s, p.back, p.cur))
    ensures Kept(s, Quiet, s')
  {
    ReinsertFacts(s, t, p);
    LastIn(p.back);
    assert ChainOk(s') by { SplicedChain(s, s', p, p.cur); }
    ReinsertMoveGood(s, s', t);
  }

  lemma {:induction false} FrontGood(s: State, s': State, t: Tid, p: Pc)
    requires Inv(s) && p == At(s, t) && p.ReinsertWalk? && p.back != []
    requires UpTail(s.phys) && Last(s.phys).t == p.cur && p.oldQ == p.cur
    requires s' == To(s, t, ReinsertSwap(p.cont, p.back, p.count, p.oldR, p.oldQ, p.back[0].t))
                     .(next := s.next[Last(p.back).t := p.cur])
    ensures Kept(s, Quiet, s')
  {
    ReinsertFacts(s, t, p);
    LastIn(p.back);
    assert ChainOk(s') by { FrontChain(s, s', p, At(s', t), p.cur); }
    ReinsertMoveGood(s, s', t);
  }

  lemma {:induction false} ReinsertPcGood(s: State, s': State, t: Tid, p: Pc, p': Pc)
    requires Inv(s) && p == At(s, t) && Reinserting(p) && Reinserting(p') && ReinsertOk(s, p')
    requires p'.back == p.back && p'.count == p.count && p'.cont == p.cont && s' == To(s, t, p')
    ensures Kept(s, Quiet, s')
  {
    ReinsertFacts(s, t, p);
    assert ChainOk(s') by { ReinsertChain(s, s', p, p'); }
    ReinsertMoveGood(s, s', t);
  }

  lemma {:induction false} ReinsertGood(s: State, s': State, t: Tid)
    requires Inv(s) && Can(s, DoReinsert(t)) && s' == ReinsertOf(s, t)
    ensures Kept(s, Quiet, s')
  {
    var p := At(s, t);
    if p.back == [] {
      ReinsertPcGood(s, s', t, p, ReinsertSwap(p.cont, [], p.count, s.count, s.waitq, s.waitq));
    } else if s.waitq == NIL {
      ReinsertPcGood(s, s', t, p, ReinsertSwap(p.cont, p.back, p.count, s.count, s.waitq, p.back[0].t));
    } else {
      FirstIn(s);
      ReinsertPcGood(s, s', t, p, ReinsertWalk(p.cont, p.back, p.count, s.count, s.waitq, s.waitq));
    }
  }

  lemma {:induction false} StepReinsertGood(s: State, s': State, t: Tid)
    requires Inv(s) && Can(s, StepReinsert(t)) && s' == StepReinsertOf(s, t)
    ensures Kept(s, Quiet, s')
  {
    var p := At(s, t);
    var n := Next(s, p.cur);
    ReinsertFacts(s, t, p);
    WalkFinds(s, p.back, p.cur);
    if n != NIL {
      if Tag(s, n) == Upgrade {
        SpliceGood(s, s', t, p);
      } else {
        ReinsertPcGood(s, s', t, p, ReinsertWalk(p.cont, p.back, p.count, p.oldR, p.oldQ, n));
      }
    } else if Tag(s, p.cur) == Upgrade {
      FrontGood(s, s', t, p);
    } else {
      ReinsertPcGood(s, s', t, p, ReinsertLink(p.cont, p.back, p.count, p.oldR, p.oldQ, p.cur));
    }
  }

  /** When the swap of the oldest newcomer's link is lost, it was lost to an upgrade. */
  lemma {:induction false} LinkFinds(s: State, back: seq<Req>, cur: Tid)
    requires Spells(s, s.waitq, s.phys, NIL) && QueueOk(s.phys) && OldestPlain(s.phys, cur)
    ensures cur in Threads(s.phys)
    ensures Next(s, cur) == NIL <==> !UpTail(s.phys)
    ensures UpTail(s.phys) ==>
              && Next(s, cur) == Last(s.phys).t && Next(s, Next(s, cur)) == NIL
              && Tag(s, Next(s, cur)) == Upgrade
  {
    var k := if UpTail(s.phys) then |s.phys| - 2 else |s.phys| - 1;
    assert s.phys[k].t in Threads(s.phys);
    assert LinkOk(s, s.phys, k, NIL);
    assert LinkOk(s, s.phys, |s.phys| - 1, NIL);
  }

  lemma {:induction false} LinkReinsertGood(s: State, s': State, t: Tid)
    requires Inv(s) && Can(s, LinkReinsert(t)) && s' == LinkReinsertOf(s, t)
    ensures Kept(s, Quiet, s')
  {
    var p := At(s, t);
    ReinsertFacts(s, t, p);
    LinkFinds(s, p.back, p.cur);
    SpliceGood(s, s', t, p);
  }

  lemma {:induction false} PutBackGood(s: State, s': State, t: Tid, p: Pc)
    requires Inv(s) && p == At(s, t) && p.ReinsertSwap? && s.waitq == p.oldQ && p.count >= 1
    requires s' == To(s, t, Wake(p.cont))
                     .(count := s.count + p.count - 1, waitq := p.newQ,
                       phys := if p.back == [] then s.phys else s.queue, keeper := None)
    ensures Kept(s, Quiet, s')
  {
    ReinsertFacts(s, t, p);
    assert ChainOk(s') by { PutBackChain(s, s', p); }
    assert WakersOk(s') by { WakersKept(s, s', t); }
    SplitterThreads(s, s', t);
  }

  lemma {:induction false} SwapReinsertGood(s: State, s': State, t: Tid)
    requires Inv(s) && Can(s, SwapReinsert(t)) && s' == SwapReinsertOf(s, t)
    ensures Kept(s, Quiet, s')
  {
    var p := At(s, t);
    SplitterFacts(s, t, p);
    if s.count == p.oldR && s.waitq == p.oldQ {
      PutBackGood(s, s', t, p);
    } else {
      ReinsertPcGood(s, s', t, p, Reinsert(p.cont, p.back, p.count));
    }
  }
}
