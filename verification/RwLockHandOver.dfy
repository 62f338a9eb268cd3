/** The swaps that hand the 4-byte reader-writer lock to its waiters. */
module RwLockHandOver {
  import opened Base
  import opened RwSpec
  import opened RwLock
  import opened RwLockInv
  import opened RwLockChain
  import opened RwLockSteps

  /** The only holder `t` lets go. */
  predicate LetsGo(s: State, s': State, t: Tid) {
    && s.readers <= {t} && (s.writer.None? || s.writer == Some(t))
    && (s.transit.None? || s.transit == Some(t)) && (s.keeper.None? || s.keeper == Some(t))
    && ContOf(At(s', t)) == ContOf(At(s, t)) && WakerPc(At(s', t))
    && (HoldsRead(At(s, t)) || HoldsWrite(At(s, t)))
    && s'.pc == s.pc[t := At(s', t)]
    && s'.keeper == (if IsKeeper(At(s', t)) then Some(t) else None)
  }

  /** The threads `g` leave the queue, and no one else gets the lock. */
  predicate Granting(s: State, s': State, g: set<Tid>) {
    && Removed(s.queue, s'.queue, g)
    && s'.signalled == s.signalled && s'.next == s.next && s'.tag == s.tag
    && s'.waking.Keys == s.waking.Keys + g
    && s'.transit == None && s'.readers <= g && (s'.writer.Some? ==> s'.writer.value in g)
  }

  predicate Removed(q: seq<Req>, q': seq<Req>, g: set<Tid>) {
    && g <= Threads(q) && Threads(q') == Threads(q) - g
    && forall r :: r in q && r.t !in g ==> r in q'
  }

  /** `x` gets what it asked for. */
  predicate GetsIts(s: State, s': State, x: Tid, m: Mode) {
    && Tag(s, x) == m
    && (m == Shared <==> x in s'.readers)
    && (m != Shared <==> s'.writer == Some(x))
    && (m != Shared ==> Next(s, x) == NIL)
  }

  lemma {:induction false} GrantedOk(s: State, s': State, t: Tid, g: set<Tid>, x: Tid)
    requires ThreadOk(s, x) && ThreadOk(s, t) && LetsGo(s, s', t) && Granting(s, s', g) && x in g
    requires forall m :: Req(x, m) in s.queue ==> GetsIts(s, s', x, m)
    ensures ThreadOk(s', x)
  {
    HoldsIs(s, x);
    var c := ContOf(At(s, x));
    assert Req(x, c.mode) in s.queue;
    assert GetsIts(s, s', x, c.mode);
  }

  lemma {:induction false} UngrantedOk(s: State, s': State, t: Tid, g: set<Tid>, u: Tid)
    requires ThreadOk(s, u) && ThreadOk(s, t) && LetsGo(s, s', t) && Granting(s, s', g) && u !in g
    requires Anchored(At(s, u)) ==> u == t
    ensures ThreadOk(s', u)
  {
    HoldsIs(s, u);
    if u != t {
      assert SameFor(s, s', u);
      SameOk(s, s', u);
    }
  }

  lemma {:induction false} GrantThreads(s: State, s': State, t: Tid, g: set<Tid>)
    requires ThreadsOk(s) && LetsGo(s, s', t) && Granting(s, s', g)
    requires forall u :: Anchored(At(s, u)) ==> u == t
    requires forall x, m :: x in g && Req(x, m) in s.queue ==> GetsIts(s, s', x, m)
    ensures ThreadsOk(s')
  {
    assert ThreadOk(s, t);
    forall u
      ensures ThreadOk(s', u)
    {
      assert ThreadOk(s, u);
      if u in g {
        GrantedOk(s, s', t, g, u);
      } else {
        UngrantedOk(s, s', t, g, u);
      }
    }
  }

  lemma {:induction false} QueueCount(q: seq<Req>)
    requires QueueOk(q)
    ensures |Threads(q)| == |q|
  {
    var ids := seq(|q|, i requires 0 <= i < |q| => q[i].t);
    DistinctCount(ids);
    assert Elems(ids) == Threads(q) by {
      forall x | x in Threads(q)
        ensures x in ids
      {
        var i := ThreadAt(q, x);
        assert ids[i] == x;
      }
    }
  }

  /** A waiter is queued once. */
  lemma {:induction false} OnlyReq(q: seq<Req>, i: nat, r: Req)
    requires QueueOk(q) && r in q && i < |q| && q[i].t == r.t
    ensures q[i] == r
  {
    var j :| 0 <= j < |q| && q[j] == r;
  }

  // ---------- the swap after a scan ----------

  lemma {:induction false} CutFacts(s: State, t: Tid, p: Pc)
    requires Inv(s) && p == At(s, t) && p.Cut?
    ensures s.keeper == Some(t) && KeeperPc(s) == p && CutOk(s, p.taken, p.whole, p.oldQ)
    ensures forall u :: Anchored(At(s, u)) ==> u == t
    ensures p.excl ==> s.readers == {} && s.wlocked
    ensures p.excl ==> (s.writer == Some(t) && s.transit == None) || (s.transit == Some(t) && s.writer == None)
    ensures !p.excl ==> s.readers == {t} && !s.wlocked && s.writer == None && s.transit == None
    ensures s.unfair ==> p.excl && !OldestIs(s.queue, Shared)
  {
    assert ThreadOk(s, t);
    if p.excl {
      WriterFacts(s, t);
    } else {
      ReaderFacts(s, t);
      SoleReader(s, t);
    }
  }

  function CutEvent(s: State, t: Tid): Event
    requires At(s, t).Cut?
  {
    var p := At(s, t);
    if s.count == p.oldR && s.waitq == p.oldQ && s.wlocked == p.excl then Handing(s, t, p) else Quiet
  }

  function Handing(s: State, t: Tid, p: Pc): Event
    requires p.Cut?
  {
    if !p.excl then LastReadReleased(t)
    else if s.transit == Some(t) then HandedOver
    else WriteReleased(t)
  }

  lemma {:induction false} CutIs(s: State, t: Tid, p: Pc)
    requires KeeperOk(s) && ThreadOk(s, t) && p == At(s, t) && p.Cut?
    ensures CutOk(s, p.taken, p.whole, p.oldQ)
  {
  }

  /** What the taken waiters get is what they asked for. */
  lemma {:induction false} TakenGet(s: State, s': State, taken: seq<Req>, k: nat)
    requires QueueOk(s.queue) && k < |s.queue| && taken == s.queue[k..]
    requires Spells(s, taken[0].t, taken, NIL) && |taken| == FairServed(s.queue)
    requires if Last(taken).mode == Shared then s'.readers == Threads(taken) && s'.writer == None
             else s'.readers == {} && s'.writer == Some(Last(taken).t)
    ensures forall x, m :: x in Threads(taken) && Req(x, m) in s.queue ==> GetsIts(s, s', x, m)
  {
    forall x, m | x in Threads(taken) && Req(x, m) in s.queue
      ensures GetsIts(s, s', x, m)
    {
      var i := ThreadAt(taken, x);
      OnlyReq(s.queue, k + i, Req(x, m));
      assert LinkOk(s, taken, i, NIL);
    }
  }

  lemma {:induction false} TakenApart(q: seq<Req>, k: nat)
    requires QueueOk(q) && k <= |q|
    ensures Removed(q, q[..k], Threads(q[k..])) && QueueOk(q[k..])
  {
    assert q == q[..k] + q[k..];
    ThreadsConcat(q[..k], q[k..]);
    forall r | r in q && r.t !in Threads(q[k..])
      ensures r in q[..k]
    {
      var i :| 0 <= i < |q| && q[i] == r;
      if i < k {
        assert q[..k][i] == r;
      }
    }
    forall x | x in Threads(q[..k])
      ensures x !in Threads(q[k..])
    {
      var i := ThreadAt(q[..k], x);
      if x in Threads(q[k..]) {
        var j := ThreadAt(q[k..], x);
        assert false;
      }
    }
  }

  lemma {:induction false} HandedGets(s: State, s': State, t: Tid, p: Pc)
    requires QueueOk(s.queue) && p.Cut? && CutOk(s, p.taken, p.whole, p.oldQ)
    requires Spells(s, p.taken[0].t, p.taken, NIL) && |p.taken| == FairServed(s.queue)
    requires s' == HandedTo(s, t, p)
    ensures forall x, m :: x in Threads(p.taken) && Req(x, m) in s.queue ==> GetsIts(s, s', x, m)
  {
    TakenGet(s, s', p.taken, |s.queue| - |p.taken|);
  }

  lemma {:induction false} HandedThreads(s: State, s': State, t: Tid, p: Pc)
    requires Inv(s) && p == At(s, t) && p.Cut? && s.waitq == p.oldQ
    requires CutOk(s, p.taken, p.whole, p.oldQ) && |p.taken| == FairServed(s.queue)
    requires s' == HandedTo(s, t, p)
    ensures ThreadsOk(s')
  {
    CutFacts(s, t, p);
    HandedLetsGo(s, s', t, p);
    assert Granting(s, s', Threads(p.taken)) by {
      HandedRemoved(s.queue, p.taken);
      HandedGranting(s, s', t, p);
    }
    assert forall x, m :: x in Threads(p.taken) && Req(x, m) in s.queue ==> GetsIts(s, s', x, m) by {
      TakenSpelled(s, p);
      HandedGets(s, s', t, p);
    }
    GrantThreads(s, s', t, Threads(p.taken));
  }

  lemma {:induction false} HandedLetsGo(s: State, s': State, t: Tid, p: Pc)
    requires p == At(s, t) && p.Cut? && p.taken != []
    requires s.readers <= {t} && (s.writer.None? || s.writer == Some(t))
    requires (s.transit.None? || s.transit == Some(t)) && s.keeper == Some(t)
    requires s' == HandedTo(s, t, p)
    ensures LetsGo(s, s', t)
  {
  }

  lemma {:induction false} HandedRemoved(q: seq<Req>, taken: seq<Req>)
    requires QueueOk(q) && |taken| <= |q| && taken == q[|q| - |taken|..]
    ensures Removed(q, Without(q, |taken|), Threads(taken))
  {
    TakenApart(q, |q| - |taken|);
  }

  lemma {:induction false} HandedGranting(s: State, s': State, t: Tid, p: Pc)
    requires p.Cut? && p.taken != [] && s' == HandedTo(s, t, p)
    requires Removed(s.queue, s'.queue, Threads(p.taken))
    ensures Granting(s, s', Threads(p.taken))
  {
    LastIn(p.taken);
  }

  lemma {:induction false} HandedStep(s: State, s': State, t: Tid, p: Pc)
    requires p.Cut? && |p.taken| == FairServed(s.queue) && s.queue != []
    requires p.taken == s.queue[|s.queue| - |p.taken|..]
    requires p.excl ==> s.readers == {}
    requires p.excl ==> (s.writer == Some(t) && s.transit == None) || (s.transit == Some(t) && s.writer == None)
    requires !p.excl ==> s.readers == {t} && s.writer == None && s.transit == None
    requires s.unfair ==> p.excl && !OldestIs(s.queue, Shared)
    requires s' == HandedTo(s, t, p)
    ensures Step(LockOf(s), Handing(s, t, p), LockOf(s'))
  {
    assert Last(p.taken) == Last(s.queue);
  }

  /** The list cut off, as its links spell it. */
  lemma {:induction false} TakenSpelled(s: State, p: Pc)
    requires ChainOk(s) && p == KeeperPc(s) && p.Cut? && s.waitq == p.oldQ
    ensures Spells(s, p.taken[0].t, p.taken, NIL)
  {
    if p.whole {
      assert s.queue[0].t == s.queue[|s.queue| - |p.taken|].t;
      assert p.taken == s.phys;
    }
  }

  lemma {:induction false} HandedCount(s: State, s': State, t: Tid, p: Pc)
    requires p.Cut? && p.taken != [] && |p.taken| <= |s.queue| && QueueOk(p.taken)
    requires s' == HandedTo(s, t, p)
    ensures CountOk(s')
  {
    QueueCount(p.taken);
  }

  lemma {:induction false} HandedChain(s: State, s': State, t: Tid, p: Pc)
    requires Inv(s) && p == At(s, t) && p.Cut? && s.waitq == p.oldQ
    requires CutOk(s, p.taken, p.whole, p.oldQ) && s' == HandedTo(s, t, p)
    ensures ChainOk(s') && |p.taken| == FairServed(s.queue)
  {
    assert ThreadOk(s, t);
    SwapCutChain(s, s', p);
  }

  lemma {:induction false} HandedWakers(s: State, s': State, t: Tid, p: Pc)
    requires WakersOk(s) && p == At(s, t) && p.Cut? && p.taken != [] && s' == HandedTo(s, t, p)
    ensures WakersOk(s')
  {
  }

  lemma {:induction false} HandedGood(s: State, s': State, t: Tid, p: Pc)
    requires Inv(s) && p == At(s, t) && p.Cut? && s.waitq == p.oldQ
    requires CutOk(s, p.taken, p.whole, p.oldQ) && s' == HandedTo(s, t, p)
    ensures Kept(s, Handing(s, t, p), s')
  {
    HandedChain(s, s', t, p);
    HandedWakers(s, s', t, p);
    assert CountOk(s') by {
      TakenApart(s.queue, |s.queue| - |p.taken|);
      HandedCount(s, s', t, p);
    }
    HandedThreads(s, s', t, p);
    CutFacts(s, t, p);
    HandedStep(s, s', t, p);
  }

  lemma {:induction false} RescanGood(s: State, s': State, t: Tid, p: Pc)
    requires Inv(s) && p == At(s, t) && p.Cut?
    requires s' == if p.whole then To(s, t, Scan(p.excl, p.cont)).(keeper := None)
                   else To(s, t, Cut(p.excl, p.cont, s.count, s.waitq, p.taken, false))
    ensures Kept(s, Quiet, s')
  {
    CutFacts(s, t, p);
    assert WakersOk(s') by { WakersKept(s, s', t); }
    assert CountOk(s');
    RescanChain(s, s', t, p);
    RescanThreads(s, s', t, p);
  }

  lemma {:induction false} RescanChain(s: State, s': State, t: Tid, p: Pc)
    requires ChainOk(s) && p == At(s, t) && p.Cut? && s.keeper == Some(t)
    requires s' == if p.whole then To(s, t, Scan(p.excl, p.cont)).(keeper := None)
                   else To(s, t, Cut(p.excl, p.cont, s.count, s.waitq, p.taken, false))
    ensures ChainOk(s')
  {
    SpellsElsewhere(s, s', s.waitq, s.phys, NIL);
    if !p.whole {
      SpellsElsewhere(s, s', p.taken[0].t, p.taken, NIL);
    }
  }

  lemma {:induction false} RescanThreads(s: State, s': State, t: Tid, p: Pc)
    requires ThreadsOk(s) && p == At(s, t) && p.Cut? && s.phys != [] && s.keeper == Some(t)
    requires s' == if p.whole then To(s, t, Scan(p.excl, p.cont)).(keeper := None)
                   else To(s, t, Cut(p.excl, p.cont, s.count, s.waitq, p.taken, false))
    ensures ThreadsOk(s')
  {
    assert ThreadOk(s, t);
    assert ThreadOk(s', t);
    OthersBut(s, s', t);
  }

  lemma {:induction false} SwapCutGood(s: State, s': State, t: Tid)
    requires Inv(s) && Can(s, SwapCut(t)) && s' == SwapCutOf(s, t)
    ensures Kept(s, CutEvent(s, t), s')
  {
    var p := At(s, t);
    assert ThreadOk(s, t);
    CutIs(s, t, p);
    if s.count == p.oldR && s.waitq == p.oldQ && s.wlocked == p.excl {
      HandedGood(s, s', t, p);
    } else {
      RescanGood(s, s', t, p);
    }
  }
}
