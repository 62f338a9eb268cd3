/** Every action of the 4-byte reader-writer lock keeps the invariant and is one step of the spec. */
module RwLockSteps {
  import opened Base
  import opened RwSpec
  import opened RwLock
  import opened RwLockInv
  import opened RwLockChain

  ghost predicate Kept(s: State, e: Event, s': State) {
    && Step(LockOf(s), e, LockOf(s'))
    && CountOk(s') && ChainOk(s') && ThreadsOk(s') && WakersOk(s')
  }

  // ---------- what the invariant says about one thread ----------

  lemma {:induction false} Free(s: State, t: Tid)
    requires ThreadOk(s, t) && ContOf(At(s, t)).Leave?
    ensures t !in Threads(s.queue) && t !in s.waking && t !in s.signalled && t !in Linked(s)
    ensures Next(s, t) == NIL
  {
  }

  lemma {:induction false} WakingApart(s: State)
    requires ThreadsOk(s)
    ensures forall x :: x in s.waking ==> x !in Threads(s.queue) && x !in s.signalled
  {
    forall x | x in s.waking
      ensures x !in Threads(s.queue) && x !in s.signalled
    {
      assert ThreadOk(s, x);
    }
  }

  lemma {:induction false} GrantedCount(s: State, t: Tid)
    requires CountOk(s) && SplitPc(KeeperPc(s))
    ensures s.count >= 1
    ensures t in s.readers && t !in s.waking ==> s.count >= 2
  {
    var g := GrantedBy(s, s.keeper.value);
    CardLe(g, s.readers);
    if t in s.readers && t !in s.waking {
      CardLe(g + {t}, s.readers);
    }
  }

  lemma {:induction false} CardLe<T>(a: set<T>, b: set<T>)
    requires a <= b
    ensures |a| <= |b|
  {
    assert b == a + (b - a);
  }

  lemma {:induction false} CardOne<T>(a: set<T>, x: T)
    requires x in a && |a| == 1
    ensures a == {x}
  {
    CardLe({x}, a);
    assert a == {x} + (a - {x});
  }

  lemma {:induction false} HoldsIs(s: State, t: Tid)
    requires ThreadOk(s, t)
    ensures HoldsRead(At(s, t)) ==> t in s.readers && t !in s.waking
    ensures HoldsWrite(At(s, t)) ==> s.writer == Some(t) || s.transit == Some(t)
    ensures Anchored(At(s, t)) ==> HoldsRead(At(s, t)) || HoldsWrite(At(s, t))
    ensures s.keeper == Some(t) <==> IsKeeper(At(s, t))
  {
  }

  lemma {:induction false} ReaderFacts(s: State, t: Tid)
    requires Inv(s) && HoldsRead(At(s, t))
    ensures t in s.readers && t !in s.waking
    ensures s.writer == None && s.transit == None && !s.wlocked && s.count >= 1
    ensures SplitPc(KeeperPc(s)) ==> s.count >= 2
    ensures KeeperPc(s).Cut? ==> s.keeper == Some(t)
  {
    assert ThreadOk(s, t);
    HoldsIs(s, t);
    if SplitPc(KeeperPc(s)) {
      GrantedCount(s, t);
    } else {
      CardLe({t}, s.readers);
    }
    if KeeperPc(s).Cut? {
      assert ThreadOk(s, s.keeper.value);
      HoldsIs(s, s.keeper.value);
    }
  }

  lemma {:induction false} NoReaders(s: State)
    requires CountOk(s) && s.readers == {}
    ensures !SplitPc(KeeperPc(s)) && s.count == 0
  {
  }

  lemma {:induction false} WriterFacts(s: State, t: Tid)
    requires Inv(s) && HoldsWrite(At(s, t))
    ensures s.readers == {} && s.count == 0 && s.wlocked
    ensures s.keeper == None || s.keeper == Some(t)
    ensures (s.writer == Some(t) && s.transit == None) || (s.transit == Some(t) && s.writer == None)
    ensures s.keeper == None ==> s.queue == s.phys
    ensures forall u :: Anchored(At(s, u)) ==> u == t
    ensures !SplitPc(KeeperPc(s))
  {
    assert ThreadOk(s, t);
    HoldsIs(s, t);
    NoReaders(s);
    forall u | Anchored(At(s, u))
      ensures u == t
    {
      assert ThreadOk(s, u);
      HoldsIs(s, u);
    }
    if s.keeper.Some? {
      assert ThreadOk(s, s.keeper.value);
      HoldsIs(s, s.keeper.value);
    }
  }

  /** The last reader, with no split under way. */
  lemma {:induction false} SoleReader(s: State, t: Tid)
    requires Inv(s) && HoldsRead(At(s, t)) && s.count == 1
    ensures s.readers == {t} && !SplitPc(KeeperPc(s))
    ensures forall u :: Anchored(At(s, u)) ==> u == t
    ensures !At(s, t).Cut? ==> s.keeper == None && s.queue == s.phys
  {
    ReaderFacts(s, t);
    CardOne(s.readers, t);
    forall u | Anchored(At(s, u))
      ensures u == t
    {
      assert ThreadOk(s, u);
      HoldsIs(s, u);
    }
    if s.keeper.Some? {
      assert ThreadOk(s, s.keeper.value);
    }
  }

  /** Whoever is anchored has waiters on the chain. */
  lemma {:induction false} AnchoredPhys(s: State, u: Tid)
    requires ThreadOk(s, u) && KeeperOk(s) && Anchored(At(s, u))
    ensures s.phys != [] && s.queue != []
  {
    PrivateThreads(s);
    var p := At(s, u);
    if p.UpWalk? || p.UpLink? || p.DownWalk? {
      assert p.cur in Threads(s.phys);
    }
    if s.phys != [] {
      LastIn(s.phys);
    }
  }

  /** Changing one thread's program counter changes no other's. */
  lemma {:induction false} KeeperPcKept(s: State, s': State, t: Tid)
    requires ThreadsOk(s) && s'.keeper == s.keeper && !IsKeeper(At(s, t))
    requires forall u :: u != t ==> At(s', u) == At(s, u)
    ensures KeeperPc(s') == KeeperPc(s)
  {
    assert ThreadOk(s, t);
  }

  lemma {:induction false} WakersKept(s: State, s': State, t: Tid)
    requires WakersOk(s) && s'.waking == s.waking
    requires !WakerPc(At(s, t)) || WakerPc(At(s', t))
    requires forall u :: u != t ==> At(s', u) == At(s, u)
    ensures WakersOk(s')
  {
  }

  lemma {:induction false} CountKept(s: State, s': State)
    requires CountOk(s) && KeeperPc(s') == KeeperPc(s) && s'.keeper == s.keeper
    requires s'.unfair == s.unfair && s'.wlocked == s.wlocked && s'.count == s.count
    requires s'.readers == s.readers && s'.writer == s.writer && s'.transit == s.transit
    requires s.keeper.Some? && SplitPc(KeeperPc(s)) ==>
      GrantedBy(s', s.keeper.value) == GrantedBy(s, s.keeper.value)
    ensures CountOk(s')
  {
  }

  lemma {:induction false} MovedThreads(s: State, s': State, t: Tid, p': Pc)
    requires ThreadsOk(s) && s' == To(s, t, p') && ThreadOk(s', t)
    ensures ThreadsOk(s')
  {
    OthersBut(s, s', t);
  }

  /** A step that moves only `t`'s program counter, between states of the same standing. */
  lemma {:induction false} MovedGood(s: State, s': State, t: Tid, p': Pc)
    requires Inv(s) && s' == To(s, t, p')
    requires !IsKeeper(At(s, t)) && !IsKeeper(p')
    requires !WakerPc(At(s, t)) || WakerPc(p')
    requires ThreadOk(s', t)
    ensures Kept(s, Quiet, s')
  {
    KeeperPcKept(s, s', t);
    WakersKept(s, s', t);
    ChainKept(s, s');
    CountKept(s, s');
    MovedThreads(s, s', t, p');
  }

  /** Same standing: what it holds, where it is queued, and what it will do next. */
  predicate SameStanding(p: Pc, p': Pc) {
    && HoldsRead(p') == HoldsRead(p) && HoldsWrite(p') == HoldsWrite(p) && ContOf(p') == ContOf(p)
    && !IsKeeper(p) && !IsKeeper(p') && !p'.Fault? && !p.Idle?
  }

  lemma {:induction false} StandingOk(s: State, s': State, t: Tid, p': Pc)
    requires ThreadOk(s, t) && s' == To(s, t, p') && SameStanding(At(s, t), p')
    requires s.transit == Some(t) ==> p'.Scan? && p'.excl
    requires AnchorOk(s, t, p')
    ensures ThreadOk(s', t)
  {
  }

  lemma {:induction false} StandingGood(s: State, s': State, t: Tid, p': Pc)
    requires Inv(s) && s' == To(s, t, p') && SameStanding(At(s, t), p')
    requires s.transit == Some(t) ==> p'.Scan? && p'.excl
    requires AnchorOk(s, t, p')
    requires !WakerPc(At(s, t)) || WakerPc(p')
    ensures Kept(s, Quiet, s')
  {
    assert ThreadOk(s, t);
    StandingOk(s, s', t, p');
    MovedGood(s, s', t, p');
  }

  // ---------- acquiring ----------

  lemma {:induction false} GrantCount(s: State, s': State, t: Tid)
    requires CountOk(s) && KeeperPc(s') == KeeperPc(s) && s'.keeper == s.keeper
    requires s'.unfair == s.unfair && s'.wlocked == s.wlocked && s'.count == s.count + 1
    requires s'.readers == s.readers + {t} && t !in s.readers
    requires s'.writer == s.writer && s'.transit == s.transit && s'.waking == s.waking
    ensures CountOk(s')
  {
    assert s.keeper.Some? ==> GrantedBy(s', s.keeper.value) == GrantedBy(s, s.keeper.value);
  }

  /** With no waiter on the chain and a fair lock, no one waits at all. */
  lemma {:induction false} EmptyChain(s: State)
    requires ChainOk(s) && s.waitq == NIL
    ensures s.phys == [] && !KeeperPc(s).Cut?
    ensures !SplitPc(KeeperPc(s)) ==> s.queue == []
  {
    PhysEmpty(s);
  }

  lemma {:induction false} ReadGrantThreads(s: State, s': State, t: Tid)
    requires ThreadsOk(s) && KeeperOk(s) && At(s, t).Idle? && t < NIL
    requires s.phys == [] || s.unfair
    requires s' == To(s, t, Reading).(count := s.count + 1, readers := s.readers + {t})
    ensures ThreadsOk(s')
  {
    assert ThreadOk(s, t);
    Free(s, t);
    forall u | u != t && Anchored(At(s, u))
      ensures AnchorKept(s, s', u)
    {
      assert ThreadOk(s, u);
      AnchoredPhys(s, u);
    }
    assert ThreadOk(s', t);
    OthersBut(s, s', t);
  }

  lemma {:induction false} ReadGrantGood(s: State, s': State, t: Tid)
    requires Inv(s) && At(s, t).Idle? && t < NIL && !s.wlocked && (s.waitq == NIL || s.unfair)
    requires s' == To(s, t, Reading).(count := s.count + 1, readers := s.readers + {t})
    ensures Kept(s, ReadGranted(t), s')
  {
    assert ThreadOk(s, t);
    Free(s, t);
    KeeperPcKept(s, s', t);
    WakersKept(s, s', t);
    if s.waitq == NIL {
      EmptyChain(s);
    }
    GrantCount(s, s', t);
    ChainKept(s, s');
    ReadGrantThreads(s, s', t);
  }

  lemma {:induction false} WriteGrantGood(s: State, s': State, t: Tid)
    requires Inv(s) && At(s, t).Idle? && t < NIL && !s.wlocked && s.count == 0 && s.waitq == NIL
    requires s' == To(s, t, Writing).(wlocked := true, writer := Some(t))
    ensures Kept(s, WriteGranted(t), s')
  {
    assert s.phys == [] && s.readers == {} && s.queue == [] by {
      EmptyChain(s);
      if SplitPc(KeeperPc(s)) {
        GrantedCount(s, t);
      }
    }
    assert t !in Linked(s) by {
      assert ThreadOk(s, t);
      Free(s, t);
    }
    KeeperPcKept(s, s', t);
    WakersKept(s, s', t);
    NoReaders(s);
    assert ChainOk(s') by { ChainKept(s, s'); }
    WriteGrantThreads(s, s', t);
  }

  lemma {:induction false} WriteGrantThreads(s: State, s': State, t: Tid)
    requires ThreadsOk(s) && KeeperOk(s) && At(s, t).Idle? && t < NIL
    requires s.phys == [] && s.writer == None && s.transit == None && s.readers == {}
    requires s' == To(s, t, Writing).(wlocked := true, writer := Some(t))
    ensures ThreadsOk(s')
  {
    assert ThreadOk(s, t);
    Free(s, t);
    forall u
      ensures !Anchored(At(s, u))
    {
      assert ThreadOk(s, u);
      if Anchored(At(s, u)) {
        AnchoredPhys(s, u);
      }
    }
    OthersBut(s, s', t);
  }

  lemma {:induction false} PushOther(s: State, s': State, r: Req, u: Tid)
    requires ThreadOk(s, u) && KeeperOk(s) && u != r.t && r.t !in Threads(s.queue) && r.t !in Threads(s.phys)
    requires s' == To(s, r.t, Asleep(r.mode))
                     .(next := s.next[r.t := s.waitq], tag := s.tag[r.t := r.mode], waitq := r.t,
                       queue := [r] + s.queue, phys := [r] + s.phys)
    ensures SameFor(s, s', u)
    ensures Anchored(At(s, u)) ==> AnchorKept(s, s', u)
  {
    Pushed(s.queue, r);
    if Anchored(At(s, u)) {
      Pushed(s.phys, r);
      AnchoredPhys(s, u);
    }
  }

  lemma {:induction false} PushThreads(s: State, s': State, t: Tid, m: Mode)
    requires ThreadsOk(s) && KeeperOk(s) && At(s, t).Idle? && t < NIL
    requires s' == To(s, t, Asleep(m)).(next := s.next[t := s.waitq], tag := s.tag[t := m], waitq := t,
                     queue := [Req(t, m)] + s.queue, phys := [Req(t, m)] + s.phys)
    ensures ThreadsOk(s')
  {
    assert ThreadOk(s, t);
    Free(s, t);
    PrivateThreads(s);
    assert ThreadOk(s', t) by {
      Pushed(s.queue, Req(t, m));
    }
    forall u | u != t
      ensures SameFor(s, s', u) && (Anchored(At(s, u)) ==> AnchorKept(s, s', u))
    {
      assert ThreadOk(s, u);
      PushOther(s, s', Req(t, m), u);
    }
    OthersBut(s, s', t);
  }

  /** Whoever is not granted finds the lock held. */
  lemma {:induction false} PushIsDue(s: State, m: Mode)
    requires Sound(LockOf(s)) && CountOk(s) && ChainOk(s) && m != Upgrade
    requires !(m == Shared && !s.wlocked && (s.waitq == NIL || s.unfair))
    requires !(m == Exclusive && !s.wlocked && s.count == 0 && s.waitq == NIL)
    ensures !Unheld(LockOf(s))
    ensures m == Shared ==> s.writer != None || s.transit.Some? || (s.queue != [] && !s.unfair)
  {
    PhysEmpty(s);
    PrivateThreads(s);
    if s.phys != [] {
      LastIn(s.phys);
    }
    if s.readers == {} {
      NoReaders(s);
    }
  }

  lemma {:induction false} PushGood(s: State, s': State, t: Tid, m: Mode)
    requires Inv(s) && At(s, t).Idle? && t < NIL && m != Upgrade
    requires !(m == Shared && !s.wlocked && (s.waitq == NIL || s.unfair))
    requires !(m == Exclusive && !s.wlocked && s.count == 0 && s.waitq == NIL)
    requires s' == To(s, t, Asleep(m)).(next := s.next[t := s.waitq], tag := s.tag[t := m], waitq := t,
                     queue := [Req(t, m)] + s.queue, phys := [Req(t, m)] + s.phys)
    ensures Kept(s, Queued(Req(t, m)), s')
  {
    assert t !in Linked(s) by {
      assert ThreadOk(s, t);
      Free(s, t);
    }
    KeeperPcKept(s, s', t);
    WakersKept(s, s', t);
    assert CountOk(s') by { CountKept(s, s'); }
    assert Step(LockOf(s), Queued(Req(t, m)), LockOf(s')) by { PushIsDue(s, m); }
    assert ChainOk(s') by { PushedChain(s, s', t, m); }
    PushThreads(s, s', t, m);
  }

  function LockEvent(s: State, t: Tid, m: Mode, try: bool): Event {
    if m == Shared && !s.wlocked && (s.waitq == NIL || s.unfair) then ReadGranted(t)
    else if m == Exclusive && !s.wlocked && s.count == 0 && s.waitq == NIL then WriteGranted(t)
    else if try then Quiet
    else Queued(Req(t, m))
  }

  lemma {:induction false} LockGood(s: State, s': State, t: Tid, m: Mode, try: bool)
    requires Inv(s) && Can(s, Action.Lock(t, m, try)) && s' == TryOrPush(s, t, m, try)
    ensures Kept(s, LockEvent(s, t, m, try), s')
  {
    match LockEvent(s, t, m, try)
    case ReadGranted(_) => ReadGrantGood(s, s', t);
    case WriteGranted(_) => WriteGrantGood(s, s', t);
    case Quiet =>
    case Queued(_) => PushGood(s, s', t, m);
  }

  lemma {:induction false} ResumeThreads(s: State, s': State, t: Tid)
    requires ThreadsOk(s) && At(s, t).Asleep? && t in s.signalled && s' == ResumeOf(s, t)
    ensures ThreadsOk(s')
  {
    assert ThreadOk(s, t);
    assert ThreadOk(s', t);
    OthersBut(s, s', t);
  }

  lemma {:induction false} ResumeGood(s: State, s': State, t: Tid)
    requires Inv(s) && Can(s, Resume(t)) && s' == ResumeOf(s, t)
    ensures Kept(s, Quiet, s')
  {
    KeeperPcKept(s, s', t);
    WakersKept(s, s', t);
    CountKept(s, s');
    ChainKept(s, s');
    ResumeThreads(s, s', t);
  }
}
