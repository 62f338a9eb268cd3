/** How many steps a call of the 4-byte reader-writer lock takes that no other thread disturbs. */
module RwLockAlone {
  import opened Base
  import opened RwSpec
  import opened RwLock
  import opened RwLockInv
  import opened RwLockChain
  import opened RwLockSteps
  import opened RwLockCalls
  import RwLockHandOver
  import RwLockRelease
  import RwLockRest
  import RwLockRuns

  /** Those whom the thread has yet to signal. */
  function Owed(w: map<Tid, Tid>, t: Tid): set<Tid> {
    set x | x in w && w[x] == t
  }

  function Owes(w: map<Tid, Tid>, t: Tid): nat {
    |Owed(w, t)|
  }

  function Where(q: seq<Req>, x: Tid): (i: nat)
    ensures i <= |q| && (x in Threads(q) ==> i < |q| && q[i].t == x)
  {
    if q == [] || q[0].t == x then 0 else 1 + Where(q[1..], x)
  }

  /** How many waiters a walk has yet to pass, with the one it has reached. */
  function Ahead(s: State, cur: Tid): nat {
    |s.phys| - Where(s.phys, cur)
  }

  /** The word is as it was when the thread read it, or the link it is to set is still free. */
  predicate Fits(s: State, p: Pc) {
    match p
    case Cut(excl, _, r, o, _, _) => s.count == r && s.waitq == o && s.wlocked == excl
    case ReinsertSwap(_, _, _, r, o, _) => s.count == r && s.waitq == o
    case ReinsertWalk(_, _, _, r, o, _) => s.count == r && s.waitq == o
    case ReinsertLink(_, _, _, r, o, _) => s.count == r && s.waitq == o
    case UpLink(cur) => Next(s, cur) == NIL
    case _ => true
  }

  function AheadOf(s: State, p: Pc): nat {
    if Reached(p).Some? then Ahead(s, Reached(p).value) else 0
  }

  /**
   * The steps from `p` on with `n` signals to send, `q` waiters of which `f` hang on the word, `m` of them
   * ahead of a walk, and a swap to come that fits or is lost already.
   */
  function Cost(p: Pc, n: nat, q: nat, f: nat, m: nat, fits: bool, signalled: bool): nat {
    match p
    case Asleep(_) => if signalled then 1 else 0
    case Wake(_) => n + 2
    case ReinsertSwap(_, back, _, _, _, _) => n + if fits then 3 else if back == [] then 5 else f + 7
    case Reinsert(_, back, _) => n + if back == [] then 4 else f + 6
    case ReinsertWalk(_, _, _, _, _, _) => n + m + if fits then 4 else f + 7
    case ReinsertLink(_, _, _, _, _, _) => n + if fits then 4 else 6
    case Split(_, _) => n + f + 7
    case UnfairDown(_) => n + q + 9
    case Cut(_, _, _, _, taken, whole) => n + if fits then |taken| + 3 else if whole then q + 5 else |taken| + 4
    case Scan(_, _) => n + q + 4
    case TryUpgrade(_) => n + q + 5
    case UnfairLook(_) => n + q + 10
    case Unlock(_, _) => n + q + 11
    case UpLink(_) => n + q + if fits then 13 else f + 15
    case UpWalk(_) => n + q + 13 + m
    case UpStart => n + q + f + 14
    case DownWalk(_) => n + q + 12 + m
    case _ => 0
  }

  /** The steps a call still takes when only its thread steps. */
  function Left(s: State, t: Tid): nat {
    var p := At(s, t);
    Cost(p, Owes(s.waking, t), |s.queue|, |s.phys|, AheadOf(s, p), Fits(s, p), t in s.signalled)
  }

  // ---------- places and numbers ----------

  lemma {:induction false} WhereIs(q: seq<Req>, i: nat)
    requires i < |q| && forall j, k :: 0 <= j < k < |q| ==> q[j].t != q[k].t
    ensures Where(q, q[i].t) == i
  {
  }

  /** One link further is one waiter less to pass. */
  lemma {:induction false} NextAhead(s: State, cur: Tid)
    requires Inv(s) && cur in Threads(s.phys)
    ensures Ahead(s, cur) >= 1
    ensures Next(s, cur) != NIL ==> Ahead(s, Next(s, cur)) == Ahead(s, cur) - 1
  {
    var i := ChainTag(s, cur);
    PhysOk(s);
    WhereIs(s.phys, i);
    if i + 1 < |s.phys| {
      WhereIs(s.phys, i + 1);
    }
  }

  lemma {:induction false} AllAhead(s: State)
    requires Spells(s, s.waitq, s.phys, NIL)
    ensures s.waitq != NIL ==> Ahead(s, s.waitq) == |s.phys|
  {
  }

  lemma {:induction false} FewThreads(q: seq<Req>)
    ensures |Threads(q)| <= |q|
  {
    if q != [] {
      var n := |q| - 1;
      FewThreads(q[..n]);
      assert Threads(q) == Threads(q[..n]) + {q[n].t};
    }
  }

  lemma {:induction false} FewMore(a: set<Tid>, b: set<Tid>, c: set<Tid>)
    requires a <= b + c
    ensures |a| <= |b| + |c|
  {
    CardLe(a, b + c);
    assert |b + c| == |b| + |c| - |b * c|;
  }

  lemma {:induction false} OwedMore(w: map<Tid, Tid>, xs: set<Tid>, t: Tid)
    ensures Owed(w + (map x | x in xs :: t), t) <= Owed(w, t) + xs
  {
  }

  lemma {:induction false} OwesMore(w: map<Tid, Tid>, q: seq<Req>, t: Tid)
    ensures Owes(w + (map x | x in Threads(q) :: t), t) <= Owes(w, t) + |q|
  {
    OwedMore(w, Threads(q), t);
    FewThreads(q);
    FewMore(Owed(w + (map x | x in Threads(q) :: t), t), Owed(w, t), Threads(q));
  }

  lemma {:induction false} OwesLess(w: map<Tid, Tid>, t: Tid, x: Tid)
    requires x in w && w[x] == t
    ensures Owes(w - {x}, t) == Owes(w, t) - 1
  {
    assert Owed(w - {x}, t) == Owed(w, t) - {x};
  }

  // ---------- each step ----------

  lemma {:induction false} UnlockLowers(s: State, t: Tid)
    requires At(s, t).Unlock?
    ensures Left(UnlockOf(s, t), t) < Left(s, t)
  {
    var p' := UnlockTo(s, t);
    UnlockCost(s, UnlockOf(s, t), t, p');
  }

  predicate AfterUnlock(p: Pc) {
    p.Fault? || p.UnfairLook? || p.Scan? || p.TryUpgrade? || p.Idle? || p.Asleep?
  }

  lemma {:induction false} UnlockTo(s: State, t: Tid) returns (p': Pc)
    requires At(s, t).Unlock?
    ensures var s' := UnlockOf(s, t);
      s'.pc == s.pc[t := p'] && s'.waking == s.waking && s'.queue == s.queue && AfterUnlock(p')
  {
    var p := At(s, t);
    p' := if (if p.excl then s.count != 0 || !s.wlocked else s.count == 0 || s.wlocked) then Fault
          else if p.excl && s.waitq != NIL then (if s.unfair then UnfairLook(p.cont) else Scan(true, p.cont))
          else if !p.excl && s.count == 1 && s.waitq != NIL then
            (if s.unfair then TryUpgrade(p.cont) else Scan(false, p.cont))
          else After(p.cont);
  }

  lemma {:induction false} UnlockCost(s: State, s': State, t: Tid, p': Pc)
    requires At(s, t).Unlock? && At(s', t) == p' && AfterUnlock(p') && s'.waking == s.waking && s'.queue == s.queue
    ensures Left(s', t) < Left(s, t)
  {
  }

  lemma {:induction false} TryUpgradeLowers(s: State, t: Tid)
    requires At(s, t).TryUpgrade?
    ensures Left(TryUpgradeOf(s, t), t) < Left(s, t)
  {
  }

  lemma {:induction false} UnfairLookLowers(s: State, t: Tid, q: seq<Req>)
    requires At(s, t).UnfairLook?
    ensures Left(UnfairLookOf(s, t, q), t) < Left(s, t)
  {
  }

  lemma {:induction false} FewShared(q: seq<Req>)
    ensures |OnlyShared(q)| <= |q|
  {
    if q != [] {
      FewShared(q[1..]);
    }
  }

  lemma {:induction false} UnfairDownLowers(s: State, t: Tid)
    requires At(s, t).UnfairDown?
    ensures Left(UnfairDownOf(s, t, s.queue), t) < Left(s, t)
  {
    FewShared(s.queue);
    OwesMore(s.waking, OnlyShared(s.queue), t);
    if s.count == 0 && s.wlocked {
      TakenOffLeft(s, t, At(s, t).cont);
    }
  }

  lemma {:induction false} TakenOffLeft(s: State, t: Tid, c: Cont)
    ensures Left(TakenOff(s, t, c, s.queue), t)
         == Owes(s.waking + (map x | x in Threads(OnlyShared(s.queue)) :: t), t) + 7
  {
  }

  lemma {:induction false} ScanLowers(s: State, t: Tid)
    requires At(s, t).Scan?
    ensures Left(ScanOf(s, t, s.queue), t) < Left(s, t)
  {
    var s' := ScanOf(s, t, s.queue);
    var p' := ScanTo(s, t, s.queue);
    ScanCost(s, s', t, p');
  }

  lemma {:induction false} ScanTo(s: State, t: Tid, q: seq<Req>) returns (p': Pc)
    requires At(s, t).Scan?
    ensures var s' := ScanOf(s, t, q);
      && s'.pc == s.pc[t := p'] && s'.waking == s.waking && s'.signalled == s.signalled && Fits(s', p')
    ensures p'.Fault? || p'.Idle? || p'.Asleep? || (p'.Cut? && |p'.taken| <= |q|)
  {
    var p := At(s, t);
    if q == [] || (if p.excl then s.count != 0 || !s.wlocked else s.count == 0 || s.wlocked) {
      p' := Fault;
    } else if !p.excl && s.count > 1 {
      p' := After(p.cont);
    } else {
      var k := |q| - FairServed(q);
      p' := Cut(p.excl, p.cont, s.count, s.waitq, q[k..], k == 0);
    }
  }

  lemma {:induction false} ScanCost(s: State, s': State, t: Tid, p': Pc)
    requires At(s, t).Scan? && At(s', t) == p' && s'.waking == s.waking && Fits(s', p')
    requires p'.Fault? || p'.Idle? || p'.Asleep? || (p'.Cut? && |p'.taken| <= |s.queue|)
    ensures Left(s', t) < Left(s, t)
  {
  }

  lemma {:induction false} SwapCutLowers(s: State, t: Tid)
    requires At(s, t).Cut? && s.wlocked == At(s, t).excl
    ensures Left(SwapCutOf(s, t), t) < Left(s, t)
  {
    var p := At(s, t);
    if p.taken != [] {
      if Fits(s, p) {
        HandedLeft(s, t, p);
      } else {
        LostCutLeft(s, t, p);
      }
    }
  }

  lemma {:induction false} HandedLeft(s: State, t: Tid, p: Pc)
    requires p.Cut? && p.taken != []
    ensures Left(HandedTo(s, t, p), t) <= Owes(s.waking, t) + |p.taken| + 2
  {
    OwesMore(s.waking, p.taken, t);
  }

  lemma {:induction false} LostCutLeft(s: State, t: Tid, p: Pc)
    requires p == At(s, t) && p.Cut? && s.wlocked == p.excl && !Fits(s, p) && p.taken != []
    ensures Left(SwapCutOf(s, t), t) < Left(s, t)
  {
    var s' := SwapCutOf(s, t);
    assert At(s', t) == if p.whole then Scan(p.excl, p.cont)
                        else Cut(p.excl, p.cont, s.count, s.waitq, p.taken, false);
  }

  lemma {:induction false} SplitLowers(s: State, t: Tid)
    requires At(s, t).Split?
    ensures Left(SplitOf(s, t), t) < Left(s, t)
  {
  }

  lemma {:induction false} ReinsertLowers(s: State, t: Tid)
    requires At(s, t).Reinsert? && (s.waitq != NIL ==> Ahead(s, s.waitq) == |s.phys|)
    ensures Left(ReinsertOf(s, t), t) < Left(s, t)
  {
    var p := At(s, t);
    if p.back != [] && s.waitq != NIL {
      StartWalkLowers(s, t);
    }
  }

  lemma {:induction false} StartWalkLowers(s: State, t: Tid)
    requires At(s, t).Reinsert? && At(s, t).back != [] && s.waitq != NIL && Ahead(s, s.waitq) == |s.phys|
    ensures Left(ReinsertOf(s, t), t) < Left(s, t)
  {
    var p := At(s, t);
    var p' := ReinsertWalk(p.cont, p.back, p.count, s.count, s.waitq, s.waitq);
    assert ReinsertOf(s, t) == To(s, t, p');
    assert AheadOf(To(s, t, p'), p') == |s.phys|;
  }

  /** What a step of putting back leaves alone, but for where the thread is. */
  predicate Beside(s: State, s': State) {
    s'.waking == s.waking && s'.count == s.count && s'.waitq == s.waitq && s'.signalled == s.signalled
  }

  lemma {:induction false} StepReinsertLowers(s: State, t: Tid)
    requires At(s, t).ReinsertWalk?
    requires var cur := At(s, t).cur;
      Ahead(s, cur) >= 1 && (Next(s, cur) != NIL ==> Ahead(s, Next(s, cur)) == Ahead(s, cur) - 1)
    ensures Left(StepReinsertOf(s, t), t) < Left(s, t)
  {
    var p' := StepReinsertTo(s, t);
    StepReinsertCost(s, StepReinsertOf(s, t), t, At(s, t), p');
  }

  predicate PutsBack(s: State, p: Pc, s': State, p': Pc)
    requires p.ReinsertWalk?
  {
    || p'.Fault?
    || p' == ReinsertSwap(p.cont, [], p.count, p.oldR, p.oldQ, p.oldQ)
    || (s'.phys == s.phys
        && (|| (Next(s, p.cur) != NIL && p' == ReinsertWalk(p.cont, p.back, p.count, p.oldR, p.oldQ, Next(s, p.cur)))
            || p' == ReinsertLink(p.cont, p.back, p.count, p.oldR, p.oldQ, p.cur)
            || (p.back != [] && p' == ReinsertSwap(p.cont, p.back, p.count, p.oldR, p.oldQ, p.back[0].t))))
  }

  lemma {:induction false} StepReinsertTo(s: State, t: Tid) returns (p': Pc)
    requires At(s, t).ReinsertWalk?
    ensures var s' := StepReinsertOf(s, t);
      Beside(s, s') && s'.pc == s.pc[t := p'] && PutsBack(s, At(s, t), s', p')
  {
    var p := At(s, t);
    var n := Next(s, p.cur);
    if p.back == [] || (n != NIL && Tag(s, n) == Upgrade && Next(s, n) != NIL)
       || (n == NIL && Tag(s, p.cur) == Upgrade && p.oldQ != p.cur) {
      p' := Fault;
    } else if n != NIL {
      p' := if Tag(s, n) == Upgrade then ReinsertSwap(p.cont, [], p.count, p.oldR, p.oldQ, p.oldQ)
            else ReinsertWalk(p.cont, p.back, p.count, p.oldR, p.oldQ, n);
    } else {
      p' := if Tag(s, p.cur) == Upgrade then ReinsertSwap(p.cont, p.back, p.count, p.oldR, p.oldQ, p.back[0].t)
            else ReinsertLink(p.cont, p.back, p.count, p.oldR, p.oldQ, p.cur);
    }
  }

  lemma {:induction false} StepReinsertCost(s: State, s': State, t: Tid, p: Pc, p': Pc)
    requires p == At(s, t) && p.ReinsertWalk? && At(s', t) == p' && Beside(s, s') && PutsBack(s, p, s', p')
    requires Ahead(s, p.cur) >= 1 && (Next(s, p.cur) != NIL ==> Ahead(s, Next(s, p.cur)) == Ahead(s, p.cur) - 1)
    ensures Left(s', t) < Left(s, t)
  {
    if p'.ReinsertWalk? {
      assert AheadOf(s', p') == Ahead(s, Next(s, p.cur));
    }
  }

  lemma {:induction false} LinkReinsertLowers(s: State, t: Tid)
    requires At(s, t).ReinsertLink?
    ensures Left(LinkReinsertOf(s, t), t) < Left(s, t)
  {
    var p := At(s, t);
    var n := Next(s, p.cur);
    if p.back != [] && (n == NIL || (Next(s, n) == NIL && Tag(s, n) == Upgrade)) {
      var next := if n == NIL then s.next[p.cur := p.back[0].t]
                  else s.next[Last(p.back).t := n][p.cur := p.back[0].t];
      assert LinkReinsertOf(s, t) == Spliced(s, t, p, next);
      SplicedLeft(s, t, p, next);
    } else {
      assert At(LinkReinsertOf(s, t), t) == Fault;
    }
  }

  lemma {:induction false} SplicedLeft(s: State, t: Tid, p: Pc, next: map<Tid, nat>)
    requires p.ReinsertLink?
    ensures Left(Spliced(s, t, p, next), t) == Owes(s.waking, t) + if Fits(s, p) then 3 else 5
  {
  }

  lemma {:induction false} SwapReinsertLowers(s: State, t: Tid)
    requires At(s, t).ReinsertSwap?
    ensures Left(SwapReinsertOf(s, t), t) < Left(s, t)
  {
  }

  lemma {:induction false} SignalLowers(s: State, t: Tid, x: Tid)
    requires Can(s, Signal(t, x))
    ensures Left(SignalOf(s, x), t) < Left(s, t)
  {
    OwesLess(s.waking, t, x);
  }

  lemma {:induction false} BeginUpWalkLowers(s: State, t: Tid)
    requires At(s, t).UpStart? && (s.waitq != NIL ==> Ahead(s, s.waitq) == |s.phys|)
    ensures Left(BeginUpWalkOf(s, t), t) < Left(s, t)
  {
  }

  lemma {:induction false} StepUpWalkLowers(s: State, t: Tid)
    requires At(s, t).UpWalk?
    requires var cur := At(s, t).cur;
      Ahead(s, cur) >= 1 && (Next(s, cur) != NIL ==> Ahead(s, Next(s, cur)) == Ahead(s, cur) - 1)
    ensures Left(StepUpWalkOf(s, t), t) < Left(s, t)
  {
    var cur := At(s, t).cur;
    if Next(s, cur) != NIL && Tag(s, cur) != Upgrade {
      assert StepUpWalkOf(s, t) == To(s, t, UpWalk(Next(s, cur)));
    } else if Next(s, cur) == NIL && Tag(s, cur) != Upgrade {
      assert StepUpWalkOf(s, t) == To(s, t, UpLink(cur));
    }
  }

  lemma {:induction false} LinkUpgradeLowers(s: State, t: Tid)
    requires At(s, t).UpLink?
    ensures Left(LinkUpgradeOf(s, t), t) < Left(s, t)
  {
  }

  lemma {:induction false} StepDownWalkLowers(s: State, t: Tid)
    requires At(s, t).DownWalk?
    requires var cur := At(s, t).cur;
      Ahead(s, cur) >= 1 && (Next(s, cur) != NIL ==> Ahead(s, Next(s, cur)) == Ahead(s, cur) - 1)
    ensures Left(StepDownWalkOf(s, t), t) < Left(s, t)
  {
  }

  lemma {:induction false} EndLowers(s: State, a: Action)
    requires Can(s, a) && (a.WakeDone? || a.Resume?)
    ensures Left(Do(s, a), a.t) < Left(s, a.t)
  {
  }

  /** A walk reads the queue. */
  lemma {:induction false} LooksAt(s: State, t: Tid, q: seq<Req>)
    requires Inv(s) && RwLockRest.Looks(At(s, t)) && Reads(s, q)
    ensures q == s.queue
  {
    assert ThreadOk(s, t);
    if At(s, t).Scan? {
      RwLockRelease.ScanFacts(s, t);
    } else {
      WriterFacts(s, t);
    }
    RwLockRelease.WalkReadsQueue(s, q);
  }

  lemma {:induction false} ReleaseLowers(s: State, a: Action)
    requires Inv(s) && Can(s, a)
    requires a.DoUnlock? || a.DoScan? || a.SwapCut? || a.DoTryUpgrade? || a.DoUnfairLook? || a.DoUnfairDown?
    ensures Left(Do(s, a), a.t) < Left(s, a.t)
  {
    match a
    case DoUnlock(t) => UnlockLowers(s, t);
    case DoScan(t, q) =>
      LooksAt(s, t, q);
      ScanLowers(s, t);
    case SwapCut(t) =>
      RwLockHandOver.CutFacts(s, t, At(s, t));
      SwapCutLowers(s, t);
    case DoTryUpgrade(t) => TryUpgradeLowers(s, t);
    case DoUnfairLook(t, q) => UnfairLookLowers(s, t, q);
    case DoUnfairDown(t, q) =>
      LooksAt(s, t, q);
      UnfairDownLowers(s, t);
  }

  lemma {:induction false} PutBackLowers(s: State, a: Action)
    requires Inv(s) && Can(s, a)
    requires a.DoSplit? || a.DoReinsert? || a.StepReinsert? || a.LinkReinsert? || a.SwapReinsert?
    ensures Left(Do(s, a), a.t) < Left(s, a.t)
  {
    match a
    case DoSplit(t) => SplitLowers(s, t);
    case DoReinsert(t) =>
      AllAhead(s);
      ReinsertLowers(s, t);
    case StepReinsert(t) => BackWalkLowers(s, t);
    case LinkReinsert(t) => LinkReinsertLowers(s, t);
    case SwapReinsert(t) => SwapReinsertLowers(s, t);
  }

  lemma {:induction false} WalkAhead(s: State, t: Tid)
    requires Inv(s) && Reached(At(s, t)).Some?
    ensures var cur := Reached(At(s, t)).value;
      Ahead(s, cur) >= 1 && (Next(s, cur) != NIL ==> Ahead(s, Next(s, cur)) == Ahead(s, cur) - 1)
  {
    assert ThreadOk(s, t);
    NextAhead(s, Reached(At(s, t)).value);
  }

  lemma {:induction false} UpWalkLowers(s: State, t: Tid)
    requires Inv(s) && At(s, t).UpWalk?
    ensures Left(StepUpWalkOf(s, t), t) < Left(s, t)
  {
    WalkAhead(s, t);
    StepUpWalkLowers(s, t);
  }

  lemma {:induction false} DownWalkLowers(s: State, t: Tid)
    requires Inv(s) && At(s, t).DownWalk?
    ensures Left(StepDownWalkOf(s, t), t) < Left(s, t)
  {
    WalkAhead(s, t);
    StepDownWalkLowers(s, t);
  }

  lemma {:induction false} BackWalkLowers(s: State, t: Tid)
    requires Inv(s) && At(s, t).ReinsertWalk?
    ensures Left(StepReinsertOf(s, t), t) < Left(s, t)
  {
    WalkAhead(s, t);
    StepReinsertLowers(s, t);
  }

  lemma {:induction false} ModeLowers(s: State, a: Action)
    requires Inv(s) && Can(s, a)
    requires a.BeginUpWalk? || a.StepUpWalk? || a.LinkUpgrade? || a.StepDownWalk?
    ensures Left(Do(s, a), a.t) < Left(s, a.t)
  {
    match a
    case BeginUpWalk(t) =>
      AllAhead(s);
      BeginUpWalkLowers(s, t);
    case StepUpWalk(t) => UpWalkLowers(s, t);
    case LinkUpgrade(t) => LinkUpgradeLowers(s, t);
    case StepDownWalk(t) => DownWalkLowers(s, t);
  }

  lemma {:induction false} StepLowers(s: State, a: Action)
    requires Inv(s) && Can(s, a) && !Begins(a)
    ensures Left(Do(s, a), a.t) < Left(s, a.t)
  {
    if a.WakeDone? || a.Resume? {
      EndLowers(s, a);
    } else if a.Signal? {
      SignalLowers(s, a.t, a.x);
    } else if a.BeginUpWalk? || a.StepUpWalk? || a.LinkUpgrade? || a.StepDownWalk? {
      ModeLowers(s, a);
    } else if a.DoSplit? || a.DoReinsert? || a.StepReinsert? || a.LinkReinsert? || a.SwapReinsert? {
      PutBackLowers(s, a);
    } else {
      ReleaseLowers(s, a);
    }
  }

  // ---------- whole runs ----------

  predicate Alone(acts: seq<Action>, j: nat, k: nat, t: Tid)
    requires j <= k <= |acts|
  {
    forall m :: j <= m < k ==> !Begins(acts[m]) && acts[m].t == t
  }

  predicate Lower(ss: seq<State>, k: nat, t: Tid)
    requires 0 < k < |ss|
  {
    Left(ss[k], t) < Left(ss[k - 1], t)
  }

  lemma {:induction false} RunLower(ss: seq<State>, acts: seq<Action>, k: nat)
    requires RwLock.Run(ss, acts) && k < |acts| && !Begins(acts[k])
    ensures Lower(ss, k + 1, acts[k].t)
  {
    RwLockRuns.RunInv(ss, acts, k);
    StepLowers(ss[k], acts[k]);
  }

  lemma {:induction false} LowerSteps(ss: seq<State>, j: nat, k: nat, t: Tid)
    requires j <= k < |ss| && forall m :: j < m <= k ==> Lower(ss, m, t)
    ensures k - j + Left(ss[k], t) <= Left(ss[j], t)
    decreases k
  {
    if j < k {
      LowerSteps(ss, j, k - 1, t);
      assert Lower(ss, k, t);
    }
  }

  ghost predicate Lowers(ss: seq<State>, acts: seq<Action>) {
    |ss| == |acts| + 1 && forall k :: 0 <= k < |acts| && !Begins(acts[k]) ==> Lower(ss, k + 1, acts[k].t)
  }

  lemma {:induction false} RunLowers(ss: seq<State>, acts: seq<Action>)
    requires RwLock.Run(ss, acts)
    ensures Lowers(ss, acts)
  {
    forall k | 0 <= k < |acts| && !Begins(acts[k])
      ensures Lower(ss, k + 1, acts[k].t)
    {
      RunLower(ss, acts, k);
    }
  }

  lemma {:induction false} LeftFalls(ss: seq<State>, acts: seq<Action>, j: nat, k: nat, t: Tid)
    requires Lowers(ss, acts) && j <= k < |ss| && Alone(acts, j, k, t)
    ensures k - j <= Left(ss[j], t)
  {
    forall m | j < m <= k
      ensures Lower(ss, m, t)
    {
      assert Lower(ss, m - 1 + 1, acts[m - 1].t);
    }
    LowerSteps(ss, j, k, t);
  }

  lemma {:induction false} TakenFits(s: State, t: Tid)
    requires Inv(s) && At(s, t).Cut?
    ensures |At(s, t).taken| <= |s.queue|
  {
    RwLockHandOver.CutFacts(s, t, At(s, t));
  }

  lemma {:induction false} LeftBound(s: State, t: Tid)
    requires At(s, t).Cut? ==> |At(s, t).taken| <= |s.queue|
    ensures Left(s, t) <= Owes(s.waking, t) + |s.queue| + 2 * |s.phys| + 15
  {
  }

  /**
   * A call that no other thread disturbs ends or sleeps within a number of steps linear in the length of
   * the queue and of the signals its thread has to send, however its swaps had been lost before.
   */
  lemma {:induction false} EndsAlone(ss: seq<State>, acts: seq<Action>, j: nat, k: nat, t: Tid)
    requires RwLock.Run(ss, acts) && j <= k < |ss| && Alone(acts, j, k, t)
    ensures k - j <= Owes(ss[j].waking, t) + |ss[j].queue| + 2 * |ss[j].phys| + 15
  {
    RunLowers(ss, acts);
    LeftFalls(ss, acts, j, k, t);
    RwLockRuns.RunInv(ss, acts, j);
    if At(ss[j], t).Cut? {
      TakenFits(ss[j], t);
    }
    LeftBound(ss[j], t);
  }
}
