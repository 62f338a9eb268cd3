/**
 * What the callers of the 4-byte reader-writer lock get: where each call can end, when a try is
 * refused, when an upgrade is refused, and that every walk gets on.
 */
module RwLockCalls {
  import opened Base
  import opened RwSpec
  import opened RwLock
  import opened RwLockInv
  import opened RwLockChain
  import opened RwLockSteps
  import RwLockModes
  import RwLockRuns

  // ---------- where a call can be, and how it ends ----------

  predicate Begins(a: Action) {
    a.Lock? || a.StartUnlock? || a.StartUpgrade? || a.StartDowngrade?
  }

  predicate Releasing(p: Pc) {
    p.Unlock? || p.Scan? || p.Cut? || p.TryUpgrade? || p.UnfairLook? || p.UnfairDown? || SplitPc(p) || p.Wake?
  }

  /** In the middle of a release that goes on with `c`. */
  predicate InRelease(p: Pc, c: Cont) {
    Releasing(p) && p.cont == c
  }

  /**
   * A lock call sleeps in the mode asked for and ends with the lock in that mode, or, if it is a try,
   * without it. A release ends without the lock. An upgrade ends with the write lock or, refused, with
   * the read lock it had. A downgrade ends with the read lock.
   */
  predicate Inside(c: Action, p: Pc)
    requires Begins(c)
  {
    match c
    case Lock(_, m, try) =>
      if p.Idle? then try
      else if p.Asleep? then !try && p.mode == m
      else if m == Shared then p.Reading? else p.Writing?
    case StartUnlock(_) => p.Idle? || InRelease(p, Leave)
    case StartUpgrade(_) =>
      || p.Reading? || p.Writing? || p.UpStart? || p.UpWalk? || p.UpLink? || p == Asleep(Upgrade)
      || InRelease(p, SleepAs(Upgrade))
    case StartDowngrade(_) =>
      p.Reading? || p.DownWalk? || p == Asleep(Shared) || InRelease(p, SleepAs(Shared))
  }

  /** Where a thread in the middle of a call may be after a step of its own. */
  predicate Edge(p: Pc, p': Pc) {
    match p
    case Asleep(m) => p' == if m == Shared then Reading else Writing
    case UpStart => p'.UpWalk?
    case UpWalk(_) => p'.UpWalk? || p'.UpLink? || p'.Reading?
    case UpLink(_) => p'.UpStart? || p'.Reading? || p' == Unlock(false, SleepAs(Upgrade))
    case DownWalk(_) => p'.DownWalk? || p' == Unlock(true, SleepAs(Shared))
    case _ => Releasing(p) && (InRelease(p', p.cont) || p' == After(p.cont))
  }

  lemma {:induction false} InsideStays(c: Action, p: Pc, p': Pc)
    requires Begins(c) && Inside(c, p) && Edge(p, p')
    ensures Inside(c, p')
  {
  }

  // ---------- the program counter after each step ----------

  lemma {:induction false} UnlockPc(s: State, t: Tid) returns (p': Pc)
    requires At(s, t).Unlock?
    ensures UnlockOf(s, t).pc == s.pc[t := p'] && (p'.Fault? || Edge(At(s, t), p'))
    ensures p' != At(s, t)
  {
    var p := At(s, t);
    if p.excl {
      p' := if s.count != 0 || !s.wlocked then Fault
            else if s.waitq == NIL then After(p.cont)
            else if s.unfair then UnfairLook(p.cont) else Scan(true, p.cont);
    } else {
      p' := if s.count == 0 || s.wlocked then Fault
            else if s.count != 1 || s.waitq == NIL then After(p.cont)
            else if s.unfair then TryUpgrade(p.cont) else Scan(false, p.cont);
    }
  }

  lemma {:induction false} ScanPc(s: State, t: Tid, q: seq<Req>) returns (p': Pc)
    requires At(s, t).Scan?
    ensures ScanOf(s, t, q).pc == s.pc[t := p'] && (p'.Fault? || Edge(At(s, t), p'))
    ensures p' != At(s, t)
  {
    var p := At(s, t);
    if q == [] || (if p.excl then s.count != 0 || !s.wlocked else s.count == 0 || s.wlocked) {
      p' := Fault;
    } else if !p.excl && s.count > 1 {
      p' := After(p.cont);
    } else {
      var k := |q| - FairServed(q);
      p' := Cut(p.excl, p.cont, s.count, s.waitq, q[k..], k == 0);
    }
  }

  lemma {:induction false} SwapCutPc(s: State, t: Tid) returns (p': Pc)
    requires At(s, t).Cut?
    ensures SwapCutOf(s, t).pc == s.pc[t := p'] && (p'.Fault? || Edge(At(s, t), p'))
    ensures s.wlocked == At(s, t).excl ==> p' != At(s, t)
  {
    var p := At(s, t);
    if p.taken == [] {
      p' := Fault;
    } else if s.count == p.oldR && s.waitq == p.oldQ && s.wlocked == p.excl {
      p' := Wake(p.cont);
    } else if p.whole {
      p' := Scan(p.excl, p.cont);
    } else {
      p' := Cut(p.excl, p.cont, s.count, s.waitq, p.taken, false);
    }
  }

  lemma {:induction false} TryUpgradePc(s: State, t: Tid) returns (p': Pc)
    requires At(s, t).TryUpgrade?
    ensures TryUpgradeOf(s, t).pc == s.pc[t := p'] && (p'.Fault? || Edge(At(s, t), p'))
    ensures p' != At(s, t)
  {
    var c := At(s, t).cont;
    p' := if s.count == 0 || s.wlocked then Fault else if s.count == 1 then Scan(true, c) else After(c);
  }

  lemma {:induction false} UnfairLookPc(s: State, t: Tid, q: seq<Req>) returns (p': Pc)
    requires At(s, t).UnfairLook?
    ensures UnfairLookOf(s, t, q).pc == s.pc[t := p'] && (p'.Fault? || Edge(At(s, t), p'))
    ensures p' != At(s, t)
  {
    var c := At(s, t).cont;
    p' := if q == [] then Fault else if Last(q).mode == Shared then UnfairDown(c) else Scan(true, c);
  }

  lemma {:induction false} UnfairDownPc(s: State, t: Tid, q: seq<Req>) returns (p': Pc)
    requires At(s, t).UnfairDown?
    ensures UnfairDownOf(s, t, q).pc == s.pc[t := p'] && (p'.Fault? || Edge(At(s, t), p'))
    ensures p' != At(s, t)
  {
    p' := if s.count != 0 || !s.wlocked then Fault else Split(At(s, t).cont, q);
  }

  lemma {:induction false} SplitPcs(s: State, t: Tid) returns (p': Pc)
    requires At(s, t).Split?
    ensures SplitOf(s, t).pc == s.pc[t := p'] && Edge(At(s, t), p')
    ensures p' != At(s, t)
  {
    var p := At(s, t);
    p' := Reinsert(p.cont, NotShared(p.all), |OnlyShared(p.all)|);
  }

  lemma {:induction false} ReinsertPc(s: State, t: Tid) returns (p': Pc)
    requires At(s, t).Reinsert?
    ensures ReinsertOf(s, t).pc == s.pc[t := p'] && Edge(At(s, t), p')
    ensures p' != At(s, t)
  {
    var p := At(s, t);
    if p.back == [] {
      p' := ReinsertSwap(p.cont, [], p.count, s.count, s.waitq, s.waitq);
    } else if s.waitq == NIL {
      p' := ReinsertSwap(p.cont, p.back, p.count, s.count, s.waitq, p.back[0].t);
    } else {
      p' := ReinsertWalk(p.cont, p.back, p.count, s.count, s.waitq, s.waitq);
    }
  }

  lemma {:induction false} StepReinsertPc(s: State, t: Tid) returns (p': Pc)
    requires At(s, t).ReinsertWalk?
    ensures StepReinsertOf(s, t).pc == s.pc[t := p'] && (p'.Fault? || Edge(At(s, t), p'))
    ensures p'.ReinsertWalk? ==> Next(s, At(s, t).cur) != NIL && p'.cur == Next(s, At(s, t).cur)
    ensures !p'.UpWalk? && !p'.DownWalk?
  {
    var p := At(s, t);
    var n := Next(s, p.cur);
    if p.back == [] {
      p' := Fault;
    } else if n != NIL {
      if Tag(s, n) == Upgrade {
        if Next(s, n) != NIL {
          p' := Fault;
        } else {
          p' := ReinsertSwap(p.cont, [], p.count, p.oldR, p.oldQ, p.oldQ);
        }
      } else {
        p' := ReinsertWalk(p.cont, p.back, p.count, p.oldR, p.oldQ, n);
      }
    } else if Tag(s, p.cur) == Upgrade {
      if p.oldQ != p.cur {
        p' := Fault;
      } else {
        p' := ReinsertSwap(p.cont, p.back, p.count, p.oldR, p.oldQ, p.back[0].t);
      }
    } else {
      p' := ReinsertLink(p.cont, p.back, p.count, p.oldR, p.oldQ, p.cur);
    }
  }

  lemma {:induction false} LinkReinsertPc(s: State, t: Tid) returns (p': Pc)
    requires At(s, t).ReinsertLink?
    ensures LinkReinsertOf(s, t).pc == s.pc[t := p'] && (p'.Fault? || Edge(At(s, t), p'))
    ensures p' != At(s, t)
  {
    var p := At(s, t);
    var n := Next(s, p.cur);
    if p.back == [] {
      p' := Fault;
    } else if n == NIL || (Next(s, n) == NIL && Tag(s, n) == Upgrade) {
      p' := ReinsertSwap(p.cont, [], p.count, p.oldR, p.oldQ, p.oldQ);
    } else {
      p' := Fault;
    }
  }

  lemma {:induction false} SwapReinsertPc(s: State, t: Tid) returns (p': Pc)
    requires At(s, t).ReinsertSwap?
    ensures SwapReinsertOf(s, t).pc == s.pc[t := p'] && (p'.Fault? || Edge(At(s, t), p'))
    ensures p' != At(s, t)
  {
    var p := At(s, t);
    if s.wlocked || s.count == 0 || p.count == 0 {
      p' := Fault;
    } else if s.count == p.oldR && s.waitq == p.oldQ {
      p' := Wake(p.cont);
    } else {
      p' := Reinsert(p.cont, p.back, p.count);
    }
  }

  lemma {:induction false} StepUpWalkPc(s: State, t: Tid) returns (p': Pc)
    requires At(s, t).UpWalk?
    ensures StepUpWalkOf(s, t).pc == s.pc[t := p'] && (p'.Fault? || Edge(At(s, t), p'))
    ensures var cur := At(s, t).cur;
      && (p'.UpWalk? ==> Next(s, cur) != NIL && p'.cur == Next(s, cur))
      && (p'.Reading? ==> Next(s, cur) == NIL && Tag(s, cur) == Upgrade)
      && (p'.UpLink? ==> p'.cur == cur)
      && !p'.DownWalk? && !p'.ReinsertWalk?
  {
    var cur := At(s, t).cur;
    if Next(s, cur) != NIL {
      p' := if Tag(s, cur) == Upgrade then Fault else UpWalk(Next(s, cur));
    } else {
      p' := if Tag(s, cur) == Upgrade then Reading else UpLink(cur);
    }
  }

  lemma {:induction false} LinkUpgradePc(s: State, t: Tid) returns (p': Pc)
    requires At(s, t).UpLink?
    ensures LinkUpgradeOf(s, t).pc == s.pc[t := p'] && Edge(At(s, t), p')
    ensures var cur := At(s, t).cur;
      p'.Reading? ==> Next(s, cur) != NIL && Tag(s, Next(s, cur)) == Upgrade
    ensures p' != At(s, t)
  {
    var cur := At(s, t).cur;
    p' := if Next(s, cur) == NIL then Unlock(false, SleepAs(Upgrade))
          else if Tag(s, Next(s, cur)) == Upgrade then Reading else UpStart;
  }

  lemma {:induction false} StepDownWalkPc(s: State, t: Tid) returns (p': Pc)
    requires At(s, t).DownWalk?
    ensures StepDownWalkOf(s, t).pc == s.pc[t := p'] && (p'.Fault? || Edge(At(s, t), p'))
    ensures p'.DownWalk? ==> Next(s, At(s, t).cur) != NIL && p'.cur == Next(s, At(s, t).cur)
    ensures !p'.UpWalk? && !p'.ReinsertWalk?
  {
    var cur := At(s, t).cur;
    if Next(s, cur) != NIL {
      p' := DownWalk(Next(s, cur));
    } else {
      p' := if Next(s, t) != NIL then Fault else Unlock(true, SleepAs(Shared));
    }
  }

  lemma {:induction false} ReleasePc(s: State, a: Action) returns (p': Pc)
    requires Can(s, a)
    requires a.DoUnlock? || a.DoScan? || a.SwapCut? || a.DoTryUpgrade? || a.DoUnfairLook? || a.DoUnfairDown?
    ensures Do(s, a).pc == s.pc[a.t := p'] && (p'.Fault? || Edge(At(s, a.t), p'))
  {
    match a
    case DoUnlock(t) => p' := UnlockPc(s, t);
    case DoScan(t, q) => p' := ScanPc(s, t, q);
    case SwapCut(t) => p' := SwapCutPc(s, t);
    case DoTryUpgrade(t) => p' := TryUpgradePc(s, t);
    case DoUnfairLook(t, q) => p' := UnfairLookPc(s, t, q);
    case DoUnfairDown(t, q) => p' := UnfairDownPc(s, t, q);
  }

  lemma {:induction false} PutBackPc(s: State, a: Action) returns (p': Pc)
    requires Can(s, a)
    requires a.DoSplit? || a.DoReinsert? || a.StepReinsert? || a.LinkReinsert? || a.SwapReinsert?
    ensures Do(s, a).pc == s.pc[a.t := p'] && (p'.Fault? || Edge(At(s, a.t), p'))
  {
    match a
    case DoSplit(t) => p' := SplitPcs(s, t);
    case DoReinsert(t) => p' := ReinsertPc(s, t);
    case StepReinsert(t) => p' := StepReinsertPc(s, t);
    case LinkReinsert(t) => p' := LinkReinsertPc(s, t);
    case SwapReinsert(t) => p' := SwapReinsertPc(s, t);
  }

  lemma {:induction false} WakePc(s: State, a: Action) returns (p': Pc)
    requires Can(s, a) && (a.WakeDone? || a.Resume?)
    ensures Do(s, a).pc == s.pc[a.t := p'] && Edge(At(s, a.t), p')
    ensures p' != At(s, a.t)
  {
    p' := if a.WakeDone? then After(At(s, a.t).cont) else if At(s, a.t).mode == Shared then Reading else Writing;
  }

  lemma {:induction false} StepPc(s: State, a: Action) returns (p': Pc)
    requires Can(s, a) && !Begins(a) && !a.Signal?
    ensures Do(s, a).pc == s.pc[a.t := p'] && (p'.Fault? || Edge(At(s, a.t), p'))
    ensures a.BeginUpWalk? ==> !p'.UpStart?
  {
    match a
    case BeginUpWalk(t) => p' := if s.waitq == NIL || s.wlocked then Fault else UpWalk(s.waitq);
    case StepUpWalk(t) => p' := StepUpWalkPc(s, t);
    case LinkUpgrade(t) => p' := LinkUpgradePc(s, t);
    case StepDownWalk(t) => p' := StepDownWalkPc(s, t);
    case WakeDone(_) => p' := WakePc(s, a);
    case Resume(_) => p' := WakePc(s, a);
    case DoSplit(_) => p' := PutBackPc(s, a);
    case DoReinsert(_) => p' := PutBackPc(s, a);
    case StepReinsert(_) => p' := PutBackPc(s, a);
    case LinkReinsert(_) => p' := PutBackPc(s, a);
    case SwapReinsert(_) => p' := PutBackPc(s, a);
    case _ => p' := ReleasePc(s, a);
  }

  lemma {:induction false} LockPc(s: State, t: Tid, m: Mode, try: bool) returns (p': Pc)
    requires At(s, t).Idle? && m != Upgrade
    ensures Inside(Action.Lock(t, m, try), p')
    ensures TryOrPush(s, t, m, try).pc == (if p'.Idle? then s.pc else s.pc[t := p'])
  {
    if m == Shared && !s.wlocked && (s.waitq == NIL || s.unfair) {
      p' := Reading;
    } else if m == Exclusive && !s.wlocked && s.count == 0 && s.waitq == NIL {
      p' := Writing;
    } else {
      p' := if try then Idle else Asleep(m);
    }
  }

  lemma {:induction false} StartUpgradePc(s: State, t: Tid) returns (p': Pc)
    requires At(s, t).Reading?
    ensures StartUpgradeOf(s, t).pc == s.pc[t := p'] && (p'.Fault? || p'.UpStart? || p'.Writing? || p' == Asleep(Upgrade))
  {
    if Next(s, t) != NIL {
      p' := Fault;
    } else if s.waitq != NIL {
      p' := UpStart;
    } else {
      p' := if s.count == 1 then Writing else if s.count == 0 then Fault else Asleep(Upgrade);
    }
  }

  lemma {:induction false} StartDowngradePc(s: State, t: Tid) returns (p': Pc)
    requires At(s, t).Writing?
    ensures StartDowngradeOf(s, t).pc == s.pc[t := p'] && (p'.Fault? || p'.DownWalk? || p'.Reading?)
  {
    p' := if !s.wlocked || s.count != 0 then Fault else if s.waitq != NIL then DownWalk(s.waitq) else Reading;
  }

  lemma {:induction false} BeginPc(s: State, a: Action) returns (p': Pc)
    requires Can(s, a) && Begins(a)
    ensures Do(s, a).pc == (if p'.Idle? then s.pc else s.pc[a.t := p'])
    ensures (p'.Fault? || Inside(a, p')) && (p'.Idle? ==> At(s, a.t).Idle?)
  {
    match a
    case Lock(t, m, try) => p' := LockPc(s, t, m, try);
    case StartUnlock(t) => p' := Unlock(At(s, t).Writing?, Leave);
    case StartUpgrade(t) => p' := StartUpgradePc(s, t);
    case StartDowngrade(t) => p' := StartDowngradePc(s, t);
  }

  // ---------- calls over whole runs ----------

  /** One step, seen from the thread whose call is `c`. */
  predicate Follows(s: State, a: Action, s': State, c: Action)
    requires Begins(c)
  {
    if a.t != c.t then At(s', c.t) == At(s, c.t)
    else if Begins(a) then a == c ==> Inside(c, At(s', c.t))
    else Inside(c, At(s, c.t)) ==> Inside(c, At(s', c.t))
  }

  lemma {:induction false} MoveFollows(s: State, a: Action, s': State, c: Action, p': Pc)
    requires Begins(c) && !Begins(a) && s'.pc == s.pc[a.t := p'] && (p'.Fault? || Edge(At(s, a.t), p'))
    requires !At(s', a.t).Fault?
    ensures Follows(s, a, s', c)
  {
    if a.t == c.t && Inside(c, At(s, c.t)) {
      InsideStays(c, At(s, c.t), p');
    }
  }

  lemma {:induction false} BeginFollows(s: State, a: Action, s': State, c: Action, p': Pc)
    requires Begins(c) && Begins(a) && (p'.Fault? || Inside(a, p')) && !At(s', a.t).Fault?
    requires if p'.Idle? then s'.pc == s.pc && At(s, a.t).Idle? else s'.pc == s.pc[a.t := p']
    ensures Follows(s, a, s', c)
  {
  }

  lemma {:induction false} StepFollows(s: State, a: Action, s': State, c: Action)
    requires Can(s, a) && s' == Do(s, a) && !At(s', a.t).Fault? && Begins(c)
    ensures Follows(s, a, s', c)
  {
    if a.Signal? {
      assert s'.pc == s.pc;
      SignalFollows(s, a, s', c);
    } else if Begins(a) {
      var p' := BeginPc(s, a);
      BeginFollows(s, a, s', c, p');
    } else {
      var p' := StepPc(s, a);
      MoveFollows(s, a, s', c, p');
    }
  }

  lemma {:induction false} SignalFollows(s: State, a: Action, s': State, c: Action)
    requires Begins(c) && !Begins(a) && s'.pc == s.pc
    ensures Follows(s, a, s', c)
  {
  }

  ghost predicate History(ss: seq<State>, acts: seq<Action>, c: Action) {
    && |ss| == |acts| + 1 && Begins(c)
    && forall k :: 0 <= k < |acts| ==> Follows(ss[k], acts[k], ss[k + 1], c)
  }

  lemma {:induction false} RunHistory(ss: seq<State>, acts: seq<Action>, c: Action)
    requires RwLock.Run(ss, acts) && Begins(c)
    ensures History(ss, acts, c)
  {
    forall k | 0 <= k < |acts|
      ensures Follows(ss[k], acts[k], ss[k + 1], c)
    {
      RwLockRuns.RunInv(ss, acts, k + 1);
      assert ThreadOk(ss[k + 1], acts[k].t);
      StepFollows(ss[k], acts[k], ss[k + 1], c);
    }
  }

  /** Call `c` began at `j`, and its thread has begun no other since. */
  predicate Calling(acts: seq<Action>, j: nat, k: nat, c: Action)
    requires j < k <= |acts|
  {
    acts[j] == c && Begins(c) && forall m :: j < m < k && acts[m].t == c.t ==> !Begins(acts[m])
  }

  lemma {:induction false} CallGoesOn(ss: seq<State>, acts: seq<Action>, j: nat, k: nat, c: Action)
    requires History(ss, acts, c) && j < k < |ss| && Calling(acts, j, k, c)
    ensures Inside(c, At(ss[k], c.t))
  {
    assert Follows(ss[k - 1], acts[k - 1], ss[k], c);
    if j + 1 < k {
      CallGoesOn(ss, acts, j, k - 1, c);
    }
  }

  /** Every call stays where it belongs and ends as promised, with or without the lock. */
  lemma {:induction false} CallEnds(ss: seq<State>, acts: seq<Action>, j: nat, k: nat, c: Action)
    requires RwLock.Run(ss, acts) && j < k < |ss| && Calling(acts, j, k, c)
    ensures Inside(c, At(ss[k], c.t))
    ensures var s, p := ss[k], At(ss[k], c.t);
      && (p.Reading? ==> c.t in s.readers)
      && (p.Writing? ==> s.writer == Some(c.t))
      && (p.Idle? ==> c.t !in s.readers && s.writer != Some(c.t))
  {
    RwLockRuns.RunInv(ss, acts, k);
    assert ThreadOk(ss[k], c.t);
    RunHistory(ss, acts, c);
    CallGoesOn(ss, acts, j, k, c);
  }

  // ---------- when a lock call is granted ----------

  /** A reader may enter if no one writes and no one waits, or the lock is unfair; a writer only a free lock. */
  predicate Grantable(l: RwSpec.Lock, m: Mode) {
    if m == Shared then l.writer == None && !l.transit && (l.queue == [] || l.unfair)
    else Unheld(l) && l.queue == []
  }

  lemma {:induction false} WordTells(s: State)
    requires Inv(s)
    ensures s.wlocked <==> s.writer.Some? || s.transit.Some?
    ensures !s.unfair ==> (s.waitq == NIL <==> s.queue == [])
    ensures !s.wlocked && s.count == 0 ==> s.readers == {} && s.queue == [] && s.waitq == NIL
    ensures s.readers == {} ==> s.count == 0
    ensures s.queue == [] ==> s.waitq == NIL
  {
    PhysEmpty(s);
    PrivateThreads(s);
    if s.phys != [] {
      LastIn(s.phys);
    }
    if SplitPc(KeeperPc(s)) {
      GrantedCount(s, 0);
    }
    if s.readers == {} {
      NoReaders(s);
    }
  }

  /**
   * A lock call is granted at once if and only if the lock may be given in that mode; otherwise a try
   * leaves everything as it is, and a blocking call is queued as the newest waiter.
   */
  lemma {:induction false} LockGranted(ss: seq<State>, acts: seq<Action>, k: nat)
    requires RwLock.Run(ss, acts) && k < |acts| && acts[k].Lock?
    ensures var s, s', t, m := ss[k], ss[k + 1], acts[k].t, acts[k].mode;
      if Grantable(LockOf(s), m) then
        if m == Shared then At(s', t).Reading? && s'.readers == s.readers + {t}
        else At(s', t).Writing? && s'.writer == Some(t)
      else if acts[k].try then s' == s
      else At(s', t) == Asleep(m) && s'.queue == [Req(t, m)] + s.queue
  {
    RwLockRuns.RunInv(ss, acts, k);
    WordTells(ss[k]);
    LockStep(ss[k], acts[k].t, acts[k].mode, acts[k].try);
  }

  lemma {:induction false} LockStep(s: State, t: Tid, m: Mode, try: bool)
    requires At(s, t).Idle? && m != Upgrade
    requires s.wlocked <==> s.writer.Some? || s.transit.Some?
    requires !s.unfair ==> (s.waitq == NIL <==> s.queue == [])
    requires !s.wlocked && s.count == 0 ==> s.readers == {} && s.queue == [] && s.waitq == NIL
    requires (s.readers == {} ==> s.count == 0) && (s.queue == [] ==> s.waitq == NIL)
    ensures var s' := TryOrPush(s, t, m, try);
      if Grantable(LockOf(s), m) then
        if m == Shared then At(s', t).Reading? && s'.readers == s.readers + {t}
        else At(s', t).Writing? && s'.writer == Some(t)
      else if try then s' == s
      else At(s', t) == Asleep(m) && s'.queue == [Req(t, m)] + s.queue
  {
  }

  // ---------- when an upgrade is refused ----------

  /** A waiter on the chain has the tag it was queued with. */
  lemma {:induction false} ChainTag(s: State, cur: Tid) returns (i: nat)
    requires Inv(s) && cur in Threads(s.phys)
    ensures i < |s.phys| && s.phys[i].t == cur && Tag(s, cur) == s.phys[i].mode
    ensures Next(s, cur) == if i + 1 < |s.phys| then s.phys[i + 1].t else NIL
  {
    i := ThreadAt(s.phys, cur);
    assert LinkOk(s, s.phys, i, NIL);
  }

  lemma {:induction false} PhysInQueue(s: State, i: nat)
    requires KeeperOk(s) && i < |s.phys|
    ensures s.phys[i] in s.queue
  {
    var p := KeeperPc(s);
    if p.Split? {
      InWeave(s.phys, NotShared(p.all), i);
    } else if Reinserting(p) {
      InWeave(s.phys, p.back, i);
    }
  }

  lemma {:induction false} InWeave(p: seq<Req>, w: seq<Req>, i: nat)
    requires i < |p|
    ensures p[i] in Weave(p, w)
  {
    if UpTail(p) && i == |p| - 1 {
      assert Weave(p, w)[|p| - 1 + |w|] == p[i];
    } else {
      assert Weave(p, w)[i] == p[i];
    }
  }

  /** Another thread's upgrade is queued. */
  ghost predicate Rival(s: State, t: Tid) {
    exists u :: u != t && Req(u, Upgrade) in s.queue
  }

  lemma {:induction false} RivalAt(s: State, t: Tid, cur: Tid)
    requires Inv(s) && (At(s, t).UpWalk? || At(s, t).UpLink?) && cur in Threads(s.phys) && Tag(s, cur) == Upgrade
    ensures Rival(s, t)
  {
    var i := ChainTag(s, cur);
    PhysInQueue(s, i);
    assert s.phys[i] == Req(cur, Upgrade);
    assert cur in Threads(s.queue) by { PrivateThreads(s); }
    assert ThreadOk(s, t);
    assert cur != t;
  }

  predicate InUpgrade(p: Pc) {
    p.UpStart? || p.UpWalk? || p.UpLink?
  }

  lemma {:induction false} RefusedStep(s: State, a: Action)
    requires Inv(s) && Can(s, a) && InUpgrade(At(s, a.t)) && At(Do(s, a), a.t).Reading?
    ensures Rival(s, a.t)
  {
    var t := a.t;
    if a.StepUpWalk? {
      var p' := StepUpWalkPc(s, t);
      RwLockModes.UpWalkFacts(s, t, At(s, t).cur);
      RivalAt(s, t, At(s, t).cur);
    } else if a.LinkUpgrade? {
      var p' := LinkUpgradePc(s, t);
      RwLockModes.UpWalkFacts(s, t, At(s, t).cur);
      RivalAt(s, t, Next(s, At(s, t).cur));
    } else {
      var p' := StepPc(s, a);
    }
  }

  lemma {:induction false} JoinsAlone(s: State, t: Tid)
    requires Inv(s) && At(s, t).UpLink? && Next(s, At(s, t).cur) == NIL
    ensures !exists u :: Req(u, Upgrade) in s.queue
  {
    RwLockModes.LinkUpgradeGood(s, LinkUpgradeOf(s, t), t);
    NoUpgrade(s.queue);
  }

  lemma {:induction false} NoUpgrade(q: seq<Req>)
    requires !OldestIs(q, Upgrade) && forall i :: 0 <= i < |q| && q[i].mode == Upgrade ==> i == |q| - 1
    ensures forall u :: Req(u, Upgrade) !in q
  {
  }

  lemma {:induction false} NotQueued(q: seq<Req>, t: Tid, m: Mode)
    requires t !in Threads(q)
    ensures Req(t, m) !in q
  {
    NotIn(q, t);
  }

  /**
   * An upgrade gives up only when another upgrade is queued, and joins the queue only when none is; with
   * no one waiting it never gives up, and it gets the write lock at once when it is the only reader.
   */
  lemma {:induction false} UpgradeRefused(ss: seq<State>, acts: seq<Action>, k: nat, t: Tid)
    requires RwLock.Run(ss, acts) && k < |acts| && acts[k].t == t
    ensures InUpgrade(At(ss[k], t)) && At(ss[k + 1], t).Reading? ==> Rival(ss[k], t)
    ensures InUpgrade(At(ss[k], t)) && Req(t, Upgrade) in ss[k + 1].queue ==> !Rival(ss[k], t)
    ensures acts[k].StartUpgrade? ==> !At(ss[k + 1], t).Reading?
    ensures acts[k].StartUpgrade? ==> (At(ss[k + 1], t).Writing? <==> ss[k].readers == {t} && ss[k].queue == [])
  {
    RwLockRuns.RunInv(ss, acts, k);
    var s, a := ss[k], acts[k];
    if InUpgrade(At(s, t)) {
      if At(ss[k + 1], t).Reading? {
        RefusedStep(s, a);
      }
      if Req(t, Upgrade) in ss[k + 1].queue {
        JoinStep(s, a);
      }
    } else if a.StartUpgrade? {
      UpgradeStart(s, t);
    }
  }

  lemma {:induction false} JoinStep(s: State, a: Action)
    requires Inv(s) && Can(s, a) && InUpgrade(At(s, a.t)) && Req(a.t, Upgrade) in Do(s, a).queue
    ensures !Rival(s, a.t)
  {
    assert Req(a.t, Upgrade) !in s.queue by {
      assert ThreadOk(s, a.t);
      NotQueued(s.queue, a.t, Upgrade);
    }
    QueueGrows(s, a);
    JoinsAlone(s, a.t);
  }

  lemma {:induction false} QueueGrows(s: State, a: Action)
    requires Can(s, a) && InUpgrade(At(s, a.t)) && Do(s, a).queue != s.queue
    ensures a.LinkUpgrade? && Next(s, At(s, a.t).cur) == NIL
  {
    match a
    case LinkUpgrade(t) =>
      if Next(s, At(s, t).cur) != NIL {
        LinkQueue(s, t);
      }
    case StepUpWalk(t) => WalkQueue(s, t);
    case BeginUpWalk(t) =>
  }

  lemma {:induction false} LinkQueue(s: State, t: Tid)
    requires At(s, t).UpLink? && Next(s, At(s, t).cur) != NIL
    ensures LinkUpgradeOf(s, t).queue == s.queue
  {
  }

  lemma {:induction false} WalkQueue(s: State, t: Tid)
    requires At(s, t).UpWalk?
    ensures StepUpWalkOf(s, t).queue == s.queue
  {
  }

  lemma {:induction false} UpgradeStart(s: State, t: Tid)
    requires Inv(s) && At(s, t).Reading?
    ensures var s' := StartUpgradeOf(s, t);
      !At(s', t).Reading? && (At(s', t).Writing? <==> s.readers == {t} && s.queue == [])
  {
    var p' := StartUpgradePc(s, t);
    ReaderFacts(s, t);
    WordTells(s);
    assert ThreadOk(s, t);
    if s.waitq == NIL && s.count == 1 {
      CardOne(s.readers, t);
      PhysEmpty(s);
    }
    if s.readers == {t} {
      assert |s.readers| == 1;
    }
  }

  // ---------- walks get on ----------

  /** The waiter a walk has reached. */
  function Reached(p: Pc): Option<Tid> {
    match p
    case UpWalk(cur) => Some(cur)
    case DownWalk(cur) => Some(cur)
    case ReinsertWalk(_, _, _, _, _, cur) => Some(cur)
    case _ => None
  }

  /** Each step of a walk along the queue goes on to the next older waiter, or leaves the walk. */
  lemma {:induction false} WalkGetsOn(ss: seq<State>, acts: seq<Action>, k: nat)
    requires RwLock.Run(ss, acts) && k < |acts| && Reached(At(ss[k], acts[k].t)).Some?
    ensures var s, s', t := ss[k], ss[k + 1], acts[k].t;
      Reached(At(s', t)).Some? ==> OneOn(s, Reached(At(s, t)).value, Reached(At(s', t)).value)
  {
    RwLockRuns.RunInv(ss, acts, k);
    WalkStep(ss[k], acts[k]);
  }

  /** From `cur`, one link further is one place further. */
  ghost predicate OneOn(s: State, cur: Tid, next: Tid) {
    exists i :: 0 <= i < |s.phys| - 1 && s.phys[i].t == cur && s.phys[i + 1].t == next
  }

  lemma {:induction false} LinkIsOneOn(s: State, cur: Tid)
    requires Inv(s) && cur in Threads(s.phys) && Next(s, cur) != NIL
    ensures OneOn(s, cur, Next(s, cur))
  {
    var i := ChainTag(s, cur);
  }

  lemma {:induction false} WalkStep(s: State, a: Action)
    requires Inv(s) && Can(s, a) && Reached(At(s, a.t)).Some?
    ensures var p' := At(Do(s, a), a.t);
      Reached(p').Some? ==> OneOn(s, Reached(At(s, a.t)).value, Reached(p').value)
  {
    var t := a.t;
    assert ThreadOk(s, t);
    if Next(s, Reached(At(s, t)).value) != NIL {
      LinkIsOneOn(s, Reached(At(s, t)).value);
    }
    var p' := WalkPc(s, a);
  }

  lemma {:induction false} WalkPc(s: State, a: Action) returns (p': Pc)
    requires Can(s, a) && Reached(At(s, a.t)).Some?
    ensures Do(s, a).pc == s.pc[a.t := p']
    ensures var cur := Reached(At(s, a.t)).value;
      Reached(p').Some? ==> Next(s, cur) != NIL && Reached(p').value == Next(s, cur)
  {
    match a
    case StepUpWalk(t) => p' := StepUpWalkPc(s, t);
    case StepDownWalk(t) => p' := StepDownWalkPc(s, t);
    case StepReinsert(t) => p' := StepReinsertPc(s, t);
  }

  // ---------- no step is idle ----------

  lemma {:induction false} CutMoves(s: State, t: Tid)
    requires Inv(s) && At(s, t).Cut?
    ensures At(SwapCutOf(s, t), t) != At(s, t)
  {
    assert ThreadOk(s, t);
    if At(s, t).excl {
      WriterFacts(s, t);
    } else {
      ReaderFacts(s, t);
    }
    var p' := SwapCutPc(s, t);
  }

  lemma {:induction false} WalkMoves(s: State, a: Action)
    requires Inv(s) && Can(s, a) && Reached(At(s, a.t)).Some?
    ensures At(Do(s, a), a.t) != At(s, a.t)
  {
    WalkStep(s, a);
    PhysOk(s);
  }

  lemma {:induction false} ReleaseMoves(s: State, a: Action)
    requires Can(s, a)
    requires a.DoUnlock? || a.DoScan? || a.DoTryUpgrade? || a.DoUnfairLook? || a.DoUnfairDown?
    ensures At(Do(s, a), a.t) != At(s, a.t)
  {
    match a
    case DoUnlock(t) => var p' := UnlockPc(s, t);
    case DoScan(t, q) => var p' := ScanPc(s, t, q);
    case DoTryUpgrade(t) => var p' := TryUpgradePc(s, t);
    case DoUnfairLook(t, q) => var p' := UnfairLookPc(s, t, q);
    case DoUnfairDown(t, q) => var p' := UnfairDownPc(s, t, q);
  }

  lemma {:induction false} OtherMoves(s: State, a: Action)
    requires Can(s, a)
    requires a.DoSplit? || a.DoReinsert? || a.LinkReinsert? || a.SwapReinsert? || a.BeginUpWalk? || a.LinkUpgrade? || a.WakeDone? || a.Resume?
    ensures At(Do(s, a), a.t) != At(s, a.t)
  {
    match a
    case DoSplit(t) => var p' := SplitPcs(s, t);
    case DoReinsert(t) => var p' := ReinsertPc(s, t);
    case LinkReinsert(t) => var p' := LinkReinsertPc(s, t);
    case SwapReinsert(t) => var p' := SwapReinsertPc(s, t);
    case BeginUpWalk(t) => var p' := StepPc(s, a);
    case LinkUpgrade(t) => var p' := LinkUpgradePc(s, t);
    case WakeDone(_) => var p' := WakePc(s, a);
    case Resume(_) => var p' := WakePc(s, a);
  }

  /** Every step of a call gets its thread on. */
  lemma {:induction false} StepsMove(ss: seq<State>, acts: seq<Action>, k: nat)
    requires RwLock.Run(ss, acts) && k < |acts| && !Begins(acts[k]) && !acts[k].Signal?
    ensures At(ss[k + 1], acts[k].t) != At(ss[k], acts[k].t)
  {
    RwLockRuns.RunInv(ss, acts, k);
    OwnMoves(ss[k], acts[k]);
  }

  lemma {:induction false} OwnMoves(s: State, a: Action)
    requires Inv(s) && Can(s, a) && !Begins(a) && !a.Signal?
    ensures At(Do(s, a), a.t) != At(s, a.t)
  {
    if Reached(At(s, a.t)).Some? {
      WalkMoves(s, a);
    } else if a.SwapCut? {
      CutMoves(s, a.t);
    } else if a.DoUnlock? || a.DoScan? || a.DoTryUpgrade? || a.DoUnfairLook? || a.DoUnfairDown? {
      ReleaseMoves(s, a);
    } else {
      OtherMoves(s, a);
    }
  }
}
