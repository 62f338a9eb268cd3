/** What holds of every run of the 4-byte reader-writer lock. */
module RwLockRuns {
  import opened Base
  import opened RwSpec
  import opened RwLock
  import opened RwLockInv
  import opened RwLockChain
  import opened RwLockSteps
  import opened RwLockRelease
  import opened RwLockHandOver
  import opened RwLockPutBack
  import opened RwLockModes

  /** What an action is to a caller of the lock. */
  function EventOf(s: State, a: Action): Event
    requires Can(s, a)
  {
    match a
    case Lock(t, m, try) => LockEvent(s, t, m, try)
    case DoUnlock(t) => UnlockEvent(s, t)
    case SwapCut(t) => CutEvent(s, t)
    case DoTryUpgrade(t) => TryUpgradeEvent(s, t)
    case DoUnfairDown(t, _) => WriteReleased(t)
    case StartUpgrade(t) => StartUpgradeEvent(s, t)
    case LinkUpgrade(t) => LinkUpgradeEvent(s, t)
    case StartDowngrade(t) => StartDowngradeEvent(s, t)
    case StepDownWalk(t) => StepDownWalkEvent(s, t)
    case _ => Quiet
  }

  predicate Plain(a: Action) {
    || a.Lock? || a.Resume? || a.StartUnlock? || a.DoUnlock? || a.DoTryUpgrade? || a.DoScan? || a.SwapCut?
  }

  predicate Unfair(a: Action) {
    || a.DoUnfairLook? || a.DoUnfairDown? || a.DoSplit? || a.DoReinsert? || a.StepReinsert?
    || a.LinkReinsert? || a.SwapReinsert?
  }

  lemma {:induction false} PlainGood(s: State, a: Action, s': State)
    requires Inv(s) && Can(s, a) && s' == Do(s, a) && Plain(a)
    ensures Kept(s, EventOf(s, a), s')
  {
    match a
    case Lock(t, m, try) => LockGood(s, s', t, m, try);
    case Resume(t) => ResumeGood(s, s', t);
    case StartUnlock(t) => StartUnlockGood(s, s', t);
    case DoUnlock(t) => UnlockGood(s, s', t);
    case DoTryUpgrade(t) => TryUpgradeGood(s, s', t);
    case DoScan(t, q) => ScanGood(s, s', t, q);
    case SwapCut(t) => SwapCutGood(s, s', t);
  }

  lemma {:induction false} UnfairGood(s: State, a: Action, s': State)
    requires Inv(s) && Can(s, a) && s' == Do(s, a) && Unfair(a)
    ensures Kept(s, EventOf(s, a), s')
  {
    match a
    case DoUnfairLook(t, q) => UnfairLookGood(s, s', t, q);
    case DoUnfairDown(t, q) => UnfairDownGood(s, s', t, q);
    case DoSplit(t) => SplitGood(s, s', t);
    case DoReinsert(t) => ReinsertGood(s, s', t);
    case StepReinsert(t) => StepReinsertGood(s, s', t);
    case LinkReinsert(t) => LinkReinsertGood(s, s', t);
    case SwapReinsert(t) => SwapReinsertGood(s, s', t);
  }

  lemma {:induction false} ModeGood(s: State, a: Action, s': State)
    requires Inv(s) && Can(s, a) && s' == Do(s, a) && !Plain(a) && !Unfair(a)
    ensures Kept(s, EventOf(s, a), s')
  {
    match a
    case Signal(t, x) => SignalGood(s, s', t, x);
    case WakeDone(t) => WakeDoneGood(s, s', t);
    case StartUpgrade(t) => StartUpgradeGood(s, s', t);
    case BeginUpWalk(t) => BeginUpWalkGood(s, s', t);
    case StepUpWalk(t) => StepUpWalkGood(s, s', t);
    case LinkUpgrade(t) => LinkUpgradeGood(s, s', t);
    case StartDowngrade(t) => StartDowngradeGood(s, s', t);
    case StepDownWalk(t) => StepDownWalkGood(s, s', t);
  }

  /** Every action keeps the invariant and is one step of the lock its callers are promised. */
  lemma {:induction false} StepGood(s: State, a: Action, s': State)
    requires Inv(s) && Can(s, a) && s' == Do(s, a)
    ensures Kept(s, EventOf(s, a), s')
  {
    if Plain(a) {
      PlainGood(s, a, s');
    } else if Unfair(a) {
      UnfairGood(s, a, s');
    } else {
      ModeGood(s, a, s');
    }
  }

  lemma {:induction false} RunInv(ss: seq<State>, acts: seq<Action>, k: nat)
    requires RwLock.Run(ss, acts) && k < |ss|
    ensures Inv(ss[k])
  {
    if k == 0 {
      InitInv(ss[0]);
    } else {
      RunInv(ss, acts, k - 1);
      StepGood(ss[k - 1], acts[k - 1], ss[k]);
      StepKeepsSound(LockOf(ss[k - 1]), EventOf(ss[k - 1], acts[k - 1]), LockOf(ss[k]));
    }
  }

  lemma {:induction false} RunStep(ss: seq<State>, acts: seq<Action>, k: nat)
    requires RwLock.Run(ss, acts) && k < |acts|
    ensures Inv(ss[k]) && Inv(ss[k + 1]) && Can(ss[k], acts[k])
    ensures Step(LockOf(ss[k]), EventOf(ss[k], acts[k]), LockOf(ss[k + 1]))
  {
    RunInv(ss, acts, k);
    RunInv(ss, acts, k + 1);
    StepGood(ss[k], acts[k], ss[k + 1]);
  }

  /** The events of a run, as its caller sees them. */
  ghost predicate Shows(ss: seq<State>, acts: seq<Action>, ls: seq<RwSpec.Lock>, es: seq<Event>) {
    && |ls| == |ss| == |acts| + 1 && |es| == |acts|
    && (forall k :: 0 <= k < |ss| ==> ls[k] == LockOf(ss[k]))
    && (forall k :: 0 <= k < |acts| ==> Can(ss[k], acts[k]) && es[k] == EventOf(ss[k], acts[k]))
  }

  /** Every run, fair or unfair, is a run of the lock its callers are promised. */
  lemma {:induction false} RunRefines(ss: seq<State>, acts: seq<Action>, ls: seq<RwSpec.Lock>, es: seq<Event>)
    requires RwLock.Run(ss, acts) && |ss| == |acts| + 1 && Shows(ss, acts, ls, es)
    ensures RwSpec.Run(ls, es)
  {
    forall k | 0 <= k < |es|
      ensures Step(ls[k], es[k], ls[k + 1])
    {
      RunStep(ss, acts, k);
    }
  }

  // ---------- safety in every reachable state ----------

  /**
   * No assertion of the source fails, writers exclude everyone, and the word tells the truth: the
   * write flag, the reader count (the readers let in by an unfair release are added when it ends),
   * and an empty queue when no one holds the lock.
   */
  lemma {:induction false} Exclusion(ss: seq<State>, acts: seq<Action>, k: nat, t: Tid, u: Tid)
    requires RwLock.Run(ss, acts) && k < |ss|
    ensures var s := ss[k];
      && !At(s, t).Fault?
      && (HoldsWrite(At(s, t)) && (HoldsWrite(At(s, u)) || HoldsRead(At(s, u))) ==> t == u)
      && (s.wlocked <==> s.writer.Some? || s.transit.Some?)
      && (!SplitPc(KeeperPc(s)) ==> s.count == |s.readers|)
      && s.count <= |s.readers|
      && (!s.wlocked && s.count == 0 ==> s.queue == [] && s.waitq == NIL)
  {
    RunInv(ss, acts, k);
    var s := ss[k];
    assert ThreadOk(s, t) && ThreadOk(s, u);
    HoldsIs(s, t);
    HoldsIs(s, u);
    if SplitPc(KeeperPc(s)) {
      GrantedCount(s, t);
    } else if !s.wlocked && s.count == 0 {
      PrivateThreads(s);
      PhysEmpty(s);
      if s.phys != [] {
        LastIn(s.phys);
      }
    }
  }

  /** Who waits while others read: never a reader of an unfair lock, nor a fair one's oldest waiter. */
  lemma {:induction false} WaitersWhileReading(ss: seq<State>, acts: seq<Action>, k: nat)
    requires RwLock.Run(ss, acts) && k < |ss| && ss[k].readers != {}
    ensures var s := ss[k];
      && s.writer == None && !OldestIs(s.queue, Shared)
      && (s.unfair ==> forall i :: 0 <= i < |s.queue| ==> s.queue[i].mode != Shared)
      && (forall i :: 0 <= i < |s.queue| && s.queue[i].mode == Upgrade ==> i == |s.queue| - 1)
  {
    RunInv(ss, acts, k);
  }

  /** A thread asleep is queued for what it asked, or has been given it and will be or was signalled. */
  lemma {:induction false} SleeperIsKept(ss: seq<State>, acts: seq<Action>, k: nat, t: Tid)
    requires RwLock.Run(ss, acts) && k < |ss| && At(ss[k], t).Asleep?
    ensures var s, m := ss[k], At(ss[k], t).mode;
      || (Req(t, m) in s.queue && t !in s.readers && s.writer != Some(t))
      || ((t in s.waking || t in s.signalled)
          && (if m == Shared then t in s.readers else s.writer == Some(t)))
  {
    RunInv(ss, acts, k);
    assert ThreadOk(ss[k], t);
  }

  /** The chain on the word, with what a release holds privately, is the queue; no walk is endless. */
  lemma {:induction false} ScanCanRead(ss: seq<State>, acts: seq<Action>, k: nat, t: Tid)
    requires RwLock.Run(ss, acts) && k < |ss|
    requires var p := At(ss[k], t); p.Scan? || p.UnfairLook? || p.UnfairDown?
    ensures Reads(ss[k], ss[k].queue) && ss[k].queue != []
    ensures forall q :: Reads(ss[k], q) ==> q == ss[k].queue
  {
    RunInv(ss, acts, k);
    var s := ss[k];
    assert ThreadOk(s, t);
    if At(s, t).Scan? {
      ScanFacts(s, t);
    } else {
      WriterFacts(s, t);
    }
    forall q | Reads(s, q)
      ensures q == s.queue
    {
      WalkReadsQueue(s, q);
    }
  }

  /** The 14-bit reader field does not overflow when fewer than 2^14 threads use the lock. */
  lemma {:induction false} CountFits(ss: seq<State>, acts: seq<Action>, k: nat, users: set<Tid>)
    requires RwLock.Run(ss, acts) && k < |ss| && |users| < 0x4000
    requires forall i :: 0 <= i < |acts| ==> acts[i].t in users
    ensures ss[k].count < 0x4000
  {
    RunInv(ss, acts, k);
    var s := ss[k];
    OnlyUsersTakePart(ss, acts, k, users);
    if SplitPc(KeeperPc(s)) {
      GrantedCount(s, 0);
    }
    CardLe(s.readers, users);
  }

  lemma {:induction false} EventParty(s: State, a: Action)
    requires Can(s, a)
    ensures Party(EventOf(s, a)) <= {a.t}
  {
  }

  lemma {:induction false} RunParties(ss: seq<State>, acts: seq<Action>, k: nat, users: set<Tid>)
    requires RwLock.Run(ss, acts) && k < |acts| && acts[k].t in users && Parties(LockOf(ss[k])) <= users
    ensures Parties(LockOf(ss[k + 1])) <= users
  {
    RunStep(ss, acts, k);
    EventParty(ss[k], acts[k]);
    StepParties(LockOf(ss[k]), EventOf(ss[k], acts[k]), LockOf(ss[k + 1]));
  }

  lemma {:induction false} OnlyUsersTakePart(ss: seq<State>, acts: seq<Action>, k: nat, users: set<Tid>)
    requires RwLock.Run(ss, acts) && k < |ss|
    requires forall i :: 0 <= i < |acts| ==> acts[i].t in users
    ensures Parties(LockOf(ss[k])) <= users
  {
    if k > 0 {
      OnlyUsersTakePart(ss, acts, k - 1, users);
      RunParties(ss, acts, k - 1, users);
    }
  }

  // ---------- upgrade and downgrade over whole runs ----------

  /** The write lock, or the read lock, stays with a thread that was given it and has not come back. */
  lemma {:induction false} OwedStays(s: State, a: Action, s': State, t: Tid)
    requires Inv(s) && Can(s, a) && s' == Do(s, a)
    requires !HoldsWrite(At(s, t)) && !HoldsRead(At(s, t))
    ensures s.writer == Some(t) ==> s'.writer == Some(t)
    ensures t in s.readers ==> t in s'.readers
  {
    StepGood(s, a, s');
    if t !in Party(EventOf(s, a)) {
      OthersKeepTheirs(LockOf(s), EventOf(s, a), LockOf(s'), t);
    } else {
      EventParty(s, a);
      assert ThreadOk(s, t);
      EventHolds(s, a);
    }
  }

  /** Who gives up a lock has it. */
  lemma {:induction false} EventHolds(s: State, a: Action)
    requires Can(s, a) && ThreadOk(s, a.t)
    ensures var e := EventOf(s, a);
      && (e.WriteReleased? || e.Downgraded? || e.HandedOver? ==> HoldsWrite(At(s, a.t)))
      && (e.ReadReleased? || e.LastReadReleased? || e.Drained? || e.Upgraded? || e.UpgradeWaits? ==>
            HoldsRead(At(s, a.t)))
      && (e.HandedOver? ==> s.transit == Some(a.t))
  {
  }

  /** The upgrading thread waits and no one writes; or it has the write lock. */
  predicate Upgrading(s: State, t: Tid) {
    (Req(t, Upgrade) in s.queue && s.writer == None) || s.writer == Some(t)
  }

  lemma {:induction false} UpgradeRunStep(s: State, a: Action, s': State, t: Tid)
    requires Inv(s) && Can(s, a) && s' == Do(s, a) && Upgrading(s, t) && !HoldsWrite(At(s, t))
    ensures Upgrading(s', t)
  {
    if s.writer == Some(t) {
      NotReader(s, t);
      OwedStays(s, a, s', t);
    } else {
      StepGood(s, a, s');
      UpgradeStep(LockOf(s), EventOf(s, a), LockOf(s'), t);
    }
  }

  lemma {:induction false} NotReader(s: State, t: Tid)
    requires Inv(s) && s.writer == Some(t)
    ensures !HoldsRead(At(s, t))
  {
    assert ThreadOk(s, t);
  }

  lemma {:induction false} UpgradeAt(ss: seq<State>, acts: seq<Action>, k: nat, t: Tid)
    requires RwLock.Run(ss, acts) && k < |acts| && Upgrading(ss[k], t) && !HoldsWrite(At(ss[k], t))
    ensures Upgrading(ss[k + 1], t)
  {
    RunInv(ss, acts, k);
    UpgradeRunStep(ss[k], acts[k], ss[k + 1], t);
  }

  lemma {:induction false} UpgradeStarts(ss: seq<State>, acts: seq<Action>, k: nat, t: Tid)
    requires RwLock.Run(ss, acts) && k < |ss| && Req(t, Upgrade) in ss[k].queue
    ensures Upgrading(ss[k], t)
  {
    RunInv(ss, acts, k);
  }

  /**
   * An upgrade is atomic: from the step that queues it until the caller is back with the write lock,
   * no other thread has the write lock.
   */
  lemma {:induction false} UpgradeAtomic(ss: seq<State>, acts: seq<Action>, i: nat, j: nat, t: Tid)
    requires RwLock.Run(ss, acts) && i <= j < |ss| && Req(t, Upgrade) in ss[i].queue
    requires forall k :: i <= k < j ==> !HoldsWrite(At(ss[k], t))
    ensures (Req(t, Upgrade) in ss[j].queue && ss[j].writer == None) || ss[j].writer == Some(t)
  {
    UpgradeStarts(ss, acts, i, t);
    forall k | i <= k < j
      ensures Upgrading(ss[k], t) ==> Upgrading(ss[k + 1], t)
    {
      if Upgrading(ss[k], t) {
        UpgradeAt(ss, acts, k, t);
      }
    }
    UpgradeLasts(ss, i, j, t);
  }

  lemma {:induction false} UpgradeLasts(ss: seq<State>, i: nat, j: nat, t: Tid)
    requires i <= j < |ss| && Upgrading(ss[i], t)
    requires forall k :: i <= k < j ==> (Upgrading(ss[k], t) ==> Upgrading(ss[k + 1], t))
    ensures Upgrading(ss[j], t)
    decreases j - i
  {
    if i < j {
      UpgradeLasts(ss, i, j - 1, t);
      assert Upgrading(ss[j - 1], t) ==> Upgrading(ss[j - 1 + 1], t);
    }
  }

  /** The downgrading thread still writes, first in line to read; or it reads. */
  predicate Downgrading(s: State, t: Tid) {
    || (s.writer == Some(t) && OldestIs(s.queue, Shared) && Last(s.queue).t == t)
    || (s.writer == None && t in s.readers)
  }

  lemma {:induction false} DowngradeStep(s: State, a: Action, s': State, t: Tid)
    requires Inv(s) && Inv(s') && Can(s, a) && s' == Do(s, a) && Downgrading(s, t)
    requires !HoldsRead(At(s, t))
    ensures Downgrading(s', t)
  {
    if s.writer == Some(t) {
      StepGood(s, a, s');
      DowngradeIsAtomic(LockOf(s), EventOf(s, a), LockOf(s'), t);
      DowngradeStaysOldest(LockOf(s), EventOf(s, a), LockOf(s'), t);
    } else {
      NotWriter(s, t);
      OwedStays(s, a, s', t);
    }
  }

  lemma {:induction false} DowngradeAt(ss: seq<State>, acts: seq<Action>, k: nat, t: Tid)
    requires RwLock.Run(ss, acts) && k < |acts| && Downgrading(ss[k], t) && !HoldsRead(At(ss[k], t))
    ensures Downgrading(ss[k + 1], t)
  {
    RunInv(ss, acts, k);
    RunInv(ss, acts, k + 1);
    DowngradeStep(ss[k], acts[k], ss[k + 1], t);
  }

  /**
   * A downgrade that finds waiters is atomic: from the step that queues it until the caller is back
   * with its read lock, no other thread has the write lock.
   */
  lemma {:induction false} DowngradeAtomic(ss: seq<State>, acts: seq<Action>, i: nat, j: nat, t: Tid)
    requires RwLock.Run(ss, acts) && i <= j < |ss|
    requires ss[i].writer == Some(t) && OldestIs(ss[i].queue, Shared) && Last(ss[i].queue).t == t
    requires forall k :: i <= k < j ==> !HoldsRead(At(ss[k], t))
    ensures Downgrading(ss[j], t)
  {
    forall k | i <= k < j
      ensures Downgrading(ss[k], t) ==> Downgrading(ss[k + 1], t)
    {
      if Downgrading(ss[k], t) {
        DowngradeAt(ss, acts, k, t);
      }
    }
    DowngradeLasts(ss, i, j, t);
  }

  lemma {:induction false} DowngradeLasts(ss: seq<State>, i: nat, j: nat, t: Tid)
    requires i <= j < |ss| && Downgrading(ss[i], t)
    requires forall k :: i <= k < j ==> (Downgrading(ss[k], t) ==> Downgrading(ss[k + 1], t))
    ensures Downgrading(ss[j], t)
    decreases j - i
  {
    if i < j {
      DowngradeLasts(ss, i, j - 1, t);
      assert Downgrading(ss[j - 1], t) ==> Downgrading(ss[j - 1 + 1], t);
    }
  }

  lemma {:induction false} NotWriter(s: State, t: Tid)
    requires Inv(s) && t in s.readers
    ensures !HoldsWrite(At(s, t))
  {
    assert ThreadOk(s, t);
  }
}
