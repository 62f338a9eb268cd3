/** What holds of every run of threads over any number of 2-byte mutexes. */
module Mutex2bRuns {
  import opened Base
  import opened Mutex2b

  function Last<T>(q: seq<T>): T
    requires q != []
  {
    q[|q| - 1]
  }

  predicate Releasing(p: Pc, m: Mid) {
    || (p.Unlock? && p.m == m) || (p.UnlockWalk? && p.m == m) || (p.UnlockSwap? && p.m == m)
    || (p.HandOver? && p.m == m)
  }

  predicate LinkOk(s: State, m: Mid, i: nat)
    requires 1 <= i < |Line(s, m)|
  {
    var q := Line(s, m);
    Next(s, q[i]) == q[i - 1] && At(s, q[i]) == Blocked(m) && q[i] !in s.signalled
  }

  /** From the word, the links lead over exactly the mutex's waiters, newest first, to its owner. */
  predicate LineOk(s: State, m: Mid) {
    var q := Line(s, m);
    && Distinct(q) && (forall i :: 0 <= i < |q| ==> q[i] < NIL)
    && Word(s, m) == (if q == [] then NIL else Last(q))
    && (forall i :: 1 <= i < |q| ==> LinkOk(s, m, i))
    && (q != [] ==> (q[0], m) in s.has || Releasing(At(s, q[0]), m) || At(s, q[0]) == Blocked(m))
  }

  /** Who came to own the mutex, and who waits, are those who arrived, in order. */
  predicate OrderOk(s: State, m: Mid) {
    var q := Line(s, m);
    if q == [] then Arrived(s, m) == Owned(s, m)
    else Arrived(s, m) == Owned(s, m) + q[1..] && Owned(s, m) != [] && Last(Owned(s, m)) == q[0]
  }

  predicate HasOk(s: State, t: Tid, m: Mid) {
    (t, m) in s.has ==>
      && Line(s, m) != [] && Line(s, m)[0] == t
      && !Releasing(At(s, t), m) && At(s, t) != Blocked(m)
  }

  predicate FoundOk(s: State, m: Mid, found: Option<Tid>) {
    found.Some? ==> |Line(s, m)| >= 2 && found.value == Line(s, m)[1]
  }

  predicate Owns(s: State, t: Tid, m: Mid) {
    Line(s, m) != [] && Line(s, m)[0] == t
  }

  predicate ThreadOk(s: State, t: Tid) {
    var p := At(s, t);
    && (t >= NIL ==> p.Idle?)
    && (t in s.signalled ==> p.Blocked? && Owns(s, t, p.m))
    && match p
       case Idle => true
       case Lock(m) => t !in Line(s, m)
       case LockSwap(m, seen) => t !in Line(s, m) && Next(s, t) == seen
       case Blocked(m) =>
         && t in Line(s, m)
         && (Owns(s, t, m) && t !in s.signalled ==> m in s.waker && At(s, s.waker[m]) == Wake(m, t))
       case Unlock(m, found) => Owns(s, t, m) && FoundOk(s, m, found)
       case UnlockWalk(m, seen, cur) => Owns(s, t, m) && seen != t && cur in Line(s, m)[1..]
       case UnlockSwap(m, seen, found) =>
         Owns(s, t, m) && FoundOk(s, m, found) && (seen == t <==> found == None)
       case HandOver(m, heir) => Owns(s, t, m) && FoundOk(s, m, Some(heir))
       case Wake(m, heir) =>
         && Owns(s, heir, m) && At(s, heir) == Blocked(m) && heir !in s.signalled
         && m in s.waker && s.waker[m] == t
       case Fault => false
  }

  ghost predicate Inv(s: State) {
    && (forall m :: LineOk(s, m) && OrderOk(s, m))
    && (forall t :: ThreadOk(s, t))
    && (forall t, m :: HasOk(s, t, m))
  }

  /** The mutex `n` when nothing about it changes. */
  predicate SameLine(s: State, s': State, n: Mid) {
    && Line(s', n) == Line(s, n) && Word(s', n) == Word(s, n)
    && Arrived(s', n) == Arrived(s, n) && Owned(s', n) == Owned(s, n)
    && (forall i :: 1 <= i < |Line(s, n)| ==> LinkOk(s, n, i) ==> LinkOk(s', n, i))
    && (Line(s, n) != [] ==>
          var o := Line(s, n)[0];
          ((o, n) in s.has ==> (o, n) in s'.has || Releasing(At(s', o), n) || At(s', o) == Blocked(n))
          && (At(s, o) == Blocked(n) ==> At(s', o) == Blocked(n) || (o, n) in s'.has)
          && (Releasing(At(s, o), n) ==> Releasing(At(s', o), n)))
  }

  lemma {:induction false} SameLineOk(s: State, s': State, n: Mid)
    requires LineOk(s, n) && OrderOk(s, n) && SameLine(s, s', n)
    ensures LineOk(s', n) && OrderOk(s', n)
  {
  }

  /** A step of one thread that moves no line: the rest of the invariant follows from its own part. */
  lemma {:induction false} MovedInv(s: State, s': State, t: Tid, p': Pc)
    requires Inv(s) && s' == To(s, t, p').(next := s'.next)
    requires forall u :: u != t ==> Next(s', u) == Next(s, u)
    requires !At(s, t).Blocked? && !p'.Blocked? && !At(s, t).Wake? && !p'.Wake?
    requires forall m :: Releasing(At(s, t), m) <==> Releasing(p', m)
    requires ThreadOk(s', t)
    ensures Inv(s')
  {
    forall m
      ensures LineOk(s', m) && OrderOk(s', m)
    {
      assert LineOk(s, m) && OrderOk(s, m);
      forall i | 1 <= i < |Line(s, m)| && LinkOk(s, m, i)
        ensures LinkOk(s', m, i)
      {
      }
      SameLineOk(s, s', m);
    }
    forall u
      ensures ThreadOk(s', u)
    {
      assert ThreadOk(s, u);
    }
    forall u, m
      ensures HasOk(s', u, m)
    {
      assert HasOk(s, u, m);
    }
  }

  lemma {:induction false} InvAt(s: State, t: Tid, m: Mid)
    requires Inv(s)
    ensures LineOk(s, m) && OrderOk(s, m) && ThreadOk(s, t) && HasOk(s, t, m)
  {
  }

  /** A thread that neither has the mutex nor is busy with it is not in its line. */
  lemma {:induction false} NotInLine(s: State, t: Tid, m: Mid)
    requires Inv(s) && At(s, t).Idle? && (t, m) !in s.has
    ensures t !in Line(s, m)
  {
    InvAt(s, t, m);
    if t in Line(s, m) {
      var i :| 0 <= i < |Line(s, m)| && Line(s, m)[i] == t;
      if i > 0 {
        BehindBlocked(s, m, i);
      }
    }
  }

  lemma {:induction false} BehindBlocked(s: State, m: Mid, i: nat)
    requires LineOk(s, m) && 1 <= i < |Line(s, m)|
    ensures At(s, Line(s, m)[i]) == Blocked(m)
  {
    assert LinkOk(s, m, i);
  }

  // ---------- locking ----------

  lemma {:induction false} PushLine(s: State, s': State, t: Tid, m: Mid)
    requires LineOk(s, m) && t !in Line(s, m) && t < NIL && t !in s.signalled
    requires Word(s, m) != NIL ==> Next(s, t) == Word(s, m)
    requires s' == Pushed(s, t, m)
    ensures LineOk(s', m)
  {
    var q := Line(s, m);
    assert Line(s', m) == q + [t];
    forall i | 1 <= i < |q + [t]|
      ensures LinkOk(s', m, i)
    {
      if i < |q| {
        assert LinkOk(s, m, i);
      }
    }
  }

  lemma {:induction false} PushOrder(s: State, s': State, t: Tid, m: Mid)
    requires OrderOk(s, m) && Word(s, m) == (if Line(s, m) == [] then NIL else Last(Line(s, m)))
    requires forall x :: x in Line(s, m) ==> x < NIL
    requires s' == Pushed(s, t, m)
    ensures OrderOk(s', m)
  {
    var q := Line(s, m);
    if q != [] {
      assert q[|q| - 1] in q;
      assert (q + [t])[1..] == q[1..] + [t];
      assert Owned(s', m) + (q + [t])[1..] == Arrived(s, m) + [t];
    }
  }

  lemma {:induction false} PushOther(s: State, s': State, t: Tid, m: Mid, n: Mid)
    requires LineOk(s, n) && OrderOk(s, n) && n != m && s' == Pushed(s, t, m)
    requires At(s, t).Idle? || At(s, t).LockSwap?
    ensures LineOk(s', n) && OrderOk(s', n)
  {
    forall i | 1 <= i < |Line(s, n)| && LinkOk(s, n, i)
      ensures LinkOk(s', n, i)
    {
    }
    SameLineOk(s, s', n);
  }

  lemma {:induction false} PushSelf(s: State, s': State, t: Tid, m: Mid)
    requires s' == Pushed(s, t, m) && t !in s.signalled && t < NIL && t !in Line(s, m)
    requires Word(s, m) == NIL <==> Line(s, m) == []
    ensures ThreadOk(s', t)
  {
    assert Line(s', m) == Line(s, m) + [t];
  }

  lemma {:induction false} PushThread(s: State, s': State, t: Tid, m: Mid, u: Tid)
    requires ThreadOk(s, u) && s' == Pushed(s, t, m) && u != t
    requires At(s, t).Idle? || At(s, t).LockSwap?
    ensures ThreadOk(s', u)
  {
    var q := Line(s, m);
    assert Line(s', m) == q + [t];
    assert q != [] ==> (q + [t])[1..] == q[1..] + [t];
  }

  lemma {:induction false} PushHas(s: State, s': State, t: Tid, m: Mid, u: Tid, n: Mid)
    requires HasOk(s, u, n) && LineOk(s, m) && s' == Pushed(s, t, m) && t !in Line(s, m)
    requires At(s, t).Idle? || At(s, t).LockSwap?
    ensures HasOk(s', u, n)
  {
  }

  lemma {:induction false} PushInv(s: State, s': State, t: Tid, m: Mid)
    requires Inv(s) && t !in Line(s, m) && t < NIL
    requires At(s, t).Idle? || At(s, t).LockSwap?
    requires Word(s, m) != NIL ==> Next(s, t) == Word(s, m)
    requires s' == Pushed(s, t, m)
    ensures Inv(s')
  {
    InvAt(s, t, m);
    PushLine(s, s', t, m);
    PushOrder(s, s', t, m);
    forall n
      ensures LineOk(s', n) && OrderOk(s', n)
    {
      if n != m {
        InvAt(s, t, n);
        PushOther(s, s', t, m, n);
      }
    }
    forall u
      ensures ThreadOk(s', u)
    {
      assert ThreadOk(s, u);
      if u == t {
        PushSelf(s, s', t, m);
      } else {
        PushThread(s, s', t, m, u);
      }
    }
    forall u, n
      ensures HasOk(s', u, n)
    {
      assert HasOk(s, u, n);
      PushHas(s, s', t, m, u, n);
    }
  }

  lemma {:induction false} TryLockInv(s: State, s': State, t: Tid, m: Mid)
    requires Inv(s) && Can(s, TryLock(t, m)) && s' == TryLockOf(s, t, m)
    ensures Inv(s')
  {
    if Word(s, m) == NIL {
      NotInLine(s, t, m);
      PushInv(s, s', t, m);
    }
  }

  lemma {:induction false} StartLockInv(s: State, s': State, t: Tid, m: Mid)
    requires Inv(s) && Can(s, StartLock(t, m)) && s' == To(s, t, Lock(m))
    ensures Inv(s')
  {
    NotInLine(s, t, m);
    InvAt(s, t, m);
    MovedInv(s, s', t, Lock(m));
  }

  lemma {:induction false} SetNextInv(s: State, s': State, t: Tid)
    requires Inv(s) && Can(s, SetNext(t)) && s' == SetNextOf(s, t)
    ensures Inv(s')
  {
    var m := At(s, t).m;
    InvAt(s, t, m);
    MovedInv(s, s', t, LockSwap(m, Word(s, m)));
  }

  lemma {:induction false} SwapLockInv(s: State, s': State, t: Tid)
    requires Inv(s) && Can(s, SwapLock(t)) && s' == SwapLockOf(s, t)
    ensures Inv(s')
  {
    var p := At(s, t);
    InvAt(s, t, p.m);
    if Word(s, p.m) != p.seen {
      MovedInv(s, s', t, Lock(p.m));
    } else {
      PushInv(s, s', t, p.m);
    }
  }

  /** The heir returns from its wait; `has` now says that it owns the mutex. */
  lemma {:induction false} ResumeInv(s: State, s': State, t: Tid)
    requires Inv(s) && Can(s, Resume(t)) && s' == ResumeOf(s, t)
    ensures Inv(s')
  {
    var m := At(s, t).m;
    InvAt(s, t, m);
    forall n
      ensures LineOk(s', n) && OrderOk(s', n)
    {
      InvAt(s, t, n);
      forall i | 1 <= i < |Line(s, n)| && LinkOk(s, n, i)
        ensures LinkOk(s', n, i)
      {
      }
      SameLineOk(s, s', n);
    }
    forall u
      ensures ThreadOk(s', u)
    {
      assert ThreadOk(s, u);
    }
    forall u, n
      ensures HasOk(s', u, n)
    {
      assert HasOk(s, u, n);
    }
  }

  // ---------- unlocking ----------

  lemma {:induction false} StartUnlockInv(s: State, s': State, t: Tid, m: Mid)
    requires Inv(s) && Can(s, StartUnlock(t, m))
    requires s' == To(s, t, Unlock(m, None)).(has := s.has - {(t, m)})
    ensures Inv(s')
  {
    InvAt(s, t, m);
    forall n
      ensures LineOk(s', n) && OrderOk(s', n)
    {
      InvAt(s, t, n);
      forall i | 1 <= i < |Line(s, n)| && LinkOk(s, n, i)
        ensures LinkOk(s', n, i)
      {
      }
      SameLineOk(s, s', n);
    }
    forall u
      ensures ThreadOk(s', u)
    {
      assert ThreadOk(s, u);
    }
    forall u, n
      ensures HasOk(s', u, n)
    {
      assert HasOk(s, u, n);
    }
  }

  lemma {:induction false} ReadWordInv(s: State, s': State, t: Tid)
    requires Inv(s) && Can(s, ReadWord(t)) && s' == ReadWordOf(s, t)
    ensures Inv(s')
  {
    var p := At(s, t);
    InvAt(s, t, p.m);
    MovedInv(s, s', t, At(s', t));
  }

  /** The walk meets the heir, who is the oldest waiter, or another waiter that is nearer to it. */
  lemma {:induction false} WalkStep(s: State, t: Tid, m: Mid, i: nat)
    requires LineOk(s, m) && Owns(s, t, m) && 1 <= i < |Line(s, m)|
    ensures var n := Next(s, Line(s, m)[i]);
      (n == t <==> i == 1) && (i > 1 ==> n == Line(s, m)[i - 1] && n != NIL)
  {
    assert LinkOk(s, m, i);
  }

  lemma {:induction false} StepWalkInv(s: State, s': State, t: Tid)
    requires Inv(s) && Can(s, StepWalk(t)) && s' == StepWalkOf(s, t)
    ensures Inv(s')
  {
    var p := At(s, t);
    InvAt(s, t, p.m);
    var j :| 0 <= j < |Line(s, p.m)| - 1 && Line(s, p.m)[1..][j] == p.cur;
    WalkStep(s, t, p.m, j + 1);
    if j > 0 {
      assert Line(s, p.m)[1..][j - 1] == Next(s, p.cur);
    }
    MovedInv(s, s', t, At(s', t));
  }

  lemma {:induction false} FreeInv(s: State, s': State, t: Tid, m: Mid)
    requires Inv(s) && Releasing(At(s, t), m) && Line(s, m) == [t]
    requires s' == To(s, t, Idle).(word := s.word[m := NIL], line := s.line[m := []])
    ensures Inv(s')
  {
    InvAt(s, t, m);
    forall n
      ensures LineOk(s', n) && OrderOk(s', n)
    {
      InvAt(s, t, n);
      forall i | 1 <= i < |Line(s, n)| && LinkOk(s, n, i)
        ensures n != m ==> LinkOk(s', n, i)
      {
      }
      if n != m {
        SameLineOk(s, s', n);
      }
    }
    forall u
      ensures ThreadOk(s', u)
    {
      assert ThreadOk(s, u);
    }
    forall u, n
      ensures HasOk(s', u, n)
    {
      assert HasOk(s, u, n);
    }
  }

  lemma {:induction false} SwapUnlockInv(s: State, s': State, t: Tid)
    requires Inv(s) && Can(s, SwapUnlock(t)) && s' == SwapUnlockOf(s, t)
    ensures Inv(s')
  {
    var p := At(s, t);
    InvAt(s, t, p.m);
    if |Line(s, p.m)| >= 2 {
      assert LinkOk(s, p.m, 1);
    }
    if p.seen == t && Word(s, p.m) == p.seen {
      assert Line(s, p.m) == [t];
      FreeInv(s, s', t, p.m);
    } else {
      MovedInv(s, s', t, At(s', t));
    }
  }

  lemma {:induction false} HeirLine(s: State, s': State, t: Tid, m: Mid, heir: Tid)
    requires LineOk(s, m) && OrderOk(s, m) && At(s, t) == HandOver(m, heir) && FoundOk(s, m, Some(heir))
    requires Owns(s, t, m) && s' == ClearNextOf(s, t)
    ensures LineOk(s', m) && OrderOk(s', m)
  {
    var q := Line(s, m);
    assert LinkOk(s, m, 1);
    forall i | 1 <= i < |q| - 1
      ensures LinkOk(s', m, i)
    {
      assert LinkOk(s, m, i + 1);
    }
    assert q[1..] == [heir] + q[2..];
    assert q[1..][1..] == q[2..];
    assert Owned(s', m) + q[2..] == Owned(s, m) + q[1..];
  }

  lemma {:induction false} HeirOther(s: State, s': State, t: Tid, m: Mid, heir: Tid, n: Mid)
    requires LineOk(s, n) && OrderOk(s, n) && n != m && At(s, t) == HandOver(m, heir)
    requires At(s, heir) == Blocked(m) && s' == ClearNextOf(s, t)
    ensures LineOk(s', n) && OrderOk(s', n)
  {
    forall i | 1 <= i < |Line(s, n)| && LinkOk(s, n, i)
      ensures LinkOk(s', n, i)
    {
    }
    SameLineOk(s, s', n);
  }

  lemma {:induction false} HeirThread(s: State, s': State, t: Tid, m: Mid, heir: Tid, u: Tid)
    requires ThreadOk(s, u) && At(s, t) == HandOver(m, heir) && u != t
    requires Owns(s, t, m) && |Line(s, m)| >= 2 && Line(s, m)[1] == heir
    requires At(s, heir) == Blocked(m) && heir !in s.signalled && s' == ClearNextOf(s, t)
    ensures ThreadOk(s', u)
  {
    var q := Line(s, m);
    assert q == [q[0]] + q[1..];
  }

  lemma {:induction false} HeirSelf(s: State, s': State, t: Tid, m: Mid, heir: Tid)
    requires ThreadOk(s, t) && At(s, t) == HandOver(m, heir) && heir != t
    requires At(s, heir) == Blocked(m) && heir !in s.signalled && s' == ClearNextOf(s, t)
    ensures ThreadOk(s', t)
  {
  }

  lemma {:induction false} ClearNextInv(s: State, s': State, t: Tid)
    requires Inv(s) && Can(s, ClearNext(t)) && s' == ClearNextOf(s, t)
    ensures Inv(s')
  {
    var m, heir := At(s, t).m, At(s, t).heir;
    InvAt(s, t, m);
    assert LinkOk(s, m, 1);
    HeirLine(s, s', t, m, heir);
    forall n
      ensures LineOk(s', n) && OrderOk(s', n)
    {
      if n != m {
        InvAt(s, t, n);
        HeirOther(s, s', t, m, heir, n);
      }
    }
    forall u
      ensures ThreadOk(s', u)
    {
      assert ThreadOk(s, u);
      if u == t {
        HeirSelf(s, s', t, m, heir);
      } else {
        HeirThread(s, s', t, m, heir, u);
      }
    }
    forall u, n
      ensures HasOk(s', u, n)
    {
      assert HasOk(s, u, n);
    }
  }

  lemma {:induction false} SignalInv(s: State, s': State, t: Tid)
    requires Inv(s) && Can(s, Signal(t))
    requires s' == To(s, t, Idle).(signalled := s.signalled + {At(s, t).heir})
    ensures Inv(s')
  {
    var m, heir := At(s, t).m, At(s, t).heir;
    InvAt(s, t, m);
    forall n
      ensures LineOk(s', n) && OrderOk(s', n)
    {
      InvAt(s, t, n);
      forall i | 1 <= i < |Line(s, n)| && LinkOk(s, n, i)
        ensures LinkOk(s', n, i)
      {
      }
      SameLineOk(s, s', n);
    }
    forall u
      ensures ThreadOk(s', u)
    {
      assert ThreadOk(s, u);
    }
    forall u, n
      ensures HasOk(s', u, n)
    {
      assert HasOk(s, u, n);
    }
  }

  // ---------- runs ----------

  lemma {:induction false} StepInv(s: State, a: Action, s': State)
    requires Inv(s) && Can(s, a) && s' == Do(s, a)
    ensures Inv(s')
  {
    match a
    case TryLock(t, m) => TryLockInv(s, s', t, m);
    case StartLock(t, m) => StartLockInv(s, s', t, m);
    case SetNext(t) => SetNextInv(s, s', t);
    case SwapLock(t) => SwapLockInv(s, s', t);
    case Resume(t) => ResumeInv(s, s', t);
    case StartUnlock(t, m) => StartUnlockInv(s, s', t, m);
    case ReadWord(t) => ReadWordInv(s, s', t);
    case StepWalk(t) => StepWalkInv(s, s', t);
    case SwapUnlock(t) => SwapUnlockInv(s, s', t);
    case ClearNext(t) => ClearNextInv(s, s', t);
    case Signal(t) => SignalInv(s, s', t);
  }

  lemma {:induction false} RunInv(ss: seq<State>, acts: seq<Action>, k: nat)
    requires Run(ss, acts) && k < |ss|
    ensures Inv(ss[k])
  {
    if k > 0 {
      RunInv(ss, acts, k - 1);
      StepInv(ss[k - 1], acts[k - 1], ss[k]);
    }
  }

  /** No assertion of the source fails, and two callers never have the same mutex. */
  lemma {:induction false} Exclusion(ss: seq<State>, acts: seq<Action>, k: nat, t: Tid, u: Tid, m: Mid)
    requires Run(ss, acts) && k < |ss|
    ensures !At(ss[k], t).Fault?
    ensures (t, m) in ss[k].has && (u, m) in ss[k].has ==> t == u
    ensures (t, m) in ss[k].has ==> !Releasing(At(ss[k], u), m)
  {
    RunInv(ss, acts, k);
    InvAt(ss[k], t, m);
    InvAt(ss[k], u, m);
  }

  /** The links from the word spell the waiters, newest first, and end in the owner. */
  lemma {:induction false} WordLeadsToOwner(ss: seq<State>, acts: seq<Action>, k: nat, m: Mid)
    requires Run(ss, acts) && k < |ss| && Line(ss[k], m) != []
    ensures var s, q := ss[k], Line(ss[k], m);
      && Word(s, m) == q[|q| - 1]
      && forall i :: 1 <= i < |q| ==> LinkOk(s, m, i)
  {
    RunInv(ss, acts, k);
    InvAt(ss[k], 0, m);
  }

  /** One `next` link per thread is enough: no thread waits for two mutexes. */
  lemma {:induction false} WaitersApart(ss: seq<State>, acts: seq<Action>, k: nat, m: Mid, n: Mid, i: nat, j: nat)
    requires Run(ss, acts) && k < |ss| && 1 <= i < |Line(ss[k], m)| && 1 <= j < |Line(ss[k], n)|
    requires Line(ss[k], m)[i] == Line(ss[k], n)[j]
    ensures m == n && i == j
  {
    RunInv(ss, acts, k);
    InvAt(ss[k], 0, m);
    InvAt(ss[k], 0, n);
    BehindBlocked(ss[k], m, i);
    BehindBlocked(ss[k], n, j);
  }

  /** Threads come to own a mutex in the order in which they arrived at it. */
  lemma {:induction false} HandOverIsFifo(ss: seq<State>, acts: seq<Action>, k: nat, m: Mid)
    requires Run(ss, acts) && k < |ss|
    ensures Owned(ss[k], m) <= Arrived(ss[k], m)
    ensures var q := Line(ss[k], m);
      Arrived(ss[k], m)[|Owned(ss[k], m)|..] == if q == [] then [] else q[1..]
    ensures Line(ss[k], m) != [] ==> Owned(ss[k], m) != [] && Line(ss[k], m)[0] == Last(Owned(ss[k], m))
  {
    RunInv(ss, acts, k);
    InvAt(ss[k], 0, m);
  }

  /** A blocked thread waits in line, or owns the mutex and has been or is being signalled. */
  lemma {:induction false} SleeperIsKept(ss: seq<State>, acts: seq<Action>, k: nat, t: Tid, m: Mid)
    requires Run(ss, acts) && k < |ss| && At(ss[k], t) == Blocked(m)
    ensures var s := ss[k];
      && t in Line(s, m)
      && (Line(s, m)[0] == t ==> t in s.signalled || exists u :: At(s, u) == Wake(m, t))
  {
    RunInv(ss, acts, k);
    InvAt(ss[k], t, m);
  }

  // ---------- the walk as a loop ----------

  predicate Linked(next: seq<nat>, q: seq<Tid>) {
    && (forall i :: 0 <= i < |q| ==> q[i] < |next| <= NIL)
    && (forall i :: 1 <= i < |q| ==> next[q[i]] == q[i - 1])
  }

  /** From the newest waiter the walk ends, at the oldest: the one whose link is the owner. */
  method FindOldestWaiter(ghost q: seq<Tid>, next: array<nat>, waitq: nat, owner: nat) returns (waiter: nat)
    requires |q| >= 2 && Distinct(q) && Linked(next[..], q)
    requires owner == q[0] && waitq == q[|q| - 1]
    ensures waiter == q[1] && next[waiter] == owner
  {
    waiter := waitq;
    ghost var i := |q| - 1;
    while waiter != NIL && next[waiter] != owner
      invariant 1 <= i < |q| && waiter == q[i]
      decreases i
    {
      assert next[q[i]] == q[i - 1];
      waiter := next[waiter];
      i := i - 1;
    }
    assert next[q[i]] == q[i - 1];
  }
}
