/** What holds of every run of threads over many bitlocks that share a wait list. */
module BitlockRuns {
  import opened Base
  import opened Bitlock

  /** What a program counter says about lock `n`. */
  function PcOn(p: Pc, n: Lid): Pc {
    if p.Idle? || p.Fault? || p.l != n then Idle else p
  }

  function HolderPc(s: State, n: Lid): Pc {
    if n in s.holder then PcOn(At(s, s.holder[n]), n) else Idle
  }

  function ListPc(s: State, n: Lid): Pc {
    if s.listHolder.Some? then PcOn(At(s, s.listHolder.value), n) else Idle
  }

  predicate Clearing(p: Pc) {
    p.UnlockClear? || p.CvClear?
  }

  /** A signal has turned an entry into a waiter and has yet to set the wait bit. */
  predicate InSignal(p: Pc) {
    p.SigClear? || p.SigSet?
  }

  predicate PendingCv(h: Pc, q: Pc) {
    h.CvEnter? || h.CvDrop? || h.CvFind? || q.CvClear? || q.CvAppend?
  }

  predicate SignalsLast(p: Pc) {
    p.SigClear? && p.last
  }

  /** The bits of a lock against the list, the lock's holder and the thread that has the list. */
  predicate LockOk(s: State, n: Lid) {
    var b, h, q := BitsOf(s, n), HolderPc(s, n), ListPc(s, n);
    var waits, cvs := Waits(s.list, n, Wait), Waits(s.list, n, Cv);
    && (b.lock <==> n in s.holder)
    && (b.wait || waits ==> b.lock)
    && (if InSignal(h) then waits else b.wait <==> waits || q.LockAppend? || Clearing(q))
    && (Clearing(q) ==> !waits)
    && (if SignalsLast(h) then !cvs && !PendingCv(h, q) else b.cv <==> cvs || PendingCv(h, q))
  }

  predicate Holds(s: State, t: Tid, l: Lid) {
    l in s.holder && s.holder[l] == t
  }

  predicate SleepsOn(p: Pc, l: Lid) {
    p == Blocked(l) || (p.Wake? && p.l == l && p.cont.Sleep?)
  }

  predicate InList(q: seq<Entry>, t: Tid) {
    exists i :: 0 <= i < |q| && q[i].t == t
  }

  /** `h` has been given the lock by `t` and sleeps. */
  predicate Heir(s: State, t: Tid, l: Lid, h: Tid) {
    && Holds(s, h, l) && SleepsOn(At(s, h), l) && h !in s.signalled && !InList(s.list, h) && h != t
    && l in s.giver && s.giver[l] == t
  }

  predicate Promises(p: Pc, l: Lid, h: Tid) {
    || p == UnlockClear(l, h) || p == UnlockExit(l, h) || p == CvClear(l, h) || p == CvAppend(l, Some(h))
    || (p.Wake? && p.l == l && p.heir == h)
  }

  predicate SleeperOk(s: State, t: Tid, l: Lid) {
    if Holds(s, t, l) then
      && !InList(s.list, t)
      && (t !in s.signalled ==> l in s.giver && Promises(At(s, s.giver[l]), l, t))
    else t !in s.signalled && exists i :: 0 <= i < |s.list| && s.list[i].t == t && s.list[i].l == l
  }

  predicate UsesList(p: Pc) {
    || p.LockSet? || p.LockGot? || p.LockAppend? || p.UnlockFind? || p.UnlockClear? || p.UnlockExit?
    || p.CvDrop? || p.CvFind? || p.CvClear? || p.CvAppend? || p.SigMark?
  }

  /** The thread acts on a lock that it holds. */
  predicate ActsAsHolder(p: Pc) {
    || p.LockGot? || p.UnlockTry? || p.UnlockEnter? || p.UnlockFind? || p.CvSet? || p.CvEnter?
    || p.CvDrop? || p.CvFind? || p.SigEnter? || p.SigMark? || p.SigClear? || p.SigSet?
  }

  predicate ThreadOk(s: State, t: Tid) {
    var p := At(s, t);
    && !p.Fault?
    && (UsesList(p) <==> s.listHolder == Some(t))
    && (ActsAsHolder(p) ==> Holds(s, t, p.l))
    && (p.LockEnter? || p.LockSet? || p.LockAppend? ==> !Holds(s, t, p.l))
    && (p.LockAppend? ==> p.l in s.holder)
    && (p.UnlockEnter? || p.UnlockFind? || p.CvFind? ==> BitsOf(s, p.l).wait)
    && (p.SigEnter? || p.SigMark? ==> BitsOf(s, p.l).cv)
    && (p.UnlockClear? || p.UnlockExit? || p.CvClear? ==> Heir(s, t, p.l, p.heir))
    && (p.Wake? ==> Heir(s, t, p.l, p.heir))
    && (p.CvAppend? && p.found.Some? ==> Heir(s, t, p.l, p.found.value))
    && (p.UnlockClear? || p.UnlockExit? || p.CvClear? || p.CvAppend? ==> !Holds(s, t, p.l))
    && (p.Wake? && p.cont.Leave? ==> !Holds(s, t, p.l))
    && (p.Blocked? || (p.Wake? && p.cont.Sleep?) ==> SleeperOk(s, t, p.l))
    && (!(p.Blocked? || (p.Wake? && p.cont.Sleep?)) ==> !InList(s.list, t) && t !in s.signalled)
  }

  predicate HasOk(s: State, t: Tid, l: Lid) {
    && ((t, l) in s.has ==> Holds(s, t, l) && PcOn(At(s, t), l) == Idle)
    && (Holds(s, t, l) ==> (t, l) in s.has || ActsAsHolder(PcOn(At(s, t), l)) || SleepsOn(At(s, t), l))
  }

  predicate ListOk(s: State) {
    forall i, j :: 0 <= i < j < |s.list| ==> s.list[i].t != s.list[j].t
  }

  predicate EntryOk(s: State, i: nat)
    requires i < |s.list|
  {
    SleepsOn(At(s, s.list[i].t), s.list[i].l) && !Holds(s, s.list[i].t, s.list[i].l)
  }

  ghost predicate Inv(s: State) {
    && ListOk(s) && (forall i :: 0 <= i < |s.list| ==> EntryOk(s, i))
    && (forall l :: LockOk(s, l))
    && (forall t :: ThreadOk(s, t))
    && (forall t, l :: HasOk(s, t, l))
  }

  // ---------- steps that leave list and holders alone ----------

  predicate Asleep(p: Pc) {
    p.Blocked? || (p.Wake? && p.cont.Sleep?)
  }

  /** The lock `n` when nothing that concerns it changes. */
  lemma {:induction false} LockSame(s: State, s': State, n: Lid)
    requires LockOk(s, n) && BitsOf(s', n) == BitsOf(s, n)
    requires Waits(s'.list, n, Wait) == Waits(s.list, n, Wait) && Waits(s'.list, n, Cv) == Waits(s.list, n, Cv)
    requires (n in s'.holder <==> n in s.holder)
    requires HolderPc(s', n) == HolderPc(s, n) && ListPc(s', n) == ListPc(s, n)
    ensures LockOk(s', n)
  {
  }

  /** A step of `t` about lock `l`: its program counter says nothing about another lock. */
  lemma {:induction false} OtherLock(s: State, s': State, t: Tid, l: Lid, n: Lid)
    requires LockOk(s, n) && n != l && s'.pc == s.pc[t := At(s', t)]
    requires PcOn(At(s, t), n) == Idle && PcOn(At(s', t), n) == Idle
    requires BitsOf(s', n) == BitsOf(s, n)
    requires Waits(s'.list, n, Wait) == Waits(s.list, n, Wait) && Waits(s'.list, n, Cv) == Waits(s.list, n, Cv)
    requires (n in s'.holder <==> n in s.holder) && (n in s.holder ==> s'.holder[n] == s.holder[n])
    requires s'.listHolder == s.listHolder || s'.listHolder == None || s'.listHolder == Some(t)
    requires s'.listHolder != s.listHolder ==> s.listHolder == None || s.listHolder == Some(t)
    ensures LockOk(s', n)
  {
    LockSame(s, s', n);
  }

  lemma {:induction false} InvAt(s: State, t: Tid, l: Lid)
    requires Inv(s)
    ensures ThreadOk(s, t) && LockOk(s, l) && HasOk(s, t, l)
  {
  }

  predicate KeepsPromises(p: Pc, p': Pc) {
    p.UnlockClear? || p.UnlockExit? || p.CvClear? || (p.CvAppend? && p.found.Some?) ==>
      Promises(p', p.l, if p.CvAppend? then p.found.value else p.heir)
  }

  lemma {:induction false} QuietThread(s: State, s': State, t: Tid, u: Tid)
    requires ThreadOk(s, u) && u != t
    requires s' == To(s, t, At(s', t)).(bits := s'.bits, listHolder := s'.listHolder, has := s'.has)
    requires !Asleep(At(s, t)) && !At(s, t).Wake? && KeepsPromises(At(s, t), At(s', t))
    requires s'.listHolder == Some(u) <==> s.listHolder == Some(u)
    requires var p := At(s, u); ActsAsHolder(p) ==>
      (BitsOf(s, p.l).wait ==> BitsOf(s', p.l).wait) && (BitsOf(s, p.l).cv ==> BitsOf(s', p.l).cv)
    ensures ThreadOk(s', u)
  {
  }

  /** A step of `t` that changes bits of `l`, the list lock and `has` at most. */
  lemma {:induction false} QuietInv(s: State, s': State, t: Tid, l: Lid)
    requires Inv(s)
    requires s' == To(s, t, At(s', t)).(bits := s'.bits, listHolder := s'.listHolder, has := s'.has)
    requires !Asleep(At(s, t)) && !At(s, t).Wake? && KeepsPromises(At(s, t), At(s', t))
    requires (At(s, t).Idle? || (!At(s, t).Fault? && At(s, t).l == l)) && (At(s', t).Idle? || (!At(s', t).Fault? && At(s', t).l == l))
    requires forall n :: n != l ==> BitsOf(s', n) == BitsOf(s, n)
    requires s'.listHolder == s.listHolder || s'.listHolder == None || s'.listHolder == Some(t)
    requires s'.listHolder != s.listHolder ==> s.listHolder == None || s.listHolder == Some(t)
    requires forall u :: u != t && ActsAsHolder(At(s, u)) && At(s, u).l == l ==>
      (BitsOf(s, l).wait ==> BitsOf(s', l).wait) && (BitsOf(s, l).cv ==> BitsOf(s', l).cv)
    requires forall u, n :: (u, n) in s'.has <==> if u == t && n == l then (t, l) in s'.has else (u, n) in s.has
    requires ThreadOk(s', t) && LockOk(s', l) && HasOk(s', t, l)
    ensures Inv(s')
  {
    forall n
      ensures LockOk(s', n)
    {
      if n != l {
        InvAt(s, t, n);
        OtherLock(s, s', t, l, n);
      }
    }
    forall u
      ensures ThreadOk(s', u)
    {
      if u != t {
        InvAt(s, u, l);
        QuietThread(s, s', t, u);
      }
    }
    forall u, n
      ensures HasOk(s', u, n)
    {
      InvAt(s, u, n);
    }
    QuietEntries(s, s', t);
  }

  lemma {:induction false} QuietEntries(s: State, s': State, t: Tid)
    requires forall i :: 0 <= i < |s.list| ==> EntryOk(s, i)
    requires s'.pc == s.pc[t := At(s', t)] && s'.list == s.list && s'.holder == s.holder
    requires !Asleep(At(s, t))
    ensures forall i :: 0 <= i < |s'.list| ==> EntryOk(s', i)
  {
    forall i | 0 <= i < |s'.list|
      ensures EntryOk(s', i)
    {
      assert EntryOk(s, i);
    }
  }

  lemma {:induction false} EnterInv(s: State, s': State, t: Tid, l: Lid)
    requires Inv(s) && At(s, t).Idle? && (t, l) !in s.has && s' == To(s, t, LockEnter(l))
    ensures Inv(s')
  {
    InvAt(s, t, l);
    QuietInv(s, s', t, l);
  }

  lemma {:induction false} StartInv(s: State, s': State, t: Tid, l: Lid, p': Pc)
    requires Inv(s) && At(s, t).Idle? && (t, l) in s.has
    requires p' == UnlockTry(l) || p' == CvSet(l) || (p'.SigEnter? && p'.l == l && BitsOf(s, l).cv)
    requires s' == To(s, t, p').(has := s.has - {(t, l)})
    ensures Inv(s')
  {
    InvAt(s, t, l);
    QuietInv(s, s', t, l);
  }

  lemma {:induction false} TakeListInv(s: State, s': State, t: Tid)
    requires Inv(s) && Can(s, TakeList(t)) && s' == TakeListOf(s, t)
    ensures Inv(s')
  {
    var l := At(s, t).l;
    InvAt(s, t, l);
    QuietInv(s, s', t, l);
  }

  lemma {:induction false} AnnounceInv(s: State, s': State, t: Tid, l: Lid)
    requires Inv(s) && At(s, t) == LockSet(l) && BitsOf(s, l).lock
    requires s' == To(Put(s, l, BitsOf(s, l).(wait := true)), t, LockAppend(l))
    ensures Inv(s')
  {
    InvAt(s, t, l);
    QuietInv(s, s', t, l);
  }

  lemma {:induction false} GotInv(s: State, s': State, t: Tid, l: Lid)
    requires Inv(s) && At(s, t) == LockGot(l)
    requires s' == To(s, t, Idle).(listHolder := None, has := s.has + {(t, l)})
    ensures Inv(s')
  {
    InvAt(s, t, l);
    QuietInv(s, s', t, l);
  }

  /** The slow paths of unlock and of a condition wait find the wait bit set. */
  lemma {:induction false} ContendedInv(s: State, s': State, t: Tid, l: Lid, p': Pc)
    requires Inv(s) && BitsOf(s, l).wait && s' == To(s, t, p')
    requires (At(s, t) == UnlockTry(l) && p' == UnlockEnter(l)) || (At(s, t) == CvDrop(l) && p' == CvFind(l))
    ensures Inv(s')
  {
    InvAt(s, t, l);
    QuietInv(s, s', t, l);
  }

  lemma {:induction false} ClearInv(s: State, s': State, t: Tid, l: Lid, h: Tid, p': Pc)
    requires Inv(s) && s' == ClearOf(s, t, l, p')
    requires (At(s, t) == UnlockClear(l, h) && p' == UnlockExit(l, h))
          || (At(s, t) == CvClear(l, h) && p' == CvAppend(l, Some(h)))
    ensures Inv(s')
  {
    InvAt(s, t, l);
    InvAt(s, h, l);
    forall u | u != t && ActsAsHolder(At(s, u)) && At(s, u).l == l
      ensures u == h
    {
      InvAt(s, u, l);
    }
    QuietInv(s, s', t, l);
  }

  lemma {:induction false} ExitInv(s: State, s': State, t: Tid, l: Lid, h: Tid)
    requires Inv(s) && At(s, t) == UnlockExit(l, h)
    requires s' == To(s, t, Wake(l, h, Leave)).(listHolder := None)
    ensures Inv(s')
  {
    InvAt(s, t, l);
    QuietInv(s, s', t, l);
  }

  lemma {:induction false} CvSetInv(s: State, s': State, t: Tid, l: Lid)
    requires Inv(s) && At(s, t) == CvSet(l)
    requires s' == To(Put(s, l, BitsOf(s, l).(cv := true)), t, CvEnter(l))
    ensures Inv(s')
  {
    InvAt(s, t, l);
    QuietInv(s, s', t, l);
  }

  lemma {:induction false} SigClearInv(s: State, s': State, t: Tid, l: Lid, last: bool)
    requires Inv(s) && At(s, t) == SigClear(l, last)
    requires s' == To(if last then Put(s, l, BitsOf(s, l).(cv := false)) else s, t, SigSet(l))
    ensures Inv(s')
  {
    InvAt(s, t, l);
    forall u | ActsAsHolder(At(s, u)) && At(s, u).l == l
      ensures u == t
    {
      InvAt(s, u, l);
    }
    QuietInv(s, s', t, l);
  }

  lemma {:induction false} SigSetInv(s: State, s': State, t: Tid, l: Lid)
    requires Inv(s) && At(s, t) == SigSet(l)
    requires s' == To(Put(s, l, BitsOf(s, l).(wait := true)), t, Idle).(has := s.has + {(t, l)})
    ensures Inv(s')
  {
    InvAt(s, t, l);
    QuietInv(s, s', t, l);
  }

  // ---------- a lock is taken or dropped ----------

  lemma {:induction false} GainThread(s: State, s': State, t: Tid, l: Lid, u: Tid)
    requires ThreadOk(s, u) && u != t && !Asleep(At(s, t)) && !At(s, t).Wake?
    requires KeepsPromises(At(s, t), At(s', t))
    requires s' == To(s, t, At(s', t)).(bits := s'.bits, has := s'.has, holder := s.holder[l := t])
    requires l in s.holder ==> s.holder[l] == t
    requires forall n :: n != l ==> BitsOf(s', n) == BitsOf(s, n)
    ensures ThreadOk(s', u)
  {
  }

  lemma {:induction false} DropThread(s: State, s': State, t: Tid, l: Lid, u: Tid)
    requires ThreadOk(s, u) && u != t && !Asleep(At(s, t)) && !At(s, t).Wake?
    requires KeepsPromises(At(s, t), At(s', t))
    requires s' == To(s, t, At(s', t)).(bits := s'.bits, has := s'.has, holder := s.holder - {l})
    requires l in s.holder ==> s.holder[l] == t
    requires At(s, u) != LockAppend(l)
    requires forall n :: n != l ==> BitsOf(s', n) == BitsOf(s, n)
    ensures ThreadOk(s', u)
  {
  }

  lemma {:induction false} HolderThread(s: State, s': State, t: Tid, l: Lid, u: Tid)
    requires ThreadOk(s, u) && u != t && !Asleep(At(s, t)) && !At(s, t).Wake?
    requires KeepsPromises(At(s, t), At(s', t))
    requires s' == To(s, t, At(s', t)).(bits := s'.bits, has := s'.has, holder := s'.holder)
    requires s'.holder == s.holder[l := t] || s'.holder == s.holder - {l}
    requires l in s.holder ==> s.holder[l] == t
    requires At(s, u) == LockAppend(l) ==> l in s'.holder
    requires forall n :: n != l ==> BitsOf(s', n) == BitsOf(s, n)
    ensures ThreadOk(s', u)
  {
    if s'.holder == s.holder[l := t] {
      GainThread(s, s', t, l, u);
    } else {
      DropThread(s, s', t, l, u);
    }
  }

  lemma {:induction false} HolderInv(s: State, s': State, t: Tid, l: Lid)
    requires Inv(s) && !Asleep(At(s, t)) && !At(s, t).Wake? && KeepsPromises(At(s, t), At(s', t))
    requires s' == To(s, t, At(s', t)).(bits := s'.bits, has := s'.has, holder := s'.holder)
    requires (At(s, t).Idle? || (!At(s, t).Fault? && At(s, t).l == l)) && (At(s', t).Idle? || (!At(s', t).Fault? && At(s', t).l == l))
    requires s'.holder == s.holder[l := t] || s'.holder == s.holder - {l}
    requires l in s.holder ==> s.holder[l] == t
    requires forall u :: At(s, u) == LockAppend(l) ==> l in s'.holder
    requires forall n :: n != l ==> BitsOf(s', n) == BitsOf(s, n)
    requires forall u, n :: (u, n) in s'.has <==> if u == t && n == l then (t, l) in s'.has else (u, n) in s.has
    requires ThreadOk(s', t) && LockOk(s', l) && HasOk(s', t, l)
    ensures Inv(s')
  {
    forall n
      ensures LockOk(s', n)
    {
      if n != l {
        InvAt(s, t, n);
        OtherLock(s, s', t, l, n);
      }
    }
    forall u
      ensures ThreadOk(s', u)
    {
      if u != t {
        InvAt(s, u, l);
        HolderThread(s, s', t, l, u);
      }
    }
    forall u, n
      ensures HasOk(s', u, n)
    {
      InvAt(s, u, n);
      HolderHas(s, s', t, l, u, n);
    }
    HolderEntries(s, s', t, l);
  }

  lemma {:induction false} HolderHas(s: State, s': State, t: Tid, l: Lid, u: Tid, n: Lid)
    requires HasOk(s, u, n) && (u == t && n == l ==> HasOk(s', u, n))
    requires s'.pc == s.pc[t := At(s', t)]
    requires s'.holder == s.holder[l := t] || s'.holder == s.holder - {l}
    requires l in s.holder ==> s.holder[l] == t
    requires (u, n) in s'.has <==> if u == t && n == l then (t, l) in s'.has else (u, n) in s.has
    requires n != l ==> PcOn(At(s', t), n) == PcOn(At(s, t), n)
    requires !Asleep(At(s, t))
    ensures HasOk(s', u, n)
  {
  }

  lemma {:induction false} HolderEntries(s: State, s': State, t: Tid, l: Lid)
    requires forall i :: 0 <= i < |s.list| ==> EntryOk(s, i)
    requires s'.pc == s.pc[t := At(s', t)] && s'.list == s.list && !Asleep(At(s, t))
    requires s'.holder == s.holder[l := t] || s'.holder == s.holder - {l}
    ensures forall i :: 0 <= i < |s'.list| ==> EntryOk(s', i)
  {
    forall i | 0 <= i < |s'.list|
      ensures EntryOk(s', i)
    {
      assert EntryOk(s, i);
    }
  }

  lemma {:induction false} FastGotInv(s: State, s': State, t: Tid, l: Lid)
    requires Inv(s) && At(s, t).Idle? && !BitsOf(s, l).lock
    requires s' == To(Put(s, l, BitsOf(s, l).(lock := true)), t, Idle)
                     .(holder := s.holder[l := t], has := s.has + {(t, l)})
    ensures Inv(s')
  {
    InvAt(s, t, l);
    HolderInv(s, s', t, l);
  }

  lemma {:induction false} SlowGotInv(s: State, s': State, t: Tid, l: Lid)
    requires Inv(s) && At(s, t) == LockSet(l) && !BitsOf(s, l).lock
    requires s' == To(Put(s, l, BitsOf(s, l).(lock := true)), t, LockGot(l)).(holder := s.holder[l := t])
    ensures Inv(s')
  {
    InvAt(s, t, l);
    HolderInv(s, s', t, l);
  }

  lemma {:induction false} DropInv(s: State, s': State, t: Tid, l: Lid, p': Pc)
    requires Inv(s) && BitsOf(s, l).lock && !BitsOf(s, l).wait
    requires (At(s, t) == UnlockTry(l) && p' == Idle) || (At(s, t) == CvDrop(l) && p' == CvAppend(l, None))
    requires s' == To(Put(s, l, BitsOf(s, l).(lock := false)), t, p').(holder := s.holder - {l})
    ensures Inv(s')
  {
    InvAt(s, t, l);
    forall u
      ensures At(s, u) != LockAppend(l)
    {
      InvAt(s, u, l);
    }
    HolderInv(s, s', t, l);
  }

  // ---------- a waiter joins the list ----------

  lemma {:induction false} WaitsAppended(q: seq<Entry>, e: Entry, n: Lid, k: Kind)
    ensures Waits(q + [e], n, k) <==> Waits(q, n, k) || IsFor(e, n, k)
  {
    if Waits(q, n, k) {
      var i :| 0 <= i < |q| && IsFor(q[i], n, k);
      assert IsFor((q + [e])[i], n, k);
    }
    if IsFor(e, n, k) {
      assert IsFor((q + [e])[|q|], n, k);
    }
  }

  lemma {:induction false} InListAppended(q: seq<Entry>, e: Entry, x: Tid)
    ensures InList(q + [e], x) <==> InList(q, x) || x == e.t
  {
    if InList(q, x) {
      var i :| 0 <= i < |q| && q[i].t == x;
      assert (q + [e])[i].t == x;
    }
    if x == e.t {
      assert (q + [e])[|q|].t == x;
    }
  }

  lemma {:induction false} AppendThread(s: State, s': State, t: Tid, e: Entry, u: Tid)
    requires ThreadOk(s, u) && ThreadOk(s, t) && u != t && s.listHolder == Some(t)
    requires s' == To(s, t, At(s', t)).(list := s.list + [e], listHolder := None) && e.t == t
    requires !Asleep(At(s, t)) && !At(s, t).Wake? && KeepsPromises(At(s, t), At(s', t))
    ensures ThreadOk(s', u)
  {
    InListAppended(s.list, e, u);
    var p := At(s, u);
    if p.Wake? {
      InListAppended(s.list, e, p.heir);
    }
    if Asleep(p) && !Holds(s, u, p.l) {
      var i :| 0 <= i < |s.list| && s.list[i].t == u && s.list[i].l == p.l;
      assert s'.list[i] == s.list[i];
    }
  }

  lemma {:induction false} AppendInv(s: State, s': State, t: Tid, l: Lid, e: Entry)
    requires Inv(s) && s.listHolder == Some(t) && e.t == t && e.l == l
    requires s' == To(s, t, At(s', t)).(list := s.list + [e], listHolder := None)
    requires !Asleep(At(s, t)) && !At(s, t).Wake? && KeepsPromises(At(s, t), At(s', t))
    requires !At(s, t).Idle? && !At(s, t).Fault? && At(s, t).l == l && SleepsOn(At(s', t), l) && !Holds(s, t, l)
    requires ThreadOk(s', t) && LockOk(s', l)
    ensures Inv(s')
  {
    InvAt(s, t, l);
    forall n
      ensures LockOk(s', n)
    {
      if n != l {
        InvAt(s, t, n);
        WaitsAppended(s.list, e, n, Wait);
        WaitsAppended(s.list, e, n, Cv);
        OtherLock(s, s', t, l, n);
      }
    }
    forall u
      ensures ThreadOk(s', u)
    {
      if u != t {
        InvAt(s, u, l);
        AppendThread(s, s', t, e, u);
      }
    }
    forall u, n
      ensures HasOk(s', u, n)
    {
      InvAt(s, u, n);
    }
    AppendEntries(s, s', t, e);
  }

  lemma {:induction false} AppendEntries(s: State, s': State, t: Tid, e: Entry)
    requires ListOk(s) && (forall i :: 0 <= i < |s.list| ==> EntryOk(s, i)) && !InList(s.list, t)
    requires s'.pc == s.pc[t := At(s', t)] && s'.list == s.list + [e] && e.t == t && s'.holder == s.holder
    requires SleepsOn(At(s', t), e.l) && !Holds(s, t, e.l)
    ensures ListOk(s') && forall i :: 0 <= i < |s'.list| ==> EntryOk(s', i)
  {
    forall i | 0 <= i < |s'.list|
      ensures EntryOk(s', i)
    {
      if i < |s.list| {
        assert EntryOk(s, i);
      }
    }
  }

  lemma {:induction false} LockAppendInv(s: State, s': State, t: Tid, l: Lid)
    requires Inv(s) && At(s, t) == LockAppend(l)
    requires s' == To(s, t, Blocked(l)).(list := s.list + [Entry(t, l, Wait)], listHolder := None)
    ensures Inv(s')
  {
    var e := Entry(t, l, Wait);
    InvAt(s, t, l);
    WaitsAppended(s.list, e, l, Wait);
    WaitsAppended(s.list, e, l, Cv);
    assert s'.list[|s.list|] == e;
    AppendInv(s, s', t, l, e);
  }

  lemma {:induction false} CvAppendInv(s: State, s': State, t: Tid, l: Lid, f: Option<Tid>)
    requires Inv(s) && At(s, t) == CvAppend(l, f)
    requires s' == To(s, t, if f.Some? then Wake(l, f.value, Sleep) else Blocked(l))
        .(list := s.list + [Entry(t, l, Cv)], listHolder := None)
    ensures Inv(s')
  {
    var e := Entry(t, l, Cv);
    InvAt(s, t, l);
    WaitsAppended(s.list, e, l, Wait);
    WaitsAppended(s.list, e, l, Cv);
    assert s'.list[|s.list|] == e;
    if f.Some? {
      InListAppended(s.list, e, f.value);
    }
    AppendInv(s, s', t, l, e);
  }

  // ---------- the oldest waiter is given the lock ----------

  lemma {:induction false} RemovedIs(q: seq<Entry>, i: nat)
    requires i < |q| && forall j, k :: 0 <= j < k < |q| ==> q[j].t != q[k].t
    ensures forall x :: InList(Removed(q, i), x) <==> InList(q, x) && x != q[i].t
    ensures forall n, k :: !IsFor(q[i], n, k) ==> (Waits(Removed(q, i), n, k) <==> Waits(q, n, k))
    ensures forall j, k :: 0 <= j < k < |q| - 1 ==> Removed(q, i)[j].t != Removed(q, i)[k].t
  {
    var r := Removed(q, i);
    assert forall j :: 0 <= j < |r| ==> r[j] == q[if j < i then j else j + 1];
    forall x
      ensures InList(r, x) <==> InList(q, x) && x != q[i].t
    {
      if InList(q, x) && x != q[i].t {
        var j :| 0 <= j < |q| && q[j].t == x;
        assert r[if j < i then j else j - 1].t == x;
      }
    }
    forall n, k | !IsFor(q[i], n, k)
      ensures Waits(r, n, k) <==> Waits(q, n, k)
    {
      if Waits(q, n, k) {
        var j :| 0 <= j < |q| && IsFor(q[j], n, k);
        assert IsFor(r[if j < i then j else j - 1], n, k);
      }
    }
  }

  lemma {:induction false} FindTells(q: seq<Entry>, n: Lid, k: Kind)
    ensures Find(q, n, k) < |q| <==> Waits(q, n, k)
  {
  }

  predicate Given(s: State, s': State, t: Tid, l: Lid, i: nat)
    requires i < |s.list|
  {
    && s' == To(s, t, At(s', t)).(list := s'.list, holder := s'.holder, giver := s'.giver)
    && IsFor(s.list[i], l, Wait) && s'.list == Removed(s.list, i)
    && s'.holder == s.holder[l := s.list[i].t] && s'.giver == s.giver[l := t]
    && Holds(s, t, l) && s.listHolder == Some(t) && UsesList(At(s', t))
    && !Asleep(At(s, t)) && !At(s, t).Wake? && !Asleep(At(s', t))
    && Promises(At(s', t), l, s.list[i].t)
  }

  lemma {:induction false} GivenOther(s: State, s': State, t: Tid, l: Lid, i: nat, u: Tid)
    requires i < |s.list| && Given(s, s', t, l, i) && u != t && u != s.list[i].t
    requires ThreadOk(s, u) && ThreadOk(s, t) && UsesList(At(s, t)) && ActsAsHolder(At(s, t))
    requires forall x :: InList(s'.list, x) <==> InList(s.list, x) && x != s.list[i].t
    ensures ThreadOk(s', u)
  {
    var p := At(s, u);
    if p.Wake? {
      assert InList(s.list, s.list[i].t);
    }
    if Asleep(p) && !Holds(s, u, p.l) {
      var j :| 0 <= j < |s.list| && s.list[j].t == u && s.list[j].l == p.l;
      var k := if j < i then j else j - 1;
      assert 0 <= k < |s'.list| && s'.list[k] == s.list[j];
    }
  }

  lemma {:induction false} GivenHeir(s: State, s': State, t: Tid, l: Lid, i: nat)
    requires i < |s.list| && Given(s, s', t, l, i) && ThreadOk(s, s.list[i].t) && EntryOk(s, i)
    requires forall x :: InList(s'.list, x) <==> InList(s.list, x) && x != s.list[i].t
    requires s.list[i].t != t && s.list[i].t !in s.signalled
    ensures ThreadOk(s', s.list[i].t) && Heir(s', t, l, s.list[i].t)
  {
    assert InList(s.list, s.list[i].t);
  }

  lemma {:induction false} GivenEntries(s: State, s': State, t: Tid, l: Lid, i: nat)
    requires i < |s.list| && Given(s, s', t, l, i) && ListOk(s)
    requires forall j :: 0 <= j < |s.list| ==> EntryOk(s, j)
    ensures forall j :: 0 <= j < |s'.list| ==> EntryOk(s', j)
  {
    forall j | 0 <= j < |s'.list|
      ensures EntryOk(s', j)
    {
      var k := if j < i then j else j + 1;
      assert s'.list[j] == s.list[k];
      assert EntryOk(s, k);
    }
  }

  function Gives(l: Lid, h: Tid): set<Pc> {
    {CvAppend(l, Some(h)), CvClear(l, h), UnlockExit(l, h), UnlockClear(l, h)}
  }

  lemma {:induction false} GivenSelf(s: State, s': State, t: Tid, l: Lid, i: nat)
    requires i < |s.list| && Given(s, s', t, l, i) && ThreadOk(s, t) && Heir(s', t, l, s.list[i].t)
    requires At(s', t) in Gives(l, s.list[i].t)
    requires forall x :: InList(s'.list, x) <==> InList(s.list, x) && x != s.list[i].t
    ensures ThreadOk(s', t)
  {
  }

  lemma {:induction false} GivenInv(s: State, s': State, t: Tid, l: Lid, i: nat)
    requires Inv(s) && i < |s.list| && Given(s, s', t, l, i)
    requires UsesList(At(s, t)) && At(s, t).l == l && !At(s', t).Idle? && !At(s', t).Fault? && At(s', t).l == l
    requires ActsAsHolder(At(s, t)) && !ActsAsHolder(At(s', t))
    requires LockOk(s', l) && At(s', t) in Gives(l, s.list[i].t)
    ensures Inv(s')
  {
    var h := s.list[i].t;
    InvAt(s, t, l);
    InvAt(s, h, l);
    assert EntryOk(s, i);
    assert InList(s.list, h);
    RemovedIs(s.list, i);
    assert h !in s.signalled;
    GivenHeir(s, s', t, l, i);
    GivenSelf(s, s', t, l, i);
    GivenEntries(s, s', t, l, i);
    forall n
      ensures LockOk(s', n)
    {
      if n != l {
        InvAt(s, t, n);
        OtherLock(s, s', t, l, n);
      }
    }
    forall u
      ensures ThreadOk(s', u)
    {
      if u != t && u != h {
        InvAt(s, u, l);
        GivenOther(s, s', t, l, i, u);
      }
    }
    forall u, n
      ensures HasOk(s', u, n)
    {
      InvAt(s, u, n);
    }
  }

  /** Holding the list, a holder whose wait bit is set finds a waiter for its lock. */
  lemma {:induction false} FindFinds(s: State, t: Tid, l: Lid)
    requires Inv(s) && (At(s, t) == CvFind(l) || At(s, t) == UnlockFind(l))
    ensures Find(s.list, l, Wait) < |s.list| && Holds(s, t, l) && s.listHolder == Some(t)
    ensures BitsOf(s, l).wait && BitsOf(s, l).lock
    ensures BitsOf(s, l).cv <==> Waits(s.list, l, Cv) || At(s, t).CvFind?
  {
    InvAt(s, t, l);
    FindTells(s.list, l, Wait);
  }

  function GivePc(cv: bool, more: bool, l: Lid, h: Tid): Pc {
    if cv then (if more then CvAppend(l, Some(h)) else CvClear(l, h))
    else (if more then UnlockExit(l, h) else UnlockClear(l, h))
  }

  lemma {:induction false} GivenLock(s: State, s': State, t: Tid, l: Lid, i: nat, more: bool)
    requires i < |s.list| && Given(s, s', t, l, i) && EntryOk(s, i) && s.list[i].t != t
    requires BitsOf(s, l).wait && BitsOf(s, l).lock
    requires At(s, t) == CvFind(l) || At(s, t) == UnlockFind(l)
    requires BitsOf(s, l).cv <==> Waits(s.list, l, Cv) || At(s, t).CvFind?
    requires Waits(s'.list, l, Wait) == more && Waits(s'.list, l, Cv) == Waits(s.list, l, Cv)
    requires At(s', t) == GivePc(At(s, t).CvFind?, more, l, s.list[i].t)
    ensures LockOk(s', l)
  {
  }

  lemma {:induction false} FindGives(s: State, s': State, t: Tid, l: Lid, cv: bool, i: nat)
    requires At(s, t) == (if cv then CvFind(l) else UnlockFind(l)) && s' == FindOf(s, t, l, cv)
    requires Holds(s, t, l) && s.listHolder == Some(t) && i == Find(s.list, l, Wait) < |s.list|
    ensures Given(s, s', t, l, i)
    ensures At(s', t) == GivePc(cv, Waits(s'.list, l, Wait), l, s.list[i].t)
  {
    FindTells(Removed(s.list, i), l, Wait);
  }

  lemma {:induction false} FindInv(s: State, s': State, t: Tid, l: Lid, cv: bool)
    requires Inv(s) && At(s, t) == (if cv then CvFind(l) else UnlockFind(l)) && s' == FindOf(s, t, l, cv)
    ensures Inv(s')
  {
    FindFinds(s, t, l);
    var i := Find(s.list, l, Wait);
    FindGives(s, s', t, l, cv, i);
    assert Waits(s'.list, l, Cv) == Waits(s.list, l, Cv) by { RemovedIs(s.list, i); }
    assert EntryOk(s, i);
    GivenLock(s, s', t, l, i, Waits(s'.list, l, Wait));
    GivenInv(s, s', t, l, i);
  }

  // ---------- a signal ----------

  /** The same threads wait for the same locks; only kinds differ. */
  predicate SameNames(q: seq<Entry>, r: seq<Entry>) {
    |r| == |q| && forall i :: 0 <= i < |q| ==> r[i].t == q[i].t && r[i].l == q[i].l
  }

  lemma {:induction false} MarkedIs(q: seq<Entry>, l: Lid, all: bool, r: seq<Entry>)
    requires Find(q, l, Cv) < |q| && r == if all then MarkAll(q, l) else MarkOne(q, l)
    ensures SameNames(q, r) && Waits(r, l, Wait)
    ensures forall n, k :: n != l ==> (Waits(r, n, k) <==> Waits(q, n, k))
    ensures all ==> !Waits(r, l, Cv)
  {
    var i := Find(q, l, Cv);
    assert IsFor(r[i], l, Wait);
    forall n, k | n != l
      ensures Waits(r, n, k) <==> Waits(q, n, k)
    {
      if Waits(q, n, k) {
        var j :| 0 <= j < |q| && IsFor(q[j], n, k);
        assert IsFor(r[j], n, k);
      }
      if Waits(r, n, k) {
        var j :| 0 <= j < |r| && IsFor(r[j], n, k);
        assert IsFor(q[j], n, k);
      }
    }
  }

  lemma {:induction false} NamesInList(q: seq<Entry>, r: seq<Entry>, x: Tid)
    requires SameNames(q, r)
    ensures InList(r, x) <==> InList(q, x)
  {
    if InList(q, x) {
      var i :| 0 <= i < |q| && q[i].t == x;
      assert r[i].t == x;
    }
  }

  lemma {:induction false} MarkThread(s: State, s': State, t: Tid, u: Tid)
    requires ThreadOk(s, u) && u != t && SameNames(s.list, s'.list)
    requires s' == To(s, t, At(s', t)).(list := s'.list, listHolder := None) && s.listHolder == Some(t)
    requires At(s, t).SigMark? && At(s', t).SigClear?
    ensures ThreadOk(s', u)
  {
    var p := At(s, u);
    NamesInList(s.list, s'.list, u);
    if p.Wake? {
      NamesInList(s.list, s'.list, p.heir);
    }
    if Asleep(p) && !Holds(s, u, p.l) {
      var i :| 0 <= i < |s.list| && s.list[i].t == u && s.list[i].l == p.l;
      assert s'.list[i].t == u && s'.list[i].l == p.l;
    }
  }

  /** Holding the list, a signal that saw the cv bit finds a condition waiter. */
  lemma {:induction false} MarkFinds(s: State, t: Tid, l: Lid, all: bool)
    requires Inv(s) && At(s, t) == SigMark(l, all)
    ensures Find(s.list, l, Cv) < |s.list|
  {
    InvAt(s, t, l);
    FindTells(s.list, l, Cv);
  }

  lemma {:induction false} MarkLock(s: State, s': State, t: Tid, l: Lid, all: bool)
    requires Inv(s) && At(s, t) == SigMark(l, all) && s' == MarkOf(s, t, l, all)
    requires Find(s.list, l, Cv) < |s.list|
    ensures LockOk(s', l) && At(s', t).SigClear? && At(s', t).l == l
  {
    InvAt(s, t, l);
    MarkedIs(s.list, l, all, s'.list);
    FindTells(s'.list, l, Cv);
  }

  lemma {:induction false} MarkInv(s: State, s': State, t: Tid, l: Lid, all: bool)
    requires Inv(s) && At(s, t) == SigMark(l, all) && s' == MarkOf(s, t, l, all)
    ensures Inv(s')
  {
    MarkFinds(s, t, l, all);
    MarkLock(s, s', t, l, all);
    MarkedIs(s.list, l, all, s'.list);
    InvAt(s, t, l);
    NamesInList(s.list, s'.list, t);
    forall n
      ensures LockOk(s', n)
    {
      if n != l {
        InvAt(s, t, n);
        OtherLock(s, s', t, l, n);
      }
    }
    forall u
      ensures ThreadOk(s', u)
    {
      if u != t {
        InvAt(s, u, l);
        MarkThread(s, s', t, u);
      }
    }
    MarkRest(s, s', t);
  }

  lemma {:induction false} MarkRest(s: State, s': State, t: Tid)
    requires Inv(s) && At(s, t).SigMark? && SameNames(s.list, s'.list) && s'.holder == s.holder && s'.has == s.has
    requires s'.pc == s.pc[t := At(s', t)] && At(s', t).SigClear? && At(s', t).l == At(s, t).l
    ensures ListOk(s') && (forall i :: 0 <= i < |s'.list| ==> EntryOk(s', i))
    ensures forall u, n :: HasOk(s', u, n)
  {
    forall u, n
      ensures HasOk(s', u, n)
    {
      InvAt(s, u, n);
    }
    forall i | 0 <= i < |s'.list|
      ensures EntryOk(s', i)
    {
      assert EntryOk(s, i);
    }
  }

  // ---------- waking ----------

  lemma {:induction false} WakeThread(s: State, s': State, t: Tid, l: Lid, h: Tid, u: Tid)
    requires ThreadOk(s, u) && u != t && Heir(s, t, l, h) && At(s, t).Wake? && At(s, t).l == l && At(s, t).heir == h
    requires s' == To(s, t, At(s', t)).(signalled := s.signalled + {h})
    requires At(s', t) == if At(s, t).cont.Sleep? then Blocked(l) else Idle
    ensures ThreadOk(s', u)
  {
  }

  lemma {:induction false} WakeInv(s: State, s': State, t: Tid, l: Lid, h: Tid, c: Cont)
    requires Inv(s) && At(s, t) == Wake(l, h, c)
    requires s' == To(s, t, if c.Sleep? then Blocked(l) else Idle).(signalled := s.signalled + {h})
    ensures Inv(s')
  {
    InvAt(s, t, l);
    forall n
      ensures LockOk(s', n)
    {
      InvAt(s, t, n);
      LockAwake(s, s', t, n);
    }
    forall u
      ensures ThreadOk(s', u)
    {
      if u != t {
        InvAt(s, u, l);
        WakeThread(s, s', t, l, h, u);
      }
    }
    forall u, n
      ensures HasOk(s', u, n)
    {
      InvAt(s, u, n);
    }
    forall i | 0 <= i < |s'.list|
      ensures EntryOk(s', i)
    {
      assert EntryOk(s, i);
    }
  }

  /** Waking and waiting are nothing to the bits. */
  lemma {:induction false} LockAwake(s: State, s': State, t: Tid, n: Lid)
    requires LockOk(s, n) && s'.pc == s.pc[t := At(s', t)]
    requires At(s, t).Wake? || At(s, t).Blocked?
    requires At(s', t).Idle? || At(s', t).Blocked?
    requires s'.bits == s.bits && s'.list == s.list && s'.holder == s.holder && s'.listHolder == s.listHolder
    ensures LockOk(s', n)
  {
  }

  lemma {:induction false} ResumeThread(s: State, s': State, t: Tid, u: Tid)
    requires ThreadOk(s, u) && u != t && At(s, t).Blocked? && t in s.signalled
    requires s' == To(s, t, Idle).(signalled := s.signalled - {t}, has := s'.has)
    ensures ThreadOk(s', u)
  {
  }

  lemma {:induction false} ResumeInv(s: State, s': State, t: Tid, l: Lid)
    requires Inv(s) && At(s, t) == Blocked(l) && t in s.signalled
    requires s' == To(s, t, Idle).(signalled := s.signalled - {t}, has := s.has + {(t, l)})
    ensures Inv(s')
  {
    InvAt(s, t, l);
    forall n
      ensures LockOk(s', n)
    {
      InvAt(s, t, n);
      LockAwake(s, s', t, n);
    }
    forall u
      ensures ThreadOk(s', u)
    {
      if u != t {
        InvAt(s, u, l);
        ResumeThread(s, s', t, u);
      }
    }
    forall u, n
      ensures HasOk(s', u, n)
    {
      InvAt(s, u, n);
    }
    forall i | 0 <= i < |s'.list|
      ensures EntryOk(s', i)
    {
      assert EntryOk(s, i);
      assert InList(s.list, s.list[i].t);
    }
  }

  // ---------- runs ----------

  lemma {:induction false} LockSetInv(s: State, s': State, t: Tid, l: Lid)
    requires Inv(s) && At(s, t) == LockSet(l) && s' == LockSetOf(s, t, l)
    ensures Inv(s')
  {
    if BitsOf(s, l).lock {
      AnnounceInv(s, s', t, l);
    } else {
      InvAt(s, t, l);
      SlowGotInv(s, s', t, l);
    }
  }

  lemma {:induction false} DropOrInv(s: State, s': State, t: Tid, l: Lid)
    requires Inv(s) && (At(s, t) == UnlockTry(l) || At(s, t) == CvDrop(l)) && s' == StepOf(s, t)
    ensures Inv(s')
  {
    InvAt(s, t, l);
    if BitsOf(s, l).wait {
      ContendedInv(s, s', t, l, if At(s, t).UnlockTry? then UnlockEnter(l) else CvFind(l));
    } else {
      DropInv(s, s', t, l, if At(s, t).UnlockTry? then Idle else CvAppend(l, None));
    }
  }

  lemma {:induction false} StepOfInv(s: State, s': State, t: Tid)
    requires Inv(s) && Steps(At(s, t)) && s' == StepOf(s, t)
    ensures Inv(s')
  {
    match At(s, t)
    case LockSet(l) => LockSetInv(s, s', t, l);
    case LockGot(l) => GotInv(s, s', t, l);
    case LockAppend(l) => LockAppendInv(s, s', t, l);
    case UnlockTry(l) => DropOrInv(s, s', t, l);
    case UnlockFind(l) => FindInv(s, s', t, l, false);
    case UnlockClear(l, h) => ClearInv(s, s', t, l, h, UnlockExit(l, h));
    case UnlockExit(l, h) => ExitInv(s, s', t, l, h);
    case CvSet(l) => CvSetInv(s, s', t, l);
    case CvDrop(l) => DropOrInv(s, s', t, l);
    case CvFind(l) => FindInv(s, s', t, l, true);
    case CvClear(l, h) => ClearInv(s, s', t, l, h, CvAppend(l, Some(h)));
    case CvAppend(l, f) => CvAppendInv(s, s', t, l, f);
    case SigMark(l, all) => MarkInv(s, s', t, l, all);
    case SigClear(l, last) => SigClearInv(s, s', t, l, last);
    case SigSet(l) => SigSetInv(s, s', t, l);
    case Wake(l, h, c) => WakeInv(s, s', t, l, h, c);
  }

  lemma {:induction false} FastLockInv(s: State, s': State, t: Tid, l: Lid, try: bool)
    requires Inv(s) && Can(s, FastLock(t, l, try)) && s' == FastLockOf(s, t, l, try)
    ensures Inv(s')
  {
    if !BitsOf(s, l).lock && !BitsOf(s, l).wait {
      FastGotInv(s, s', t, l);
    } else if !try {
      EnterInv(s, s', t, l);
    }
  }

  lemma {:induction false} StepInv(s: State, a: Action, s': State)
    requires Inv(s) && Can(s, a) && s' == Do(s, a)
    ensures Inv(s')
  {
    match a
    case FastLock(t, l, try) => FastLockInv(s, s', t, l, try);
    case Resume(t) => ResumeInv(s, s', t, At(s, t).l);
    case StartUnlock(t, l) => StartInv(s, s', t, l, UnlockTry(l));
    case StartCvWait(t, l) => StartInv(s, s', t, l, CvSet(l));
    case StartSignal(t, l, all) =>
      if BitsOf(s, l).cv {
        StartInv(s, s', t, l, SigEnter(l, all));
      }
    case TakeList(t) => TakeListInv(s, s', t);
    case Step(t) => StepOfInv(s, s', t);
  }

  lemma {:induction false} RunInv(ss: seq<State>, acts: seq<Action>, k: nat)
    requires Run(ss, acts) && k < |ss|
    ensures Inv(ss[k])
  {
    if k == 0 {
      InitInv(ss[0]);
    } else {
      RunInv(ss, acts, k - 1);
      StepInv(ss[k - 1], acts[k - 1], ss[k]);
    }
  }

  lemma {:induction false} InitInv(s: State)
    requires Init(s)
    ensures Inv(s)
  {
    forall l
      ensures LockOk(s, l)
    {
      assert !Waits(s.list, l, Wait) && !Waits(s.list, l, Cv);
    }
    forall t
      ensures ThreadOk(s, t)
    {
      assert !InList(s.list, t);
    }
  }

  predicate InCvCall(p: Pc) {
    || p.CvSet? || p.CvEnter? || p.CvDrop? || p.CvFind? || p.CvClear? || p.CvAppend?
    || p.SigEnter? || p.SigMark? || p.SigClear? || p.SigSet?
  }

  /**
   * With any number of locks on one list: whenever the list is not locked and the lock's holder is not
   * inside a condition call, the wait bit is set exactly when someone waits for the lock, and the cv
   * bit exactly when someone waits for its condition.
   */
  lemma {:induction false} BitsTellTruth(ss: seq<State>, acts: seq<Action>, k: nat, l: Lid)
    requires Run(ss, acts) && k < |ss| && ss[k].listHolder == None && !InCvCall(HolderPc(ss[k], l))
    ensures BitsOf(ss[k], l).wait <==> Waits(ss[k].list, l, Wait)
    ensures BitsOf(ss[k], l).cv <==> Waits(ss[k].list, l, Cv)
    ensures BitsOf(ss[k], l).lock <==> l in ss[k].holder
    ensures BitsOf(ss[k], l).wait ==> BitsOf(ss[k], l).lock
  {
    RunInv(ss, acts, k);
    InvAt(ss[k], 0, l);
  }

  /** No assertion of the source fails, and two threads never have the same lock. */
  lemma {:induction false} Exclusion(ss: seq<State>, acts: seq<Action>, k: nat, t: Tid, u: Tid, l: Lid)
    requires Run(ss, acts) && k < |ss|
    ensures !At(ss[k], t).Fault?
    ensures (t, l) in ss[k].has && (u, l) in ss[k].has ==> t == u
    ensures (t, l) in ss[k].has ==> BitsOf(ss[k], l).lock && Holds(ss[k], t, l)
  {
    RunInv(ss, acts, k);
    InvAt(ss[k], t, l);
    InvAt(ss[k], u, l);
  }

  /** A contended unlock, and a condition wait that must pass the lock on, find the oldest waiter. */
  lemma {:induction false} UnlockFindsOldest(ss: seq<State>, acts: seq<Action>, k: nat, t: Tid)
    requires Run(ss, acts) && k < |acts| && acts[k] == Step(t)
    requires At(ss[k], t).UnlockFind? || At(ss[k], t).CvFind?
    ensures var s, l := ss[k], At(ss[k], t).l;
      exists i :: 0 <= i < |s.list| && IsFor(s.list[i], l, Wait)
        && (forall j :: 0 <= j < i ==> !IsFor(s.list[j], l, Wait))
        && ss[k + 1].list == Removed(s.list, i) && ss[k + 1].holder == s.holder[l := s.list[i].t]
  {
    RunInv(ss, acts, k);
    var s, l := ss[k], At(ss[k], t).l;
    FindFinds(s, t, l);
    var i := Find(s.list, l, Wait);
    assert IsFor(s.list[i], l, Wait);
  }

  /**
   * A signal sent after a condition wait has let go of the lock finds the sleeper: as long as it is in
   * the list for the condition, whoever looks sees the cv bit.
   */
  lemma {:induction false} SignalFindsSleeper(ss: seq<State>, acts: seq<Action>, k: nat, l: Lid, i: nat)
    requires Run(ss, acts) && k < |ss| && i < |ss[k].list| && IsFor(ss[k].list[i], l, Cv)
    ensures BitsOf(ss[k], l).cv
  {
    RunInv(ss, acts, k);
    InvAt(ss[k], 0, l);
    assert Waits(ss[k].list, l, Cv);
  }

  /** A sleeper is in the list, or holds the lock and has been or is being woken. */
  lemma {:induction false} SleeperIsKept(ss: seq<State>, acts: seq<Action>, k: nat, t: Tid, l: Lid)
    requires Run(ss, acts) && k < |ss| && At(ss[k], t) == Blocked(l)
    ensures var s := ss[k];
      if Holds(s, t, l) then t in s.signalled || exists u :: Promises(At(s, u), l, t)
      else exists i :: 0 <= i < |s.list| && s.list[i].t == t && s.list[i].l == l
  {
    RunInv(ss, acts, k);
    InvAt(ss[k], t, l);
  }

  // ---------- the walk as a loop ----------

  /** The loop over the list: the oldest waiter for the lock, and whether there is another. */
  method GetOneWaiter(q: array<Entry>, l: Lid) returns (first: nat, multiple: bool)
    ensures first == Find(q[..], l, Wait)
    ensures first < q.Length ==> (multiple <==> Waits(Removed(q[..], first), l, Wait))
  {
    first, multiple := q.Length, false;
    var i := 0;
    while i < q.Length && !multiple
      invariant 0 <= i <= q.Length && 0 <= first <= q.Length
      invariant first == q.Length || first < i
      invariant forall j :: 0 <= j < i && j != first ==> !IsFor(q[j], l, Wait) || multiple
      invariant forall j :: 0 <= j < first && j < i ==> !IsFor(q[j], l, Wait)
      invariant first < q.Length ==> IsFor(q[first], l, Wait)
      invariant multiple ==> first < i - 1 && IsFor(q[i - 1], l, Wait)
    {
      if q[i].l == l && q[i].kind == Wait {
        if first == q.Length {
          first := i;
        } else {
          multiple := true;
        }
      }
      i := i + 1;
    }
    FindIs(q[..], l, first);
    if first < q.Length {
      var r := Removed(q[..], first);
      assert forall j :: 0 <= j < |r| ==> r[j] == q[if j < first then j else j + 1];
      if multiple {
        assert IsFor(r[i - 2], l, Wait);
      }
    }
  }

  lemma {:induction false} FindIs(q: seq<Entry>, l: Lid, i: nat)
    requires i <= |q| && (i < |q| ==> IsFor(q[i], l, Wait))
    requires forall j :: 0 <= j < i ==> !IsFor(q[j], l, Wait)
    ensures Find(q, l, Wait) == i
  {
    var f := Find(q, l, Wait);
  }
}
