/**
 * What the callers of the bitlock mutexes get: when a lock is granted, what a signal and a broadcast do
 * to the list, in which order the lock passes, and where each call can end.
 */
module BitlockCalls {
  import opened Base
  import opened Bitlock
  import opened BitlockRuns

  // ---------- when the lock is granted ----------

  /**
   * A lock call gets a lock that no one holds, and only that. If it does not get it, a try changes
   * nothing, and any other call goes on to the wait list.
   */
  lemma {:induction false} LockGranted(ss: seq<State>, acts: seq<Action>, k: nat)
    requires Run(ss, acts) && k < |acts| && acts[k].FastLock?
    ensures var s, s', t, l := ss[k], ss[k + 1], acts[k].t, acts[k].l;
      if l !in s.holder then Holds(s', t, l) && (t, l) in s'.has && At(s', t).Idle?
      else if acts[k].try then s' == s
      else s' == s.(pc := s.pc[t := LockEnter(l)])
  {
    RunInv(ss, acts, k);
    InvAt(ss[k], acts[k].t, acts[k].l);
    FastLockStep(ss[k], acts[k].t, acts[k].l, acts[k].try);
  }

  lemma {:induction false} FastLockStep(s: State, t: Tid, l: Lid, try: bool)
    requires LockOk(s, l) && At(s, t).Idle?
    ensures var s' := FastLockOf(s, t, l, try);
      if l !in s.holder then Holds(s', t, l) && (t, l) in s'.has && At(s', t).Idle?
      else if try then s' == s
      else s' == s.(pc := s.pc[t := LockEnter(l)])
  {
  }

  /** With the list locked, a lock that no one holds is taken; for any other the caller joins the list. */
  lemma {:induction false} LockDecided(ss: seq<State>, acts: seq<Action>, k: nat)
    requires Run(ss, acts) && k < |acts| && acts[k].Step? && At(ss[k], acts[k].t).LockSet?
    ensures var s, s', t := ss[k], ss[k + 1], acts[k].t;
      var l := At(s, t).l;
      if l !in s.holder then Holds(s', t, l) && At(s', t) == LockGot(l)
      else At(s', t) == LockAppend(l) && s'.holder == s.holder
  {
    RunInv(ss, acts, k);
    var t := acts[k].t;
    InvAt(ss[k], t, At(ss[k], t).l);
    LockSetStep(ss[k], t, At(ss[k], t).l);
  }

  lemma {:induction false} LockSetStep(s: State, t: Tid, l: Lid)
    requires LockOk(s, l)
    ensures var s' := LockSetOf(s, t, l);
      if l !in s.holder then Holds(s', t, l) && At(s', t) == LockGot(l)
      else At(s', t) == LockAppend(l) && s'.holder == s.holder
  {
  }

  // ---------- what each step does to the list ----------

  /** The oldest entry of the kind is at `i`. */
  predicate Oldest(q: seq<Entry>, l: Lid, k: Kind, i: nat) {
    i < |q| && IsFor(q[i], l, k) && forall j :: 0 <= j < i ==> !IsFor(q[j], l, k)
  }

  /** One condition waiter of the lock, the oldest, has become a waiter for the lock where it stood. */
  ghost predicate Signalled(q: seq<Entry>, q': seq<Entry>, l: Lid) {
    exists i :: 0 <= i < |q| && Oldest(q, l, Cv, i) && q' == q[i := Entry(q[i].t, l, Wait)]
  }

  /** All condition waiters of the lock, and no others, have become waiters for it where they stood. */
  predicate Broadcast(q: seq<Entry>, q': seq<Entry>, l: Lid) {
    |q'| == |q| && forall i :: 0 <= i < |q| ==> q'[i] == if IsFor(q[i], l, Cv) then Entry(q[i].t, l, Wait) else q[i]
  }

  ghost predicate TakenOff(q: seq<Entry>, q': seq<Entry>, l: Lid) {
    exists i :: 0 <= i < |q| && Oldest(q, l, Wait, i) && q' == q[..i] + q[i + 1..]
  }

  /** What a step of a thread at `p` does to the list. */
  ghost predicate ListStep(t: Tid, p: Pc, q: seq<Entry>, q': seq<Entry>) {
    match p
    case LockAppend(l) => q' == q + [Entry(t, l, Wait)]
    case CvAppend(l, _) => q' == q + [Entry(t, l, Cv)]
    case UnlockFind(l) => TakenOff(q, q', l)
    case CvFind(l) => TakenOff(q, q', l)
    case SigMark(l, all) => if all then Broadcast(q, q', l) else Signalled(q, q', l)
    case _ => q' == q
  }

  lemma {:induction false} FindStep(s: State, t: Tid, l: Lid, cv: bool)
    requires Find(s.list, l, Wait) < |s.list|
    ensures TakenOff(s.list, FindOf(s, t, l, cv).list, l)
  {
    var i := Find(s.list, l, Wait);
    assert Oldest(s.list, l, Wait, i);
  }

  lemma {:induction false} MarkStep(s: State, t: Tid, l: Lid, all: bool)
    requires Find(s.list, l, Cv) < |s.list|
    ensures var s' := MarkOf(s, t, l, all);
      && (if all then Broadcast(s.list, s'.list, l) else Signalled(s.list, s'.list, l))
      && (At(s', t) == SigClear(l, true) || At(s', t) == SigClear(l, false))
      && (At(s', t).last <==> !Waits(s'.list, l, Cv))
  {
    var i := Find(s.list, l, Cv);
    assert Oldest(s.list, l, Cv, i);
    var q := if all then MarkAll(s.list, l) else MarkOne(s.list, l);
    FindTells(q, l, Cv);
  }

  lemma {:induction false} QuietList(s: State, t: Tid)
    requires Steps(At(s, t))
    requires var p := At(s, t); !p.LockAppend? && !p.CvAppend? && !p.UnlockFind? && !p.CvFind? && !p.SigMark?
    ensures StepOf(s, t).list == s.list
  {
  }

  lemma {:induction false} StepList(s: State, t: Tid)
    requires Inv(s) && Steps(At(s, t))
    ensures ListStep(t, At(s, t), s.list, StepOf(s, t).list)
  {
    match At(s, t)
    case LockAppend(l) =>
    case CvAppend(l, f) =>
    case UnlockFind(l) =>
      FindFinds(s, t, l);
      FindStep(s, t, l, false);
    case CvFind(l) =>
      FindFinds(s, t, l);
      FindStep(s, t, l, true);
    case SigMark(l, all) =>
      MarkFinds(s, t, l, all);
      MarkStep(s, t, l, all);
    case _ => QuietList(s, t);
  }

  lemma {:induction false} OthersList(s: State, a: Action)
    requires Can(s, a) && !a.Step?
    ensures Do(s, a).list == s.list
  {
  }

  /**
   * Over every run: an entry joins at the end, for the lock or for its condition; a lock is handed to its
   * oldest waiter, whose entry leaves; a signal turns the oldest condition waiter of its lock into a
   * waiter for the lock, a broadcast all of them, in place; nothing else changes the list.
   */
  lemma {:induction false} ListChanges(ss: seq<State>, acts: seq<Action>, k: nat)
    requires Run(ss, acts) && k < |acts|
    ensures if acts[k].Step? then ListStep(acts[k].t, At(ss[k], acts[k].t), ss[k].list, ss[k + 1].list)
            else ss[k + 1].list == ss[k].list
  {
    RunInv(ss, acts, k);
    if acts[k].Step? {
      StepList(ss[k], acts[k].t);
    } else {
      OthersList(ss[k], acts[k]);
    }
  }

  /** After a signal or broadcast the cv bit goes if and only if no one waits for the condition any more. */
  lemma {:induction false} SignalClears(ss: seq<State>, acts: seq<Action>, k: nat)
    requires Run(ss, acts) && k < |acts| && acts[k].Step? && At(ss[k], acts[k].t).SigMark?
    ensures var s', t, l := ss[k + 1], acts[k].t, At(ss[k], acts[k].t).l;
      && At(s', t).SigClear? && At(s', t).l == l
      && (At(s', t).last <==> !Waits(s'.list, l, Cv))
  {
    RunInv(ss, acts, k);
    var s, t := ss[k], acts[k].t;
    var l, all := At(s, t).l, At(s, t).all;
    MarkFinds(s, t, l, all);
    MarkStep(s, t, l, all);
  }

  // ---------- the order in which the lock passes ----------

  /** At step `j` the entry joined the list. */
  predicate Joins(ss: seq<State>, j: nat, e: Entry) {
    j + 1 < |ss| && |ss[j + 1].list| == |ss[j].list| + 1
    && var n := ss[j + 1].list[|ss[j].list|]; n.t == e.t && n.l == e.l
  }

  /** When each entry of the list joined it. */
  predicate Joined(ss: seq<State>, k: nat, q: seq<Entry>, js: seq<nat>) {
    && |js| == |q|
    && (forall i :: 0 <= i < |q| ==> js[i] < k && Joins(ss, js[i], q[i]))
    && (forall i, j :: 0 <= i < j < |js| ==> js[i] < js[j])
  }

  lemma {:induction false} JoinedLonger(ss: seq<State>, k: nat, q: seq<Entry>, js: seq<nat>, e: Entry)
    requires Joined(ss, k, q, js) && k + 1 < |ss| && ss[k].list == q && ss[k + 1].list == q + [e]
    ensures Joined(ss, k + 1, q + [e], js + [k])
  {
  }

  lemma {:induction false} JoinedShorter(ss: seq<State>, k: nat, q: seq<Entry>, js: seq<nat>, i: nat)
    requires Joined(ss, k, q, js) && i < |q|
    ensures Joined(ss, k + 1, q[..i] + q[i + 1..], js[..i] + js[i + 1..])
  {
    var q', js' := q[..i] + q[i + 1..], js[..i] + js[i + 1..];
    forall m | 0 <= m < |q'|
      ensures var n := if m < i then m else m + 1; q'[m] == q[n] && js'[m] == js[n]
    {
    }
  }

  lemma {:induction false} JoinedSame(ss: seq<State>, k: nat, q: seq<Entry>, q': seq<Entry>, js: seq<nat>)
    requires Joined(ss, k, q, js) && |q'| == |q|
    requires forall i :: 0 <= i < |q| ==> q'[i].t == q[i].t && q'[i].l == q[i].l
    ensures Joined(ss, k + 1, q', js)
  {
  }

  lemma {:induction false} JoinedStep(ss: seq<State>, k: nat, t: Tid, p: Pc, js: seq<nat>) returns (js': seq<nat>)
    requires k + 1 < |ss| && Joined(ss, k, ss[k].list, js) && ListStep(t, p, ss[k].list, ss[k + 1].list)
    ensures Joined(ss, k + 1, ss[k + 1].list, js')
  {
    var q, q' := ss[k].list, ss[k + 1].list;
    if p.LockAppend? || p.CvAppend? {
      JoinedLonger(ss, k, q, js, Entry(t, p.l, if p.LockAppend? then Wait else Cv));
      js' := js + [k];
    } else if p.UnlockFind? || p.CvFind? {
      var i :| 0 <= i < |q| && Oldest(q, p.l, Wait, i) && q' == q[..i] + q[i + 1..];
      JoinedShorter(ss, k, q, js, i);
      js' := js[..i] + js[i + 1..];
    } else {
      JoinedSame(ss, k, q, q', js);
      js' := js;
    }
  }

  ghost predicate ListAt(ss: seq<State>, acts: seq<Action>, k: nat)
    requires |ss| == |acts| + 1 && k < |acts|
  {
    if acts[k].Step? then ListStep(acts[k].t, At(ss[k], acts[k].t), ss[k].list, ss[k + 1].list)
    else ss[k + 1].list == ss[k].list
  }

  ghost predicate ListHistory(ss: seq<State>, acts: seq<Action>) {
    |ss| == |acts| + 1 && ss[0].list == [] && forall k :: 0 <= k < |acts| ==> ListAt(ss, acts, k)
  }

  lemma {:induction false} RunLists(ss: seq<State>, acts: seq<Action>)
    requires Run(ss, acts)
    ensures ListHistory(ss, acts)
  {
    forall k | 0 <= k < |acts|
      ensures ListAt(ss, acts, k)
    {
      ListChanges(ss, acts, k);
    }
  }

  lemma {:induction false} JoinTimesOf(ss: seq<State>, acts: seq<Action>, k: nat) returns (js: seq<nat>)
    requires ListHistory(ss, acts) && k < |ss|
    ensures Joined(ss, k, ss[k].list, js)
  {
    if k == 0 {
      js := [];
    } else {
      js := JoinTimesOf(ss, acts, k - 1);
      assert ListAt(ss, acts, k - 1);
      if acts[k - 1].Step? {
        js := JoinedStep(ss, k - 1, acts[k - 1].t, At(ss[k - 1], acts[k - 1].t), js);
      } else {
        JoinedSame(ss, k - 1, ss[k - 1].list, ss[k].list, js);
      }
    }
  }

  /** The list is kept in the order in which its entries joined. */
  lemma {:induction false} JoinTimes(ss: seq<State>, acts: seq<Action>, k: nat) returns (js: seq<nat>)
    requires Run(ss, acts) && k < |ss|
    ensures Joined(ss, k, ss[k].list, js)
  {
    RunLists(ss, acts);
    js := JoinTimesOf(ss, acts, k);
  }

  /**
   * A lock that is handed over goes to the waiter whose entry joined the list before those of all other
   * waiters for the lock, be they waiters from the start or by a signal.
   */
  lemma {:induction false} HandOverInOrder(ss: seq<State>, acts: seq<Action>, k: nat, t: Tid) returns (i: nat, js: seq<nat>)
    requires Run(ss, acts) && k < |acts| && acts[k] == Step(t)
    requires At(ss[k], t).UnlockFind? || At(ss[k], t).CvFind?
    ensures var s, l := ss[k], At(ss[k], t).l;
      && Joined(ss, k, s.list, js) && i < |s.list| && IsFor(s.list[i], l, Wait)
      && ss[k + 1].holder == s.holder[l := s.list[i].t]
      && forall j :: 0 <= j < |s.list| && j != i && IsFor(s.list[j], l, Wait) ==> js[i] < js[j]
  {
    js := JoinTimes(ss, acts, k);
    UnlockFindsOldest(ss, acts, k, t);
    var s, l := ss[k], At(ss[k], t).l;
    i :| 0 <= i < |s.list| && IsFor(s.list[i], l, Wait)
        && (forall j :: 0 <= j < i ==> !IsFor(s.list[j], l, Wait))
        && ss[k + 1].list == Removed(s.list, i) && ss[k + 1].holder == s.holder[l := s.list[i].t];
  }

  // ---------- where a call can be, and how it ends ----------

  predicate Begins(a: Action) {
    a.FastLock? || a.StartUnlock? || a.StartCvWait? || a.StartSignal?
  }

  /** The thread is in the middle of the call, before what the call is for has happened. */
  predicate Before(c: Action, p: Pc)
    requires Begins(c)
  {
    match c
    case FastLock(_, l, try) =>
      !try && (p == LockEnter(l) || p == LockSet(l) || p == LockGot(l) || p == LockAppend(l) || p == Blocked(l))
    case StartUnlock(_, l) =>
      || p == UnlockTry(l) || p == UnlockEnter(l) || p == UnlockFind(l)
      || (p.UnlockClear? && p.l == l) || (p.UnlockExit? && p.l == l) || (p.Wake? && p.l == l && p.cont == Leave)
    case StartCvWait(_, l) =>
      || p == CvSet(l) || p == CvEnter(l) || p == CvDrop(l) || p == CvFind(l)
      || (p.CvClear? && p.l == l) || (p.CvAppend? && p.l == l)
    case StartSignal(_, l, all) => p == SigEnter(l, all) || p == SigMark(l, all)
  }

  /**
   * The call is over or its effect is: a lock call, a condition wait and a signal end with the caller
   * having the lock, but for a refused try; an unlock ends without it. A condition wait sleeps only after
   * its entry is in the list, a signal goes on only after it has changed the list.
   */
  predicate After(s: State, c: Action, p: Pc)
    requires Begins(c)
  {
    match c
    case FastLock(t, l, try) => p.Idle? && ((t, l) in s.has || try)
    case StartUnlock(t, l) => p.Idle? && (t, l) !in s.has
    case StartCvWait(t, l) =>
      p == Blocked(l) || (p.Wake? && p.l == l && p.cont == Sleep) || (p.Idle? && (t, l) in s.has)
    case StartSignal(t, l, all) => (p.SigClear? && p.l == l) || p == SigSet(l) || (p.Idle? && (t, l) in s.has)
  }

  /** The step in which a condition wait or a signal takes effect on the list. */
  predicate Strikes(c: Action, p: Pc) {
    (c.StartCvWait? && p.CvAppend?) || (c.StartSignal? && p.SigMark?)
  }

  lemma {:induction false} LockPc(s: State, t: Tid, c: Action) returns (p': Pc)
    requires var p := At(s, t); p.LockSet? || p.LockGot? || p.LockAppend?
    requires Begins(c) && c.t == t && Before(c, At(s, t))
    ensures StepOf(s, t).pc == s.pc[t := p'] && (p'.Fault? || Before(c, p') || After(StepOf(s, t), c, p'))
  {
    match At(s, t)
    case LockSet(l) =>
      p' := if BitsOf(s, l).lock then LockAppend(l) else if BitsOf(s, l).wait then Fault else LockGot(l);
    case LockGot(l) => p' := Idle;
    case LockAppend(l) => p' := Blocked(l);
  }

  lemma {:induction false} FindPc(s: State, t: Tid, l: Lid, cv: bool) returns (p': Pc)
    ensures FindOf(s, t, l, cv).pc == s.pc[t := p']
    ensures p'.Fault? || ((if cv then p'.CvAppend? || p'.CvClear? else p'.UnlockExit? || p'.UnlockClear?) && p'.l == l)
  {
    var i := Find(s.list, l, Wait);
    if i == |s.list| {
      p' := Fault;
    } else {
      var rest := Removed(s.list, i);
      var h, more := s.list[i].t, Find(rest, l, Wait) < |rest|;
      p' := if cv then (if more then CvAppend(l, Some(h)) else CvClear(l, h))
            else (if more then UnlockExit(l, h) else UnlockClear(l, h));
    }
  }

  lemma {:induction false} ClearPc(s: State, t: Tid, l: Lid, q: Pc) returns (p': Pc)
    ensures ClearOf(s, t, l, q).pc == s.pc[t := p'] && (p'.Fault? || p' == q)
  {
    p' := if !BitsOf(s, l).lock || !BitsOf(s, l).wait then Fault else q;
  }

  lemma {:induction false} UnlockPc(s: State, t: Tid, c: Action) returns (p': Pc)
    requires var p := At(s, t); p.UnlockTry? || p.UnlockFind? || p.UnlockClear? || p.UnlockExit? || (p.Wake? && p.cont.Leave?)
    requires Begins(c) && c.t == t && Before(c, At(s, t)) && (t, At(s, t).l) !in s.has
    ensures StepOf(s, t).pc == s.pc[t := p'] && StepOf(s, t).has == s.has
    ensures p'.Fault? || Before(c, p') || p'.Idle?
  {
    match At(s, t)
    case UnlockTry(l) =>
      p' := if !BitsOf(s, l).lock then Fault else if BitsOf(s, l).wait then UnlockEnter(l) else Idle;
    case UnlockFind(l) => p' := FindPc(s, t, l, false);
    case UnlockClear(l, h) => p' := ClearPc(s, t, l, UnlockExit(l, h));
    case UnlockExit(l, h) => p' := Wake(l, h, Leave);
    case Wake(l, h, d) => p' := Idle;
  }

  lemma {:induction false} CvPc(s: State, t: Tid, c: Action) returns (p': Pc)
    requires var p := At(s, t); p.CvSet? || p.CvDrop? || p.CvFind? || p.CvClear? || p.CvAppend?
    requires Begins(c) && c.t == t && Before(c, At(s, t))
    ensures StepOf(s, t).pc == s.pc[t := p']
    ensures p'.Fault? || if Strikes(c, At(s, t)) then After(StepOf(s, t), c, p') else Before(c, p')
  {
    match At(s, t)
    case CvSet(l) => p' := CvEnter(l);
    case CvDrop(l) =>
      p' := if !BitsOf(s, l).lock then Fault else if BitsOf(s, l).wait then CvFind(l) else CvAppend(l, None);
    case CvFind(l) => p' := FindPc(s, t, l, true);
    case CvClear(l, h) => p' := ClearPc(s, t, l, CvAppend(l, Some(h)));
    case CvAppend(l, f) => p' := if f.Some? then Wake(l, f.value, Sleep) else Blocked(l);
  }

  lemma {:induction false} MarkPc(s: State, t: Tid, l: Lid, all: bool) returns (p': Pc)
    ensures MarkOf(s, t, l, all).pc == s.pc[t := p'] && (p'.Fault? || (p'.SigClear? && p'.l == l))
  {
    if Find(s.list, l, Cv) == |s.list| {
      p' := Fault;
    } else {
      var q := if all then MarkAll(s.list, l) else MarkOne(s.list, l);
      p' := SigClear(l, all || Find(q, l, Cv) == |q|);
    }
  }

  lemma {:induction false} LatePc(s: State, t: Tid, c: Action) returns (p': Pc)
    requires var p := At(s, t); p.SigClear? || p.SigSet? || (p.Wake? && p.cont.Sleep?)
    requires Begins(c) && c.t == t && After(s, c, At(s, t))
    ensures StepOf(s, t).pc == s.pc[t := p'] && After(StepOf(s, t), c, p')
  {
    match At(s, t)
    case SigClear(l, last) => p' := SigSet(l);
    case SigSet(l) => p' := Idle;
    case Wake(l, h, d) => p' := Blocked(l);
  }

  /** Calls that end in the step in which they take effect. */
  predicate Ends(c: Action) {
    c.FastLock? || c.StartUnlock?
  }

  /** The call is under way; a thread that is unlocking no longer counts as having the lock. */
  predicate Under(s: State, c: Action)
    requires Begins(c)
  {
    Before(c, At(s, c.t)) && (c.StartUnlock? ==> (c.t, c.l) !in s.has)
  }

  predicate Done(s: State, c: Action)
    requires Begins(c)
  {
    After(s, c, At(s, c.t))
  }

  /** One step, seen from the thread whose call is `c`. */
  predicate Follows(s: State, a: Action, s': State, c: Action)
    requires Begins(c)
  {
    if a.t != c.t then At(s', c.t) == At(s, c.t) && ((c.t, c.l) in s'.has <==> (c.t, c.l) in s.has)
    else if Begins(a) then a == c ==> Under(s', c) || Done(s', c)
    else
      && (Under(s, c) ==>
            if a.Step? && Strikes(c, At(s, c.t)) then Done(s', c) else Under(s', c) || (Ends(c) && Done(s', c)))
      && (Done(s, c) ==> Done(s', c))
  }

  lemma {:induction false} OthersStay(s: State, a: Action, t: Tid, l: Lid)
    requires Can(s, a) && a.t != t
    ensures var s' := Do(s, a); At(s', t) == At(s, t) && ((t, l) in s'.has <==> (t, l) in s.has)
  {
    if a.Step? {
      OtherSteps(s, a.t, t, l);
    }
  }

  lemma {:induction false} OtherSteps(s: State, u: Tid, t: Tid, l: Lid)
    requires Steps(At(s, u)) && u != t
    ensures var s' := StepOf(s, u); At(s', t) == At(s, t) && ((t, l) in s'.has <==> (t, l) in s.has)
  {
    match At(s, u)
    case UnlockFind(n) => var p' := FindPc(s, u, n, false);
    case CvFind(n) => var p' := FindPc(s, u, n, true);
    case SigMark(n, all) => var p' := MarkPc(s, u, n, all);
    case _ =>
  }

  lemma {:induction false} BeginFollows(s: State, a: Action)
    requires Can(s, a) && Begins(a)
    ensures Under(Do(s, a), a) || Done(Do(s, a), a)
  {
  }

  lemma {:induction false} QuietFollows(s: State, a: Action, c: Action)
    requires Can(s, a) && (a.TakeList? || a.Resume?) && Begins(c) && c.t == a.t
    ensures Follows(s, a, Do(s, a), c)
  {
  }

  lemma {:induction false} StepLocks(s: State, t: Tid, c: Action)
    requires Steps(At(s, t)) && !At(StepOf(s, t), t).Fault? && c.FastLock? && c.t == t && Under(s, c)
    ensures Under(StepOf(s, t), c) || Done(StepOf(s, t), c)
  {
    var p' := LockPc(s, t, c);
  }

  lemma {:induction false} StepUnlocks(s: State, t: Tid, c: Action)
    requires Steps(At(s, t)) && !At(StepOf(s, t), t).Fault? && c.StartUnlock? && c.t == t && Under(s, c)
    ensures Under(StepOf(s, t), c) || Done(StepOf(s, t), c)
  {
    var p' := UnlockPc(s, t, c);
  }

  lemma {:induction false} StepWaits(s: State, t: Tid, c: Action)
    requires Steps(At(s, t)) && !At(StepOf(s, t), t).Fault? && c.StartCvWait? && c.t == t && Under(s, c)
    ensures var s' := StepOf(s, t); if Strikes(c, At(s, t)) then Done(s', c) else Under(s', c)
  {
    var p' := CvPc(s, t, c);
  }

  lemma {:induction false} StepSignals(s: State, t: Tid, c: Action)
    requires Steps(At(s, t)) && !At(StepOf(s, t), t).Fault? && c.StartSignal? && c.t == t && Under(s, c)
    ensures At(s, t).SigMark? && Done(StepOf(s, t), c)
  {
    var p' := MarkPc(s, t, c.l, c.all);
  }

  lemma {:induction false} StepUnder(s: State, t: Tid, c: Action)
    requires Steps(At(s, t)) && !At(StepOf(s, t), t).Fault? && Begins(c) && c.t == t && Under(s, c)
    ensures var s' := StepOf(s, t);
      if Strikes(c, At(s, t)) then Done(s', c) else Under(s', c) || (Ends(c) && Done(s', c))
  {
    match c
    case FastLock(_, _, _) => StepLocks(s, t, c);
    case StartUnlock(_, _) => StepUnlocks(s, t, c);
    case StartCvWait(_, _) => StepWaits(s, t, c);
    case StartSignal(_, _, _) => StepSignals(s, t, c);
  }

  lemma {:induction false} StepDone(s: State, t: Tid, c: Action)
    requires Steps(At(s, t)) && Begins(c) && c.t == t && Done(s, c)
    ensures Done(StepOf(s, t), c)
  {
    var p' := LatePc(s, t, c);
  }

  lemma {:induction false} StepFollows(s: State, a: Action, s': State, c: Action)
    requires Can(s, a) && s' == Do(s, a) && !At(s', a.t).Fault? && Begins(c)
    ensures Follows(s, a, s', c)
  {
    if a.t != c.t {
      OthersStay(s, a, c.t, c.l);
    } else if Begins(a) {
      BeginFollows(s, a);
    } else if a.Step? {
      if Under(s, c) {
        StepUnder(s, a.t, c);
      }
      if Done(s, c) {
        StepDone(s, a.t, c);
      }
    } else {
      QuietFollows(s, a, c);
    }
  }

  ghost predicate FollowsAt(ss: seq<State>, acts: seq<Action>, k: nat, c: Action)
    requires |ss| == |acts| + 1 && k < |acts| && Begins(c)
  {
    Follows(ss[k], acts[k], ss[k + 1], c) && ListAt(ss, acts, k)
  }

  ghost predicate History(ss: seq<State>, acts: seq<Action>, c: Action) {
    |ss| == |acts| + 1 && Begins(c) && forall k :: 0 <= k < |acts| ==> FollowsAt(ss, acts, k, c)
  }

  lemma {:induction false} RunHistory(ss: seq<State>, acts: seq<Action>, c: Action)
    requires Run(ss, acts) && Begins(c)
    ensures History(ss, acts, c)
  {
    forall k | 0 <= k < |acts|
      ensures FollowsAt(ss, acts, k, c)
    {
      ListChanges(ss, acts, k);
      Exclusion(ss, acts, k + 1, acts[k].t, 0, 0);
      StepFollows(ss[k], acts[k], ss[k + 1], c);
    }
  }

  /** Call `c` began at `j`, and its thread has begun no other since. */
  predicate Calling(acts: seq<Action>, j: nat, k: nat, c: Action)
    requires j < k <= |acts|
  {
    acts[j] == c && Begins(c) && forall m :: j < m < k && acts[m].t == c.t ==> !Begins(acts[m])
  }

  /** What a condition wait and a signal have done to the list at step `e`. */
  ghost predicate Effect(c: Action, q: seq<Entry>, q': seq<Entry>) {
    match c
    case StartCvWait(t, l) => q' == q + [Entry(t, l, Cv)]
    case StartSignal(_, l, all) => if all then Broadcast(q, q', l) else Signalled(q, q', l)
    case _ => true
  }

  ghost predicate Struck(ss: seq<State>, acts: seq<Action>, j: nat, k: nat, c: Action)
    requires |ss| == |acts| + 1 && j < k < |ss| && Begins(c)
  {
    exists e :: j < e < k && acts[e] == Step(c.t) && Effect(c, ss[e].list, ss[e + 1].list)
  }

  /** The call goes on, or it has taken effect, or it had nothing to do. */
  ghost predicate Goes(ss: seq<State>, acts: seq<Action>, j: nat, k: nat, c: Action)
    requires |ss| == |acts| + 1 && j < k < |ss| && Begins(c)
  {
    Under(ss[k], c) || (Done(ss[k], c) && (Ends(c) || Struck(ss, acts, j, k, c) || Done(ss[j + 1], c)))
  }

  lemma {:induction false} StruckLonger(ss: seq<State>, acts: seq<Action>, j: nat, k: nat, c: Action)
    requires |ss| == |acts| + 1 && j < k < |acts| && Begins(c) && Struck(ss, acts, j, k, c)
    ensures Struck(ss, acts, j, k + 1, c)
  {
  }

  lemma {:induction false} StrikeEffect(ss: seq<State>, acts: seq<Action>, k: nat, c: Action)
    requires |ss| == |acts| + 1 && k < |acts| && Begins(c) && ListAt(ss, acts, k)
    requires acts[k] == Step(c.t) && Before(c, At(ss[k], c.t)) && Strikes(c, At(ss[k], c.t))
    ensures Effect(c, ss[k].list, ss[k + 1].list)
  {
  }

  lemma {:induction false} GoesStep(ss: seq<State>, acts: seq<Action>, j: nat, k: nat, c: Action)
    requires |ss| == |acts| + 1 && j < k < |acts| && Begins(c) && FollowsAt(ss, acts, k, c)
    requires Goes(ss, acts, j, k, c) && (acts[k].t == c.t ==> !Begins(acts[k]))
    ensures Goes(ss, acts, j, k + 1, c)
  {
    if Struck(ss, acts, j, k, c) {
      StruckLonger(ss, acts, j, k, c);
    }
    if Under(ss[k], c) && acts[k].t == c.t && acts[k].Step? && Strikes(c, At(ss[k], c.t)) {
      StrikeEffect(ss, acts, k, c);
      assert Struck(ss, acts, j, k + 1, c);
    }
  }

  lemma {:induction false} CallGoesOn(ss: seq<State>, acts: seq<Action>, j: nat, k: nat, c: Action)
    requires History(ss, acts, c) && j < k < |ss| && Calling(acts, j, k, c)
    ensures Goes(ss, acts, j, k, c)
  {
    assert FollowsAt(ss, acts, k - 1, c);
    if j + 1 < k {
      CallGoesOn(ss, acts, j, k - 1, c);
      GoesStep(ss, acts, j, k - 1, c);
    }
  }

  lemma {:induction false} SignalSkips(s: State, t: Tid, l: Lid, all: bool)
    requires Inv(s) && Can(s, StartSignal(t, l, all))
    ensures var s' := Do(s, StartSignal(t, l, all));
      Done(s', StartSignal(t, l, all)) ==> s' == s && !Waits(s.list, l, Cv)
  {
    InvAt(s, t, l);
  }

  lemma {:induction false} WaitBegins(s: State, t: Tid, l: Lid)
    requires Can(s, StartCvWait(t, l))
    ensures !Done(Do(s, StartCvWait(t, l)), StartCvWait(t, l))
  {
  }

  /**
   * Every call stays with its own lock and ends as promised. A condition wait sleeps or ends only after
   * its entry has joined the list for the condition; a signal or broadcast ends only after it has changed
   * the list as it should, or at once, changing nothing, when no one waits for the condition.
   */
  lemma {:induction false} CallEnds(ss: seq<State>, acts: seq<Action>, j: nat, k: nat, c: Action)
    requires Run(ss, acts) && j < k < |ss| && Calling(acts, j, k, c)
    ensures Under(ss[k], c) || Done(ss[k], c)
    ensures c.StartCvWait? && !Before(c, At(ss[k], c.t)) ==> Struck(ss, acts, j, k, c)
    ensures c.StartSignal? && !Before(c, At(ss[k], c.t)) ==>
      Struck(ss, acts, j, k, c) || (ss[j + 1] == ss[j] && !Waits(ss[j].list, c.l, Cv))
  {
    RunHistory(ss, acts, c);
    CallGoesOn(ss, acts, j, k, c);
    RunInv(ss, acts, j);
    if c.StartSignal? {
      SignalSkips(ss[j], c.t, c.l, c.all);
    } else if c.StartCvWait? {
      WaitBegins(ss[j], c.t, c.l);
    }
  }

  lemma {:induction false} FindMoves(s: State, t: Tid, l: Lid, cv: bool)
    ensures !At(FindOf(s, t, l, cv), t).UnlockFind? && !At(FindOf(s, t, l, cv), t).CvFind?
  {
    var p' := FindPc(s, t, l, cv);
  }

  lemma {:induction false} MarkMoves(s: State, t: Tid, l: Lid, all: bool)
    ensures !At(MarkOf(s, t, l, all), t).SigMark?
  {
    var p' := MarkPc(s, t, l, all);
  }

  lemma {:induction false} LockMoves(s: State, t: Tid)
    requires var p := At(s, t); p.LockSet? || p.LockGot? || p.LockAppend? || p.UnlockTry? || p.UnlockExit? || p.Wake?
    ensures At(StepOf(s, t), t) != At(s, t)
  {
  }

  lemma {:induction false} CvMoves(s: State, t: Tid)
    requires var p := At(s, t); p.UnlockClear? || p.CvSet? || p.CvDrop? || p.CvClear? || p.CvAppend? || p.SigClear? || p.SigSet?
    ensures At(StepOf(s, t), t) != At(s, t)
  {
  }

  lemma {:induction false} ListMoves(s: State, a: Action)
    requires Can(s, a) && (a.TakeList? || a.Resume?)
    ensures At(Do(s, a), a.t) != At(s, a.t)
  {
  }

  lemma {:induction false} OwnMoves(s: State, a: Action)
    requires Can(s, a) && !Begins(a)
    ensures At(Do(s, a), a.t) != At(s, a.t)
  {
    var p := At(s, a.t);
    if !a.Step? {
      ListMoves(s, a);
    } else if p.UnlockFind? || p.CvFind? {
      FindMoves(s, a.t, p.l, p.CvFind?);
    } else if p.SigMark? {
      MarkMoves(s, a.t, p.l, p.all);
    } else if p.LockSet? || p.LockGot? || p.LockAppend? || p.UnlockTry? || p.UnlockExit? || p.Wake? {
      LockMoves(s, a.t);
    } else {
      CvMoves(s, a.t);
    }
  }

  /** Every step of a call gets its thread on. */
  lemma {:induction false} StepsMove(ss: seq<State>, acts: seq<Action>, k: nat)
    requires Run(ss, acts) && k < |acts| && !Begins(acts[k])
    ensures At(ss[k + 1], acts[k].t) != At(ss[k], acts[k].t)
  {
    OwnMoves(ss[k], acts[k]);
  }
}
