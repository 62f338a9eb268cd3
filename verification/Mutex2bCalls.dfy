/** What the callers of the 2-byte mutexes get: when a try succeeds, and how every call goes on and ends. */
module Mutex2bCalls {
  import opened Base
  import opened Mutex2b
  import opened Mutex2bRuns

  /** A try gets a mutex that no one owns, and only that; otherwise it changes nothing. */
  lemma {:induction false} TryTakes(ss: seq<State>, acts: seq<Action>, k: nat)
    requires Run(ss, acts) && k < |acts| && acts[k].TryLock?
    ensures var s, s', t, m := ss[k], ss[k + 1], acts[k].t, acts[k].m;
      if Line(s, m) == [] then Line(s', m) == [t] && (t, m) in s'.has else s' == s
  {
    RunInv(ss, acts, k);
    InvAt(ss[k], acts[k].t, acts[k].m);
    TryStep(ss[k], acts[k].t, acts[k].m);
  }

  lemma {:induction false} TryStep(s: State, t: Tid, m: Mid)
    requires LineOk(s, m)
    ensures var s' := TryLockOf(s, t, m);
      if Line(s, m) == [] then Line(s', m) == [t] && (t, m) in s'.has else s' == s
  {
  }

  // ---------- where a call can be, and how it ends ----------

  predicate Begins(a: Action) {
    a.StartLock? || a.StartUnlock?
  }

  /** The call is under way for its own mutex, or it has ended: with the mutex, or without it. */
  predicate Inside(s: State, c: Action, p: Pc)
    requires Begins(c)
  {
    match c
    case StartLock(t, m) =>
      (match p
       case Lock(n) => n == m
       case LockSwap(n, _) => n == m
       case Blocked(n) => n == m
       case Idle => (t, m) in s.has
       case _ => false)
    case StartUnlock(t, m) =>
      && (t, m) !in s.has
      && (match p
          case Unlock(n, _) => n == m
          case UnlockWalk(n, _, _) => n == m
          case UnlockSwap(n, _, _) => n == m
          case HandOver(n, _) => n == m
          case Wake(n, _) => n == m
          case Idle => true
          case _ => false)
  }

  // ---------- the program counter after each step ----------

  lemma {:induction false} PushPc(s: State, t: Tid, m: Mid)
    ensures var s', free := Pushed(s, t, m), Word(s, m) == NIL;
      && s'.pc == s.pc[t := if free then Idle else Blocked(m)]
      && s'.has == if free then s.has + {(t, m)} else s.has
  {
  }

  lemma {:induction false} SetNextPc(s: State, t: Tid) returns (p': Pc)
    requires At(s, t).Lock?
    ensures SetNextOf(s, t).pc == s.pc[t := p'] && SetNextOf(s, t).has == s.has
    ensures p'.Fault? || (p'.LockSwap? && p'.m == At(s, t).m)
  {
    var m := At(s, t).m;
    p' := if Word(s, m) == t then Fault else LockSwap(m, Word(s, m));
  }

  lemma {:induction false} SwapLockPc(s: State, t: Tid) returns (p': Pc)
    requires At(s, t).LockSwap?
    ensures SwapLockOf(s, t).pc == s.pc[t := p']
    ensures var m := At(s, t).m;
      && (p' == Lock(m) || p' == Blocked(m) || p'.Idle?)
      && SwapLockOf(s, t).has == if p'.Idle? then s.has + {(t, m)} else s.has
  {
    var p := At(s, t);
    if Word(s, p.m) != p.seen {
      p' := Lock(p.m);
    } else {
      PushPc(s, t, p.m);
      p' := if Word(s, p.m) == NIL then Idle else Blocked(p.m);
    }
  }

  lemma {:induction false} ReadWordPc(s: State, t: Tid) returns (p': Pc)
    requires At(s, t).Unlock?
    ensures ReadWordOf(s, t).pc == s.pc[t := p'] && ReadWordOf(s, t).has == s.has
    ensures p'.Fault? || ((p'.UnlockSwap? || p'.UnlockWalk?) && p'.m == At(s, t).m)
  {
    var p := At(s, t);
    var seen := Word(s, p.m);
    p' := if seen == t || p.found.Some? then UnlockSwap(p.m, seen, p.found)
          else if seen == NIL then Fault else UnlockWalk(p.m, seen, seen);
  }

  lemma {:induction false} StepWalkPc(s: State, t: Tid) returns (p': Pc)
    requires At(s, t).UnlockWalk?
    ensures StepWalkOf(s, t).pc == s.pc[t := p'] && StepWalkOf(s, t).has == s.has
    ensures var p, n := At(s, t), Next(s, At(s, t).cur);
      if n == t then p' == UnlockSwap(p.m, p.seen, Some(p.cur)) else p' == if n == NIL then Fault else UnlockWalk(p.m, p.seen, n)
  {
    var p := At(s, t);
    var n := Next(s, p.cur);
    p' := if n == t then UnlockSwap(p.m, p.seen, Some(p.cur)) else if n == NIL then Fault else UnlockWalk(p.m, p.seen, n);
  }

  lemma {:induction false} SwapUnlockPc(s: State, t: Tid) returns (p': Pc)
    requires At(s, t).UnlockSwap?
    ensures SwapUnlockOf(s, t).pc == s.pc[t := p'] && SwapUnlockOf(s, t).has == s.has
    ensures p'.Fault? || p'.Idle? || ((p'.Unlock? || p'.HandOver?) && p'.m == At(s, t).m)
  {
    var p := At(s, t);
    if p.seen == t {
      p' := if Word(s, p.m) != p.seen then Unlock(p.m, p.found) else if p.found.Some? then Fault else Idle;
    } else {
      p' := if p.found == None || Next(s, p.found.value) != t then Fault
            else if Word(s, p.m) != p.seen then Unlock(p.m, p.found) else HandOver(p.m, p.found.value);
    }
  }

  lemma {:induction false} GivePc(s: State, a: Action) returns (p': Pc)
    requires Can(s, a) && (a.ClearNext? || a.Signal?)
    ensures Do(s, a).pc == s.pc[a.t := p'] && Do(s, a).has == s.has
    ensures p' == if a.Signal? then Idle else Wake(At(s, a.t).m, At(s, a.t).heir)
  {
    p' := if a.Signal? then Idle else Wake(At(s, a.t).m, At(s, a.t).heir);
  }

  lemma {:induction false} StepPc(s: State, a: Action) returns (p': Pc)
    requires Can(s, a) && !a.TryLock? && !Begins(a)
    ensures Do(s, a).pc == s.pc[a.t := p']
    ensures p'.Fault? || (At(s, a.t) != Idle && forall c :: Begins(c) && c.t == a.t && Inside(s, c, At(s, a.t)) ==> Inside(Do(s, a), c, p'))
    ensures Do(s, a).has == s.has || (!At(s, a.t).Idle? && Do(s, a).has == s.has + {(a.t, At(s, a.t).m)})
  {
    match a
    case SetNext(t) => p' := SetNextPc(s, t);
    case SwapLock(t) => p' := SwapLockPc(s, t);
    case Resume(t) => p' := Idle;
    case ReadWord(t) => p' := ReadWordPc(s, t);
    case StepWalk(t) => p' := StepWalkPc(s, t);
    case SwapUnlock(t) => p' := SwapUnlockPc(s, t);
    case ClearNext(t) => p' := GivePc(s, a);
    case Signal(t) => p' := GivePc(s, a);
  }

  lemma {:induction false} OthersStay(s: State, a: Action, t: Tid, m: Mid)
    requires Can(s, a) && a.t != t
    ensures var s' := Do(s, a); At(s', t) == At(s, t) && ((t, m) in s'.has <==> (t, m) in s.has)
  {
    if a.TryLock? {
      PushPc(s, a.t, a.m);
    } else if !Begins(a) {
      var p' := StepPc(s, a);
    }
  }

  /** One step, seen from the thread whose call is `c`. */
  predicate Follows(s: State, a: Action, s': State, c: Action)
    requires Begins(c)
  {
    if a.t == c.t && (a.TryLock? || Begins(a)) then a == c ==> Inside(s', c, At(s', c.t))
    else Inside(s, c, At(s, c.t)) ==> Inside(s', c, At(s', c.t))
  }

  lemma {:induction false} StepFollows(s: State, a: Action, s': State, c: Action)
    requires Can(s, a) && s' == Do(s, a) && !At(s', a.t).Fault? && Begins(c)
    ensures Follows(s, a, s', c)
  {
    if a.t != c.t {
      OthersStay(s, a, c.t, c.m);
    } else if !a.TryLock? && !Begins(a) {
      var p' := StepPc(s, a);
    }
  }

  ghost predicate FollowsAt(ss: seq<State>, acts: seq<Action>, k: nat, c: Action)
    requires |ss| == |acts| + 1 && k < |acts| && Begins(c)
  {
    Follows(ss[k], acts[k], ss[k + 1], c)
  }

  ghost predicate History(ss: seq<State>, acts: seq<Action>, c: Action) {
    |ss| == |acts| + 1 && Begins(c) && forall k :: 0 <= k < |acts| ==> FollowsAt(ss, acts, k, c)
  }

  lemma {:induction false} RunHistory(ss: seq<State>, acts: seq<Action>, c: Action)
    requires Run(ss, acts) && Begins(c)
    ensures History(ss, acts, c)
  {
    forall k | 0 <= k < |acts|
      ensures FollowsAt(ss, acts, k, c)
    {
      Exclusion(ss, acts, k + 1, acts[k].t, 0, 0);
      StepFollows(ss[k], acts[k], ss[k + 1], c);
    }
  }

  /** Call `c` began at `j`, and its thread has begun no other since. */
  predicate Calling(acts: seq<Action>, j: nat, k: nat, c: Action)
    requires j < k <= |acts|
  {
    && acts[j] == c && Begins(c)
    && forall m :: j < m < k && acts[m].t == c.t ==> !acts[m].TryLock? && !Begins(acts[m])
  }

  lemma {:induction false} CallGoesOn(ss: seq<State>, acts: seq<Action>, j: nat, k: nat, c: Action)
    requires History(ss, acts, c) && j < k < |ss| && Calling(acts, j, k, c)
    ensures Inside(ss[k], c, At(ss[k], c.t))
  {
    assert FollowsAt(ss, acts, k - 1, c);
    if j + 1 < k {
      CallGoesOn(ss, acts, j, k - 1, c);
    }
  }

  /**
   * A lock call stays with its mutex and ends owning it; an unlock stays with its mutex and ends neither
   * owning it nor waiting for it.
   */
  lemma {:induction false} CallEnds(ss: seq<State>, acts: seq<Action>, j: nat, k: nat, c: Action)
    requires Run(ss, acts) && j < k < |ss| && Calling(acts, j, k, c)
    ensures Inside(ss[k], c, At(ss[k], c.t))
    ensures At(ss[k], c.t).Idle? ==>
      if c.StartLock? then Owns(ss[k], c.t, c.m) else c.t !in Line(ss[k], c.m)
  {
    RunHistory(ss, acts, c);
    CallGoesOn(ss, acts, j, k, c);
    RunInv(ss, acts, k);
    InvAt(ss[k], c.t, c.m);
    if At(ss[k], c.t).Idle? && c.StartUnlock? {
      NotInLine(ss[k], c.t, c.m);
    }
  }

  // ---------- each step of the walk ----------

  /** Each step of the walk goes on to the next older waiter, and ends at the oldest. */
  lemma {:induction false} WalkGetsOn(ss: seq<State>, acts: seq<Action>, k: nat) returns (i: nat)
    requires Run(ss, acts) && k < |acts| && acts[k].StepWalk?
    ensures var s, p, p' := ss[k], At(ss[k], acts[k].t), At(ss[k + 1], acts[k].t);
      && 1 <= i < |Line(s, p.m)| && Line(s, p.m)[i] == p.cur
      && p' == if i == 1 then UnlockSwap(p.m, p.seen, Some(p.cur)) else UnlockWalk(p.m, p.seen, Line(s, p.m)[i - 1])
  {
    RunInv(ss, acts, k);
    var s, t := ss[k], acts[k].t;
    var p := At(s, t);
    InvAt(s, t, p.m);
    var j :| 0 <= j < |Line(s, p.m)| - 1 && Line(s, p.m)[1..][j] == p.cur;
    i := j + 1;
    WalkStep(s, t, p.m, i);
    var p' := StepWalkPc(s, t);
  }

  /** Every step of a call gets its thread on. */
  lemma {:induction false} StepsMove(ss: seq<State>, acts: seq<Action>, k: nat)
    requires Run(ss, acts) && k < |acts| && !acts[k].TryLock? && !Begins(acts[k])
    ensures At(ss[k + 1], acts[k].t) != At(ss[k], acts[k].t)
  {
    RunInv(ss, acts, k);
    if acts[k].StepWalk? {
      var i := WalkGetsOn(ss, acts, k);
      InvAt(ss[k], acts[k].t, At(ss[k], acts[k].t).m);
    } else {
      OwnMoves(ss[k], acts[k]);
    }
  }

  lemma {:induction false} OwnMoves(s: State, a: Action)
    requires Can(s, a) && !a.TryLock? && !Begins(a) && !a.StepWalk?
    ensures At(Do(s, a), a.t) != At(s, a.t)
  {
    match a
    case SetNext(t) => var p' := SetNextPc(s, t);
    case SwapLock(t) => var p' := SwapLockPc(s, t);
    case Resume(t) =>
    case ReadWord(t) => var p' := ReadWordPc(s, t);
    case SwapUnlock(t) => var p' := SwapUnlockPc(s, t);
    case ClearNext(t) => var p' := GivePc(s, a);
    case Signal(t) => var p' := GivePc(s, a);
  }
}
