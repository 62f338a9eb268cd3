/** What the callers of the 4-byte mutex get: when a lock is granted, and how every call goes on and ends. */
module MutexCalls {
  import opened Base
  import opened Mutex
  import opened MutexRuns

  /**
   * A lock call gets a mutex that has no owner, and only that. Otherwise a try changes nothing, and a
   * blocking call joins the line as its newest waiter.
   */
  lemma {:induction false} LockGranted(ss: seq<State>, acts: seq<Action>, k: nat)
    requires Run(ss, acts) && k < |acts| && (acts[k].TryLock? || acts[k].Lock?)
    ensures var s, s', t := ss[k], ss[k + 1], acts[k].t;
      if s.owner == NIL then s'.owner == t && At(s', t).Owning? && s'.line == s.line
      else if acts[k].TryLock? then s' == s
      else At(s', t).Blocked? && s'.line == s.line + [t] && s'.owner == s.owner
  {
    RunInv(ss, acts, k);
    RunInv(ss, acts, k + 1);
    var s, t := ss[k], acts[k].t;
    assert ThreadOk(s, t) && ThreadOk(ss[k + 1], t);
    if s.owner == NIL {
      NoOwner(s);
    }
    if acts[k].TryLock? {
      TryStep(s, t);
    } else {
      LockStep(s, t);
    }
  }

  lemma {:induction false} TryStep(s: State, t: Tid)
    requires s.owner == NIL ==> s.waitq == NIL
    ensures var s' := TryLockOf(s, t);
      if s.owner == NIL then s'.owner == t && At(s', t).Owning? && s'.line == s.line else s' == s
  {
  }

  lemma {:induction false} LockStep(s: State, t: Tid)
    requires !At(LockOf(s, t), t).Fault?
    ensures var s' := LockOf(s, t);
      if s.owner == NIL then s'.owner == t && At(s', t).Owning? && s'.line == s.line
      else At(s', t).Blocked? && s'.line == s.line + [t] && s'.owner == s.owner
  {
  }

  // ---------- where a call can be, and how it ends ----------

  predicate Begins(a: Action) {
    a.Lock? || a.StartUnlock?
  }

  /** A lock call sleeps or ends owning; an unlock is under way or ends idle. */
  predicate Inside(c: Action, p: Pc)
    requires Begins(c)
  {
    if c.Lock? then p.Owning? || p.Blocked?
    else p.Idle? || p.Unlock? || p.Walk? || p.Swap? || p.Unlink? || p.Wake?
  }

  lemma {:induction false} ReadWordPc(s: State, t: Tid) returns (p': Pc)
    ensures ReadWordOf(s, t).pc == s.pc[t := p'] && (p'.Fault? || p'.Swap? || p'.Walk?)
    ensures p'.Swap? ==> p'.seen == s.waitq
  {
    if s.owner != t {
      p' := Fault;
    } else if s.waitq == NIL {
      p' := Swap(NIL, None, 0);
    } else {
      var m := if s.line == [] then 0 else |s.line| - 1;
      p' := Walk(s.waitq, s.waitq, m, m);
    }
  }

  lemma {:induction false} WalkPc(s: State, t: Tid) returns (p': Pc)
    requires At(s, t).Walk?
    ensures StepWalkOf(s, t).pc == s.pc[t := p']
    ensures var p, n := At(s, t), Next(s, At(s, t).cur);
      if n == NIL then p' == Swap(p.seen, Some(p.cur), p.m)
      else p'.Fault? || (p'.Walk? && p'.seen == p.seen && p'.cur == n)
  {
    var p := At(s, t);
    var n := Next(s, p.cur);
    p' := if n == NIL then Swap(p.seen, Some(p.cur), p.m)
          else if Prev(s, n) != NIL && Prev(s, n) != p.cur then Fault
          else Walk(p.seen, n, p.m, if p.j == 0 then 0 else p.j - 1);
  }

  lemma {:induction false} SwapPc(s: State, t: Tid) returns (p': Pc)
    requires At(s, t).Swap?
    ensures SwapOf(s, t).pc == s.pc[t := p']
    ensures p'.Fault? || p'.Swap? || p'.Walk? || p'.Idle? || p'.Unlink?
    ensures p'.Swap? && s.owner == t ==> p'.seen == s.waitq != At(s, t).seen
  {
    var p := At(s, t);
    if s.owner != t || s.waitq != p.seen {
      p' := ReadWordPc(s, t);
    } else if p.found == None {
      p' := if s.waitq != NIL then Fault else Idle;
    } else {
      p' := Unlink(p.found.value);
    }
  }

  lemma {:induction false} UnlinkPc(s: State, t: Tid) returns (p': Pc)
    requires At(s, t).Unlink?
    ensures UnlinkOf(s, t).pc == s.pc[t := p'] && (p'.Fault? || p' == Wake(At(s, t).heir))
  {
    var h := At(s, t).heir;
    var n, p := Next(s, h), Prev(s, h);
    p' := if (n != NIL && Prev(s, n) != h) || (p != NIL && Next(s, p) != h) then Fault else Wake(h);
  }

  lemma {:induction false} StepPc(s: State, a: Action) returns (p': Pc)
    requires Can(s, a) && !Begins(a) && !a.TryLock?
    ensures Do(s, a).pc == s.pc[a.t := p']
    ensures p'.Fault? || forall c :: Begins(c) && Inside(c, At(s, a.t)) ==> Inside(c, p')
  {
    match a
    case Resume(t) => p' := if s.owner == t then Owning else Fault;
    case ReadWord(t) => p' := ReadWordPc(s, t);
    case StepWalk(t) => p' := WalkPc(s, t);
    case DoSwap(t) => p' := SwapPc(s, t);
    case DoUnlink(t) => p' := UnlinkPc(s, t);
    case Signal(t) => p' := Idle;
  }

  /** One step, seen from the thread whose call is `c`. */
  predicate Follows(s: State, a: Action, s': State, c: Action)
    requires Begins(c)
  {
    if a.t == c.t && (a.TryLock? || Begins(a)) then a == c ==> Inside(c, At(s', c.t))
    else Inside(c, At(s, c.t)) ==> Inside(c, At(s', c.t))
  }

  lemma {:induction false} OthersBegin(s: State, a: Action, t: Tid)
    requires Can(s, a) && a.t != t && (a.TryLock? || Begins(a))
    ensures At(Do(s, a), t) == At(s, t)
  {
  }

  lemma {:induction false} BeginStep(s: State, a: Action)
    requires Can(s, a) && Begins(a) && !At(Do(s, a), a.t).Fault?
    ensures Inside(a, At(Do(s, a), a.t))
  {
  }

  lemma {:induction false} StepFollows(s: State, a: Action, s': State, c: Action)
    requires Can(s, a) && s' == Do(s, a) && !At(s', a.t).Fault? && Begins(c)
    ensures Follows(s, a, s', c)
  {
    if a.TryLock? || Begins(a) {
      if a.t != c.t {
        OthersBegin(s, a, c.t);
      } else if a == c {
        BeginStep(s, a);
      }
    } else {
      var p' := StepPc(s, a);
    }
  }

  ghost predicate FollowsAt(ss: seq<State>, acts: seq<Action>, k: nat, c: Action)
    requires |ss| == |acts| + 1 && k < |acts| && Begins(c)
  {
    Follows(ss[k], acts[k], ss[k + 1], c)
  }

  ghost predicate History(ss: seq<State>, acts: seq<Action>, c: Action) {
    |ss| == |acts| + 1 && Begins(c) && forall k :: 0 <= k < |acts| ==> FollowsAt(ss, acts, k, c)
  }

  lemma {:induction false} RunHistory(ss: seq<State>, acts: seq<Action>, c: Action)
    requires Run(ss, acts) && Begins(c)
    ensures History(ss, acts, c)
  {
    forall k | 0 <= k < |acts|
      ensures FollowsAt(ss, acts, k, c)
    {
      Exclusion(ss, acts, k + 1, acts[k].t, 0);
      StepFollows(ss[k], acts[k], ss[k + 1], c);
    }
  }

  /** Call `c` began at `j`, and its thread has begun no other since. */
  predicate Calling(acts: seq<Action>, j: nat, k: nat, c: Action)
    requires j < k <= |acts|
  {
    && acts[j] == c && Begins(c)
    && forall m :: j < m < k && acts[m].t == c.t ==> !acts[m].TryLock? && !Begins(acts[m])
  }

  lemma {:induction false} CallGoesOn(ss: seq<State>, acts: seq<Action>, j: nat, k: nat, c: Action)
    requires History(ss, acts, c) && j < k < |ss| && Calling(acts, j, k, c)
    ensures Inside(c, At(ss[k], c.t))
  {
    assert FollowsAt(ss, acts, k - 1, c);
    if j + 1 < k {
      CallGoesOn(ss, acts, j, k - 1, c);
    }
  }

  /** A lock call ends owning the mutex; an unlock ends neither owning it nor waiting for it. */
  lemma {:induction false} CallEnds(ss: seq<State>, acts: seq<Action>, j: nat, k: nat, c: Action)
    requires Run(ss, acts) && j < k < |ss| && Calling(acts, j, k, c)
    ensures Inside(c, At(ss[k], c.t))
    ensures At(ss[k], c.t).Owning? ==> ss[k].owner == c.t
    ensures At(ss[k], c.t).Idle? ==> (c.t < NIL ==> ss[k].owner != c.t) && c.t !in ss[k].line
  {
    RunHistory(ss, acts, c);
    CallGoesOn(ss, acts, j, k, c);
    RunInv(ss, acts, k);
    assert ThreadOk(ss[k], c.t);
    if At(ss[k], c.t).Idle? {
      NotLinked(ss[k], c.t);
    }
  }

  /** Each step of the walk goes on to the next older waiter, and ends at the oldest. */
  lemma {:induction false} WalkGetsOn(ss: seq<State>, acts: seq<Action>, k: nat) returns (i: nat)
    requires Run(ss, acts) && k < |acts| && acts[k].StepWalk?
    ensures var s, p, p' := ss[k], At(ss[k], acts[k].t), At(ss[k + 1], acts[k].t);
      && i < |s.line| && s.line[i] == p.cur
      && if i == 0 then p' == Swap(p.seen, Some(p.cur), p.m) else p'.Walk? && p'.seen == p.seen && p'.cur == s.line[i - 1]
  {
    RunInv(ss, acts, k);
    Exclusion(ss, acts, k + 1, acts[k].t, 0);
    var s, t := ss[k], acts[k].t;
    assert ThreadOk(s, t);
    OwnerAwake(s, t);
    i := At(s, t).j;
    StepWalkFinds(s, At(s, t).cur, i);
    var p' := WalkPc(s, t);
  }

  /**
   * The swap of an unlocking thread hands the mutex to its oldest waiter or frees it; if the word has
   * changed since it was read, nothing is handed over and the thread looks again.
   */
  lemma {:induction false} SwapHandsOver(ss: seq<State>, acts: seq<Action>, k: nat)
    requires Run(ss, acts) && k < |acts| && acts[k].DoSwap?
    ensures var s, s', t, p := ss[k], ss[k + 1], acts[k].t, At(ss[k], acts[k].t);
      if s.waitq != p.seen then s'.owner == s.owner && s'.line == s.line && (At(s', t).Walk? || At(s', t).Swap?)
      else if s.line == [] then s'.owner == NIL && At(s', t).Idle?
      else s'.owner == s.line[0] && s'.line == s.line[1..] && At(s', t) == Unlink(s.line[0])
  {
    RunInv(ss, acts, k);
    Exclusion(ss, acts, k + 1, acts[k].t, 0);
    var s, t := ss[k], acts[k].t;
    SwapFacts(s, t);
    SwapStep(s, t);
  }

  lemma {:induction false} SwapFacts(s: State, t: Tid)
    requires Inv(s) && At(s, t).Swap?
    ensures s.owner == t && (s.waitq == NIL <==> s.line == [])
    ensures At(s, t).found == None ==> At(s, t).seen == NIL
    ensures At(s, t).found.Some? ==> s.line != [] && At(s, t).found.value == s.line[0]
  {
    assert ThreadOk(s, t);
    if s.line != [] {
      LineAt(s, |s.line| - 1);
    }
  }

  lemma {:induction false} SwapStep(s: State, t: Tid)
    requires At(s, t).Swap? && s.owner == t && !At(SwapOf(s, t), t).Fault?
    requires s.waitq == NIL <==> s.line == []
    requires At(s, t).found == None ==> At(s, t).seen == NIL
    requires At(s, t).found.Some? ==> s.line != [] && At(s, t).found.value == s.line[0]
    ensures var s', p := SwapOf(s, t), At(s, t);
      if s.waitq != p.seen then s'.owner == s.owner && s'.line == s.line && (At(s', t).Walk? || At(s', t).Swap?)
      else if s.line == [] then s'.owner == NIL && At(s', t).Idle?
      else s'.owner == s.line[0] && s'.line == s.line[1..] && At(s', t) == Unlink(s.line[0])
  {
    var p' := SwapPc(s, t);
  }

  /** Every step of a call gets its thread on. */
  lemma {:induction false} StepsMove(ss: seq<State>, acts: seq<Action>, k: nat)
    requires Run(ss, acts) && k < |acts| && !acts[k].TryLock? && !Begins(acts[k])
    ensures At(ss[k + 1], acts[k].t) != At(ss[k], acts[k].t)
  {
    RunInv(ss, acts, k);
    var s, t := ss[k], acts[k].t;
    assert ThreadOk(s, t);
    if acts[k].StepWalk? {
      var i := WalkGetsOn(ss, acts, k);
      if i > 0 {
        LineAt(s, i);
        LineAt(s, i - 1);
      }
    } else {
      OwnMoves(s, acts[k]);
    }
  }

  lemma {:induction false} OwnMoves(s: State, a: Action)
    requires Can(s, a) && !a.TryLock? && !Begins(a) && !a.StepWalk? && (a.DoSwap? ==> s.owner == a.t)
    ensures At(Do(s, a), a.t) != At(s, a.t)
  {
    match a
    case Resume(t) =>
    case ReadWord(t) => var p' := ReadWordPc(s, t);
    case DoSwap(t) => var p' := SwapPc(s, t);
    case DoUnlink(t) => var p' := UnlinkPc(s, t);
    case Signal(t) =>
  }
}
