/**
 * Calls of the self-locking list over whole runs: an insert puts the element its caller gave next to
 * the node its caller named, a removal takes out the element its caller named, each in one step of the
 * call, and the call changes the list in no other step and does not end before.
 */
module AtomicListCalls {
  import opened Base
  import opened AtomicList
  import opened AtomicListInv
  import AtomicListRuns
  import opened AtomicListClaims

  predicate Begins(a: Action) {
    a.StartAfter? || a.StartPre? || a.StartFwd? || a.StartBwd?
  }

  predicate Updates(c: Action) {
    c.StartAfter? || c.StartPre?
  }

  /** The call is under way and has not changed the list yet. */
  predicate Before(c: Action, p: Pc)
    requires Updates(c)
  {
    match c
    case StartAfter(_, x, i) =>
      (match p
       case AfterWant(y, j) => y == x && j == i
       case AfterHold(y, j) => y == x && j == i
       case AfterNext(y, j, _) => y == x && j == i
       case AfterBoth(y, j, _) => y == x && j == i
       case _ => false)
    case StartPre(_, x, k) =>
      (match p
       case PreWant(y, j) => y == x && j == k
       case PreHold(y, j) => y == x && j == k
       case PreWait(y, j, _) => y == x && j == k
       case PreRelock(y, j, _) => y == x && j == k
       case PreBoth(y, j, _) => y == x && j == k
       case PreNext(y, _, _) => y == x && k.Delete?
       case PreAll(y, _, _) => y == x && k.Delete?
       case _ => false)
  }

  /** The call has changed the list, and has ended or is about to. */
  predicate After(c: Action, p: Pc)
    requires Updates(c)
  {
    p.Idle? || (c.StartPre? && c.k.Delete? && (p == Clear(c.x) || p == Clean(c.x)))
  }

  /** What the call is to do to the list. */
  ghost predicate Effect(c: Action, q: seq<Id>, q': seq<Id>)
    requires Updates(c)
  {
    if c.StartAfter? then exists b :: PutBetween(q, q', c.x, c.i, b)
    else if c.k.Insert? then exists a :: PutBetween(q, q', a, c.k.i, c.x)
    else c.x.Elem? && TakenOut(q, q', c.x.id)
  }

  /** The steps in which the list changes. */
  predicate Strikes(a: Action, p: Pc) {
    a.Step? && (p.AfterBoth? || (p.PreBoth? && p.k.Insert?) || p.PreAll?)
  }

  // ---------- the program counter after each step ----------

  lemma {:induction false} GrantPc(s: State, t: Tid) returns (p': Pc)
    requires Wants(At(s, t)).Some?
    ensures GrantOf(s, t).pc == s.pc[t := p'] && p' != At(s, t)
    ensures forall n :: Deletes(p', n) ==> Deletes(At(s, t), n)
    ensures forall c :: Updates(c) && Before(c, At(s, t)) ==> Before(c, p')
  {
    match At(s, t)
    case AfterWant(x, i) => p' := AfterHold(x, i);
    case AfterNext(x, i, n) => p' := AfterBoth(x, i, n);
    case PreWant(x, k) => p' := PreHold(x, k);
    case PreWait(x, k, p) => p' := PreRelock(x, k, p);
    case PreRelock(x, k, p) => p' := if Prev(s, x) == p then PreBoth(x, k, p) else PreHold(x, k);
    case PreNext(x, p, n) => p' := PreAll(x, p, n);
    case FwdWant(x) => p' := FwdHold(x);
    case FwdNext(_, n) => p' := FwdHold(n);
    case BwdWant(x) => p' := BwdHold(x);
    case BwdWait(x, p) => p' := BwdRelock(x, p);
    case BwdRelock(x, p) => p' := if Prev(s, x) == p then BwdBoth(x, p) else BwdHold(x);
  }

  lemma {:induction false} StepPc(s: State, t: Tid) returns (p': Pc)
    requires Can(s, Step(t))
    ensures StepOf(s, t).pc == s.pc[t := p'] && p' != At(s, t)
    ensures forall c :: Updates(c) && Before(c, At(s, t)) ==>
      if Strikes(Step(t), At(s, t)) then After(c, p') else Before(c, p')
    ensures forall c :: Updates(c) && After(c, At(s, t)) ==> After(c, p')
  {
    match At(s, t)
    case AfterHold(x, i) => p' := AfterNext(x, i, Next(s, x));
    case AfterBoth(x, i, n) => p' := Idle;
    case PreHold(x, k) =>
      p' := if Free(s, t, Prev(s, x), true) then PreBoth(x, k, Prev(s, x)) else PreWait(x, k, Prev(s, x));
    case PreBoth(x, k, p) => p' := if k.Insert? then Idle else PreNext(x, p, Next(s, x));
    case PreAll(x, p, n) => p' := Clear(x);
    case Clear(x) => p' := Clean(x);
    case FwdHold(x) => p' := if Next(s, x) == Tail then Idle else FwdNext(x, Next(s, x));
  }

  /** One step, seen from the thread whose call is `c`. */
  predicate Follows(s: State, a: Action, s': State, c: Action)
    requires Updates(c)
  {
    var p, p' := At(s, c.t), At(s', c.t);
    if a.t != c.t then p' == p
    else if Begins(a) then a == c ==> Before(c, p')
    else
      && (Before(c, p) ==> if Strikes(a, p) then After(c, p') else Before(c, p'))
      && (After(c, p) ==> After(c, p') && !Strikes(a, p))
  }

  lemma {:induction false} MoveFollows(s: State, a: Action, s': State, c: Action, p': Pc)
    requires Updates(c) && !Begins(a) && s'.pc == s.pc[a.t := p']
    requires Before(c, At(s, a.t)) ==> if Strikes(a, At(s, a.t)) then After(c, p') else Before(c, p')
    requires After(c, At(s, a.t)) ==> After(c, p')
    ensures Follows(s, a, s', c)
  {
  }

  lemma {:induction false} BeginFollows(s: State, a: Action, s': State, c: Action)
    requires Updates(c) && Can(s, a) && s' == Do(s, a) && Begins(a)
    ensures Follows(s, a, s', c)
  {
  }

  lemma {:induction false} WalkFollows(s: State, a: Action, s': State, c: Action)
    requires Updates(c) && Can(s, a) && (a.Stop? || a.Force? || a.Finish?)
    requires s'.pc == s.pc[a.t := At(s', a.t)] && (a.Finish? ==> At(s', a.t).Idle?)
    ensures Follows(s, a, s', c)
  {
  }

  lemma {:induction false} WalkPc(s: State, a: Action)
    requires Can(s, a) && (a.Stop? || a.Force? || a.Finish?)
    ensures var s' := Do(s, a); s'.pc == s.pc[a.t := At(s', a.t)] && At(s', a.t) != At(s, a.t) && (a.Finish? ==> At(s', a.t).Idle?)
  {
  }

  lemma {:induction false} StepFollows(s: State, a: Action, s': State, c: Action)
    requires Updates(c) && Can(s, a) && s' == Do(s, a)
    ensures Follows(s, a, s', c)
  {
    if Begins(a) {
      BeginFollows(s, a, s', c);
    } else if a.Grant? {
      var p' := GrantPc(s, a.t);
      MoveFollows(s, a, s', c, p');
    } else if a.Step? {
      var p' := StepPc(s, a.t);
      MoveFollows(s, a, s', c, p');
    } else {
      WalkPc(s, a);
      WalkFollows(s, a, s', c);
    }
  }

  // ---------- calls over whole runs ----------

  /** Call `c` began at `j`, and its thread has begun no other since. */
  predicate Calling(acts: seq<Action>, j: nat, k: nat, c: Action)
    requires j < k <= |acts|
  {
    acts[j] == c && forall m :: j < m < k && acts[m].t == c.t ==> !Begins(acts[m])
  }

  /** What a step does to the list, as seen from the call `c`. */
  ghost predicate Changes(s: State, a: Action, s': State, c: Action)
    requires Updates(c)
  {
    if a.t == c.t && Before(c, At(s, c.t)) && Strikes(a, At(s, c.t)) then Effect(c, s.list, s'.list)
    else a.t == c.t && !Strikes(a, At(s, c.t)) ==> s'.list == s.list
  }

  ghost predicate FollowsAt(ss: seq<State>, acts: seq<Action>, k: nat, c: Action)
    requires |ss| == |acts| + 1 && k < |acts| && Updates(c)
  {
    Follows(ss[k], acts[k], ss[k + 1], c) && Changes(ss[k], acts[k], ss[k + 1], c)
  }

  ghost predicate History(ss: seq<State>, acts: seq<Action>, c: Action) {
    && |ss| == |acts| + 1 && Updates(c)
    && forall k :: 0 <= k < |acts| ==> FollowsAt(ss, acts, k, c)
  }

  lemma {:induction false} StepChanges(ss: seq<State>, acts: seq<Action>, k: nat, c: Action)
    requires Run(ss, acts) && k < |acts| && Updates(c)
    ensures Changes(ss[k], acts[k], ss[k + 1], c)
  {
    StepChangesList(ss, acts, k);
    EffectOf(ss[k], acts[k], ss[k + 1], c);
  }

  lemma {:induction false} EffectOf(s: State, a: Action, s': State, c: Action)
    requires Updates(c)
    requires var p := At(s, a.t);
      if a.Step? && p.AfterBoth? then PutBetween(s.list, s'.list, p.x, p.i, p.n)
      else if a.Step? && p.PreBoth? && p.k.Insert? then PutBetween(s.list, s'.list, p.p, p.k.i, p.x)
      else if a.Step? && p.PreAll? then p.x.Elem? && TakenOut(s.list, s'.list, p.x.id)
      else s'.list == s.list
    ensures Changes(s, a, s', c)
  {
  }

  lemma {:induction false} RunHistory(ss: seq<State>, acts: seq<Action>, c: Action)
    requires Run(ss, acts) && Updates(c)
    ensures History(ss, acts, c)
  {
    forall k | 0 <= k < |acts|
      ensures FollowsAt(ss, acts, k, c)
    {
      StepFollows(ss[k], acts[k], ss[k + 1], c);
      StepChanges(ss, acts, k, c);
    }
  }

  /** No step of the thread from `lo` up to `hi` changes the list. */
  predicate Leaves(ss: seq<State>, acts: seq<Action>, lo: nat, hi: nat, t: Tid)
    requires |ss| == |acts| + 1 && hi < |ss|
  {
    forall m :: lo <= m < hi && acts[m].t == t ==> ss[m + 1].list == ss[m].list
  }

  /** Where the call `c`, begun at `j`, has struck: at `e`, or not yet if `e` is `k`. */
  ghost predicate Struck(ss: seq<State>, acts: seq<Action>, j: nat, k: nat, c: Action, e: nat)
    requires |ss| == |acts| + 1 && j < k < |ss| && Updates(c)
  {
    && j < e <= k && Leaves(ss, acts, j, e, c.t)
    && (if e == k then Before(c, At(ss[k], c.t))
        else
          && After(c, At(ss[k], c.t)) && acts[e].t == c.t
          && Effect(c, ss[e].list, ss[e + 1].list) && Leaves(ss, acts, e + 1, k, c.t))
  }

  /** One step of the run while the call is under way. */
  ghost predicate Advances(s: State, a: Action, s': State, c: Action)
    requires Updates(c)
  {
    var p, p' := At(s, c.t), At(s', c.t);
    if a.t != c.t then p' == p
    else
      && (Before(c, p) ==>
            if Strikes(a, p) then After(c, p') && Effect(c, s.list, s'.list) else Before(c, p') && s'.list == s.list)
      && (After(c, p) ==> After(c, p') && s'.list == s.list)
  }

  lemma {:induction false} StepOfCall(ss: seq<State>, acts: seq<Action>, j: nat, k: nat, c: Action)
    requires History(ss, acts, c) && j + 1 < k < |ss| && Calling(acts, j, k, c)
    ensures Advances(ss[k - 1], acts[k - 1], ss[k], c)
  {
    assert FollowsAt(ss, acts, k - 1, c);
  }

  lemma {:induction false} StruckLater(ss: seq<State>, acts: seq<Action>, j: nat, k: nat, c: Action, e: nat)
    requires |ss| == |acts| + 1 && j + 1 < k < |ss| && Updates(c)
    requires Struck(ss, acts, j, k - 1, c, e) && e < k - 1 && After(c, At(ss[k], c.t))
    requires acts[k - 1].t == c.t ==> ss[k].list == ss[k - 1].list
    ensures Struck(ss, acts, j, k, c, e)
  {
    LeavesMore(ss, acts, e + 1, k - 1, c.t);
  }

  lemma {:induction false} StruckNow(ss: seq<State>, acts: seq<Action>, j: nat, k: nat, c: Action)
    requires |ss| == |acts| + 1 && j + 1 < k < |ss| && Updates(c)
    requires Leaves(ss, acts, j, k - 1, c.t) && After(c, At(ss[k], c.t))
    requires acts[k - 1].t == c.t && Effect(c, ss[k - 1].list, ss[k].list)
    ensures Struck(ss, acts, j, k, c, k - 1)
  {
  }

  lemma {:induction false} NotYet(ss: seq<State>, acts: seq<Action>, j: nat, k: nat, c: Action)
    requires |ss| == |acts| + 1 && j + 1 < k < |ss| && Updates(c)
    requires Leaves(ss, acts, j, k - 1, c.t) && Before(c, At(ss[k], c.t))
    requires acts[k - 1].t == c.t ==> ss[k].list == ss[k - 1].list
    ensures Struck(ss, acts, j, k, c, k)
  {
    LeavesMore(ss, acts, j, k - 1, c.t);
  }

  lemma {:induction false} LeavesMore(ss: seq<State>, acts: seq<Action>, lo: nat, hi: nat, t: Tid)
    requires |ss| == |acts| + 1 && hi < |acts| && Leaves(ss, acts, lo, hi, t)
    requires acts[hi].t == t ==> ss[hi + 1].list == ss[hi].list
    ensures Leaves(ss, acts, lo, hi + 1, t)
  {
  }

  lemma {:induction false} StruckStep(ss: seq<State>, acts: seq<Action>, j: nat, k: nat, c: Action, e: nat) returns (e': nat)
    requires |ss| == |acts| + 1 && j + 1 < k < |ss| && Updates(c)
    requires Struck(ss, acts, j, k - 1, c, e) && Advances(ss[k - 1], acts[k - 1], ss[k], c)
    ensures Struck(ss, acts, j, k, c, e')
  {
    e' := e;
    if e < k - 1 {
      StruckLater(ss, acts, j, k, c, e);
    } else if acts[e].t == c.t && Strikes(acts[e], At(ss[e], c.t)) {
      StruckNow(ss, acts, j, k, c);
    } else {
      NotYet(ss, acts, j, k, c);
      e' := k;
    }
  }

  lemma {:induction false} StruckFirst(ss: seq<State>, acts: seq<Action>, j: nat, c: Action)
    requires History(ss, acts, c) && j < |acts| && acts[j] == c
    ensures Struck(ss, acts, j, j + 1, c, j + 1)
  {
    assert FollowsAt(ss, acts, j, c);
  }

  lemma {:induction false} WhereStruck(ss: seq<State>, acts: seq<Action>, j: nat, k: nat, c: Action) returns (e: nat)
    requires History(ss, acts, c) && j < k < |ss| && Calling(acts, j, k, c)
    ensures Struck(ss, acts, j, k, c, e)
  {
    if j + 1 == k {
      StruckFirst(ss, acts, j, c);
      e := k;
    } else {
      e := WhereStruck(ss, acts, j, k - 1, c);
      StepOfCall(ss, acts, j, k, c);
      e := StruckStep(ss, acts, j, k, c, e);
    }
  }

  /**
   * Every insert and every removal: until one step `e` of the call the list is untouched by it; that
   * step does what the caller asked for, next to the node the caller named; no later step of the call
   * changes the list; and the call is not over before.
   */
  lemma {:induction false} CallTakesEffect(ss: seq<State>, acts: seq<Action>, j: nat, k: nat, c: Action) returns (e: nat)
    requires Run(ss, acts) && Updates(c) && j < k < |ss| && Calling(acts, j, k, c)
    ensures Struck(ss, acts, j, k, c, e)
    ensures At(ss[k], c.t).Idle? ==> e < k
  {
    RunHistory(ss, acts, c);
    e := WhereStruck(ss, acts, j, k, c);
  }

  /** Every step of a call gets its thread on. */
  lemma {:induction false} StepsMove(ss: seq<State>, acts: seq<Action>, k: nat)
    requires Run(ss, acts) && k < |acts| && !Begins(acts[k])
    ensures At(ss[k + 1], acts[k].t) != At(ss[k], acts[k].t)
  {
    var s, a := ss[k], acts[k];
    if a.Grant? {
      var p' := GrantPc(s, a.t);
    } else if a.Step? {
      var p' := StepPc(s, a.t);
    } else {
      WalkPc(s, a);
    }
  }

  /**
   * An insert or removal that has locked its node gets the lock of the predecessor at once if and only if
   * no one holds it; if not, it waits for it and holds nothing meanwhile.
   */
  lemma {:induction false} PredecessorTried(ss: seq<State>, acts: seq<Action>, k: nat, t: Tid)
    requires Run(ss, acts) && k < |acts| && acts[k] == Step(t) && At(ss[k], t).PreHold?
    ensures var s, p, p' := ss[k], At(ss[k], t), At(ss[k + 1], t);
      exists q :: Adj(s.list, q, p.x) &&
        if Free(s, t, q, true) then p' == PreBoth(p.x, p.k, q) && Owns(p') == {p.x, q}
        else p' == PreWait(p.x, p.k, q) && Owns(p') == {} && Wants(p') == Some(q)
  {
    AtomicListRuns.RunInv(ss, acts, k);
    var s := ss[k];
    AtomicListRuns.InvAt(s, t, t);
    var x := At(s, t).x;
    AtomicListInv.Neighbours(s, t, x);
    var p' := StepPc(s, t);
    assert Adj(s.list, Prev(s, x), x);
    TriedStep(s, t);
  }

  lemma {:induction false} TriedStep(s: State, t: Tid)
    requires At(s, t).PreHold?
    ensures var p, p', q := At(s, t), At(StepOf(s, t), t), Prev(s, At(s, t).x);
      p' == if Free(s, t, q, true) then PreBoth(p.x, p.k, q) else PreWait(p.x, p.k, q)
  {
  }

  /** A walk backward likewise tries its predecessor's lock, and waits for it without holding on. */
  lemma {:induction false} WalkTried(ss: seq<State>, acts: seq<Action>, k: nat, t: Tid)
    requires Run(ss, acts) && k < |acts| && acts[k] == Force(t, false) && At(ss[k], t).BwdHold?
    ensures var s, p, p' := ss[k], At(ss[k], t), At(ss[k + 1], t);
      exists q :: Adj(s.list, q, p.x) &&
        if Free(s, t, q, false) then p' == BwdBoth(p.x, q) && Reads(p') == {p.x, q}
        else p' == BwdWait(p.x, q) && Reads(p') == {} && Wants(p') == Some(q)
  {
    AtomicListRuns.RunInv(ss, acts, k);
    var s := ss[k];
    AtomicListRuns.InvAt(s, t, t);
    var x := At(s, t).x;
    AtomicListInv.Neighbours(s, t, x);
    assert Adj(s.list, Prev(s, x), x);
  }
}
