/**
 * What the callers of pin, unpin, insert and remove get: when a pin succeeds, which removal wins, and
 * that an insert or a removal exposes or takes out the element its caller named, in exactly one step.
 */
module AtomicPinsCalls {
  import opened Base
  import opened AtomicPins
  import opened AtomicPinsRuns

  // ---------- pins ----------

  /** A listed element is masked exactly when a removal has won it. */
  lemma {:induction false} MaskTells(s: State, e: Id)
    requires Inv(s) && e in s.linked
    ensures RefOf(s, e).mask <==> e in s.remover
  {
    InvAt(s, 0, 0, e);
  }

  /** A pin on a listed element succeeds if and only if no removal has won it; otherwise nothing changes. */
  lemma {:induction false} PinSucceeds(ss: seq<State>, acts: seq<Action>, k: nat)
    requires Run(ss, acts) && k < |acts| && acts[k].Pin?
    ensures var s, s', t, e := ss[k], ss[k + 1], acts[k].t, acts[k].e;
      if e in s.remover then s' == s
      else Holds(s', e) == Holds(s, e) + multiset{t} && RefOf(s', e) == RefOf(s, e).(pins := RefOf(s, e).pins + 1)
  {
    RunInv(ss, acts, k);
    MaskTells(ss[k], acts[k].e);
    PinStep(ss[k], acts[k].t, acts[k].e);
  }

  lemma {:induction false} PinStep(s: State, t: Tid, e: Id)
    ensures var s' := PinOf(s, t, e);
      if RefOf(s, e).mask then s' == s
      else Holds(s', e) == Holds(s, e) + multiset{t} && RefOf(s', e) == RefOf(s, e).(pins := RefOf(s, e).pins + 1)
  {
  }

  /** An unpin takes back one pin of the caller; if it was the last one, the waiting remover is woken. */
  lemma {:induction false} UnpinWakes(ss: seq<State>, acts: seq<Action>, k: nat)
    requires Run(ss, acts) && k < |acts| && acts[k].Unpin?
    ensures var s, s', t, e := ss[k], ss[k + 1], acts[k].t, acts[k].e;
      && Holds(s', e) == Holds(s, e) - multiset{t} && RefOf(s', e).pins == RefOf(s, e).pins - 1
      && (e in s.remover && RefOf(s', e).pins == 0 ==> s.remover[e] in s'.woken)
  {
    RunInv(ss, acts, k);
    var s, t, e := ss[k], acts[k].t, acts[k].e;
    HolderFacts(s, t, e);
    MaskTells(s, e);
    UnpinStep(s, t, e);
  }

  lemma {:induction false} UnpinStep(s: State, t: Tid, e: Id)
    requires var r := RefOf(s, e); r.pins >= 1 && (r.mask && r.pins == 1 ==> r.wait.Some?)
    ensures var s', r := UnpinOf(s, t, e), RefOf(s, e);
      && Holds(s', e) == Holds(s, e) - multiset{t} && RefOf(s', e).pins == r.pins - 1
      && (r.mask && r.pins == 1 ==> r.wait.value in s'.woken)
  {
  }

  /** The removal that finds the element not yet won wins it, and only that; a loser changes nothing. */
  lemma {:induction false} FirstRemovalWins(ss: seq<State>, acts: seq<Action>, k: nat)
    requires Run(ss, acts) && k < |acts| && acts[k].StartRemove?
    ensures var s, s', t, e := ss[k], ss[k + 1], acts[k].t, acts[k].e;
      if e in s.remover then s' == s
      else
        && e in s'.remover && s'.remover[e] == t && RefOf(s', e).mask
        && At(s', t) == Masked(e, RefOf(s, e).pins > 1)
        && RefOf(s', e).pins == if RefOf(s, e).pins == 1 then 0 else RefOf(s, e).pins
  {
    RunInv(ss, acts, k);
    var s, t, e := ss[k], acts[k].t, acts[k].e;
    HolderFacts(s, t, e);
    MaskTells(s, e);
    RemoveStep(s, t, e);
  }

  lemma {:induction false} RemoveStep(s: State, t: Tid, e: Id)
    requires RefOf(s, e).pins >= 1
    ensures var s' := StartRemoveOf(s, t, e);
      if RefOf(s, e).mask then s' == s
      else
        && e in s'.remover && s'.remover[e] == t && RefOf(s', e).mask
        && At(s', t) == Masked(e, RefOf(s, e).pins > 1)
        && RefOf(s', e).pins == if RefOf(s, e).pins == 1 then 0 else RefOf(s, e).pins
  {
  }

  /** An iterator's forced pin on a masked element succeeds if and only if it still has pins. */
  lemma {:induction false} ForcePinSucceeds(ss: seq<State>, acts: seq<Action>, k: nat)
    requires Run(ss, acts) && k < |acts| && acts[k].ForcePin?
    ensures var s, s', t := ss[k], ss[k + 1], acts[k].t;
      var e := At(s, t).e;
      if Holds(s, e) == multiset{} then s' == s
      else Holds(s', e) == Holds(s, e) + multiset{t} && At(s', t).Idle?
  {
    RunInv(ss, acts, k);
    var s, t := ss[k], acts[k].t;
    InvAt(s, t, t, At(s, t).e);
    ForceStep(s, t);
  }

  lemma {:induction false} ForceStep(s: State, t: Tid)
    requires At(s, t).Walking? && RefOf(s, At(s, t).e).mask
    ensures var s', e := ForcePinOf(s, t), At(s, t).e;
      if RefOf(s, e).pins == 0 then s' == s
      else Holds(s', e) == Holds(s, e) + multiset{t} && At(s', t).Idle?
  {
  }

  /** An iterator that finds no pins left waits for the removal to end, newest behind the wait id. */
  lemma {:induction false} DeferWaits(ss: seq<State>, acts: seq<Action>, k: nat)
    requires Run(ss, acts) && k < |acts| && acts[k].Defer?
    ensures var s, s', t := ss[k], ss[k + 1], acts[k].t;
      var e := At(s, t).e;
      if Holds(s, e) != multiset{} then s' == s
      else At(s', t) == Deferred(e) && Iters(s', e) == [t] + Iters(s, e) && RefOf(s', e).wait == Some(t)
  {
    RunInv(ss, acts, k);
    var s, t := ss[k], acts[k].t;
    InvAt(s, t, t, At(s, t).e);
    DeferStep(s, t);
  }

  lemma {:induction false} DeferStep(s: State, t: Tid)
    requires At(s, t).Walking? && RefOf(s, At(s, t).e).mask
    ensures var s', e := DeferOf(s, t), At(s, t).e;
      if RefOf(s, e).pins != 0 then s' == s
      else At(s', t) == Deferred(e) && Iters(s', e) == [t] + Iters(s, e) && RefOf(s', e).wait == Some(t)
  {
  }

  // ---------- inserts and removals as calls ----------

  predicate Begins(a: Action) {
    a.StartInsert? || a.StartRemove?
  }

  /** A caller may do something else only between its calls. */
  predicate Other(a: Action) {
    a.Pin? || a.Unpin? || a.StartWalk?
  }

  predicate Before(c: Action, p: Pc)
    requires Begins(c)
  {
    if c.StartInsert? then (p.Insert? || p.Expose?) && p.e == c.e && p.pinned == c.pinned
    else Removes(p) && p.e == c.e
  }

  /** The one step in which the element becomes visible, or leaves the list. */
  predicate Strikes(a: Action, p: Pc) {
    a.Step? && (p.Expose? || p.Unlinking?)
  }

  /** What the call is to do: expose the element, pinned if asked, or take it off the list. */
  predicate Effect(c: Action, s: State, s': State)
    requires Begins(c)
  {
    if c.StartInsert? then
      && s'.linked == s.linked + {c.e} && c.e !in s.linked && !RefOf(s', c.e).mask
      && |Holds(s', c.e)| == if c.pinned then 1 else 0
    else s'.linked == s.linked - {c.e} && c.e in s.linked && RefOf(s', c.e).mask && RefOf(s', c.e).pins == 0
  }

  lemma {:induction false} RemoveWaitPc(s: State, t: Tid, e: Id) returns (p': Pc)
    ensures RemoveWaitOf(s, t, e).pc == s.pc[t := p'] && RemoveWaitOf(s, t, e).linked == s.linked
    ensures p'.Fault? || p' == Deleting(e) || p' == Waiting(e)
  {
    var r := RefOf(s, e);
    p' := if r.wait.Some? || r.pins == 0 || !r.mask then Fault else if r.pins == 1 then Deleting(e) else Waiting(e);
  }

  lemma {:induction false} ExposePc(s: State, t: Tid, e: Id, pinned: bool) returns (p': Pc)
    ensures var s' := ExposeOf(s, t, e, pinned);
      && s'.pc == s.pc[t := p'] && (p'.Fault? || p'.Idle?)
      && (p'.Idle? ==> s'.linked == s.linked + {e} && !RefOf(s', e).mask)
  {
    var r := RefOf(s, e);
    p' := if !r.mask || r.wait.Some? || (pinned && r.pins != 1) then Fault else Idle;
  }

  lemma {:induction false} ClearPc(s: State, t: Tid, e: Id) returns (p': Pc)
    ensures var s' := ClearOf(s, t, e);
      && s'.pc == s.pc[t := p'] && (p'.Fault? || p'.Idle?)
      && (p'.Idle? ==> s'.linked == s.linked - {e} && RefOf(s', e).mask && RefOf(s', e).pins == 0)
  {
    var r := RefOf(s, e);
    p' := if !r.mask || r.pins != 0 || (r.wait.Some? && Iters(s, e) == []) then Fault else Idle;
  }

  lemma {:induction false} StepPc(s: State, t: Tid) returns (p': Pc)
    requires Can(s, Step(t))
    ensures StepOf(s, t).pc == s.pc[t := p'] && p' != At(s, t)
    ensures p'.Fault? || !Strikes(Step(t), At(s, t)) ==> p'.Fault? || StepOf(s, t).linked == s.linked
    ensures p'.Fault? || Strikes(Step(t), At(s, t)) || forall c :: Begins(c) && Before(c, At(s, t)) ==> Before(c, p')
    ensures Strikes(Step(t), At(s, t)) ==> p'.Fault? || p'.Idle?
  {
    match At(s, t)
    case Insert(e, pinned) => p' := Expose(e, pinned);
    case Expose(e, pinned) => p' := ExposePc(s, t, e, pinned);
    case Masked(e, more) => p' := if s.count == 0 then Fault else if more then Removing(e) else Deleting(e);
    case Removing(e) => p' := RemoveWaitPc(s, t, e);
    case Waiting(e) => p' := Deleting(e);
    case Deleting(e) => p' := Unlinking(e);
    case Unlinking(e) => p' := ClearPc(s, t, e);
    case Deferred(e) => p' := Idle;
  }

  lemma {:induction false} StrikeEffect(s: State, t: Tid, c: Action)
    requires Inv(s) && Can(s, Step(t)) && Begins(c) && Before(c, At(s, t)) && Strikes(Step(t), At(s, t))
    requires Inv(StepOf(s, t))
    ensures Effect(c, s, StepOf(s, t))
  {
    var s' := StepOf(s, t);
    InvAt(s, t, t, c.e);
    InvAt(s', t, t, c.e);
    if c.StartInsert? {
      var p' := ExposePc(s, t, c.e, c.pinned);
      ExposedPins(s, t, c.e, c.pinned);
    } else {
      var p' := ClearPc(s, t, c.e);
    }
  }

  lemma {:induction false} ExposedPins(s: State, t: Tid, e: Id, pinned: bool)
    ensures RefOf(ExposeOf(s, t, e, pinned), e).pins == RefOf(s, e).pins
  {
  }

  predicate Quiet(s: State, s': State, t: Tid, p': Pc) {
    (s'.pc == s.pc || s'.pc == s.pc[t := p']) && s'.linked == s.linked
  }

  lemma {:induction false} PinPc(s: State, t: Tid, e: Id)
    ensures Quiet(s, PinOf(s, t, e), t, Idle)
  {
  }

  lemma {:induction false} UnpinPc(s: State, t: Tid, e: Id) returns (p': Pc)
    ensures Quiet(s, UnpinOf(s, t, e), t, p')
  {
    var r := RefOf(s, e);
    p' := if r.pins == 0 || (r.mask && r.pins == 1 && r.wait == None) then Fault else Idle;
  }

  lemma {:induction false} ForcePc(s: State, t: Tid) returns (p': Pc)
    requires At(s, t).Walking?
    ensures Quiet(s, ForcePinOf(s, t), t, p')
  {
    p' := if !RefOf(s, At(s, t).e).mask then Fault else Idle;
  }

  lemma {:induction false} DeferPc(s: State, t: Tid) returns (p': Pc)
    requires At(s, t).Walking?
    ensures Quiet(s, DeferOf(s, t), t, p')
  {
    p' := if !RefOf(s, At(s, t).e).mask then Fault else Deferred(At(s, t).e);
  }

  lemma {:induction false} OthersPc(s: State, a: Action) returns (p': Pc)
    requires Can(s, a) && !a.Step? && !Begins(a)
    ensures Quiet(s, Do(s, a), a.t, p')
  {
    p' := Idle;
    match a
    case Pin(t, e) => PinPc(s, t, e);
    case Unpin(t, e) => p' := UnpinPc(s, t, e);
    case StartWalk(t, e) => p' := Walking(e);
    case ForcePin(t) => p' := ForcePc(s, t);
    case Defer(t) => p' := DeferPc(s, t);
    case Leave(t) =>
  }

  /** One step, seen from the thread whose call is `c`. */
  predicate Follows(s: State, a: Action, s': State, c: Action)
    requires Begins(c)
  {
    var p, p' := At(s, c.t), At(s', c.t);
    if a.t != c.t then p' == p
    else if Begins(a) then a == c ==> s'.linked == s.linked && (Before(c, p') || (c.StartRemove? && s' == s))
    else if Before(c, p) then
      if Strikes(a, p) then p'.Idle? && Effect(c, s, s') else Before(c, p') && s'.linked == s.linked
    else p.Idle? ==> s'.linked == s.linked
  }

  lemma {:induction false} BeginFollows(s: State, a: Action)
    requires Inv(s) && Can(s, a) && Begins(a)
    ensures var s' := Do(s, a);
      && s'.linked == s.linked && (Before(a, At(s', a.t)) || (a.StartRemove? && s' == s))
      && forall u :: u != a.t ==> At(s', u) == At(s, u)
  {
    if a.StartRemove? {
      HolderFacts(s, a.t, a.e);
      RemoveStep(s, a.t, a.e);
      RemovePc(s, a.t, a.e);
    }
  }

  lemma {:induction false} RemovePc(s: State, t: Tid, e: Id)
    ensures var s' := StartRemoveOf(s, t, e); s'.linked == s.linked && forall u :: u != t ==> At(s', u) == At(s, u)
  {
  }

  lemma {:induction false} QuietFollows(s: State, a: Action, s': State, c: Action, p': Pc)
    requires Can(s, a) && !a.Step? && !Begins(a) && Begins(c) && Quiet(s, s', a.t, p')
    ensures Follows(s, a, s', c)
  {
  }

  lemma {:induction false} MoveFollows(s: State, a: Action, s': State, c: Action, p': Pc)
    requires a.Step? && Begins(c) && s'.pc == s.pc[a.t := p'] && !p'.Fault? && !At(s, a.t).Idle?
    requires if !Strikes(a, At(s, a.t)) then s'.linked == s.linked && (Before(c, At(s, a.t)) ==> Before(c, p'))
             else p'.Idle? && (a.t == c.t && Before(c, At(s, a.t)) ==> Effect(c, s, s'))
    ensures Follows(s, a, s', c)
  {
  }

  lemma {:induction false} StepFollows(s: State, a: Action, s': State, c: Action)
    requires Inv(s) && Inv(s') && Can(s, a) && s' == Do(s, a) && Begins(c)
    ensures Follows(s, a, s', c)
  {
    if Begins(a) {
      BeginFollows(s, a);
    } else if a.Step? {
      var p' := StepPc(s, a.t);
      assert At(s', a.t) == p';
      InvAt(s', a.t, a.t, 0);
      if a.t == c.t && Before(c, At(s, c.t)) && Strikes(a, At(s, c.t)) {
        StrikeEffect(s, a.t, c);
      }
      MoveFollows(s, a, s', c, p');
    } else {
      var p' := OthersPc(s, a);
      QuietFollows(s, a, s', c, p');
    }
  }

  ghost predicate FollowsAt(ss: seq<State>, acts: seq<Action>, k: nat, c: Action)
    requires |ss| == |acts| + 1 && k < |acts| && Begins(c)
  {
    Follows(ss[k], acts[k], ss[k + 1], c)
  }

  ghost predicate History(ss: seq<State>, acts: seq<Action>, c: Action) {
    |ss| == |acts| + 1 && Begins(c) && forall k :: 0 <= k < |acts| ==> FollowsAt(ss, acts, k, c)
  }

  lemma {:induction false} RunHistory(ss: seq<State>, acts: seq<Action>, c: Action)
    requires Run(ss, acts) && Begins(c)
    ensures History(ss, acts, c)
  {
    forall k | 0 <= k < |acts|
      ensures FollowsAt(ss, acts, k, c)
    {
      RunInv(ss, acts, k);
      RunInv(ss, acts, k + 1);
      StepFollows(ss[k], acts[k], ss[k + 1], c);
    }
  }

  /** Call `c` began at `j`, and its thread has begun nothing else since. */
  predicate Calling(acts: seq<Action>, j: nat, k: nat, c: Action)
    requires j < k <= |acts|
  {
    acts[j] == c && Begins(c) && forall m :: j < m < k && acts[m].t == c.t ==> !Begins(acts[m]) && !Other(acts[m])
  }

  predicate Leaves(ss: seq<State>, acts: seq<Action>, lo: nat, hi: nat, t: Tid)
    requires |ss| == |acts| + 1 && hi < |ss|
  {
    forall m :: lo <= m < hi && acts[m].t == t ==> ss[m + 1].linked == ss[m].linked
  }

  /** The call has struck in its step `e`, or not yet if `e` is `k`. */
  predicate Struck(ss: seq<State>, acts: seq<Action>, j: nat, k: nat, c: Action, e: nat)
    requires |ss| == |acts| + 1 && j < k < |ss| && Begins(c)
  {
    && j < e <= k && Leaves(ss, acts, j, e, c.t)
    && (if e == k then Before(c, At(ss[k], c.t))
        else At(ss[k], c.t).Idle? && acts[e].t == c.t && Effect(c, ss[e], ss[e + 1]) && Leaves(ss, acts, e + 1, k, c.t))
  }

  lemma {:induction false} LeavesMore(ss: seq<State>, acts: seq<Action>, lo: nat, hi: nat, t: Tid)
    requires |ss| == |acts| + 1 && hi < |acts| && Leaves(ss, acts, lo, hi, t)
    requires acts[hi].t == t ==> ss[hi + 1].linked == ss[hi].linked
    ensures Leaves(ss, acts, lo, hi + 1, t)
  {
  }

  lemma {:induction false} StruckStep(ss: seq<State>, acts: seq<Action>, j: nat, k: nat, c: Action, e: nat) returns (e': nat)
    requires |ss| == |acts| + 1 && j < k < |acts| && Begins(c) && FollowsAt(ss, acts, k, c)
    requires Struck(ss, acts, j, k, c, e) && (acts[k].t == c.t ==> !Begins(acts[k]))
    requires acts[k].t == c.t && At(ss[k], c.t).Idle? ==> At(ss[k + 1], c.t).Idle?
    ensures Struck(ss, acts, j, k + 1, c, e')
  {
    e' := e;
    if e < k {
      LeavesMore(ss, acts, e + 1, k, c.t);
    } else if !(acts[k].t == c.t && Strikes(acts[k], At(ss[k], c.t))) {
      e' := k + 1;
      LeavesMore(ss, acts, j, k, c.t);
    }
  }

  lemma {:induction false} IdleStays(s: State, a: Action)
    requires Can(s, a) && At(s, a.t).Idle?
    ensures Begins(a) || Other(a)
  {
  }

  lemma {:induction false} WhereStruck(ss: seq<State>, acts: seq<Action>, j: nat, k: nat, c: Action) returns (e: nat)
    requires History(ss, acts, c) && j < k < |ss| && Calling(acts, j, k, c) && Before(c, At(ss[j + 1], c.t))
    requires forall m :: j < m < k && acts[m].t == c.t ==> !At(ss[m], c.t).Idle?
    ensures Struck(ss, acts, j, k, c, e)
  {
    if j + 1 == k {
      assert FollowsAt(ss, acts, j, c);
      e := k;
    } else {
      e := WhereStruck(ss, acts, j, k - 1, c);
      assert FollowsAt(ss, acts, k - 1, c);
      e := StruckStep(ss, acts, j, k - 1, c, e);
    }
  }

  /**
   * Every insert, and every removal that has won its element: until one step `e` of the call the list is
   * untouched by it; that step exposes the element the caller named, or takes it off; no later step of
   * the call changes the list; and the call is not over before. A removal that lost changes nothing.
   */
  lemma {:induction false} CallTakesEffect(ss: seq<State>, acts: seq<Action>, j: nat, k: nat, c: Action) returns (e: nat)
    requires Run(ss, acts) && j < k < |ss| && Calling(acts, j, k, c)
    ensures if c.StartRemove? && c.e in ss[j].remover then ss[j + 1] == ss[j] else Struck(ss, acts, j, k, c, e)
  {
    RunHistory(ss, acts, c);
    assert FollowsAt(ss, acts, j, c);
    if c.StartRemove? {
      FirstRemovalWins(ss, acts, j);
    }
    e := k;
    if !(c.StartRemove? && c.e in ss[j].remover) {
      forall m | j < m < k && acts[m].t == c.t
        ensures !At(ss[m], c.t).Idle?
      {
        if At(ss[m], c.t).Idle? {
          IdleStays(ss[m], acts[m]);
        }
      }
      e := WhereStruck(ss, acts, j, k, c);
    }
  }

  /** Every step of a call gets its thread on. */
  lemma {:induction false} StepsMove(ss: seq<State>, acts: seq<Action>, k: nat)
    requires Run(ss, acts) && k < |acts| && acts[k].Step?
    ensures At(ss[k + 1], acts[k].t) != At(ss[k], acts[k].t)
  {
    var p' := StepPc(ss[k], acts[k].t);
  }
}
