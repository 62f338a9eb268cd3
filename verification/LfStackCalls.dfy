/**
 * Calls of the lock-free stack over whole runs: a push puts the element its caller gave on the stack in
 * exactly one step, a pop takes exactly one element off and returns that one, or finds the stack empty.
 */
module LfStackCalls {
  import opened Base
  import opened LfStack

  predicate Begins(a: Action) {
    a.StartPush? || a.StartPop?
  }

  /** What a call has come to: nothing yet, its effect with this element, or an empty stack. */
  datatype Result = NotYet | Put(id: Id) | Took(id: Id) | Empty

  /** Where the thread of call `c` may be when the call has come to `r`. */
  predicate Inside(c: Action, p: Pc, r: Result)
    requires Begins(c)
  {
    if c.StartPush? then
      match r
      case NotYet => (p.Push? || p.PushSwap?) && p.id == c.id
      case Put(id) => p.Idle? && id == c.id
      case _ => false
    else
      match r
      case NotYet => p.Pop? || p.PopSwap?
      case Took(id) => p.Idle? || p == Popped(id)
      case Empty => p.Idle?
      case Put(_) => false
  }

  /** What a step of the thread brings its call to. */
  function ResultOf(s: State, a: Action): Result {
    var p := At(s, a.t);
    if Swaps(s, a) then (if a.SwapPush? then Put(p.id) else Took(p.seen.top))
    else if s.top == NONE && (a.StartPop? || a.SwapPop?) then Empty
    else NotYet
  }

  lemma {:induction false} PushPc(s: State, t: Tid) returns (p': Pc)
    requires At(s, t).PushSwap? && s.tags > 0
    ensures SwapPushOf(s, t).pc == s.pc[t := p']
    ensures p' == if Matches(s, At(s, t).seen) then Idle else Push(At(s, t).id, Look(s))
  {
    p' := if Matches(s, At(s, t).seen) then Idle else Push(At(s, t).id, Look(s));
  }

  lemma {:induction false} PopPc(s: State, t: Tid) returns (p': Pc)
    requires At(s, t).PopSwap? && s.tags > 0
    ensures SwapPopOf(s, t).pc == s.pc[t := p']
    ensures p' == if Matches(s, At(s, t).seen) then Popped(At(s, t).seen.top)
                  else if s.top == NONE then Idle else Pop(Look(s))
  {
    p' := if Matches(s, At(s, t).seen) then Popped(At(s, t).seen.top)
          else if s.top == NONE then Idle else Pop(Look(s));
  }

  lemma {:induction false} OwnStep(s: State, a: Action, c: Action, r: Result)
    requires Can(s, a) && s.tags > 0 && !Begins(a) && Begins(c) && Inside(c, At(s, a.t), r)
    requires !a.Overwrite? && !a.Give?
    ensures r.NotYet? ==> Inside(c, At(Do(s, a), a.t), ResultOf(s, a))
    ensures !r.NotYet? ==> ResultOf(s, a).NotYet? && Inside(c, At(Do(s, a), a.t), r)
  {
    match a
    case SwapPush(t) => var p' := PushPc(s, t);
    case SwapPop(t) => var p' := PopPc(s, t);
    case _ =>
  }

  lemma {:induction false} BeginStep(s: State, a: Action)
    requires Can(s, a) && s.tags > 0 && Begins(a)
    ensures Inside(a, At(Do(s, a), a.t), ResultOf(s, a))
  {
  }

  lemma {:induction false} OthersStay(s: State, a: Action, t: Tid)
    requires Can(s, a) && s.tags > 0 && (a.t != t || a.Overwrite? || a.Give?)
    ensures At(Do(s, a), t) == At(s, t)
  {
    match a
    case SwapPush(u) => var p' := PushPc(s, u);
    case SwapPop(u) => var p' := PopPc(s, u);
    case _ =>
  }

  /** Steps of the call's own. */
  predicate Acts(a: Action, t: Tid) {
    a.t == t && !a.Overwrite? && !a.Give?
  }

  /** One step, seen from the thread whose call is `c`. */
  ghost predicate Follows(s: State, a: Action, s': State, c: Action)
    requires Begins(c)
  {
    if !Acts(a, c.t) then At(s', c.t) == At(s, c.t)
    else if Begins(a) then a == c ==> Inside(c, At(s', c.t), ResultOf(s, a))
    else
      && (Inside(c, At(s, c.t), NotYet) ==> Inside(c, At(s', c.t), ResultOf(s, a)))
      && (forall r: Result :: !r.NotYet? && Inside(c, At(s, c.t), r) ==> ResultOf(s, a).NotYet? && Inside(c, At(s', c.t), r))
  }

  lemma {:induction false} StepFollows(s: State, a: Action, s': State, c: Action)
    requires s.tags > 0 && Can(s, a) && s' == Do(s, a) && Begins(c)
    ensures Follows(s, a, s', c)
  {
    if !Acts(a, c.t) {
      OthersStay(s, a, c.t);
    } else if Begins(a) {
      BeginStep(s, a);
    } else {
      if Inside(c, At(s, c.t), NotYet) {
        OwnStep(s, a, c, NotYet);
      }
      forall r: Result | !r.NotYet? && Inside(c, At(s, c.t), r)
        ensures ResultOf(s, a).NotYet? && Inside(c, At(s', c.t), r)
      {
        OwnStep(s, a, c, r);
      }
    }
  }

  /** What the stack does in a step that brings a call to `r`. */
  predicate Effect(s: State, s': State, t: Tid, r: Result) {
    match r
    case NotYet => s'.stack == s.stack
    case Empty => s.stack == [] && s'.stack == []
    case Put(id) => s'.stack == [id] + s.stack && Mine(s, t, id)
    case Took(id) => s.stack == [id] + s'.stack && id !in s.held && Mine(s', t, id)
  }

  lemma {:induction false} StepEffect(ss: seq<State>, acts: seq<Action>, k: nat)
    requires Run(ss, acts) && Windowed(ss, acts) && k < |acts|
    ensures Effect(ss[k], ss[k + 1], acts[k].t, ResultOf(ss[k], acts[k]))
  {
    StepIsPushOrPop(ss, acts, k);
  }

  ghost predicate FollowsAt(ss: seq<State>, acts: seq<Action>, k: nat, c: Action)
    requires |ss| == |acts| + 1 && k < |acts| && Begins(c)
  {
    && Follows(ss[k], acts[k], ss[k + 1], c)
    && Effect(ss[k], ss[k + 1], acts[k].t, ResultOf(ss[k], acts[k]))
  }

  ghost predicate History(ss: seq<State>, acts: seq<Action>, c: Action) {
    |ss| == |acts| + 1 && Begins(c) && forall k :: 0 <= k < |acts| ==> FollowsAt(ss, acts, k, c)
  }

  lemma {:induction false} RunHistory(ss: seq<State>, acts: seq<Action>, c: Action)
    requires Run(ss, acts) && Windowed(ss, acts) && Begins(c)
    ensures History(ss, acts, c)
  {
    forall k | 0 <= k < |acts|
      ensures FollowsAt(ss, acts, k, c)
    {
      StepEffect(ss, acts, k);
      StepFollows(ss[k], acts[k], ss[k + 1], c);
    }
  }

  /** Call `c` began at `j`, and its thread has begun no other since. */
  predicate Calling(acts: seq<Action>, j: nat, k: nat, c: Action)
    requires j < k <= |acts|
  {
    acts[j] == c && Begins(c) && forall m :: j < m < k && acts[m].t == c.t ==> !Begins(acts[m])
  }

  /** No step of the thread from `lo` up to `hi` changes the stack. */
  predicate Leaves(ss: seq<State>, acts: seq<Action>, lo: nat, hi: nat, t: Tid)
    requires |ss| == |acts| + 1 && hi < |ss|
  {
    forall m :: lo <= m < hi && acts[m].t == t ==> ss[m + 1].stack == ss[m].stack
  }

  /** The call begun at `j` has come to `r` in its step `e`, or to nothing yet if `e` is `k`. */
  predicate Came(ss: seq<State>, acts: seq<Action>, j: nat, k: nat, c: Action, e: nat, r: Result)
    requires |ss| == |acts| + 1 && j < k < |ss| && Begins(c)
  {
    && j <= e <= k && Inside(c, At(ss[k], c.t), r) && Leaves(ss, acts, j, e, c.t)
    && (e == k <==> r.NotYet?)
    && (e < k ==> acts[e].t == c.t && Effect(ss[e], ss[e + 1], c.t, r) && Leaves(ss, acts, e + 1, k, c.t))
  }

  lemma {:induction false} LeavesMore(ss: seq<State>, acts: seq<Action>, lo: nat, hi: nat, t: Tid)
    requires |ss| == |acts| + 1 && hi < |acts| && Leaves(ss, acts, lo, hi, t)
    requires acts[hi].t == t ==> ss[hi + 1].stack == ss[hi].stack
    ensures Leaves(ss, acts, lo, hi + 1, t)
  {
  }

  lemma {:induction false} CameStep(ss: seq<State>, acts: seq<Action>, j: nat, k: nat, c: Action, e: nat, r: Result)
      returns (e': nat, r': Result)
    requires |ss| == |acts| + 1 && j < k < |acts| && Begins(c) && FollowsAt(ss, acts, k, c)
    requires Came(ss, acts, j, k, c, e, r) && (acts[k].t == c.t ==> !Begins(acts[k]))
    ensures Came(ss, acts, j, k + 1, c, e', r')
  {
    e', r' := e, r;
    if !r.NotYet? {
      LeavesMore(ss, acts, e + 1, k, c.t);
    } else if Acts(acts[k], c.t) && !ResultOf(ss[k], acts[k]).NotYet? {
      e', r' := k, ResultOf(ss[k], acts[k]);
    } else {
      e' := k + 1;
      LeavesMore(ss, acts, j, k, c.t);
    }
  }

  lemma {:induction false} CameFirst(ss: seq<State>, acts: seq<Action>, j: nat, c: Action) returns (e: nat, r: Result)
    requires History(ss, acts, c) && j < |acts| && acts[j] == c
    ensures Came(ss, acts, j, j + 1, c, e, r)
  {
    assert FollowsAt(ss, acts, j, c);
    r := ResultOf(ss[j], acts[j]);
    e := if r.NotYet? then j + 1 else j;
  }

  lemma {:induction false} WhereCame(ss: seq<State>, acts: seq<Action>, j: nat, k: nat, c: Action) returns (e: nat, r: Result)
    requires History(ss, acts, c) && j < k < |ss| && Calling(acts, j, k, c)
    ensures Came(ss, acts, j, k, c, e, r)
  {
    if j + 1 == k {
      e, r := CameFirst(ss, acts, j, c);
    } else {
      e, r := WhereCame(ss, acts, j, k - 1, c);
      assert FollowsAt(ss, acts, k - 1, c);
      e, r := CameStep(ss, acts, j, k - 1, c, e, r);
    }
  }

  /**
   * Every call: until one step `e` of it the stack is untouched by it; that step pushes the element the
   * caller gave, or pops the top element, which is the one returned, or finds the stack empty; no later
   * step of the call changes the stack; and the call is not over before.
   */
  lemma {:induction false} CallTakesEffect(ss: seq<State>, acts: seq<Action>, j: nat, k: nat, c: Action)
      returns (e: nat, r: Result)
    requires Run(ss, acts) && Windowed(ss, acts) && j < k < |ss| && Calling(acts, j, k, c)
    ensures Came(ss, acts, j, k, c, e, r)
    ensures At(ss[k], c.t).Idle? ==> e < k
    ensures At(ss[k], c.t).Popped? ==> r == Took(At(ss[k], c.t).id)
  {
    RunHistory(ss, acts, c);
    e, r := WhereCame(ss, acts, j, k, c);
  }

  /** A popped element is returned with no link. */
  lemma {:induction false} PoppedIsUnlinked(ss: seq<State>, acts: seq<Action>, k: nat)
    requires Run(ss, acts) && k < |acts| && acts[k].FinishPop?
    ensures At(ss[k + 1], acts[k].t).Idle? && Next(ss[k + 1], At(ss[k], acts[k].t).id) == NONE
  {
  }

  /** Every step of a call gets its thread on. */
  lemma {:induction false} StepsMove(ss: seq<State>, acts: seq<Action>, k: nat)
    requires Run(ss, acts) && k < |acts| && !Begins(acts[k]) && !acts[k].Overwrite? && !acts[k].Give?
    ensures At(ss[k + 1], acts[k].t) != At(ss[k], acts[k].t)
  {
    match acts[k]
    case SwapPush(t) => var p' := PushPc(ss[k], t);
    case SwapPop(t) => var p' := PopPc(ss[k], t);
    case _ =>
  }
}
