/** How many steps an operation on the self-locking list takes that no other thread disturbs. */
module AtomicListAlone {
  import opened Base
  import opened AtomicList
  import opened AtomicListInv
  import opened AtomicListRuns
  import opened AtomicListCalls

  /** A step inside an operation; a walk that defers to a removal waits for another thread. */
  predicate Inner(a: Action) {
    !Begins(a) && !(a.Force? && a.defer)
  }

  /** How far the node is from the tail, and from the head. */
  function Ahead(q: seq<Id>, x: Node): nat {
    if Pos(q, x) <= |q| + 1 then |q| + 1 - Pos(q, x) else 0
  }

  function Before(q: seq<Id>, x: Node): nat {
    if Pos(q, x) >= 0 then Pos(q, x) else 0
  }

  /** The steps an operation still takes when only its thread steps. */
  function Left(s: State, t: Tid): nat {
    var q := s.list;
    match At(s, t)
    case Idle => 0
    case AfterWant(_, _) => 4
    case AfterHold(_, _) => 3
    case AfterNext(_, _, _) => 2
    case AfterBoth(_, _, _) => 1
    case PreWant(_, _) => 9
    case PreHold(_, _) => 8
    case PreWait(x, _, p) => if Prev(s, x) == p then 7 else 10
    case PreRelock(x, _, p) => if Prev(s, x) == p then 6 else 9
    case PreBoth(_, _, _) => 5
    case PreNext(_, _, _) => 4
    case PreAll(_, _, _) => 3
    case Clear(_) => 2
    case Clean(_) => 1
    case FwdWant(x) => 2 * Ahead(q, x) + 2
    case FwdHold(x) => 2 * Ahead(q, x) + 1
    case FwdNext(_, n) => 2 * Ahead(q, n) + 2
    case BwdWant(x) => 5 * Before(q, x) + 5
    case BwdHold(x) => 5 * Before(q, x) + 4
    case BwdWait(x, p) => 5 * Before(q, x) + if Prev(s, x) == p then 3 else 6
    case BwdRelock(x, p) => 5 * Before(q, x) + if Prev(s, x) == p then 2 else 5
    case BwdBoth(x, _) => 5 * Before(q, x) + 1
    case BwdDefer(x) => 5 * Before(q, x) + 6
  }

  predicate Back(p: Pc) {
    p.BwdWant? || p.BwdWait?
  }

  lemma {:induction false} GrantBackLowers(s: State, t: Tid)
    requires Back(At(s, t))
    ensures Left(GrantOf(s, t), t) < Left(s, t)
  {
  }

  lemma {:induction false} RelockLowers(s: State, t: Tid)
    requires At(s, t).BwdRelock?
    ensures Left(GrantOf(s, t), t) < Left(s, t)
  {
    var p := At(s, t);
    assert GrantOf(s, t) == To(s, t, if Prev(s, p.x) == p.p then BwdBoth(p.x, p.p) else BwdHold(p.x));
  }

  lemma {:induction false} GrantPreLowers(s: State, t: Tid)
    requires var p := At(s, t); p.PreWant? || p.PreWait? || p.PreRelock? || p.PreNext?
    ensures Left(GrantOf(s, t), t) < Left(s, t)
  {
  }

  lemma {:induction false} GrantLowers(s: State, t: Tid)
    requires var p := At(s, t); p.AfterWant? || p.AfterNext? || p.FwdWant? || p.FwdNext?
    ensures Left(GrantOf(s, t), t) < Left(s, t)
  {
  }

  lemma {:induction false} FwdLowers(s: State, t: Tid)
    requires Inv(s) && At(s, t).FwdHold?
    ensures Left(StepOf(s, t), t) < Left(s, t)
  {
    var x := At(s, t).x;
    InvAt(s, t, t);
    Neighbours(s, t, x);
    NodeIs(s.list, Next(s, x));
  }

  lemma {:induction false} UpdateLowers(s: State, t: Tid)
    requires Can(s, Step(t)) && !At(s, t).FwdHold?
    ensures Left(StepOf(s, t), t) < Left(s, t)
  {
    var p' := StepPc(s, t);
  }

  lemma {:induction false} BackLowers(s: State, t: Tid)
    requires ThreadOk(s, t) && Can(s, Force(t, false))
    ensures Left(ForceOf(s, t, false), t) < Left(s, t)
  {
  }

  lemma {:induction false} StepLowers(s: State, a: Action)
    requires Inv(s) && Can(s, a) && Inner(a)
    ensures Left(Do(s, a), a.t) < Left(s, a.t)
  {
    match a
    case Grant(t) =>
      var p := At(s, t);
      if Back(p) {
        GrantBackLowers(s, t);
      } else if p.BwdRelock? {
        RelockLowers(s, t);
      } else if p.PreWant? || p.PreWait? || p.PreRelock? || p.PreNext? {
        GrantPreLowers(s, t);
      } else {
        GrantLowers(s, t);
      }
    case Step(t) =>
      if At(s, t).FwdHold? {
        FwdLowers(s, t);
      } else {
        UpdateLowers(s, t);
      }
    case Force(t, _) =>
      InvAt(s, t, t);
      BackLowers(s, t);
    case _ =>
  }

  predicate Alone(acts: seq<Action>, j: nat, k: nat, t: Tid)
    requires j <= k <= |acts|
  {
    forall m :: j <= m < k ==> Inner(acts[m]) && acts[m].t == t
  }

  predicate Lower(ss: seq<State>, k: nat, t: Tid)
    requires 0 < k < |ss|
  {
    Left(ss[k], t) < Left(ss[k - 1], t)
  }

  lemma {:induction false} RunLower(ss: seq<State>, acts: seq<Action>, k: nat)
    requires Run(ss, acts) && k < |acts| && Inner(acts[k])
    ensures Lower(ss, k + 1, acts[k].t)
  {
    RunInv(ss, acts, k);
    StepLowers(ss[k], acts[k]);
  }

  lemma {:induction false} LowerSteps(ss: seq<State>, j: nat, k: nat, t: Tid)
    requires j <= k < |ss| && forall m :: j < m <= k ==> Lower(ss, m, t)
    ensures k - j + Left(ss[k], t) <= Left(ss[j], t)
    decreases k
  {
    if j < k {
      LowerSteps(ss, j, k - 1, t);
      assert Lower(ss, k, t);
    }
  }

  ghost predicate Lowers(ss: seq<State>, acts: seq<Action>) {
    |ss| == |acts| + 1 && forall k :: 0 <= k < |acts| && Inner(acts[k]) ==> Lower(ss, k + 1, acts[k].t)
  }

  lemma {:induction false} RunLowers(ss: seq<State>, acts: seq<Action>)
    requires Run(ss, acts)
    ensures Lowers(ss, acts)
  {
    forall k | 0 <= k < |acts| && Inner(acts[k])
      ensures Lower(ss, k + 1, acts[k].t)
    {
      RunLower(ss, acts, k);
    }
  }

  lemma {:induction false} LeftFalls(ss: seq<State>, acts: seq<Action>, j: nat, k: nat, t: Tid)
    requires Lowers(ss, acts) && j <= k < |ss| && Alone(acts, j, k, t)
    ensures k - j <= Left(ss[j], t)
  {
    forall m | j < m <= k
      ensures Lower(ss, m, t)
    {
      assert Lower(ss, m - 1 + 1, acts[m - 1].t);
    }
    LowerSteps(ss, j, k, t);
  }

  lemma {:induction false} LeftBound(s: State, t: Tid)
    ensures Left(s, t) <= 5 * |s.list| + 11
  {
  }

  /**
   * An operation that no other thread disturbs ends, or wants a lock that another has, or stands where it
   * has to defer, within a number of steps linear in the length of the list.
   */
  lemma {:induction false} EndsAlone(ss: seq<State>, acts: seq<Action>, j: nat, k: nat, t: Tid)
    requires Run(ss, acts) && j <= k < |ss| && Alone(acts, j, k, t)
    ensures k - j <= 5 * |ss[j].list| + 11
  {
    RunLowers(ss, acts);
    LeftFalls(ss, acts, j, k, t);
    LeftBound(ss[j], t);
  }
}
