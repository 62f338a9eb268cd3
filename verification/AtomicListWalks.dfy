/**
 * What a walk over the self-locking list returns, with pins and links together. From the node it was
 * started on, a walk goes from neighbour to neighbour, past elements that were masked when it passed
 * them; it returns the first that was not, with a pin on it, or nothing at the end of the list.
 */
module AtomicListWalks {
  import opened Base
  import opened AtomicListJoin
  import L = AtomicList
  import LI = AtomicListInv
  import LR = AtomicListRuns
  import P = AtomicPins

  predicate StartsWalk(a: L.Action) {
    a.StartFwd? || a.StartBwd?
  }

  /** The node that a walk has come to; a walk forward counts as there once it has decided to go. */
  function Reached(p: L.Pc, fwd: bool): Option<L.Node> {
    if fwd then
      match p
      case FwdWant(x) => Some(x)
      case FwdHold(x) => Some(x)
      case FwdNext(_, n) => Some(n)
      case _ => None
    else
      match p
      case BwdWant(x) => Some(x)
      case BwdHold(x) => Some(x)
      case BwdWait(x, _) => Some(x)
      case BwdRelock(x, _) => Some(x)
      case BwdBoth(x, _) => Some(x)
      case BwdDefer(x) => Some(x)
      case _ => None
  }

  /** `b` is right behind `a`, seen in the direction of the walk. */
  predicate Beside(s: State, a: L.Node, b: L.Node, fwd: bool) {
    if fwd then LI.Adj(s.l.list, a, b) else LI.Adj(s.l.list, b, a)
  }

  function End(fwd: bool): L.Node {
    if fwd then L.Tail else L.Head
  }

  /** The step is one of the thread's own on the links. */
  predicate Own(x: Action, t: Tid) {
    (x.Link? && x.a.t == t) || x == Take(t)
  }

  /** From `a` the walk goes on past `b`, which is masked. */
  predicate Passes(s: State, a: L.Node, b: L.Node, fwd: bool) {
    Beside(s, a, b, fwd) && Masked(s.p, b)
  }

  /** The walk ends at `a`: with the neighbour, which is not masked and now pinned, or at the end of the list. */
  predicate Returns(s: State, x: Action, s': State, t: Tid, a: L.Node, fwd: bool) {
    if x.Take? then
      var b := Ahead(s.l, t);
      b.Elem? && Beside(s, a, b, fwd) && !Masked(s.p, b) && Pinned(s'.p, t, b)
    else Beside(s, a, End(fwd), fwd)
  }

  /** One step of a walk that has come to `a`. */
  predicate WalkStep(s: State, x: Action, s': State, t: Tid, fwd: bool)
    requires Reached(L.At(s.l, t), fwd).Some?
  {
    var a, p' := Reached(L.At(s.l, t), fwd).value, L.At(s'.l, t);
    if !Own(x, t) then p' == L.At(s.l, t)
    else if p'.Idle? then Returns(s, x, s', t, a, fwd)
    else
      && Reached(p', fwd).Some?
      && (Reached(p', fwd).value == a || Passes(s, a, Reached(p', fwd).value, fwd))
  }

  // ---------- each kind of step ----------

  lemma {:induction false} TakeStep(s: State, t: Tid, fwd: bool)
    requires LI.Inv(s.l) && Can(s, Take(t)) && Reached(L.At(s.l, t), fwd).Some?
    ensures WalkStep(s, Take(t), Do(s, Take(t)), t, fwd)
  {
    AheadBeside(s, t, fwd);
    TakePins(s.p, t, Ahead(s.l, t).id);
    assert L.At(L.Do(s.l, L.Stop(t)), t).Idle?;
  }

  lemma {:induction false} AheadBeside(s: State, t: Tid, fwd: bool)
    requires LI.Inv(s.l) && (L.At(s.l, t).FwdHold? || L.At(s.l, t).BwdHold?) && fwd == L.At(s.l, t).FwdHold?
    ensures Beside(s, L.At(s.l, t).x, Ahead(s.l, t), fwd)
  {
    var x := L.At(s.l, t).x;
    LR.InvAt(s.l, t, t);
    LI.Neighbours(s.l, t, x);
  }

  lemma {:induction false} TakePins(p: P.State, t: Tid, e: P.Id)
    requires !P.RefOf(p, e).mask
    ensures t in P.Holds(P.PinOf(p, t, e), e)
  {
  }

  lemma {:induction false} GrantStep(s: State, t: Tid, fwd: bool)
    requires Can(s, Link(L.Grant(t))) && Reached(L.At(s.l, t), fwd).Some?
    ensures WalkStep(s, Link(L.Grant(t)), Do(s, Link(L.Grant(t))), t, fwd)
  {
    var p' := GrantPc(s.l, t, fwd);
  }

  lemma {:induction false} GrantPc(l: L.State, t: Tid, fwd: bool) returns (p': L.Pc)
    requires L.Wants(L.At(l, t)).Some? && Reached(L.At(l, t), fwd).Some?
    ensures L.GrantOf(l, t).pc == l.pc[t := p'] && !p'.Idle? && Reached(p', fwd) == Reached(L.At(l, t), fwd)
  {
    match L.At(l, t)
    case FwdWant(x) => p' := L.FwdHold(x);
    case FwdNext(_, n) => p' := L.FwdHold(n);
    case BwdWant(x) => p' := L.BwdHold(x);
    case BwdWait(x, p) => p' := L.BwdRelock(x, p);
    case BwdRelock(x, p) => p' := if L.Prev(l, x) == p then L.BwdBoth(x, p) else L.BwdHold(x);
  }

  lemma {:induction false} ForwardStep(s: State, t: Tid)
    requires LI.Inv(s.l) && Can(s, Link(L.Step(t))) && L.At(s.l, t).FwdHold?
    ensures WalkStep(s, Link(L.Step(t)), Do(s, Link(L.Step(t))), t, true)
  {
    var x := L.At(s.l, t).x;
    LR.InvAt(s.l, t, t);
    LI.Neighbours(s.l, t, x);
  }

  lemma {:induction false} StopStep(s: State, t: Tid, fwd: bool)
    requires LI.Inv(s.l) && Can(s, Link(L.Stop(t))) && Reached(L.At(s.l, t), fwd).Some?
    ensures WalkStep(s, Link(L.Stop(t)), Do(s, Link(L.Stop(t))), t, fwd)
  {
    LR.InvAt(s.l, t, t);
    if L.At(s.l, t).BwdHold? {
      LI.Neighbours(s.l, t, L.At(s.l, t).x);
    }
  }

  lemma {:induction false} ForceStep(s: State, t: Tid, defer: bool)
    requires LI.Inv(s.l) && Can(s, Link(L.Force(t, defer))) && Reached(L.At(s.l, t), false).Some?
    ensures WalkStep(s, Link(L.Force(t, defer)), Do(s, Link(L.Force(t, defer))), t, false)
  {
    LR.InvAt(s.l, t, t);
    if PassesOn(s.l, L.Force(t, defer)) {
      PassStep(s, t);
    } else {
      var p' := ForcePc(s.l, t, defer);
    }
  }

  lemma {:induction false} PassStep(s: State, t: Tid)
    requires LI.ThreadOk(s.l, t) && L.At(s.l, t).BwdBoth? && Can(s, Link(L.Force(t, false)))
    ensures WalkStep(s, Link(L.Force(t, false)), Do(s, Link(L.Force(t, false))), t, false)
  {
    var q := L.At(s.l, t);
    var p' := if q.x == L.Tail then L.BwdWant(q.p) else L.BwdHold(q.p);
    assert LinkOf(s.l, L.Force(t, false)).pc == s.l.pc[t := p'];
  }

  lemma {:induction false} ForcePc(l: L.State, t: Tid, defer: bool) returns (p': L.Pc)
    requires L.Can(l, L.Force(t, defer)) && !PassesOn(l, L.Force(t, defer))
    ensures L.ForceOf(l, t, defer).pc == l.pc[t := p'] && !p'.Idle?
    ensures Reached(p', false) == Reached(L.At(l, t), false)
  {
    match L.At(l, t)
    case BwdHold(x) =>
      p' := if L.Free(l, t, L.Prev(l, x), false) then L.BwdBoth(x, L.Prev(l, x)) else L.BwdWait(x, L.Prev(l, x));
    case BwdBoth(x, p) => p' := L.BwdDefer(x);
  }

  lemma {:induction false} OwnStep(s: State, x: Action, t: Tid, fwd: bool)
    requires LI.Inv(s.l) && Can(s, x) && Own(x, t) && Reached(L.At(s.l, t), fwd).Some?
    ensures WalkStep(s, x, Do(s, x), t, fwd)
  {
    match x
    case Take(_) => TakeStep(s, t, fwd);
    case Link(a) =>
      match a {
        case Grant(_) => GrantStep(s, t, fwd);
        case Step(_) => ForwardStep(s, t);
        case Stop(_) => StopStep(s, t, fwd);
        case Force(_, defer) => ForceStep(s, t, defer);
      }
  }

  // ---------- whole walks ----------

  ghost predicate WalksAt(ss: seq<State>, xs: seq<Action>, k: nat, t: Tid, fwd: bool)
    requires |ss| == |xs| + 1 && k < |xs|
  {
    Reached(L.At(ss[k].l, t), fwd).Some? ==> WalkStep(ss[k], xs[k], ss[k + 1], t, fwd)
  }

  lemma {:induction false} OthersStay(s: State, x: Action, s': State, t: Tid)
    requires Inv(s) && Can(s, x) && s' == Do(s, x) && !Own(x, t)
    ensures L.At(s'.l, t) == L.At(s.l, t)
  {
    match x
    case Link(a) =>
      LinkAllowed(s, a);
      if !StartsRemoval(a) {
        LinkMoves(s.l, a, s'.l, L.Head);
      }
    case Pin(b) =>
    case Take(u) =>
  }

  lemma {:induction false} RunWalks(ss: seq<State>, xs: seq<Action>, k: nat, t: Tid, fwd: bool)
    requires Run(ss, xs) && k < |xs|
    ensures WalksAt(ss, xs, k, t, fwd)
  {
    RunInv(ss, xs, k);
    if Reached(L.At(ss[k].l, t), fwd).Some? {
      if Own(xs[k], t) {
        OwnStep(ss[k], xs[k], t, fwd);
      } else {
        OthersStay(ss[k], xs[k], ss[k + 1], t);
      }
    }
  }

  ghost predicate WalkHistory(ss: seq<State>, xs: seq<Action>, t: Tid, fwd: bool) {
    |ss| == |xs| + 1 && forall k :: 0 <= k < |xs| ==> WalksAt(ss, xs, k, t, fwd)
  }

  lemma {:induction false} RunHistory(ss: seq<State>, xs: seq<Action>, t: Tid, fwd: bool)
    requires Run(ss, xs)
    ensures WalkHistory(ss, xs, t, fwd)
  {
    forall k | 0 <= k < |xs|
      ensures WalksAt(ss, xs, k, t, fwd)
    {
      RunWalks(ss, xs, k, t, fwd);
    }
  }

  /** At step `at` the walk went from one node past its neighbour. */
  datatype Hop = Hop(at: nat, from: L.Node, over: L.Node)

  /** The hop passed a masked neighbour, starting where the hop before it ended. */
  predicate HopOk(ss: seq<State>, j: nat, k: nat, hops: seq<Hop>, i: nat, fwd: bool)
    requires i < |hops| && k < |ss|
  {
    && j < hops[i].at < k && Passes(ss[hops[i].at], hops[i].from, hops[i].over, fwd)
    && (i > 0 ==> hops[i].from == hops[i - 1].over && hops[i - 1].at < hops[i].at)
  }

  /** From `x0` to `x` over masked neighbours only, in steps between `j` and `k`. */
  predicate Path(ss: seq<State>, j: nat, k: nat, x0: L.Node, hops: seq<Hop>, x: L.Node, fwd: bool) {
    && k < |ss| && (forall i :: 0 <= i < |hops| ==> HopOk(ss, j, k, hops, i, fwd))
    && (if hops == [] then x == x0 else hops[0].from == x0 && hops[|hops| - 1].over == x)
  }

  lemma {:induction false} PathStays(ss: seq<State>, j: nat, k: nat, x0: L.Node, hops: seq<Hop>, x: L.Node, fwd: bool)
    requires Path(ss, j, k, x0, hops, x, fwd) && k + 1 < |ss|
    ensures Path(ss, j, k + 1, x0, hops, x, fwd)
  {
    var k' := k + 1;
    forall i | 0 <= i < |hops|
      ensures HopOk(ss, j, k', hops, i, fwd)
    {
      assert HopOk(ss, j, k, hops, i, fwd);
    }
  }

  lemma {:induction false} PathGrows(ss: seq<State>, j: nat, k: nat, x0: L.Node, hops: seq<Hop>, x: L.Node, y: L.Node, fwd: bool)
    requires Path(ss, j, k, x0, hops, x, fwd) && j < k < |ss| - 1 && Passes(ss[k], x, y, fwd)
    ensures Path(ss, j, k + 1, x0, hops + [Hop(k, x, y)], y, fwd)
  {
    var hops', k' := hops + [Hop(k, x, y)], k + 1;
    forall i | 0 <= i < |hops'|
      ensures HopOk(ss, j, k', hops', i, fwd)
    {
      if i < |hops| {
        assert HopOk(ss, j, k, hops, i, fwd);
      } else if i > 0 {
        assert HopOk(ss, j, k, hops, i - 1, fwd);
      }
    }
  }

  /** The walk begun at `j` with `c` is under way. */
  predicate Walking(ss: seq<State>, xs: seq<Action>, j: nat, k: nat, c: L.Action)
    requires |ss| == |xs| + 1 && j < k < |ss|
  {
    xs[j] == Link(c) && StartsWalk(c) && forall m :: j < m <= k ==> !L.At(ss[m].l, c.t).Idle?
  }

  lemma {:induction false} BeginStep(s: State, c: L.Action)
    requires Can(s, Link(c)) && StartsWalk(c)
    ensures Reached(L.At(Do(s, Link(c)).l, c.t), c.StartFwd?) == Some(c.x)
  {
  }

  /** A walk under way has come from its start over masked neighbours only. */
  lemma {:induction false} WalkPath(ss: seq<State>, xs: seq<Action>, j: nat, k: nat, c: L.Action) returns (x: L.Node, hops: seq<Hop>)
    requires StartsWalk(c) && WalkHistory(ss, xs, c.t, c.StartFwd?) && j < k < |ss| && Walking(ss, xs, j, k, c)
    requires Reached(L.At(ss[j + 1].l, c.t), c.StartFwd?) == Some(c.x)
    ensures Reached(L.At(ss[k].l, c.t), c.StartFwd?) == Some(x) && Path(ss, j, k, c.x, hops, x, c.StartFwd?)
  {
    if k == j + 1 {
      x, hops := c.x, [];
    } else {
      x, hops := WalkPath(ss, xs, j, k - 1, c);
      assert WalksAt(ss, xs, k - 1, c.t, c.StartFwd?);
      x, hops := PathStep(ss, xs, j, k - 1, c.x, hops, x, c.t, c.StartFwd?);
    }
  }

  lemma {:induction false} PathStep(ss: seq<State>, xs: seq<Action>, j: nat, k: nat, x0: L.Node, hops: seq<Hop>, x: L.Node, t: Tid, fwd: bool)
      returns (x': L.Node, hops': seq<Hop>)
    requires |ss| == |xs| + 1 && j < k < |xs| && Path(ss, j, k, x0, hops, x, fwd)
    requires Reached(L.At(ss[k].l, t), fwd) == Some(x) && WalksAt(ss, xs, k, t, fwd)
    requires !L.At(ss[k + 1].l, t).Idle?
    ensures Reached(L.At(ss[k + 1].l, t), fwd) == Some(x') && Path(ss, j, k + 1, x0, hops', x', fwd)
  {
    x' := Reached(L.At(ss[k + 1].l, t), fwd).value;
    if x' == x {
      hops' := hops;
      PathStays(ss, j, k, x0, hops, x, fwd);
    } else {
      hops' := hops + [Hop(k, x, x')];
      PathGrows(ss, j, k, x0, hops, x, x', fwd);
    }
  }

  /**
   * A walk ends only where its path of masked neighbours has led it: it returns the neighbour of that
   * node, which is listed there and not masked, with a pin for the caller; or it returns nothing, and the
   * neighbour is the end of the list.
   */
  lemma {:induction false} WalkReturns(ss: seq<State>, xs: seq<Action>, j: nat, k: nat, c: L.Action) returns (x: L.Node, hops: seq<Hop>)
    requires Run(ss, xs) && j < k < |xs| && Walking(ss, xs, j, k, c) && L.At(ss[k + 1].l, c.t).Idle?
    ensures Path(ss, j, k, c.x, hops, x, c.StartFwd?)
    ensures Returns(ss[k], xs[k], ss[k + 1], c.t, x, c.StartFwd?)
  {
    RunHistory(ss, xs, c.t, c.StartFwd?);
    BeginStep(ss[j], c);
    x, hops := WalkPath(ss, xs, j, k, c);
    assert WalksAt(ss, xs, k, c.t, c.StartFwd?);
    assert L.At(ss[k + 1].l, c.t) != L.At(ss[k].l, c.t);
  }
}
