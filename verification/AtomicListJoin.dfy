/**
 * Pins and links of the self-locking list together. In the model of the links a removal starts only
 * when no operation stands on its element; here that rule is not assumed but follows from the pins.
 * What is asked of callers is what the list asks of them: to have a pin on an element they stand on.
 */
module AtomicListJoin {
  import opened Base
  import L = AtomicList
  import LI = AtomicListInv
  import LR = AtomicListRuns
  import P = AtomicPins
  import PR = AtomicPinsRuns

  datatype State = State(l: L.State, p: P.State)

  datatype Action = Link(a: L.Action) | Pin(b: P.Action) | Take(t: Tid)

  predicate StartsRemoval(a: L.Action) {
    a.StartPre? && a.k.Delete?
  }

  /** The thread has a pin on the element it stands on, unless it is removing it. */
  predicate PinsPlace(l: L.State, p: P.State, t: Tid) {
    var q := L.At(l, t);
    L.Stands(q).Some? && L.Stands(q).value.Elem? && !L.Deletes(q, L.Stands(q).value) ==>
      t in P.Holds(p, L.Stands(q).value.id)
  }

  /** The thread that takes an element out has masked it and found no pins left. */
  ghost predicate Removes(l: L.State, p: P.State, t: Tid) {
    forall e :: L.Deletes(L.At(l, t), L.Elem(e)) ==> P.At(p, t) == P.Deleting(e) || P.At(p, t) == P.Unlinking(e)
  }

  /** A removal has won the element. */
  predicate Masked(p: P.State, n: L.Node) {
    n.Elem? && P.RefOf(p, n.id).mask
  }

  predicate Pinned(p: P.State, t: Tid, n: L.Node) {
    n.Elem? && t in P.Holds(p, n.id)
  }

  /** A walk backward goes on to the predecessor that it has locked. */
  predicate PassesOn(l: L.State, a: L.Action) {
    a.Force? && !a.defer && L.At(l, a.t).BwdBoth?
  }

  /**
   * Where a walk looks at the next element it tries to pin it. It goes past the element, or waits to
   * lock it, only if that failed because the element is masked; it gives up only at the end of the list.
   * With a masked predecessor locked it passes on if it could force a pin, and defers if the element has
   * no pins left.
   */
  predicate WalkRule(s: State, a: L.Action) {
    var q := L.At(s.l, a.t);
    && (a.Step? && q.FwdHold? && L.Next(s.l, q.x) != L.Tail ==> Masked(s.p, L.Next(s.l, q.x)))
    && (a.Stop? && q.FwdHold? ==> false)
    && (a.Stop? && q.BwdHold? ==> L.Prev(s.l, q.x) == L.Head)
    && (a.Force? && q.BwdHold? ==> Masked(s.p, L.Prev(s.l, q.x)))
    && (a.Force? && a.defer && q.BwdBoth? ==> Masked(s.p, q.p) && P.Holds(s.p, q.p.id) == multiset{})
  }

  /** The neighbour that a walk looks at. */
  function Ahead(l: L.State, t: Tid): L.Node {
    var q := L.At(l, t);
    if q.FwdHold? then L.Next(l, q.x) else if q.BwdHold? then L.Prev(l, q.x) else L.Head
  }

  /**
   * A removal starts on a listed element that its thread may delete by the pins. Any other step on the
   * links is one of their model, and pins the element it moves to before it moves. A walk that pins the
   * next element returns it. A step on the pins leaves the thread a pin on its place, and clears an
   * element only when it has been taken out.
   */
  ghost predicate Can(s: State, x: Action) {
    match x
    case Link(a) =>
      if StartsRemoval(a) then
        L.At(s.l, a.t).Idle? && a.x.Elem? && L.Listed(s.l, a.x) && P.At(s.p, a.t) == P.Deleting(a.x.id)
      else if PassesOn(s.l, a) then Masked(s.p, L.At(s.l, a.t).p) && Pinned(s.p, a.t, L.At(s.l, a.t).p)
      else
        && L.Can(s.l, a) && WalkRule(s, a)
        && (L.Stands(L.At(L.Do(s.l, a), a.t)) == L.Stands(L.At(s.l, a.t)) || PinsPlace(L.Do(s.l, a), s.p, a.t))
    case Pin(b) =>
      && P.Can(s.p, b) && PinsPlace(s.l, P.Do(s.p, b), b.t)
      && (P.At(s.p, b.t).Unlinking? ==> !L.Deletes(L.At(s.l, b.t), L.Elem(P.At(s.p, b.t).e)))
    case Take(t) =>
      && (L.At(s.l, t).FwdHold? || L.At(s.l, t).BwdHold?)
      && Ahead(s.l, t).Elem? && !Masked(s.p, Ahead(s.l, t)) && P.Can(s.p, P.Pin(t, Ahead(s.l, t).id))
  }

  ghost function LinkOf(l: L.State, a: L.Action): L.State
    requires StartsRemoval(a) || PassesOn(l, a) || L.Can(l, a)
  {
    if StartsRemoval(a) then L.To(l, a.t, L.PreWant(a.x, a.k))
    else if PassesOn(l, a) then
      var q := L.At(l, a.t);
      L.To(l, a.t, if q.x == L.Tail then L.BwdWant(q.p) else L.BwdHold(q.p))
    else L.Do(l, a)
  }

  ghost function Do(s: State, x: Action): State
    requires Can(s, x)
  {
    match x
    case Link(a) => s.(l := LinkOf(s.l, a))
    case Pin(b) => s.(p := P.Do(s.p, b))
    case Take(t) => State(L.Do(s.l, L.Stop(t)), P.PinOf(s.p, t, Ahead(s.l, t).id))
  }

  ghost predicate Run(ss: seq<State>, xs: seq<Action>) {
    && |ss| == |xs| + 1
    && L.Init(ss[0].l) && P.Init(ss[0].p)
    && forall i :: 0 <= i < |xs| ==> Can(ss[i], xs[i]) && ss[i + 1] == Do(ss[i], xs[i])
  }

  ghost predicate Tied(s: State) {
    forall t :: PinsPlace(s.l, s.p, t) && Removes(s.l, s.p, t)
  }

  ghost predicate Inv(s: State) {
    LI.Inv(s.l) && PR.Inv(s.p) && Tied(s)
  }

  // ---------- a removal by the pins is one by the links ----------

  /** With no pins left and one remover, no one else stands on the element. */
  lemma {:induction false} Alone(s: State, t: Tid, e: P.Id, u: Tid)
    requires PR.Inv(s.p) && Tied(s) && P.At(s.p, t) == P.Deleting(e) && L.At(s.l, t).Idle?
    ensures !L.Deletes(L.At(s.l, u), L.Elem(e)) && L.Stands(L.At(s.l, u)) != Some(L.Elem(e))
  {
    PR.InvAt(s.p, t, u, e);
    assert PinsPlace(s.l, s.p, u) && Removes(s.l, s.p, u);
    assert |P.Holds(s.p, e)| == 0;
    assert u !in P.Holds(s.p, e);
  }

  lemma {:induction false} RemovalAllowed(s: State, a: L.Action)
    requires PR.Inv(s.p) && Tied(s) && Can(s, Link(a)) && StartsRemoval(a)
    ensures L.Can(s.l, a)
  {
    forall u
      ensures !L.Deletes(L.At(s.l, u), a.x) && L.Stands(L.At(s.l, u)) != Some(a.x)
    {
      Alone(s, a.t, a.x.id, u);
    }
  }

  /** An element with a pin is not being taken out. */
  lemma {:induction false} PinKeeps(s: State, t: Tid, e: P.Id, u: Tid)
    requires PR.Inv(s.p) && Tied(s) && t in P.Holds(s.p, e)
    ensures !L.Deletes(L.At(s.l, u), L.Elem(e))
  {
    PR.InvAt(s.p, t, u, e);
    assert Removes(s.l, s.p, u);
    if L.Deletes(L.At(s.l, u), L.Elem(e)) {
      PR.SizeLess(P.Holds(s.p, e), t);
    }
  }

  lemma {:induction false} PassAllowed(s: State, a: L.Action)
    requires PR.Inv(s.p) && Tied(s) && Can(s, Link(a)) && PassesOn(s.l, a)
    ensures L.Can(s.l, a) && L.Do(s.l, a) == LinkOf(s.l, a)
  {
    forall u
      ensures !L.Deletes(L.At(s.l, u), L.At(s.l, a.t).p)
    {
      PinKeeps(s, a.t, L.At(s.l, a.t).p.id, u);
    }
  }

  // ---------- steps on the links ----------

  /** A step moves its own thread; one that stands still neither begins nor ends the removal of its place. */
  predicate Moves(l: L.State, t: Tid, l': L.State, n: L.Node) {
    var p, p' := L.At(l, t), L.At(l', t);
    && l'.pc == l.pc[t := p']
    && (L.Deletes(p', n) ==> L.Deletes(p, n))
    && (L.Stands(p) == L.Stands(p') == Some(n) && L.Deletes(p, n) ==> L.Deletes(p', n))
  }

  lemma {:induction false} GrantBehind(l: L.State, l': L.State, t: Tid, n: L.Node)
    requires var p := L.At(l, t); p.AfterWant? || p.AfterNext? || p.FwdWant? || p.FwdNext? || p.BwdWant? || p.BwdWait? || p.BwdRelock?
    requires l' == L.GrantOf(l, t)
    ensures Moves(l, t, l', n)
  {
  }

  lemma {:induction false} GrantBefore(l: L.State, l': L.State, t: Tid, n: L.Node)
    requires var p := L.At(l, t); p.PreWant? || p.PreWait? || p.PreRelock? || p.PreNext?
    requires l' == L.GrantOf(l, t)
    ensures Moves(l, t, l', n)
  {
  }

  lemma {:induction false} StepBehind(l: L.State, l': L.State, t: Tid, n: L.Node)
    requires var p := L.At(l, t); p.AfterHold? || p.AfterBoth? || p.FwdHold?
    requires L.Can(l, L.Step(t)) && l' == L.StepOf(l, t)
    ensures Moves(l, t, l', n)
  {
  }

  lemma {:induction false} StepBefore(l: L.State, l': L.State, t: Tid, n: L.Node)
    requires var p := L.At(l, t); p.PreHold? || p.PreBoth? || p.PreAll? || p.Clear?
    requires L.Can(l, L.Step(t)) && l' == L.StepOf(l, t)
    ensures Moves(l, t, l', n)
  {
  }

  lemma {:induction false} ForceMoves(l: L.State, l': L.State, t: Tid, defer: bool, n: L.Node)
    requires L.Can(l, L.Force(t, defer)) && l' == L.ForceOf(l, t, defer)
    ensures Moves(l, t, l', n)
  {
  }

  lemma {:induction false} GrantMoves(l: L.State, l': L.State, t: Tid, n: L.Node)
    requires L.Wants(L.At(l, t)).Some? && l' == L.GrantOf(l, t)
    ensures Moves(l, t, l', n)
  {
    var p := L.At(l, t);
    if p.PreWant? || p.PreWait? || p.PreRelock? || p.PreNext? {
      GrantBefore(l, l', t, n);
    } else {
      GrantBehind(l, l', t, n);
    }
  }

  lemma {:induction false} StepMoves(l: L.State, l': L.State, t: Tid, n: L.Node)
    requires L.Can(l, L.Step(t)) && l' == L.StepOf(l, t)
    ensures Moves(l, t, l', n)
  {
    var p := L.At(l, t);
    if p.PreHold? || p.PreBoth? || p.PreAll? || p.Clear? {
      StepBefore(l, l', t, n);
    } else {
      StepBehind(l, l', t, n);
    }
  }

  lemma {:induction false} LinkMoves(l: L.State, a: L.Action, l': L.State, n: L.Node)
    requires L.Can(l, a) && l' == L.Do(l, a) && !StartsRemoval(a)
    ensures Moves(l, a.t, l', n)
  {
    match a
    case Grant(t) => GrantMoves(l, l', t, n);
    case Step(t) => StepMoves(l, l', t, n);
    case Force(t, defer) => ForceMoves(l, l', t, defer, n);
    case _ =>
  }

  /** The acting thread after a step that starts no removal. */
  lemma {:induction false} OwnLink(s: State, a: L.Action, l': L.State)
    requires PinsPlace(s.l, s.p, a.t) && Removes(s.l, s.p, a.t) && !StartsRemoval(a)
    requires forall n :: Moves(s.l, a.t, l', n)
    requires L.Stands(L.At(l', a.t)) == L.Stands(L.At(s.l, a.t)) || PinsPlace(l', s.p, a.t)
    ensures PinsPlace(l', s.p, a.t) && Removes(l', s.p, a.t)
  {
    var place := L.Stands(L.At(s.l, a.t));
    if place.Some? {
      assert Moves(s.l, a.t, l', place.value);
    }
    forall e | L.Deletes(L.At(l', a.t), L.Elem(e))
      ensures P.At(s.p, a.t) == P.Deleting(e) || P.At(s.p, a.t) == P.Unlinking(e)
    {
      assert Moves(s.l, a.t, l', L.Elem(e));
    }
  }

  lemma {:induction false} OthersLink(s: State, l': L.State, t: Tid, p': L.Pc, u: Tid)
    requires PinsPlace(s.l, s.p, u) && Removes(s.l, s.p, u) && u != t && l'.pc == s.l.pc[t := p']
    ensures PinsPlace(l', s.p, u) && Removes(l', s.p, u)
  {
    assert L.At(l', u) == L.At(s.l, u);
  }

  lemma {:induction false} LinkTied(s: State, a: L.Action, l': L.State)
    requires Tied(s) && !StartsRemoval(a) && (forall n :: Moves(s.l, a.t, l', n))
    requires L.Stands(L.At(l', a.t)) == L.Stands(L.At(s.l, a.t)) || PinsPlace(l', s.p, a.t)
    ensures Tied(s.(l := l'))
  {
    assert Moves(s.l, a.t, l', L.Head);
    forall u
      ensures PinsPlace(l', s.p, u) && Removes(l', s.p, u)
    {
      assert PinsPlace(s.l, s.p, u) && Removes(s.l, s.p, u);
      if u == a.t {
        OwnLink(s, a, l');
      } else {
        OthersLink(s, l', a.t, L.At(l', a.t), u);
      }
    }
  }

  lemma {:induction false} RemovalTied(s: State, t: Tid, e: P.Id, l': L.State)
    requires Tied(s) && P.At(s.p, t) == P.Deleting(e) && l' == L.To(s.l, t, L.PreWant(L.Elem(e), L.Delete))
    ensures Tied(s.(l := l'))
  {
    forall u
      ensures PinsPlace(l', s.p, u) && Removes(l', s.p, u)
    {
      assert PinsPlace(s.l, s.p, u) && Removes(s.l, s.p, u);
      if u != t {
        OthersLink(s, l', t, L.At(l', t), u);
      }
    }
  }

  lemma {:induction false} LinkAllowed(s: State, a: L.Action)
    requires PR.Inv(s.p) && Tied(s) && Can(s, Link(a))
    ensures L.Can(s.l, a) && LinkOf(s.l, a) == L.Do(s.l, a)
  {
    if StartsRemoval(a) {
      RemovalAllowed(s, a);
    } else if PassesOn(s.l, a) {
      PassAllowed(s, a);
    }
  }

  lemma {:induction false} PassedPlace(s: State, a: L.Action)
    requires Can(s, Link(a)) && PassesOn(s.l, a)
    ensures PinsPlace(LinkOf(s.l, a), s.p, a.t)
  {
  }

  lemma {:induction false} AllMoves(l: L.State, a: L.Action, l': L.State)
    requires L.Can(l, a) && l' == L.Do(l, a) && !StartsRemoval(a)
    ensures forall n :: Moves(l, a.t, l', n)
  {
    forall n
      ensures Moves(l, a.t, l', n)
    {
      LinkMoves(l, a, l', n);
    }
  }

  lemma {:induction false} LinkInv(s: State, a: L.Action, s': State)
    requires Inv(s) && Can(s, Link(a)) && s' == Do(s, Link(a))
    ensures Inv(s') && L.Can(s.l, a) && s'.l == L.Do(s.l, a)
  {
    LinkAllowed(s, a);
    if StartsRemoval(a) {
      RemovalTied(s, a.t, a.x.id, s'.l);
    } else {
      AllMoves(s.l, a, s'.l);
      if PassesOn(s.l, a) {
        PassedPlace(s, a);
      }
      LinkTied(s, a, s'.l);
    }
    LR.StepInv(s.l, a, s'.l);
  }

  // ---------- steps on the pins ----------

  /** A step on the pins leaves the others their pins and their program counters. */
  predicate LeavesPins(p: P.State, t: Tid, p': P.State, u: Tid, e: P.Id) {
    P.At(p', u) == P.At(p, u) && (u in P.Holds(p, e) ==> u in P.Holds(p', e))
  }

  lemma {:induction false} SameHolds(p: P.State, t: Tid, q: P.Pc, p': P.State, u: Tid, e: P.Id)
    requires u != t && p'.holds == p.holds && (p'.pc == p.pc || p'.pc == p.pc[t := q])
    ensures LeavesPins(p, t, p', u, e)
  {
  }

  lemma {:induction false} PutHolds(p: P.State, t: Tid, q: P.Pc, p': P.State, d: P.Id, h: multiset<Tid>, u: Tid, e: P.Id)
    requires u != t && p'.holds == p.holds[d := h] && p'.pc == p.pc[t := q]
    requires u in P.Holds(p, d) ==> u in h
    ensures LeavesPins(p, t, p', u, e)
  {
  }

  lemma {:induction false} MinusOther(h: multiset<Tid>, t: Tid, u: Tid)
    requires u != t && u in h
    ensures u in h - multiset{t}
  {
  }

  lemma {:induction false} OthersInsert(p: P.State, p': P.State, t: Tid, d: P.Id, pinned: bool, u: Tid, e: P.Id)
    requires PR.Inv(p) && P.Can(p, P.StartInsert(t, d, pinned)) && p' == P.StartInsertOf(p, t, d, pinned) && u != t
    ensures LeavesPins(p, t, p', u, e)
  {
    PR.InvAt(p, t, u, d);
    assert P.Clear(p, u, d);
    PutHolds(p, t, P.At(p', t), p', d, P.Holds(p', d), u, e);
  }

  lemma {:induction false} OthersPin(p: P.State, p': P.State, t: Tid, d: P.Id, u: Tid, e: P.Id)
    requires p' == P.PinOf(p, t, d) && u != t
    ensures LeavesPins(p, t, p', u, e)
  {
    if P.RefOf(p, d).mask {
      SameHolds(p, t, P.At(p', t), p', u, e);
    } else {
      PutHolds(p, t, P.Idle, p', d, P.Holds(p, d) + multiset{t}, u, e);
    }
  }

  lemma {:induction false} OthersUnpin(p: P.State, p': P.State, t: Tid, d: P.Id, u: Tid, e: P.Id)
    requires p' == P.UnpinOf(p, t, d) && u != t
    ensures LeavesPins(p, t, p', u, e)
  {
    var r, h := P.RefOf(p, d), P.Holds(p, d) - multiset{t};
    if u in P.Holds(p, d) {
      MinusOther(P.Holds(p, d), t, u);
    }
    if r.pins == 0 || (r.mask && r.pins == 1 && r.wait == None) {
      SameHolds(p, t, P.Fault, p', u, e);
    } else {
      PutHolds(p, t, P.Idle, p', d, h, u, e);
    }
  }

  lemma {:induction false} OthersMask(p: P.State, p': P.State, t: Tid, d: P.Id, u: Tid, e: P.Id)
    requires p' == P.StartRemoveOf(p, t, d) && u != t
    ensures LeavesPins(p, t, p', u, e)
  {
    var r, h := P.RefOf(p, d), P.Holds(p, d);
    if u in h {
      MinusOther(h, t, u);
    }
    if r.mask || r.pins == 0 {
      SameHolds(p, t, P.Fault, p', u, e);
    } else if r.pins == 1 {
      PutHolds(p, t, P.Masked(d, false), p', d, h - multiset{t}, u, e);
    } else {
      PutHolds(p, t, P.Masked(d, true), p', d, h, u, e);
    }
  }

  lemma {:induction false} OthersForce(p: P.State, p': P.State, t: Tid, u: Tid, e: P.Id)
    requires P.At(p, t).Walking? && p' == P.ForcePinOf(p, t) && u != t
    ensures LeavesPins(p, t, p', u, e)
  {
    var d := P.At(p, t).e;
    if !P.RefOf(p, d).mask || P.RefOf(p, d).pins == 0 {
      SameHolds(p, t, P.At(p', t), p', u, e);
    } else {
      PutHolds(p, t, P.Idle, p', d, P.Holds(p, d) + multiset{t}, u, e);
    }
  }

  lemma {:induction false} OthersDefer(p: P.State, p': P.State, t: Tid, u: Tid, e: P.Id)
    requires P.At(p, t).Walking? && p' == P.DeferOf(p, t) && u != t
    ensures LeavesPins(p, t, p', u, e)
  {
    var d := P.At(p, t).e;
    if P.RefOf(p, d).pins != 0 || !P.RefOf(p, d).mask {
      SameHolds(p, t, P.At(p', t), p', u, e);
    } else {
      PutHolds(p, t, P.Deferred(d), p', d, P.Holds(p, d), u, e);
    }
  }

  lemma {:induction false} OthersLetGo(p: P.State, p': P.State, t: Tid, d: P.Id, u: Tid, e: P.Id)
    requires p' == P.RemoveWaitOf(p, t, d) && u != t
    ensures LeavesPins(p, t, p', u, e)
  {
    var r, h := P.RefOf(p, d), P.Holds(p, d) - multiset{t};
    if u in P.Holds(p, d) {
      MinusOther(P.Holds(p, d), t, u);
    }
    if r.wait.Some? || r.pins == 0 || !r.mask {
      SameHolds(p, t, P.Fault, p', u, e);
    } else {
      PutHolds(p, t, if r.pins == 1 then P.Deleting(d) else P.Waiting(d), p', d, h, u, e);
    }
  }

  lemma {:induction false} OthersExpose(p: P.State, p': P.State, t: Tid, d: P.Id, pinned: bool, u: Tid, e: P.Id)
    requires p' == P.ExposeOf(p, t, d, pinned) && u != t
    ensures LeavesPins(p, t, p', u, e)
  {
    if P.At(p', t).Fault? {
      SameHolds(p, t, P.Fault, p', u, e);
    } else {
      PutHolds(p, t, P.Idle, p', d, P.Holds(p, d), u, e);
    }
  }

  lemma {:induction false} OthersClear(p: P.State, p': P.State, t: Tid, d: P.Id, u: Tid, e: P.Id)
    requires p' == P.ClearOf(p, t, d) && u != t
    ensures LeavesPins(p, t, p', u, e)
  {
    if P.At(p', t).Fault? {
      SameHolds(p, t, P.Fault, p', u, e);
    } else {
      PutHolds(p, t, P.Idle, p', d, P.Holds(p, d), u, e);
    }
  }

  lemma {:induction false} OthersQuiet(p: P.State, p': P.State, t: Tid, u: Tid, e: P.Id)
    requires var q := P.At(p, t); q.Insert? || q.Masked? || q.Waiting? || q.Deleting? || q.Deferred?
    requires P.Can(p, P.Step(t)) && p' == P.StepOf(p, t) && u != t
    ensures LeavesPins(p, t, p', u, e)
  {
    SameHolds(p, t, P.At(p', t), p', u, e);
  }

  lemma {:induction false} OthersStep(p: P.State, p': P.State, t: Tid, u: Tid, e: P.Id)
    requires P.Can(p, P.Step(t)) && p' == P.StepOf(p, t) && u != t
    ensures LeavesPins(p, t, p', u, e)
  {
    match P.At(p, t)
    case Removing(d) => OthersLetGo(p, p', t, d, u, e);
    case Expose(d, pinned) => OthersExpose(p, p', t, d, pinned, u, e);
    case Unlinking(d) => OthersClear(p, p', t, d, u, e);
    case _ => OthersQuiet(p, p', t, u, e);
  }

  lemma {:induction false} OthersHold(p: P.State, b: P.Action, p': P.State, u: Tid, e: P.Id)
    requires PR.Inv(p) && P.Can(p, b) && p' == P.Do(p, b) && u != b.t
    ensures LeavesPins(p, b.t, p', u, e)
  {
    match b
    case StartInsert(t, d, pinned) => OthersInsert(p, p', t, d, pinned, u, e);
    case Pin(t, d) => OthersPin(p, p', t, d, u, e);
    case Unpin(t, d) => OthersUnpin(p, p', t, d, u, e);
    case StartRemove(t, d) => OthersMask(p, p', t, d, u, e);
    case ForcePin(t) => OthersForce(p, p', t, u, e);
    case Defer(t) => OthersDefer(p, p', t, u, e);
    case Step(t) => OthersStep(p, p', t, u, e);
    case StartWalk(t, d) => SameHolds(p, t, P.Walking(d), p', u, e);
    case Leave(t) => SameHolds(p, t, P.Idle, p', u, e);
  }

  lemma {:induction false} OwnPin(p: P.State, b: P.Action, p': P.State, e: P.Id)
    requires P.Can(p, b) && p' == P.Do(p, b)
    ensures P.At(p, b.t) == P.Deleting(e) ==> P.At(p', b.t) == P.Unlinking(e)
  {
  }

  lemma {:induction false} PinTied(s: State, b: P.Action, s': State)
    requires PR.Inv(s.p) && Tied(s) && Can(s, Pin(b)) && s' == Do(s, Pin(b))
    ensures Tied(s')
  {
    forall u
      ensures PinsPlace(s'.l, s'.p, u) && Removes(s'.l, s'.p, u)
    {
      assert PinsPlace(s.l, s.p, u) && Removes(s.l, s.p, u);
      forall e
        ensures L.Deletes(L.At(s.l, u), L.Elem(e)) ==> P.At(s'.p, u) == P.Deleting(e) || P.At(s'.p, u) == P.Unlinking(e)
        ensures u != b.t && u in P.Holds(s.p, e) ==> u in P.Holds(s'.p, e)
      {
        if u != b.t {
          OthersHold(s.p, b, s'.p, u, e);
        } else {
          OwnPin(s.p, b, s'.p, e);
        }
      }
    }
  }

  lemma {:induction false} StepInv(s: State, x: Action, s': State)
    requires Inv(s) && Can(s, x) && s' == Do(s, x)
    ensures Inv(s')
    ensures x.Link? ==> L.Can(s.l, x.a) && s'.l == L.Do(s.l, x.a)
  {
    match x
    case Link(a) => LinkInv(s, a, s');
    case Pin(b) =>
      PinTied(s, b, s');
      PR.StepInv(s.p, b, s'.p);
    case Take(t) => TakeInv(s, t, s');
  }

  lemma {:induction false} TakeInv(s: State, t: Tid, s': State)
    requires Inv(s) && Can(s, Take(t)) && s' == Do(s, Take(t))
    ensures Inv(s')
  {
    var e := Ahead(s.l, t).id;
    var mid := s.(l := s'.l);
    AllMoves(s.l, L.Stop(t), s'.l);
    assert L.At(s'.l, t).Idle?;
    LinkTied(s, L.Stop(t), s'.l);
    PinTied(mid, P.Pin(t, e), s');
    LR.StepInv(s.l, L.Stop(t), s'.l);
    PR.StepInv(s.p, P.Pin(t, e), s'.p);
  }

  lemma {:induction false} InitInv(s: State)
    requires L.Init(s.l) && P.Init(s.p)
    ensures Inv(s)
  {
    LR.InitInv(s.l);
    PR.RunInv([s.p], [], 0);
  }

  lemma {:induction false} RunStep(ss: seq<State>, xs: seq<Action>, k: nat)
    requires Run(ss, xs) && k < |xs| && Inv(ss[k])
    ensures Inv(ss[k + 1])
    ensures xs[k].Link? ==> L.Can(ss[k].l, xs[k].a) && ss[k + 1].l == L.Do(ss[k].l, xs[k].a)
  {
    StepInv(ss[k], xs[k], ss[k + 1]);
  }

  lemma {:induction false} RunInv(ss: seq<State>, xs: seq<Action>, k: nat)
    requires Run(ss, xs) && k < |ss|
    ensures Inv(ss[k])
  {
    InitInv(ss[0]);
    forall i | 0 <= i < |xs| && Inv(ss[i])
      ensures Inv(ss[i + 1])
    {
      RunStep(ss, xs, i);
    }
    InvLasts(ss, k);
  }

  lemma {:induction false} InvLasts(ss: seq<State>, k: nat)
    requires k < |ss| && Inv(ss[0])
    requires forall i :: 0 <= i < |ss| - 1 && Inv(ss[i]) ==> Inv(ss[i + 1])
    ensures Inv(ss[k])
  {
    if k > 0 {
      InvLasts(ss, k - 1);
      assert Inv(ss[k - 1]) ==> Inv(ss[k - 1 + 1]);
    }
  }

  /**
   * In every run of both together, a removal that the pins let go ahead finds no operation standing on
   * its element, and every step on the links is one that their model allows.
   */
  lemma {:induction false} PinsGuardRemoval(ss: seq<State>, xs: seq<Action>, k: nat)
    requires Run(ss, xs) && k < |xs| && xs[k].Link?
    ensures L.Can(ss[k].l, xs[k].a) && ss[k + 1].l == L.Do(ss[k].l, xs[k].a)
    ensures StartsRemoval(xs[k].a) ==> forall u :: L.Stands(L.At(ss[k].l, u)) != Some(xs[k].a.x)
  {
    RunInv(ss, xs, k);
    RunStep(ss, xs, k);
  }
}
