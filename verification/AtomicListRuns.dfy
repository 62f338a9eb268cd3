/** Every step on the self-locking list keeps the invariant. */
module AtomicListRuns {
  import opened Base
  import opened AtomicList
  import opened AtomicListInv

  lemma {:induction false} InvAt(s: State, t: Tid, u: Tid)
    requires Inv(s)
    ensures ThreadOk(s, t) && ThreadOk(s, u) && (t != u ==> PairOk(At(s, t), At(s, u)) && PairOk(At(s, u), At(s, t)))
  {
  }

  // ---------- starting ----------

  lemma {:induction false} StartPair(p': Pc, q: Pc, x: Node)
    requires Owns(p') == {} && Reads(p') == {} && Stands(p') == Some(x) && !Deletes(q, x)
    requires Brings(p').Some? ==> !Touches(q, Elem(Brings(p').value))
    requires Deletes(p', x) ==> Stands(q) != Some(x)
    requires forall n :: Deletes(p', n) ==> n == x
    requires Wants(p') == Some(x)
    requires Brings(q).Some? ==> x != Elem(Brings(q).value)
    requires Brings(q).Some? && Brings(p').Some? ==> Brings(q) != Brings(p')
    ensures PairOk(p', q) && PairOk(q, p')
  {
  }

  lemma {:induction false} StartInv(s: State, s': State, t: Tid, x: Node, p': Pc)
    requires Inv(s) && At(s, t).Idle? && s' == To(s, t, p') && Steady(s, x) && PlaceOk(s', t)
    requires Owns(p') == {} && Reads(p') == {} && Stands(p') == Some(x) && Wants(p') == Some(x)
    requires Brings(p').Some? ==> Unused(s, Brings(p').value)
    requires Deletes(p', x) ==> forall u :: Stands(At(s, u)) != Some(x)
    requires forall n :: Deletes(p', n) ==> n == x
    ensures Inv(s')
  {
    NoMid(s, t);
    forall u | u != t
      ensures PairOk(p', At(s, u)) && PairOk(At(s, u), p')
    {
      InvAt(s, t, u);
      StartPair(p', At(s, u), x);
    }
    MoveInv(s, s', t, p');
  }

  lemma {:induction false} StartsInv(s: State, a: Action, s': State)
    requires Inv(s) && Can(s, a) && s' == Do(s, a)
    requires a.StartAfter? || a.StartPre? || a.StartFwd? || a.StartBwd?
    ensures Inv(s')
  {
    StartInv(s, s', a.t, a.x, At(s', a.t));
  }

  // ---------- a lock is granted ----------

  /** What a grant, or a step that only lets go, does to the thread's standing. */
  ghost predicate Widens(p: Pc, p': Pc, n: Node, owned: bool) {
    && Owns(p') <= Owns(p) + (if owned then {n} else {})
    && Reads(p') <= Reads(p) + (if owned then {} else {n})
    && (Stands(p') == None || Stands(p') == Stands(p))
    && (Brings(p') == None || Brings(p') == Brings(p))
    && (forall m :: Deletes(p', m) ==> Deletes(p, m))
    && (forall m :: Touches(p', m) ==> Touches(p, m) || m == n)
  }

  lemma {:induction false} WidenPair(p: Pc, p': Pc, n: Node, owned: bool, q: Pc)
    requires Widens(p, p', n, owned) && PairOk(p, q) && PairOk(q, p)
    requires n in Owns(p') || n in Reads(p') ==> n !in Owns(q) && (owned ==> n !in Reads(q))
    requires Brings(q).Some? ==> n != Elem(Brings(q).value)
    ensures PairOk(p', q) && PairOk(q, p')
  {
  }

  /** Moves that take the lock of `n`, come to want it, or only let go. */
  lemma {:induction false} WidenInv(s: State, s': State, t: Tid, p': Pc, n: Node, owned: bool)
    requires Inv(s) && s' == To(s, t, p') && ThreadOk(s', t) && Widens(At(s, t), p', n, owned)
    requires n in Owns(p') || n in Reads(p') ==> Free(s, t, n, owned)
    requires Touches(At(s, t), n) || Pos(s.list, n) >= 0
    requires !At(s, t).AfterBoth?
    requires At(s, t).AfterNext? ==> p' == AfterBoth(At(s, t).x, At(s, t).i, At(s, t).n)
    ensures Inv(s')
  {
    if !At(s, t).AfterNext? {
      NoMid(s, t);
    }
    forall u | u != t
      ensures PairOk(p', At(s, u)) && PairOk(At(s, u), p')
    {
      InvAt(s, t, u);
      WidenPair(At(s, t), p', n, owned, At(s, u));
    }
    MoveInv(s, s', t, p');
  }

  /** Whoever is granted a node's lock finds no half-linked element behind it. */
  lemma {:induction false} FreeMid(s: State, t: Tid, x: Node)
    requires ChainOk(s) && Free(s, t, x, true) && !At(s, t).AfterNext? && !At(s, t).AfterBoth?
    ensures x !in s.mid
  {
    NoMid(s, t);
  }

  lemma {:induction false} GrantAfterInv(s: State, s': State, t: Tid)
    requires Inv(s) && Can(s, Grant(t)) && s' == GrantOf(s, t)
    requires At(s, t).AfterWant? || At(s, t).AfterNext?
    ensures Inv(s')
  {
    InvAt(s, t, t);
    if At(s, t).AfterWant? {
      FreeMid(s, t, At(s, t).x);
    }
    WidenInv(s, s', t, At(s', t), Wants(At(s, t)).value, true);
  }

  lemma {:induction false} GrantPreInv(s: State, s': State, t: Tid)
    requires Inv(s) && Can(s, Grant(t)) && s' == GrantOf(s, t)
    requires var p := At(s, t); p.PreWant? || p.PreWait? || p.PreRelock? || p.PreNext?
    ensures Inv(s')
  {
    InvAt(s, t, t);
    if At(s, t).PreRelock? {
      PredIs(s, At(s, t).x);
    }
    WidenInv(s, s', t, At(s', t), Wants(At(s, t)).value, true);
  }

  lemma {:induction false} GrantWalkInv(s: State, s': State, t: Tid)
    requires Inv(s) && Can(s, Grant(t)) && s' == GrantOf(s, t)
    requires var p := At(s, t); p.FwdWant? || p.FwdNext? || p.BwdWant? || p.BwdWait? || p.BwdRelock?
    ensures Inv(s')
  {
    InvAt(s, t, t);
    if At(s, t).BwdRelock? {
      PredIs(s, At(s, t).x);
    }
    WidenInv(s, s', t, At(s', t), Wants(At(s, t)).value, false);
  }

  // ---------- a holder looks on, or lets go ----------

  lemma {:induction false} PreHoldInv(s: State, s': State, t: Tid)
    requires Inv(s) && At(s, t).PreHold? && s' == StepOf(s, t)
    ensures Inv(s')
  {
    var x := At(s, t).x;
    InvAt(s, t, t);
    PredIs(s, x);
    WidenInv(s, s', t, At(s', t), Prev(s, x), true);
  }

  lemma {:induction false} PreNextInv(s: State, s': State, t: Tid, x: Node, p: Node)
    requires Inv(s) && At(s, t) == PreBoth(x, Delete, p) && s' == To(s, t, PreNext(x, p, Next(s, x)))
    ensures Inv(s')
  {
    InvAt(s, t, t);
    Neighbours(s, t, x);
    WidenInv(s, s', t, At(s', t), Next(s, x), true);
  }

  lemma {:induction false} FrontNextInv(s: State, s': State, t: Tid, i: Id)
    requires Inv(s) && At(s, t) == AfterHold(Head, i) && s' == To(s, t, AfterNext(Head, i, Next(s, Head)))
    ensures Inv(s')
  {
    InvAt(s, t, t);
    Neighbours(s, t, Head);
    WidenInv(s, s', t, At(s', t), Next(s, Head), true);
  }

  lemma {:induction false} FwdHoldInv(s: State, s': State, t: Tid)
    requires Inv(s) && At(s, t).FwdHold? && s' == StepOf(s, t)
    ensures Inv(s')
  {
    var x := At(s, t).x;
    InvAt(s, t, t);
    Neighbours(s, t, x);
    WidenInv(s, s', t, At(s', t), Next(s, x), false);
  }

  lemma {:induction false} LetGoInv(s: State, s': State, t: Tid, p': Pc)
    requires Inv(s) && s' == To(s, t, p')
    requires var p := At(s, t);
      || (p.Clear? && p' == Clean(p.x))
      || (p' == Idle && (p.FwdHold? || p.BwdHold? || p.Clean?))
      || (p.BwdDefer? && p' == BwdWant(p.x))
      || (p.BwdBoth? && p' == BwdDefer(p.x))
    ensures Inv(s')
  {
    InvAt(s, t, t);
    WidenInv(s, s', t, p', Head, false);
  }

  lemma {:induction false} BackInv(s: State, s': State, t: Tid)
    requires Inv(s) && At(s, t).BwdHold? && Can(s, Force(t, false)) && s' == ForceOf(s, t, false)
    ensures Inv(s')
  {
    var x := At(s, t).x;
    InvAt(s, t, t);
    PredIs(s, x);
    WidenInv(s, s', t, At(s', t), Prev(s, x), false);
  }

  /** The walk pins the predecessor, which no one is removing, and goes on from there. */
  lemma {:induction false} ForcePair(x: Node, p: Node, p': Pc, q: Pc)
    requires PairOk(BwdBoth(x, p), q) && PairOk(q, BwdBoth(x, p)) && !Deletes(q, p)
    requires p' == BwdHold(p) || p' == BwdWant(p)
    ensures PairOk(p', q) && PairOk(q, p')
  {
    assert Touches(BwdBoth(x, p), p);
  }

  lemma {:induction false} ForceInv(s: State, s': State, t: Tid, p': Pc)
    requires Inv(s) && At(s, t).BwdBoth? && s' == To(s, t, p')
    requires p' == BwdHold(At(s, t).p) || p' == BwdWant(At(s, t).p)
    requires forall u :: !Deletes(At(s, u), At(s, t).p)
    ensures Inv(s')
  {
    InvAt(s, t, t);
    NoMid(s, t);
    forall u | u != t
      ensures PairOk(p', At(s, u)) && PairOk(At(s, u), p')
    {
      InvAt(s, t, u);
      ForcePair(At(s, t).x, At(s, t).p, p', At(s, u));
    }
    MoveInv(s, s', t, p');
  }

  lemma {:induction false} ForcesInv(s: State, s': State, t: Tid, defer: bool)
    requires Inv(s) && Can(s, Force(t, defer)) && s' == ForceOf(s, t, defer)
    ensures Inv(s')
  {
    var p := At(s, t);
    if p.BwdHold? {
      BackInv(s, s', t);
    } else if defer {
      LetGoInv(s, s', t, BwdDefer(p.x));
    } else {
      ForceInv(s, s', t, if p.x == Tail then BwdWant(p.p) else BwdHold(p.p));
    }
  }

  // ---------- a new element hangs behind its predecessor ----------

  lemma {:induction false} HopKept(s: State, s': State, t: Tid, c: Node, d: Node)
    requires Hop(s, c, d) && s'.pc == s.pc[t := At(s', t)] && (c in s.mid ==> s.mid[c] != t)
    requires Next(s', c) == Next(s, c) && Prev(s', d) == Prev(s, d)
    requires (c in s'.mid <==> c in s.mid) && (c in s.mid ==> s'.mid[c] == s.mid[c])
    ensures Hop(s', c, d)
  {
  }

  /** The nodes at a place and its successor, apart from the neighbours `a` and `b`. */
  lemma {:induction false} PlaceApart(q: seq<Id>, a: Node, b: Node, j: nat)
    requires Distinct(q) && Adj(q, a, b) && j <= |q| && j != Pos(q, a)
    ensures NodeAt(q, j) != a && NodeAt(q, j + 1) != b
  {
    PosIs(q, j);
    PosIs(q, j + 1);
  }

  lemma {:induction false} HangFar(s: State, s': State, t: Tid, x: Node, i: Id, n: Node, k: nat)
    requires ChainOk(s) && x !in s.mid && i !in s.list && Adj(s.list, x, n)
    requires forall a :: a in s.mid ==> s.mid[a] != t
    requires s'.pc == s.pc[t := At(s', t)] && s'.mid == s.mid[x := t]
    requires s'.next == s.next[x := Elem(i)][Elem(i) := n] && s'.prev == s.prev[Elem(i) := x]
    requires k <= |s.list| && k != Pos(s.list, x)
    ensures Hop(s', NodeAt(s.list, k), NodeAt(s.list, k + 1))
  {
    var c, d := NodeAt(s.list, k), NodeAt(s.list, k + 1);
    assert Hop(s, c, d) by { assert LinkOk(s, k); }
    NodeListed(s.list, k);
    NodeListed(s.list, k + 1);
    PlaceApart(s.list, x, n, k);
    assert c != Elem(i) && d != Elem(i);
    HopKept(s, s', t, c, d);
  }

  lemma {:induction false} HangNear(s: State, s': State, t: Tid, x: Node, i: Id, n: Node)
    requires ChainOk(s) && x != Head && x != Tail && i !in s.list && Adj(s.list, x, n)
    requires At(s', t) == AfterNext(x, i, n) && s'.mid == s.mid[x := t]
    requires s'.next == s.next[x := Elem(i)][Elem(i) := n] && s'.prev == s.prev[Elem(i) := x]
    ensures Hop(s', x, n)
  {
    var k := Pos(s.list, x);
    NodeIs(s.list, x);
    NodeIs(s.list, n);
    assert Hop(s, x, n) by { assert LinkOk(s, k); }
    NodeListed(s.list, k);
    NodeListed(s.list, k + 1);
  }

  lemma {:induction false} HangChain(s: State, s': State, t: Tid, x: Node, i: Id, n: Node)
    requires ChainOk(s) && x != Head && x != Tail && x !in s.mid && i !in s.list && Adj(s.list, x, n)
    requires forall a :: a in s.mid ==> s.mid[a] != t
    requires s' == To(s, t, AfterNext(x, i, n))
      .(next := s.next[x := Elem(i)][Elem(i) := n], prev := s.prev[Elem(i) := x], mid := s.mid[x := t])
    ensures ChainOk(s')
  {
    NodeIs(s.list, x);
    NodeIs(s.list, n);
    forall k | 0 <= k <= |s'.list|
      ensures LinkOk(s', k)
    {
      if k == Pos(s.list, x) {
        HangNear(s, s', t, x, i, n);
      } else {
        HangFar(s, s', t, x, i, n, k);
      }
    }
  }

  lemma {:induction false} NodeListed(q: seq<Id>, k: nat)
    ensures NodeAt(q, k).Elem? ==> NodeAt(q, k).id in q
  {
  }

  lemma {:induction false} HangInv(s: State, s': State, t: Tid, x: Node, i: Id)
    requires Inv(s) && At(s, t) == AfterHold(x, i) && x != Head
    requires s' == To(s, t, AfterNext(x, i, Next(s, x)))
      .(next := s.next[x := Elem(i)][Elem(i) := Next(s, x)], prev := s.prev[Elem(i) := x], mid := s.mid[x := t])
    ensures Inv(s')
  {
    var n := Next(s, x);
    InvAt(s, t, t);
    Neighbours(s, t, x);
    NoMid(s, t);
    HangChain(s, s', t, x, i, n);
    forall u
      ensures ThreadOk(s', u)
    {
      InvAt(s, t, u);
      HangThread(s, s', t, x, i, n, u);
    }
    forall v | v != t
      ensures PairOk(At(s', t), At(s, v)) && PairOk(At(s, v), At(s', t))
    {
      InvAt(s, t, v);
      WidenPair(At(s, t), At(s', t), n, true, At(s, v));
    }
    PairsMoved(s, s', t);
  }

  lemma {:induction false} PairsMoved(s: State, s': State, t: Tid)
    requires forall u, v :: u != v ==> PairOk(At(s, u), At(s, v))
    requires s'.pc == s.pc[t := At(s', t)]
    requires forall v :: v != t ==> PairOk(At(s', t), At(s, v)) && PairOk(At(s, v), At(s', t))
    ensures forall u, v :: u != v ==> PairOk(At(s', u), At(s', v))
  {
    forall u, v | u != v
      ensures PairOk(At(s', u), At(s', v))
    {
      assert PairOk(At(s, u), At(s, v));
    }
  }

  lemma {:induction false} HangThread(s: State, s': State, t: Tid, x: Node, i: Id, n: Node, u: Tid)
    requires ThreadOk(s, u) && ThreadOk(s, t) && At(s, t) == AfterHold(x, i) && Adj(s.list, x, n)
    requires u != t ==> PairOk(At(s, t), At(s, u))
    requires s' == To(s, t, AfterNext(x, i, n))
      .(next := s.next[x := Elem(i)][Elem(i) := n], prev := s.prev[Elem(i) := x], mid := s.mid[x := t])
    ensures ThreadOk(s', u)
  {
  }

  // ---------- a new element is linked ----------

  lemma {:induction false} AdjIns(q: seq<Id>, k: nat, i: Id, a: Node, b: Node)
    requires Distinct(q) && k <= |q| && i !in q && a != Elem(i) && b != Elem(i)
    requires Adj(q, a, b) && Pos(q, a) != k
    ensures Adj(Inserted(q, k, i), a, b)
  {
    PosInserted(q, k, i, a);
    PosInserted(q, k, i, b);
  }

  lemma {:induction false} PrecIns(q: seq<Id>, k: nat, i: Id, p: Node, x: Node)
    requires Distinct(q) && k <= |q| && i !in q && p != Elem(i) && x != Elem(i) && Precedes(q, p, x)
    ensures Precedes(Inserted(q, k, i), p, x)
  {
    PosInserted(q, k, i, p);
    PosInserted(q, k, i, x);
  }

  /** Neighbours that a thread relies on have one end locked by it, so no one links between them. */
  lemma {:induction false} LinkPlace(s: State, s': State, t: Tid, a: Node, i: Id, b: Node, u: Tid)
    requires ThreadOk(s, u) && u != t && PairOk(At(s, t), At(s, u)) && Distinct(s.list)
    requires a in Owns(At(s, t)) && b in Owns(At(s, t)) && Adj(s.list, a, b) && a != Tail
    requires Brings(At(s, t)) == Some(i) && i !in s.list
    requires At(s', u) == At(s, u) && s'.list == Inserted(s.list, Pos(s.list, a), i)
    requires s'.mid == s.mid - {a} && (a in s.mid ==> s.mid[a] == t)
    ensures PlaceOk(s', u)
  {
    var q, k := s.list, Pos(s.list, a);
    InsertedIs(q, k, i);
    NodeIs(q, a);
    match At(s, u)
    case AfterNext(x, j, n) => SameNode(q, a, x); AdjIns(q, k, i, x, n);
    case AfterBoth(x, j, n) => SameNode(q, a, x); AdjIns(q, k, i, x, n);
    case PreWait(x, _, p) => PrecIns(q, k, i, p, x);
    case PreRelock(x, _, p) => PrecIns(q, k, i, p, x);
    case PreBoth(x, _, p) => SameNode(q, a, p); AdjIns(q, k, i, p, x);
    case PreNext(x, p, n) => SameNode(q, a, p); SameNode(q, a, x); AdjIns(q, k, i, p, x); AdjIns(q, k, i, x, n);
    case PreAll(x, p, n) => SameNode(q, a, p); SameNode(q, a, x); AdjIns(q, k, i, p, x); AdjIns(q, k, i, x, n);
    case FwdHold(x) => PosInserted(q, k, i, x);
    case FwdNext(x, n) => SameNode(q, a, x); AdjIns(q, k, i, x, n);
    case BwdWait(x, p) => PrecIns(q, k, i, p, x);
    case BwdRelock(x, p) => PrecIns(q, k, i, p, x);
    case BwdBoth(x, p) => SameNode(q, a, p); AdjIns(q, k, i, p, x);
    case _ =>
  }

  lemma {:induction false} SameNode(q: seq<Id>, a: Node, b: Node)
    requires Pos(q, a) >= 0
    ensures Pos(q, a) == Pos(q, b) ==> a == b
  {
    NodeIs(q, a);
    if Pos(q, a) == Pos(q, b) {
      NodeIs(q, b);
    }
  }

  lemma {:induction false} NodeIns(q: seq<Id>, k: nat, i: Id, j: nat)
    requires Distinct(q) && k <= |q| && i !in q && j <= |q| + 2
    ensures NodeAt(Inserted(q, k, i), j) ==
      if j <= k then NodeAt(q, j) else if j == k + 1 then Elem(i) else NodeAt(q, j - 1)
  {
    InsertedIs(q, k, i);
  }

  /** A link that the new element does not touch. */
  lemma {:induction false} FarHop(s: State, s': State, t: Tid, a: Node, i: Id, b: Node, m: nat)
    requires ChainOk(s) && i !in s.list && Adj(s.list, a, b) && a != Tail && a != Elem(i) && b != Elem(i)
    requires s'.next == s.next[a := Elem(i)][Elem(i) := b] && s'.prev == s.prev[b := Elem(i)][Elem(i) := a]
    requires s'.mid == s.mid - {a} && Elem(i) !in s.mid
    requires s'.pc == s.pc[t := Idle] && forall x :: x in s'.mid ==> s'.mid[x] != t
    requires m <= |s.list| && m != Pos(s.list, a)
    ensures Hop(s', NodeAt(s.list, m), NodeAt(s.list, m + 1))
  {
    var c, d := NodeAt(s.list, m), NodeAt(s.list, m + 1);
    assert Hop(s, c, d) by { assert LinkOk(s, m); }
    NodeListed(s.list, m);
    NodeListed(s.list, m + 1);
    PlaceApart(s.list, a, b, m);
    assert c != Elem(i) && d != Elem(i);
    assert c in s.mid ==> c in s'.mid && s'.mid[c] == s.mid[c];
    HopKept(s, s', t, c, d);
  }

  /** One link of the list after a new element is in. */
  lemma {:induction false} LinkedAt(s: State, s': State, t: Tid, a: Node, i: Id, b: Node, j: nat)
    requires ChainOk(s) && i !in s.list && Adj(s.list, a, b) && a != Tail && a != Elem(i) && b != Elem(i)
    requires s'.next == s.next[a := Elem(i)][Elem(i) := b] && s'.prev == s.prev[b := Elem(i)][Elem(i) := a]
    requires s'.mid == s.mid - {a} && Elem(i) !in s.mid
    requires s'.pc == s.pc[t := Idle] && forall x :: x in s'.mid ==> s'.mid[x] != t
    requires s'.list == Inserted(s.list, Pos(s.list, a), i) && j <= |s'.list|
    ensures LinkOk(s', j)
  {
    var q, k := s.list, Pos(s.list, a);
    NodeIs(q, a);
    NodeIs(q, b);
    NodeIns(q, k, i, j);
    NodeIns(q, k, i, j + 1);
    if j < k {
      FarHop(s, s', t, a, i, b, j);
    } else if j > k + 1 {
      FarHop(s, s', t, a, i, b, j - 1);
    } else {
      assert Hop(s', a, Elem(i)) && Hop(s', Elem(i), b);
    }
  }

  lemma {:induction false} LinkChain(s: State, s': State, t: Tid, a: Node, i: Id, b: Node)
    requires ChainOk(s) && i !in s.list && Adj(s.list, a, b) && a != Tail && a != Elem(i) && b != Elem(i)
    requires s'.next == s.next[a := Elem(i)][Elem(i) := b] && s'.prev == s.prev[b := Elem(i)][Elem(i) := a]
    requires s'.list == Inserted(s.list, Pos(s.list, a), i) && s'.mid == s.mid - {a}
    requires s'.pc == s.pc[t := Idle] && forall x :: x in s'.mid ==> s'.mid[x] != t
    requires Elem(i) !in s.mid
    ensures ChainOk(s')
  {
    NodeIs(s.list, a);
    InsertedIs(s.list, Pos(s.list, a), i);
    forall j | 0 <= j <= |s'.list|
      ensures LinkOk(s', j)
    {
      LinkedAt(s, s', t, a, i, b, j);
    }
  }

  /** The new element is no one else's, so nothing hangs behind it. */
  lemma {:induction false} NewNotMid(s: State, t: Tid, i: Id)
    requires Inv(s) && Brings(At(s, t)) == Some(i)
    ensures Elem(i) !in s.mid && i !in s.list
  {
    InvAt(s, t, t);
    if Elem(i) in s.mid {
      InvAt(s, t, s.mid[Elem(i)]);
    }
  }

  lemma {:induction false} LinkInv(s: State, s': State, t: Tid, a: Node, i: Id, b: Node)
    requires Inv(s) && a in Owns(At(s, t)) && b in Owns(At(s, t)) && Adj(s.list, a, b) && a != Tail
    requires Brings(At(s, t)) == Some(i) && (a in s.mid ==> s.mid[a] == t)
    requires forall x :: x in s.mid && s.mid[x] == t ==> x == a
    requires s' == To(Linked(s, a, i, b), t, Idle)
      .(list := Inserted(s.list, Pos(s.list, a), i), mid := s.mid - {a})
    ensures Inv(s')
  {
    NewNotMid(s, t, i);
    LinkChain(s, s', t, a, i, b);
    forall u
      ensures ThreadOk(s', u)
    {
      if u != t {
        InvAt(s, t, u);
        LinkThread(s, s', t, a, i, b, u);
      }
    }
    forall v | v != t
      ensures PairOk(At(s', t), At(s, v)) && PairOk(At(s, v), At(s', t))
    {
      IdlePair(At(s, v));
    }
    PairsMoved(s, s', t);
  }

  lemma {:induction false} IdlePair(p: Pc)
    ensures PairOk(Idle, p) && PairOk(p, Idle)
  {
  }

  lemma {:induction false} LinkThread(s: State, s': State, t: Tid, a: Node, i: Id, b: Node, u: Tid)
    requires ThreadOk(s, u) && u != t && PairOk(At(s, t), At(s, u)) && Distinct(s.list)
    requires a in Owns(At(s, t)) && b in Owns(At(s, t)) && Adj(s.list, a, b) && a != Tail
    requires Brings(At(s, t)) == Some(i) && i !in s.list
    requires At(s', u) == At(s, u) && s'.list == Inserted(s.list, Pos(s.list, a), i)
    requires s'.mid == s.mid - {a} && (a in s.mid ==> s.mid[a] == t)
    ensures ThreadOk(s', u)
  {
    LinkPlace(s, s', t, a, i, b, u);
    NodeIs(s.list, a);
    InsertedIs(s.list, Pos(s.list, a), i);
    var p := At(s, u);
    if Stands(p).Some? {
      PosInserted(s.list, Pos(s.list, a), i, Stands(p).value);
    }
    if Brings(p).Some? {
      assert Touches(p, Elem(Brings(p).value));
    }
  }

  lemma {:induction false} UpToIs(q: seq<Id>, n: Node)
    requires Pos(q, n) >= 0 && n != Tail
    ensures UpTo(q, n) == Pos(q, n)
  {
  }

  lemma {:induction false} AfterLinkInv(s: State, s': State, t: Tid, x: Node, i: Id, n: Node)
    requires Inv(s) && At(s, t) == AfterBoth(x, i, n)
    requires s' == To(Linked(s, x, i, n), t, Idle)
      .(list := Inserted(s.list, UpTo(s.list, x), i), mid := s.mid - {x})
    ensures Inv(s')
  {
    InvAt(s, t, t);
    UpToIs(s.list, x);
    if x in s.mid {
      InvAt(s, t, s.mid[x]);
    }
    LinkInv(s, s', t, x, i, n);
  }

  lemma {:induction false} PreLinkInv(s: State, s': State, t: Tid, x: Node, i: Id, p: Node)
    requires Inv(s) && At(s, t) == PreBoth(x, Insert(i), p)
    requires s' == To(Linked(s, p, i, x), t, Idle).(list := Inserted(s.list, UpTo(s.list, p), i))
    ensures Inv(s')
  {
    InvAt(s, t, t);
    assert p != Tail;
    UpToIs(s.list, p);
    Neighbours(s, t, p);
    NoMid(s, t);
    assert s.mid - {p} == s.mid;
    LinkInv(s, s', t, p, i, x);
  }

  // ---------- an element is taken out ----------

  lemma {:induction false} AdjRem(q: seq<Id>, y: Id, a: Node, b: Node)
    requires Distinct(q) && y in q && Adj(q, a, b) && a != Elem(y) && b != Elem(y)
    ensures Adj(Without(q, y), a, b)
  {
    PosRemoved(q, y, a);
    PosRemoved(q, y, b);
    SameNode(q, Elem(y), a);
    SameNode(q, Elem(y), b);
  }

  lemma {:induction false} PrecRem(q: seq<Id>, y: Id, p: Node, x: Node)
    requires Distinct(q) && y in q && Precedes(q, p, x) && x != Elem(y) && Pos(q, x) >= 0
    ensures Precedes(Without(q, y), p, x)
  {
    PosRemoved(q, y, x);
    SameNode(q, Elem(y), x);
    if p != Elem(y) {
      PosRemoved(q, y, p);
    }
  }

  predicate Unlinks(s: State, s': State, t: Tid, y: Id, p: Node, n: Node) {
    && At(s, t) == PreAll(Elem(y), p, n)
    && s' == To(s, t, Clear(Elem(y))).(next := s.next[p := n], prev := s.prev[n := p], list := Without(s.list, y))
  }

  /** Whoever relies on neighbours has an end locked: neither of them is the element taken out. */
  lemma {:induction false} NotRemoved(s: State, t: Tid, y: Id, p: Node, n: Node, u: Tid, a: Node, b: Node)
    requires u != t && At(s, t) == PreAll(Elem(y), p, n) && PairOk(At(s, t), At(s, u))
    requires Adj(s.list, p, Elem(y)) && Adj(s.list, a, b)
    requires a in Owns(At(s, u)) || a in Reads(At(s, u))
    ensures a != Elem(y) && b != Elem(y)
  {
    SameNode(s.list, a, p);
  }

  lemma {:induction false} AdjStays(s: State, t: Tid, y: Id, p: Node, n: Node, u: Tid, a: Node, b: Node)
    requires u != t && At(s, t) == PreAll(Elem(y), p, n) && PairOk(At(s, t), At(s, u))
    requires Distinct(s.list) && y in s.list && Adj(s.list, p, Elem(y)) && Adj(s.list, a, b)
    requires a in Owns(At(s, u)) || a in Reads(At(s, u))
    ensures Adj(Without(s.list, y), a, b)
  {
    NotRemoved(s, t, y, p, n, u, a, b);
    AdjRem(s.list, y, a, b);
  }

  lemma {:induction false} UnlinkEdits(s: State, s': State, t: Tid, y: Id, p: Node, n: Node, u: Tid)
    requires ThreadOk(s, u) && u != t && PairOk(At(s, t), At(s, u)) && PairOk(At(s, u), At(s, t))
    requires At(s, t) == PreAll(Elem(y), p, n) && Distinct(s.list) && y in s.list && Adj(s.list, p, Elem(y))
    requires At(s', u) == At(s, u) && s'.list == Without(s.list, y) && s'.mid == s.mid
    requires var c := At(s, u); c.AfterNext? || c.AfterBoth? || c.PreBoth? || c.PreNext? || c.PreAll?
    ensures PlaceOk(s', u)
  {
    match At(s, u)
    case AfterNext(a, _, b) => AdjStays(s, t, y, p, n, u, a, b);
    case AfterBoth(a, _, b) => AdjStays(s, t, y, p, n, u, a, b);
    case PreBoth(b, _, a) => AdjStays(s, t, y, p, n, u, a, b);
    case PreNext(b, a, c) =>
      AdjStays(s, t, y, p, n, u, a, b);
      AdjStays(s, t, y, p, n, u, b, c);
    case PreAll(b, a, c) =>
      AdjStays(s, t, y, p, n, u, a, b);
      AdjStays(s, t, y, p, n, u, b, c);
  }

  lemma {:induction false} UnlinkPlace(s: State, s': State, t: Tid, y: Id, p: Node, n: Node, u: Tid)
    requires ThreadOk(s, u) && ThreadOk(s, t) && u != t && PairOk(At(s, t), At(s, u)) && PairOk(At(s, u), At(s, t))
    requires Distinct(s.list) && Unlinks(s, s', t, y, p, n)
    ensures PlaceOk(s', u)
  {
    var q, c := s.list, At(s, u);
    if c.AfterNext? || c.AfterBoth? || c.PreBoth? || c.PreNext? || c.PreAll? {
      UnlinkEdits(s, s', t, y, p, n, u);
    } else {
      UnlinkWalks(s, s', t, y, p, n, u);
    }
  }

  lemma {:induction false} UnlinkWalks(s: State, s': State, t: Tid, y: Id, p: Node, n: Node, u: Tid)
    requires ThreadOk(s, u) && u != t && PairOk(At(s, t), At(s, u)) && PairOk(At(s, u), At(s, t))
    requires At(s, t) == PreAll(Elem(y), p, n) && Distinct(s.list) && y in s.list && Adj(s.list, p, Elem(y))
    requires At(s', u) == At(s, u) && s'.list == Without(s.list, y) && s'.mid == s.mid
    requires var c := At(s, u); !(c.AfterNext? || c.AfterBoth? || c.PreBoth? || c.PreNext? || c.PreAll?)
    ensures PlaceOk(s', u)
  {
    var q := s.list;
    WithoutIs(q, y);
    match At(s, u)
    case PreWait(x, _, r) => PrecRem(q, y, r, x);
    case PreRelock(x, _, r) => PrecRem(q, y, r, x);
    case FwdHold(x) => PosRemoved(q, y, x);
    case FwdNext(a, b) => AdjStays(s, t, y, p, n, u, a, b);
    case BwdWait(x, r) => PrecRem(q, y, r, x);
    case BwdRelock(x, r) => PrecRem(q, y, r, x);
    case BwdBoth(b, a) => AdjStays(s, t, y, p, n, u, a, b);
    case _ =>
  }

  lemma {:induction false} UnlinkThread(s: State, s': State, t: Tid, y: Id, p: Node, n: Node, u: Tid)
    requires ThreadOk(s, u) && ThreadOk(s, t) && u != t && PairOk(At(s, t), At(s, u)) && PairOk(At(s, u), At(s, t))
    requires Distinct(s.list) && Unlinks(s, s', t, y, p, n)
    ensures ThreadOk(s', u)
  {
    UnlinkPlace(s, s', t, y, p, n, u);
    WithoutIs(s.list, y);
    if Stands(At(s, u)).Some? {
      PosRemoved(s.list, y, Stands(At(s, u)).value);
    }
  }

  lemma {:induction false} NodeRem(q: seq<Id>, y: Id, j: nat)
    requires Distinct(q) && y in q && j <= |q|
    ensures NodeAt(Without(q, y), j) == if j < Pos(q, Elem(y)) then NodeAt(q, j) else NodeAt(q, j + 1)
  {
    WithoutAt(q, y);
  }

  /** A link of the list that the removal does not touch. */
  lemma {:induction false} FarUnlink(s: State, s': State, t: Tid, y: Id, p: Node, n: Node, m: nat)
    requires ChainOk(s) && Unlinks(s, s', t, y, p, n) && Adj(s.list, p, Elem(y)) && Adj(s.list, Elem(y), n)
    requires forall x :: x in s.mid ==> s.mid[x] != t
    requires m <= |s.list| && m != Pos(s.list, p) && m != Pos(s.list, p) + 1
    ensures Hop(s', NodeAt(s.list, m), NodeAt(s.list, m + 1))
  {
    assert LinkOk(s, m);
    PlaceApart(s.list, p, Elem(y), m);
    PlaceApart(s.list, Elem(y), n, m);
    HopKept(s, s', t, NodeAt(s.list, m), NodeAt(s.list, m + 1));
  }

  /** The link over the place of the removed element. */
  lemma {:induction false} NearUnlink(s: State, s': State, t: Tid, y: Id, p: Node, n: Node)
    requires Distinct(s.list) && Unlinks(s, s', t, y, p, n) && Adj(s.list, p, Elem(y)) && Adj(s.list, Elem(y), n)
    requires y in s.list && p !in s.mid && p != Tail
    ensures 0 <= Pos(s.list, p) <= |s'.list| && LinkOk(s', Pos(s.list, p))
  {
    var q, k := s.list, Pos(s.list, p);
    WithoutAt(q, y);
    NodeIs(q, p);
    NodeIs(q, n);
    NodeRem(q, y, k);
    NodeRem(q, y, k + 1);
  }

  lemma {:induction false} UnlinkedAt(s: State, s': State, t: Tid, y: Id, p: Node, n: Node, j: nat)
    requires ChainOk(s) && Unlinks(s, s', t, y, p, n) && Adj(s.list, p, Elem(y)) && Adj(s.list, Elem(y), n)
    requires y in s.list && p !in s.mid && forall x :: x in s.mid ==> s.mid[x] != t
    requires j <= |s'.list|
    ensures LinkOk(s', j)
  {
    if j == Pos(s.list, p) {
      NearUnlink(s, s', t, y, p, n);
    } else {
      var m := MovedTo(s.list, y, p, j);
      FarUnlink(s, s', t, y, p, n, m);
    }
  }

  /** A place of the shorter list, away from the gap, is a place of the longer one. */
  lemma {:induction false} MovedTo(q: seq<Id>, y: Id, p: Node, j: nat) returns (m: nat)
    requires Distinct(q) && y in q && Adj(q, p, Elem(y)) && j <= |Without(q, y)| && j != Pos(q, p)
    ensures m <= |q| && m != Pos(q, p) && m != Pos(q, p) + 1
    ensures NodeAt(q, m) == NodeAt(Without(q, y), j) && NodeAt(q, m + 1) == NodeAt(Without(q, y), j + 1)
  {
    WithoutAt(q, y);
    NodeRem(q, y, j);
    NodeRem(q, y, j + 1);
    m := if j < Pos(q, p) then j else j + 1;
  }

  lemma {:induction false} UnlinkChain(s: State, s': State, t: Tid, y: Id, p: Node, n: Node)
    requires ChainOk(s) && Unlinks(s, s', t, y, p, n) && Adj(s.list, p, Elem(y)) && Adj(s.list, Elem(y), n)
    requires y in s.list && p !in s.mid && forall x :: x in s.mid ==> s.mid[x] != t
    ensures ChainOk(s')
  {
    WithoutIs(s.list, y);
    forall j | 0 <= j <= |s'.list|
      ensures LinkOk(s', j)
    {
      UnlinkedAt(s, s', t, y, p, n, j);
    }
  }

  lemma {:induction false} UnlinkSelf(s: State, s': State, t: Tid, y: Id, p: Node, n: Node)
    requires Inv(s) && Unlinks(s, s', t, y, p, n)
    ensures ChainOk(s') && ThreadOk(s', t)
  {
    InvAt(s, t, t);
    Neighbours(s, t, p);
    NoMid(s, t);
    UnlinkChain(s, s', t, y, p, n);
    WithoutIs(s.list, y);
  }

  lemma {:induction false} UnlinkThreads(s: State, s': State, t: Tid, y: Id, p: Node, n: Node)
    requires Inv(s) && Unlinks(s, s', t, y, p, n)
    ensures forall u :: u != t ==> ThreadOk(s', u)
  {
    forall u | u != t
      ensures ThreadOk(s', u)
    {
      InvAt(s, t, u);
      UnlinkThread(s, s', t, y, p, n, u);
    }
  }

  lemma {:induction false} UnlinkPairs(s: State, s': State, t: Tid, y: Id, p: Node, n: Node)
    requires Inv(s) && Unlinks(s, s', t, y, p, n)
    ensures forall u, v :: u != v ==> PairOk(At(s', u), At(s', v))
  {
    forall v | v != t
      ensures PairOk(At(s', t), At(s, v)) && PairOk(At(s, v), At(s', t))
    {
      InvAt(s, t, v);
      UnlinkPair(s, s', t, y, p, n, v);
    }
    PairsMoved(s, s', t);
  }

  lemma {:induction false} UnlinkInv(s: State, s': State, t: Tid, y: Id, p: Node, n: Node)
    requires Inv(s) && Unlinks(s, s', t, y, p, n)
    ensures Inv(s')
  {
    UnlinkSelf(s, s', t, y, p, n);
    UnlinkThreads(s, s', t, y, p, n);
    UnlinkPairs(s, s', t, y, p, n);
  }

  lemma {:induction false} UnlinkPair(s: State, s': State, t: Tid, y: Id, p: Node, n: Node, v: Tid)
    requires Unlinks(s, s', t, y, p, n) && v != t
    requires PairOk(At(s, t), At(s, v)) && PairOk(At(s, v), At(s, t))
    ensures PairOk(At(s', t), At(s, v)) && PairOk(At(s, v), At(s', t))
  {
  }

  // ---------- runs ----------

  lemma {:induction false} StepsInv(s: State, s': State, t: Tid)
    requires Inv(s) && Can(s, Step(t)) && s' == StepOf(s, t)
    ensures Inv(s')
  {
    match At(s, t)
    case AfterHold(x, i) =>
      if x == Head {
        FrontNextInv(s, s', t, i);
      } else {
        HangInv(s, s', t, x, i);
      }
    case AfterBoth(x, i, n) => AfterLinkInv(s, s', t, x, i, n);
    case PreHold(_, _) => PreHoldInv(s, s', t);
    case PreBoth(x, k, p) =>
      match k {
        case Insert(i) => PreLinkInv(s, s', t, x, i, p);
        case Delete => PreNextInv(s, s', t, x, p);
      }
    case PreAll(x, p, n) =>
      assert x.Elem? by { InvAt(s, t, t); }
      UnlinkInv(s, s', t, x.id, p, n);
    case Clear(x) => LetGoInv(s, s', t, Clean(x));
    case FwdHold(_) => FwdHoldInv(s, s', t);
  }

  lemma {:induction false} GrantsInv(s: State, s': State, t: Tid)
    requires Inv(s) && Can(s, Grant(t)) && s' == GrantOf(s, t)
    ensures Inv(s')
  {
    var p := At(s, t);
    if p.AfterWant? || p.AfterNext? {
      GrantAfterInv(s, s', t);
    } else if p.PreWant? || p.PreWait? || p.PreRelock? || p.PreNext? {
      GrantPreInv(s, s', t);
    } else {
      GrantWalkInv(s, s', t);
    }
  }

  lemma {:induction false} StepInv(s: State, a: Action, s': State)
    requires Inv(s) && Can(s, a) && s' == Do(s, a)
    ensures Inv(s')
  {
    match a
    case Grant(t) => GrantsInv(s, s', t);
    case Step(t) => StepsInv(s, s', t);
    case Stop(t) => LetGoInv(s, s', t, At(s', t));
    case Force(t, defer) => ForcesInv(s, s', t, defer);
    case Finish(t) => LetGoInv(s, s', t, Idle);
    case _ => StartsInv(s, a, s');
  }

  lemma {:induction false} InitInv(s: State)
    requires Init(s)
    ensures Inv(s)
  {
    assert LinkOk(s, 0);
  }

  lemma {:induction false} RunInv(ss: seq<State>, acts: seq<Action>, k: nat)
    requires Run(ss, acts) && k < |ss|
    ensures Inv(ss[k])
  {
    if k == 0 {
      InitInv(ss[0]);
    } else {
      RunInv(ss, acts, k - 1);
      StepInv(ss[k - 1], acts[k - 1], ss[k]);
    }
  }
}
