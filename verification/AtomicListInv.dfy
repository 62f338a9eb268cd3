/** What every interleaving on the self-locking list keeps. */
module AtomicListInv {
  import opened Base
  import opened AtomicList

  // ---------- places in the list ----------

  function NodeAt(q: seq<Id>, k: nat): Node {
    if k == 0 then Head else if k <= |q| then Elem(q[k - 1]) else Tail
  }

  /** Place in the list: head first, tail last, elements that are not in the list lowest of all. */
  function Pos(q: seq<Id>, n: Node): int {
    match n
    case Head => 0
    case Tail => |q| + 1
    case Elem(i) => if i in q then Index(q, i) + 1 else -1
  }

  predicate Adj(q: seq<Id>, a: Node, b: Node) {
    0 <= Pos(q, a) && Pos(q, b) == Pos(q, a) + 1
  }

  predicate Precedes(q: seq<Id>, p: Node, x: Node) {
    Pos(q, p) < Pos(q, x) && p != Tail
  }

  lemma {:induction false} PosIs(q: seq<Id>, k: nat)
    requires Distinct(q) && k <= |q| + 1
    ensures Pos(q, NodeAt(q, k)) == k
  {
    if 0 < k <= |q| {
      assert q[k - 1] in q;
    }
  }

  lemma {:induction false} NodeIs(q: seq<Id>, n: Node)
    requires Pos(q, n) >= 0
    ensures NodeAt(q, Pos(q, n)) == n && Pos(q, n) <= |q| + 1
  {
  }

  lemma {:induction false} IndexIs(q: seq<Id>, i: Id, k: nat)
    requires Distinct(q) && k < |q| && q[k] == i
    ensures Index(q, i) == k
  {
    assert q[k] in q;
  }

  /** Places after an element has been put in at `k`. */
  lemma {:induction false} IndexInserted(q: seq<Id>, k: nat, i: Id, x: Id)
    requires Distinct(q) && k <= |q| && i !in q && x in q
    ensures Index(Inserted(q, k, i), x) == if Index(q, x) < k then Index(q, x) else Index(q, x) + 1
  {
    var j := Index(q, x);
    InsertedIs(q, k, i);
    IndexIs(Inserted(q, k, i), x, if j < k then j else j + 1);
  }

  lemma {:induction false} PosInserted(q: seq<Id>, k: nat, i: Id, n: Node)
    requires Distinct(q) && k <= |q| && i !in q && n != Elem(i)
    ensures var q' := Inserted(q, k, i);
      && Distinct(q')
      && Pos(q', n) == (if Pos(q, n) <= k then Pos(q, n) else Pos(q, n) + 1)
      && Pos(q', Elem(i)) == k + 1
      && (Pos(q, n) >= 0 <==> Pos(q', n) >= 0)
  {
    InsertedIs(q, k, i);
    IndexIs(Inserted(q, k, i), i, k);
    if n.Elem? && n.id in q {
      IndexInserted(q, k, i, n.id);
    }
  }

  lemma {:induction false} InsertedIs(q: seq<Id>, k: nat, i: Id)
    requires Distinct(q) && k <= |q| && i !in q
    ensures var q' := Inserted(q, k, i);
      && |q'| == |q| + 1 && Distinct(q')
      && (forall j :: 0 <= j < |q'| ==> q'[j] == if j < k then q[j] else if j == k then i else q[j - 1])
      && (forall x :: x in q' <==> x in q || x == i)
  {
    var q' := Inserted(q, k, i);
    assert forall j :: 0 <= j < |q'| ==> q'[j] == if j < k then q[j] else if j == k then i else q[j - 1];
    forall x | x in q
      ensures x in q'
    {
      var j :| 0 <= j < |q| && q[j] == x;
      assert q'[if j < k then j else j + 1] == x;
    }
    assert q'[k] == i;
  }

  lemma {:induction false} WithoutAt(q: seq<Id>, i: Id)
    requires i in q
    ensures var q', m := Without(q, i), Index(q, i);
      |q'| == |q| - 1 && forall j :: 0 <= j < |q'| ==> q'[j] == q[if j < m then j else j + 1]
  {
  }

  lemma {:induction false} WithoutIs(q: seq<Id>, i: Id)
    requires Distinct(q) && i in q
    ensures var q' := Without(q, i);
      Distinct(q') && forall x :: x in q' <==> x in q && x != i
  {
    var q', m := Without(q, i), Index(q, i);
    WithoutAt(q, i);
    forall x
      ensures x in q' <==> x in q && x != i
    {
      if x in q && x != i {
        var j :| 0 <= j < |q| && q[j] == x;
        assert q'[if j < m then j else j - 1] == x;
      }
    }
  }

  /** Places after an element has been taken out. */
  lemma {:induction false} PosRemoved(q: seq<Id>, i: Id, n: Node)
    requires Distinct(q) && i in q && n != Elem(i)
    ensures var q' := Without(q, i);
      && Distinct(q') && Pos(q', Elem(i)) == -1
      && Pos(q', n) == (if Pos(q, n) < Pos(q, Elem(i)) then Pos(q, n) else Pos(q, n) - 1)
      && (Pos(q, n) >= 0 <==> Pos(q', n) >= 0)
  {
    var q', m := Without(q, i), Index(q, i);
    WithoutAt(q, i);
    WithoutIs(q, i);
    if n.Elem? && n.id in q {
      var j := Index(q, n.id);
      IndexIs(q', n.id, if j < m then j else j - 1);
    }
  }

  // ---------- the invariant ----------

  /** A new element hangs behind `a` and is yet to be linked to its successor `b`. */
  predicate MidOk(s: State, a: Node, b: Node)
    requires a in s.mid
  {
    var p := At(s, s.mid[a]);
    && a != Head && (p.AfterNext? || p.AfterBoth?) && p.x == a && p.n == b && Next(s, a) == Elem(p.i)
  }

  predicate Hop(s: State, a: Node, b: Node) {
    Prev(s, b) == a && if a in s.mid then MidOk(s, a, b) else Next(s, a) == b
  }

  predicate LinkOk(s: State, k: nat)
    requires k <= |s.list|
  {
    Hop(s, NodeAt(s.list, k), NodeAt(s.list, k + 1))
  }

  predicate MidPc(p: Pc, a: Node) {
    (p.AfterNext? || p.AfterBoth?) && p.x == a
  }

  predicate ChainOk(s: State) {
    && Distinct(s.list)
    && (forall k :: 0 <= k <= |s.list| ==> LinkOk(s, k))
    && (forall a :: a in s.mid ==> MidPc(At(s, s.mid[a]), a))
  }

  predicate PlaceOk(s: State, t: Tid) {
    var q := s.list;
    match At(s, t)
    case Idle => true
    case AfterWant(x, _) => x != Tail
    case AfterHold(x, _) => x != Tail && x !in s.mid
    case AfterNext(x, i, n) => x != Tail && Adj(q, x, n) && (x != Head ==> x in s.mid && s.mid[x] == t)
    case AfterBoth(x, i, n) => x != Tail && Adj(q, x, n) && (x != Head ==> x in s.mid && s.mid[x] == t)
    case PreWant(x, k) => x != Head && (k.Delete? ==> x.Elem?)
    case PreHold(x, k) => x != Head && (k.Delete? ==> x.Elem?)
    case PreWait(x, k, p) => x != Head && (k.Delete? ==> x.Elem?) && Precedes(q, p, x)
    case PreRelock(x, k, p) => x != Head && (k.Delete? ==> x.Elem?) && Precedes(q, p, x)
    case PreBoth(x, k, p) => x != Head && (k.Delete? ==> x.Elem?) && Adj(q, p, x)
    case PreNext(x, p, n) => x.Elem? && Adj(q, p, x) && Adj(q, x, n)
    case PreAll(x, p, n) => x.Elem? && Adj(q, p, x) && Adj(q, x, n)
    case Clear(x) => x.Elem? && x.id !in q
    case Clean(x) => x.Elem? && x.id !in q
    case FwdWant(x) => x != Tail
    case FwdHold(x) => x != Tail && Pos(q, x) >= 0
    case FwdNext(x, n) => Adj(q, x, n) && n != Tail
    case BwdWant(x) => x != Head
    case BwdHold(x) => x != Head
    case BwdWait(x, p) => x != Head && p.Elem? && Precedes(q, p, x)
    case BwdRelock(x, p) => x != Head && p.Elem? && Precedes(q, p, x)
    case BwdBoth(x, p) => x != Head && p.Elem? && Adj(q, p, x)
    case BwdDefer(x) => x != Head
  }

  predicate ThreadOk(s: State, t: Tid) {
    var p := At(s, t);
    && PlaceOk(s, t)
    && (Stands(p).Some? ==> Pos(s.list, Stands(p).value) >= 0)
    && (Brings(p).Some? ==> Brings(p).value !in s.list)
  }

  /** Two threads: exclusive locks exclude, no one removes what another stands on, new is new. */
  predicate PairOk(p: Pc, q: Pc) {
    && Owns(p) !! Owns(q) && Owns(p) !! Reads(q)
    && (Stands(p).Some? ==> !Deletes(q, Stands(p).value))
    && (Brings(p).Some? ==> !Touches(q, Elem(Brings(p).value)))
  }

  ghost predicate Inv(s: State) {
    && ChainOk(s)
    && (forall t :: ThreadOk(s, t))
    && (forall t, u :: t != u ==> PairOk(At(s, t), At(s, u)))
  }

  // ---------- steps that move one thread ----------

  lemma {:induction false} ChainMoved(s: State, s': State, t: Tid, p': Pc)
    requires ChainOk(s) && s' == To(s, t, p')
    requires forall a :: a in s.mid && s.mid[a] == t ==>
      At(s, t).AfterNext? && p' == AfterBoth(At(s, t).x, At(s, t).i, At(s, t).n)
    ensures ChainOk(s')
  {
    forall k | 0 <= k <= |s'.list|
      ensures LinkOk(s', k)
    {
      assert LinkOk(s, k);
    }
  }

  lemma {:induction false} MoveInv(s: State, s': State, t: Tid, p': Pc)
    requires Inv(s) && s' == To(s, t, p') && ThreadOk(s', t)
    requires forall u :: u != t ==> PairOk(p', At(s, u)) && PairOk(At(s, u), p')
    requires forall a :: a in s.mid && s.mid[a] == t ==>
      At(s, t).AfterNext? && p' == AfterBoth(At(s, t).x, At(s, t).i, At(s, t).n)
    ensures Inv(s')
  {
    ChainMoved(s, s', t, p');
    forall u
      ensures ThreadOk(s', u)
    {
      assert ThreadOk(s, u);
    }
    forall u, v | u != v
      ensures PairOk(At(s', u), At(s', v))
    {
      assert PairOk(At(s, u), At(s, v));
    }
  }

  /** A thread without a half-linked element. */
  lemma {:induction false} NoMid(s: State, t: Tid)
    requires ChainOk(s) && !At(s, t).AfterNext? && !At(s, t).AfterBoth?
    ensures forall a :: a in s.mid ==> s.mid[a] != t
  {
  }

  /** The node behind which an element hangs is locked by the thread that hung it there. */
  lemma {:induction false} MidApart(s: State, t: Tid, x: Node)
    requires Inv(s) && x in s.mid && s.mid[x] != t
    ensures x !in Owns(At(s, t)) && x !in Reads(At(s, t))
  {
    assert PairOk(At(s, s.mid[x]), At(s, t));
  }

  /** The successor of a locked node is what its link says, and likewise the predecessor. */
  lemma {:induction false} Neighbours(s: State, t: Tid, x: Node)
    requires Inv(s) && (x in Owns(At(s, t)) || x in Reads(At(s, t)))
    requires !At(s, t).AfterNext? && !At(s, t).AfterBoth?
    requires Pos(s.list, x) >= 0
    ensures x != Tail ==> Adj(s.list, x, Next(s, x)) && Next(s, x) != Head
    ensures x != Head ==> Adj(s.list, Prev(s, x), x) && Prev(s, x) != Tail
    ensures x !in s.mid
  {
    var k := Pos(s.list, x);
    NodeIs(s.list, x);
    if x in s.mid {
      NoMid(s, t);
      MidApart(s, t, x);
    }
    if x != Tail {
      assert LinkOk(s, k);
      PosIs(s.list, k + 1);
    }
    if x != Head {
      assert LinkOk(s, k - 1);
      PosIs(s.list, k - 1);
    }
  }

  lemma {:induction false} PredIs(s: State, x: Node)
    requires ChainOk(s) && Pos(s.list, x) >= 0 && x != Head
    ensures Adj(s.list, Prev(s, x), x) && Prev(s, x) != Tail
  {
    var k := Pos(s.list, x);
    NodeIs(s.list, x);
    assert LinkOk(s, k - 1);
    PosIs(s.list, k - 1);
  }
}
