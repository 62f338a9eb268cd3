/** The self-locking list's promises over whole runs: its links, its order, and no deadlock. */
module AtomicListClaims {
  import opened Base
  import opened AtomicList
  import opened AtomicListInv
  import opened AtomicListRuns

  /** The node is in the list or an end of it. */
  predicate OnList(s: State, n: Node) {
    Pos(s.list, n) >= 0
  }

  /** Seen from a node that no one has locked exclusively, links forward and back agree, and are the order. */
  lemma {:induction false} LinksAgree(ss: seq<State>, acts: seq<Action>, k: nat, a: Node, b: Node)
    requires Run(ss, acts) && k < |ss| && OnList(ss[k], a) && OnList(ss[k], b) && a != Tail && b != Head
    requires forall t :: a !in Owns(At(ss[k], t))
    ensures Next(ss[k], a) == b <==> Prev(ss[k], b) == a
    ensures Next(ss[k], a) == b <==> Adj(ss[k].list, a, b)
  {
    RunInv(ss, acts, k);
    var s := ss[k];
    var i := Pos(s.list, a);
    NodeIs(s.list, a);
    assert LinkOk(s, i);
    PosIs(s.list, i + 1);
    NodeIs(s.list, b);
    PredIs(s, b);
    SameNode(s.list, a, Prev(s, b));
  }

  // ---------- what each step does to the list ----------

  /** The element `i` stands right behind `a` and right in front of `b`, and the rest is as it was. */
  ghost predicate PutBetween(q: seq<Id>, q': seq<Id>, a: Node, i: Id, b: Node) {
    && Adj(q, a, b) && i !in q && Distinct(q') && Adj(q', a, Elem(i)) && Adj(q', Elem(i), b)
    && exists k :: 0 <= k <= |q| && q' == q[..k] + [i] + q[k..]
  }

  ghost predicate TakenOut(q: seq<Id>, q': seq<Id>, i: Id) {
    i !in q' && exists k :: 0 <= k < |q| && q[k] == i && q' == q[..k] + q[k + 1..]
  }

  lemma {:induction false} InsertedBetween(q: seq<Id>, a: Node, i: Id, b: Node)
    requires Distinct(q) && Adj(q, a, b) && a != Tail && i !in q
    ensures PutBetween(q, Inserted(q, UpTo(q, a), i), a, i, b)
  {
    UpToIs(q, a);
    var k := Pos(q, a);
    PosInserted(q, k, i, a);
    PosInserted(q, k, i, b);
    NodeIs(q, b);
  }

  /**
   * In every interleaving, an operation changes the list in one step, by its one element and at the
   * place asked for: right behind the node it stands on, right in front of it, or by taking it out.
   */
  lemma {:induction false} StepChangesList(ss: seq<State>, acts: seq<Action>, k: nat)
    requires Run(ss, acts) && k < |acts|
    ensures var s, s', p := ss[k], ss[k + 1], At(ss[k], acts[k].t);
      if acts[k].Step? && p.AfterBoth? then PutBetween(s.list, s'.list, p.x, p.i, p.n)
      else if acts[k].Step? && p.PreBoth? && p.k.Insert? then PutBetween(s.list, s'.list, p.p, p.k.i, p.x)
      else if acts[k].Step? && p.PreAll? then p.x.Elem? && TakenOut(s.list, s'.list, p.x.id)
      else s'.list == s.list
  {
    RunInv(ss, acts, k);
    var s, s', t := ss[k], ss[k + 1], acts[k].t;
    var p := At(s, t);
    InvAt(s, t, t);
    if acts[k].Step? {
      if p.AfterBoth? {
        InsertedBetween(s.list, p.x, p.i, p.n);
      } else if p.PreBoth? && p.k.Insert? {
        InsertedBetween(s.list, p.p, p.k.i, p.x);
      } else if p.PreAll? {
        WithoutIs(s.list, p.x.id);
      }
    }
  }

  // ---------- lock order ----------

  /** Whoever waits for a lock while holding others waits for one later in list order. */
  lemma {:induction false} WaitsForward(ss: seq<State>, acts: seq<Action>, k: nat, t: Tid, h: Node)
    requires Run(ss, acts) && k < |ss| && Wants(At(ss[k], t)).Some?
    requires h in Owns(At(ss[k], t)) || h in Reads(At(ss[k], t))
    ensures Pos(ss[k].list, h) < Pos(ss[k].list, Wants(At(ss[k], t)).value)
  {
    RunInv(ss, acts, k);
    InvAt(ss[k], t, t);
  }

  /**
   * `t` waits for `u`: `u` holds the lock that `t` wants, or wants the same lock and is ahead of `t` in
   * its queue. `turn` is any order of arrival.
   */
  predicate WaitsFor(s: State, turn: Tid -> nat, t: Tid, u: Tid) {
    && Wants(At(s, t)).Some?
    && var n := Wants(At(s, t)).value;
    || n in Owns(At(s, u)) || n in Reads(At(s, u))
    || (Wants(At(s, u)) == Some(n) && turn(u) < turn(t))
  }

  function Place(s: State, t: Tid): int {
    if Wants(At(s, t)).Some? then Pos(s.list, Wants(At(s, t)).value) else -2
  }

  /** `t` wants a lock further along the list than `u` does, or as far and is ahead of it. */
  predicate Beyond(s: State, turn: Tid -> nat, t: Tid, u: Tid) {
    Place(s, u) < Place(s, t) || (Place(s, u) == Place(s, t) && turn(t) <= turn(u))
  }

  /** Some thread waits for the lock that is furthest along the list, and came first there. */
  lemma {:induction false} Furthest(s: State, turn: Tid -> nat, ts: set<Tid>) returns (t: Tid)
    requires ts != {}
    ensures t in ts && forall u :: u in ts ==> Beyond(s, turn, t, u)
    decreases |ts|
  {
    var x :| x in ts;
    if ts == {x} {
      t := x;
    } else {
      var y := Furthest(s, turn, ts - {x});
      t := if Beyond(s, turn, x, y) then x else y;
      forall u | u in ts
        ensures Beyond(s, turn, t, u)
      {
        assert u != x ==> Beyond(s, turn, y, u);
      }
    }
  }

  /**
   * No set of threads waits in a circle, whatever is inserted and removed and in whatever order the
   * waiters of each lock are served: some thread of the set waits for no one in it.
   */
  lemma {:induction false} NoDeadlock(ss: seq<State>, acts: seq<Action>, k: nat, turn: Tid -> nat, ts: set<Tid>)
    requires Run(ss, acts) && k < |ss| && ts != {}
    ensures exists t :: t in ts && forall u :: u in ts ==> !WaitsFor(ss[k], turn, t, u)
  {
    var s := ss[k];
    var t := Furthest(s, turn, ts);
    forall u | u in ts
      ensures !WaitsFor(s, turn, t, u) || Wants(At(s, u)) == None
    {
      if WaitsFor(s, turn, t, u) && Wants(At(s, u)).Some? {
        assert Beyond(s, turn, t, u);
        if Wants(At(s, t)) != Wants(At(s, u)) || turn(u) >= turn(t) {
          WaitsForward(ss, acts, k, u, Wants(At(s, t)).value);
        }
      }
    }
    if exists u :: u in ts && WaitsFor(s, turn, t, u) {
      var u :| u in ts && WaitsFor(s, turn, t, u);
      assert forall v :: !WaitsFor(s, turn, u, v);
    }
  }
}
