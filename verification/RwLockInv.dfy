/**
 * What every interleaving of the 4-byte reader-writer lock keeps: the word, the links of the
 * waiters and the program counters against the lock a caller is promised.
 */
module RwLockInv {
  import opened Base
  import opened RwSpec
  import opened RwLock

  function LockOf(s: State): RwSpec.Lock {
    RwSpec.Lock(s.unfair, s.readers, s.writer, s.transit.Some?, s.queue)
  }

  function KeeperPc(s: State): Pc {
    if s.keeper.Some? then At(s, s.keeper.value) else Idle
  }

  predicate SplitPc(p: Pc) {
    p.Split? || Reinserting(p)
  }

  predicate IsKeeper(p: Pc) {
    p.Cut? || SplitPc(p)
  }

  /** Readers already granted by the splitting thread but not yet in the word's count. */
  function Pend(p: Pc): int {
    if p.Split? then |OnlyShared(p.all)| - 1
    else if Reinserting(p) then p.count - 1
    else 0
  }

  function GrantedBy(s: State, k: Tid): set<Tid> {
    set x | x in s.waking && s.waking[x] == k
  }

  predicate CountOk(s: State) {
    && s.wlocked == (s.writer.Some? || s.transit.Some?)
    && s.count + Pend(KeeperPc(s)) == |s.readers|
    && (SplitPc(KeeperPc(s)) ==>
          && s.unfair
          && |GrantedBy(s, s.keeper.value)| == Pend(KeeperPc(s)) + 1
          && GrantedBy(s, s.keeper.value) != {}
          && GrantedBy(s, s.keeper.value) <= s.readers)
  }

  // ---------- the links ----------

  predicate UpTail(q: seq<Req>) {
    OldestIs(q, Upgrade)
  }

  /** The queue when `w` goes back behind the newcomers `p`, but ahead of nobody's upgrade. */
  function Weave(p: seq<Req>, w: seq<Req>): seq<Req> {
    if UpTail(p) then p[..|p| - 1] + w + [Last(p)] else p + w
  }

  /** The detached writers are linked in order; their end may already lead to the upgrade. */
  predicate BackLinked(s: State, back: seq<Req>) {
    && (forall i :: 0 <= i < |back| ==> back[i].mode == Exclusive)
    && (back != [] ==>
          || Spells(s, back[0].t, back, NIL)
          || (UpTail(s.phys) && Spells(s, back[0].t, back, Last(s.phys).t)))
  }

  predicate CutOk(s: State, taken: seq<Req>, whole: bool, oldQ: nat) {
    && taken != [] && |taken| <= |s.queue|
    && (!whole || |taken| == |s.queue| ==> |taken| == FairServed(s.queue))
    && taken == s.queue[|s.queue| - |taken|..]
    && (if whole then s.phys == s.queue && oldQ == taken[0].t
        else
          && s.phys == s.queue[..|s.queue| - |taken|] && s.phys != []
          && Spells(s, taken[0].t, taken, NIL))
  }

  /** The list a splitting thread took off the lock: readers it has granted, and writers. */
  predicate SplitOk(s: State, all: seq<Req>)
    requires s.keeper.Some?
  {
    && s.queue == Weave(s.phys, NotShared(all))
    && Spells(s, First(all, NIL), all, NIL)
    && (forall i :: 0 <= i < |all| ==> all[i].mode != Upgrade)
    && QueueOk(all)
    && Threads(OnlyShared(all)) == GrantedBy(s, s.keeper.value)
  }

  predicate Reinserting(p: Pc) {
    p.Reinsert? || p.ReinsertWalk? || p.ReinsertLink? || p.ReinsertSwap?
  }

  /** The oldest waiter that is no upgrade. */
  predicate OldestPlain(q: seq<Req>, t: Tid) {
    q != [] && if UpTail(q) then |q| >= 2 && q[|q| - 2].t == t else Last(q).t == t
  }

  predicate ReinsertOk(s: State, p: Pc) {
    match p
    case ReinsertWalk(_, back, _, _, oldQ, cur) =>
      back != [] && cur in Threads(s.phys) && (Tag(s, cur) == Upgrade ==> cur == oldQ)
    case ReinsertLink(_, back, _, _, _, cur) =>
      back != [] && OldestPlain(s.phys, cur)
    case ReinsertSwap(_, back, _, _, oldQ, newQ) =>
      && newQ == (if back == [] then oldQ else back[0].t)
      && (back != [] && oldQ != NIL ==>
            UpTail(s.phys) && Last(s.phys).t == oldQ && Spells(s, back[0].t, back, oldQ))
    case _ => true
  }

  predicate KeeperOk(s: State) {
    var p := KeeperPc(s);
    if p.Cut? then CutOk(s, p.taken, p.whole, p.oldQ)
    else if p.Split? then SplitOk(s, p.all)
    else if Reinserting(p) then
      s.queue == Weave(s.phys, p.back) && BackLinked(s, p.back) && ReinsertOk(s, p)
    else s.queue == s.phys
  }

  predicate QueueOk(q: seq<Req>) {
    && (forall i, j :: 0 <= i < j < |q| ==> q[i].t != q[j].t)
    && (forall i :: 0 <= i < |q| ==> q[i].t < NIL)
  }

  predicate ChainOk(s: State) {
    QueueOk(s.queue) && Spells(s, s.waitq, s.phys, NIL) && KeeperOk(s)
  }

  // ---------- the threads ----------

  predicate HoldsRead(p: Pc) {
    || p.Reading? || (p.Unlock? && !p.excl) || (p.Scan? && !p.excl) || (p.Cut? && !p.excl)
    || p.TryUpgrade? || p.UpStart? || p.UpWalk? || p.UpLink?
  }

  predicate HoldsWrite(p: Pc) {
    || p.Writing? || (p.Unlock? && p.excl) || (p.Scan? && p.excl) || (p.Cut? && p.excl)
    || p.UnfairLook? || p.UnfairDown? || p.DownWalk?
  }

  function ContOf(p: Pc): Cont {
    match p
    case Unlock(_, c) => c
    case Scan(_, c) => c
    case Cut(_, c, _, _, _, _) => c
    case TryUpgrade(c) => c
    case UnfairLook(c) => c
    case UnfairDown(c) => c
    case Split(c, _) => c
    case Reinsert(c, _, _) => c
    case ReinsertWalk(c, _, _, _, _, _) => c
    case ReinsertLink(c, _, _, _, _, _) => c
    case ReinsertSwap(c, _, _, _, _, _) => c
    case Wake(c) => c
    case Asleep(m) => SleepAs(m)
    case _ => Leave
  }

  /** How the thread is placed on the queue, or owed the lock. */
  predicate Placed(s: State, t: Tid, p: Pc) {
    var c := ContOf(p);
    if t in Threads(s.queue) then
      && c.SleepAs? && Req(t, c.mode) in s.queue
      && t !in s.waking && t !in s.signalled
      && (t in s.readers <==> HoldsRead(p))
      && (s.writer == Some(t) ==> HoldsWrite(p))
    else if HoldsRead(p) || HoldsWrite(p) || c.Leave? then
      && c.Leave?
      && t !in s.waking && t !in s.signalled
      && (t in s.readers <==> HoldsRead(p))
      && (s.writer == Some(t) ==> HoldsWrite(p))
      && Next(s, t) == NIL
    else
      && (t in s.waking <==> t !in s.signalled)
      && Tag(s, t) == c.mode
      && (c.mode == Shared <==> t in s.readers)
      && (c.mode != Shared <==> s.writer == Some(t))
      && ((t in s.waking && c.mode == Shared) || Next(s, t) == NIL)
  }

  /** Program counters that walk or are about to edit the queue. */
  predicate Anchored(p: Pc) {
    || p.Scan? || p.Cut? || p.TryUpgrade? || p.UnfairLook? || p.UnfairDown?
    || p.UpStart? || p.UpWalk? || p.UpLink? || p.DownWalk?
  }

  predicate AnchorOk(s: State, t: Tid, p: Pc) {
    match p
    case Scan(excl, _) =>
      && s.phys != []
      && (!excl ==> !s.unfair && s.readers == {t})
      && (excl && s.unfair ==> !OldestIs(s.queue, Shared))
    case Cut(excl, _, _, _, _, _) =>
      && (!excl ==> !s.unfair && s.readers == {t})
      && (excl && s.unfair ==> !OldestIs(s.queue, Shared))
    case TryUpgrade(_) => s.unfair && s.phys != []
    case UnfairLook(_) => s.unfair && s.phys != []
    case UnfairDown(_) => s.unfair && s.phys != [] && OldestIs(s.queue, Shared)
    case UpStart => s.phys != [] && Tag(s, t) == Upgrade
    case UpWalk(cur) => cur in Threads(s.phys) && Tag(s, t) == Upgrade
    case UpLink(cur) => cur in Threads(s.phys) && Tag(s, cur) != Upgrade && Tag(s, t) == Upgrade
    case DownWalk(cur) => cur in Threads(s.phys)
    case _ => true
  }

  predicate ThreadOk(s: State, t: Tid) {
    var p := At(s, t);
    && !p.Fault?
    && (t >= NIL ==> p.Idle?)
    && (IsKeeper(p) <==> s.keeper == Some(t))
    && (s.transit == Some(t) ==> (p.Scan? || p.Cut?) && p.excl && s.writer == None)
    && (HoldsWrite(p) ==> s.writer == Some(t) || s.transit == Some(t))
    && Placed(s, t, p)
    && AnchorOk(s, t, p)
  }

  ghost predicate ThreadsOk(s: State) {
    forall t :: ThreadOk(s, t)
  }

  predicate WakersOk(s: State) {
    forall x :: x in s.waking ==> WakerPc(At(s, s.waking[x]))
  }

  predicate WakerPc(p: Pc) {
    SplitPc(p) || p.Wake?
  }

  ghost predicate Inv(s: State) {
    Sound(LockOf(s)) && CountOk(s) && ChainOk(s) && ThreadsOk(s) && WakersOk(s)
  }

  lemma {:induction false} InitInv(s: State)
    requires Init(s)
    ensures Inv(s)
  {
  }

  // ---------- threads that an action does not concern ----------

  /** The queue is only longer at its new end, or extended by one at its old end. */
  predicate QueueKept(s: State, s': State) {
    && (s.phys != [] ==> s'.phys != [])
    && Threads(s.phys) <= Threads(s'.phys)
    && (OldestIs(s'.queue, Shared) <==> OldestIs(s.queue, Shared))
    && s'.unfair == s.unfair
  }

  predicate SameFor(s: State, s': State, u: Tid) {
    var p := At(s, u);
    && At(s', u) == p
    && (u in s'.readers <==> u in s.readers)
    && (s'.writer == Some(u) <==> s.writer == Some(u))
    && (s'.transit == Some(u) <==> s.transit == Some(u))
    && (s'.keeper == Some(u) <==> s.keeper == Some(u))
    && (u in s'.waking <==> u in s.waking)
    && (u in s'.signalled <==> u in s.signalled)
    && (u in Threads(s'.queue) <==> u in Threads(s.queue))
    && (u in Threads(s.queue) ==> forall m :: Req(u, m) in s.queue ==> Req(u, m) in s'.queue)
    && (u !in Threads(s.queue) && u !in s.waking ==> Next(s', u) == Next(s, u))
    && (u !in Threads(s.queue) ==> Tag(s', u) == Tag(s, u))
    && (u in s.waking && u !in Threads(s.queue) && Tag(s, u) != Shared ==> Next(s', u) == Next(s, u))
    && (s.transit == Some(u) && s.writer == None ==> s'.writer == None)
  }

  predicate AnchorKept(s: State, s': State, u: Tid) {
    var p := At(s, u);
    && QueueKept(s, s')
    && ((p.Scan? || p.Cut?) && !p.excl ==> s'.readers == s.readers)
    && (p.UpLink? ==> Tag(s', p.cur) == Tag(s, p.cur))
  }

  lemma {:induction false} SameOk(s: State, s': State, u: Tid)
    requires ThreadOk(s, u) && SameFor(s, s', u)
    requires Anchored(At(s, u)) ==> AnchorKept(s, s', u)
    ensures ThreadOk(s', u)
  {
  }

  lemma {:induction false} Others(s: State, s': State, ts: set<Tid>)
    requires ThreadsOk(s)
    requires forall t :: t in ts ==> ThreadOk(s', t)
    requires forall u :: u !in ts ==> SameFor(s, s', u)
    requires forall u :: u !in ts && Anchored(At(s, u)) ==> AnchorKept(s, s', u)
    ensures ThreadsOk(s')
  {
    forall u: Tid
      ensures ThreadOk(s', u)
    {
      if u !in ts {
        assert SameFor(s, s', u);
        assert ThreadOk(s, u);
        SameOk(s, s', u);
      }
    }
  }

  lemma {:induction false} OthersBut(s: State, s': State, t: Tid)
    requires ThreadsOk(s) && ThreadOk(s', t)
    requires forall u :: u != t ==> SameFor(s, s', u)
    requires forall u :: u != t && Anchored(At(s, u)) ==> AnchorKept(s, s', u)
    ensures ThreadsOk(s')
  {
    Others(s, s', {t});
  }

  // ---------- facts about sequences of requests ----------

  lemma {:induction false} ThreadsConcat(a: seq<Req>, b: seq<Req>)
    ensures Threads(a + b) == Threads(a) + Threads(b)
  {
    forall x | x in Threads(a) + Threads(b)
      ensures x in Threads(a + b)
    {
      if x in Threads(a) {
        var i :| 0 <= i < |a| && a[i].t == x;
        assert (a + b)[i].t == x;
      } else {
        var i :| 0 <= i < |b| && b[i].t == x;
        assert (a + b)[|a| + i].t == x;
      }
    }
  }

  lemma {:induction false} ThreadsOne(r: Req)
    ensures Threads([r]) == {r.t}
  {
    assert [r][0].t in Threads([r]);
  }

  lemma {:induction false} ThreadAt(q: seq<Req>, t: Tid) returns (i: nat)
    requires t in Threads(q)
    ensures i < |q| && q[i].t == t
  {
    i :| 0 <= i < |q| && q[i].t == t;
  }

  lemma {:induction false} NotIn(q: seq<Req>, t: Tid)
    requires t !in Threads(q)
    ensures forall i :: 0 <= i < |q| ==> q[i].t != t
  {
    forall i | 0 <= i < |q|
      ensures q[i].t != t
    {
      assert q[i].t in Threads(q);
    }
  }

  /** A request added at the new end. */
  lemma {:induction false} Pushed(q: seq<Req>, r: Req)
    requires r.t !in Threads(q)
    ensures Threads([r] + q) == Threads(q) + {r.t}
    ensures forall x :: x in q ==> x in [r] + q
    ensures r in [r] + q
    ensures forall m :: OldestIs([r] + q, m) <==> if q == [] then r.mode == m else OldestIs(q, m)
    ensures QueueOk(q) && r.t < NIL ==> QueueOk([r] + q)
  {
    ThreadsConcat([r], q);
    ThreadsOne(r);
    NotIn(q, r.t);
    assert ([r] + q)[0] == r;
    forall x | x in q
      ensures x in [r] + q
    {
      var i :| 0 <= i < |q| && q[i] == x;
      assert ([r] + q)[i + 1] == x;
    }
  }

  /** A request added at the old end. */
  lemma {:induction false} Joined(q: seq<Req>, r: Req)
    requires r.t !in Threads(q)
    ensures Threads(q + [r]) == Threads(q) + {r.t}
    ensures forall x :: x in q ==> x in q + [r]
    ensures r in q + [r]
    ensures QueueOk(q) && r.t < NIL ==> QueueOk(q + [r])
  {
    ThreadsConcat(q, [r]);
    ThreadsOne(r);
    NotIn(q, r.t);
    assert (q + [r])[|q|] == r;
  }

  /** Links away from the list do not matter to it. */
  lemma {:induction false} SpellsElsewhere(s: State, s': State, id: nat, q: seq<Req>, last: nat)
    requires Spells(s, id, q, last)
    requires forall x :: x in Threads(q) ==> Next(s', x) == Next(s, x) && Tag(s', x) == Tag(s, x)
    ensures Spells(s', id, q, last)
  {
    forall i | 0 <= i < |q|
      ensures LinkOk(s', q, i, last)
    {
      assert LinkOk(s, q, i, last);
      assert q[i].t in Threads(q);
    }
  }

  /** The links determine the list they spell. */
  lemma {:induction false} SpellsUnique(s: State, id: nat, a: seq<Req>, b: seq<Req>)
    requires Spells(s, id, a, NIL) && Spells(s, id, b, NIL)
    requires forall i :: 0 <= i < |a| ==> a[i].t < NIL
    requires forall i :: 0 <= i < |b| ==> b[i].t < NIL
    ensures a == b
    decreases |a|
  {
    if a != [] && b != [] {
      assert LinkOk(s, a, 0, NIL) && LinkOk(s, b, 0, NIL);
      var n := Next(s, a[0].t);
      SpellsTail(s, a);
      SpellsTail(s, b);
      SpellsUnique(s, n, a[1..], b[1..]);
      assert a == [a[0]] + a[1..];
      assert b == [b[0]] + b[1..];
    }
  }

  lemma {:induction false} SpellsTail(s: State, q: seq<Req>)
    requires q != [] && Spells(s, q[0].t, q, NIL)
    ensures Spells(s, Next(s, q[0].t), q[1..], NIL)
  {
    var r := q[1..];
    assert LinkOk(s, q, 0, NIL);
    forall i | 0 <= i < |r|
      ensures LinkOk(s, r, i, NIL)
    {
      assert LinkOk(s, q, i + 1, NIL);
    }
  }
}
