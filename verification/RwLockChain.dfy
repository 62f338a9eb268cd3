/** How the actions on the 4-byte reader-writer lock change the links and the queue. */
module RwLockChain {
  import opened Base
  import opened RwSpec
  import opened RwLock
  import opened RwLockInv

  lemma {:induction false} SharedTailIs(q: seq<Req>, n: nat)
    requires n <= |q|
    requires forall i :: |q| - n <= i < |q| ==> q[i].mode == Shared
    requires n < |q| ==> q[|q| - n - 1].mode != Shared
    ensures SharedTail(q) == n
  {
    if n > 0 {
      SharedTailIs(q[..|q| - 1], n - 1);
    }
  }

  /**
   * A waiter that arrives after a scan that left someone behind does not change who is served:
   * the cached cut is what a fresh scan of the longer queue finds.
   */
  lemma {:induction false} CachedCutIsFresh(q: seq<Req>, r: Req)
    requires q != [] && FairServed(q) < |q|
    ensures FairServed([r] + q) == FairServed(q)
    ensures ([r] + q)[|q| + 1 - FairServed(q)..] == q[|q| - FairServed(q)..]
  {
    if OldestIs(q, Shared) {
      SharedTailIs([r] + q, SharedTail(q));
    }
  }

  lemma {:induction false} WeavePushed(p: seq<Req>, w: seq<Req>, r: Req)
    requires r.mode != Upgrade
    ensures Weave([r] + p, w) == [r] + Weave(p, w)
    ensures UpTail([r] + p) <==> UpTail(p)
    ensures UpTail(p) ==> Last([r] + p) == Last(p)
  {
    var p' := [r] + p;
    if p != [] {
      assert p'[|p'| - 1] == p[|p| - 1];
    }
    if UpTail(p) {
      var a, u := p[..|p| - 1], [Last(p)];
      assert p'[..|p'| - 1] == [r] + a;
      assert ([r] + a) + w + u == [r] + (a + w + u);
    } else {
      assert p' + w == [r] + (p + w);
    }
  }

  lemma {:induction false} WeaveJoined(p: seq<Req>, w: seq<Req>, r: Req)
    requires r.mode == Upgrade && !UpTail(p)
    ensures Weave(p + [r], w) == Weave(p, w) + [r]
  {
    assert (p + [r])[..|p|] == p;
  }

  lemma {:induction false} WeaveThreads(p: seq<Req>, w: seq<Req>)
    ensures Threads(Weave(p, w)) == Threads(p) + Threads(w)
  {
    if UpTail(p) {
      var a, u := p[..|p| - 1], [Last(p)];
      assert p == a + u;
      ThreadsConcat(a, u);
      ThreadsConcat(a, w);
      ThreadsConcat(a + w, u);
    } else {
      ThreadsConcat(p, w);
    }
  }

  lemma {:induction false} SplitThreads(q: seq<Req>)
    ensures Threads(q) == Threads(OnlyShared(q)) + Threads(NotShared(q))
  {
    if q != [] {
      SplitThreads(q[1..]);
      assert q == [q[0]] + q[1..];
      ThreadsConcat([q[0]], q[1..]);
      if q[0].mode == Shared {
        ThreadsConcat([q[0]], OnlyShared(q[1..]));
      } else {
        ThreadsConcat([q[0]], NotShared(q[1..]));
      }
    }
  }

  /** Every thread linked anywhere: on the lock, or on a list its keeper has taken off. */
  function Linked(s: State): set<Tid> {
    Threads(s.queue) + GrantedBy(s, if s.keeper.Some? then s.keeper.value else 0)
  }

  /** Threads of the keeper's private list. */
  function Private(p: Pc): set<Tid> {
    if p.Cut? then Threads(p.taken)
    else if p.Split? then Threads(p.all)
    else if Reinserting(p) then Threads(p.back)
    else {}
  }

  lemma {:induction false} PrivateThreads(s: State)
    requires KeeperOk(s)
    ensures Threads(s.phys) <= Threads(s.queue)
    ensures Private(KeeperPc(s)) <= Linked(s)
    ensures !KeeperPc(s).Split? ==> Private(KeeperPc(s)) <= Threads(s.queue)
  {
    var p := KeeperPc(s);
    if p.Cut? {
      var k := |s.queue| - |p.taken|;
      ThreadsConcat(s.queue[..k], s.queue[k..]);
      assert s.queue == s.queue[..k] + s.queue[k..];
    } else if p.Split? {
      WeaveThreads(s.phys, NotShared(p.all));
      SplitThreads(p.all);
    } else if Reinserting(p) {
      WeaveThreads(s.phys, p.back);
    }
  }

  /** A change of the rest of the state leaves the chain alone. */
  lemma {:induction false} ChainKept(s: State, s': State)
    requires ChainOk(s) && s'.queue == s.queue && s'.phys == s.phys && s'.waitq == s.waitq
    requires forall x :: x in Linked(s) ==> Next(s', x) == Next(s, x) && Tag(s', x) == Tag(s, x)
    requires KeeperPc(s') == KeeperPc(s) && s'.keeper == s.keeper
    requires s.keeper.Some? && SplitPc(KeeperPc(s)) ==>
      GrantedBy(s', s.keeper.value) == GrantedBy(s, s.keeper.value)
    ensures ChainOk(s')
  {
    PrivateThreads(s);
    SpellsElsewhere(s, s', s.waitq, s.phys, NIL);
    var p := KeeperPc(s);
    if p.Cut? {
      if !p.whole {
        SpellsElsewhere(s, s', p.taken[0].t, p.taken, NIL);
      }
    } else if p.Split? {
      SpellsElsewhere(s, s', First(p.all, NIL), p.all, NIL);
    } else if Reinserting(p) {
      BackKept(s, s', p.back);
      ReinsertKept(s, s', p);
    }
  }

  lemma {:induction false} ReinsertKept(s: State, s': State, p: Pc)
    requires Reinserting(p) && ReinsertOk(s, p)
    requires Threads(s.phys) <= Threads(s'.phys)
    requires UpTail(s.phys) ==> UpTail(s'.phys) && Last(s'.phys) == Last(s.phys)
    requires p.ReinsertLink? && OldestPlain(s.phys, p.cur) ==> OldestPlain(s'.phys, p.cur)
    requires forall x :: x in Threads(p.back) || x in Threads(s.phys) ==>
               Next(s', x) == Next(s, x) && Tag(s', x) == Tag(s, x)
    ensures ReinsertOk(s', p)
  {
    if p.ReinsertSwap? && p.back != [] && p.oldQ != NIL {
      SpellsElsewhere(s, s', p.back[0].t, p.back, p.oldQ);
    }
  }

  lemma {:induction false} BackKept(s: State, s': State, back: seq<Req>)
    requires BackLinked(s, back)
    requires UpTail(s'.phys) == UpTail(s.phys) && (UpTail(s.phys) ==> Last(s'.phys) == Last(s.phys))
    requires forall x :: x in Threads(back) ==> Next(s', x) == Next(s, x) && Tag(s', x) == Tag(s, x)
    ensures BackLinked(s', back)
  {
    if back != [] {
      if Spells(s, back[0].t, back, NIL) {
        SpellsElsewhere(s, s', back[0].t, back, NIL);
      } else {
        SpellsElsewhere(s, s', back[0].t, back, Last(s.phys).t);
      }
    }
  }

  // ---------- a waiter arrives ----------

  lemma {:induction false} PushedChain(s: State, s': State, t: Tid, m: Mode)
    requires ChainOk(s) && t < NIL && t !in Linked(s) && m != Upgrade
    requires s'.queue == [Req(t, m)] + s.queue && s'.phys == [Req(t, m)] + s.phys
    requires s'.waitq == t && s'.next == s.next[t := s.waitq] && s'.tag == s.tag[t := m]
    requires KeeperPc(s') == KeeperPc(s) && s'.keeper == s.keeper && s'.waking == s.waking
    ensures ChainOk(s')
  {
    var r := Req(t, m);
    PrivateThreads(s);
    Pushed(s.queue, r);
    SpellsPushed(s, s', r);
    PushedKeeper(s, s', r);
  }

  lemma {:induction false} PushedKeeper(s: State, s': State, r: Req)
    requires KeeperOk(s) && r.t !in Linked(s) && r.mode != Upgrade
    requires s'.queue == [r] + s.queue && s'.phys == [r] + s.phys
    requires s'.next == s.next[r.t := s.waitq] && s'.tag == s.tag[r.t := r.mode]
    requires KeeperPc(s') == KeeperPc(s) && s'.keeper == s.keeper && s'.waking == s.waking
    ensures KeeperOk(s')
  {
    PrivateThreads(s);
    var p := KeeperPc(s);
    if p.Cut? {
      CutPushed(s, s', r, p.taken, p.whole, p.oldQ);
    } else if p.Split? {
      WeavePushed(s.phys, NotShared(p.all), r);
      SpellsElsewhere(s, s', First(p.all, NIL), p.all, NIL);
    } else if Reinserting(p) {
      WeavePushed(s.phys, p.back, r);
      Pushed(s.phys, r);
      BackKept(s, s', p.back);
      ReinsertKept(s, s', p);
    }
  }

  lemma {:induction false} SpellsPushed(s: State, s': State, r: Req)
    requires Spells(s, s.waitq, s.phys, NIL) && r.t !in Threads(s.phys)
    requires s'.phys == [r] + s.phys && s'.waitq == r.t
    requires s'.next == s.next[r.t := s.waitq] && s'.tag == s.tag[r.t := r.mode]
    ensures Spells(s', s'.waitq, s'.phys, NIL)
  {
    NotIn(s.phys, r.t);
    forall i | 0 <= i < |s'.phys|
      ensures LinkOk(s', s'.phys, i, NIL)
    {
      if i > 0 {
        assert LinkOk(s, s.phys, i - 1, NIL);
      }
    }
  }

  lemma {:induction false} CutPushed(s: State, s': State, r: Req, taken: seq<Req>, whole: bool, oldQ: nat)
    requires CutOk(s, taken, whole, oldQ) && r.t !in Threads(s.queue)
    requires s'.queue == [r] + s.queue && s'.phys == [r] + s.phys
    requires s'.next == s.next[r.t := s.waitq] && s'.tag == s.tag[r.t := r.mode]
    ensures CutOk(s', taken, whole, oldQ)
  {
    var k := |s.queue| - |taken|;
    assert s'.queue[k + 1..] == s.queue[k..];
    if !whole {
      PartPushed(s, s', r, taken, k);
    }
  }

  lemma {:induction false} PartPushed(s: State, s': State, r: Req, taken: seq<Req>, k: nat)
    requires k < |s.queue| && taken == s.queue[k..] && s.phys == s.queue[..k] && s.phys != []
    requires |taken| == FairServed(s.queue) && Spells(s, taken[0].t, taken, NIL) && r.t !in Threads(s.queue)
    requires s'.queue == [r] + s.queue && s'.phys == [r] + s.phys
    requires s'.next == s.next[r.t := s.waitq] && s'.tag == s.tag[r.t := r.mode]
    ensures s'.phys == s'.queue[..k + 1] && |taken| == FairServed(s'.queue) && Spells(s', taken[0].t, taken, NIL)
  {
    CachedCutIsFresh(s.queue, r);
    ThreadsConcat(s.queue[..k], taken);
    assert s.queue == s.queue[..k] + taken;
    SpellsElsewhere(s, s', taken[0].t, taken, NIL);
  }

  // ---------- an upgrade or a downgrade joins at the old end ----------

  lemma {:induction false} SpellsJoined(s: State, s': State, r: Req)
    requires Spells(s, s.waitq, s.phys, NIL) && r.t !in Threads(s.phys) && QueueOk(s.phys)
    requires s.phys != [] && Next(s, r.t) == NIL
    requires s'.phys == s.phys + [r] && s'.waitq == s.waitq
    requires s'.next == s.next[Last(s.phys).t := r.t] && s'.tag == s.tag[r.t := r.mode]
    ensures Spells(s', s'.waitq, s'.phys, NIL)
  {
    NotIn(s.phys, r.t);
    forall i | 0 <= i < |s'.phys|
      ensures LinkOk(s', s'.phys, i, NIL)
    {
      if i < |s.phys| {
        assert LinkOk(s, s.phys, i, NIL);
      }
    }
  }

  /** The only linked thread of the chain whose link is NIL is its oldest. */
  lemma {:induction false} NilIsLast(s: State, cur: Tid)
    requires Spells(s, s.waitq, s.phys, NIL) && QueueOk(s.phys)
    requires cur in Threads(s.phys)
    ensures s.phys != [] && (Next(s, cur) == NIL <==> cur == Last(s.phys).t)
    ensures Next(s, cur) != NIL ==> Next(s, cur) in Threads(s.phys)
    ensures Req(cur, Tag(s, cur)) in s.phys
  {
    var i := ThreadAt(s.phys, cur);
    assert LinkOk(s, s.phys, i, NIL);
    if i + 1 < |s.phys| {
      assert s.phys[i + 1].t in Threads(s.phys);
    }
  }

  lemma {:induction false} PhysOk(s: State)
    requires QueueOk(s.queue) && KeeperOk(s)
    ensures QueueOk(s.phys)
  {
    var p := KeeperPc(s);
    if p.Split? {
      WeaveOk(s.phys, NotShared(p.all));
    } else if Reinserting(p) {
      WeaveOk(s.phys, p.back);
    }
  }

  lemma {:induction false} PartsOk(a: seq<Req>, b: seq<Req>)
    requires QueueOk(a + b)
    ensures QueueOk(a) && QueueOk(b) && Threads(a) !! Threads(b)
  {
    var q := a + b;
    assert forall i :: 0 <= i < |a| ==> a[i] == q[i];
    assert forall i :: 0 <= i < |b| ==> b[i] == q[|a| + i];
    forall x | x in Threads(a)
      ensures x !in Threads(b)
    {
      var i := ThreadAt(a, x);
      if x in Threads(b) {
        var j := ThreadAt(b, x);
        assert false;
      }
    }
  }

  lemma {:induction false} WeaveOk(p: seq<Req>, w: seq<Req>)
    requires QueueOk(Weave(p, w))
    ensures QueueOk(p) && QueueOk(w) && Threads(p) !! Threads(w)
  {
    if UpTail(p) {
      var a, u := p[..|p| - 1], Last(p);
      PartsOk(a + w, [u]);
      PartsOk(a, w);
      assert p == a + [u];
      ThreadsConcat(a, w);
      ThreadsOne(u);
      Joined(a, u);
    } else {
      PartsOk(p, w);
    }
  }

  /** The keeper's private list when an upgrade joins behind everyone. */
  lemma {:induction false} SplitJoined(s: State, s': State, all: seq<Req>, r: Req)
    requires s.keeper.Some? && SplitOk(s, all) && r.mode == Upgrade && !UpTail(s.phys)
    requires forall x :: x in Threads(all) ==> Next(s', x) == Next(s, x) && Tag(s', x) == Tag(s, x)
    requires s'.queue == s.queue + [r] && s'.phys == s.phys + [r]
    requires s'.keeper == s.keeper && s'.waking == s.waking
    ensures SplitOk(s', all)
  {
    WeaveJoined(s.phys, NotShared(all), r);
    SpellsElsewhere(s, s', First(all, NIL), all, NIL);
  }

  lemma {:induction false} ReinsertJoined(s: State, s': State, p: Pc, r: Req)
    requires Reinserting(p) && s.queue == Weave(s.phys, p.back)
    requires BackLinked(s, p.back) && ReinsertOk(s, p) && r.mode == Upgrade && !UpTail(s.phys)
    requires forall x :: x in Threads(p.back) ==> Next(s', x) == Next(s, x)
    requires forall x :: x in Threads(p.back) || x in Threads(s.phys) ==> Tag(s', x) == Tag(s, x)
    requires s'.queue == s.queue + [r] && s'.phys == s.phys + [r]
    ensures s'.queue == Weave(s'.phys, p.back)
    ensures BackLinked(s', p.back) && ReinsertOk(s', p)
  {
    WeaveJoined(s.phys, p.back, r);
    ThreadsConcat(s.phys, [r]);
    if p.back != [] {
      SpellsElsewhere(s, s', p.back[0].t, p.back, NIL);
    }
  }

  /** The chain of the lock when an upgrade joins behind everyone. */
  lemma {:induction false} PhysJoined(s: State, s': State, r: Req)
    requires Spells(s, s.waitq, s.phys, NIL) && r.t !in Threads(s.phys) && QueueOk(s.phys)
    requires Next(s, r.t) == NIL && Tag(s', r.t) == r.mode && s'.phys == s.phys + [r]
    requires forall x :: x in Threads(s.phys) ==> Tag(s', x) == Tag(s, x)
    requires s.phys != [] ==> s'.waitq == s.waitq && s'.next == s.next[Last(s.phys).t := r.t]
    requires s.phys == [] ==> s'.waitq == r.t && s'.next == s.next
    ensures Spells(s', s'.waitq, s'.phys, NIL)
  {
    NotIn(s.phys, r.t);
    forall i | 0 <= i < |s'.phys|
      ensures LinkOk(s', s'.phys, i, NIL)
    {
      if i < |s.phys| {
        assert LinkOk(s, s.phys, i, NIL);
        assert s.phys[i].t in Threads(s.phys);
      }
    }
  }

  lemma {:induction false} LastIn(q: seq<Req>)
    requires q != []
    ensures Last(q).t in Threads(q)
  {
    assert q[|q| - 1].t in Threads(q);
  }

  lemma {:induction false} UpgradeChain(s: State, s': State, t: Tid)
    requires ChainOk(s) && t < NIL && t !in Linked(s) && Next(s, t) == NIL
    requires !UpTail(s.phys) && !KeeperPc(s).Cut?
    requires forall x :: x in s.waking ==> x !in Threads(s.queue)
    requires s'.queue == s.queue + [Req(t, Upgrade)] && s'.phys == s.phys + [Req(t, Upgrade)]
    requires s.phys != [] ==> s'.waitq == s.waitq && s'.next == s.next[Last(s.phys).t := t]
    requires s.phys == [] ==> s'.waitq == t && s'.next == s.next
    requires Tag(s', t) == Upgrade && forall x :: x != t ==> Tag(s', x) == Tag(s, x)
    requires KeeperPc(s') == KeeperPc(s) && s'.keeper == s.keeper && s'.waking == s.waking
    ensures ChainOk(s')
  {
    var r := Req(t, Upgrade);
    PrivateThreads(s);
    PhysOk(s);
    Joined(s.queue, r);
    PhysJoined(s, s', r);
    UpgradeKeeper(s, s', r);
  }

  lemma {:induction false} UpgradeKeeper(s: State, s': State, r: Req)
    requires KeeperOk(s) && QueueOk(s.queue) && r.mode == Upgrade
    requires !UpTail(s.phys) && !KeeperPc(s).Cut? && r.t !in Linked(s)
    requires forall x :: x in s.waking ==> x !in Threads(s.queue)
    requires s'.queue == s.queue + [r] && s'.phys == s.phys + [r]
    requires s.phys != [] ==> s'.next == s.next[Last(s.phys).t := r.t]
    requires s.phys == [] ==> s'.next == s.next
    requires forall x :: x != r.t ==> Tag(s', x) == Tag(s, x)
    requires KeeperPc(s') == KeeperPc(s) && s'.keeper == s.keeper && s'.waking == s.waking
    ensures KeeperOk(s')
  {
    PrivateThreads(s);
    if s.phys != [] {
      LastIn(s.phys);
    }
    var p := KeeperPc(s);
    if p.Split? {
      LastNotSplit(s, p.all);
      SplitJoined(s, s', p.all, r);
    } else if Reinserting(p) {
      WeaveOk(s.phys, p.back);
      ReinsertJoined(s, s', p, r);
    }
  }

  /** The chain and the list taken off the lock have no thread in common. */
  lemma {:induction false} LastNotSplit(s: State, all: seq<Req>)
    requires s.keeper.Some? && SplitOk(s, all) && QueueOk(s.queue)
    requires forall x :: x in s.waking ==> x !in Threads(s.queue)
    ensures Threads(s.phys) !! Threads(all)
  {
    WeaveOk(s.phys, NotShared(all));
    WeaveThreads(s.phys, NotShared(all));
    SplitThreads(all);
  }

  lemma {:induction false} DowngradeJoinedChain(s: State, s': State, t: Tid)
    requires ChainOk(s) && t < NIL && t !in Threads(s.queue) && Next(s, t) == NIL
    requires s.phys != [] && !IsKeeper(KeeperPc(s)) && !IsKeeper(KeeperPc(s'))
    requires s'.queue == s.queue + [Req(t, Shared)] && s'.phys == s.phys + [Req(t, Shared)]
    requires s'.waitq == s.waitq && s'.next == s.next[Last(s.phys).t := t]
    requires s'.tag == s.tag[t := Shared]
    ensures ChainOk(s')
  {
    var r := Req(t, Shared);
    Joined(s.queue, r);
    SpellsJoined(s, s', r);
  }

  // ---------- the waiters to wake are cut off ----------

  lemma {:induction false} SpellsSplit(s: State, s': State, q: seq<Req>, k: nat)
    requires QueueOk(q) && q != [] && Spells(s, q[0].t, q, NIL) && 0 < k < |q|
    requires s'.next == s.next[q[k - 1].t := NIL] && s'.tag == s.tag
    ensures Spells(s', q[0].t, q[..k], NIL) && Spells(s', q[k].t, q[k..], NIL)
  {
    forall i | 0 <= i < k
      ensures LinkOk(s', q[..k], i, NIL)
    {
      assert LinkOk(s, q, i, NIL);
    }
    forall i | 0 <= i < |q| - k
      ensures LinkOk(s', q[k..], i, NIL)
    {
      assert LinkOk(s, q, k + i, NIL);
    }
  }

  lemma {:induction false} CutWhole(s: State, s': State)
    requires QueueOk(s.queue) && Spells(s, s.waitq, s.phys, NIL) && s.queue == s.phys && s.phys != []
    requires FairServed(s.phys) == |s.phys|
    requires KeeperPc(s').Cut? && KeeperPc(s').oldQ == s.waitq
    requires KeeperPc(s').taken == s.phys && KeeperPc(s').whole
    requires s'.queue == s.queue && s'.waitq == s.waitq && s'.tag == s.tag
    requires s'.next == s.next && s'.phys == s.phys
    ensures ChainOk(s')
  {
    SpellsElsewhere(s, s', s.waitq, s.phys, NIL);
    assert s.phys[0..] == s.phys;
  }

  lemma {:induction false} CutPart(s: State, s': State, k: nat)
    requires QueueOk(s.queue) && Spells(s, s.waitq, s.phys, NIL) && s.queue == s.phys && s.phys != []
    requires 0 < k < |s.phys| && k == |s.phys| - FairServed(s.phys)
    requires KeeperPc(s').Cut? && KeeperPc(s').taken == s.phys[k..] && !KeeperPc(s').whole
    requires s'.queue == s.queue && s'.waitq == s.waitq && s'.tag == s.tag
    requires s'.next == s.next[s.phys[k - 1].t := NIL] && s'.phys == s.phys[..k]
    ensures ChainOk(s')
  {
    SpellsSplit(s, s', s.phys, k);
  }

  lemma {:induction false} CutChain(s: State, s': State, t: Tid, k: nat)
    requires ChainOk(s) && s.queue == s.phys && s.phys != [] && k == |s.phys| - FairServed(s.phys)
    requires KeeperPc(s').Cut? && KeeperPc(s').oldQ == s.waitq
    requires KeeperPc(s').taken == s.phys[k..] && KeeperPc(s').whole == (k == 0)
    requires s'.queue == s.queue && s'.waitq == s.waitq && s'.tag == s.tag
    requires k == 0 ==> s'.next == s.next && s'.phys == s.phys
    requires k > 0 ==> s'.next == s.next[s.phys[k - 1].t := NIL] && s'.phys == s.phys[..k]
    ensures ChainOk(s')
  {
    if k == 0 {
      assert s.phys[0..] == s.phys;
      CutWhole(s, s');
    } else {
      CutPart(s, s', k);
    }
  }

  lemma {:induction false} SwapCutChain(s: State, s': State, p: Pc)
    requires ChainOk(s) && p == KeeperPc(s) && p.Cut? && s.waitq == p.oldQ
    requires s'.queue == s.queue[..|s.queue| - |p.taken|]
    requires s'.waitq == if p.whole then NIL else s.waitq
    requires s'.phys == if p.whole then [] else s.phys
    requires s'.next == s.next && s'.tag == s.tag && !IsKeeper(KeeperPc(s'))
    ensures ChainOk(s')
    ensures |p.taken| == FairServed(s.queue)
  {
    var k := |s.queue| - |p.taken|;
    if p.whole {
      assert s.queue[0].t == s.queue[k].t;
      assert k == 0;
    } else {
      SpellsElsewhere(s, s', s.waitq, s.phys, NIL);
    }
  }

  // ---------- the whole queue is taken off, split, and put back ----------

  lemma {:induction false} SubQueueOk(q: seq<Req>)
    requires QueueOk(q)
    ensures QueueOk(OnlyShared(q)) && QueueOk(NotShared(q))
    ensures Threads(OnlyShared(q)) !! Threads(NotShared(q))
  {
    if q != [] {
      var r := q[1..];
      SubQueueOk(r);
      SplitThreads(r);
      assert q[0].t !in Threads(r) by {
        if q[0].t in Threads(r) {
          var i := ThreadAt(r, q[0].t);
        }
      }
      if q[0].mode == Shared {
        Pushed(OnlyShared(r), q[0]);
      } else {
        Pushed(NotShared(r), q[0]);
      }
    }
  }

  lemma {:induction false} TakenChain(s: State, s': State, t: Tid, all: seq<Req>)
    requires ChainOk(s) && s.queue == s.phys && all == s.phys
    requires forall i :: 0 <= i < |all| ==> all[i].mode != Upgrade
    requires GrantedBy(s, t) == {}
    requires s'.keeper == Some(t) && At(s', t).Split? && At(s', t).all == all
    requires s'.waitq == NIL && s'.phys == [] && s'.queue == NotShared(all)
    requires s'.next == s.next && s'.tag == s.tag
    requires s'.waking == s.waking + (map x | x in Threads(OnlyShared(all)) :: t)
    ensures ChainOk(s')
    ensures GrantedBy(s', t) == Threads(OnlyShared(all))
  {
    SubQueueOk(all);
    SpellsElsewhere(s, s', First(all, NIL), all, NIL);
    forall x
      ensures x in GrantedBy(s', t) <==> x in Threads(OnlyShared(all))
    {
      assert x in s.waking && s.waking[x] == t ==> x in GrantedBy(s, t);
    }
  }

  lemma {:induction false} LinkFrame(next: map<Tid, nat>, q: seq<Req>, last: nat, x: Tid)
    requires x !in Threads(q)
    ensures x in Link(next, q, last) <==> x in next
    ensures x in next ==> Link(next, q, last)[x] == next[x]
  {
    if q != [] {
      assert q == [q[0]] + q[1..];
      ThreadsConcat([q[0]], q[1..]);
      ThreadsOne(q[0]);
      LinkFrame(next, q[1..], last, x);
    }
  }

  /** Relinking a list makes its links spell it. */
  lemma {:induction false} LinkSpells(s: State, next: map<Tid, nat>, q: seq<Req>, last: nat)
    requires s.next == Link(next, q, last) && QueueOk(q)
    requires forall r :: r in q ==> Tag(s, r.t) == r.mode
    ensures Spells(s, First(q, last), q, last)
    decreases |q|
  {
    if q != [] {
      var r := q[1..];
      var s1 := s.(next := Link(next, r, last));
      LinkSpells(s1, next, r, last);
      forall i | 0 <= i < |q|
        ensures LinkOk(s, q, i, last)
      {
        assert q[i] in q;
        if i > 0 {
          assert LinkOk(s1, r, i - 1, last);
          assert r[i - 1] == q[i];
        }
      }
    }
  }

  lemma {:induction false} ReversedThreads(q: seq<Req>)
    ensures Threads(Reversed(q)) == Threads(q)
  {
    if q != [] {
      ReversedThreads(q[1..]);
      ThreadsConcat(Reversed(q[1..]), [q[0]]);
      ThreadsConcat([q[0]], q[1..]);
      assert q == [q[0]] + q[1..];
    }
  }

  lemma {:induction false} SpelledTags(s: State, id: nat, q: seq<Req>, last: nat)
    requires Spells(s, id, q, last)
    ensures forall r :: r in q ==> Tag(s, r.t) == r.mode
  {
    forall r | r in q
      ensures Tag(s, r.t) == r.mode
    {
      var i :| 0 <= i < |q| && q[i] == r;
      assert LinkOk(s, q, i, last);
    }
  }

  /** The loop that separates readers from writers. */
  lemma {:induction false} SplitLinks(s: State, s': State, all: seq<Req>)
    requires QueueOk(all) && Spells(s, First(all, NIL), all, NIL)
    requires s'.tag == s.tag
    requires s'.next == Link(Link(s.next, Reversed(OnlyShared(all)), NIL), NotShared(all), NIL)
    ensures Spells(s', First(NotShared(all), NIL), NotShared(all), NIL)
    ensures forall x :: x !in Threads(all) ==> Next(s', x) == Next(s, x)
  {
    var readers, back := Reversed(OnlyShared(all)), NotShared(all);
    var next := Link(s.next, readers, NIL);
    SubQueueOk(all);
    SpelledTags(s, First(all, NIL), all, NIL);
    NotSharedFacts(all);
    LinkSpells(s', next, back, NIL);
    ReversedThreads(OnlyShared(all));
    SplitThreads(all);
    forall x | x !in Threads(all)
      ensures Next(s', x) == Next(s, x)
    {
      LinkFrame(s.next, readers, NIL, x);
      LinkFrame(next, back, NIL, x);
    }
  }

  lemma {:induction false} SplitChain(s: State, s': State, p: Pc)
    requires ChainOk(s) && s.keeper.Some? && p == KeeperPc(s) && p.Split?
    requires forall x :: x in s.waking ==> x !in Threads(s.queue)
    requires s'.queue == s.queue && s'.phys == s.phys && s'.waitq == s.waitq && s'.tag == s.tag
    requires s'.next == Link(Link(s.next, Reversed(OnlyShared(p.all)), NIL), NotShared(p.all), NIL)
    requires KeeperPc(s').Reinsert? && KeeperPc(s').back == NotShared(p.all)
    ensures ChainOk(s')
  {
    SplitLinks(s, s', p.all);
    LastNotSplit(s, p.all);
    SpellsElsewhere(s, s', s.waitq, s.phys, NIL);
    NotSharedFacts(p.all);
  }

  lemma {:induction false} ReinsertChain(s: State, s': State, p: Pc, p': Pc)
    requires ChainOk(s) && p == KeeperPc(s) && Reinserting(p) && p' == KeeperPc(s')
    requires Reinserting(p') && p'.back == p.back && ReinsertOk(s, p')
    requires s'.queue == s.queue && s'.phys == s.phys && s'.waitq == s.waitq
    requires s'.next == s.next && s'.tag == s.tag
    ensures ChainOk(s')
  {
    SpellsElsewhere(s, s', s.waitq, s.phys, NIL);
    BackKept(s, s', p.back);
    ReinsertKept(s, s', p');
  }

  /** An upgrade on the chain is its oldest waiter. */
  lemma {:induction false} UpgradeLast(p: seq<Req>, w: seq<Req>, i: nat)
    requires w != [] && i < |p| && p[i].mode == Upgrade
    requires forall j :: 0 <= j < |Weave(p, w)| && Weave(p, w)[j].mode == Upgrade ==>
               j == |Weave(p, w)| - 1
    ensures i == |p| - 1
  {
    if i < |p| - 1 || !UpTail(p) {
      assert Weave(p, w)[i] == p[i];
    }
  }

  /** The detached writers hung behind the newcomers, ahead of no upgrade. */
  lemma {:induction false} SplicedLinks(s: State, s': State, back: seq<Req>, cur: Tid)
    requires Spells(s, s.waitq, s.phys, NIL) && back != [] && OldestPlain(s.phys, cur)
    requires QueueOk(s.phys) && QueueOk(back) && Threads(s.phys) !! Threads(back)
    requires Spells(s, back[0].t, back, NIL) ||
             (UpTail(s.phys) && Spells(s, back[0].t, back, Last(s.phys).t))
    requires s'.tag == s.tag && s'.waitq == s.waitq && s'.phys == Weave(s.phys, back)
    requires s'.next == if UpTail(s.phys)
               then s.next[Last(back).t := Last(s.phys).t][cur := back[0].t]
               else s.next[cur := back[0].t]
    ensures Spells(s', s'.waitq, s'.phys, NIL)
  {
    var q := s'.phys;
    var n := if UpTail(s.phys) then |s.phys| - 1 else |s.phys|;
    var last := if Spells(s, back[0].t, back, NIL) then NIL else Last(s.phys).t;
    forall i | 0 <= i < |q|
      ensures LinkOk(s', q, i, NIL)
    {
      if i < n {
        Apart(s.phys, back, i, |back| - 1);
        assert LinkOk(s, s.phys, i, NIL);
      } else if i < n + |back| {
        Apart(s.phys, back, n - 1, i - n);
        assert LinkOk(s, back, i - n, last);
      } else {
        Apart(s.phys, back, n, |back| - 1);
        assert LinkOk(s, s.phys, n, NIL);
      }
    }
  }

  lemma {:induction false} Apart(a: seq<Req>, b: seq<Req>, i: nat, j: nat)
    requires Threads(a) !! Threads(b) && i < |a| && j < |b|
    ensures a[i].t != b[j].t
  {
    assert a[i].t in Threads(a) && b[j].t in Threads(b);
  }

  lemma {:induction false} SplicedChain(s: State, s': State, p: Pc, cur: Tid)
    requires ChainOk(s) && p == KeeperPc(s) && Reinserting(p) && p.back != []
    requires OldestPlain(s.phys, cur)
    requires s'.next == if UpTail(s.phys)
               then s.next[Last(p.back).t := Last(s.phys).t][cur := p.back[0].t]
               else s.next[cur := p.back[0].t]
    requires s'.tag == s.tag && s'.waitq == s.waitq && s'.queue == s.queue && s'.phys == s.queue
    requires KeeperPc(s').ReinsertSwap? && KeeperPc(s').back == []
    requires KeeperPc(s').newQ == KeeperPc(s').oldQ
    ensures ChainOk(s')
  {
    WeaveOk(s.phys, p.back);
    SplicedLinks(s, s', p.back, cur);
    WeaveNone(s'.phys);
  }

  lemma {:induction false} WeaveNone(p: seq<Req>)
    ensures Weave(p, []) == p
  {
  }

  /** The only newcomer is an upgrade: the writers will go in front of it with the word's swap. */
  lemma {:induction false} FrontChain(s: State, s': State, p: Pc, p': Pc, cur: Tid)
    requires ChainOk(s) && p == KeeperPc(s) && Reinserting(p) && p.back != []
    requires UpTail(s.phys) && Last(s.phys).t == cur
    requires s'.next == s.next[Last(p.back).t := cur] && s'.tag == s.tag
    requires s'.waitq == s.waitq && s'.queue == s.queue && s'.phys == s.phys
    requires p' == KeeperPc(s') && p'.ReinsertSwap? && p'.back == p.back
    requires p'.newQ == p.back[0].t && p'.oldQ == cur
    ensures ChainOk(s')
  {
    var back := p.back;
    WeaveOk(s.phys, back);
    LastIn(back);
    SpellsElsewhere(s, s', s.waitq, s.phys, NIL);
    BackToUpgrade(s, s', back, if Spells(s, back[0].t, back, NIL) then NIL else cur, cur);
  }

  lemma {:induction false} BackToUpgrade(s: State, s': State, back: seq<Req>, last: nat, cur: Tid)
    requires back != [] && QueueOk(back) && Spells(s, back[0].t, back, last)
    requires s'.next == s.next[Last(back).t := cur] && s'.tag == s.tag
    ensures Spells(s', back[0].t, back, cur)
  {
    forall i | 0 <= i < |back|
      ensures LinkOk(s', back, i, cur)
    {
      assert LinkOk(s, back, i, last);
    }
  }

  /** What the word's swap is about to publish: the whole queue, spelled from the new head. */
  lemma {:induction false} PutBackLinks(s: State, p: Pc)
    requires ChainOk(s) && p == KeeperPc(s) && p.ReinsertSwap? && s.waitq == p.oldQ
    ensures Spells(s, p.newQ, s.queue, NIL)
    ensures p.back == [] ==> s.queue == s.phys
  {
    var back := p.back;
    if back == [] {
      WeaveNone(s.phys);
    } else if p.oldQ == NIL {
      PhysEmpty(s);
      assert s.queue == back;
    } else {
      PhysOk(s);
      assert s.phys == [Last(s.phys)];
      assert s.queue == back + [Last(s.phys)];
      FrontLinks(s, back, Last(s.phys));
    }
  }

  /** The swap that puts the writers back, or finds them already hung in the chain. */
  lemma {:induction false} PutBackChain(s: State, s': State, p: Pc)
    requires ChainOk(s) && p == KeeperPc(s) && p.ReinsertSwap? && s.waitq == p.oldQ
    requires s'.queue == s.queue && s'.waitq == p.newQ && s'.next == s.next && s'.tag == s.tag
    requires s'.phys == if p.back == [] then s.phys else s.queue
    requires !IsKeeper(KeeperPc(s'))
    ensures ChainOk(s')
  {
    PutBackLinks(s, p);
    SpellsElsewhere(s, s', p.newQ, s.queue, NIL);
  }

  lemma {:induction false} FrontLinks(s: State, back: seq<Req>, u: Req)
    requires Spells(s, u.t, [u], NIL) && back != [] && Spells(s, back[0].t, back, u.t)
    ensures Spells(s, back[0].t, back + [u], NIL)
  {
    var q := back + [u];
    assert LinkOk(s, [u], 0, NIL);
    forall i | 0 <= i < |q|
      ensures LinkOk(s, q, i, NIL)
    {
      if i < |back| {
        assert LinkOk(s, back, i, u.t);
      }
    }
  }

  lemma {:induction false} PhysEmpty(s: State)
    requires ChainOk(s)
    ensures s.phys == [] <==> s.waitq == NIL
  {
    PhysOk(s);
  }
}
