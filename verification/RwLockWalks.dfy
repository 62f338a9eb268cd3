/**
 * The two list walks of a releasing thread, as loops over the waiters' `next` and `tag` fields.
 * Each leaves the fields as the corresponding action of the transition system does.
 */
module RwLockWalks {
  import opened Base
  import opened RwSpec
  import opened RwLock
  import opened RwLockInv
  import opened RwLockChain

  /** The arrays hold the links and tags of the state's waiters. */
  predicate Mirrors(s: State, next: seq<nat>, tag: seq<Mode>) {
    |next| == |tag| && forall x :: 0 <= x < |next| ==> next[x] == Next(s, x) && tag[x] == Tag(s, x)
  }

  predicate Within(q: seq<Req>, n: nat) {
    forall i :: 0 <= i < |q| ==> q[i].t < n
  }

  /** Whoever the scan stands at: the run it has found so far ends there. */
  predicate RunTo(q: seq<Req>, i: nat, n: nat)
    requires i < |q|
  {
    && 1 <= n <= i + 1
    && (n == 1 || forall j :: i + 1 - n <= j <= i ==> q[j].mode == Shared)
    && (n <= i ==> q[i - n].mode != Shared || q[i + 1 - n].mode != Shared)
  }

  lemma {:induction false} RunIsServed(q: seq<Req>, n: nat)
    requires q != [] && RunTo(q, |q| - 1, n)
    ensures n == FairServed(q)
  {
    if OldestIs(q, Shared) {
      SharedTailIs(q, n);
    }
  }

  lemma {:induction false} RunExtends(q: seq<Req>, i: nat, n: nat)
    requires i + 1 < |q| && RunTo(q, i, n)
    ensures RunTo(q, i + 1, if q[i].mode == Shared && q[i + 1].mode == Shared then n + 1 else 1)
  {
  }

  /** What the arrays say at one waiter of the list. */
  lemma {:induction false} ReadAt(s: State, q: seq<Req>, next: seq<nat>, tag: seq<Mode>, i: nat)
    requires Mirrors(s, next, tag) && Spells(s, First(q, NIL), q, NIL) && Within(q, |next|) && i < |q|
    ensures q[i].t < |next| && tag[q[i].t] == q[i].mode
    ensures next[q[i].t] == if i + 1 < |q| then q[i + 1].t else NIL
  {
    assert LinkOk(s, q, i, NIL);
  }

  lemma {:induction false} CutMirrors(s: State, next: seq<nat>, tag: seq<Mode>, x: nat)
    requires Mirrors(s, next, tag) && x < |next|
    ensures Mirrors(s.(next := s.next[x := NIL]), next[x := NIL], tag)
  {
  }

  /**
   * The fair scan from the newest waiter: the waiters to wake are the longest run of readers at the
   * old end or the one oldest waiter; they are counted and cut off in place.
   */
  method FairScan(ghost s: State, ghost q: seq<Req>, next: array<nat>, tag: array<Mode>, waitq: nat)
    returns (newQ: nat, waitList: nat, count: nat)
    requires Mirrors(s, next[..], tag[..]) && next.Length <= NIL
    requires q != [] && Spells(s, waitq, q, NIL) && Within(q, next.Length)
    modifies next
    ensures 1 <= count <= |q| && count == FairServed(q) && waitList == q[|q| - count].t
    ensures newQ == if count == |q| then NIL else waitq
    ensures Mirrors(if count == |q| then s else s.(next := s.next[q[|q| - count - 1].t := NIL]),
                    next[..], tag[..])
  {
    var prev := NIL;
    count := 1;
    var waiter := waitq;
    ghost var i := 0;
    ReadAt(s, q, next[..], tag[..], 0);
    while next[waiter] != NIL
      invariant 0 <= i < |q| && waiter == q[i].t < next.Length && RunTo(q, i, count)
      invariant prev == if count == i + 1 then NIL else q[i - count].t
      invariant next[..] == old(next[..])
      invariant next[waiter] == if i + 1 < |q| then q[i + 1].t else NIL
      invariant tag[waiter] == q[i].mode
      decreases |q| - i
    {
      ReadAt(s, q, next[..], tag[..], i + 1);
      RunExtends(q, i, count);
      var n := next[waiter];
      if tag[waiter] != Shared || tag[n] != Shared {
        prev := waiter;
        count := 1;
      } else {
        count := count + 1;
      }
      waiter := n;
      i := i + 1;
    }
    RunIsServed(q, count);
    if prev == NIL {
      newQ, waitList := NIL, waitq;
    } else {
      ReadAt(s, q, next[..], tag[..], |q| - count - 1);
      CutMirrors(s, next[..], tag[..], prev);
      newQ, waitList := waitq, next[prev];
      next[prev] := NIL;
    }
  }

  // ---------- separating readers from writers ----------

  predicate Listed(next: seq<nat>, id: nat, q: seq<Req>) {
    && id == First(q, NIL) && Within(q, |next|)
    && forall i :: 0 <= i < |q| ==> NextIs(next, q, i)
  }

  predicate NextIs(next: seq<nat>, q: seq<Req>, i: nat)
    requires i < |q|
  {
    q[i].t < |next| && next[q[i].t] == if i + 1 < |q| then q[i + 1].t else NIL
  }

  lemma {:induction false} ListedElsewhere(next: seq<nat>, next': seq<nat>, id: nat, q: seq<Req>, x: nat, v: nat)
    requires Listed(next, id, q) && x !in Threads(q) && x < |next| && next' == next[x := v]
    ensures Listed(next', id, q)
  {
    NotIn(q, x);
    forall i | 0 <= i < |q|
      ensures NextIs(next', q, i)
    {
      assert NextIs(next, q, i);
    }
  }

  lemma {:induction false} ListedPushed(next: seq<nat>, next': seq<nat>, id: nat, q: seq<Req>, r: Req)
    requires Listed(next, id, q) && r.t !in Threads(q) && r.t < |next| && next' == next[r.t := id]
    ensures Listed(next', r.t, [r] + q)
  {
    NotIn(q, r.t);
    var q' := [r] + q;
    forall i | 0 <= i < |q'|
      ensures NextIs(next', q', i)
    {
      if i > 0 {
        assert NextIs(next, q, i - 1);
      }
    }
  }

  lemma {:induction false} ListedAppended(next: seq<nat>, next': seq<nat>, id: nat, q: seq<Req>, r: Req)
    requires Listed(next, id, q) && QueueOk(q) && r.t !in Threads(q) && r.t < |next|
    requires q != [] ==> next' == next[r.t := NIL][Last(q).t := r.t]
    requires q == [] ==> next' == next[r.t := NIL]
    ensures Listed(next', First(q, r.t), q + [r])
  {
    NotIn(q, r.t);
    var q' := q + [r];
    forall i | 0 <= i < |q'|
      ensures NextIs(next', q', i)
    {
      if i < |q| {
        assert NextIs(next, q, i);
      }
    }
  }

  lemma {:induction false} ListedTail(next: seq<nat>, id: nat, q: seq<Req>)
    requires Listed(next, id, q) && q != []
    ensures id < |next| && Listed(next, next[id], q[1..])
  {
    assert NextIs(next, q, 0);
    forall i | 0 <= i < |q| - 1
      ensures NextIs(next, q[1..], i)
    {
      assert NextIs(next, q, i + 1);
    }
  }

  lemma {:induction false} SplitStep(q: seq<Req>, r: Req)
    ensures OnlyShared(q + [r]) == if r.mode == Shared then OnlyShared(q) + [r] else OnlyShared(q)
    ensures NotShared(q + [r]) == if r.mode == Shared then NotShared(q) else NotShared(q) + [r]
  {
    if q != [] {
      SplitStep(q[1..], r);
      assert (q + [r])[1..] == q[1..] + [r];
    }
  }

  lemma {:induction false} ReversedStep(q: seq<Req>, r: Req)
    ensures Reversed(q + [r]) == [r] + Reversed(q)
  {
    if q != [] {
      ReversedStep(q[1..], r);
      assert (q + [r])[1..] == q[1..] + [r];
    }
  }

  /** The three lists in the middle of the loop: still to do, readers, writers. */
  predicate Sorting(next: seq<nat>, all: seq<Req>, i: nat, waitList: nat, readers: nat, writers: nat, oldest: nat)
    requires i <= |all|
  {
    var r, w := Reversed(OnlyShared(all[..i])), NotShared(all[..i]);
    && Listed(next, waitList, all[i..]) && Listed(next, readers, r) && Listed(next, writers, w)
    && oldest == if w == [] then NIL else Last(w).t
  }

  lemma {:induction false} ListsApart(all: seq<Req>, i: nat)
    requires QueueOk(all) && i < |all|
    ensures var r, w, u := Reversed(OnlyShared(all[..i])), NotShared(all[..i]), all[i + 1..];
      && Threads(r) !! Threads(w) && Threads(r) !! Threads(u) && Threads(w) !! Threads(u)
      && all[i].t !in Threads(r) && all[i].t !in Threads(w) && all[i].t !in Threads(u)
      && QueueOk(w)
  {
    var d := all[..i];
    SubQueueOk(d);
    SplitThreads(d);
    ReversedThreads(OnlyShared(d));
    forall x | x in Threads(d)
      ensures x !in Threads(all[i + 1..]) && x != all[i].t
    {
      var j := ThreadAt(d, x);
      if x in Threads(all[i + 1..]) {
        var k := ThreadAt(all[i + 1..], x);
        assert false;
      }
    }
    if all[i].t in Threads(all[i + 1..]) {
      var k := ThreadAt(all[i + 1..], all[i].t);
      assert false;
    }
  }

  lemma {:induction false} SortReader(next: seq<nat>, all: seq<Req>, i: nat, waitList: nat, readers: nat, writers: nat, oldest: nat)
    requires QueueOk(all) && i < |all| && Sorting(next, all, i, waitList, readers, writers, oldest)
    requires all[i].mode == Shared
    ensures waitList == all[i].t < |next|
    ensures Sorting(next[waitList := readers], all, i + 1, next[waitList], waitList, writers, oldest)
  {
    var r, w, x := Reversed(OnlyShared(all[..i])), NotShared(all[..i]), all[i];
    ListsApart(all, i);
    ListedTail(next, waitList, all[i..]);
    assert all[i..][1..] == all[i + 1..];
    assert all[..i + 1] == all[..i] + [x];
    SplitStep(all[..i], x);
    ReversedStep(OnlyShared(all[..i]), x);
    var next' := next[waitList := readers];
    ListedElsewhere(next, next', next[waitList], all[i + 1..], waitList, readers);
    ListedElsewhere(next, next', writers, w, waitList, readers);
    ListedPushed(next, next', readers, r, x);
  }

  lemma {:induction false} SortWriter(next: seq<nat>, next': seq<nat>, all: seq<Req>, i: nat, waitList: nat, readers: nat, writers: nat, oldest: nat)
    requires QueueOk(all) && i < |all| && Sorting(next, all, i, waitList, readers, writers, oldest)
    requires all[i].mode != Shared
    requires waitList < |next| && (oldest != NIL ==> oldest < |next|)
    requires next' == if oldest == NIL then next[waitList := NIL] else next[waitList := NIL][oldest := waitList]
    ensures Sorting(next', all, i + 1, next[waitList], readers, if oldest == NIL then waitList else writers, waitList)
  {
    var r, w, x := Reversed(OnlyShared(all[..i])), NotShared(all[..i]), all[i];
    ListsApart(all, i);
    ListedTail(next, waitList, all[i..]);
    assert all[i..][1..] == all[i + 1..];
    assert all[..i + 1] == all[..i] + [x];
    SplitStep(all[..i], x);
    var mid := next[waitList := NIL];
    ListedElsewhere(next, mid, next[waitList], all[i + 1..], waitList, NIL);
    ListedElsewhere(next, mid, readers, r, waitList, NIL);
    if w != [] {
      LastIn(w);
      ListedElsewhere(mid, next', next[waitList], all[i + 1..], oldest, waitList);
      ListedElsewhere(mid, next', readers, r, oldest, waitList);
    }
    ListedAppended(next, next', writers, w, x);
  }

  lemma {:induction false} SortBounds(next: seq<nat>, all: seq<Req>, i: nat, waitList: nat, readers: nat, writers: nat, oldest: nat)
    requires QueueOk(all) && i <= |all| && Sorting(next, all, i, waitList, readers, writers, oldest)
    ensures waitList != NIL <==> i < |all|
    ensures i < |all| ==> waitList == all[i].t < |next| && all[i].t in Threads(all)
    ensures oldest != NIL ==> oldest < |next| && oldest in Threads(all)
  {
    var w := NotShared(all[..i]);
    if w != [] {
      LastIn(w);
      SplitThreads(all[..i]);
      var j := ThreadAt(all[..i], Last(w).t);
      assert all[j].t in Threads(all);
    }
  }

  lemma {:induction false} ListedAtStart(s: State, all: seq<Req>, next: seq<nat>, tag: seq<Mode>, list: nat)
    requires Mirrors(s, next, tag) && Within(all, |next|) && Spells(s, list, all, NIL)
    ensures Sorting(next, all, 0, list, NIL, NIL, NIL)
  {
    assert all[0..] == all;
    forall i | 0 <= i < |all|
      ensures NextIs(next, all, i)
    {
      ReadAt(s, all, next, tag, i);
    }
  }

  lemma {:induction false} ReversedOk(q: seq<Req>)
    requires QueueOk(q)
    ensures QueueOk(Reversed(q))
  {
    if q != [] {
      var r := q[1..];
      ReversedOk(r);
      ReversedThreads(r);
      if q[0].t in Threads(r) {
        var i := ThreadAt(r, q[0].t);
        assert false;
      }
      Joined(Reversed(r), q[0]);
    }
  }

  /** The loop leaves every link as the action that models it. */
  lemma {:induction false} SortedMirrors(s: State, all: seq<Req>, was: seq<nat>, next: seq<nat>, tag: seq<Mode>, readers: nat, writers: nat)
    requires Mirrors(s, was, tag) && |was| == |next| && QueueOk(all) && Spells(s, First(all, NIL), all, NIL)
    requires Listed(next, readers, Reversed(OnlyShared(all))) && Listed(next, writers, NotShared(all))
    requires forall x :: 0 <= x < |next| && x !in Threads(all) ==> next[x] == was[x]
    ensures Mirrors(s.(next := Link(Link(s.next, Reversed(OnlyShared(all)), NIL), NotShared(all), NIL)), next, tag)
  {
    var r, w := Reversed(OnlyShared(all)), NotShared(all);
    var mid := Link(s.next, r, NIL);
    var s' := s.(next := Link(mid, w, NIL));
    SplitLinks(s, s', all);
    SubQueueOk(all);
    ReversedOk(OnlyShared(all));
    ReversedThreads(OnlyShared(all));
    SplitThreads(all);
    forall x | 0 <= x < |next|
      ensures next[x] == Next(s', x)
    {
      if x in Threads(w) {
        var i := ThreadAt(w, x);
        assert LinkOk(s', w, i, NIL);
        assert NextIs(next, w, i);
      } else if x in Threads(r) {
        LinkFrame(mid, w, NIL, x);
        var i := ThreadAt(r, x);
        assert NextIs(next, r, i);
        LinkAt(s.next, r, NIL, i);
      }
    }
  }

  lemma {:induction false} LinkAt(next: map<Tid, nat>, q: seq<Req>, last: nat, i: nat)
    requires i < |q| && forall j, k :: 0 <= j < k < |q| ==> q[j].t != q[k].t
    ensures q[i].t in Link(next, q, last)
    ensures Link(next, q, last)[q[i].t] == if i + 1 < |q| then q[i + 1].t else last
  {
    if i > 0 {
      LinkAt(next, q[1..], last, i - 1);
    }
  }

  lemma {:induction false} CountStep(all: seq<Req>, i: nat)
    requires i < |all|
    ensures |OnlyShared(all[..i + 1])| == |OnlyShared(all[..i])| + if all[i].mode == Shared then 1 else 0
  {
    SplitStep(all[..i], all[i]);
    assert all[..i + 1] == all[..i] + [all[i]];
  }

  /**
   * The loop of an unfair release that takes the detached queue apart: readers onto a stack, writers
   * into a list in their old order; no waiter is lost and the readers are counted.
   */
  method SplitList(ghost s: State, ghost all: seq<Req>, next: array<nat>, tag: array<Mode>, list: nat)
    returns (readers: nat, writers: nat, count: nat)
    requires Mirrors(s, next[..], tag[..]) && next.Length <= NIL
    requires QueueOk(all) && Within(all, next.Length) && Spells(s, list, all, NIL)
    modifies next
    ensures count == |OnlyShared(all)|
    ensures Listed(next[..], readers, Reversed(OnlyShared(all)))
    ensures Listed(next[..], writers, NotShared(all))
    ensures Mirrors(s.(next := Link(Link(s.next, Reversed(OnlyShared(all)), NIL), NotShared(all), NIL)),
                    next[..], tag[..])
  {
    var waitList, oldest := list, NIL;
    readers, writers, count := NIL, NIL, 0;
    ghost var i := 0;
    ListedAtStart(s, all, next[..], tag[..], list);
    SortBounds(next[..], all, i, waitList, readers, writers, oldest);
    while waitList != NIL
      invariant 0 <= i <= |all| && Sorting(next[..], all, i, waitList, readers, writers, oldest)
      invariant count == |OnlyShared(all[..i])|
      invariant forall x :: 0 <= x < next.Length && x !in Threads(all) ==> next[x] == old(next[x])
      decreases |all| - i
    {
      SortBounds(next[..], all, i, waitList, readers, writers, oldest);
      CountStep(all, i);
      ReadAt(s, all, old(next[..]), tag[..], i);
      ghost var was := next[..];
      var waiter := waitList;
      waitList := next[waiter];
      next[waiter] := NIL;
      if tag[waiter] == Shared {
        SortReader(was, all, i, waiter, readers, writers, oldest);
        next[waiter] := readers;
        readers := waiter;
        count := count + 1;
        assert next[..] == was[waiter := next[waiter]];
      } else {
        ghost var w, o := writers, oldest;
        if oldest == NIL {
          writers := waiter;
        } else {
          next[oldest] := waiter;
        }
        oldest := waiter;
        assert next[..] == if o == NIL then was[waiter := NIL] else was[waiter := NIL][o := waiter];
        SortWriter(was, next[..], all, i, waiter, readers, w, o);
      }
      i := i + 1;
    }
    SortBounds(next[..], all, i, waitList, readers, writers, oldest);
    assert all[..i] == all;
    SortedMirrors(s, all, old(next[..]), next[..], tag[..], readers, writers);
  }
}
