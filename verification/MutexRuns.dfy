/** What holds of every run of threads over a 4-byte mutex. */
module MutexRuns {
  import opened Base
  import opened Mutex

  /** The linked waiters, oldest first: those in line, and before them the new owner until it is unlinked. */
  function Full(s: State): seq<Tid> {
    if s.tail == [] then s.line else s.tail + s.line
  }

  predicate LinkOk(s: State, q: seq<Tid>, i: nat)
    requires i < |q|
  {
    && Next(s, q[i]) == (if i == 0 then NIL else q[i - 1])
    && (Prev(s, q[i]) == NIL || (i + 1 < |q| && Prev(s, q[i]) == q[i + 1]))
    && At(s, q[i]) == Blocked && q[i] !in s.signalled && q[i] < NIL
  }

  predicate Linked(s: State, q: seq<Tid>) {
    Distinct(q) && forall i :: 0 <= i < |q| ==> LinkOk(s, q, i)
  }

  predicate ChainOk(s: State) {
    && Linked(s, Full(s))
    && s.waitq == (if s.line == [] then NIL else s.line[|s.line| - 1])
    && (s.tail == [] || (s.tail == [s.owner] && s.line != []))
    && (s.tail != [] ==> s.giver.Some? && At(s, s.giver.value) == Unlink(s.owner))
  }

  predicate OwnerOk(s: State) {
    && (s.owner == NIL ==> s.line == [])
    && s.owner !in s.line
    && s.arrived == s.owned + s.line
    && (s.owner != NIL ==> s.owned != [] && s.owned[|s.owned| - 1] == s.owner)
  }

  predicate Holds(p: Pc) {
    p.Owning? || p.Unlock? || p.Walk? || p.Swap?
  }

  /** The walk has set every link back from `lo` up to the waiter it started from. */
  predicate BackSet(s: State, lo: nat, m: nat) {
    m < |s.line| && forall i :: lo <= i < m ==> BackLink(s, i)
  }

  predicate BackLink(s: State, i: nat) {
    i + 1 < |s.line| && Prev(s, s.line[i]) == s.line[i + 1]
  }

  predicate ThreadOk(s: State, t: Tid) {
    var p := At(s, t);
    && (t >= NIL ==> p.Idle?)
    && (p.Unlink? || p.Wake? <==> s.giver == Some(t))
    && (t in s.signalled ==> p.Blocked?)
    && (!p.Blocked? ==> Next(s, t) == NIL && Prev(s, t) == NIL)
    && (Holds(p) ==> s.owner == t)
    && (s.owner == t < NIL ==> Holds(p) || p.Blocked?)
    && match p
       case Idle => true
       case Owning => true
       case Unlock => true
       case Walk(seen, cur, m, j) =>
         BackSet(s, j, m) && j <= m && seen == s.line[m] && cur == s.line[j]
       case Swap(seen, None, _) => seen == NIL
       case Swap(seen, Some(h), m) => BackSet(s, 0, m) && seen == s.line[m] && h == s.line[0]
       case Blocked =>
         if s.owner != t then t in s.line && t !in s.signalled
         else if t in s.signalled then s.giver == None && Next(s, t) == NIL && Prev(s, t) == NIL
         else s.giver.Some? && (At(s, s.giver.value) == Unlink(t) || At(s, s.giver.value) == Wake(t))
       case Unlink(h) =>
         && s.owner == h && At(s, h) == Blocked && h !in s.signalled && h < NIL
         && (if s.tail == [] then Next(s, h) == NIL && Prev(s, h) == NIL
             else s.line != [] && Prev(s, h) == s.line[0])
       case Wake(h) =>
         && s.owner == h && At(s, h) == Blocked && h !in s.signalled
         && s.tail == [] && Next(s, h) == NIL && Prev(s, h) == NIL
       case Fault => false
  }

  ghost predicate Inv(s: State) {
    ChainOk(s) && OwnerOk(s) && forall t :: ThreadOk(s, t)
  }

  lemma {:induction false} LinkAt(s: State, i: nat)
    requires ChainOk(s) && i < |Full(s)|
    ensures LinkOk(s, Full(s), i)
  {
  }

  lemma {:induction false} LineAt(s: State, i: nat)
    requires ChainOk(s) && i < |s.line|
    ensures LinkOk(s, Full(s), |s.tail| + i) && Full(s)[|s.tail| + i] == s.line[i]
  {
  }

  /** A thread that is not blocked is not linked. */
  lemma {:induction false} NotLinked(s: State, t: Tid)
    requires ChainOk(s) && At(s, t) != Blocked
    ensures t !in Full(s) && t !in s.line
  {
    if t in Full(s) {
      var i :| 0 <= i < |Full(s)| && Full(s)[i] == t;
      LinkAt(s, i);
    }
  }

  /** The thread that hands over has made a blocked thread the owner. */
  lemma {:induction false} GiverIs(s: State)
    requires Inv(s) && s.giver.Some?
    ensures At(s, s.owner) == Blocked && s.owner < NIL && At(s, s.giver.value) != Blocked
    ensures s.owner !in s.signalled && s.giver.value != s.owner
  {
    assert ThreadOk(s, s.giver.value);
    assert ThreadOk(s, s.owner);
  }

  /** While the owner is awake, no one is handing over. */
  lemma {:induction false} OwnerAwake(s: State, t: Tid)
    requires Inv(s) && s.owner == t && Holds(At(s, t))
    ensures s.giver == None && s.tail == []
  {
    if s.giver.Some? {
      GiverIs(s);
    }
  }

  lemma {:induction false} NoOwner(s: State)
    requires Inv(s) && s.owner == NIL
    ensures s.giver == None && s.tail == [] && s.line == []
  {
    if s.giver.Some? {
      GiverIs(s);
    }
  }

  /** Links away from the list, and program counters of others, do not matter to it. */
  lemma {:induction false} LinkedKept(s: State, s': State, q: seq<Tid>)
    requires Linked(s, q)
    requires forall x :: x in q ==>
      Next(s', x) == Next(s, x) && Prev(s', x) == Prev(s, x) && At(s', x) == At(s, x)
      && (x in s'.signalled ==> x in s.signalled)
    ensures Linked(s', q)
  {
    forall i | 0 <= i < |q|
      ensures LinkOk(s', q, i)
    {
      assert LinkOk(s, q, i);
      assert q[i] in q;
    }
  }

  /** The chain when only program counters of unlinked threads change. */
  lemma {:induction false} ChainKept(s: State, s': State, t: Tid)
    requires ChainOk(s) && At(s, t) != Blocked && s'.pc == s.pc[t := At(s', t)]
    requires s'.next == s.next && s'.prev == s.prev && s'.line == s.line && s'.tail == s.tail
    requires s'.waitq == s.waitq && (s.tail != [] ==> s'.owner == s.owner && s'.giver == s.giver)
    requires s.tail != [] ==> s.giver != Some(t)
    requires s'.signalled <= s.signalled + {t}
    ensures ChainOk(s')
  {
    NotLinked(s, t);
    LinkedKept(s, s', Full(s));
  }

  lemma {:induction false} TakenInv(s: State, s': State, t: Tid)
    requires Inv(s) && At(s, t).Idle? && t < NIL && s.owner == NIL && s' == Taken(s, t)
    ensures Inv(s')
  {
    NoOwner(s);
    assert ThreadOk(s, t);
    ChainKept(s, s', t);
    assert OwnerOk(s');
    forall u
      ensures ThreadOk(s', u)
    {
      assert ThreadOk(s, u);
    }
  }

  /** A move of the owner that edits nothing. */
  lemma {:induction false} MovedInv(s: State, s': State, t: Tid, p': Pc)
    requires Inv(s) && Holds(At(s, t)) && Holds(p') && s' == To(s, t, p') && ThreadOk(s', t)
    ensures Inv(s')
  {
    assert ThreadOk(s, t);
    OwnerAwake(s, t);
    ChainKept(s, s', t);
    forall u
      ensures ThreadOk(s', u)
    {
      assert ThreadOk(s, u);
    }
  }

  lemma {:induction false} ReadWordInv(s: State, s': State, t: Tid)
    requires Inv(s) && Holds(At(s, t)) && s' == ReadWordOf(s, t)
    ensures Inv(s')
  {
    assert ThreadOk(s, t);
    if s.line != [] {
      OwnerAwake(s, t);
      LineAt(s, |s.line| - 1);
    }
    MovedInv(s, s', t, At(s', t));
  }

  // ---------- a waiter arrives ----------

  lemma {:induction false} PushChain(s: State, s': State, t: Tid)
    requires ChainOk(s) && At(s, t).Idle? && t < NIL && Next(s, t) == NIL && Prev(s, t) == NIL
    requires t !in s.signalled && s.giver != Some(t)
    requires s' == To(s, t, Blocked).(next := s.next[t := s.waitq], waitq := t, line := s.line + [t],
                                      arrived := s.arrived + [t])
    ensures ChainOk(s')
  {
    NotLinked(s, t);
    var q, q' := Full(s), Full(s');
    assert q' == q + [t];
    forall i | 0 <= i < |q'|
      ensures LinkOk(s', q', i)
    {
      if i < |q| {
        LinkAt(s, i);
        assert q[i] in q;
      } else if s.line != [] {
        assert q[|q| - 1] == s.line[|s.line| - 1];
      }
    }
  }

  lemma {:induction false} PushOther(s: State, s': State, t: Tid, u: Tid)
    requires ThreadOk(s, u) && u != t && At(s, t).Idle?
    requires s' == To(s, t, Blocked).(next := s.next[t := s.waitq], waitq := t, line := s.line + [t],
                                      arrived := s.arrived + [t])
    ensures ThreadOk(s', u)
  {
    var p := At(s, u);
    if p.Walk? || p.Swap? {
      forall i | BackLink(s, i)
        ensures BackLink(s', i)
      {
      }
    }
  }

  lemma {:induction false} PushInv(s: State, s': State, t: Tid)
    requires Inv(s) && At(s, t).Idle? && t < NIL && s.owner != NIL
    requires s' == To(s, t, Blocked).(next := s.next[t := s.waitq], waitq := t, line := s.line + [t],
                                      arrived := s.arrived + [t])
    ensures Inv(s')
  {
    assert ThreadOk(s, t);
    PushChain(s, s', t);
    assert OwnerOk(s');
    forall u
      ensures ThreadOk(s', u)
    {
      assert ThreadOk(s, u);
      if u != t {
        PushOther(s, s', t, u);
      }
    }
  }

  lemma {:induction false} LockInv(s: State, s': State, t: Tid)
    requires Inv(s) && Can(s, Lock(t)) && s' == LockOf(s, t)
    ensures Inv(s')
  {
    assert ThreadOk(s, t);
    if s.owner == NIL {
      NoOwner(s);
      TakenInv(s, s', t);
    } else {
      PushInv(s, s', t);
    }
  }

  lemma {:induction false} TryLockInv(s: State, s': State, t: Tid)
    requires Inv(s) && Can(s, TryLock(t)) && s' == TryLockOf(s, t)
    ensures Inv(s')
  {
    if s.owner == NIL {
      NoOwner(s);
      TakenInv(s, s', t);
    }
  }

  lemma {:induction false} ResumeInv(s: State, s': State, t: Tid)
    requires Inv(s) && Can(s, Resume(t))
    requires s' == To(s, t, if s.owner == t then Owning else Fault).(signalled := s.signalled - {t})
    ensures Inv(s')
  {
    assert ThreadOk(s, t);
    LinkedKept(s, s', Full(s));
    forall u
      ensures ThreadOk(s', u)
    {
      assert ThreadOk(s, u);
    }
  }

  // ---------- the walk ----------

  lemma {:induction false} WalkLinked(s: State, s': State, q: seq<Tid>, j: nat)
    requires Linked(s, q) && 0 < j < |q|
    requires s'.prev == s.prev[q[j - 1] := q[j]] && s'.next == s.next && s'.signalled == s.signalled
    requires forall x :: x in q ==> At(s', x) == At(s, x)
    ensures Linked(s', q)
  {
    forall i | 0 <= i < |q|
      ensures LinkOk(s', q, i)
    {
      assert LinkOk(s, q, i);
      assert q[i] in q;
    }
  }

  lemma {:induction false} FullIsLine(s: State)
    requires s.tail == []
    ensures Full(s) == s.line
  {
  }

  lemma {:induction false} WalkChain(s: State, s': State, t: Tid, j: nat)
    requires ChainOk(s) && s.tail == [] && At(s, t) != Blocked && 0 < j < |s.line|
    requires s' == To(s, t, At(s', t)).(prev := s.prev[s.line[j - 1] := s.line[j]])
    ensures ChainOk(s')
  {
    NotLinked(s, t);
    FullIsLine(s);
    FullIsLine(s');
    WalkLinked(s, s', s.line, j);
  }

  lemma {:induction false} StepWalkFinds(s: State, cur: Tid, j: nat)
    requires ChainOk(s) && s.tail == [] && j < |s.line| && s.line[j] == cur
    ensures Next(s, cur) == if j == 0 then NIL else s.line[j - 1]
    ensures j > 0 ==> s.line[j - 1] < NIL && At(s, s.line[j - 1]) == Blocked
    ensures j > 0 ==> Prev(s, s.line[j - 1]) == NIL || Prev(s, s.line[j - 1]) == cur
  {
    assert Full(s) == s.line;
    LinkAt(s, j);
    if j > 0 {
      LinkAt(s, j - 1);
    }
  }

  lemma {:induction false} StepWalkInv(s: State, s': State, t: Tid)
    requires Inv(s) && Can(s, StepWalk(t)) && s' == StepWalkOf(s, t)
    ensures Inv(s')
  {
    var p := At(s, t);
    assert ThreadOk(s, t);
    OwnerAwake(s, t);
    StepWalkFinds(s, p.cur, p.j);
    if p.j == 0 {
      forall i | BackLink(s, i)
        ensures BackLink(s', i)
      {
      }
      MovedInv(s, s', t, Swap(p.seen, Some(p.cur), p.m));
    } else {
      WalkChain(s, s', t, p.j);
      WalkThreads(s, s', t, p.j);
    }
  }

  lemma {:induction false} WalkThreads(s: State, s': State, t: Tid, j: nat)
    requires Inv(s) && At(s, t).Walk? && At(s, t).j == j && 0 < j < |s.line|
    requires s.owner == t && s.giver == None
    requires At(s, s.line[j - 1]) == Blocked
    requires s' == To(s, t, Walk(At(s, t).seen, s.line[j - 1], At(s, t).m, j - 1))
                     .(prev := s.prev[s.line[j - 1] := s.line[j]])
    ensures forall u :: ThreadOk(s', u)
  {
    assert ThreadOk(s, t);
    assert s.line[j - 1] in s.line;
    forall i | j - 1 <= i < At(s, t).m
      ensures BackLink(s', i)
    {
      if i >= j {
        assert BackLink(s, i);
        assert s.line[i] != s.line[j - 1] by {
          assert Full(s)[|s.tail| + i] == s.line[i] && Full(s)[|s.tail| + j - 1] == s.line[j - 1];
        }
      }
    }
    forall u
      ensures ThreadOk(s', u)
    {
      assert ThreadOk(s, u);
    }
  }

  // ---------- handing over ----------

  /** One swap makes the oldest waiter the owner; it stays linked, behind the others, until it is taken out. */
  lemma {:induction false} HandOverChain(s: State, s': State, t: Tid, h: Tid)
    requires ChainOk(s) && s.tail == [] && At(s, t) != Blocked && s.line != [] && h == s.line[0]
    requires s'.pc == s.pc[t := Unlink(h)] && s'.next == s.next && s'.prev == s.prev
    requires s'.signalled == s.signalled && s'.owner == h && s'.giver == Some(t)
    requires s'.line == s.line[1..] && s'.tail == if |s.line| == 1 then [] else [h]
    requires s'.waitq == if s.waitq == h then NIL else s.waitq
    ensures ChainOk(s')
  {
    NotLinked(s, t);
    FullIsLine(s);
    if |s.line| > 1 {
      assert Full(s') == s.line;
      LinkedKept(s, s', s.line);
    }
  }

  lemma {:induction false} HandOverThreads(s: State, s': State, t: Tid, h: Tid, m: nat)
    requires Inv(s) && s.owner == t && s.tail == [] && s.giver == None && s.line != [] && h == s.line[0]
    requires m == |s.line| - 1 && At(s, t) == Swap(s.line[m], Some(h), m)
    requires s'.pc == s.pc[t := Unlink(h)] && s'.next == s.next && s'.prev == s.prev
    requires s'.signalled == s.signalled && s'.owner == h && s'.giver == Some(t)
    requires s'.line == s.line[1..] && s'.tail == if |s.line| == 1 then [] else [h]
    ensures forall u :: ThreadOk(s', u)
  {
    assert ThreadOk(s, t);
    assert Full(s) == s.line;
    LinkAt(s, 0);
    assert s.line == [h] + s.line[1..];
    if m > 0 {
      assert BackLink(s, 0);
    }
    forall u
      ensures ThreadOk(s', u)
    {
      assert ThreadOk(s, u);
    }
  }

  lemma {:induction false} HandOverInv(s: State, s': State, t: Tid, h: Tid)
    requires Inv(s) && At(s, t).Swap? && At(s, t).found == Some(h) && s.waitq == At(s, t).seen && s.owner == t
    requires s' == SwapOf(s, t)
    ensures Inv(s')
  {
    var p := At(s, t);
    assert ThreadOk(s, t);
    OwnerAwake(s, t);
    assert Full(s) == s.line;
    assert p.m == |s.line| - 1;
    LinkAt(s, 0);
    HandOverChain(s, s', t, h);
    HandOverOrder(s, s', h);
    HandOverThreads(s, s', t, h, p.m);
  }

  lemma {:induction false} HandOverOrder(s: State, s': State, h: Tid)
    requires OwnerOk(s) && s.line != [] && h == s.line[0] && h < NIL && Distinct(s.line)
    requires s'.line == s.line[1..] && s'.owner == h && s'.owned == s.owned + [h] && s'.arrived == s.arrived
    ensures OwnerOk(s')
  {
    assert s.line == [h] + s.line[1..];
  }

  lemma {:induction false} FreeInv(s: State, s': State, t: Tid)
    requires Inv(s) && At(s, t).Swap? && s.owner == t && s.line == []
    requires s' == To(s, t, Idle).(owner := NIL)
    ensures Inv(s')
  {
    assert ThreadOk(s, t) && ThreadOk(s, NIL);
    OwnerAwake(s, t);
    ChainKept(s, s', t);
    forall u
      ensures ThreadOk(s', u)
    {
      assert ThreadOk(s, u);
    }
  }

  lemma {:induction false} SwapInv(s: State, s': State, t: Tid)
    requires Inv(s) && Can(s, DoSwap(t)) && s' == SwapOf(s, t)
    ensures Inv(s')
  {
    var p := At(s, t);
    assert ThreadOk(s, t);
    if s.waitq != p.seen {
      ReadWordInv(s, s', t);
    } else if p.found.Some? {
      HandOverInv(s, s', t, p.found.value);
    } else {
      if s.line != [] {
        LineAt(s, |s.line| - 1);
      }
      FreeInv(s, s', t);
    }
  }

  // ---------- unlinking and waking ----------

  lemma {:induction false} UnlinkLinked(s: State, s': State, h: Tid, q: seq<Tid>)
    requires Linked(s, [h] + q) && q != []
    requires s'.next == s.next[q[0] := NIL][h := NIL] && s'.prev == s.prev[h := NIL]
    requires s'.signalled == s.signalled && forall x :: x in q ==> At(s', x) == At(s, x)
    ensures Linked(s', q)
  {
    var f := [h] + q;
    assert forall i :: 0 <= i < |q| ==> q[i] == f[i + 1];
    forall i | 0 <= i < |q|
      ensures LinkOk(s', q, i)
    {
      assert LinkOk(s, f, i + 1);
      assert q[i] in q && f[0] == h;
    }
  }

  lemma {:induction false} UnlinkChain(s: State, s': State, t: Tid, h: Tid)
    requires ChainOk(s) && At(s, t) == Unlink(h) && s.owner == h && s.tail == [h]
    requires s'.pc == s.pc[t := Wake(h)] && s'.signalled == s.signalled && s'.owner == h
    requires s'.next == s.next[s.line[0] := NIL][h := NIL] && s'.prev == s.prev[h := NIL]
    requires s'.line == s.line && s'.tail == [] && s'.waitq == s.waitq
    ensures ChainOk(s')
  {
    NotLinked(s, t);
    FullIsLine(s');
    UnlinkLinked(s, s', h, s.line);
  }

  lemma {:induction false} UnlinkThreads(s: State, s': State, t: Tid, h: Tid)
    requires Inv(s) && At(s, t) == Unlink(h) && s.owner == h && At(s, h) == Blocked
    requires s' == To(s, t, Wake(h)).(next := s'.next, prev := s'.prev, tail := [])
    requires Next(s', h) == NIL && Prev(s', h) == NIL
    requires forall u :: At(s, u) != Blocked ==> Next(s', u) == NIL && Prev(s', u) == NIL
    ensures forall u :: ThreadOk(s', u)
  {
    forall u
      ensures ThreadOk(s', u)
    {
      assert ThreadOk(s, u) && ThreadOk(s, t) && ThreadOk(s, h);
    }
  }

  lemma {:induction false} UnlinkFacts(s: State, t: Tid, h: Tid)
    requires Inv(s) && At(s, t) == Unlink(h)
    ensures s.owner == h && At(s, h) == Blocked && Next(s, h) == NIL && h < NIL && s.giver == Some(t)
    ensures s.tail == [] ==> Prev(s, h) == NIL
    ensures s.tail != [] ==> s.tail == [h] && s.line != [] && Prev(s, h) == s.line[0]
    ensures s.tail != [] ==> Next(s, s.line[0]) == h && At(s, s.line[0]) == Blocked && s.line[0] < NIL
    ensures forall u :: At(s, u) != Blocked ==> Next(s, u) == NIL && Prev(s, u) == NIL
  {
    assert ThreadOk(s, t);
    if s.tail != [] {
      LinkAt(s, 0);
      LinkAt(s, 1);
    }
    forall u | At(s, u) != Blocked
      ensures Next(s, u) == NIL && Prev(s, u) == NIL
    {
      assert ThreadOk(s, u);
    }
  }

  lemma {:induction false} UnlinkInv(s: State, s': State, t: Tid)
    requires Inv(s) && Can(s, DoUnlink(t)) && s' == UnlinkOf(s, t)
    ensures Inv(s')
  {
    var h := At(s, t).heir;
    UnlinkFacts(s, t, h);
    if s.tail == [] {
      UnlinkAlone(s, s', t, h);
    } else {
      UnlinkChain(s, s', t, h);
    }
    UnlinkThreads(s, s', t, h);
  }

  lemma {:induction false} UnlinkAlone(s: State, s': State, t: Tid, h: Tid)
    requires ChainOk(s) && At(s, t) == Unlink(h) && s.owner == h && s.tail == [] && h !in s.line
    requires s'.pc == s.pc[t := Wake(h)] && s'.signalled == s.signalled && s'.owner == h
    requires s'.next == s.next[h := NIL] && s'.prev == s.prev[h := NIL]
    requires s'.line == s.line && s'.tail == [] && s'.waitq == s.waitq
    ensures ChainOk(s')
  {
    NotLinked(s, t);
    FullIsLine(s);
    FullIsLine(s');
    LinkedKept(s, s', s.line);
  }

  lemma {:induction false} SignalInv(s: State, s': State, t: Tid)
    requires Inv(s) && Can(s, Signal(t))
    requires s' == To(s, t, Idle).(signalled := s.signalled + {At(s, t).heir}, giver := None)
    ensures Inv(s')
  {
    var h := At(s, t).heir;
    assert ThreadOk(s, t) && ThreadOk(s, h);
    NotLinked(s, t);
    FullIsLine(s);
    FullIsLine(s');
    LinkedKept(s, s', s.line);
    forall u
      ensures ThreadOk(s', u)
    {
      assert ThreadOk(s, u);
    }
  }

  // ---------- runs ----------

  lemma {:induction false} StepInv(s: State, a: Action, s': State)
    requires Inv(s) && Can(s, a) && s' == Do(s, a)
    ensures Inv(s')
  {
    match a
    case TryLock(t) => TryLockInv(s, s', t);
    case Lock(t) => LockInv(s, s', t);
    case Resume(t) => ResumeInv(s, s', t);
    case StartUnlock(t) => StartUnlockInv(s, s', t);
    case ReadWord(t) => ReadWordInv(s, s', t);
    case StepWalk(t) => StepWalkInv(s, s', t);
    case DoSwap(t) => SwapInv(s, s', t);
    case DoUnlink(t) => UnlinkInv(s, s', t);
    case Signal(t) => SignalInv(s, s', t);
  }

  lemma {:induction false} StartUnlockInv(s: State, s': State, t: Tid)
    requires Inv(s) && At(s, t).Owning? && s' == To(s, t, Unlock)
    ensures Inv(s')
  {
    assert ThreadOk(s, t);
    MovedInv(s, s', t, Unlock);
  }

  lemma {:induction false} RunInv(ss: seq<State>, acts: seq<Action>, k: nat)
    requires Run(ss, acts) && k < |ss|
    ensures Inv(ss[k])
  {
    if k > 0 {
      RunInv(ss, acts, k - 1);
      StepInv(ss[k - 1], acts[k - 1], ss[k]);
    }
  }

  /** No assertion of the source fails, one thread at most holds the mutex, and no owner means no queue. */
  lemma {:induction false} Exclusion(ss: seq<State>, acts: seq<Action>, k: nat, t: Tid, u: Tid)
    requires Run(ss, acts) && k < |ss|
    ensures var s := ss[k];
      && !At(s, t).Fault?
      && (Holds(At(s, t)) && Holds(At(s, u)) ==> t == u)
      && (Holds(At(s, t)) ==> s.owner == t)
      && (s.owner == NIL ==> s.line == [] && s.waitq == NIL)
  {
    RunInv(ss, acts, k);
    assert ThreadOk(ss[k], t) && ThreadOk(ss[k], u);
  }

  /**
   * The `next` links from the word are the waiters, newest first, with the new owner as one more last
   * node until it is unlinked; and every `prev` link that is set leads back over a `next` link.
   */
  lemma {:induction false} LinksInvert(ss: seq<State>, acts: seq<Action>, k: nat, i: nat)
    requires Run(ss, acts) && k < |ss| && i < |Full(ss[k])|
    ensures var s, q := ss[k], Full(ss[k]);
      && s.waitq == (if s.line == [] then NIL else s.line[|s.line| - 1])
      && Next(s, q[i]) == (if i == 0 then NIL else q[i - 1])
      && (Prev(s, q[i]) != NIL ==> Next(s, Prev(s, q[i])) == q[i])
      && (s.tail != [] ==> s.tail == [s.owner])
  {
    RunInv(ss, acts, k);
    LinkAt(ss[k], i);
    if i + 1 < |Full(ss[k])| {
      LinkAt(ss[k], i + 1);
    }
  }

  /** Threads come to own the mutex in the order in which they arrived at it. */
  lemma {:induction false} HandOverIsFifo(ss: seq<State>, acts: seq<Action>, k: nat)
    requires Run(ss, acts) && k < |ss|
    ensures ss[k].arrived == ss[k].owned + ss[k].line
    ensures ss[k].owner != NIL ==> ss[k].owned != [] && ss[k].owned[|ss[k].owned| - 1] == ss[k].owner
  {
    RunInv(ss, acts, k);
  }

  /** A blocked thread waits in line, or owns the mutex and has been or is being woken. */
  lemma {:induction false} SleeperIsKept(ss: seq<State>, acts: seq<Action>, k: nat, t: Tid)
    requires Run(ss, acts) && k < |ss| && At(ss[k], t) == Blocked
    ensures var s := ss[k];
      if s.owner != t then t in s.line
      else t in s.signalled || (s.giver.Some? && (At(s, s.giver.value) == Unlink(t) || At(s, s.giver.value) == Wake(t)))
  {
    RunInv(ss, acts, k);
    assert ThreadOk(ss[k], t);
  }

  // ---------- the walk as a loop ----------

  /** Oldest first: each link leads to the next older waiter, and the links back are unset or right. */
  predicate Chained(next: seq<nat>, prev: seq<nat>, q: seq<Tid>) {
    && |prev| == |next| <= NIL && Distinct(q)
    && (forall i :: 0 <= i < |q| ==> q[i] < |next|)
    && (forall i :: 0 <= i < |q| ==> OlderIs(next, q, i))
  }

  predicate OlderIs(next: seq<nat>, q: seq<Tid>, i: nat)
    requires i < |q|
  {
    q[i] < |next| && next[q[i]] == if i == 0 then NIL else q[i - 1]
  }

  /** The walk fills in every link back and ends at the oldest waiter. */
  method SetupPrev(ghost q: seq<Tid>, next: array<nat>, prev: array<nat>, id: nat) returns (last: Option<Tid>)
    requires next != prev && Chained(next[..], prev[..], q)
    requires id == if q == [] then NIL else q[|q| - 1]
    modifies prev
    ensures q == [] ==> last == None
    ensures q != [] ==> last == Some(q[0])
    ensures forall i :: 0 <= i < |q| - 1 ==> prev[q[i]] == q[i + 1]
    ensures forall x :: 0 <= x < prev.Length && x !in q[..if q == [] then 0 else |q| - 1] ==> prev[x] == old(prev[x])
  {
    if id == NIL {
      return None;
    }
    var waiter := id;
    ghost var j, links := |q| - 1, next[..];
    assert OlderIs(links, q, j);
    while next[waiter] != NIL
      invariant 0 <= j < |q| && waiter == q[j]
      invariant next[..] == links && links[waiter] == if j == 0 then NIL else q[j - 1]
      invariant forall i :: j <= i < |q| - 1 ==> prev[q[i]] == q[i + 1]
      invariant forall x :: 0 <= x < prev.Length && x !in q[..|q| - 1] ==> prev[x] == old(prev[x])
      decreases j
    {
      var n := next[waiter];
      assert n == q[j - 1] && n in q[..|q| - 1];
      prev[n] := waiter;
      waiter := n;
      j := j - 1;
      assert OlderIs(links, q, j);
    }
    last := Some(waiter);
  }
}
