/** What holds of pins, masks and wait ids in every run. */
module AtomicPinsRuns {
  import opened Base
  import opened AtomicPins

  /** What a program counter says about element `e`. */
  function PcOn(p: Pc, e: Id): Pc {
    if p.Idle? || p.Fault? || p.e != e then Idle else p
  }

  predicate Removes(p: Pc) {
    p.Masked? || p.Removing? || p.Waiting? || p.Deleting? || p.Unlinking?
  }

  predicate Inserts(p: Pc) {
    p.Insert? || p.Expose?
  }

  function Top(q: seq<Tid>): Option<Tid> {
    if q == [] then None else Some(q[0])
  }

  /** The word of a masked element, by how far its remover has come. */
  predicate MaskedOk(r: Ref, it: seq<Tid>, p: Pc, woken: bool) {
    && Removes(p)
    && (if p.Removing? || (p.Masked? && p.more) then r.wait == None && it == [] && r.pins > 0
        else if p.Waiting? && !woken then r.wait.Some? && it == [] && r.pins > 0
        else r.pins == 0 && r.wait == Top(it))
  }

  predicate ElemOk(s: State, e: Id) {
    var r, it := RefOf(s, e), Iters(s, e);
    && |Holds(s, e)| == r.pins
    && (e !in s.linked ==> r.mask && r.wait == None && it == [] && e !in s.remover)
    && (e in s.linked && !r.mask ==> r.wait == None && it == [] && e !in s.remover && e in s.counted)
    && (e in s.linked && r.mask ==>
          && e in s.remover
          && var t := s.remover[e];
          && MaskedOk(r, it, PcOn(At(s, t), e), t in s.woken)
          && (PcOn(At(s, t), e).Waiting? && t !in s.woken ==> r.wait == Some(t))
          && (PcOn(At(s, t), e).Removing? || PcOn(At(s, t), e) == Masked(e, true) ==> t in Holds(s, e)))
  }

  predicate ThreadOk(s: State, t: Tid) {
    var p := At(s, t);
    && !p.Fault?
    && (t in s.woken ==> p.Waiting? || p.Deferred?)
    && (Removes(p) ==> p.e in s.linked && RefOf(s, p.e).mask && p.e in s.remover && s.remover[p.e] == t)
    && (p.Masked? ==> p.e in s.counted)
    && (Removes(p) && !p.Masked? ==> p.e !in s.counted)
    && (Inserts(p) ==> p.e !in s.linked && RefOf(s, p.e).pins == if p.pinned then 1 else 0)
    && (p.Insert? ==> p.e !in s.counted)
    && (p.Expose? ==> p.e in s.counted)
    && (p.Walking? ==> p.e in s.linked && RefOf(s, p.e).mask && p.e in s.remover
                       && At(s, s.remover[p.e]) != Unlinking(p.e))
    && (p.Deferred? && t !in s.woken ==> t in Iters(s, p.e))
  }

  /** Who holds a pin, and who waits behind a wait id. */
  predicate HoldOk(s: State, t: Tid, e: Id) {
    && (t in Holds(s, e) ==> e in s.linked || Inserts(PcOn(At(s, t), e)))
    && (t in Iters(s, e) ==> At(s, t) == Deferred(e) && t !in s.woken)
  }

  /** An element being inserted is no one else's business; one being unlinked has no counted place. */
  predicate PairOk(s: State, t: Tid, u: Tid) {
    t != u && Inserts(At(s, t)) ==> Clear(s, u, At(s, t).e)
  }

  /** What the count includes is listed, or about to be. */
  ghost predicate CountedOk(s: State, e: Id) {
    e in s.counted && e !in s.linked ==> exists t :: At(s, t).Expose? && At(s, t).e == e
  }

  ghost predicate Inv(s: State) {
    && s.count == |s.counted|
    && (forall e :: ElemOk(s, e))
    && (forall e :: CountedOk(s, e))
    && (forall t :: ThreadOk(s, t))
    && (forall t, e :: HoldOk(s, t, e))
    && (forall t, u :: PairOk(s, t, u))
  }

  lemma {:induction false} InvAt(s: State, t: Tid, u: Tid, e: Id)
    requires Inv(s)
    ensures ElemOk(s, e) && CountedOk(s, e) && ThreadOk(s, t) && ThreadOk(s, u)
    ensures HoldOk(s, t, e) && HoldOk(s, u, e) && PairOk(s, t, u) && PairOk(s, u, t)
  {
  }

  // ---------- elements and threads that a step does not concern ----------

  lemma {:induction false} ElemSame(s: State, s': State, t: Tid, e: Id)
    requires ElemOk(s, e) && RefOf(s', e) == RefOf(s, e) && Holds(s', e) == Holds(s, e) && Iters(s', e) == Iters(s, e)
    requires (e in s'.linked <==> e in s.linked) && (e in s.counted ==> e in s'.counted || RefOf(s, e).mask)
    requires (e in s'.remover <==> e in s.remover) && (e in s.remover ==> s'.remover[e] == s.remover[e])
    requires s'.pc == s.pc[t := At(s', t)] && PcOn(At(s', t), e) == PcOn(At(s, t), e)
    requires e in s.remover && PcOn(At(s, s.remover[e]), e).Waiting? ==>
      (s.remover[e] in s'.woken <==> s.remover[e] in s.woken)
    ensures ElemOk(s', e)
  {
  }

  /** A step of `t` about element `e` alone. */
  predicate About(s: State, s': State, t: Tid, e: Id) {
    && s'.pc == s.pc[t := At(s', t)]
    && (At(s, t).Idle? || (!At(s, t).Fault? && At(s, t).e == e))
    && (At(s', t).Idle? || (!At(s', t).Fault? && At(s', t).e == e))
    && s'.linked - {e} == s.linked - {e} && s'.counted - {e} == s.counted - {e}
  }

  ghost predicate SameElse(s: State, s': State, e: Id) {
    forall d :: d != e ==>
      && RefOf(s', d) == RefOf(s, d) && Holds(s', d) == Holds(s, d) && Iters(s', d) == Iters(s, d)
      && (d in s'.remover <==> d in s.remover) && (d in s.remover ==> s'.remover[d] == s.remover[d])
      && (d in s'.linked <==> d in s.linked) && (d in s'.counted <==> d in s.counted)
  }

  lemma {:induction false} OtherElems(s: State, s': State, t: Tid, e: Id)
    requires Inv(s) && About(s, s', t, e) && SameElse(s, s', e)
    requires forall u :: (u in s'.woken <==> u in s.woken) || PcOn(At(s, u), e) != Idle
    ensures forall d :: d != e ==> ElemOk(s', d)
  {
    forall d | d != e
      ensures ElemOk(s', d)
    {
      InvAt(s, t, t, d);
      ElemSame(s, s', t, d);
    }
  }

  /** The other threads: what one of them relies on about `e` must be kept. */
  predicate Keeps(s: State, s': State, t: Tid, u: Tid, e: Id) {
    var p := PcOn(At(s, u), e);
    && (u in s'.woken ==> u in s.woken || p.Waiting? || p.Deferred?)
    && (u in s.woken ==> u in s'.woken)
    && (Removes(p) ==> e in s'.linked && RefOf(s', e).mask && e in s'.remover && s'.remover[e] == u)
    && (Removes(p) ==> (e in s'.counted <==> e in s.counted))
    && (Inserts(p) ==>
          && At(s', t).Idle? && RefOf(s', e) == RefOf(s, e)
          && (e in s'.linked <==> e in s.linked) && (e in s'.counted <==> e in s.counted))
    && (p.Walking? ==> e in s'.linked && RefOf(s', e).mask && e in s'.remover && At(s', s'.remover[e]) != Unlinking(e))
    && (p.Deferred? && u in Iters(s, e) ==> u in s'.woken || u in Iters(s', e))
    && (u in Holds(s', e) ==> e in s'.linked || Inserts(p))
    && (u in Iters(s', e) ==> p.Deferred? && u !in s'.woken)
  }

  lemma {:induction false} OtherThread(s: State, s': State, t: Tid, u: Tid, e: Id)
    requires ThreadOk(s, u) && u != t && About(s, s', t, e) && SameElse(s, s', e) && Keeps(s, s', t, u, e)
    ensures ThreadOk(s', u)
  {
  }

  lemma {:induction false} OtherCounted(s: State, s': State, t: Tid, e: Id, d: Id)
    requires CountedOk(s, d) && d != e && About(s, s', t, e) && SameElse(s, s', e)
    ensures CountedOk(s', d)
  {
    if d in s.counted && d !in s.linked {
      var w :| At(s, w).Expose? && At(s, w).e == d;
      assert At(s', w).Expose? && At(s', w).e == d;
    }
  }

  lemma {:induction false} OtherHold(s: State, s': State, t: Tid, e: Id, u: Tid, d: Id)
    requires HoldOk(s, u, d) && About(s, s', t, e) && SameElse(s, s', e) && (u != t || d != e)
    requires u != t ==> Keeps(s, s', t, u, e)
    ensures HoldOk(s', u, d)
  {
  }

  lemma {:induction false} OtherPair(s: State, s': State, t: Tid, e: Id, u: Tid, v: Tid)
    requires PairOk(s, u, v) && About(s, s', t, e)
    requires u != t ==> Keeps(s, s', t, u, e)
    requires v != t ==> Keeps(s, s', t, v, e)
    requires Inserts(At(s', t)) && v != t ==> Clear(s, v, e)
    ensures PairOk(s', u, v)
  {
  }

  lemma {:induction false} StepInvFrom(s: State, s': State, t: Tid, e: Id)
    requires Inv(s) && About(s, s', t, e) && SameElse(s, s', e)
    requires ElemOk(s', e) && CountedOk(s', e) && ThreadOk(s', t) && HoldOk(s', t, e)
    requires s'.count == |s'.counted|
    requires forall u :: u != t ==> Keeps(s, s', t, u, e)
    requires Inserts(At(s', t)) ==> forall u :: u != t ==> Clear(s, u, e)
    requires (t in s'.woken <==> t in s.woken) || PcOn(At(s, t), e) != Idle
    ensures Inv(s')
  {
    forall u
      ensures (u in s'.woken <==> u in s.woken) || PcOn(At(s, u), e) != Idle
    {
      assert u != t ==> Keeps(s, s', t, u, e);
    }
    OtherElems(s, s', t, e);
    forall d
      ensures CountedOk(s', d)
    {
      if d != e {
        InvAt(s, t, t, d);
        OtherCounted(s, s', t, e, d);
      }
    }
    forall u
      ensures ThreadOk(s', u)
    {
      if u != t {
        InvAt(s, t, u, e);
        OtherThread(s, s', t, u, e);
      }
    }
    forall u, d
      ensures HoldOk(s', u, d)
    {
      InvAt(s, u, t, d);
      if u != t || d != e {
        OtherHold(s, s', t, e, u, d);
      }
    }
    forall u, v
      ensures PairOk(s', u, v)
    {
      InvAt(s, u, v, e);
      OtherPair(s, s', t, e, u, v);
    }
  }

  // ---------- facts about one element ----------

  lemma {:induction false} SizeOne(h: multiset<Tid>, t: Tid, u: Tid)
    requires t in h && u in h && |h| == 1
    ensures t == u
  {
    assert h == multiset{t} + (h - multiset{t});
  }

  lemma {:induction false} SizeLess(h: multiset<Tid>, t: Tid)
    requires t in h
    ensures |h - multiset{t}| == |h| - 1 && |h| >= 1
    ensures forall u :: u != t ==> (u in h - multiset{t} <==> u in h)
  {
    assert h == multiset{t} + (h - multiset{t});
  }

  /** A pin holder that is not in the middle of a call holds a listed element. */
  lemma {:induction false} HolderFacts(s: State, t: Tid, e: Id)
    requires Inv(s) && At(s, t).Idle? && t in Holds(s, e)
    ensures e in s.linked && RefOf(s, e).pins >= 1 && |Holds(s, e)| == RefOf(s, e).pins
    ensures RefOf(s, e).mask && RefOf(s, e).pins == 1 ==>
      && e in s.remover && At(s, s.remover[e]) == Waiting(e) && s.remover[e] !in s.woken
      && RefOf(s, e).wait == Some(s.remover[e]) && Iters(s, e) == []
    ensures RefOf(s, e).mask ==> e in s.remover && s.remover[e] != t
  {
    InvAt(s, t, t, e);
    SizeLess(Holds(s, e), t);
    if RefOf(s, e).mask {
      var r := s.remover[e];
      if RefOf(s, e).pins == 1 && r in Holds(s, e) {
        SizeOne(Holds(s, e), t, r);
      }
    }
  }

  // ---------- the steps ----------

  lemma {:induction false} StartInsertKeeps(s: State, s': State, t: Tid, e: Id, pinned: bool)
    requires Inv(s) && Can(s, StartInsert(t, e, pinned)) && s' == StartInsertOf(s, t, e, pinned)
    ensures forall u :: u != t ==> Keeps(s, s', t, u, e)
  {
    forall u | u != t
      ensures Keeps(s, s', t, u, e)
    {
      InvAt(s, t, u, e);
      assert Clear(s, u, e);
    }
  }

  lemma {:induction false} InsertAlone(s: State, t: Tid, e: Id, pinned: bool)
    requires Inv(s) && Can(s, StartInsert(t, e, pinned))
    ensures (forall u :: Clear(s, u, e)) && e !in s.counted && t !in s.woken
    ensures e !in s.linked && Iters(s, e) == [] && e !in s.remover
  {
    InvAt(s, t, t, e);
    forall w
      ensures !(At(s, w).Expose? && At(s, w).e == e)
    {
      assert Clear(s, w, e);
    }
  }

  lemma {:induction false} StartInsertSelf(s: State, s': State, t: Tid, e: Id, pinned: bool)
    requires e !in s.counted && t !in s.woken && e !in s.linked && Iters(s, e) == [] && e !in s.remover
    requires s' == StartInsertOf(s, t, e, pinned)
    ensures ElemOk(s', e) && CountedOk(s', e) && ThreadOk(s', t) && HoldOk(s', t, e)
  {
  }

  lemma {:induction false} StartInsertInv(s: State, s': State, t: Tid, e: Id, pinned: bool)
    requires Inv(s) && Can(s, StartInsert(t, e, pinned)) && s' == StartInsertOf(s, t, e, pinned)
    ensures Inv(s')
  {
    InsertAlone(s, t, e, pinned);
    StartInsertSelf(s, s', t, e, pinned);
    StartInsertKeeps(s, s', t, e, pinned);
    StepInvFrom(s, s', t, e);
  }

  lemma {:induction false} PinInv(s: State, s': State, t: Tid, e: Id)
    requires Inv(s) && Can(s, Pin(t, e)) && s' == PinOf(s, t, e)
    ensures Inv(s')
  {
    if !RefOf(s, e).mask {
      InvAt(s, t, t, e);
      forall u | u != t
        ensures Keeps(s, s', t, u, e)
      {
        InvAt(s, t, u, e);
      }
      StepInvFrom(s, s', t, e);
    }
  }

  lemma {:induction false} LastUnpinKeeps(s: State, s': State, t: Tid, e: Id)
    requires Inv(s) && Can(s, Unpin(t, e)) && RefOf(s, e).mask && RefOf(s, e).pins == 1 && RefOf(s, e).wait.Some?
    requires s' == To(Put(s, e, Ref(0, true, None), Holds(s, e) - multiset{t}), t, Idle)
                     .(woken := s.woken + {RefOf(s, e).wait.value})
    ensures forall u :: u != t ==> Keeps(s, s', t, u, e)
  {
    InvAt(s, t, t, e);
    HolderFacts(s, t, e);
    SizeLess(Holds(s, e), t);
    forall u | u != t
      ensures Keeps(s, s', t, u, e)
    {
      InvAt(s, t, u, e);
    }
  }

  lemma {:induction false} LastUnpinInv(s: State, s': State, t: Tid, e: Id)
    requires Inv(s) && Can(s, Unpin(t, e)) && RefOf(s, e).mask && RefOf(s, e).pins == 1 && RefOf(s, e).wait.Some?
    requires s' == To(Put(s, e, Ref(0, true, None), Holds(s, e) - multiset{t}), t, Idle)
                     .(woken := s.woken + {RefOf(s, e).wait.value})
    ensures Inv(s')
  {
    InvAt(s, t, t, e);
    HolderFacts(s, t, e);
    SizeLess(Holds(s, e), t);
    LastUnpinKeeps(s, s', t, e);
    StepInvFrom(s, s', t, e);
  }

  lemma {:induction false} MereUnpinKeeps(s: State, s': State, t: Tid, e: Id)
    requires Inv(s) && Can(s, Unpin(t, e)) && RefOf(s, e).pins >= 1 && !(RefOf(s, e).mask && RefOf(s, e).pins == 1)
    requires s' == To(Put(s, e, RefOf(s, e).(pins := RefOf(s, e).pins - 1), Holds(s, e) - multiset{t}), t, Idle)
    ensures forall u :: u != t ==> Keeps(s, s', t, u, e)
  {
    InvAt(s, t, t, e);
    HolderFacts(s, t, e);
    SizeLess(Holds(s, e), t);
    forall u | u != t
      ensures Keeps(s, s', t, u, e)
    {
      InvAt(s, t, u, e);
    }
  }

  lemma {:induction false} MereUnpinInv(s: State, s': State, t: Tid, e: Id)
    requires Inv(s) && Can(s, Unpin(t, e)) && RefOf(s, e).pins >= 1 && !(RefOf(s, e).mask && RefOf(s, e).pins == 1)
    requires s' == To(Put(s, e, RefOf(s, e).(pins := RefOf(s, e).pins - 1), Holds(s, e) - multiset{t}), t, Idle)
    ensures Inv(s')
  {
    InvAt(s, t, t, e);
    HolderFacts(s, t, e);
    SizeLess(Holds(s, e), t);
    MereUnpinKeeps(s, s', t, e);
    StepInvFrom(s, s', t, e);
  }

  lemma {:induction false} UnpinInv(s: State, s': State, t: Tid, e: Id)
    requires Inv(s) && Can(s, Unpin(t, e)) && s' == UnpinOf(s, t, e)
    ensures Inv(s')
  {
    HolderFacts(s, t, e);
    if RefOf(s, e).mask && RefOf(s, e).pins == 1 {
      LastUnpinInv(s, s', t, e);
    } else {
      MereUnpinInv(s, s', t, e);
    }
  }

  lemma {:induction false} MaskKeeps(s: State, s': State, t: Tid, e: Id, more: bool, h: multiset<Tid>, n: nat)
    requires Inv(s) && Can(s, StartRemove(t, e)) && !RefOf(s, e).mask && e in s.linked
    requires h <= Holds(s, e)
    requires s' == To(Put(s, e, RefOf(s, e).(mask := true, pins := n), h), t, Masked(e, more)).(remover := s.remover[e := t])
    ensures forall u :: u != t ==> Keeps(s, s', t, u, e)
  {
    forall u | u != t
      ensures Keeps(s, s', t, u, e)
    {
      InvAt(s, t, u, e);
    }
  }

  lemma {:induction false} MaskInv(s: State, s': State, t: Tid, e: Id, more: bool, h: multiset<Tid>, n: nat)
    requires Inv(s) && Can(s, StartRemove(t, e)) && !RefOf(s, e).mask && e in s.linked
    requires h <= Holds(s, e) && |h| == n && (if more then n > 0 && t in h else n == 0)
    requires s' == To(Put(s, e, RefOf(s, e).(mask := true, pins := n), h), t, Masked(e, more)).(remover := s.remover[e := t])
    ensures Inv(s')
  {
    InvAt(s, t, t, e);
    MaskKeeps(s, s', t, e, more, h, n);
    StepInvFrom(s, s', t, e);
  }

  lemma {:induction false} StartRemoveInv(s: State, s': State, t: Tid, e: Id)
    requires Inv(s) && Can(s, StartRemove(t, e)) && s' == StartRemoveOf(s, t, e)
    ensures Inv(s')
  {
    var r, h := RefOf(s, e), Holds(s, e);
    if !r.mask {
      HolderFacts(s, t, e);
      SizeLess(h, t);
      if r.pins == 1 {
        MaskInv(s, s', t, e, false, h - multiset{t}, 0);
      } else {
        MaskInv(s, s', t, e, true, h, r.pins);
      }
    }
  }

  lemma {:induction false} WalkKeeps(s: State, s': State, t: Tid, e: Id, p': Pc)
    requires Inv(s) && s' == To(s, t, p')
    requires (Can(s, StartWalk(t, e)) && p' == Walking(e)) || (At(s, t) == Walking(e) && p' == Idle)
    ensures forall u :: u != t ==> Keeps(s, s', t, u, e)
  {
    forall u | u != t
      ensures Keeps(s, s', t, u, e)
    {
      InvAt(s, t, u, e);
    }
  }

  lemma {:induction false} WalkSelf(s: State, s': State, t: Tid, e: Id, p': Pc)
    requires e in s.linked && RefOf(s, e).mask && e in s.remover
    requires ElemOk(s, e) && ThreadOk(s, t) && HoldOk(s, t, e) && CountedOk(s, e)
    requires s' == To(s, t, p') && At(s, s.remover[e]) != Unlinking(e)
    requires (At(s, t).Idle? && p' == Walking(e)) || (At(s, t) == Walking(e) && p' == Idle)
    ensures ElemOk(s', e) && ThreadOk(s', t) && HoldOk(s', t, e) && CountedOk(s', e)
  {
  }

  lemma {:induction false} WalkInv(s: State, s': State, t: Tid, e: Id, p': Pc)
    requires Inv(s) && s' == To(s, t, p')
    requires (Can(s, StartWalk(t, e)) && p' == Walking(e)) || (At(s, t) == Walking(e) && p' == Idle)
    ensures Inv(s')
  {
    InvAt(s, t, t, e);
    InvAt(s, t, s.remover[e], e);
    WalkSelf(s, s', t, e, p');
    WalkKeeps(s, s', t, e, p');
    StepInvFrom(s, s', t, e);
  }

  lemma {:induction false} ForcePinKeeps(s: State, s': State, t: Tid)
    requires Inv(s) && Can(s, ForcePin(t)) && s' == ForcePinOf(s, t)
    requires RefOf(s, At(s, t).e).pins != 0
    ensures forall u :: u != t ==> Keeps(s, s', t, u, At(s, t).e)
  {
    InvAt(s, t, t, At(s, t).e);
    forall u | u != t
      ensures Keeps(s, s', t, u, At(s, t).e)
    {
      InvAt(s, t, u, At(s, t).e);
    }
  }

  lemma {:induction false} ForcePinInv(s: State, s': State, t: Tid)
    requires Inv(s) && Can(s, ForcePin(t)) && s' == ForcePinOf(s, t)
    ensures Inv(s')
  {
    var e := At(s, t).e;
    InvAt(s, t, t, e);
    if RefOf(s, e).pins != 0 {
      ForcePinKeeps(s, s', t);
      StepInvFrom(s, s', t, e);
    }
  }

  lemma {:induction false} DeferKeeps(s: State, s': State, t: Tid)
    requires Inv(s) && Can(s, Defer(t)) && s' == DeferOf(s, t)
    requires RefOf(s, At(s, t).e).pins == 0
    ensures forall u :: u != t ==> Keeps(s, s', t, u, At(s, t).e)
  {
    forall u | u != t
      ensures Keeps(s, s', t, u, At(s, t).e)
    {
      InvAt(s, t, u, At(s, t).e);
    }
  }

  lemma {:induction false} DeferSelf(s: State, s': State, t: Tid, e: Id)
    requires ElemOk(s, e) && ThreadOk(s, t) && HoldOk(s, t, e) && CountedOk(s, e)
    requires At(s, t) == Walking(e) && RefOf(s, e).pins == 0 && s' == DeferOf(s, t)
    requires s.remover[e] != t
    ensures ElemOk(s', e) && ThreadOk(s', t) && HoldOk(s', t, e) && CountedOk(s', e)
  {
  }

  lemma {:induction false} DeferInv(s: State, s': State, t: Tid)
    requires Inv(s) && Can(s, Defer(t)) && s' == DeferOf(s, t)
    ensures Inv(s')
  {
    var e := At(s, t).e;
    InvAt(s, t, t, e);
    if RefOf(s, e).pins == 0 {
      DeferSelf(s, s', t, e);
      DeferKeeps(s, s', t);
      StepInvFrom(s, s', t, e);
    }
  }

  // ---------- the steps inside a call ----------

  lemma {:induction false} CountInv(s: State, s': State, t: Tid, e: Id, pinned: bool)
    requires Inv(s) && At(s, t) == Insert(e, pinned)
    requires s' == To(s, t, Expose(e, pinned)).(count := s.count + 1, counted := s.counted + {e})
    ensures Inv(s')
  {
    InvAt(s, t, t, e);
    assert At(s', t).Expose? && At(s', t).e == e;
    forall u | u != t
      ensures Keeps(s, s', t, u, e) && Clear(s, u, e)
    {
      InvAt(s, t, u, e);
    }
    StepInvFrom(s, s', t, e);
  }

  lemma {:induction false} ExposeInv(s: State, s': State, t: Tid, e: Id, pinned: bool)
    requires Inv(s) && At(s, t) == Expose(e, pinned) && s' == ExposeOf(s, t, e, pinned)
    ensures Inv(s')
  {
    InvAt(s, t, t, e);
    forall u | u != t
      ensures Keeps(s, s', t, u, e)
    {
      InvAt(s, t, u, e);
    }
    StepInvFrom(s, s', t, e);
  }

  lemma {:induction false} CountLess(c: set<Id>, e: Id)
    requires e in c
    ensures |c - {e}| == |c| - 1 && |c| > 0
  {
  }

  lemma {:induction false} UncountKeeps(s: State, s': State, t: Tid, e: Id, more: bool)
    requires Inv(s) && At(s, t) == Masked(e, more) && s.count > 0
    requires s' == To(s, t, if more then Removing(e) else Deleting(e)).(count := s.count - 1, counted := s.counted - {e})
    ensures forall u :: u != t ==> Keeps(s, s', t, u, e)
  {
    InvAt(s, t, t, e);
    forall u | u != t
      ensures Keeps(s, s', t, u, e)
    {
      InvAt(s, t, u, e);
    }
  }

  lemma {:induction false} UncountSelf(s: State, s': State, t: Tid, e: Id, more: bool)
    requires ElemOk(s, e) && ThreadOk(s, t) && HoldOk(s, t, e) && At(s, t) == Masked(e, more) && s.count > 0
    requires s' == To(s, t, if more then Removing(e) else Deleting(e)).(count := s.count - 1, counted := s.counted - {e})
    ensures ElemOk(s', e) && ThreadOk(s', t) && HoldOk(s', t, e) && CountedOk(s', e)
  {
  }

  lemma {:induction false} UncountInv(s: State, s': State, t: Tid, e: Id, more: bool)
    requires Inv(s) && At(s, t) == Masked(e, more) && s.count > 0
    requires s' == To(s, t, if more then Removing(e) else Deleting(e)).(count := s.count - 1, counted := s.counted - {e})
    ensures Inv(s')
  {
    InvAt(s, t, t, e);
    UncountSelf(s, s', t, e, more);
    UncountKeeps(s, s', t, e, more);
    assert s'.count == |s'.counted| by { CountLess(s.counted, e); }
    StepInvFrom(s, s', t, e);
  }

  lemma {:induction false} LetGoInv(s: State, s': State, t: Tid, e: Id, p': Pc, w: Option<Tid>, n: nat)
    requires Inv(s) && At(s, t) == Removing(e) && RefOf(s, e).pins == n + 1
    requires if n == 0 then p' == Deleting(e) && w == None else p' == Waiting(e) && w == Some(t)
    requires s' == To(Put(s, e, RefOf(s, e).(pins := n, wait := w), Holds(s, e) - multiset{t}), t, p')
    ensures Inv(s')
  {
    InvAt(s, t, t, e);
    SizeLess(Holds(s, e), t);
    forall u | u != t
      ensures Keeps(s, s', t, u, e)
    {
      InvAt(s, t, u, e);
    }
    StepInvFrom(s, s', t, e);
  }

  lemma {:induction false} RemoveWaitInv(s: State, s': State, t: Tid, e: Id)
    requires Inv(s) && At(s, t) == Removing(e) && s' == RemoveWaitOf(s, t, e)
    ensures Inv(s')
  {
    InvAt(s, t, t, e);
    var r := RefOf(s, e);
    if r.pins == 1 {
      LetGoInv(s, s', t, e, Deleting(e), None, 0);
    } else {
      LetGoInv(s, s', t, e, Waiting(e), Some(t), r.pins - 1);
    }
  }

  lemma {:induction false} AwakeKeeps(s: State, s': State, t: Tid, e: Id)
    requires Inv(s) && At(s, t) == Waiting(e) && t in s.woken
    requires s' == To(s, t, Deleting(e)).(woken := s.woken - {t})
    ensures forall u :: u != t ==> Keeps(s, s', t, u, e)
  {
    InvAt(s, t, t, e);
    forall u | u != t
      ensures Keeps(s, s', t, u, e)
    {
      InvAt(s, t, u, e);
    }
  }

  lemma {:induction false} AwakeInv(s: State, s': State, t: Tid, e: Id)
    requires Inv(s) && At(s, t) == Waiting(e) && t in s.woken
    requires s' == To(s, t, Deleting(e)).(woken := s.woken - {t})
    ensures Inv(s')
  {
    InvAt(s, t, t, e);
    AwakeKeeps(s, s', t, e);
    StepInvFrom(s, s', t, e);
  }

  lemma {:induction false} LockKeeps(s: State, s': State, t: Tid, e: Id)
    requires Inv(s) && At(s, t) == Deleting(e) && forall u :: At(s, u) != Walking(e)
    requires s' == To(s, t, Unlinking(e))
    ensures forall u :: u != t ==> Keeps(s, s', t, u, e)
  {
    InvAt(s, t, t, e);
    forall u | u != t
      ensures Keeps(s, s', t, u, e)
    {
      InvAt(s, t, u, e);
    }
  }

  lemma {:induction false} LockInv(s: State, s': State, t: Tid, e: Id)
    requires Inv(s) && At(s, t) == Deleting(e) && forall u :: At(s, u) != Walking(e)
    requires s' == To(s, t, Unlinking(e))
    ensures Inv(s')
  {
    InvAt(s, t, t, e);
    LockKeeps(s, s', t, e);
    StepInvFrom(s, s', t, e);
  }


  lemma {:induction false} ClearKeeps(s: State, s': State, t: Tid, e: Id)
    requires Inv(s) && At(s, t) == Unlinking(e) && RefOf(s, e).pins == 0
    requires s' == To(Put(s, e, RefOf(s, e).(wait := None), Holds(s, e)), t, Idle)
        .(linked := s.linked - {e}, woken := s.woken + (set u | u in Iters(s, e)),
          iters := s.iters[e := []], remover := s.remover - {e})
    ensures forall u :: u != t ==> Keeps(s, s', t, u, e)
  {
    InvAt(s, t, t, e);
    forall u | u != t
      ensures Keeps(s, s', t, u, e)
    {
      InvAt(s, t, u, e);
    }
  }

  lemma {:induction false} ClearInv(s: State, s': State, t: Tid, e: Id)
    requires Inv(s) && At(s, t) == Unlinking(e) && s' == ClearOf(s, t, e)
    ensures Inv(s')
  {
    InvAt(s, t, t, e);
    ClearKeeps(s, s', t, e);
    StepInvFrom(s, s', t, e);
  }

  lemma {:induction false} ReturnKeeps(s: State, s': State, t: Tid, e: Id)
    requires Inv(s) && At(s, t) == Deferred(e) && t in s.woken
    requires s' == To(s, t, Idle).(woken := s.woken - {t})
    ensures forall u :: u != t ==> Keeps(s, s', t, u, e)
  {
    InvAt(s, t, t, e);
    forall u | u != t
      ensures Keeps(s, s', t, u, e)
    {
      InvAt(s, t, u, e);
    }
  }

  lemma {:induction false} ReturnInv(s: State, s': State, t: Tid, e: Id)
    requires Inv(s) && At(s, t) == Deferred(e) && t in s.woken
    requires s' == To(s, t, Idle).(woken := s.woken - {t})
    ensures Inv(s')
  {
    InvAt(s, t, t, e);
    assert CountedOk(s', e) by {
      if e in s.counted && e !in s.linked {
        var w :| At(s, w).Expose? && At(s, w).e == e;
        assert At(s', w).Expose? && At(s', w).e == e;
      }
    }
    ReturnKeeps(s, s', t, e);
    StepInvFrom(s, s', t, e);
  }

  lemma {:induction false} StepOfInv(s: State, s': State, t: Tid)
    requires Inv(s) && Can(s, Step(t)) && s' == StepOf(s, t)
    ensures Inv(s')
  {
    match At(s, t)
    case Insert(e, pinned) => CountInv(s, s', t, e, pinned);
    case Expose(e, pinned) => ExposeInv(s, s', t, e, pinned);
    case Masked(e, more) =>
      InvAt(s, t, t, e);
      CountLess(s.counted, e);
      UncountInv(s, s', t, e, more);
    case Removing(e) => RemoveWaitInv(s, s', t, e);
    case Waiting(e) => AwakeInv(s, s', t, e);
    case Deleting(e) => LockInv(s, s', t, e);
    case Unlinking(e) => ClearInv(s, s', t, e);
    case Deferred(e) => ReturnInv(s, s', t, e);
  }

  // ---------- runs ----------

  lemma {:induction false} StepInv(s: State, a: Action, s': State)
    requires Inv(s) && Can(s, a) && s' == Do(s, a)
    ensures Inv(s')
  {
    match a
    case StartInsert(t, e, pinned) => StartInsertInv(s, s', t, e, pinned);
    case Pin(t, e) => PinInv(s, s', t, e);
    case Unpin(t, e) => UnpinInv(s, s', t, e);
    case StartRemove(t, e) => StartRemoveInv(s, s', t, e);
    case StartWalk(t, e) => WalkInv(s, s', t, e, Walking(e));
    case ForcePin(t) => ForcePinInv(s, s', t);
    case Defer(t) => DeferInv(s, s', t);
    case Leave(t) => WalkInv(s, s', t, At(s, t).e, Idle);
    case Step(t) => StepOfInv(s, s', t);
  }

  lemma {:induction false} RunInv(ss: seq<State>, acts: seq<Action>, k: nat)
    requires Run(ss, acts) && k < |ss|
    ensures Inv(ss[k])
  {
    if k > 0 {
      RunInv(ss, acts, k - 1);
      StepInv(ss[k - 1], acts[k - 1], ss[k]);
    }
  }

  /** No assertion of the source fails, and one removal at most has an element in hand. */
  lemma {:induction false} OneRemover(ss: seq<State>, acts: seq<Action>, k: nat, t: Tid, u: Tid, e: Id)
    requires Run(ss, acts) && k < |ss|
    ensures !At(ss[k], t).Fault?
    ensures Removes(PcOn(At(ss[k], t), e)) && Removes(PcOn(At(ss[k], u), e)) ==> t == u
    ensures Removes(PcOn(At(ss[k], t), e)) ==> RefOf(ss[k], e).mask && e in ss[k].linked
  {
    RunInv(ss, acts, k);
    InvAt(ss[k], t, u, e);
  }

  /** Once an element is masked and has no pins, it gets none until it has left the list. */
  lemma {:induction false} NoPinAfter(ss: seq<State>, acts: seq<Action>, k: nat, e: Id)
    requires Run(ss, acts) && k < |acts|
    requires e in ss[k].linked && RefOf(ss[k], e).mask && RefOf(ss[k], e).pins == 0
    ensures e !in ss[k + 1].linked || (RefOf(ss[k + 1], e).mask && RefOf(ss[k + 1], e).pins == 0)
  {
    RunInv(ss, acts, k);
    InvAt(ss[k], acts[k].t, acts[k].t, e);
    if acts[k].Step? {
      StepPins(ss[k], ss[k + 1], acts[k].t, e);
    }
  }

  lemma {:induction false} StepPins(s: State, s': State, t: Tid, e: Id)
    requires Inv(s) && Can(s, Step(t)) && s' == StepOf(s, t)
    requires e in s.linked && RefOf(s, e).mask && RefOf(s, e).pins == 0
    ensures e !in s'.linked || (RefOf(s', e).mask && RefOf(s', e).pins == 0)
  {
    InvAt(s, t, t, e);
    if PcOn(At(s, t), e) == Idle {
      StepElsewhere(s, s', t, e);
    }
  }

  lemma {:induction false} StepElsewhere(s: State, s': State, t: Tid, e: Id)
    requires Can(s, Step(t)) && s' == StepOf(s, t) && PcOn(At(s, t), e) == Idle
    ensures RefOf(s', e) == RefOf(s, e) && (e in s'.linked <==> e in s.linked)
  {
    match At(s, t)
    case Expose(d, pinned) => ExposeElsewhere(s, s', t, d, pinned, e);
    case Removing(d) => RemoveElsewhere(s, s', t, d, e);
    case Unlinking(d) => ClearElsewhere(s, s', t, d, e);
    case _ => QuietElsewhere(s, s', t);
  }

  lemma {:induction false} QuietElsewhere(s: State, s': State, t: Tid)
    requires var p := At(s, t); p.Insert? || p.Masked? || p.Waiting? || p.Deleting? || p.Deferred?
    requires Can(s, Step(t)) && s' == StepOf(s, t)
    ensures s'.refs == s.refs && s'.linked == s.linked
  {
  }

  lemma {:induction false} ExposeElsewhere(s: State, s': State, t: Tid, d: Id, pinned: bool, e: Id)
    requires d != e && s' == ExposeOf(s, t, d, pinned)
    ensures RefOf(s', e) == RefOf(s, e) && (e in s'.linked <==> e in s.linked)
  {
  }

  lemma {:induction false} PutElsewhere(s: State, s': State, t: Tid, p: Pc, d: Id, r: Ref, h: multiset<Tid>, e: Id)
    requires d != e && s' == To(Put(s, d, r, h), t, p)
    ensures RefOf(s', e) == RefOf(s, e) && s'.linked == s.linked
  {
  }

  lemma {:induction false} RemoveElsewhere(s: State, s': State, t: Tid, d: Id, e: Id)
    requires d != e && s' == RemoveWaitOf(s, t, d)
    ensures RefOf(s', e) == RefOf(s, e) && (e in s'.linked <==> e in s.linked)
  {
    var r, h := RefOf(s, d), Holds(s, d) - multiset{t};
    if r.wait.Some? || r.pins == 0 || !r.mask {
    } else if r.pins == 1 {
      PutElsewhere(s, s', t, Deleting(d), d, r.(pins := 0), h, e);
    } else {
      PutElsewhere(s, s', t, Waiting(d), d, r.(pins := r.pins - 1, wait := Some(t)), h, e);
    }
  }

  lemma {:induction false} ClearElsewhere(s: State, s': State, t: Tid, d: Id, e: Id)
    requires d != e && s' == ClearOf(s, t, d)
    ensures RefOf(s', e) == RefOf(s, e) && (e in s'.linked <==> e in s.linked)
  {
  }

  /**
   * The remover either finds no pins left or is the one the wait id names while there are some, so that
   * the last unpin wakes it; and the wait id never serves it and iterators at once.
   */
  lemma {:induction false} RemoverIsWoken(ss: seq<State>, acts: seq<Action>, k: nat, t: Tid, e: Id)
    requires Run(ss, acts) && k < |ss|
    ensures var s, r := ss[k], RefOf(ss[k], e);
      && (At(s, t) == Waiting(e) && t !in s.woken ==> r.pins > 0 && r.wait == Some(t) && Iters(s, e) == [])
      && (At(s, t) == Waiting(e) && t in s.woken ==> r.pins == 0)
      && (At(s, t) == Deleting(e) || At(s, t) == Unlinking(e) ==> r.pins == 0)
      && (Iters(s, e) != [] ==> r.mask && r.pins == 0 && r.wait == Some(Iters(s, e)[0]))
  {
    RunInv(ss, acts, k);
    InvAt(ss[k], t, t, e);
  }

  /** An iterator that waits for a removal waits behind the wait id, or has been woken. */
  lemma {:induction false} IteratorIsKept(ss: seq<State>, acts: seq<Action>, k: nat, t: Tid, e: Id)
    requires Run(ss, acts) && k < |ss| && At(ss[k], t) == Deferred(e)
    ensures t in ss[k].woken || (t in Iters(ss[k], e) && e in ss[k].linked && e in ss[k].remover)
  {
    RunInv(ss, acts, k);
    InvAt(ss[k], t, t, e);
  }

  /** The list's count is never less than the number of its unmasked elements. */
  lemma {:induction false} CountIsEnough(ss: seq<State>, acts: seq<Action>, k: nat)
    requires Run(ss, acts) && k < |ss|
    ensures |set e | e in ss[k].linked && !RefOf(ss[k], e).mask| <= ss[k].count
  {
    RunInv(ss, acts, k);
    var s := ss[k];
    var shown := set e | e in s.linked && !RefOf(s, e).mask;
    forall e | e in shown
      ensures e in s.counted
    {
      InvAt(s, 0, 0, e);
    }
    assert s.counted == shown + (s.counted - shown);
  }

  /** The word counts the pins that are held. */
  lemma {:induction false} PinsAreCounted(ss: seq<State>, acts: seq<Action>, k: nat, e: Id)
    requires Run(ss, acts) && k < |ss|
    ensures |Holds(ss[k], e)| == RefOf(ss[k], e).pins
  {
    RunInv(ss, acts, k);
    InvAt(ss[k], 0, 0, e);
  }
}
