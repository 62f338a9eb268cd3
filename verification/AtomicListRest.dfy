/** As long as anyone is inside an operation on the self-locking list, someone can take a step. */
module AtomicListRest {
  import opened Base
  import opened AtomicList
  import opened AtomicListInv
  import opened AtomicListRuns
  import opened AtomicListCalls

  // ---------- no element has two removers ----------

  predicate OneRemover(s: State, t: Tid, u: Tid, n: Node) {
    t != u && Deletes(At(s, t), n) ==> !Deletes(At(s, u), n)
  }

  lemma {:induction false} GrantKeeps(s: State, t: Tid, n: Node)
    requires Wants(At(s, t)).Some? && Deletes(At(GrantOf(s, t), t), n)
    ensures Deletes(At(s, t), n)
  {
    var p' := GrantPc(s, t);
  }

  lemma {:induction false} StepKeeps(s: State, t: Tid, n: Node)
    requires Can(s, Step(t)) && Deletes(At(StepOf(s, t), t), n)
    ensures Deletes(At(s, t), n)
  {
  }

  lemma {:induction false} WalkKeeps(s: State, a: Action, n: Node)
    requires Can(s, a) && (a.Stop? || a.Force? || a.Finish?)
    ensures !Deletes(At(Do(s, a), a.t), n)
  {
  }

  lemma {:induction false} OthersStay(s: State, a: Action, t: Tid)
    requires Can(s, a) && a.t != t
    ensures At(Do(s, a), t) == At(s, t)
  {
    if a.Grant? {
      var p' := GrantPc(s, a.t);
    } else if a.Step? {
      var p' := StepPc(s, a.t);
    } else if !Begins(a) {
      WalkPc(s, a);
    }
  }

  /** A thread becomes a remover only by asking for it. */
  lemma {:induction false} RemoverStays(s: State, a: Action, t: Tid, n: Node)
    requires Can(s, a) && Deletes(At(Do(s, a), t), n)
    ensures Deletes(At(s, t), n) || a == StartPre(t, n, Delete)
  {
    if a.t != t {
      OthersStay(s, a, t);
    } else if a.Grant? {
      GrantKeeps(s, t, n);
    } else if a.Step? {
      StepKeeps(s, t, n);
    } else if !Begins(a) {
      WalkKeeps(s, a, n);
    }
  }

  lemma {:induction false} OneRemoverStep(s: State, a: Action, t: Tid, u: Tid, n: Node)
    requires Can(s, a) && OneRemover(s, t, u, n)
    ensures OneRemover(Do(s, a), t, u, n)
  {
    var s' := Do(s, a);
    if Deletes(At(s', t), n) && Deletes(At(s', u), n) {
      RemoverStays(s, a, t, n);
      RemoverStays(s, a, u, n);
    }
  }

  lemma {:induction false} OneRemoverAt(ss: seq<State>, acts: seq<Action>, k: nat, t: Tid, u: Tid, n: Node)
    requires Run(ss, acts) && k < |ss|
    ensures OneRemover(ss[k], t, u, n)
  {
    if k > 0 {
      OneRemoverAt(ss, acts, k - 1, t, u, n);
      OneRemoverStep(ss[k - 1], acts[k - 1], t, u, n);
    }
  }

  // ---------- someone can go on ----------

  ghost predicate SoleRemovers(s: State) {
    forall t, u, n :: OneRemover(s, t, u, n)
  }

  /** Whoever does not want a lock, and is not waiting for others to let go of what it removed, can step. */
  lemma {:induction false} OwnStep(s: State, t: Tid) returns (a: Action)
    requires !At(s, t).Idle? && Wants(At(s, t)) == None && !At(s, t).Clean?
    ensures !Begins(a) && Can(s, a)
  {
    var p := At(s, t);
    a := if p.BwdHold? || p.BwdDefer? then Stop(t) else if p.BwdBoth? then Force(t, true) else Step(t);
  }

  function Behind(s: State, n: Node): nat {
    if Pos(s.list, n) <= |s.list| + 1 then |s.list| + 2 - Pos(s.list, n) else 0
  }

  /** Whoever has a lock and wants another wants one nearer to the end of the list. */
  lemma {:induction false} Further(s: State, u: Tid, n: Node)
    requires ThreadOk(s, u) && Wants(At(s, u)).Some? && (n in Owns(At(s, u)) || n in Reads(At(s, u)))
    ensures Behind(s, Wants(At(s, u)).value) < Behind(s, n)
  {
  }

  lemma {:induction false} HeldBy(s: State, t: Tid, n: Node, owned: bool) returns (u: Tid)
    requires !Free(s, t, n, owned)
    ensures n in Owns(At(s, u)) || n in Reads(At(s, u))
  {
    u :| u != t && (n in Owns(At(s, u)) || n in Reads(At(s, u)));
  }

  /** From a thread that wants a lock, along those who hold the locks wanted, to one that can step. */
  lemma {:induction false} WantsStep(s: State, t: Tid) returns (a: Action)
    requires (forall u :: ThreadOk(s, u)) && Wants(At(s, t)).Some?
    ensures !Begins(a) && Can(s, a)
    decreases Behind(s, Wants(At(s, t)).value)
  {
    var n := Wants(At(s, t)).value;
    if Free(s, t, n, WantsOwned(At(s, t))) {
      a := Grant(t);
    } else {
      var u := HeldBy(s, t, n, WantsOwned(At(s, t)));
      if Wants(At(s, u)).Some? {
        Further(s, u, n);
        a := WantsStep(s, u);
      } else {
        a := OwnStep(s, u);
      }
    }
  }

  lemma {:induction false} CleanStep(s: State, t: Tid) returns (a: Action)
    requires (forall u :: ThreadOk(s, u)) && SoleRemovers(s) && At(s, t).Clean?
    ensures !Begins(a) && Can(s, a)
  {
    var x := At(s, t).x;
    if forall u :: u != t ==> !Touches(At(s, u), x) {
      a := Finish(t);
    } else {
      var u :| u != t && Touches(At(s, u), x);
      assert OneRemover(s, t, u, x);
      if Wants(At(s, u)).Some? {
        a := WantsStep(s, u);
      } else {
        a := OwnStep(s, u);
      }
    }
  }

  /** Over every run: while a thread is inside an operation, that thread or another can take a step. */
  lemma {:induction false} SomeoneGoesOn(ss: seq<State>, acts: seq<Action>, k: nat, t: Tid) returns (a: Action)
    requires Run(ss, acts) && k < |ss| && !At(ss[k], t).Idle?
    ensures !Begins(a) && Can(ss[k], a)
  {
    var s := ss[k];
    RunInv(ss, acts, k);
    if Wants(At(s, t)).Some? {
      a := WantsStep(s, t);
    } else if At(s, t).Clean? {
      forall v, u, n
        ensures OneRemover(s, v, u, n)
      {
        OneRemoverAt(ss, acts, k, v, u, n);
      }
      a := CleanStep(s, t);
    } else {
      a := OwnStep(s, t);
    }
  }
}
