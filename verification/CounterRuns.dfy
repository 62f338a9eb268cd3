/** What holds of the counter's word in every run: the lock bit, the units, and who must wait. */
module CounterRuns {
  import opened Base
  import opened Counter

  /** The job at the head, if any, is a request that the units do not cover. */
  predicate HeadWaits(q: seq<Job>, avail: nat) {
    q != [] ==> q[0].Alloc? && avail < q[0].req.need
  }

  predicate WordOk(s: State) {
    && (s.word.lock <==> s.holder.Some?)
    && s.word.avail + s.out == s.max
    && (!s.word.lock ==> (s.word.pending <==> s.queue != []) && HeadWaits(s.queue, s.word.avail))
  }

  /** What the holder last saw of the word: units have only been added since. */
  predicate SeenOk(s: State, p: Pc) {
    match p
    case Drain(_, w) => w.avail <= s.word.avail
    case DrainClear(_, w) => w.avail <= s.word.avail
    case DrainPop(_, w) => w.avail <= s.word.avail
    case Serve(_, w) => w.avail <= s.word.avail
    case Exit(_, w) => w.avail <= s.word.avail && HeadWaits(s.queue, w.avail)
    case _ => true
  }

  predicate RunnerOk(s: State, t: Tid) {
    (Running(At(s, t)) <==> s.holder == Some(t)) && SeenOk(s, At(s, t))
  }

  ghost predicate Inv(s: State) {
    WordOk(s) && forall t :: RunnerOk(s, t)
  }

  /** The others, when `t` steps: only the holder may lower the units or touch the queue. */
  lemma {:induction false} OtherRunners(s: State, s': State, t: Tid)
    requires Inv(s) && s'.pc == s.pc[t := At(s', t)]
    requires forall u :: u != t ==> (s'.holder == Some(u) <==> s.holder == Some(u))
    requires s.holder.Some? && s.holder != Some(t) ==>
      s'.queue == s.queue && s.word.avail <= s'.word.avail
    requires RunnerOk(s', t) && WordOk(s')
    ensures Inv(s')
  {
    forall u
      ensures RunnerOk(s', u)
    {
      assert RunnerOk(s, u);
    }
  }

  lemma {:induction false} CancelStepInv(s: State, s': State, t: Tid)
    requires var p := At(s, t); p.CancelDrain? || p.CancelClear? || p.CancelPop? || p.CancelRemove? || p.Run?
    requires Inv(s) && s.holder == Some(t) && s' == StepRunOf(s, t)
    ensures Inv(s')
  {
    assert RunnerOk(s, t);
    OtherRunners(s, s', t);
  }

  lemma {:induction false} DrainStepInv(s: State, s': State, t: Tid)
    requires var p := At(s, t); p.Drain? || p.DrainClear? || p.DrainPop?
    requires Inv(s) && s.holder == Some(t) && s' == StepRunOf(s, t)
    ensures Inv(s')
  {
    assert RunnerOk(s, t);
    OtherRunners(s, s', t);
  }

  lemma {:induction false} ServeInv(s: State, s': State, t: Tid, c: Cont, w: Word)
    requires Inv(s) && s.holder == Some(t) && At(s, t) == Serve(c, w) && s' == ServeOf(s, t, c, w)
    ensures Inv(s')
  {
    assert RunnerOk(s, t);
    OtherRunners(s, s', t);
  }

  lemma {:induction false} ExitInv(s: State, s': State, t: Tid)
    requires Inv(s) && s.holder == Some(t) && At(s, t).Exit? && s' == StepRunOf(s, t)
    ensures Inv(s')
  {
    assert RunnerOk(s, t);
    OtherRunners(s, s', t);
  }

  lemma {:induction false} StepRunInv(s: State, s': State, t: Tid)
    requires Inv(s) && Running(At(s, t)) && s' == StepRunOf(s, t)
    ensures Inv(s')
  {
    assert RunnerOk(s, t);
    match At(s, t)
    case Serve(c, w) => ServeInv(s, s', t, c, w);
    case Exit(_, _) => ExitInv(s, s', t);
    case Drain(_, _) => DrainStepInv(s, s', t);
    case DrainClear(_, _) => DrainStepInv(s, s', t);
    case DrainPop(_, _) => DrainStepInv(s, s', t);
    case _ => CancelStepInv(s, s', t);
  }

  lemma {:induction false} CallerInv(s: State, a: Action, s': State)
    requires Inv(s) && Can(s, a) && s' == Do(s, a) && !a.StepRun?
    ensures Inv(s')
  {
    assert RunnerOk(s, a.t);
    match a
    case DoSubmit(t) => SubmitInv(s, s', t);
    case DoSetBits(t) => OtherRunners(s, s', t);
    case DoCancelTry(t) => OtherRunners(s, s', t);
    case Free(t, n) => FreeInv(s, s', t, n);
    case TryAlloc(t, n) => TryAllocInv(s, s', n);
    case AllocAsync(t, r) =>
      if At(s', t) == At(s, t) {
        TryAllocInv(s, s', r.need);
      } else {
        OtherRunners(s, s', t);
      }
    case _ => OtherRunners(s, s', a.t);
  }

  lemma {:induction false} SubmitInv(s: State, s': State, t: Tid)
    requires Inv(s) && At(s, t).Submit? && s' == SubmitOf(s, t)
    ensures Inv(s')
  {
    assert RunnerOk(s, t);
    OtherRunners(s, s', t);
  }

  lemma {:induction false} FreeInv(s: State, s': State, t: Tid, n: nat)
    requires Inv(s) && At(s, t).Idle? && n <= s.out && s' == FreeOf(s, t, n)
    ensures Inv(s')
  {
    assert RunnerOk(s, t);
    if s'.holder == s.holder {
      forall u
        ensures RunnerOk(s', u)
      {
        assert RunnerOk(s, u);
      }
    } else {
      OtherRunners(s, s', t);
    }
  }

  lemma {:induction false} TryAllocInv(s: State, s': State, n: nat)
    requires Inv(s) && s' == TryAllocOf(s, n)
    ensures Inv(s')
  {
    forall u
      ensures RunnerOk(s', u)
    {
      assert RunnerOk(s, u);
    }
  }

  lemma {:induction false} RunInv(ss: seq<State>, acts: seq<Action>, k: nat)
    requires RunOf(ss, acts) && k < |ss|
    ensures Inv(ss[k]) && ss[k].max == ss[0].max
  {
    if k > 0 {
      RunInv(ss, acts, k - 1);
      var s, a := ss[k - 1], acts[k - 1];
      if a.StepRun? {
        StepRunInv(s, ss[k], a.t);
      } else {
        CallerInv(s, a, ss[k]);
      }
    }
  }

  /** Units are neither lost nor made, and the 32-bit field never wraps. */
  lemma {:induction false} UnitsAreConserved(ss: seq<State>, acts: seq<Action>, k: nat)
    requires RunOf(ss, acts) && k < |ss|
    ensures ss[k].word.avail + ss[k].out == ss[0].max
    ensures ss[0].max < 0x1_0000_0000 ==> ss[k].word.avail < 0x1_0000_0000
  {
    RunInv(ss, acts, k);
  }

  /**
   * Whenever the lock bit is clear, pending says whether the queue has a job; and then that job is a
   * request for more units than there are, whatever was freed while the queue was served.
   */
  lemma {:induction false} FreeLockTellsTruth(ss: seq<State>, acts: seq<Action>, k: nat)
    requires RunOf(ss, acts) && k < |ss| && !ss[k].word.lock
    ensures ss[k].word.pending <==> ss[k].queue != []
    ensures ss[k].queue != [] ==> ss[k].queue[0].Alloc? && ss[k].word.avail < ss[k].queue[0].req.need
  {
    RunInv(ss, acts, k);
  }

  /** Two threads never run the queue at once. */
  lemma {:induction false} OneRunner(ss: seq<State>, acts: seq<Action>, k: nat, t: Tid, u: Tid)
    requires RunOf(ss, acts) && k < |ss| && Running(At(ss[k], t)) && Running(At(ss[k], u))
    ensures t == u && ss[k].word.lock
  {
    RunInv(ss, acts, k);
    assert RunnerOk(ss[k], t) && RunnerOk(ss[k], u);
  }
}
