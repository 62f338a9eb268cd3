/**
 * What is left when no call of the counter can take a step: callers that wait for units, and those whose
 * job the exit of the queue has left behind.
 */
module CounterRest {
  import opened Base
  import opened Counter
  import opened CounterRuns
  import opened CounterJobs
  import opened CounterCalls

  /** A step inside a call; a caller that waits need not cancel. */
  predicate Inner(a: Action) {
    !Begins(a) && !a.StartCancel?
  }

  ghost predicate Still(s: State) {
    forall a :: Inner(a) ==> !Can(s, a)
  }

  lemma {:induction false} StillThread(s: State, t: Tid)
    requires Still(s)
    ensures var p := At(s, t);
      || p.Idle? || (p.Waiting? && p.id !in s.granted) || (p.CancelWait? && p.id !in s.answers)
  {
    assert !Can(s, DoSubmit(t)) && !Can(s, DoSetBits(t)) && !Can(s, DoCancelTry(t)) && !Can(s, StepRun(t));
    assert !Can(s, Finish(t)) && !Can(s, FinishCancel(t));
  }

  lemma {:induction false} StillWord(s: State)
    requires Inv(s) && Still(s)
    ensures !s.word.lock && HeadWaits(s.queue, s.word.avail)
  {
    if s.holder.Some? {
      assert RunnerOk(s, s.holder.value);
      StillThread(s, s.holder.value);
    }
  }

  lemma {:induction false} StillStack(s: State)
    requires Inv(s) && StackOk(s) && Still(s) && s.stack != []
    ensures s.word.incoming
  {
    StillWord(s);
    assert Announced(s, 0);
    StillThread(s, JobOwner(s, s.stack[0]));
  }

  /** A request that is neither granted nor cancelled is in the queue or on the stack. */
  lemma {:induction false} WaitsIn(s: State, t: Tid)
    requires OrderOk(s) && AnswersOk(s) && ThreadOk(s, t) && At(s, t).Waiting? && At(s, t).id !in s.granted
    ensures At(s, t).id in AllocIds(s.queue) || At(s, t).id in AllocIds(s.stack)
  {
    LessIs(s.entered, s.cancelled);
    IdsAre(s.queue);
  }

  lemma {:induction false} NoCancelQueued(s: State)
    requires OrderOk(s) && HeadWaits(s.queue, s.word.avail)
    ensures CancelIds(s.queue) == {}
  {
  }

  lemma {:induction false} HeadShort(s: State, id: Id)
    requires HeadWaits(s.queue, s.word.avail) && id in AllocIds(s.queue)
    ensures s.queue != [] && s.queue[0].Alloc? && s.word.avail < s.queue[0].req.need
  {
  }

  /**
   * When no call can take a step, the lock bit is clear and every thread inside a call waits: for units,
   * in the queue, whose head needs more than there are; or for a job, its request or its cancellation,
   * that is left on the stack with the incoming bit set.
   */
  lemma {:induction false} StillOnlyWhileShort(ss: seq<State>, acts: seq<Action>, k: nat, t: Tid)
    requires RunOf(ss, acts) && k < |ss| && Still(ss[k]) && !At(ss[k], t).Idle?
    ensures var s, p := ss[k], At(ss[k], t);
      && !s.word.lock && (p.Waiting? || p.CancelWait?)
      && (p.Waiting? ==>
            || (p.id in AllocIds(s.queue) && s.queue[0].Alloc? && s.word.avail < s.queue[0].req.need)
            || (p.id in AllocIds(s.stack) && s.word.incoming))
      && (p.CancelWait? ==> p.id in CancelIds(s.stack) && s.word.incoming)
  {
    var s, p := ss[k], At(ss[k], t);
    RunInv(ss, acts, k);
    RunJobs(ss, acts, k);
    StillThread(s, t);
    StillWord(s);
    if s.stack != [] {
      StillStack(s);
    }
    if p.Waiting? {
      WaitsIn(s, t);
      if p.id in AllocIds(s.queue) {
        HeadShort(s, p.id);
      }
    } else {
      CancelIsKept(ss, acts, k, t, p.id);
      NoCancelQueued(s);
    }
  }
}
