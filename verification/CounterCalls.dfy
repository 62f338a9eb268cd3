/**
 * What the counter's callers get: exactly when units are taken past the queue, what a free and a grant
 * do, and that a call stays with the request it was made for.
 */
module CounterCalls {
  import opened Base
  import opened Counter
  import opened CounterRuns
  import opened CounterJobs
  import opened CounterClaims
  import CounterExit

  // ---------- taking units without queueing ----------

  /** No one is queued, no one runs the queue, and no one has announced a job. */
  predicate Unqueued(s: State) {
    s.queue == [] && s.holder == None && !s.word.incoming
  }

  lemma {:induction false} QuietTells(s: State)
    requires Inv(s)
    ensures Quiet(s.word) <==> Unqueued(s)
  {
  }

  /** Units moved from the counter to its users, and nothing else. */
  predicate Hands(s: State, s': State, n: nat) {
    n <= s.word.avail && s' == s.(word := s.word.(avail := s.word.avail - n), out := s.out + n)
  }

  /**
   * A try takes the units if and only if there are enough and no one is queued, runs the queue or has
   * announced a job; then no submitted job waits on the stack either. Otherwise it changes nothing.
   */
  lemma {:induction false} TryTakes(ss: seq<State>, acts: seq<Action>, k: nat)
    requires RunOf(ss, acts) && k < |acts| && acts[k].TryAlloc?
    ensures var s, s', n := ss[k], ss[k + 1], acts[k].need;
      if Unqueued(s) && n <= s.word.avail then
        Hands(s, s', n) && forall i :: 0 <= i < |s.stack| ==> !Submitted(s, i)
      else s' == s
  {
    RunInv(ss, acts, k);
    QuietTells(ss[k]);
    NoneSubmitted(ss, acts, k);
  }

  lemma {:induction false} NoneSubmitted(ss: seq<State>, acts: seq<Action>, k: nat)
    requires RunOf(ss, acts) && k < |ss|
    ensures Unqueued(ss[k]) ==> forall i :: 0 <= i < |ss[k].stack| ==> !Submitted(ss[k], i)
  {
    RunInv(ss, acts, k);
    if Unqueued(ss[k]) && LeftBehind(ss[k]) {
      NothingLeft(ss, acts, k);
    }
  }

  /** An allocation takes the units at once under the same condition, and is submitted otherwise. */
  lemma {:induction false} AllocTakes(ss: seq<State>, acts: seq<Action>, k: nat)
    requires RunOf(ss, acts) && k < |acts| && acts[k].AllocAsync?
    ensures var s, s', t, r := ss[k], ss[k + 1], acts[k].t, acts[k].req;
      if Unqueued(s) && r.need <= s.word.avail then Hands(s, s', r.need)
      else s' == s.(pc := s.pc[t := Submit(Alloc(r))], owner := s.owner[r.id := t])
  {
    RunInv(ss, acts, k);
    QuietTells(ss[k]);
  }

  /**
   * Freed units are there at once; and if anyone is queued or has announced a job, someone runs the queue
   * after the free: its caller if no one did before.
   */
  lemma {:induction false} FreeReturns(ss: seq<State>, acts: seq<Action>, k: nat)
    requires RunOf(ss, acts) && k < |acts| && acts[k].Free?
    ensures var s, s', t, n := ss[k], ss[k + 1], acts[k].t, acts[k].count;
      && s'.word.avail == s.word.avail + n && s'.out == s.out - n
      && s'.queue == s.queue && s'.stack == s.stack
      && (if s.holder.Some? then s'.holder == s.holder && s'.pc == s.pc
          else if s.queue != [] || s.word.incoming then s'.holder == Some(t) && At(s', t) == Counter.Run(Leave)
          else s'.holder == None && s'.pc == s.pc)
  {
    RunInv(ss, acts, k);
    FreeStep(ss[k], acts[k].t, acts[k].count);
  }

  lemma {:induction false} FreeStep(s: State, t: Tid, n: nat)
    requires WordOk(s) && n <= s.out
    ensures var s' := FreeOf(s, t, n);
      && s'.word.avail == s.word.avail + n && s'.out == s.out - n
      && s'.queue == s.queue && s'.stack == s.stack
      && (if s.holder.Some? then s'.holder == s.holder && s'.pc == s.pc
          else if s.queue != [] || s.word.incoming then s'.holder == Some(t) && At(s', t) == Counter.Run(Leave)
          else s'.holder == None && s'.pc == s.pc)
  {
  }

  /**
   * A job handed in is queued at once by a caller that finds no one else about, which then runs the
   * queue; any other job is on the stack first, and is announced with someone running the queue.
   */
  lemma {:induction false} SubmitReaches(ss: seq<State>, acts: seq<Action>, k: nat)
    requires RunOf(ss, acts) && k < |acts| && (acts[k].DoSubmit? || acts[k].DoSetBits?)
    ensures var s, s', t := ss[k], ss[k + 1], acts[k].t;
      if acts[k].DoSetBits? then s'.word.incoming && s'.holder == (if s.holder.Some? then s.holder else Some(t))
      else if Unqueued(s) then s'.queue == [At(s, t).job] && s'.holder == Some(t) && s'.stack == s.stack
      else s'.stack == [At(s, t).job] + s.stack && At(s', t) == SetBits(At(s, t).job) && s'.queue == s.queue
  {
    RunInv(ss, acts, k);
    QuietTells(ss[k]);
    if acts[k].DoSetBits? {
      SetBitsStep(ss[k], acts[k].t);
    } else {
      SubmitStep(ss[k], acts[k].t);
    }
  }

  lemma {:induction false} SetBitsStep(s: State, t: Tid)
    requires WordOk(s) && At(s, t).SetBits?
    ensures var s' := SetBitsOf(s, t);
      s'.word.incoming && s'.holder == (if s.holder.Some? then s.holder else Some(t))
  {
  }

  lemma {:induction false} SubmitStep(s: State, t: Tid)
    requires At(s, t).Submit? && (Quiet(s.word) <==> Unqueued(s))
    ensures var s' := SubmitOf(s, t);
      if Unqueued(s) then s'.queue == [At(s, t).job] && s'.holder == Some(t) && s'.stack == s.stack
      else s'.stack == [At(s, t).job] + s.stack && At(s', t) == SetBits(At(s, t).job) && s'.queue == s.queue
  {
  }

  // ---------- what a request asks for is what it gets ----------

  /** Some caller asked for exactly this. */
  ghost predicate Asked(acts: seq<Action>, k: nat, r: Req)
    requires k <= |acts|
  {
    exists j :: 0 <= j < k && acts[j].AllocAsync? && acts[j].req == r
  }

  predicate Jobs(q: seq<Job>, r: Req) {
    Alloc(r) in q
  }

  predicate Carries(p: Pc, r: Req) {
    (p.Submit? || p.SetBits?) && p.job == Alloc(r)
  }

  /** The request is on its way or in line. */
  ghost predicate Present(s: State, r: Req) {
    Jobs(s.queue, r) || Jobs(s.stack, r) || exists t :: Carries(At(s, t), r)
  }

  lemma {:induction false} KeepJobs(q: seq<Job>, gone: set<Id>, r: Req)
    ensures Jobs(Keep(q, gone), r) ==> Jobs(q, r)
  {
    if q != [] {
      KeepJobs(q[1..], gone, r);
    }
  }

  lemma {:induction false} RequestJobs(stack: seq<Job>, r: Req)
    ensures Jobs(Requests(stack), r) ==> Jobs(stack, r)
  {
    if stack != [] {
      RequestJobs(stack[1..], r);
    }
  }

  lemma {:induction false} DrainedJobs(s: State, r: Req)
    ensures Jobs(Drained(s).queue, r) ==> Jobs(s.queue, r) || Jobs(s.stack, r)
    ensures Drained(s).stack == []
  {
    KeepJobs(s.queue + Requests(s.stack), CancelIds(s.stack), r);
    RequestJobs(s.stack, r);
  }

  lemma {:induction false} RunJobsStay(s: State, t: Tid, r: Req)
    requires Running(At(s, t))
    ensures var s' := StepRunOf(s, t);
      && (Jobs(s'.queue, r) ==> Jobs(s.queue, r) || Jobs(s.stack, r))
      && (Jobs(s'.stack, r) ==> Jobs(s.stack, r))
  {
    match At(s, t)
    case CancelPop(id) => DrainedJobs(s, r);
    case DrainPop(c, w) => DrainedJobs(s, r);
    case CancelRemove(id) => KeepJobs(s.queue, {id}, r);
    case Serve(c, w) => ServedJobs(s, t, c, w, r);
    case _ =>
  }

  lemma {:induction false} ServedJobs(s: State, t: Tid, c: Cont, w: Word, r: Req)
    ensures var s' := ServeOf(s, t, c, w); (Jobs(s'.queue, r) ==> Jobs(s.queue, r)) && s'.stack == s.stack
  {
    if s.queue != [] {
      if s.queue[0].Cancel? {
        KeepJobs(s.queue[1..], {s.queue[0].id}, r);
      }
    }
  }

  lemma {:induction false} CallerJobsStay(s: State, a: Action, r: Req)
    requires Can(s, a) && !a.StepRun?
    ensures var s' := Do(s, a);
      && (Jobs(s'.queue, r) ==> Jobs(s.queue, r) || Carries(At(s, a.t), r))
      && (Jobs(s'.stack, r) ==> Jobs(s.stack, r) || Carries(At(s, a.t), r))
  {
  }

  lemma {:induction false} CallerCarries(s: State, a: Action, r: Req)
    requires Can(s, a) && Carries(At(Do(s, a), a.t), r)
    ensures Carries(At(s, a.t), r) || (a.AllocAsync? && a.req == r)
  {
    if a.StepRun? {
      CounterExit.RunNoSubmit(s, Do(s, a), a.t);
      RunNoSubmit(s, a.t);
    }
  }

  lemma {:induction false} RunNoSubmit(s: State, t: Tid)
    requires Running(At(s, t))
    ensures !At(StepRunOf(s, t), t).Submit?
  {
  }

  lemma {:induction false} StepPresent(s: State, a: Action, r: Req)
    requires Can(s, a) && Present(Do(s, a), r)
    ensures Present(s, r) || (a.AllocAsync? && a.req == r)
  {
    var s' := Do(s, a);
    if a.StepRun? {
      RunJobsStay(s, a.t, r);
    } else {
      CallerJobsStay(s, a, r);
    }
    if t :| Carries(At(s', t), r) {
      if t == a.t {
        CallerCarries(s, a, r);
      } else {
        OthersStay(s, a, s', t);
      }
    }
  }

  lemma {:induction false} RunAsked(ss: seq<State>, acts: seq<Action>, k: nat, r: Req)
    requires RunOf(ss, acts) && k < |ss| && Present(ss[k], r)
    ensures Asked(acts, k, r)
  {
    if k > 0 {
      StepPresent(ss[k - 1], acts[k - 1], r);
      if Present(ss[k - 1], r) {
        RunAsked(ss, acts, k - 1, r);
      }
    }
  }

  /** A grant gives the request at the head exactly the units that its caller asked for, and takes it off the queue. */
  lemma {:induction false} GrantGives(ss: seq<State>, acts: seq<Action>, k: nat, t: Tid)
    requires RunOf(ss, acts) && k < |acts| && CounterExit.Grants(ss[k], acts[k], t)
    ensures var s, s', r := ss[k], ss[k + 1], ss[k].queue[0].req;
      && Asked(acts, k, r)
      && s'.granted == s.granted + [r.id] && s'.queue == s.queue[1..]
      && s'.out == s.out + r.need && s'.word.avail == s.word.avail - r.need
  {
    var s := ss[k];
    assert s.queue[0] == Alloc(s.queue[0].req);
    assert Jobs(s.queue, s.queue[0].req);
    RunAsked(ss, acts, k, s.queue[0].req);
    GrantStep(s, t);
  }

  lemma {:induction false} GrantStep(s: State, t: Tid)
    requires CounterExit.Grants(s, StepRun(t), t)
    ensures var s', r := StepRunOf(s, t), s.queue[0].req;
      && s'.granted == s.granted + [r.id] && s'.queue == s.queue[1..]
      && s'.out == s.out + r.need && s'.word.avail == s.word.avail - r.need
  {
  }

  /** Units change hands in no other way. */
  lemma {:induction false} OnlyThese(ss: seq<State>, acts: seq<Action>, k: nat)
    requires RunOf(ss, acts) && k < |acts| && ss[k + 1].out != ss[k].out
    ensures var a := acts[k]; a.TryAlloc? || a.AllocAsync? || a.Free? || CounterExit.Grants(ss[k], a, a.t)
  {
    if acts[k].StepRun? && !CounterExit.Grants(ss[k], acts[k], acts[k].t) {
      RunOut(ss[k], acts[k].t);
    }
  }

  lemma {:induction false} RunOut(s: State, t: Tid)
    requires Running(At(s, t)) && !CounterExit.Grants(s, StepRun(t), t)
    ensures StepRunOf(s, t).out == s.out
  {
  }

  // ---------- a call stays with its request ----------

  predicate ContFor(c: Cont, id: Id) {
    c == Await(id) || c == AwaitCancel(id)
  }

  /** The thread is in the middle of allocating or cancelling this request. */
  predicate For(p: Pc, id: Id) {
    match p
    case Submit(j) => CounterExit.JobId(j) == id
    case SetBits(j) => CounterExit.JobId(j) == id
    case Waiting(i) => i == id
    case CancelTry(i) => i == id
    case CancelWait(i) => i == id
    case CancelDrain(i) => i == id
    case CancelClear(i) => i == id
    case CancelPop(i) => i == id
    case CancelRemove(i) => i == id
    case Run(c) => ContFor(c, id)
    case Drain(c, _) => ContFor(c, id)
    case DrainClear(c, _) => ContFor(c, id)
    case DrainPop(c, _) => ContFor(c, id)
    case Serve(c, _) => ContFor(c, id)
    case Exit(c, _) => ContFor(c, id)
    case Idle => false
  }

  /** The call is over: the request was granted, or its cancellation was answered. */
  predicate Over(s: State, p: Pc, id: Id) {
    p.Idle? && (id in s.granted || id in s.answers)
  }

  predicate Begins(a: Action) {
    a.TryAlloc? || a.AllocAsync? || a.Free?
  }

  lemma {:induction false} RunFor(s: State, t: Tid, id: Id)
    requires Running(At(s, t)) && For(At(s, t), id)
    ensures For(At(StepRunOf(s, t), t), id)
  {
    match At(s, t)
    case Serve(c, w) => ServeFor(s, t, c, w);
    case _ =>
  }

  lemma {:induction false} ServeFor(s: State, t: Tid, c: Cont, w: Word)
    ensures var p' := At(ServeOf(s, t, c, w), t); (p'.Serve? || p'.Exit?) && p'.cont == c
  {
  }

  lemma {:induction false} OwnFor(s: State, a: Action, id: Id)
    requires Can(s, a) && For(At(s, a.t), id)
    ensures var s' := Do(s, a); For(At(s', a.t), id) || Over(s', At(s', a.t), id)
  {
    if a.StepRun? {
      RunFor(s, a.t, id);
    }
  }

  lemma {:induction false} OverStays(s: State, a: Action, t: Tid, id: Id)
    requires Can(s, a) && Over(s, At(s, t), id) && (a.t == t ==> !Begins(a))
    ensures Over(Do(s, a), At(Do(s, a), t), id)
  {
    if a.StepRun? {
      BooksGrow(s, a.t, id);
    }
    if a.t != t {
      OthersStay(s, a, Do(s, a), t);
    }
  }

  lemma {:induction false} BooksGrow(s: State, t: Tid, id: Id)
    requires Running(At(s, t))
    ensures var s' := StepRunOf(s, t);
      (id in s.granted ==> id in s'.granted) && (id in s.answers ==> id in s'.answers)
  {
  }

  /** The thread's call for `id` goes on, or it is over. */
  predicate Goes(s: State, t: Tid, id: Id) {
    For(At(s, t), id) || Over(s, At(s, t), id)
  }

  lemma {:induction false} StepGoes(s: State, a: Action, t: Tid, id: Id)
    requires Can(s, a) && Goes(s, t, id) && (a.t == t ==> !Begins(a))
    ensures Goes(Do(s, a), t, id)
  {
    if Over(s, At(s, t), id) {
      OverStays(s, a, t, id);
    } else if a.t == t {
      OwnFor(s, a, id);
    } else {
      OthersStay(s, a, Do(s, a), t);
    }
  }

  /**
   * A call that was not served at once stays with its own request, and ends only when that request has
   * been granted or its cancellation answered.
   */
  lemma {:induction false} CallKeepsRequest(ss: seq<State>, acts: seq<Action>, j: nat, k: nat, t: Tid, r: Req)
    requires RunOf(ss, acts) && j < k < |ss| && acts[j] == AllocAsync(t, r) && !At(ss[j + 1], t).Idle?
    requires forall m :: j < m < k && acts[m].t == t ==> !Begins(acts[m])
    ensures Goes(ss[k], t, r.id)
  {
    if k == j + 1 {
      AllocTakes(ss, acts, j);
    } else {
      CallKeepsRequest(ss, acts, j, k - 1, t, r);
      StepGoes(ss[k - 1], acts[k - 1], t, r.id);
    }
  }

  // ---------- no cancellation is lost ----------

  /** The cancellation has been answered, or waits on the stack or in the queue. */
  predicate Cancelling(s: State, id: Id) {
    id in s.answers || id in CancelIds(s.stack) || id in CancelIds(s.queue)
  }

  lemma {:induction false} DrainAnswers(s: State, id: Id)
    requires Cancelling(s, id)
    ensures Cancelling(Drained(s), id)
  {
    KeepIs(s.queue + Requests(s.stack), CancelIds(s.stack));
    PartsConcat(s.queue, Requests(s.stack));
  }

  lemma {:induction false} ServeAnswers(s: State, t: Tid, c: Cont, w: Word, id: Id)
    requires Cancelling(s, id)
    ensures Cancelling(ServeOf(s, t, c, w), id)
  {
    if s.queue != [] {
      AllocStep(s.queue);
      if s.queue[0].Cancel? {
        KeepIs(s.queue[1..], {s.queue[0].id});
      }
    }
  }

  lemma {:induction false} RunCancelling(s: State, t: Tid, id: Id)
    requires Running(At(s, t)) && Cancelling(s, id)
    ensures Cancelling(StepRunOf(s, t), id)
  {
    match At(s, t)
    case CancelPop(i) => DrainAnswers(s, id);
    case DrainPop(c, w) => DrainAnswers(s, id);
    case CancelRemove(i) => KeepIs(s.queue, {i});
    case Serve(c, w) => ServeAnswers(s, t, c, w, id);
    case _ =>
  }

  lemma {:induction false} SubmitCancels(s: State, t: Tid, id: Id)
    requires At(s, t).Submit? && (Cancelling(s, id) || At(s, t).job == Cancel(id))
    ensures Cancelling(SubmitOf(s, t), id)
  {
    var j := At(s, t).job;
    PartsConcat(s.queue, [j]);
    PartsConcat([j], s.stack);
    AllocStep([j]);
  }

  lemma {:induction false} StepCancelling(s: State, a: Action, id: Id)
    requires Can(s, a) && Cancelling(s, id)
    ensures Cancelling(Do(s, a), id)
  {
    match a
    case StepRun(t) => RunCancelling(s, t, id);
    case DoSubmit(t) => SubmitCancels(s, t, id);
    case _ =>
  }

  lemma {:induction false} BecomesAwaiting(s: State, a: Action, id: Id)
    requires Can(s, a) && ContOf(At(Do(s, a), a.t)) == AwaitCancel(id)
    ensures ContOf(At(s, a.t)) == AwaitCancel(id) || Cancelling(Do(s, a), id)
  {
    match a
    case StepRun(t) => RunAwaiting(s, t, id);
    case DoSubmit(t) =>
      if At(s, t).job == Cancel(id) {
        SubmitCancels(s, t, id);
      }
    case _ =>
  }

  lemma {:induction false} RunAwaiting(s: State, t: Tid, id: Id)
    requires Running(At(s, t)) && ContOf(At(StepRunOf(s, t), t)) == AwaitCancel(id)
    ensures ContOf(At(s, t)) == AwaitCancel(id) || Cancelling(StepRunOf(s, t), id)
  {
    match At(s, t)
    case Serve(c, w) => ServeFor(s, t, c, w);
    case _ =>
  }

  lemma {:induction false} StepKept(s: State, a: Action, t: Tid, id: Id)
    requires Can(s, a) && ContOf(At(Do(s, a), t)) == AwaitCancel(id)
    requires ContOf(At(s, t)) == AwaitCancel(id) ==> Cancelling(s, id)
    ensures Cancelling(Do(s, a), id)
  {
    if a.t == t {
      BecomesAwaiting(s, a, id);
    } else {
      OthersStay(s, a, Do(s, a), t);
    }
    if Cancelling(s, id) {
      StepCancelling(s, a, id);
    }
  }

  predicate KeptFor(s: State, t: Tid, id: Id) {
    ContOf(At(s, t)) == AwaitCancel(id) ==> Cancelling(s, id)
  }

  lemma {:induction false} KeptLasts(ss: seq<State>, k: nat, t: Tid, id: Id)
    requires k < |ss| && KeptFor(ss[0], t, id)
    requires forall i :: 0 <= i < |ss| - 1 && KeptFor(ss[i], t, id) ==> KeptFor(ss[i + 1], t, id)
    ensures KeptFor(ss[k], t, id)
  {
    if k > 0 {
      KeptLasts(ss, k - 1, t, id);
      assert KeptFor(ss[k - 1], t, id) ==> KeptFor(ss[k - 1 + 1], t, id);
    }
  }

  /** Whoever waits for a cancellation has been answered, or its cancellation is on the stack or in the queue. */
  lemma {:induction false} CancelIsKept(ss: seq<State>, acts: seq<Action>, k: nat, t: Tid, id: Id)
    requires RunOf(ss, acts) && k < |ss| && ContOf(At(ss[k], t)) == AwaitCancel(id)
    ensures Cancelling(ss[k], id)
  {
    forall i | 0 <= i < |acts| && KeptFor(ss[i], t, id)
      ensures KeptFor(ss[i + 1], t, id)
    {
      if ContOf(At(ss[i + 1], t)) == AwaitCancel(id) {
        StepKept(ss[i], acts[i], t, id);
      }
    }
    KeptLasts(ss, k, t, id);
  }

  // ---------- a cancellation as a call ----------

  /** The thread is in the middle of cancelling this request. */
  predicate Cancels(p: Pc, id: Id) {
    || p == CancelTry(id) || p == CancelWait(id) || p == CancelDrain(id) || p == CancelClear(id) || p == CancelPop(id)
    || p == CancelRemove(id) || p == Submit(Cancel(id)) || p == SetBits(Cancel(id)) || InService(p, id)
  }

  /** It runs the queue, to wait for the answer afterwards. */
  predicate InService(p: Pc, id: Id) {
    (p.Run? || p.Drain? || p.DrainClear? || p.DrainPop? || p.Serve? || p.Exit?) && p.cont == AwaitCancel(id)
  }

  lemma {:induction false} RunCancels(s: State, t: Tid, id: Id)
    requires Running(At(s, t)) && Cancels(At(s, t), id)
    ensures Cancels(At(StepRunOf(s, t), t), id)
  {
    match At(s, t)
    case Serve(c, w) => ServeFor(s, t, c, w);
    case _ =>
  }

  lemma {:induction false} OwnCancels(s: State, a: Action, id: Id)
    requires Can(s, a) && Cancels(At(s, a.t), id)
    ensures var s' := Do(s, a); Cancels(At(s', a.t), id) || (At(s', a.t).Idle? && id in s'.answers)
  {
    if a.StepRun? {
      RunCancels(s, a.t, id);
    }
  }

  lemma {:induction false} AnswersStay(s: State, a: Action, id: Id)
    requires Can(s, a) && id in s.answers
    ensures id in Do(s, a).answers
  {
    if a.StepRun? {
      BooksGrow(s, a.t, id);
    }
  }

  predicate CancelGoes(s: State, t: Tid, id: Id) {
    Cancels(At(s, t), id) || (At(s, t).Idle? && id in s.answers)
  }

  lemma {:induction false} StepCancels(s: State, a: Action, t: Tid, id: Id)
    requires Can(s, a) && CancelGoes(s, t, id) && (a.t == t ==> !Begins(a))
    ensures CancelGoes(Do(s, a), t, id)
  {
    if a.t != t {
      OthersStay(s, a, Do(s, a), t);
    } else if Cancels(At(s, t), id) {
      OwnCancels(s, a, id);
    }
    if id in s.answers {
      AnswersStay(s, a, id);
    }
  }

  /** A cancellation that has begun goes on until it has been answered, and ends only then. */
  lemma {:induction false} CancelEnds(ss: seq<State>, acts: seq<Action>, j: nat, k: nat, t: Tid, id: Id)
    requires RunOf(ss, acts) && j < k < |ss| && acts[j] == StartCancel(t) && At(ss[j], t) == Waiting(id)
    requires forall m :: j < m < k && acts[m].t == t ==> !Begins(acts[m])
    ensures CancelGoes(ss[k], t, id)
  {
    if j + 1 < k {
      CancelEnds(ss, acts, j, k - 1, t, id);
      StepCancels(ss[k - 1], acts[k - 1], t, id);
    }
  }

  /** A cancellation takes the lock bit if no one has it, and serves itself; otherwise it is submitted. */
  lemma {:induction false} CancelTried(ss: seq<State>, acts: seq<Action>, k: nat)
    requires RunOf(ss, acts) && k < |acts| && acts[k].DoCancelTry?
    ensures var s, s', t := ss[k], ss[k + 1], acts[k].t;
      var id := At(s, t).id;
      if s.holder == None then s'.holder == Some(t) && At(s', t) == CancelDrain(id)
      else s' == s.(pc := s.pc[t := Submit(Cancel(id))])
  {
    RunInv(ss, acts, k);
    CancelTryStep(ss[k], acts[k].t);
  }

  lemma {:induction false} CancelTryStep(s: State, t: Tid)
    requires WordOk(s) && At(s, t).CancelTry?
    ensures var s', id := CancelTryOf(s, t), At(s, t).id;
      if s.holder == None then s'.holder == Some(t) && At(s', t) == CancelDrain(id)
      else s' == s.(pc := s.pc[t := Submit(Cancel(id))])
  {
  }

  // ---------- no step is idle ----------

  lemma {:induction false} RunMoves(s: State, t: Tid)
    requires Running(At(s, t))
    ensures var s' := StepRunOf(s, t); At(s', t) != At(s, t) || |s'.queue| < |s.queue|
  {
    match At(s, t)
    case Serve(c, w) =>
      if s.queue != [] && s.queue[0].Cancel? {
        KeepShorter(s.queue[1..], {s.queue[0].id});
      }
    case _ =>
  }

  lemma {:induction false} KeepShorter(q: seq<Job>, gone: set<Id>)
    ensures |Keep(q, gone)| <= |q|
  {
    if q != [] {
      KeepShorter(q[1..], gone);
    }
  }

  /** Every step of a call gets its thread on, or takes a job off the queue. */
  lemma {:induction false} StepsMove(ss: seq<State>, acts: seq<Action>, k: nat)
    requires RunOf(ss, acts) && k < |acts| && !Begins(acts[k])
    ensures At(ss[k + 1], acts[k].t) != At(ss[k], acts[k].t) || |ss[k + 1].queue| < |ss[k].queue|
  {
    if acts[k].StepRun? {
      RunMoves(ss[k], acts[k].t);
    } else {
      CallerMoves(ss[k], acts[k]);
    }
  }

  lemma {:induction false} CallerMoves(s: State, a: Action)
    requires Can(s, a) && !Begins(a) && !a.StepRun?
    ensures At(Do(s, a), a.t) != At(s, a.t)
  {
  }
}
