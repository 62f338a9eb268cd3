/** How many steps a call of the counter takes that no other thread disturbs. */
module CounterAlone {
  import opened Base
  import opened Counter
  import CounterRest

  /** All jobs that wait. */
  function Jobs(s: State): nat {
    |s.queue| + |s.stack|
  }

  /** The word is as the runner last saw it, but for the incoming bit. */
  predicate Same(s: State, w: Word) {
    w.(incoming := false) == s.word.(incoming := false)
  }

  predicate SameIdle(s: State, w: Word) {
    w.(incoming := false) == s.word
  }

  /** The steps a call still takes when only its thread steps: one more round if its exit swap is lost already. */
  function Left(s: State, t: Tid): nat {
    var n := Jobs(s);
    match At(s, t)
    case Idle => 0
    case Waiting(id) => if id in s.granted then 1 else 0
    case CancelWait(id) => if id in s.answers then 1 else 0
    case Exit(_, w) => if w == s.word then 2 else n + 7
    case Serve(_, w) => if w == s.word then |s.queue| + 3 else n + |s.queue| + 8
    case DrainPop(_, w) => if SameIdle(s, w) then n + 4 else 2 * n + 9
    case DrainClear(_, w) => if Same(s, w) then n + 5 else 2 * n + 10
    case Drain(_, w) => if Same(s, w) then n + 6 else 2 * n + 11
    case Run(_) => n + 7
    case CancelRemove(_) => n + 8
    case CancelPop(_) => n + 9
    case CancelClear(_) => n + 10
    case CancelDrain(_) => n + 11
    case SetBits(_) => n + 8
    case Submit(_) => n + 10
    case CancelTry(_) => n + 12
  }

  lemma {:induction false} KeepShorter(q: seq<Job>, gone: set<Id>)
    ensures |Keep(q, gone)| <= |q|
  {
    if q != [] {
      KeepShorter(q[1..], gone);
    }
  }

  lemma {:induction false} RequestsShorter(stack: seq<Job>)
    ensures |Requests(stack)| <= |stack|
  {
    if stack != [] {
      RequestsShorter(stack[1..]);
    }
  }

  lemma {:induction false} DrainedShorter(s: State)
    ensures |Drained(s).queue| <= Jobs(s) && Drained(s).stack == []
  {
    RequestsShorter(s.stack);
    KeepShorter(s.queue + Requests(s.stack), CancelIds(s.stack));
  }

  lemma {:induction false} PopLowers(s: State, t: Tid)
    requires At(s, t).DrainPop? || At(s, t).CancelPop?
    ensures Left(StepRunOf(s, t), t) < Left(s, t)
  {
    DrainedShorter(s);
  }

  lemma {:induction false} RemoveLowers(s: State, t: Tid)
    requires At(s, t).CancelRemove?
    ensures Left(StepRunOf(s, t), t) < Left(s, t)
  {
    KeepShorter(s.queue, {At(s, t).id});
  }

  lemma {:induction false} ServeLowers(s: State, t: Tid)
    requires At(s, t).Serve?
    ensures Left(StepRunOf(s, t), t) < Left(s, t)
  {
    if s.queue != [] && s.queue[0].Cancel? {
      KeepShorter(s.queue[1..], {s.queue[0].id});
    }
  }

  lemma {:induction false} ExitLowers(s: State, t: Tid)
    requires At(s, t).Exit?
    ensures Left(StepRunOf(s, t), t) < Left(s, t)
  {
  }

  lemma {:induction false} RoundLowers(s: State, t: Tid)
    requires var p := At(s, t); p.Run? || p.Drain? || p.DrainClear? || p.CancelDrain? || p.CancelClear?
    ensures Left(StepRunOf(s, t), t) < Left(s, t)
  {
  }

  lemma {:induction false} SubmitLowers(s: State, a: Action)
    requires Can(s, a) && CounterRest.Inner(a) && !a.StepRun?
    ensures Left(Do(s, a), a.t) < Left(s, a.t)
  {
  }

  lemma {:induction false} StepLowers(s: State, a: Action)
    requires Can(s, a) && CounterRest.Inner(a)
    ensures Left(Do(s, a), a.t) < Left(s, a.t)
  {
    var p := At(s, a.t);
    if !a.StepRun? {
      SubmitLowers(s, a);
    } else if p.DrainPop? || p.CancelPop? {
      PopLowers(s, a.t);
    } else if p.CancelRemove? {
      RemoveLowers(s, a.t);
    } else if p.Serve? {
      ServeLowers(s, a.t);
    } else if p.Exit? {
      ExitLowers(s, a.t);
    } else {
      RoundLowers(s, a.t);
    }
  }

  predicate Alone(acts: seq<Action>, j: nat, k: nat, t: Tid)
    requires j <= k <= |acts|
  {
    forall m :: j <= m < k ==> CounterRest.Inner(acts[m]) && acts[m].t == t
  }

  predicate Lower(ss: seq<State>, k: nat, t: Tid)
    requires 0 < k < |ss|
  {
    Left(ss[k], t) < Left(ss[k - 1], t)
  }

  lemma {:induction false} RunLower(ss: seq<State>, acts: seq<Action>, k: nat)
    requires RunOf(ss, acts) && k < |acts| && CounterRest.Inner(acts[k])
    ensures Lower(ss, k + 1, acts[k].t)
  {
    StepLowers(ss[k], acts[k]);
  }

  lemma {:induction false} LowerSteps(ss: seq<State>, j: nat, k: nat, t: Tid)
    requires j <= k < |ss| && forall m :: j < m <= k ==> Lower(ss, m, t)
    ensures k - j + Left(ss[k], t) <= Left(ss[j], t)
    decreases k
  {
    if j < k {
      LowerSteps(ss, j, k - 1, t);
      assert Lower(ss, k, t);
    }
  }

  ghost predicate Lowers(ss: seq<State>, acts: seq<Action>) {
    |ss| == |acts| + 1 && forall k :: 0 <= k < |acts| && CounterRest.Inner(acts[k]) ==> Lower(ss, k + 1, acts[k].t)
  }

  lemma {:induction false} RunLowers(ss: seq<State>, acts: seq<Action>)
    requires RunOf(ss, acts)
    ensures Lowers(ss, acts)
  {
    forall k | 0 <= k < |acts| && CounterRest.Inner(acts[k])
      ensures Lower(ss, k + 1, acts[k].t)
    {
      RunLower(ss, acts, k);
    }
  }

  lemma {:induction false} LeftFalls(ss: seq<State>, acts: seq<Action>, j: nat, k: nat, t: Tid)
    requires Lowers(ss, acts) && j <= k < |ss| && Alone(acts, j, k, t)
    ensures k - j <= Left(ss[j], t)
  {
    forall m | j < m <= k
      ensures Lower(ss, m, t)
    {
      assert Lower(ss, m - 1 + 1, acts[m - 1].t);
    }
    LowerSteps(ss, j, k, t);
  }

  lemma {:induction false} LeftBound(s: State, t: Tid)
    ensures Left(s, t) <= 2 * (|s.queue| + |s.stack|) + 12
  {
  }

  /**
   * A call that no other thread disturbs ends or waits within as many steps as there are jobs, twice, and
   * twelve more; so a thread that runs the queue alone serves it and lets go of the lock bit.
   */
  lemma {:induction false} EndsAlone(ss: seq<State>, acts: seq<Action>, j: nat, k: nat, t: Tid)
    requires RunOf(ss, acts) && j <= k < |ss| && Alone(acts, j, k, t)
    ensures k - j <= 2 * (|ss[j].queue| + |ss[j].stack|) + 12
  {
    RunLowers(ss, acts);
    LeftFalls(ss, acts, j, k, t);
    LeftBound(ss[j], t);
  }
}
