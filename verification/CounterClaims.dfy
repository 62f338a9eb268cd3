/** The counter's promises to its callers over whole runs, and the one place where it falls short. */
module CounterClaims {
  import opened Base
  import opened Counter
  import opened CounterJobs

  /** A request ends granted or cancelled, never both, and never twice; cancellations are told the truth. */
  lemma {:induction false} OneOutcome(ss: seq<State>, acts: seq<Action>, k: nat, id: Id)
    requires RunOf(ss, acts) && k < |ss|
    ensures var s := ss[k];
      && !(id in s.granted && id in s.cancelled)
      && Distinct(s.granted)
      && (id in s.answers ==> (s.answers[id] <==> id in s.cancelled) && (!s.answers[id] <==> id in s.granted))
  {
    RunJobs(ss, acts, k);
    var s := ss[k];
    Places(s, id);
    LessIs(s.entered, s.cancelled);
    assert s.granted == (s.granted + Ids(s.queue))[..|s.granted|];
  }

  /** Requests are granted in the order in which they entered the queue; only cancelled ones are passed over. */
  lemma {:induction false} GrantsInOrder(ss: seq<State>, acts: seq<Action>, k: nat)
    requires RunOf(ss, acts) && k < |ss|
    ensures Less(ss[k].entered, ss[k].cancelled) == ss[k].granted + Ids(ss[k].queue)
    ensures Distinct(ss[k].entered)
  {
    RunJobs(ss, acts, k);
  }

  // ---------- no request is lost ----------

  lemma {:induction false} DrainHands(s: State, s': State, p: map<Tid, Pc>, id: Id)
    requires JobsOk(s) && s' == Drained(s).(pc := p) && Handed(s, id)
    ensures Handed(s', id)
  {
    DrainedPopped(s, s', p);
  }

  lemma {:induction false} PushHands(s: State, j: Job, id: Id)
    ensures id in AllocIds([j] + s.stack) <==> id in AllocIds(s.stack) || (j.Alloc? && j.req.id == id)
  {
    AllocStep([j] + s.stack);
    assert ([j] + s.stack)[1..] == s.stack;
  }

  lemma {:induction false} StepHands(s: State, a: Action, s': State, id: Id)
    requires JobsOk(s) && Can(s, a) && s' == Do(s, a) && Handed(s, id)
    ensures Handed(s', id)
  {
    match a
    case DoSubmit(t) => PushHands(s, At(s, t).job, id);
    case StepRun(t) => RunHands(s, s', t, id);
    case _ => assert s'.stack == s.stack && s'.entered == s.entered;
  }

  lemma {:induction false} RunHands(s: State, s': State, t: Tid, id: Id)
    requires JobsOk(s) && Running(At(s, t)) && s' == StepRunOf(s, t) && Handed(s, id)
    ensures Handed(s', id)
  {
    if Popping(At(s, t)) {
      DrainHands(s, s', s'.pc, id);
    }
  }

  predicate BeingSubmitted(s: State, id: Id) {
    && id in s.owner
    && var p := At(s, s.owner[id]);
    p.Submit? && p.job.Alloc? && p.job.req.id == id
  }

  lemma {:induction false} StepKnown(s: State, a: Action, s': State, id: Id)
    requires JobsOk(s) && Can(s, a) && s' == Do(s, a)
    requires id in s.owner ==> Handed(s, id) || BeingSubmitted(s, id)
    ensures id in s'.owner ==> Handed(s', id) || BeingSubmitted(s', id)
  {
    if Handed(s, id) {
      StepHands(s, a, s', id);
    } else if id in s.owner {
      var t := s.owner[id];
      if a == DoSubmit(t) {
        SubmitHands(s, s', t, id);
      } else {
        OthersSubmit(s, a, s', id);
      }
    } else {
      NewSubmit(s, a, s', id);
    }
  }

  lemma {:induction false} SubmitHands(s: State, s': State, t: Tid, id: Id)
    requires At(s, t).Submit? && At(s, t).job.Alloc? && At(s, t).job.req.id == id && s' == SubmitOf(s, t)
    ensures Handed(s', id)
  {
    var j := At(s, t).job;
    PushHands(s, j, id);
    assert Ids([j]) == [id];
    assert id in s.entered + [id];
  }

  lemma {:induction false} OthersSubmit(s: State, a: Action, s': State, id: Id)
    requires Can(s, a) && s' == Do(s, a) && BeingSubmitted(s, id)
    requires a != DoSubmit(s.owner[id])
    ensures BeingSubmitted(s', id)
  {
    OwnerStays(s, a, s', id);
    OthersStay(s, a, s', s.owner[id]);
  }

  lemma {:induction false} OwnerStays(s: State, a: Action, s': State, id: Id)
    requires Can(s, a) && s' == Do(s, a) && id in s.owner
    ensures id in s'.owner && s'.owner[id] == s.owner[id]
  {
    if a.StepRun? {
      RunOwner(s, s', a.t);
    }
  }

  lemma {:induction false} RunOwner(s: State, s': State, t: Tid)
    requires Running(At(s, t)) && s' == StepRunOf(s, t)
    ensures s'.owner == s.owner && forall u :: u != t ==> At(s', u) == At(s, u)
  {
  }

  lemma {:induction false} OthersStay(s: State, a: Action, s': State, u: Tid)
    requires Can(s, a) && s' == Do(s, a) && u != a.t
    ensures At(s', u) == At(s, u)
  {
    if a.StepRun? {
      RunOwner(s, s', a.t);
    }
  }

  lemma {:induction false} NewSubmit(s: State, a: Action, s': State, id: Id)
    requires Can(s, a) && s' == Do(s, a) && id !in s.owner
    ensures id in s'.owner ==> BeingSubmitted(s', id)
  {
    match a
    case StepRun(t) =>
    case _ =>
  }

  /** Every request made is being submitted, or on the stack, or queued, or granted, or cancelled. */
  lemma {:induction false} RequestIsKept(ss: seq<State>, acts: seq<Action>, k: nat, id: Id)
    requires RunOf(ss, acts) && k < |ss| && id in ss[k].owner
    ensures var s := ss[k];
      || BeingSubmitted(s, id) || id in AllocIds(s.stack) || id in AllocIds(s.queue)
      || id in s.granted || id in s.cancelled
  {
    RunKnown(ss, acts, k, id);
    RunJobs(ss, acts, k);
    Places(ss[k], id);
  }

  lemma {:induction false} RunKnown(ss: seq<State>, acts: seq<Action>, k: nat, id: Id)
    requires RunOf(ss, acts) && k < |ss|
    ensures id in ss[k].owner ==> Handed(ss[k], id) || BeingSubmitted(ss[k], id)
  {
    if k > 0 {
      RunKnown(ss, acts, k - 1, id);
      RunJobs(ss, acts, k - 1);
      StepKnown(ss[k - 1], acts[k - 1], ss[k], id);
    }
  }

  // ---------- jobs left on the stack ----------

  /** The submitter of this job has set the incoming bit and relies on the queue being served. */
  predicate Submitted(s: State, i: nat)
    requires i < |s.stack|
  {
    At(s, JobOwner(s, s.stack[i])) != SetBits(s.stack[i])
  }

  predicate LeftBehind(s: State) {
    !s.word.lock && exists i :: 0 <= i < |s.stack| && Submitted(s, i)
  }

  /** With lock and incoming both clear, no submitted job is left on the stack. */
  lemma {:induction false} NothingLeft(ss: seq<State>, acts: seq<Action>, k: nat)
    requires RunOf(ss, acts) && k < |ss| && LeftBehind(ss[k])
    ensures ss[k].word.incoming
  {
    RunJobs(ss, acts, k);
    var s := ss[k];
    var i :| 0 <= i < |s.stack| && Submitted(s, i);
    AnnouncedAt(s, i);
  }

  // ---------- a run that leaves a request behind ----------

  /** Thread 1 took both units of a counter of two and freed them; thread 2 missed them in between. */
  function Freed(): State {
    State(2, Word(false, false, false, 2), [], [], map[2 := Submit(Alloc(Req(7, 1)))], None, 0,
          [], {}, [], map[7 := 2], map[])
  }

  /** Thread 2 has the lock bit and is about to serve its own request. */
  function Serving(): State {
    State(2, Word(true, false, false, 2), [], [Alloc(Req(7, 1))],
          map[2 := Serve(Await(7), Word(true, false, false, 2))], Some(2), 0,
          [], {}, [7], map[7 := 2], map[])
  }

  /** Thread 3 has handed in its request and leaves it to thread 2. */
  function HandedIn(): State {
    State(2, Word(true, true, false, 2), [Alloc(Req(8, 1))], [Alloc(Req(7, 1))],
          map[2 := Serve(Await(7), Word(true, false, false, 2)), 3 := Waiting(8)], Some(2), 0,
          [], {}, [7], map[7 := 2, 8 := 3], map[])
  }

  /** Thread 2 has granted its own request and left; request 8 waits, though there is a unit for it. */
  function Stuck(): State {
    State(2, Word(false, true, false, 1), [Alloc(Req(8, 1))], [],
          map[2 := Waiting(7), 3 := Waiting(8)], None, 1,
          [7], {}, [7], map[7 := 2, 8 := 3], map[])
  }

  predicate Steps(ss: seq<State>, acts: seq<Action>) {
    && |ss| == |acts| + 1
    && forall i :: 0 <= i < |acts| ==> Can(ss[i], acts[i]) && ss[i + 1] == Do(ss[i], acts[i])
  }

  lemma {:induction false} StepsThen(ss: seq<State>, acts: seq<Action>, a: Action)
    requires Steps(ss, acts) && Can(ss[|acts|], a)
    ensures Steps(ss + [Do(ss[|acts|], a)], acts + [a])
  {
    var ss', acts' := ss + [Do(ss[|acts|], a)], acts + [a];
    forall i | 0 <= i < |acts'|
      ensures Can(ss'[i], acts'[i]) && ss'[i + 1] == Do(ss'[i], acts'[i])
    {
      if i < |acts| {
        assert ss'[i] == ss[i] && ss'[i + 1] == ss[i + 1] && acts'[i] == acts[i];
      }
    }
  }

  /** Continues a run by one action. */
  lemma {:induction false} Next(ss: seq<State>, acts: seq<Action>, a: Action) returns (ss': seq<State>, acts': seq<Action>)
    requires Steps(ss, acts) && Can(ss[|acts|], a)
    ensures Steps(ss', acts') && |ss'| == |ss| + 1 && ss'[0] == ss[0]
    ensures ss'[|acts'|] == Do(ss[|acts|], a)
  {
    StepsThen(ss, acts, a);
    ss', acts' := ss + [Do(ss[|acts|], a)], acts + [a];
  }

  function Start(): State {
    State(2, Word(false, false, false, 2), [], [], map[], None, 0, [], {}, [], map[], map[])
  }

  lemma {:induction false} ToFreed() returns (ss: seq<State>, acts: seq<Action>)
    ensures Steps(ss, acts) && ss[0] == Start() && ss[|acts|] == Freed()
  {
    ss, acts := [Start()], [];
    ss, acts := Next(ss, acts, TryAlloc(1, 2));
    var taken := Start().(word := Word(false, false, false, 0), out := 2);
    assert ss[|acts|] == taken;
    ss, acts := Next(ss, acts, AllocAsync(2, Req(7, 1)));
    assert ss[|acts|] == Freed().(word := taken.word, out := 2);
    ss, acts := Next(ss, acts, Free(1, 2));
  }

  lemma {:induction false} FastPath()
    ensures Can(Freed(), DoSubmit(2))
    ensures Do(Freed(), DoSubmit(2)) == Serving().(pc := map[2 := Run(Await(7))])
  {
    var j := Alloc(Req(7, 1));
    assert Ids([j]) == [7] + Ids([j][1..]);
    assert [] + [j] == [j];
  }

  lemma {:induction false} ToServing(ss0: seq<State>, acts0: seq<Action>) returns (ss: seq<State>, acts: seq<Action>)
    requires Steps(ss0, acts0) && ss0[|acts0|] == Freed()
    ensures Steps(ss, acts) && ss[0] == ss0[0] && ss[|acts|] == Serving()
  {
    FastPath();
    ss, acts := Next(ss0, acts0, DoSubmit(2));
    ss, acts := Next(ss, acts, StepRun(2));
    ss, acts := Next(ss, acts, StepRun(2));
    assert ss[|acts|].pc == Serving().pc;
  }

  lemma {:induction false} ToHandedIn(ss0: seq<State>, acts0: seq<Action>) returns (ss: seq<State>, acts: seq<Action>)
    requires Steps(ss0, acts0) && ss0[|acts0|] == Serving()
    ensures Steps(ss, acts) && ss[0] == ss0[0] && ss[|acts|] == HandedIn()
  {
    ss, acts := Next(ss0, acts0, AllocAsync(3, Req(8, 1)));
    ss, acts := Next(ss, acts, DoSubmit(3));
    ss, acts := Next(ss, acts, DoSetBits(3));
    assert ss[|acts|].pc == HandedIn().pc && ss[|acts|].owner == HandedIn().owner;
    assert ss[|acts|].stack == HandedIn().stack;
  }

  lemma {:induction false} ToStuck(ss0: seq<State>, acts0: seq<Action>) returns (ss: seq<State>, acts: seq<Action>)
    requires Steps(ss0, acts0) && ss0[|acts0|] == HandedIn()
    ensures Steps(ss, acts) && ss[0] == ss0[0] && ss[|acts|] == Stuck()
  {
    ss, acts := Next(ss0, acts0, StepRun(2));
    ss, acts := Next(ss, acts, StepRun(2));
    ss, acts := Next(ss, acts, StepRun(2));
    assert ss[|acts|].pc == Stuck().pc;
  }

  /** A free lock does not mean that every request the units cover has been granted. */
  lemma {:induction false} RequestLeftBehind() returns (ss: seq<State>, acts: seq<Action>, k: nat)
    ensures RunOf(ss, acts) && k < |ss| && LeftBehind(ss[k])
    ensures ss[k].stack[0].Alloc? && ss[k].stack[0].req.need <= ss[k].word.avail
    ensures At(ss[k], 3) == Waiting(ss[k].stack[0].req.id)
  {
    ss, acts := ToFreed();
    ss, acts := ToServing(ss, acts);
    ss, acts := ToHandedIn(ss, acts);
    ss, acts := ToStuck(ss, acts);
    k := |acts|;
    assert Submitted(ss[k], 0);
  }
}