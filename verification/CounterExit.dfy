/**
 * When the thread that serves the queue lets go of the lock although a job waits on the stack: told
 * from what was done before, in every run.
 */
module CounterExit {
  import opened Base
  import opened Counter
  import opened CounterRuns
  import opened CounterJobs
  import opened CounterClaims

  predicate Pops(s: State, a: Action) {
    a.StepRun? && Popping(At(s, a.t))
  }

  /** The submitter finds the delegate busy and puts its job on the stack. */
  predicate Pushes(s: State, a: Action) {
    a.DoSubmit? && At(s, a.t).Submit? && !Quiet(s.word)
  }

  /** The thread serves a request from the head of the queue. */
  predicate Grants(s: State, a: Action, t: Tid) {
    && a == StepRun(t) && At(s, t).Serve?
    && s.queue != [] && s.queue[0].Alloc? && s.queue[0].req.need <= s.word.avail
  }

  predicate InService(p: Pc) {
    p.Serve? || p.Exit?
  }

  // ---------- what one step does to the stack and to the threads ----------

  /** A job on the stack keeps its owner, and an announcement is not taken back. */
  predicate Keeps(s: State, s': State, x: Job) {
    && JobOwner(s', x) == JobOwner(s, x)
    && (At(s, JobOwner(s, x)) != SetBits(x) ==> At(s', JobOwner(s, x)) != SetBits(x))
  }

  predicate Submits(s: State, a: Action, s': State) {
    && (Pushes(s, a) ==>
          JobOwner(s', At(s, a.t).job) == a.t && At(s', a.t) == SetBits(At(s, a.t).job))
    && (At(s, a.t).SetBits? ==> a == DoSetBits(a.t) && !At(s', a.t).SetBits?)
  }

  predicate Serves(s: State, a: Action, s': State) {
    && (At(s, a.t).Serve? ==>
          && InService(At(s', a.t))
          && At(s', a.t).seen == if Grants(s, a, a.t) then s'.word else At(s, a.t).seen)
    && (!At(s, a.t).Serve? && InService(At(s', a.t)) ==> !At(s', a.t).seen.incoming)
  }

  ghost predicate Moves(s: State, a: Action, s': State) {
    && (forall u :: u != a.t ==> At(s', u) == At(s, u))
    && s'.stack == (if Pops(s, a) then [] else if Pushes(s, a) then [At(s, a.t).job] + s.stack else s.stack)
    && (forall x :: x in s.stack ==> Keeps(s, s', x))
    && Submits(s, a, s')
    && Serves(s, a, s')
  }

  lemma {:induction false} StackMoves(s: State, a: Action, s': State)
    requires Can(s, a) && s' == Do(s, a)
    ensures s'.stack ==
      if Pops(s, a) then [] else if Pushes(s, a) then [At(s, a.t).job] + s.stack else s.stack
  {
  }

  lemma {:induction false} SubmitMoves(s: State, a: Action, s': State)
    requires ThreadOk(s, a.t) && Can(s, a) && s' == Do(s, a)
    ensures Submits(s, a, s')
  {
  }

  lemma {:induction false} ServeMoves(s: State, a: Action, s': State)
    requires Can(s, a) && s' == Do(s, a)
    ensures Serves(s, a, s')
  {
    if a.StepRun? {
      RunServes(s, s', a.t);
    } else {
      assert !InService(At(s, a.t)) && !InService(At(s', a.t));
    }
  }

  lemma {:induction false} RunServes(s: State, s': State, t: Tid)
    requires Running(At(s, t)) && s' == StepRunOf(s, t)
    ensures Serves(s, StepRun(t), s')
  {
  }

  function JobId(j: Job): Id {
    if j.Alloc? then j.req.id else j.id
  }

  /** The request is on its way, or its cancellation is. */
  predicate Known(s: State, x: Job) {
    if x.Alloc? then Handed(s, x.req.id) else !Unasked(s, x.id)
  }

  lemma {:induction false} StackedIsKnown(s: State, x: Job)
    requires OrderOk(s) && AskedOk(s) && x in s.stack
    ensures JobId(x) in s.owner && Known(s, x)
  {
    assert x.Alloc? ==> x.req.id in AllocIds(s.stack);
    assert x.Cancel? ==> x.id in CancelIds(s.stack);
  }

  /** A job that lies on the stack is not submitted a second time. */
  lemma {:induction false} NotAgain(s: State, a: Action, s': State, x: Job)
    requires Can(s, a) && s' == Do(s, a) && ThreadOk(s, a.t) && Known(s, x)
    ensures At(s, a.t) != SetBits(x) ==> At(s', a.t) != SetBits(x)
  {
    if a.DoSubmit? {
      assert At(s, a.t).job != x;
    } else if a.StepRun? {
      RunNoSubmit(s, s', a.t);
    }
  }

  lemma {:induction false} RunNoSubmit(s: State, s': State, t: Tid)
    requires Running(At(s, t)) && s' == StepRunOf(s, t)
    ensures !At(s', t).SetBits?
  {
  }

  lemma {:induction false} StackedKeeps(s: State, a: Action, s': State, x: Job)
    requires JobsOk(s) && Can(s, a) && s' == Do(s, a) && x in s.stack
    ensures Keeps(s, s', x)
  {
    StackedIsKnown(s, x);
    OwnerStays(s, a, s', JobId(x));
    var u := JobOwner(s, x);
    assert ThreadOk(s, u);
    if a.t == u {
      NotAgain(s, a, s', x);
    } else {
      OthersStay(s, a, s', u);
    }
  }

  lemma {:induction false} StepMoves(s: State, a: Action, s': State)
    requires JobsOk(s) && Can(s, a) && s' == Do(s, a)
    ensures Moves(s, a, s')
  {
    assert ThreadOk(s, a.t);
    StackMoves(s, a, s');
    SubmitMoves(s, a, s');
    ServeMoves(s, a, s');
    forall u | u != a.t
      ensures At(s', u) == At(s, u)
    {
      OthersStay(s, a, s', u);
    }
    forall x | x in s.stack
      ensures Keeps(s, s', x)
    {
      StackedKeeps(s, a, s', x);
    }
  }

  // ---------- whole runs ----------

  ghost predicate History(ss: seq<State>, acts: seq<Action>) {
    && |ss| == |acts| + 1
    && ss[0].stack == [] && ss[0].pc == map[]
    && forall k :: 0 <= k < |acts| ==> Moves(ss[k], acts[k], ss[k + 1])
  }

  lemma {:induction false} RunHistory(ss: seq<State>, acts: seq<Action>)
    requires RunOf(ss, acts)
    ensures History(ss, acts)
  {
    forall k | 0 <= k < |acts|
      ensures Moves(ss[k], acts[k], ss[k + 1])
    {
      RunJobs(ss, acts, k);
      StepMoves(ss[k], acts[k], ss[k + 1]);
    }
  }

  /** The thread's grant at `j` is its last one, and it has not gone back to drain since. */
  predicate LastGrant(ss: seq<State>, acts: seq<Action>, j: nat, k: nat, t: Tid)
    requires |ss| == |acts| + 1 && j < k < |ss|
  {
    && Grants(ss[j], acts[j], t)
    && forall m :: j < m < k && acts[m].t == t ==> At(ss[m], t).Serve? && !Grants(ss[m], acts[m], t)
  }

  /** After a grant the word that the exit expects is the one the grant left. */
  lemma {:induction false} SeenSinceGrant(ss: seq<State>, acts: seq<Action>, j: nat, k: nat, t: Tid)
    requires History(ss, acts) && j < k < |ss| && LastGrant(ss, acts, j, k, t)
    ensures InService(At(ss[k], t)) && At(ss[k], t).seen == ss[j + 1].word
  {
    assert Moves(ss[k - 1], acts[k - 1], ss[k]);
    if k > j + 1 {
      SeenSinceGrant(ss, acts, j, k - 1, t);
    }
  }

  /** An exit that expects the incoming bit was told so by a grant since the last drain. */
  lemma {:induction false} IncomingFromGrant(ss: seq<State>, acts: seq<Action>, k: nat, t: Tid) returns (j: nat)
    requires History(ss, acts) && k < |ss| && InService(At(ss[k], t)) && At(ss[k], t).seen.incoming
    ensures j < k && LastGrant(ss, acts, j, k, t) && At(ss[k], t).seen == ss[j + 1].word
  {
    assert Moves(ss[k - 1], acts[k - 1], ss[k]);
    if Grants(ss[k - 1], acts[k - 1], t) {
      j := k - 1;
    } else {
      j := IncomingFromGrant(ss, acts, k - 1, t);
    }
  }

  /** A job put on the stack at `h` and announced at `i`, and no one has emptied the stack since. */
  predicate Unserved(ss: seq<State>, acts: seq<Action>, h: nat, i: nat, k: nat)
    requires |ss| == |acts| + 1 && h < i < k < |ss|
  {
    && Pushes(ss[h], acts[h]) && acts[i] == DoSetBits(acts[h].t)
    && (forall m :: h < m < i ==> acts[m].t != acts[h].t)
    && (forall m :: h < m < k ==> !Pops(ss[m], acts[m]))
  }

  lemma {:induction false} WherePushed(ss: seq<State>, acts: seq<Action>, k: nat, x: Job) returns (h: nat)
    requires History(ss, acts) && k < |ss| && x in ss[k].stack
    ensures h < k && Pushes(ss[h], acts[h]) && At(ss[h], acts[h].t).job == x
    ensures JobOwner(ss[k], x) == acts[h].t
    ensures forall m :: h < m < k ==> !Pops(ss[m], acts[m])
  {
    assert Moves(ss[k - 1], acts[k - 1], ss[k]);
    if x in ss[k - 1].stack {
      h := WherePushed(ss, acts, k - 1, x);
      assert Keeps(ss[k - 1], ss[k], x);
    } else {
      h := k - 1;
    }
  }

  /** Having pushed, a submitter does nothing before it sets the bits. */
  lemma {:induction false} WhereAnnounced(ss: seq<State>, acts: seq<Action>, h: nat, k: nat, x: Job) returns (i: nat)
    requires History(ss, acts) && h < k < |ss| && At(ss[h + 1], acts[h].t) == SetBits(x)
    ensures h < i <= k && (forall m :: h < m < i ==> acts[m].t != acts[h].t)
    ensures At(ss[i], acts[h].t) == SetBits(x) && (i < k ==> acts[i] == DoSetBits(acts[h].t))
  {
    if k == h + 1 {
      i := k;
    } else {
      i := WhereAnnounced(ss, acts, h, k - 1, x);
      assert Moves(ss[k - 1], acts[k - 1], ss[k]);
      if i == k - 1 && acts[i].t != acts[h].t {
        i := k;
      }
    }
  }

  lemma {:induction false} StackedSince(ss: seq<State>, acts: seq<Action>, h: nat, k: nat, x: Job)
    requires History(ss, acts) && h < k < |ss| && Pushes(ss[h], acts[h]) && x == At(ss[h], acts[h].t).job
    requires forall m :: h < m < k ==> !Pops(ss[m], acts[m])
    ensures x in ss[k].stack && JobOwner(ss[k], x) == acts[h].t
  {
    assert Moves(ss[k - 1], acts[k - 1], ss[k]);
    if k == h + 1 {
      assert x == ss[k].stack[0];
    } else {
      StackedSince(ss, acts, h, k - 1, x);
      assert Keeps(ss[k - 1], ss[k], x);
    }
  }

  lemma {:induction false} AnnouncedSince(ss: seq<State>, acts: seq<Action>, n: nat, k: nat, x: Job)
    requires History(ss, acts) && n <= k < |ss| && x in ss[n].stack
    requires At(ss[n], JobOwner(ss[n], x)) != SetBits(x)
    requires forall m :: n <= m < k ==> !Pops(ss[m], acts[m])
    ensures x in ss[k].stack && At(ss[k], JobOwner(ss[k], x)) != SetBits(x)
  {
    if n < k {
      AnnouncedSince(ss, acts, n, k - 1, x);
      assert Moves(ss[k - 1], acts[k - 1], ss[k]);
      assert Keeps(ss[k - 1], ss[k], x);
    }
  }

  lemma {:induction false} UnservedStays(ss: seq<State>, acts: seq<Action>, h: nat, i: nat, k: nat) returns (x: Job)
    requires History(ss, acts) && h < i < k < |ss| && Unserved(ss, acts, h, i, k)
    ensures x in ss[k].stack && At(ss[k], JobOwner(ss[k], x)) != SetBits(x)
  {
    x := At(ss[h], acts[h].t).job;
    assert Moves(ss[h], acts[h], ss[h + 1]);
    var n := WhereAnnounced(ss, acts, h, i, x);
    assert Moves(ss[i], acts[i], ss[i + 1]);
    StackedSince(ss, acts, h, i + 1, x);
    AnnouncedSince(ss, acts, i + 1, k, x);
  }

  /** Exactly the jobs announced and not drained since are those that rely on being served. */
  lemma {:induction false} SubmittedIsUnserved(ss: seq<State>, acts: seq<Action>, k: nat)
    requires History(ss, acts) && k < |ss|
    ensures (exists i :: 0 <= i < |ss[k].stack| && Submitted(ss[k], i)) <==>
      exists h, i :: 0 <= h < i < k && Unserved(ss, acts, h, i, k)
  {
    if n :| 0 <= n < |ss[k].stack| && Submitted(ss[k], n) {
      var x := ss[k].stack[n];
      var h := WherePushed(ss, acts, k, x);
      assert Moves(ss[h], acts[h], ss[h + 1]);
      var i := WhereAnnounced(ss, acts, h, k, x);
      assert Unserved(ss, acts, h, i, k);
    }
    if h, i :| 0 <= h < i < k && Unserved(ss, acts, h, i, k) {
      var x := UnservedStays(ss, acts, h, i, k);
      var n :| 0 <= n < |ss[k].stack| && ss[k].stack[n] == x;
      assert Submitted(ss[k], n);
    }
  }

  // ---------- the exit ----------

  lemma {:induction false} ExitStep(s: State, s': State, t: Tid)
    requires StackOk(s) && WordOk(s) && RunnerOk(s, t) && At(s, t).Exit? && s' == StepRunOf(s, t)
    ensures LeftBehind(s') <==>
      s.word == At(s, t).seen && exists i :: 0 <= i < |s.stack| && Submitted(s, i)
    ensures LeftBehind(s') ==> At(s, t).seen.incoming
  {
    forall i | 0 <= i < |s.stack|
      ensures Submitted(s', i) <==> Submitted(s, i)
    {
    }
    if i :| 0 <= i < |s.stack| && Submitted(s, i) {
      AnnouncedAt(s, i);
      assert Submitted(s', i);
    }
  }

  /**
   * The swap that should let go of the lock leaves a submitted job behind if and only if some job was
   * put on the stack and announced and has not been drained since, and the word is as the thread's last
   * grant since its last drain left it. So without a grant since the last drain nothing is left behind.
   */
  lemma {:induction false} ExitLeavesBehind(ss: seq<State>, acts: seq<Action>, k: nat, t: Tid)
    requires RunOf(ss, acts) && k < |acts| && acts[k] == StepRun(t) && At(ss[k], t).Exit?
    ensures LeftBehind(ss[k + 1]) <==>
      && (exists h, i :: 0 <= h < i < k && Unserved(ss, acts, h, i, k))
      && (exists j :: 0 <= j < k && LastGrant(ss, acts, j, k, t) && ss[k].word == ss[j + 1].word)
    ensures At(ss[k], t).seen.incoming ==> exists j :: 0 <= j < k && LastGrant(ss, acts, j, k, t)
  {
    RunJobs(ss, acts, k);
    RunInv(ss, acts, k);
    assert RunnerOk(ss[k], t);
    ExitStep(ss[k], ss[k + 1], t);
    RunHistory(ss, acts);
    SubmittedIsUnserved(ss, acts, k);
    if j :| 0 <= j < k && LastGrant(ss, acts, j, k, t) && ss[k].word == ss[j + 1].word {
      SeenSinceGrant(ss, acts, j, k, t);
    }
    if At(ss[k], t).seen.incoming {
      var j := IncomingFromGrant(ss, acts, k, t);
    }
  }
}
