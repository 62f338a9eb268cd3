/** What becomes of every request made to the counter, in every run. */
module CounterJobs {
  import opened Base
  import opened Counter
  import opened CounterRuns

  // ---------- lists of jobs ----------

  /** The ids without those in `gone`. */
  function Less(q: seq<Id>, gone: set<Id>): seq<Id> {
    if q == [] then [] else (if q[0] in gone then [] else [q[0]]) + Less(q[1..], gone)
  }

  lemma {:induction false} LessConcat(a: seq<Id>, b: seq<Id>, gone: set<Id>)
    ensures Less(a + b, gone) == Less(a, gone) + Less(b, gone)
  {
    if a != [] {
      LessConcat(a[1..], b, gone);
      assert (a + b)[1..] == a[1..] + b;
    } else {
      assert a + b == b;
    }
  }

  lemma {:induction false} LessIs(q: seq<Id>, gone: set<Id>)
    ensures forall x :: x in Less(q, gone) <==> x in q && x !in gone
    ensures Distinct(q) ==> Distinct(Less(q, gone))
    ensures (forall x :: x in q ==> x !in gone) ==> Less(q, gone) == q
  {
    if q != [] {
      LessIs(q[1..], gone);
      assert q == [q[0]] + q[1..];
    }
  }

  lemma {:induction false} LessTwice(q: seq<Id>, a: set<Id>, b: set<Id>)
    ensures Less(q, a + b) == Less(Less(q, a), b)
  {
    if q != [] {
      LessTwice(q[1..], a, b);
      LessConcat(if q[0] in a then [] else [q[0]], Less(q[1..], a), b);
    }
  }

  lemma {:induction false} IdsConcat(a: seq<Job>, b: seq<Job>)
    ensures Ids(a + b) == Ids(a) + Ids(b)
  {
    if a != [] {
      IdsConcat(a[1..], b);
      assert (a + b)[1..] == a[1..] + b;
    } else {
      assert a + b == b;
    }
  }

  lemma {:induction false} IdsAre(q: seq<Job>)
    ensures forall x :: x in Ids(q) <==> x in AllocIds(q)
  {
    if q != [] {
      IdsAre(q[1..]);
      AllocStep(q);
    }
  }

  lemma {:induction false} AllocStep(q: seq<Job>)
    requires q != []
    ensures AllocIds(q) == AllocIds(q[1..]) + (if q[0].Alloc? then {q[0].req.id} else {})
    ensures CancelIds(q) == CancelIds(q[1..]) + (if q[0].Cancel? then {q[0].id} else {})
  {
    forall i | 1 <= i < |q|
      ensures q[i] == q[1..][i - 1]
    {
    }
    forall x | x in AllocIds(q[1..])
      ensures x in AllocIds(q)
    {
      var i :| 0 <= i < |q[1..]| && q[1..][i].Alloc? && q[1..][i].req.id == x;
      assert q[i + 1] == q[1..][i];
    }
    forall x | x in CancelIds(q[1..])
      ensures x in CancelIds(q)
    {
      var i :| 0 <= i < |q[1..]| && q[1..][i].Cancel? && q[1..][i].id == x;
      assert q[i + 1] == q[1..][i];
    }
  }

  lemma {:induction false} PartsConcat(a: seq<Job>, b: seq<Job>)
    ensures AllocIds(a + b) == AllocIds(a) + AllocIds(b)
    ensures CancelIds(a + b) == CancelIds(a) + CancelIds(b)
  {
    if a != [] {
      PartsConcat(a[1..], b);
      AllocStep(a);
      AllocStep(a + b);
      assert (a + b)[1..] == a[1..] + b;
    } else {
      assert a + b == b;
    }
  }

  lemma {:induction false} KeepHead(q: seq<Job>, gone: set<Id>)
    requires q != []
    ensures var here := q[0].Alloc? && q[0].req.id in gone;
      && Keep(q, gone) == (if here then Keep(q[1..], gone) else [q[0]] + Keep(q[1..], gone))
      && (!here ==> Keep(q, gone) != [] && Keep(q, gone)[0] == q[0] && Keep(q, gone)[1..] == Keep(q[1..], gone))
  {
  }

  lemma {:induction false} KeepIds(q: seq<Job>, gone: set<Id>)
    ensures Ids(Keep(q, gone)) == Less(Ids(q), gone)
  {
    if q != [] {
      KeepIds(q[1..], gone);
      KeepHead(q, gone);
      if q[0].Alloc? {
        assert Ids(q)[1..] == Ids(q[1..]);
      }
    }
  }

  lemma {:induction false} KeepParts(q: seq<Job>, gone: set<Id>)
    ensures AllocIds(Keep(q, gone)) == AllocIds(q) - gone
    ensures CancelIds(Keep(q, gone)) == CancelIds(q)
  {
    if q != [] {
      KeepParts(q[1..], gone);
      AllocStep(q);
      KeepHead(q, gone);
      if !(q[0].Alloc? && q[0].req.id in gone) {
        AllocStep(Keep(q, gone));
      }
    }
  }

  lemma {:induction false} KeepIs(q: seq<Job>, gone: set<Id>)
    ensures Ids(Keep(q, gone)) == Less(Ids(q), gone)
    ensures AllocIds(Keep(q, gone)) == AllocIds(q) - gone
    ensures CancelIds(Keep(q, gone)) == CancelIds(q)
  {
    KeepIds(q, gone);
    KeepParts(q, gone);
  }

  lemma {:induction false} RequestsAre(stack: seq<Job>)
    ensures AllocIds(Requests(stack)) == AllocIds(stack) && CancelIds(Requests(stack)) == {}
  {
    if stack != [] {
      RequestsAre(stack[1..]);
      AllocStep(stack);
      PartsConcat(Requests(stack[1..]), [stack[0]]);
      AllocStep([stack[0]]);
    }
  }

  // ---------- the invariant ----------

  /** The request has been put on the stack or in the queue. */
  predicate Handed(s: State, id: Id) {
    id in s.entered || id in AllocIds(s.stack)
  }

  predicate Unasked(s: State, id: Id) {
    id !in CancelIds(s.stack) && id !in CancelIds(s.queue) && id !in s.answers
  }

  predicate Mine(s: State, t: Tid, id: Id) {
    id in s.owner && s.owner[id] == t
  }

  predicate ContOk(s: State, t: Tid, c: Cont) {
    match c
    case Leave => true
    case Await(id) => Mine(s, t, id) && Handed(s, id) && Unasked(s, id)
    case AwaitCancel(id) => Mine(s, t, id) && Handed(s, id)
  }

  function ContOf(p: Pc): Cont {
    match p
    case Waiting(id) => Await(id)
    case CancelTry(id) => Await(id)
    case CancelDrain(id) => Await(id)
    case CancelClear(id) => Await(id)
    case CancelPop(id) => Await(id)
    case CancelRemove(id) => Await(id)
    case Submit(j) => if j.Cancel? then Await(j.id) else Leave
    case SetBits(j) => if j.Cancel? then AwaitCancel(j.id) else Await(j.req.id)
    case CancelWait(id) => AwaitCancel(id)
    case Run(c) => c
    case Drain(c, _) => c
    case DrainClear(c, _) => c
    case DrainPop(c, _) => c
    case Serve(c, _) => c
    case Exit(c, _) => c
    case Idle => Leave
  }

  predicate ThreadOk(s: State, t: Tid) {
    var p := At(s, t);
    && ContOk(s, t, ContOf(p))
    && (p.Submit? && p.job.Alloc? ==> Mine(s, t, p.job.req.id) && !Handed(s, p.job.req.id))
    && (p.CancelDrain? ==> s.word.incoming || p.id in s.entered)
    && (p.CancelRemove? ==> p.id in s.entered)
  }

  /** No request is lost or doubled: in order, those granted, then those queued. */
  predicate OrderOk(s: State) {
    && Less(s.entered, s.cancelled) == s.granted + Ids(s.queue)
    && Distinct(s.entered) && Distinct(Ids(s.stack))
    && (forall x :: x in AllocIds(s.stack) ==> x !in s.entered && x in s.owner)
    && (forall x :: x in s.entered ==> x in s.owner)
    && (forall x :: x in s.cancelled ==> x in s.entered)
    && (forall i :: 1 <= i < |s.queue| ==> s.queue[i].Alloc?)
  }

  predicate AskedOk(s: State) {
    && (forall x :: x in CancelIds(s.stack) ==>
          x in s.owner && ContOf(At(s, s.owner[x])) == AwaitCancel(x) && x !in s.answers
          && x !in CancelIds(s.queue))
    && (forall x :: x in CancelIds(s.queue) ==>
          x in s.owner && ContOf(At(s, s.owner[x])) == AwaitCancel(x) && x !in s.answers
          && x in s.entered)
  }

  /** A cancellation succeeds exactly when the request was taken out of the queue ungranted. */
  predicate AnswersOk(s: State) {
    && (forall x :: x in s.cancelled ==> x in s.answers && s.answers[x])
    && (forall x :: x in s.answers && s.answers[x] ==> x in s.cancelled)
    && (forall x :: x in s.answers && !s.answers[x] ==> x in s.granted)
  }

  function JobOwner(s: State, j: Job): Tid {
    var id := if j.Alloc? then j.req.id else j.id;
    if id in s.owner then s.owner[id] else 0
  }

  predicate Popping(p: Pc) {
    p.DrainPop? || p.CancelPop?
  }

  /** A job on the stack: its submitter is about to set the bit, or the bit is set, or it is being popped. */
  predicate Announced(s: State, i: nat)
    requires i < |s.stack|
  {
    || At(s, JobOwner(s, s.stack[i])) == SetBits(s.stack[i])
    || s.word.incoming
    || (s.holder.Some? && Popping(At(s, s.holder.value)))
  }

  predicate StackOk(s: State) {
    forall i :: 0 <= i < |s.stack| ==> Announced(s, i)
  }

  ghost predicate JobsOk(s: State) {
    OrderOk(s) && AskedOk(s) && AnswersOk(s) && StackOk(s) && forall t :: ThreadOk(s, t)
  }

  // ---------- the threads that do not step ----------

  ghost predicate Grows(s: State, s': State, t: Tid) {
    && (forall id :: Handed(s, id) ==> Handed(s', id))
    && (forall id :: id in s.entered ==> id in s'.entered)
    && (forall id :: Handed(s', id) && !Handed(s, id) ==> Mine(s, t, id))
    && (forall id :: Unasked(s, id) && !Unasked(s', id) ==> Mine(s, t, id))
    && (forall id :: id in s.owner ==> id in s'.owner && s'.owner[id] == s.owner[id])
    && (s.word.incoming && !s'.word.incoming ==> s.holder == Some(t))
  }

  lemma {:induction false} OtherThreads(s: State, s': State, t: Tid)
    requires JobsOk(s) && Inv(s) && Grows(s, s', t) && ThreadOk(s', t)
    requires s'.pc == s.pc[t := At(s', t)]
    ensures forall u :: ThreadOk(s', u)
  {
    forall u
      ensures ThreadOk(s', u)
    {
      assert ThreadOk(s, u) && RunnerOk(s, u);
    }
  }

  lemma {:induction false} AskedKept(s: State, s': State, t: Tid)
    requires AskedOk(s) && s'.pc == s.pc[t := At(s', t)] && s'.owner == s.owner
    requires CancelIds(s'.stack) == CancelIds(s.stack) && CancelIds(s'.queue) == CancelIds(s.queue)
    requires s'.answers == s.answers && (forall x :: x in s.entered ==> x in s'.entered)
    requires ContOf(At(s, t)).AwaitCancel? && ContOf(At(s, t)).id !in s.answers ==>
               ContOf(At(s', t)) == ContOf(At(s, t))
    ensures AskedOk(s')
  {
  }

  // ---------- taking requests out of the queue ----------

  lemma {:induction false} LessSame(q: seq<Id>, a: set<Id>, b: set<Id>)
    requires forall x :: x in q ==> (x in a <==> x in b)
    ensures Less(q, a) == Less(q, b)
  {
    if q != [] {
      LessSame(q[1..], a, b);
    }
  }

  lemma {:induction false} KeepTail(q: seq<Job>, gone: set<Id>)
    requires forall i :: 1 <= i < |q| ==> q[i].Alloc?
    ensures forall i :: 1 <= i < |Keep(q, gone)| ==> Keep(q, gone)[i].Alloc?
    ensures (forall i :: 0 <= i < |q| ==> q[i].Alloc?) ==>
              forall i :: 0 <= i < |Keep(q, gone)| ==> Keep(q, gone)[i].Alloc?
  {
    if q != [] {
      KeepTail(q[1..], gone);
    }
  }

  lemma {:induction false} DistinctParts(a: seq<Id>, b: seq<Id>)
    requires Distinct(a + b)
    ensures forall x :: x in a ==> x !in b
  {
    forall x, j | x in a && 0 <= j < |b|
      ensures x != b[j]
    {
      var i :| 0 <= i < |a| && a[i] == x;
      assert (a + b)[i] == x && (a + b)[|a| + j] == b[j];
    }
  }

  /** Granted, queued and cancelled requests are those that entered, each in one place. */
  lemma {:induction false} Places(s: State, x: Id)
    requires OrderOk(s)
    ensures x in s.entered && x !in s.cancelled <==> x in s.granted || x in AllocIds(s.queue)
    ensures !(x in s.granted && x in AllocIds(s.queue))
  {
    LessIs(s.entered, s.cancelled);
    IdsAre(s.queue);
    DistinctParts(s.granted, Ids(s.queue));
    assert x in s.granted + Ids(s.queue) <==> x in s.granted || x in Ids(s.queue);
  }

  lemma {:induction false} CancelledOrder(s: State, s': State, ids: set<Id>)
    requires OrderOk(s) && s' == Cancelled(s, ids)
    ensures OrderOk(s')
  {
    var found := ids * AllocIds(s.queue);
    LessTwice(s.entered, s.cancelled, found);
    LessConcat(s.granted, Ids(s.queue), found);
    IdsAre(s.queue);
    LessIs(s.entered, s.cancelled);
    DistinctParts(s.granted, Ids(s.queue));
    LessIs(s.granted, found);
    LessSame(Ids(s.queue), found, ids);
    KeepIs(s.queue, ids);
    KeepTail(s.queue, ids);
    forall x | x in s'.cancelled
      ensures x in s.entered
    {
      if x in found {
        Places(s, x);
      }
    }
  }

  lemma {:induction false} CancelledAnswers(s: State, s': State, ids: set<Id>)
    requires OrderOk(s) && AnswersOk(s) && s' == Cancelled(s, ids)
    requires forall x :: x in ids ==> x in s.entered && x !in s.answers
    ensures AnswersOk(s')
  {
    forall x | x in ids
      ensures x !in s.cancelled && (x in AllocIds(s.queue) || x in s.granted)
    {
      Places(s, x);
    }
  }

  lemma {:induction false} DistinctConcat(a: seq<Id>, b: seq<Id>)
    requires Distinct(a) && Distinct(b) && forall x :: x in b ==> x !in a
    ensures Distinct(a + b)
  {
    forall i, j | 0 <= i < j < |a + b|
      ensures (a + b)[i] != (a + b)[j]
    {
      if i < |a| <= j {
        assert (a + b)[j] in b;
      }
    }
  }

  lemma {:induction false} Assoc(a: seq<Id>, b: seq<Id>, c: seq<Id>)
    ensures (a + b) + c == a + (b + c)
  {
  }

  lemma {:induction false} LessMore(a: seq<Id>, b: seq<Id>, gone: set<Id>)
    requires forall x :: x in b ==> x !in gone
    ensures Less(a + b, gone) == Less(a, gone) + b
  {
    LessConcat(a, b, gone);
    LessIs(b, gone);
  }

  lemma {:induction false} MoreEntered(entered: seq<Id>, cancelled: set<Id>, granted: seq<Id>, queue: seq<Job>, r: seq<Job>)
    requires Less(entered, cancelled) == granted + Ids(queue)
    requires forall x :: x in Ids(r) ==> x !in cancelled
    ensures Less(entered + Ids(r), cancelled) == granted + Ids(queue + r)
  {
    LessMore(entered, Ids(r), cancelled);
    IdsConcat(queue, r);
    Assoc(granted, Ids(queue), Ids(r));
  }

  lemma {:induction false} EnteredMore(s: State, r: seq<Job>)
    requires OrderOk(s) && Distinct(Ids(r))
    requires forall x :: x in Ids(r) ==> x !in s.entered
    ensures Less(s.entered + Ids(r), s.cancelled) == s.granted + Ids(s.queue + r)
    ensures Distinct(s.entered + Ids(r))
  {
    MoreEntered(s.entered, s.cancelled, s.granted, s.queue, r);
    DistinctConcat(s.entered, Ids(r));
  }

  lemma {:induction false} DrainedOrder(s: State, s1: State)
    requires OrderOk(s)
    requires var r := Requests(s.stack);
      s1 == s.(stack := [], queue := s.queue + r, entered := s.entered + Ids(r))
    ensures OrderOk(s1)
  {
    var r := Requests(s.stack);
    RequestsAre(s.stack);
    RequestsOnce(s.stack);
    IdsAre(r);
    EnteredMore(s, r);
  }

  lemma {:induction false} RequestsOnce(stack: seq<Job>)
    requires Distinct(Ids(stack))
    ensures Distinct(Ids(Requests(stack)))
    ensures forall i :: 0 <= i < |Requests(stack)| ==> Requests(stack)[i].Alloc?
  {
    if stack != [] {
      var rest := stack[1..];
      if stack[0].Alloc? {
        assert Ids(stack) == [stack[0].req.id] + Ids(rest);
        assert Ids(stack)[1..] == Ids(rest);
        assert Distinct(Ids(rest)) by {
          assert forall i :: 0 <= i < |Ids(rest)| ==> Ids(rest)[i] == Ids(stack)[i + 1];
        }
        RequestsOnce(rest);
        RequestsAre(rest);
        IdsAre(rest);
        IdsAre(Requests(rest));
        IdsConcat(Requests(rest), [stack[0]]);
        assert Ids([stack[0]]) == [stack[0].req.id];
        FirstApart(Ids(stack));
      } else {
        RequestsOnce(rest);
      }
    }
  }

  lemma {:induction false} FirstApart(q: seq<Id>)
    requires q != [] && Distinct(q)
    ensures q[0] !in q[1..]
  {
  }

  // ---------- steps outside the queue ----------

  /** What a step may change of the threads' standing without touching any job. */
  lemma {:induction false} CallerJobs(s: State, s': State, t: Tid)
    requires JobsOk(s) && Inv(s)
    requires s' == To(s, t, At(s', t)).(word := s'.word, holder := s'.holder, out := s'.out)
    requires ThreadOk(s', t) && StackOk(s')
    requires ContOf(At(s, t)).AwaitCancel? && ContOf(At(s, t)).id !in s.answers ==>
               ContOf(At(s', t)) == ContOf(At(s, t))
    requires s.word.incoming && !s'.word.incoming ==> s.holder == Some(t)
    ensures JobsOk(s')
  {
    AskedKept(s, s', t);
    OtherThreads(s, s', t);
  }

  lemma {:induction false} WordThread(s: State, s': State, t: Tid)
    requires ThreadOk(s, t) && s' == s.(word := s'.word, out := s'.out, owner := s'.owner)
    requires s'.word.incoming == s.word.incoming
    requires forall id :: id in s.owner ==> id in s'.owner && s'.owner[id] == s.owner[id]
    ensures ThreadOk(s', t)
  {
  }

  lemma {:induction false} BooksKept(s: State, s': State)
    requires OrderOk(s) && AnswersOk(s) && s'.entered == s.entered && s'.cancelled == s.cancelled
    requires s'.granted == s.granted && s'.queue == s.queue && s'.stack == s.stack
    requires s'.answers == s.answers && s.owner.Keys <= s'.owner.Keys
    ensures OrderOk(s') && AnswersOk(s')
  {
  }

  lemma {:induction false} WordJobs(s: State, s': State)
    requires JobsOk(s) && s' == s.(word := s'.word, out := s'.out) && s'.word.incoming == s.word.incoming
    ensures JobsOk(s')
  {
    BooksKept(s, s');
    assert AskedOk(s');
    forall t
      ensures ThreadOk(s', t)
    {
      assert ThreadOk(s, t);
      WordThread(s, s', t);
    }
    forall i | 0 <= i < |s'.stack|
      ensures Announced(s', i)
    {
      AnnouncedAt(s, i);
    }
  }

  lemma {:induction false} StackKept(s: State, s': State, t: Tid)
    requires StackOk(s) && s'.stack == s.stack && s'.owner == s.owner
    requires s'.pc == s.pc[t := At(s', t)] && (At(s, t).SetBits? ==> s'.word.incoming)
    requires s.word.incoming ==> s'.word.incoming
    requires Popping(At(s, t)) ==> Popping(At(s', t))
    requires s.holder.Some? ==> s'.holder == s.holder
    ensures StackOk(s')
  {
    forall i | 0 <= i < |s'.stack|
      ensures Announced(s', i)
    {
      assert Announced(s, i);
    }
  }

  lemma {:induction false} NewOwner(s: State, i: nat, r: Id, t: Tid)
    requires OrderOk(s) && AskedOk(s) && i < |s.stack| && r !in s.owner
    ensures JobOwner(s.(owner := s.owner[r := t]), s.stack[i]) == JobOwner(s, s.stack[i])
  {
    assert s.stack[i].Alloc? ==> s.stack[i].req.id in AllocIds(s.stack);
    assert s.stack[i].Cancel? ==> s.stack[i].id in CancelIds(s.stack);
  }

  lemma {:induction false} AllocAsyncStack(s: State, s': State, t: Tid, r: Req)
    requires OrderOk(s) && AskedOk(s) && StackOk(s) && At(s, t).Idle? && r.id !in s.owner
    requires s.holder != Some(t)
    requires s' == To(s, t, Submit(Alloc(r))).(owner := s.owner[r.id := t])
    ensures StackOk(s')
  {
    forall i | 0 <= i < |s'.stack|
      ensures Announced(s', i)
    {
      AnnouncedAt(s, i);
      NewOwner(s, i, r.id, t);
    }
  }

  lemma {:induction false} AllocAsyncAsked(s: State, s': State, t: Tid, r: Req)
    requires OrderOk(s) && AskedOk(s) && At(s, t).Idle? && r.id !in s.owner
    requires s' == To(s, t, Submit(Alloc(r))).(owner := s.owner[r.id := t])
    ensures AskedOk(s') && ThreadOk(s', t)
  {
  }

  lemma {:induction false} AllocAsyncJobs(s: State, s': State, t: Tid, r: Req)
    requires JobsOk(s) && Inv(s) && At(s, t).Idle? && r.id !in s.owner
    requires s' == To(s, t, Submit(Alloc(r))).(owner := s.owner[r.id := t])
    ensures JobsOk(s')
  {
    BooksKept(s, s');
    assert RunnerOk(s, t);
    AllocAsyncStack(s, s', t, r);
    AllocAsyncAsked(s, s', t, r);
    OtherThreads(s, s', t);
  }

  /** With the lock bit clear, a request whose submission is complete is not left unannounced. */
  lemma {:induction false} NotOnStack(s: State, t: Tid, id: Id)
    requires JobsOk(s) && Inv(s) && Mine(s, t, id) && !At(s, t).SetBits?
    requires !s.word.lock && !s.word.incoming
    ensures id !in AllocIds(s.stack)
  {
    if id in AllocIds(s.stack) {
      var i :| 0 <= i < |s.stack| && s.stack[i].Alloc? && s.stack[i].req.id == id;
      AnnouncedAt(s, i);
    }
  }

  lemma {:induction false} AnnouncedAt(s: State, i: nat)
    requires StackOk(s) && i < |s.stack|
    ensures Announced(s, i)
  {
  }

  lemma {:induction false} QueueEmpty(s: State)
    requires Inv(s) && Quiet(s.word)
    ensures s.queue == [] && s.holder == None
  {
  }

  lemma {:induction false} FastAllocJobs(s: State, s': State, t: Tid, r: Req)
    requires JobsOk(s) && Inv(s) && At(s, t) == Submit(Alloc(r)) && Quiet(s.word)
    requires s' == To(s, t, Run(Await(r.id)))
        .(word := s.word.(lock := true), holder := Some(t), queue := [Alloc(r)],
          entered := s.entered + [r.id])
    ensures JobsOk(s')
  {
    QueueEmpty(s);
    assert ThreadOk(s, t);
    assert Ids([Alloc(r)]) == [r.id];
    EnteredMore(s, [Alloc(r)]);
    assert s.queue + [Alloc(r)] == [Alloc(r)];
    assert CancelIds([Alloc(r)]) == CancelIds(s.queue);
    StackKept(s, s', t);
    UnaskedYet(s, t, r.id);
    AskedKept(s, s', t);
    OtherThreads(s, s', t);
  }

  lemma {:induction false} UnaskedYet(s: State, t: Tid, id: Id)
    requires JobsOk(s) && Mine(s, t, id) && !ContOf(At(s, t)).AwaitCancel? && !Handed(s, id)
    ensures Unasked(s, id)
  {
    if id in s.answers {
      Places(s, id);
    }
  }

  /** The holder of the lock bit is not the thread that takes the fast path with a cancellation. */
  lemma {:induction false} FastCancelJobs(s: State, s': State, t: Tid, id: Id)
    requires JobsOk(s) && Inv(s) && At(s, t) == Submit(Cancel(id)) && Quiet(s.word)
    requires s' == To(s, t, Run(AwaitCancel(id)))
        .(word := s.word.(lock := true), holder := Some(t), queue := [Cancel(id)])
    ensures JobsOk(s')
  {
    QueueEmpty(s);
    assert ThreadOk(s, t);
    NotOnStack(s, t, id);
    CancelOne(id);
    FastCancelAsked(s, s', t, id);
    StackKept(s, s', t);
    OtherThreads(s, s', t);
  }

  lemma {:induction false} CancelOne(id: Id)
    ensures CancelIds([Cancel(id)]) == {id} && Ids([Cancel(id)]) == []
  {
    var q := [Cancel(id)];
    AllocStep(q);
    assert q[1..] == [];
  }

  lemma {:induction false} FastCancelAsked(s: State, s': State, t: Tid, id: Id)
    requires AskedOk(s) && ThreadOk(s, t) && At(s, t) == Submit(Cancel(id)) && s.queue == []
    requires id in s.entered && CancelIds([Cancel(id)]) == {id}
    requires s' == To(s, t, Run(AwaitCancel(id)))
        .(word := s.word.(lock := true), holder := Some(t), queue := [Cancel(id)])
    ensures AskedOk(s')
  {
  }

  // ---------- a job on the stack ----------

  lemma {:induction false} PushedOrder(s: State, s': State, t: Tid, j: Job)
    requires OrderOk(s) && AnswersOk(s)
    requires j.Alloc? ==> !Handed(s, j.req.id) && j.req.id in s.owner
    requires s' == To(s, t, SetBits(j)).(stack := [j] + s.stack)
    ensures OrderOk(s') && AnswersOk(s')
  {
    AllocStep([j] + s.stack);
    assert ([j] + s.stack)[1..] == s.stack;
    IdsAre(s.stack);
  }

  lemma {:induction false} PushedAsked(s: State, s': State, t: Tid, j: Job)
    requires AskedOk(s) && At(s, t) == Submit(j) && ThreadOk(s, t)
    requires s' == To(s, t, SetBits(j)).(stack := [j] + s.stack)
    ensures AskedOk(s')
  {
    AllocStep([j] + s.stack);
    assert ([j] + s.stack)[1..] == s.stack;
  }

  lemma {:induction false} PushedStack(s: State, s': State, t: Tid, j: Job)
    requires StackOk(s) && At(s, t) == Submit(j) && ThreadOk(s, t)
    requires s' == To(s, t, SetBits(j)).(stack := [j] + s.stack)
    ensures StackOk(s')
  {
    forall i | 0 <= i < |s'.stack|
      ensures Announced(s', i)
    {
      if i > 0 {
        AnnouncedAt(s, i - 1);
      }
    }
  }

  lemma {:induction false} PushedGrows(s: State, s': State, t: Tid, j: Job)
    requires At(s, t) == Submit(j) && ThreadOk(s, t) && s' == To(s, t, SetBits(j)).(stack := [j] + s.stack)
    ensures Grows(s, s', t)
  {
    AllocStep([j] + s.stack);
    assert ([j] + s.stack)[1..] == s.stack;
  }

  lemma {:induction false} PushedThread(s: State, s': State, t: Tid, j: Job)
    requires JobsOk(s) && At(s, t) == Submit(j) && s' == To(s, t, SetBits(j)).(stack := [j] + s.stack)
    ensures ThreadOk(s', t)
  {
    assert ThreadOk(s, t);
    AllocStep([j] + s.stack);
    assert ([j] + s.stack)[1..] == s.stack;
    if j.Alloc? {
      UnaskedYet(s, t, j.req.id);
    }
  }

  lemma {:induction false} PushedJobs(s: State, s': State, t: Tid, j: Job)
    requires JobsOk(s) && Inv(s) && At(s, t) == Submit(j)
    requires s' == To(s, t, SetBits(j)).(stack := [j] + s.stack)
    ensures JobsOk(s')
  {
    assert ThreadOk(s, t);
    PushedOrder(s, s', t, j);
    PushedAsked(s, s', t, j);
    PushedStack(s, s', t, j);
    PushedGrows(s, s', t, j);
    PushedThread(s, s', t, j);
    OtherThreads(s, s', t);
  }

  // ---------- steps of the thread that has the lock bit ----------

  /** Requests are taken out of the queue: those named are no longer asked for, they are answered. */
  lemma {:induction false} CancelledAsked(s: State, s': State, t: Tid, ids: set<Id>)
    requires AskedOk(s) && s' == Cancelled(s, ids).(pc := s.pc[t := At(s', t)])
    requires forall x :: x in ids ==> x !in CancelIds(s.stack) && x !in CancelIds(s.queue)
    requires ContOf(At(s, t)).AwaitCancel? && ContOf(At(s, t)).id !in s.answers ==>
               ContOf(At(s', t)) == ContOf(At(s, t))
    ensures AskedOk(s')
  {
    KeepIs(s.queue, ids);
  }

  lemma {:induction false} CancelledBooks(s: State, s': State, ids: set<Id>)
    requires OrderOk(s) && AnswersOk(s) && s' == Cancelled(s, ids).(pc := s'.pc)
    requires forall x :: x in ids ==> x in s.entered && x !in s.answers
    ensures OrderOk(s') && AnswersOk(s')
    ensures CancelIds(s'.queue) == CancelIds(s.queue) && s'.answers.Keys == s.answers.Keys + ids
  {
    var s1 := Cancelled(s, ids);
    CancelledOrder(s, s1, ids);
    CancelledAnswers(s, s1, ids);
    BooksKept(s1, s');
    KeepIs(s.queue, ids);
  }

  lemma {:induction false} CancelRemoveThread(s: State, s': State, t: Tid, id: Id)
    requires ThreadOk(s, t) && At(s, t) == CancelRemove(id)
    requires At(s', t) == Run(AwaitCancel(id)) && s'.owner == s.owner && s'.entered == s.entered
    requires s'.stack == s.stack && s'.word == s.word && s'.answers.Keys == s.answers.Keys + {id}
    requires CancelIds(s'.queue) == CancelIds(s.queue)
    ensures ThreadOk(s', t) && Grows(s, s', t)
  {
  }

  lemma {:induction false} CancelRemoveJobs(s: State, s': State, t: Tid, id: Id)
    requires JobsOk(s) && Inv(s) && At(s, t) == CancelRemove(id)
    requires s' == To(Cancelled(s, {id}), t, Run(AwaitCancel(id)))
    ensures JobsOk(s')
  {
    assert ThreadOk(s, t);
    CancelledBooks(s, s', {id});
    CancelledAsked(s, s', t, {id});
    StackKept(s, s', t);
    CancelRemoveThread(s, s', t, id);
    OtherThreads(s, s', t);
  }

  lemma {:induction false} DrainedMid(s: State, s1: State)
    requires JobsOk(s)
    requires var r := Requests(s.stack);
      s1 == s.(stack := [], queue := s.queue + r, entered := s.entered + Ids(r))
    ensures OrderOk(s1) && AnswersOk(s1) && CancelIds(s1.queue) == CancelIds(s.queue)
    ensures forall x :: x in s1.entered <==> Handed(s, x)
    ensures CancelIds(s1.stack) == {} && AllocIds(s1.stack) == {}
  {
    var r := Requests(s.stack);
    DrainedOrder(s, s1);
    RequestsAre(s.stack);
    PartsConcat(s.queue, r);
    IdsAre(r);
  }

  lemma {:induction false} AskedHanded(s: State, x: Id)
    requires JobsOk(s) && x in CancelIds(s.stack)
    ensures Handed(s, x) && x !in s.answers && x !in CancelIds(s.queue) && x in s.owner
    ensures ContOf(At(s, s.owner[x])) == AwaitCancel(x)
  {
    assert ThreadOk(s, s.owner[x]);
  }

  lemma {:induction false} DrainedBooks(s: State, s': State)
    requires JobsOk(s) && s' == Drained(s).(pc := s'.pc)
    ensures OrderOk(s') && AnswersOk(s') && s'.stack == []
    ensures CancelIds(s'.queue) == CancelIds(s.queue)
    ensures s'.answers.Keys == s.answers.Keys + CancelIds(s.stack)
    ensures forall x :: x in s'.entered <==> Handed(s, x)
    ensures CancelIds(s'.stack) == {} && AllocIds(s'.stack) == {}
  {
    var r, ids := Requests(s.stack), CancelIds(s.stack);
    var s1 := s.(stack := [], queue := s.queue + r, entered := s.entered + Ids(r));
    DrainedMid(s, s1);
    forall x | x in ids
      ensures x in s1.entered && x !in s1.answers
    {
      AskedHanded(s, x);
    }
    CancelledBooks(s1, s', ids);
  }

  lemma {:induction false} DrainedAsks(s: State, s': State, t: Tid)
    requires AskedOk(s) && s'.pc == s.pc[t := At(s', t)] && s'.owner == s.owner && s'.stack == []
    requires ContOf(At(s', t)) == ContOf(At(s, t)) && CancelIds(s'.queue) == CancelIds(s.queue)
    requires s'.answers.Keys == s.answers.Keys + CancelIds(s.stack)
    requires forall x :: x in s.entered ==> x in s'.entered
    ensures AskedOk(s')
  {
  }

  lemma {:induction false} PopThread(s: State, s': State, t: Tid)
    requires JobsOk(s) && (At(s, t).DrainPop? || At(s, t).CancelPop?)
    requires At(s', t) == if At(s, t).CancelPop? then CancelRemove(At(s, t).id)
                          else Serve(At(s, t).cont, At(s, t).seen.(incoming := false))
    requires s'.owner == s.owner && s'.answers.Keys == s.answers.Keys + CancelIds(s.stack)
    requires s'.stack == [] && CancelIds(s'.queue) == CancelIds(s.queue)
    requires CancelIds(s'.stack) == {} && AllocIds(s'.stack) == {}
    requires forall x :: x in s'.entered <==> Handed(s, x)
    ensures ThreadOk(s', t)
  {
    assert ThreadOk(s, t);
  }

  lemma {:induction false} DrainedRest(s: State, s': State, p: map<Tid, Pc>)
    requires s' == Drained(s).(pc := p)
    ensures s'.pc == p && s'.owner == s.owner && s'.word == s.word
  {
  }

  /** What the pop changes of jobs and answers. */
  ghost predicate Popped(s: State, s': State) {
    && s'.owner == s.owner && s'.word == s.word && s'.stack == []
    && s'.answers.Keys == s.answers.Keys + CancelIds(s.stack)
    && CancelIds(s'.queue) == CancelIds(s.queue)
    && CancelIds(s'.stack) == {} && AllocIds(s'.stack) == {}
    && forall x :: x in s'.entered <==> Handed(s, x)
  }

  lemma {:induction false} DrainedPopped(s: State, s': State, p: map<Tid, Pc>)
    requires JobsOk(s) && s' == Drained(s).(pc := p)
    ensures OrderOk(s') && AnswersOk(s') && Popped(s, s') && s'.pc == p
  {
    DrainedBooks(s, s');
    DrainedRest(s, s', p);
  }

  lemma {:induction false} PoppedThreads(s: State, s': State, t: Tid, p': Pc)
    requires JobsOk(s) && Inv(s) && (At(s, t).DrainPop? || At(s, t).CancelPop?) && Popped(s, s')
    requires p' == if At(s, t).CancelPop? then CancelRemove(At(s, t).id)
                   else Serve(At(s, t).cont, At(s, t).seen.(incoming := false))
    requires s'.pc == s.pc[t := p']
    ensures forall u :: ThreadOk(s', u)
    ensures AskedOk(s')
  {
    DrainedAsks(s, s', t);
    PopThread(s, s', t);
    PopGrows(s, s', t);
    OtherThreads(s, s', t);
  }

  /** After the pop every job of the stack is in the queue, or was a cancellation and is answered. */
  lemma {:induction false} PopJobs(s: State, s': State, t: Tid, p': Pc)
    requires JobsOk(s) && Inv(s) && (At(s, t).DrainPop? || At(s, t).CancelPop?)
    requires p' == if At(s, t).CancelPop? then CancelRemove(At(s, t).id)
                   else Serve(At(s, t).cont, At(s, t).seen.(incoming := false))
    requires s' == Drained(s).(pc := s.pc[t := p'])
    ensures JobsOk(s')
  {
    DrainedPopped(s, s', s.pc[t := p']);
    PoppedThreads(s, s', t, p');
  }

  lemma {:induction false} PopGrows(s: State, s': State, t: Tid)
    requires s'.stack == [] && AllocIds(s'.stack) == {} && CancelIds(s'.stack) == {}
    requires CancelIds(s'.queue) == CancelIds(s.queue) && s'.owner == s.owner && s'.word == s.word
    requires forall x :: x in s'.entered <==> Handed(s, x)
    requires forall x :: x in s'.answers <==> x in s.answers || x in CancelIds(s.stack)
    ensures Grows(s, s', t)
  {
  }

  // ---------- serving ----------

  lemma {:induction false} HeadIds(q: seq<Job>)
    requires q != []
    ensures Ids(q) == (if q[0].Alloc? then [q[0].req.id] else []) + Ids(q[1..])
    ensures AllocIds(q) == AllocIds(q[1..]) + (if q[0].Alloc? then {q[0].req.id} else {})
    ensures CancelIds(q) == CancelIds(q[1..]) + (if q[0].Cancel? then {q[0].id} else {})
  {
    AllocStep(q);
  }

  lemma {:induction false} GrantJobs(s: State, s': State, t: Tid, c: Cont, w: Word, w': Word)
    requires JobsOk(s) && Inv(s) && At(s, t) == Serve(c, w) && s.queue != [] && s.queue[0].Alloc?
    requires w'.incoming == s.word.incoming
    requires s' == To(s, t, Serve(c, w'))
        .(word := w', queue := s.queue[1..], granted := s.granted + [s.queue[0].req.id],
          out := s.out + s.queue[0].req.need)
    ensures JobsOk(s')
  {
    assert ThreadOk(s, t);
    HeadIds(s.queue);
    GrantBooks(s, s', s.queue[0].req.id);
    GrantAsked(s, s', t);
    StackKept(s, s', t);
    OtherThreads(s, s', t);
  }

  lemma {:induction false} GrantBooks(s: State, s': State, id: Id)
    requires OrderOk(s) && AnswersOk(s) && s.queue != [] && s'.queue == s.queue[1..]
    requires Ids(s.queue) == [id] + Ids(s.queue[1..]) && s'.granted == s.granted + [id]
    requires s'.entered == s.entered && s'.cancelled == s.cancelled && s'.stack == s.stack
    requires s'.owner == s.owner && s'.answers == s.answers
    ensures OrderOk(s') && AnswersOk(s')
  {
    assert s'.granted + Ids(s'.queue) == s.granted + Ids(s.queue);
  }

  lemma {:induction false} GrantAsked(s: State, s': State, t: Tid)
    requires AskedOk(s) && s'.pc == s.pc[t := At(s', t)] && ContOf(At(s', t)) == ContOf(At(s, t))
    requires s'.owner == s.owner && s'.stack == s.stack && s'.answers == s.answers
    requires CancelIds(s'.queue) == CancelIds(s.queue) && s'.entered == s.entered
    ensures AskedOk(s')
  {
  }

  /** A cancellation at the head: it was queued by its own submitter, alone. */
  lemma {:induction false} ServeCancelBooks(s: State, s': State, id: Id)
    requires OrderOk(s) && AnswersOk(s) && s.queue != [] && s.queue[0] == Cancel(id)
    requires id in s.entered && id !in s.answers
    requires s' == Cancelled(s.(queue := s.queue[1..]), {id}).(pc := s'.pc)
    ensures OrderOk(s') && AnswersOk(s')
    ensures CancelIds(s'.queue) == {} && s'.answers.Keys == s.answers.Keys + {id}
  {
    HeadIds(s.queue);
    var s1 := s.(queue := s.queue[1..]);
    CancelledBooks(s1, s', {id});
  }

  lemma {:induction false} ServeCancelAsked(s: State, s': State, t: Tid, id: Id)
    requires AskedOk(s) && s.queue != [] && s.queue[0] == Cancel(id)
    requires s'.pc == s.pc[t := At(s', t)] && ContOf(At(s', t)) == ContOf(At(s, t))
    requires s'.owner == s.owner && s'.stack == s.stack && s'.entered == s.entered
    requires CancelIds(s'.queue) == {} && s'.answers.Keys == s.answers.Keys + {id}
    ensures AskedOk(s') && UnaskedKept(s, s')
  {
    assert id in CancelIds(s.queue);
  }

  ghost predicate UnaskedKept(s: State, s': State) {
    forall x :: Unasked(s, x) ==> Unasked(s', x)
  }

  lemma {:induction false} ServeCancelJobs(s: State, s': State, t: Tid, c: Cont, w: Word, id: Id)
    requires JobsOk(s) && Inv(s) && At(s, t) == Serve(c, w) && s.queue != [] && s.queue[0] == Cancel(id)
    requires s' == To(Cancelled(s.(queue := s.queue[1..]), {id}), t, Serve(c, w))
    ensures JobsOk(s')
  {
    assert ThreadOk(s, t);
    assert id in CancelIds(s.queue);
    ServeCancelBooks(s, s', id);
    ServeCancelAsked(s, s', t, id);
    StackKept(s, s', t);
    OtherThreads(s, s', t);
  }

  // ---------- all steps ----------

  lemma {:induction false} SubmitJobs(s: State, s': State, t: Tid)
    requires JobsOk(s) && Inv(s) && At(s, t).Submit? && s' == SubmitOf(s, t)
    ensures JobsOk(s')
  {
    var j := At(s, t).job;
    if Quiet(s.word) {
      QueueEmpty(s);
      match j
      case Alloc(r) =>
        assert Ids([j]) == [r.id];
        FastAllocJobs(s, s', t, r);
      case Cancel(id) =>
        CancelOne(id);
        assert s.entered + [] == s.entered;
        FastCancelJobs(s, s', t, id);
    } else {
      PushedJobs(s, s', t, j);
    }
  }

  lemma {:induction false} SetBitsJobs(s: State, s': State, t: Tid)
    requires JobsOk(s) && Inv(s) && At(s, t).SetBits? && s' == SetBitsOf(s, t)
    ensures JobsOk(s')
  {
    assert ThreadOk(s, t) && RunnerOk(s, t);
    SetBitsThread(s, s', t);
    StackKept(s, s', t);
    CallerJobs(s, s', t);
  }

  lemma {:induction false} SetBitsThread(s: State, s': State, t: Tid)
    requires ThreadOk(s, t) && At(s, t).SetBits? && s' == SetBitsOf(s, t)
    ensures ThreadOk(s', t) && ContOf(At(s', t)) == ContOf(At(s, t))
  {
    var c := AfterSubmit(At(s, t).job);
    assert ContOf(At(s', t)) == c;
    if c.Await? {
      assert Handed(s', c.id) && Unasked(s', c.id);
    } else if c.AwaitCancel? {
      assert Handed(s', c.id);
    }
  }

  lemma {:induction false} CancelTryThread(s: State, s': State, t: Tid)
    requires ThreadOk(s, t) && At(s, t).CancelTry? && s' == CancelTryOf(s, t)
    requires !s.word.lock && !s.word.incoming ==> At(s, t).id in s.entered
    ensures ThreadOk(s', t)
  {
    assert Handed(s', At(s, t).id) && Unasked(s', At(s, t).id);
  }

  lemma {:induction false} CancelTryJobs(s: State, s': State, t: Tid)
    requires JobsOk(s) && Inv(s) && At(s, t).CancelTry? && s' == CancelTryOf(s, t)
    ensures JobsOk(s')
  {
    assert ThreadOk(s, t) && RunnerOk(s, t);
    if !s.word.lock && !s.word.incoming {
      NotOnStack(s, t, At(s, t).id);
    }
    CancelTryThread(s, s', t);
    StackKept(s, s', t);
    CallerJobs(s, s', t);
  }

  lemma {:induction false} FreeJobs(s: State, s': State, t: Tid, n: nat)
    requires JobsOk(s) && Inv(s) && At(s, t).Idle? && n <= s.out && s' == FreeOf(s, t, n)
    ensures JobsOk(s')
  {
    if s'.pc == s.pc {
      WordJobs(s, s');
    } else {
      assert ThreadOk(s, t) && RunnerOk(s, t);
      StackKept(s, s', t);
      CallerJobs(s, s', t);
    }
  }

  lemma {:induction false} LeaveJobs(s: State, s': State, t: Tid, p': Pc)
    requires JobsOk(s) && Inv(s) && s' == To(s, t, p')
    requires At(s, t).Waiting? || (At(s, t).CancelWait? && At(s, t).id in s.answers)
    requires p' == Idle || (At(s, t).Waiting? && p' == CancelTry(At(s, t).id))
    ensures JobsOk(s')
  {
    assert ThreadOk(s, t) && RunnerOk(s, t);
    StackKept(s, s', t);
    CallerJobs(s, s', t);
  }

  lemma {:induction false} AllocJobs(s: State, s': State, t: Tid, r: Req)
    requires JobsOk(s) && Inv(s) && At(s, t).Idle? && r.id !in s.owner && s' == AllocAsyncOf(s, t, r)
    ensures JobsOk(s')
  {
    if s.word.avail < r.need || !Quiet(s.word) {
      AllocAsyncJobs(s, s', t, r);
    } else {
      WordJobs(s, s');
    }
  }

  lemma {:induction false} EntryJobs(s: State, a: Action, s': State)
    requires JobsOk(s) && Inv(s) && Can(s, a) && s' == Do(s, a)
    requires a.TryAlloc? || a.AllocAsync? || a.DoSubmit? || a.DoSetBits? || a.Free?
    ensures JobsOk(s')
  {
    match a
    case TryAlloc(t, n) => WordJobs(s, s');
    case AllocAsync(t, r) => AllocJobs(s, s', t, r);
    case DoSubmit(t) => SubmitJobs(s, s', t);
    case DoSetBits(t) => SetBitsJobs(s, s', t);
    case Free(t, n) => FreeJobs(s, s', t, n);
  }

  lemma {:induction false} WaitJobs(s: State, a: Action, s': State)
    requires JobsOk(s) && Inv(s) && Can(s, a) && s' == Do(s, a)
    requires a.Finish? || a.StartCancel? || a.DoCancelTry? || a.FinishCancel?
    ensures JobsOk(s')
  {
    match a
    case Finish(t) => LeaveJobs(s, s', t, Idle);
    case StartCancel(t) => LeaveJobs(s, s', t, CancelTry(At(s, t).id));
    case DoCancelTry(t) => CancelTryJobs(s, s', t);
    case FinishCancel(t) => LeaveJobs(s, s', t, Idle);
  }

  /** The steps of the holder that touch no job: reading, clearing the bit, the exit swap. */
  lemma {:induction false} HolderJobs(s: State, s': State, t: Tid, p': Pc)
    requires JobsOk(s) && Inv(s) && s.holder == Some(t) && Running(At(s, t))
    requires !Popping(At(s, t)) && ContOf(p') == ContOf(At(s, t)) && !p'.Submit?
    requires s' == To(s, t, p').(word := s'.word, holder := s'.holder)
    requires s'.word.incoming == s.word.incoming || (!s'.word.incoming && Popping(p') && s'.holder == Some(t))
    requires (p'.CancelDrain? ==> s.word.incoming || p'.id in s.entered)
    requires (p'.CancelRemove? ==> p'.id in s.entered)
    requires !p'.SetBits?
    ensures JobsOk(s')
  {
    assert ThreadOk(s, t);
    forall i | 0 <= i < |s'.stack|
      ensures Announced(s', i)
    {
      AnnouncedAt(s, i);
    }
    CallerJobs(s, s', t);
  }

  lemma {:induction false} ServeStopJobs(s: State, s': State, t: Tid, c: Cont, w: Word)
    requires JobsOk(s) && Inv(s) && s.holder == Some(t) && At(s, t) == Serve(c, w) && s' == To(s, t, Exit(c, w))
    ensures JobsOk(s')
  {
    HolderJobs(s, s', t, Exit(c, w));
  }

  lemma {:induction false} ServeJobs(s: State, s': State, t: Tid, c: Cont, w: Word)
    requires JobsOk(s) && Inv(s) && s.holder == Some(t) && At(s, t) == Serve(c, w)
    requires s' == ServeOf(s, t, c, w)
    ensures JobsOk(s')
  {
    if s.queue == [] {
      ServeStopJobs(s, s', t, c, w);
    } else if s.queue[0].Cancel? {
      ServeCancelJobs(s, s', t, c, w, s.queue[0].id);
    } else if s.word.avail < s.queue[0].req.need {
      ServeStopJobs(s, s', t, c, w);
    } else {
      GrantJobs(s, s', t, c, w, s.word.(avail := s.word.avail - s.queue[0].req.need));
    }
  }

  lemma {:induction false} PopStepJobs(s: State, s': State, t: Tid)
    requires JobsOk(s) && Inv(s) && Popping(At(s, t)) && s' == StepRunOf(s, t)
    ensures JobsOk(s')
  {
    match At(s, t)
    case CancelPop(id) => PopJobs(s, s', t, CancelRemove(id));
    case DrainPop(c, w) => PopJobs(s, s', t, Serve(c, w.(incoming := false)));
  }

  lemma {:induction false} CancelBitJobs(s: State, s': State, t: Tid, id: Id)
    requires JobsOk(s) && Inv(s) && s.holder == Some(t)
    requires At(s, t) == CancelDrain(id) || At(s, t) == CancelClear(id)
    requires s' == StepRunOf(s, t)
    ensures JobsOk(s')
  {
    assert At(s, t) == CancelDrain(id) ==> s.word.incoming || id in s.entered by {
      assert ThreadOk(s, t);
    }
    if At(s, t).CancelClear? {
      HolderJobs(s, s', t, CancelPop(id));
    } else {
      HolderJobs(s, s', t, if s.word.incoming then CancelClear(id) else CancelRemove(id));
    }
  }

  lemma {:induction false} RunBitJobs(s: State, s': State, t: Tid, c: Cont)
    requires JobsOk(s) && Inv(s) && s.holder == Some(t) && At(s, t) == Run(c) && s' == StepRunOf(s, t)
    ensures JobsOk(s')
  {
    HolderJobs(s, s', t, Drain(c, s.word));
  }

  lemma {:induction false} ClearBitJobs(s: State, s': State, t: Tid, c: Cont, w: Word)
    requires JobsOk(s) && Inv(s) && s.holder == Some(t) && At(s, t) == DrainClear(c, w) && s' == StepRunOf(s, t)
    ensures JobsOk(s')
  {
    HolderJobs(s, s', t, DrainPop(c, w));
  }

  lemma {:induction false} DrainReadJobs(s: State, s': State, t: Tid, c: Cont, w: Word)
    requires JobsOk(s) && Inv(s) && s.holder == Some(t) && At(s, t) == Drain(c, w) && s' == StepRunOf(s, t)
    ensures JobsOk(s')
  {
    HolderJobs(s, s', t, if s.word.incoming then DrainClear(c, w) else Serve(c, w.(incoming := false)));
  }

  lemma {:induction false} ExitJobs(s: State, s': State, t: Tid, c: Cont, w: Word)
    requires JobsOk(s) && Inv(s) && s.holder == Some(t) && At(s, t) == Exit(c, w) && s' == StepRunOf(s, t)
    ensures JobsOk(s')
  {
    HolderJobs(s, s', t, if s.word == w then AfterRun(c) else Drain(c, s.word));
  }

  lemma {:induction false} RunStepJobs(s: State, s': State, t: Tid)
    requires JobsOk(s) && Inv(s) && Running(At(s, t)) && s' == StepRunOf(s, t)
    ensures JobsOk(s')
  {
    assert s.holder == Some(t) by { assert RunnerOk(s, t); }
    match At(s, t)
    case CancelRemove(id) => CancelRemoveJobs(s, s', t, id);
    case Serve(c, w) => ServeJobs(s, s', t, c, w);
    case CancelPop(_) => PopStepJobs(s, s', t);
    case DrainPop(_, _) => PopStepJobs(s, s', t);
    case CancelDrain(id) => CancelBitJobs(s, s', t, id);
    case CancelClear(id) => CancelBitJobs(s, s', t, id);
    case Run(c) => RunBitJobs(s, s', t, c);
    case DrainClear(c, w) => ClearBitJobs(s, s', t, c, w);
    case Drain(c, w) => DrainReadJobs(s, s', t, c, w);
    case Exit(c, w) => ExitJobs(s, s', t, c, w);
  }

  lemma {:induction false} RunJobs(ss: seq<State>, acts: seq<Action>, k: nat)
    requires RunOf(ss, acts) && k < |ss|
    ensures JobsOk(ss[k]) && Inv(ss[k])
  {
    RunInv(ss, acts, k);
    if k > 0 {
      RunJobs(ss, acts, k - 1);
      var s, a := ss[k - 1], acts[k - 1];
      if a.StepRun? {
        RunStepJobs(s, ss[k], a.t);
      } else if a.Finish? || a.StartCancel? || a.DoCancelTry? || a.FinishCancel? {
        WaitJobs(s, a, ss[k]);
      } else {
        EntryJobs(s, a, ss[k]);
      }
    }
  }
}