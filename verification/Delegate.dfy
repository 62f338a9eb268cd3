/** Draining the jobs handed to a delegate into its queue, on the linked lists themselves. */
module Delegate {
  import opened Base
  import opened Counter
  import opened DList
  import opened CounterJobs

  function Jobs(es: seq<Elem>): (js: seq<Job>)
    ensures |js| == |es| && forall i :: 0 <= i < |es| ==> js[i] == es[i].job
  {
    seq(|es|, i requires 0 <= i < |es| => es[i].job)
  }

  /** The elements of the incoming stack from the newest, linked by `next` alone. */
  ghost predicate Stacked(top: Elem?, st: seq<Elem>)
    reads Elems(st)
  {
    && (forall i, j :: 0 <= i < j < |st| ==> st[i] != st[j])
    && top == (if st == [] then null else st[0])
    && forall i :: 0 <= i < |st| ==> StackLink(st, i)
  }

  ghost predicate StackLink(st: seq<Elem>, i: nat)
    requires i < |st|
    reads Elems(st)
  {
    st[i].next == if i + 1 < |st| then st[i + 1] else null
  }

  /** Requests of the stack, oldest first. */
  function Plain(es: seq<Elem>): seq<Elem> {
    if es == [] then []
    else if es[0].job.Alloc? then Plain(es[1..]) + [es[0]]
    else Plain(es[1..])
  }

  /** Cancellations on the stack, in its order. */
  function Urgent(es: seq<Elem>): seq<Elem> {
    if es == [] then []
    else if es[0].job.Alloc? then Urgent(es[1..])
    else [es[0]] + Urgent(es[1..])
  }

  lemma {:induction false} PlainThen(es: seq<Elem>, x: Elem)
    ensures Plain(es + [x]) == if x.job.Alloc? then [x] + Plain(es) else Plain(es)
    ensures Urgent(es + [x]) == if x.job.Alloc? then Urgent(es) else Urgent(es) + [x]
  {
    if es != [] {
      PlainThen(es[1..], x);
      assert (es + [x])[1..] == es[1..] + [x];
    }
  }

  lemma {:induction false} PartsIn(es: seq<Elem>)
    ensures forall x :: x in Plain(es) ==> x in es && x.job.Alloc?
    ensures forall x :: x in Urgent(es) ==> x in es && !x.job.Alloc?
  {
    if es != [] {
      PartsIn(es[1..]);
    }
  }

  lemma {:induction false} PlainIsRequests(es: seq<Elem>)
    ensures Jobs(Plain(es)) == Requests(Jobs(es))
  {
    if es != [] {
      PlainIsRequests(es[1..]);
      assert Jobs(es)[1..] == Jobs(es[1..]);
      assert Jobs(Plain(es[1..]) + [es[0]]) == Jobs(Plain(es[1..])) + [es[0].job];
    }
  }

  /** Sorts one job: a request goes in front of the one sorted before it, a cancellation is set aside. */
  method SortOne(queue: List, immediate: List, job: Elem, last: Elem?, ghost n: nat, ghost rest: seq<Elem>)
    returns (now: Elem?)
    requires queue.Valid() && immediate.Valid() && queue != immediate
    requires job !in queue.items && job !in immediate.items
    requires forall x :: x in queue.items ==> x !in immediate.items
    requires n <= |queue.items| && last == if n == |queue.items| then null else queue.items[n]
    requires forall j :: 0 <= j < |rest| ==>
      rest[j] !in Elems(queue.items) && rest[j] !in Elems(immediate.items) && rest[j] != job
    modifies queue, immediate, Elems(queue.items), Elems(immediate.items), job
    ensures queue.Valid() && immediate.Valid()
    ensures queue.items ==
      if job.job.Alloc? then old(queue.items)[..n] + [job] + old(queue.items)[n..] else old(queue.items)
    ensures immediate.items == if job.job.Alloc? then old(immediate.items) else old(immediate.items) + [job]
    ensures now == if job.job.Alloc? then job else last
    ensures forall j :: 0 <= j < |rest| ==> rest[j].next == old(rest[j].next)
  {
    now := last;
    if job.job.Cancel? {
      immediate.AppendAtEnd(job);
    } else {
      ghost var was := queue.items;
      if last == null {
        queue.AppendAtEnd(job);
        assert was == was[..n] && was[n..] == [];
      } else {
        queue.InsertBefore(last, job, n);
      }
      now := job;
    }
  }

  /** The first `i` jobs of the stack are sorted; `job` is the next and `last` the request sorted last. */
  ghost predicate Sorted(queue: List, immediate: List, was: seq<Elem>, st: seq<Elem>, i: nat, job: Elem?, last: Elem?)
    requires i <= |st|
    reads queue, immediate, Elems(queue.items), Elems(immediate.items), Elems(st[i..])
  {
    && queue.Valid() && immediate.Valid() && queue != immediate
    && queue.items == was + Plain(st[..i])
    && immediate.items == Urgent(st[..i])
    && last == (if Plain(st[..i]) == [] then null else Plain(st[..i])[0])
    && Stacked(job, st[i..])
  }

  method SortNext(queue: List, immediate: List, ghost was: seq<Elem>, ghost st: seq<Elem>, ghost i: nat, job: Elem, last: Elem?)
    returns (next: Elem?, now: Elem?)
    requires i < |st| && Sorted(queue, immediate, was, st, i, job, last)
    requires forall j, k :: 0 <= j < k < |st| ==> st[j] != st[k]
    requires forall x :: x in st ==> x !in was
    modifies queue, immediate, Elems(queue.items), Elems(immediate.items), job
    ensures Sorted(queue, immediate, was, st, i + 1, next, now)
  {
    ghost var rest := st[i + 1..];
    NextFacts(queue.items, immediate.items, was, st, i);
    NextLink(st, i, job);
    next := job.next;
    now := SortOne(queue, immediate, job, last, |was|, rest);
    forall j | 0 <= j < |rest|
      ensures StackLink(rest, j)
    {
      assert old(StackLink(rest, j));
    }
  }

  /** The job on top of what is left of the stack, and what lies below it. */
  lemma {:induction false} NextLink(st: seq<Elem>, i: nat, job: Elem)
    requires i < |st| && Stacked(job, st[i..])
    ensures job == st[i] && Stacked(job.next, st[i + 1..])
  {
    StackTail(st[i..], job);
    assert st[i..][1..] == st[i + 1..];
  }

  /** What sorting the next job makes of the two lists. */
  lemma {:induction false} NextFacts(items: seq<Elem>, aside: seq<Elem>, was: seq<Elem>, st: seq<Elem>, i: nat)
    requires i < |st| && items == was + Plain(st[..i]) && aside == Urgent(st[..i])
    requires forall j, k :: 0 <= j < k < |st| ==> st[j] != st[k]
    requires forall x :: x in st ==> x !in was
    ensures st[i].job.Alloc? ==> items[..|was|] + [st[i]] + items[|was|..] == was + Plain(st[..i + 1])
    ensures !st[i].job.Alloc? ==> items == was + Plain(st[..i + 1])
    ensures Urgent(st[..i + 1]) == if st[i].job.Alloc? then aside else aside + [st[i]]
    ensures Plain(st[..i + 1]) == if st[i].job.Alloc? then [st[i]] + Plain(st[..i]) else Plain(st[..i])
    ensures st[i] !in items && st[i] !in aside
    ensures forall x :: x in items ==> x !in aside
    ensures var rest := st[i + 1..]; forall j :: 0 <= j < |rest| ==>
      rest[j] !in Elems(items) && rest[j] !in Elems(aside) && rest[j] != st[i]
  {
    PlainStep(st, i);
    Fresh(items, was, st, i);
  }

  /**
   * Empties the incoming stack: requests go behind the queue in the order of their submission, each
   * put in front of the one before it; cancellations are set aside to run at once.
   */
  method SortIncoming(queue: List, immediate: List, top: Elem?, ghost st: seq<Elem>)
    requires queue.Valid() && immediate.Valid() && immediate.items == [] && queue != immediate
    requires Stacked(top, st) && forall x :: x in st ==> x !in queue.items
    modifies queue, immediate, Elems(queue.items), Elems(st)
    ensures queue.Valid() && immediate.Valid()
    ensures queue.items == old(queue.items) + Plain(st)
    ensures immediate.items == Urgent(st)
  {
    var job := top;
    var last: Elem? := null;
    ghost var i := 0;
    ghost var was := queue.items;
    assert st[0..] == st;
    while job != null
      invariant 0 <= i <= |st| && Sorted(queue, immediate, was, st, i, job, last)
      decreases |st| - i
    {
      Fresh(queue.items, was, st, i);
      job, last := SortNext(queue, immediate, was, st, i, job, last);
      i := i + 1;
    }
    assert st[..i] == st;
  }

  lemma {:induction false} StackTail(st: seq<Elem>, top: Elem?)
    requires st != [] && Stacked(top, st)
    ensures st[0].next == (if |st| > 1 then st[1] else null) && Stacked(st[0].next, st[1..])
  {
    assert StackLink(st, 0);
    forall i | 0 <= i < |st| - 1
      ensures StackLink(st[1..], i)
    {
      assert StackLink(st, i + 1);
    }
  }

  lemma {:induction false} PlainStep(st: seq<Elem>, i: nat)
    requires i < |st|
    ensures Plain(st[..i + 1]) == if st[i].job.Alloc? then [st[i]] + Plain(st[..i]) else Plain(st[..i])
    ensures Urgent(st[..i + 1]) == if st[i].job.Alloc? then Urgent(st[..i]) else Urgent(st[..i]) + [st[i]]
  {
    assert st[..i + 1] == st[..i] + [st[i]];
    PlainThen(st[..i], st[i]);
  }

  /** An element still on the stack is on neither list. */
  lemma {:induction false} Fresh(items: seq<Elem>, was: seq<Elem>, st: seq<Elem>, i: nat)
    requires i <= |st| && items == was + Plain(st[..i])
    requires forall j, k :: 0 <= j < k < |st| ==> st[j] != st[k]
    requires forall x :: x in st ==> x !in was
    ensures forall j :: i <= j < |st| ==> st[j] !in items && st[j] !in Urgent(st[..i])
    ensures forall x :: x in Urgent(st[..i]) ==> x !in items && x in st
    ensures forall x :: x in items ==> x in was || x in st
  {
    PartsIn(st[..i]);
  }

  // ---------- running the cancellations ----------

  predicate Asks(j: Job, id: Id) {
    j.Alloc? && j.req.id == id
  }

  /** The walk that looks for a job in the list. */
  method FindRequest(queue: List, id: Id) returns (e: Elem?, ghost k: nat)
    requires queue.Valid()
    ensures k <= |queue.items| && forall i :: 0 <= i < k ==> !Asks(queue.items[i].job, id)
    ensures if k == |queue.items| then e == null else e == queue.items[k] && Asks(queue.items[k].job, id)
  {
    e := queue.head;
    k := 0;
    while e != null && !(e.job.Alloc? && e.job.req.id == id)
      invariant 0 <= k <= |queue.items| && e == if k < |queue.items| then queue.items[k] else null
      invariant forall i :: 0 <= i < k ==> !Asks(queue.items[i].job, id)
      decreases |queue.items| - k
    {
      assert queue.LinkOk(k);
      e := e.next;
      k := k + 1;
    }
  }

  lemma {:induction false} KeepNone(q: seq<Job>, id: Id)
    requires forall i :: 0 <= i < |q| ==> !Asks(q[i], id)
    ensures Keep(q, {id}) == q
  {
    if q != [] {
      KeepNone(q[1..], id);
    }
  }

  lemma {:induction false} KeepConcat(a: seq<Job>, b: seq<Job>, gone: set<Id>)
    ensures Keep(a + b, gone) == Keep(a, gone) + Keep(b, gone)
  {
    if a != [] {
      KeepConcat(a[1..], b, gone);
      assert (a + b)[1..] == a[1..] + b;
    } else {
      assert a + b == b;
    }
  }

  lemma {:induction false} KeepTwice(q: seq<Job>, a: set<Id>, b: set<Id>)
    ensures Keep(Keep(q, a), b) == Keep(q, a + b)
  {
    if q != [] {
      KeepTwice(q[1..], a, b);
      KeepConcat(if Asks(q[0], if q[0].Alloc? then q[0].req.id else 0) && q[0].req.id in a then [] else [q[0]],
                 Keep(q[1..], a), b);
    }
  }

  /** Each request is queued once. */
  predicate Single(q: seq<Job>) {
    forall i, j :: 0 <= i < j < |q| && q[i].Alloc? && q[j].Alloc? ==> q[i].req.id != q[j].req.id
  }

  lemma {:induction false} KeepOne(q: seq<Job>, id: Id, k: nat)
    requires Single(q) && k < |q| && Asks(q[k], id)
    ensures Keep(q, {id}) == q[..k] + q[k + 1..]
  {
    var a, b := q[..k], q[k + 1..];
    assert q == a + [q[k]] + b;
    KeepNone(a, id);
    KeepNone(b, id);
    KeepConcat(a + [q[k]], b, {id});
    KeepConcat(a, [q[k]], {id});
    assert Keep([q[k]], {id}) == [] + Keep([q[k]][1..], {id});
  }

  /** One cancellation: the request leaves the queue if it is still there, and the answer says so. */
  method CancelRequest(queue: List, id: Id) returns (found: bool)
    requires queue.Valid() && Single(Jobs(queue.items))
    modifies queue, Elems(queue.items)
    ensures queue.Valid() && Jobs(queue.items) == Keep(old(Jobs(queue.items)), {id})
    ensures found <==> id in AllocIds(old(Jobs(queue.items)))
    ensures forall x :: x in queue.items ==> x in old(queue.items)
  {
    ghost var was := queue.items;
    ghost var k;
    var e;
    e, k := FindRequest(queue, id);
    CancelFacts(was, id, k);
    found := e != null;
    if e != null {
      queue.Remove(e, k);
    }
  }

  /** The queue without the request at `k`, or as it is when no element asks for it. */
  lemma {:induction false} CancelFacts(es: seq<Elem>, id: Id, k: nat)
    requires Single(Jobs(es)) && k <= |es| && (k < |es| ==> Asks(es[k].job, id))
    requires forall i :: 0 <= i < k ==> !Asks(es[i].job, id)
    ensures k < |es| ==> Jobs(es[..k] + es[k + 1..]) == Keep(Jobs(es), {id}) && id in AllocIds(Jobs(es))
    ensures k == |es| ==> Jobs(es) == Keep(Jobs(es), {id}) && id !in AllocIds(Jobs(es))
    ensures k < |es| ==> forall x :: x in es[..k] + es[k + 1..] ==> x in es
  {
    var js := Jobs(es);
    if k < |es| {
      KeepOne(js, id, k);
      assert js[k].req.id in AllocIds(js);
      assert Jobs(es[..k] + es[k + 1..]) == js[..k] + js[k + 1..];
    } else {
      KeepNone(js, id);
    }
  }

  lemma {:induction false} KeepSingle(q: seq<Job>, gone: set<Id>)
    requires Single(q)
    ensures Single(Keep(q, gone))
    ensures forall x :: x in Keep(q, gone) ==> x in q
  {
    if q != [] {
      KeepSingle(q[1..], gone);
      var k := Keep(q[1..], gone);
      if !(q[0].Alloc? && q[0].req.id in gone) {
        forall j | 0 <= j < |k| && k[j].Alloc? && q[0].Alloc?
          ensures k[j].req.id != q[0].req.id
        {
          assert k[j] in q[1..];
          var i :| 0 <= i < |q[1..]| && q[1..][i] == k[j];
          assert q[i + 1] == k[j];
        }
      }
    }
  }

  /** Only cancellations, of different requests. */
  predicate Cancels(q: seq<Job>) {
    && (forall i :: 0 <= i < |q| ==> q[i].Cancel?)
    && forall i, j :: 0 <= i < j < |q| ==> q[i] != q[j]
  }

  lemma {:induction false} CancelIdsThen(q: seq<Job>, i: nat)
    requires Cancels(q) && i < |q|
    ensures CancelIds(q[..i + 1]) == CancelIds(q[..i]) + {q[i].id}
    ensures q[i].id !in CancelIds(q[..i])
  {
    assert q[..i + 1] == q[..i] + [q[i]];
    PartsConcat(q[..i], [q[i]]);
    CounterJobs.CancelOne(q[i].id);
    assert [q[i]] == [Cancel(q[i].id)];
  }

  lemma {:induction false} AnswerStep(js: seq<Job>, q: seq<Job>, i: nat)
    requires Cancels(q) && i < |q| && Single(js)
    ensures Single(Keep(js, CancelIds(q[..i])))
    ensures Keep(Keep(js, CancelIds(q[..i])), {q[i].id}) == Keep(js, CancelIds(q[..i + 1]))
    ensures q[i].id in AllocIds(Keep(js, CancelIds(q[..i]))) <==> q[i].id in AllocIds(js)
  {
    var gone := CancelIds(q[..i]);
    KeepSingle(js, gone);
    CancelIdsThen(q, i);
    KeepIs(js, gone);
    KeepTwice(js, gone, {q[i].id});
  }

  ghost predicate Ran(queue: List, immediate: List, js: seq<Job>, todo: seq<Elem>, i: nat, answers: seq<bool>)
    requires i <= |todo| && Cancels(Jobs(todo))
    reads queue, immediate, Elems(queue.items), Elems(immediate.items)
  {
    && queue.Valid() && immediate.Valid() && queue != immediate
    && (forall x :: x in queue.items ==> x !in immediate.items)
    && immediate.items == todo[i..]
    && Jobs(queue.items) == Keep(js, CancelIds(Jobs(todo)[..i]))
    && |answers| == i
    && forall k :: 0 <= k < i ==> (answers[k] <==> Jobs(todo)[k].id in AllocIds(js))
  }

  method RunNext(queue: List, immediate: List, ghost js: seq<Job>, ghost todo: seq<Elem>, ghost i: nat, answers: seq<bool>)
    returns (answers': seq<bool>)
    requires i < |todo| && Cancels(Jobs(todo)) && Single(js) && Ran(queue, immediate, js, todo, i, answers)
    modifies queue, immediate, Elems(queue.items), Elems(immediate.items)
    ensures Ran(queue, immediate, js, todo, i + 1, answers')
    ensures forall x :: x in queue.items ==> x in old(queue.items)
  {
    var e := NextAside(queue, immediate, todo, i);
    AnswerStep(js, Jobs(todo), i);
    var found := CancelApart(queue, immediate, e.job.id);
    answers' := answers + [found];
  }

  /** Takes the next job that was set aside; the queue shares no element with them. */
  method NextAside(queue: List, immediate: List, ghost todo: seq<Elem>, ghost i: nat) returns (e: Elem)
    requires queue.Valid() && immediate.Valid() && queue != immediate
    requires forall x :: x in queue.items ==> x !in immediate.items
    requires i < |todo| && immediate.items == todo[i..]
    modifies immediate, Elems(immediate.items)
    ensures queue.Valid() && immediate.Valid() && queue.items == old(queue.items)
    ensures e == todo[i] && immediate.items == todo[i + 1..]
    ensures e.job == Jobs(todo)[i] && Jobs(queue.items) == old(Jobs(queue.items))
  {
    assert Elems(queue.items) !! Elems(immediate.items);
    e := immediate.Dequeue();
  }

  /** A cancellation leaves the jobs set aside alone. */
  method CancelApart(queue: List, immediate: List, id: Id) returns (found: bool)
    requires queue.Valid() && immediate.Valid() && queue != immediate && Single(Jobs(queue.items))
    requires forall x :: x in queue.items ==> x !in immediate.items
    modifies queue, Elems(queue.items)
    ensures queue.Valid() && immediate.Valid() && immediate.items == old(immediate.items)
    ensures Jobs(queue.items) == Keep(old(Jobs(queue.items)), {id})
    ensures found <==> id in AllocIds(old(Jobs(queue.items)))
    ensures forall x :: x in queue.items ==> x in old(queue.items)
  {
    assert Elems(queue.items) !! Elems(immediate.items);
    found := CancelRequest(queue, id);
  }

  /** Every job set aside runs, in turn. */
  method RunImmediate(queue: List, immediate: List) returns (answers: seq<bool>)
    requires queue.Valid() && immediate.Valid() && queue != immediate
    requires forall x :: x in queue.items ==> x !in immediate.items
    requires Single(Jobs(queue.items)) && Cancels(Jobs(immediate.items))
    modifies queue, immediate, Elems(queue.items), Elems(immediate.items)
    ensures queue.Valid() && immediate.Valid() && immediate.items == []
    ensures Jobs(queue.items) == Keep(old(Jobs(queue.items)), CancelIds(old(Jobs(immediate.items))))
    ensures |answers| == |old(immediate.items)|
    ensures forall k :: 0 <= k < |answers| ==>
      (answers[k] <==> old(Jobs(immediate.items))[k].id in AllocIds(old(Jobs(queue.items))))
  {
    ghost var js, todo, i := Jobs(queue.items), immediate.items, 0;
    answers := [];
    KeepNothing(js);
    assert Jobs(todo)[..0] == [] && CancelIds([]) == {};
    while immediate.head != null
      invariant 0 <= i <= |todo| && Ran(queue, immediate, js, todo, i, answers)
      invariant forall x :: x in queue.items ==> x in old(queue.items)
      decreases |todo| - i
    {
      answers := RunNext(queue, immediate, js, todo, i, answers);
      i := i + 1;
    }
    assert Jobs(todo)[..i] == Jobs(todo);
  }

  lemma {:induction false} KeepNothing(q: seq<Job>)
    ensures Keep(q, {}) == q
  {
    if q != [] {
      KeepNothing(q[1..]);
    }
  }

  lemma {:induction false} UrgentIsCancels(es: seq<Elem>)
    ensures CancelIds(Jobs(Urgent(es))) == CancelIds(Jobs(es))
    ensures forall i :: 0 <= i < |Urgent(es)| ==> Urgent(es)[i].job.Cancel? && Urgent(es)[i] in es
  {
    if es != [] {
      UrgentIsCancels(es[1..]);
      AllocStep(Jobs(es));
      assert Jobs(es)[1..] == Jobs(es[1..]);
      if es[0].job.Cancel? {
        var u := Urgent(es);
        AllocStep(Jobs(u));
        assert u[1..] == Urgent(es[1..]);
        assert Jobs(u)[1..] == Jobs(u[1..]);
      }
    }
  }

  /** No two cancellations of the stack name the same request. */
  predicate CancelsOnce(js: seq<Job>) {
    forall i, j :: 0 <= i < j < |js| && js[i].Cancel? && js[j].Cancel? ==> js[i] != js[j]
  }

  lemma {:induction false} UrgentOnce(es: seq<Elem>)
    requires CancelsOnce(Jobs(es))
    ensures Cancels(Jobs(Urgent(es)))
  {
    if es != [] {
      assert forall i :: 0 <= i < |es| - 1 ==> Jobs(es[1..])[i] == Jobs(es)[i + 1];
      UrgentOnce(es[1..]);
      if es[0].job.Cancel? {
        UrgentIsCancels(es[1..]);
        var u := Urgent(es[1..]);
        forall j | 0 <= j < |u|
          ensures u[j].job != es[0].job
        {
          var i :| 0 <= i < |es[1..]| && es[1..][i] == u[j];
          assert Jobs(es)[i + 1] == u[j].job;
        }
      }
    }
  }

  lemma {:induction false} DrainFacts(was: seq<Elem>, st: seq<Elem>)
    requires CancelsOnce(Jobs(st)) && forall x :: x in st ==> x !in was
    ensures Jobs(was + Plain(st)) == Jobs(was) + Requests(Jobs(st))
    ensures CancelIds(Jobs(Urgent(st))) == CancelIds(Jobs(st)) && Cancels(Jobs(Urgent(st)))
    ensures forall x :: x in was + Plain(st) ==> x !in Urgent(st)
    ensures forall x :: x in Plain(st) || x in Urgent(st) ==> x in st
  {
    PartsIn(st);
    PlainIsRequests(st);
    UrgentIsCancels(st);
    UrgentOnce(st);
  }

  /**
   * Drains the incoming stack on the linked lists: the queue becomes the old queue and then the
   * requests in the order of their submission, without those that are cancelled.
   */
  method Drain(queue: List, top: Elem?, ghost st: seq<Elem>) returns (answers: seq<bool>)
    requires queue.Valid() && Stacked(top, st) && forall x :: x in st ==> x !in queue.items
    requires Single(Jobs(queue.items) + Requests(Jobs(st))) && CancelsOnce(Jobs(st))
    modifies queue, Elems(queue.items), Elems(st)
    ensures queue.Valid()
    ensures Jobs(queue.items) ==
      Keep(old(Jobs(queue.items)) + Requests(Jobs(st)), CancelIds(Jobs(st)))
    ensures |answers| == |Urgent(st)|
    ensures forall k :: 0 <= k < |answers| ==>
      (answers[k] <==> Urgent(st)[k].job.Cancel? &&
                       Urgent(st)[k].job.id in AllocIds(old(Jobs(queue.items)) + Requests(Jobs(st))))
  {
    var immediate := new List();
    ghost var was := queue.items;
    SortIncoming(queue, immediate, top, st);
    DrainFacts(was, st);
    answers := RunImmediate(queue, immediate);
  }
}