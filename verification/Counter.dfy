/**
 * The fair resource counter and the delegation queue it is built on, as a transition system: one
 * word with the units available and the bits lock, incoming and pending; a stack of jobs handed in;
 * and the queue of the thread that has the lock bit. A push on the stack is one step.
 *
 * `holder`, `out`, `granted`, `cancelled`, `entered`, `owner` and `answers` are auxiliary: they record
 * who set the lock bit, how many units are in use, what became of each request, the order in which
 * requests entered the queue, who made a request, and what each cancellation was told.
 */
module Counter {
  import opened Base

  /** A request, named by its context. */
  type Id = nat

  datatype Req = Req(id: Id, need: nat)

  datatype Job = Alloc(req: Req) | Cancel(id: Id)

  datatype Word = Word(lock: bool, incoming: bool, pending: bool, avail: nat)

  /** What a thread does after it has run the queue. */
  datatype Cont = Leave | Await(id: Id) | AwaitCancel(id: Id)

  datatype Pc =
    | Idle
    | Submit(job: Job)
    | SetBits(job: Job)
    | Waiting(id: Id)
    | CancelTry(id: Id)
    | CancelWait(id: Id)
    | CancelDrain(id: Id)                   // got the lock bit: drain, then take the request out
    | CancelClear(id: Id)
    | CancelPop(id: Id)
    | CancelRemove(id: Id)
    | Run(cont: Cont)
    | Drain(cont: Cont, seen: Word)
    | DrainClear(cont: Cont, seen: Word)
    | DrainPop(cont: Cont, seen: Word)
    | Serve(cont: Cont, seen: Word)
    | Exit(cont: Cont, seen: Word)

  datatype State = State(
    max: nat,
    word: Word,
    stack: seq<Job>,
    queue: seq<Job>,
    pc: map<Tid, Pc>,
    holder: Option<Tid>,
    out: nat,
    granted: seq<Id>,
    cancelled: set<Id>,
    entered: seq<Id>,
    owner: map<Id, Tid>,
    answers: map<Id, bool>)

  function At(s: State, t: Tid): Pc {
    if t in s.pc then s.pc[t] else Idle
  }

  function To(s: State, t: Tid, p: Pc): State {
    s.(pc := s.pc[t := p])
  }

  function AfterRun(c: Cont): Pc {
    match c
    case Leave => Idle
    case Await(id) => Waiting(id)
    case AwaitCancel(id) => CancelWait(id)
  }

  function AfterSubmit(j: Job): Cont {
    match j
    case Alloc(r) => Await(r.id)
    case Cancel(id) => AwaitCancel(id)
  }

  datatype Action =
    | TryAlloc(t: Tid, need: nat)
    | AllocAsync(t: Tid, req: Req)
    | DoSubmit(t: Tid)
    | DoSetBits(t: Tid)
    | Finish(t: Tid)
    | StartCancel(t: Tid)
    | DoCancelTry(t: Tid)
    | FinishCancel(t: Tid)
    | Free(t: Tid, count: nat)
    | StepRun(t: Tid)

  predicate Running(p: Pc) {
    || p.CancelDrain? || p.CancelClear? || p.CancelPop? || p.CancelRemove?
    || p.Run? || p.Drain? || p.DrainClear? || p.DrainPop? || p.Serve? || p.Exit?
  }

  predicate Can(s: State, a: Action) {
    var p := At(s, a.t);
    match a
    case TryAlloc(_, _) => p.Idle?
    case AllocAsync(_, r) => p.Idle? && r.id !in s.owner
    case DoSubmit(_) => p.Submit?
    case DoSetBits(_) => p.SetBits?
    case Finish(_) => p.Waiting? && p.id in s.granted
    case StartCancel(_) => p.Waiting?
    case DoCancelTry(_) => p.CancelTry?
    case FinishCancel(_) => p.CancelWait? && p.id in s.answers
    case Free(_, n) => p.Idle? && 0 < n <= s.out
    case StepRun(_) => Running(p)
  }

  predicate Quiet(w: Word) {
    !w.lock && !w.incoming && !w.pending
  }

  // ---------- requests ----------

  function TryAllocOf(s: State, need: nat): State {
    if s.word.avail < need || !Quiet(s.word) then s
    else s.(word := s.word.(avail := s.word.avail - need), out := s.out + need)
  }

  function AllocAsyncOf(s: State, t: Tid, r: Req): State {
    if s.word.avail < r.need || !Quiet(s.word) then
      To(s, t, Submit(Alloc(r))).(owner := s.owner[r.id := t])
    else TryAllocOf(s, r.need)
  }

  /** The fast path takes the lock bit and queues the job itself; otherwise the job goes on the stack. */
  function SubmitOf(s: State, t: Tid): State
    requires At(s, t).Submit?
  {
    var j := At(s, t).job;
    if Quiet(s.word) then
      To(s, t, Run(AfterSubmit(j)))
        .(word := s.word.(lock := true), holder := Some(t), queue := s.queue + [j],
          entered := s.entered + Ids([j]))
    else To(s, t, SetBits(j)).(stack := [j] + s.stack)
  }

  function SetBitsOf(s: State, t: Tid): State
    requires At(s, t).SetBits?
  {
    var c := AfterSubmit(At(s, t).job);
    var s' := s.(word := s.word.(lock := true, incoming := true));
    if s.word.lock then To(s', t, AfterRun(c)) else To(s', t, Run(c)).(holder := Some(t))
  }

  function CancelTryOf(s: State, t: Tid): State
    requires At(s, t).CancelTry?
  {
    var id := At(s, t).id;
    if s.word.lock then To(s, t, Submit(Cancel(id)))
    else To(s, t, CancelDrain(id)).(word := s.word.(lock := true), holder := Some(t))
  }

  function FreeOf(s: State, t: Tid, count: nat): State
    requires count <= s.out
  {
    var lock := s.word.lock || s.word.incoming || s.word.pending;
    var s' := s.(word := s.word.(avail := s.word.avail + count, lock := lock), out := s.out - count);
    if lock && !s.word.lock then To(s', t, Run(Leave)).(holder := Some(t)) else s'
  }

  // ---------- the queue ----------

  /** The requests among the jobs, in order. */
  function Ids(q: seq<Job>): seq<Id> {
    if q == [] then []
    else
      match q[0]
      case Alloc(r) => [r.id] + Ids(q[1..])
      case Cancel(_) => Ids(q[1..])
  }

  /** The requests on the stack, oldest first. */
  function Requests(stack: seq<Job>): seq<Job> {
    if stack == [] then []
    else if stack[0].Alloc? then Requests(stack[1..]) + [stack[0]]
    else Requests(stack[1..])
  }

  function CancelIds(q: seq<Job>): set<Id> {
    set i | 0 <= i < |q| && q[i].Cancel? :: q[i].id
  }

  function AllocIds(q: seq<Job>): set<Id> {
    set i | 0 <= i < |q| && q[i].Alloc? :: q[i].req.id
  }

  /** The queue without the named requests. */
  function Keep(q: seq<Job>, gone: set<Id>): seq<Job> {
    if q == [] then []
    else (if q[0].Alloc? && q[0].req.id in gone then [] else [q[0]]) + Keep(q[1..], gone)
  }

  /** Takes the named requests out of the queue and answers those who asked for it. */
  function Cancelled(s: State, ids: set<Id>): State {
    var found := ids * AllocIds(s.queue);
    s.(queue := Keep(s.queue, ids),
       cancelled := s.cancelled + found,
       answers := s.answers + (map x | x in ids :: x in found))
  }

  /** The stack is emptied on the queue in order of submission; then its cancellations run. */
  function Drained(s: State): State {
    var r := Requests(s.stack);
    Cancelled(s.(stack := [], queue := s.queue + r, entered := s.entered + Ids(r)), CancelIds(s.stack))
  }

  /** The job at the head of the queue runs, or there is none, or it must wait for units. */
  function ServeOf(s: State, t: Tid, c: Cont, w: Word): State {
    if s.queue == [] then To(s, t, Exit(c, w))
    else
      match s.queue[0]
      case Cancel(id) => To(Cancelled(s.(queue := s.queue[1..]), {id}), t, Serve(c, w))
      case Alloc(r) =>
        if s.word.avail < r.need then To(s, t, Exit(c, w))
        else
          var w' := s.word.(avail := s.word.avail - r.need);
          To(s, t, Serve(c, w'))
            .(word := w', queue := s.queue[1..], granted := s.granted + [r.id], out := s.out + r.need)
  }

  function StepRunOf(s: State, t: Tid): State
    requires Running(At(s, t))
  {
    match At(s, t)
    case CancelDrain(id) => To(s, t, if s.word.incoming then CancelClear(id) else CancelRemove(id))
    case CancelClear(id) => To(s, t, CancelPop(id)).(word := s.word.(incoming := false))
    case CancelPop(id) => To(Drained(s), t, CancelRemove(id))
    case CancelRemove(id) => To(Cancelled(s, {id}), t, Run(AwaitCancel(id)))
    case Run(c) => To(s, t, Drain(c, s.word))
    case Drain(c, w) =>
      To(s, t, if s.word.incoming then DrainClear(c, w) else Serve(c, w.(incoming := false)))
    case DrainClear(c, w) => To(s, t, DrainPop(c, w)).(word := s.word.(incoming := false))
    case DrainPop(c, w) => To(Drained(s), t, Serve(c, w.(incoming := false)))
    case Serve(c, w) => ServeOf(s, t, c, w)
    case Exit(c, w) =>
      if s.word == w then
        To(s, t, AfterRun(c))
          .(word := w.(lock := false, pending := s.queue != []), holder := None)
      else To(s, t, Drain(c, s.word))
  }

  function Do(s: State, a: Action): State
    requires Can(s, a)
  {
    match a
    case TryAlloc(t, n) => TryAllocOf(s, n)
    case AllocAsync(t, r) => AllocAsyncOf(s, t, r)
    case DoSubmit(t) => SubmitOf(s, t)
    case DoSetBits(t) => SetBitsOf(s, t)
    case Finish(t) => To(s, t, Idle)
    case StartCancel(t) => To(s, t, CancelTry(At(s, t).id))
    case DoCancelTry(t) => CancelTryOf(s, t)
    case FinishCancel(t) => To(s, t, Idle)
    case Free(t, n) => FreeOf(s, t, n)
    case StepRun(t) => StepRunOf(s, t)
  }

  predicate Init(s: State) {
    s == State(s.max, Word(false, false, false, s.max), [], [], map[], None, 0, [], {}, [], map[], map[])
  }

  predicate RunOf(ss: seq<State>, acts: seq<Action>) {
    && |ss| == |acts| + 1
    && Init(ss[0])
    && forall i :: 0 <= i < |acts| ==> Can(ss[i], acts[i]) && ss[i + 1] == Do(ss[i], acts[i])
  }
}
