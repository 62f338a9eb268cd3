/**
 * The reader-writer lock that a caller of the bit-range lock is promised: strictly fair,
 * with hand-off. It has no bits, no saturation and no wait-list lock.
 */
module FairRw {
  import opened Base

  datatype Request = Request(t: Tid, rd: bool)

  datatype Lock = Lock(readers: set<Tid>, writer: Option<Tid>, queue: seq<Request>)

  const Free := Lock({}, None, [])

  predicate Unheld(l: Lock) {
    l.readers == {} && l.writer == None
  }

  /** Length of the longest run of readers at the old end of the queue. */
  function ReaderRun(q: seq<Request>): (n: nat)
    ensures n <= |q|
    ensures forall i :: 0 <= i < n ==> q[i].rd
    ensures n < |q| ==> !q[n].rd
  {
    if q == [] || !q[0].rd then 0 else 1 + ReaderRun(q[1..])
  }

  function Threads(q: seq<Request>): set<Tid> {
    set i | 0 <= i < |q| :: q[i].t
  }

  /** An unheld lock passes to the oldest waiter: one writer, or every leading reader. */
  function HandOff(l: Lock): Lock {
    if !Unheld(l) || l.queue == [] then l
    else if l.queue[0].rd then
      var n := ReaderRun(l.queue);
      Lock(Threads(l.queue[..n]), None, l.queue[n..])
    else
      Lock({}, Some(l.queue[0].t), l.queue[1..])
  }

  datatype Event =
    | Quiet
    | ReadGranted(t: Tid)
    | WriteGranted(t: Tid)
    | Queued(req: Request)
    | ReadReleased(t: Tid)
    | WriteReleased(t: Tid)

  /** What one event does; every transition of a fair lock is one of these. */
  predicate Step(l: Lock, e: Event, l': Lock) {
    match e
    case Quiet => l' == l
    case ReadGranted(t) =>
      l.writer == None && l.queue == [] && t !in l.readers && l' == l.(readers := l.readers + {t})
    case WriteGranted(t) =>
      Unheld(l) && l.queue == [] && l' == l.(writer := Some(t))
    case Queued(req) =>
      && !Unheld(l)
      && (req.rd ==> l.writer != None || l.queue != [])
      && l' == l.(queue := l.queue + [req])
    case ReadReleased(t) =>
      t in l.readers && l' == HandOff(l.(readers := l.readers - {t}))
    case WriteReleased(t) =>
      l.writer == Some(t) && l' == HandOff(l.(writer := None))
  }

  /** Exclusion, no idle lock with waiters, and a writer at the front while readers hold. */
  predicate Sound(l: Lock) {
    && (l.writer != None ==> l.readers == {})
    && (Unheld(l) ==> l.queue == [])
    && (l.readers != {} && l.queue != [] ==> !l.queue[0].rd)
  }

  lemma {:induction false} StepKeepsSound(l: Lock, e: Event, l': Lock)
    requires Sound(l) && Step(l, e, l')
    ensures Sound(l')
  {
    if l.queue != [] && l.queue[0].rd {
      var n := ReaderRun(l.queue);
      assert l.queue[..n][0].t in Threads(l.queue[..n]);
    }
  }

  predicate Run(ls: seq<Lock>, es: seq<Event>) {
    && |ls| == |es| + 1
    && ls[0] == Free
    && forall i :: 0 <= i < |es| ==> Step(ls[i], es[i], ls[i + 1])
  }

  lemma {:induction false} RunIsSound(ls: seq<Lock>, es: seq<Event>, k: nat)
    requires Run(ls, es) && k < |ls|
    ensures Sound(ls[k])
  {
    if k > 0 {
      RunIsSound(ls, es, k - 1);
      StepKeepsSound(ls[k - 1], es[k - 1], ls[k]);
    }
  }

  /** The requests ever queued during a run, in arrival order. */
  function Arrivals(es: seq<Event>): seq<Request> {
    if es == [] then []
    else
      var e := es[|es| - 1];
      Arrivals(es[..|es| - 1]) + (if e.Queued? then [e.req] else [])
  }

  /** One event takes requests only from the old end and adds at most one at the new end. */
  lemma {:induction false} StepServes(l: Lock, e: Event, l': Lock) returns (k: nat)
    requires Step(l, e, l')
    ensures k <= |l.queue|
    ensures l'.queue == l.queue[k..] + (if e.Queued? then [e.req] else [])
  {
    var q := l.queue;
    k := if l'.queue == q || e.Queued? then 0 else if q[0].rd then ReaderRun(q) else 1;
    assert q[0..] == q;
  }

  /** No overtaking: what is still queued is always a final part of what ever arrived. */
  lemma {:induction false} QueueIsFifo(ls: seq<Lock>, es: seq<Event>) returns (served: nat)
    requires Run(ls, es)
    ensures served <= |Arrivals(es)|
    ensures ls[|es|].queue == Arrivals(es)[served..]
  {
    if es == [] {
      served := 0;
    } else {
      var n := |es| - 1;
      var before := Arrivals(es[..n]);
      served := QueueIsFifo(ls[..n + 1], es[..n]);
      assert ls[..n + 1][n].queue == before[served..];
      var k := StepServes(ls[n], es[n], ls[n + 1]);
      var now := if es[n].Queued? then [es[n].req] else [];
      assert Arrivals(es) == before + now;
      assert (before + now)[served + k..] == before[served..][k..] + now;
      served := served + k;
    }
  }
}
