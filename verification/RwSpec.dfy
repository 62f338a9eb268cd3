/**
 * The reader-writer lock that a caller of the 4-byte lock is promised, in its fair and its unfair
 * mode, with upgrade and downgrade. Waiters are kept newest first, as the lock stores them.
 */
module RwSpec {
  import opened Base

  datatype Mode = Shared | Exclusive | Upgrade

  datatype Req = Req(t: Tid, mode: Mode)

  /** `transit`: the last reader of an unfair lock has left and is about to hand the lock over. */
  datatype Lock = Lock(unfair: bool, readers: set<Tid>, writer: Option<Tid>, transit: bool, queue: seq<Req>)

  predicate Unheld(l: Lock) {
    l.readers == {} && l.writer == None && !l.transit
  }

  predicate OldestIs(q: seq<Req>, m: Mode) {
    q != [] && q[|q| - 1].mode == m
  }

  /** Length of the longest run of shared waiters at the old end. */
  function SharedTail(q: seq<Req>): (n: nat)
    ensures n <= |q|
    ensures forall i :: |q| - n <= i < |q| ==> q[i].mode == Shared
    ensures n < |q| ==> q[|q| - n - 1].mode != Shared
  {
    if OldestIs(q, Shared) then 1 + SharedTail(q[..|q| - 1]) else 0
  }

  /** How many waiters a fair release serves: the shared run, or the one oldest waiter. */
  function FairServed(q: seq<Req>): (n: nat)
    ensures q != [] ==> 1 <= n <= |q|
  {
    if OldestIs(q, Shared) then SharedTail(q) else 1
  }

  function Threads(q: seq<Req>): set<Tid> {
    set i | 0 <= i < |q| :: q[i].t
  }

  /** The waiters of a kind, in order. */
  function OnlyShared(q: seq<Req>): seq<Req> {
    if q == [] then []
    else if q[0].mode == Shared then [q[0]] + OnlyShared(q[1..])
    else OnlyShared(q[1..])
  }

  function NotShared(q: seq<Req>): seq<Req> {
    if q == [] then []
    else if q[0].mode == Shared then NotShared(q[1..])
    else [q[0]] + NotShared(q[1..])
  }

  /** An unheld lock passes to its oldest waiter. */
  function HandOff(l: Lock): Lock
    requires l.queue != []
  {
    var q, n := l.queue, |l.queue|;
    if q[n - 1].mode != Shared then
      l.(readers := {}, writer := Some(q[n - 1].t), transit := false, queue := q[..n - 1])
    else if l.unfair then
      l.(readers := Threads(OnlyShared(q)), writer := None, transit := false, queue := NotShared(q))
    else
      var k := n - SharedTail(q);
      l.(readers := Threads(q[k..]), writer := None, transit := false, queue := q[..k])
  }

  datatype Event =
    | Quiet
    | ReadGranted(t: Tid)
    | WriteGranted(t: Tid)
    | Queued(req: Req)
    | ReadReleased(t: Tid)           // others still read, or no one waits
    | LastReadReleased(t: Tid)       // fair: the lock is handed over at once
    | Drained(t: Tid)                // unfair: the last reader leaves, waiters are queued
    | HandedOver                     // ends a transit
    | WriteReleased(t: Tid)
    | Upgraded(t: Tid)               // sole reader, no waiter
    | UpgradeWaits(t: Tid)           // gives up its read lock and queues as oldest
    | UpgradeJoins(t: Tid)           // queues as oldest, still reading
    | Downgraded(t: Tid)             // no waiter
    | DowngradeJoins(t: Tid)         // queues as oldest shared waiter, still writing

  predicate Step(l: Lock, e: Event, l': Lock) {
    match e
    case Quiet => l' == l
    case ReadGranted(t) =>
      && l.writer == None && !l.transit && (l.queue == [] || l.unfair) && t !in l.readers
      && l' == l.(readers := l.readers + {t})
    case WriteGranted(t) => Unheld(l) && l.queue == [] && l' == l.(writer := Some(t))
    case Queued(r) =>
      && !Unheld(l) && r.mode != Upgrade
      && (r.mode == Shared ==> l.writer != None || l.transit || (l.queue != [] && !l.unfair))
      && l' == l.(queue := [r] + l.queue)
    case ReadReleased(t) =>
      && t in l.readers && (l.readers != {t} || l.queue == [])
      && l' == l.(readers := l.readers - {t})
    case LastReadReleased(t) =>
      !l.unfair && l.readers == {t} && l.queue != [] && l' == HandOff(l.(readers := {}))
    case Drained(t) =>
      l.unfair && l.readers == {t} && l.queue != [] && l' == l.(readers := {}, transit := true)
    case HandedOver => l.transit && l.queue != [] && l' == HandOff(l)
    case WriteReleased(t) =>
      && l.writer == Some(t)
      && l' == if l.queue == [] then l.(writer := None) else HandOff(l.(writer := None))
    case Upgraded(t) =>
      l.readers == {t} && l.queue == [] && l' == l.(readers := {}, writer := Some(t))
    case UpgradeWaits(t) =>
      && t in l.readers && l.readers != {t} && !OldestIs(l.queue, Upgrade)
      && l' == l.(readers := l.readers - {t}, queue := l.queue + [Req(t, Upgrade)])
    case UpgradeJoins(t) =>
      && t in l.readers && l.queue != [] && !OldestIs(l.queue, Upgrade)
      && l' == l.(queue := l.queue + [Req(t, Upgrade)])
    case Downgraded(t) =>
      l.writer == Some(t) && l.queue == [] && l' == l.(readers := {t}, writer := None)
    case DowngradeJoins(t) =>
      && l.writer == Some(t) && l.queue != []
      && l' == l.(queue := l.queue + [Req(t, Shared)])
  }

  /** What holds of the lock at all times. */
  predicate Sound(l: Lock) {
    && (l.writer != None ==> l.readers == {} && !l.transit)
    && (l.transit ==> l.unfair && l.readers == {} && l.queue != [] && !OldestIs(l.queue, Shared))
    && (Unheld(l) ==> l.queue == [])
    && (l.readers != {} ==> !OldestIs(l.queue, Shared))
    && (l.readers != {} && l.unfair ==> forall i :: 0 <= i < |l.queue| ==> l.queue[i].mode != Shared)
    && (forall i :: 0 <= i < |l.queue| && l.queue[i].mode == Upgrade ==>
          i == |l.queue| - 1 && l.writer == None)
  }

  lemma {:induction false} NotSharedFacts(q: seq<Req>)
    ensures forall i :: 0 <= i < |NotShared(q)| ==> NotShared(q)[i].mode != Shared && NotShared(q)[i] in q
    ensures forall r :: r in OnlyShared(q) <==> r in q && r.mode == Shared
    ensures forall r :: r in NotShared(q) <==> r in q && r.mode != Shared
  {
    if q != [] {
      NotSharedFacts(q[1..]);
      assert forall r :: r in q <==> r == q[0] || r in q[1..];
    }
  }

  lemma {:induction false} HandOffSound(l: Lock)
    requires l.queue != [] && l.readers == {} && l.writer == None
    requires forall i :: 0 <= i < |l.queue| && l.queue[i].mode == Upgrade ==> i == |l.queue| - 1
    ensures Sound(HandOff(l))
    ensures HandOff(l).readers != {} || HandOff(l).writer.Some?
  {
    var q, n := l.queue, |l.queue|;
    NotSharedFacts(q);
    if q[n - 1].mode == Shared {
      if l.unfair {
        assert q[n - 1] in OnlyShared(q);
        var i :| 0 <= i < |OnlyShared(q)| && OnlyShared(q)[i] == q[n - 1];
        assert q[n - 1].t in HandOff(l).readers;
      } else {
        var k := n - SharedTail(q);
        assert q[k..][|q[k..]| - 1].t in HandOff(l).readers;
      }
    }
  }

  lemma {:induction false} StepKeepsSound(l: Lock, e: Event, l': Lock)
    requires Sound(l) && Step(l, e, l')
    ensures Sound(l')
  {
    match e
    case LastReadReleased(t) => HandOffSound(l.(readers := {}));
    case HandedOver => HandOffSound(l);
    case WriteReleased(t) =>
      if l.queue != [] {
        HandOffSound(l.(writer := None));
      }
    case Queued(r) =>
      assert forall i :: 0 <= i < |l'.queue| ==> l'.queue[i] == if i == 0 then r else l.queue[i - 1];
    case _ =>
  }

  /** Splitting the waiters by kind loses and duplicates none. */
  lemma {:induction false} SplitKeepsAll(q: seq<Req>)
    ensures multiset(OnlyShared(q)) + multiset(NotShared(q)) == multiset(q)
  {
    if q != [] {
      SplitKeepsAll(q[1..]);
      assert q == [q[0]] + q[1..];
    }
  }

  predicate Run(ls: seq<Lock>, es: seq<Event>) {
    && |ls| == |es| + 1
    && ls[0] == Lock(ls[0].unfair, {}, None, false, [])
    && forall i :: 0 <= i < |es| ==> Step(ls[i], es[i], ls[i + 1])
  }

  lemma {:induction false} RunIsSound(ls: seq<Lock>, es: seq<Event>, k: nat)
    requires Run(ls, es) && k < |ls|
    ensures Sound(ls[k])
  {
    if k > 0 {
      RunIsSound(ls, es, k - 1);
      StepKeepsSound(ls[k - 1], es[k - 1], ls[k]);
    }
  }

  /** Only the holder's own step, or the end of a transit, takes a lock from its holder. */
  lemma {:induction false} OthersKeepTheirs(l: Lock, e: Event, l': Lock, t: Tid)
    requires Sound(l) && Step(l, e, l') && t !in Party(e)
    ensures l.writer == Some(t) ==> l'.writer == Some(t)
    ensures t in l.readers ==> t in l'.readers
  {
  }

  /** Every thread that holds the lock or waits for it. */
  function Parties(l: Lock): set<Tid> {
    l.readers + Threads(l.queue) + (if l.writer.Some? then {l.writer.value} else {})
  }

  function Party(e: Event): set<Tid> {
    match e
    case Quiet => {}
    case HandedOver => {}
    case Queued(r) => {r.t}
    case _ => {e.t}
  }

  lemma {:induction false} HandOffParties(l: Lock)
    requires l.queue != []
    ensures Parties(HandOff(l)) <= Parties(l)
  {
    var q, n := l.queue, |l.queue|;
    assert q[n - 1].t in Threads(q);
    NotSharedFacts(q);
    forall x | x in Threads(OnlyShared(q)) || x in Threads(NotShared(q))
      ensures x in Threads(q)
    {
      if x in Threads(OnlyShared(q)) {
        var i :| 0 <= i < |OnlyShared(q)| && OnlyShared(q)[i].t == x;
        assert OnlyShared(q)[i] in q;
      } else {
        var i :| 0 <= i < |NotShared(q)| && NotShared(q)[i].t == x;
        assert NotShared(q)[i] in q;
      }
    }
  }

  /** Only the acting thread joins. */
  lemma {:induction false} StepParties(l: Lock, e: Event, l': Lock)
    requires Step(l, e, l')
    ensures Parties(l') <= Parties(l) + Party(e)
  {
    match e
    case LastReadReleased(t) => HandOffParties(l.(readers := {}));
    case HandedOver => HandOffParties(l);
    case WriteReleased(t) =>
      if l.queue != [] {
        HandOffParties(l.(writer := None));
      }
    case _ =>
  }

  /**
   * A waiting upgrade is atomic: while it is queued no thread has the write lock, and the step that
   * takes it off the queue gives the write lock to it.
   */
  lemma {:induction false} UpgradeStep(l: Lock, e: Event, l': Lock, t: Tid)
    requires Sound(l) && Step(l, e, l') && Req(t, Upgrade) in l.queue
    ensures l.writer == None
    ensures (Req(t, Upgrade) in l'.queue && l'.writer == None) || l'.writer == Some(t)
  {
    var q := l.queue;
    var n := |q| - 1;
    assert q[n] == Req(t, Upgrade);
    if e.Queued? {
      assert l'.queue[n + 1] == q[n];
    } else if |l'.queue| > n && l'.queue[..n + 1] == q {
      assert l'.queue[n] == q[n];
    }
  }

  /** A queued downgrade stays the oldest waiter while its thread is the writer. */
  lemma {:induction false} DowngradeStaysOldest(l: Lock, e: Event, l': Lock, t: Tid)
    requires Sound(l) && Step(l, e, l') && l.writer == Some(t)
    requires OldestIs(l.queue, Shared) && l.queue[|l.queue| - 1].t == t
    ensures l'.writer == Some(t) ==> OldestIs(l'.queue, Shared) && l'.queue[|l'.queue| - 1].t == t
  {
    if e.Queued? {
      assert l'.queue[|l.queue|] == l.queue[|l.queue| - 1];
    }
  }

  /**
   * A downgrade that finds waiters is atomic: once queued behind nobody it is still the writer,
   * and the step in which it stops being the writer makes it a reader.
   */
  lemma {:induction false} DowngradeIsAtomic(l: Lock, e: Event, l': Lock, t: Tid)
    requires Sound(l) && Step(l, e, l') && l.writer == Some(t)
    requires OldestIs(l.queue, Shared) && l.queue[|l.queue| - 1].t == t
    ensures l'.writer == Some(t) || (l'.writer == None && t in l'.readers)
  {
    var q := l.queue;
    var n := |q| - 1;
    if e == WriteReleased(t) {
      NotSharedFacts(q);
      if l.unfair {
        assert q[n] in OnlyShared(q);
        var i :| 0 <= i < |OnlyShared(q)| && OnlyShared(q)[i] == q[n];
        assert t in l'.readers;
      } else {
        var k := |q| - SharedTail(q);
        assert q[k..][n - k].t == t;
      }
    }
  }
}
