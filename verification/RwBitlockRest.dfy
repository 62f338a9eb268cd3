/**
 * What is left when no call of the bit-range reader-writer lock can take a step: sleeping waiters, and a
 * caller that has the lock and has not given it back.
 */
module RwBitlockRest {
  import opened Base
  import opened RwBitlock
  import opened RwBitlockProof
  import opened RwBitlockRuns
  import opened RwBitlockCalls
  import FairRw

  /** A step inside a call, not the start of one. */
  predicate Inner(a: Action) {
    !Begins(a) && !a.SetPayload?
  }

  ghost predicate Still(s: State) {
    forall a :: Inner(a) ==> !Can(s, a)
  }

  predicate Sleeps(p: Pc) {
    p.ReadAsleep? || p.WriteAsleep?
  }

  predicate Rests(p: Pc) {
    p.Idle? || p.Reading? || p.Writing?
  }

  predicate WantsList(p: Pc) {
    p.ReadWant? || p.WriteWant? || p.ReadUnWant? || p.WriteUnWant?
  }

  /** Whoever is inside a call has a step, unless it sleeps or wants the wait list while another has it. */
  lemma {:induction false} OwnStep(s: State, t: Tid) returns (a: Action)
    requires var p := At(s, t);
      !Rests(p) && !p.Fault? && (Sleeps(p) ==> t in s.signalled) && (WantsList(p) ==> s.listOwner == None)
    ensures Inner(a) && Can(s, a)
  {
    match At(s, t)
    case ReadUnderList(_) => a := ReadSlow(t);
    case WriteUnderList => a := WriteSlow(t);
    case ReadAppend(_) => a := Append(t);
    case WriteAppend => a := Append(t);
    case ReadUnUnderList => a := ReadUnSlow(t);
    case ReadUnSpecial => a := ReadUnEdit(t);
    case ReadUnSwap(_, _) => a := ReadUnFinish(t);
    case WriteUnUnderList(_, _) => a := WriteUnEdit(t);
    case WriteUnSwap(_, _) => a := WriteUnFinish(t);
    case Signalling =>
      if t in s.waking.Values {
        var x :| x in s.waking && s.waking[x] == t;
        a := Signal(t, x);
      } else {
        a := SignalDone(t);
      }
    case _ => a := if Sleeps(At(s, t)) then Resume(t) else TakeList(t);
  }

  lemma {:induction false} StillList(s: State, el: seq<Entry>)
    requires ThreadsOk(s, el) && Still(s)
    ensures s.listOwner == None
  {
    if s.listOwner.Some? {
      assert ThreadOk(s, el, s.listOwner.value);
      var a := OwnStep(s, s.listOwner.value);
    }
  }

  lemma {:induction false} StillThread(s: State, el: seq<Entry>, t: Tid)
    requires ThreadsOk(s, el) && Still(s)
    ensures Rests(At(s, t)) || (Sleeps(At(s, t)) && t !in s.signalled)
  {
    StillList(s, el);
    assert ThreadOk(s, el, t);
    if !Rests(At(s, t)) && !(Sleeps(At(s, t)) && t !in s.signalled) {
      var a := OwnStep(s, t);
    }
  }

  lemma {:induction false} NooneWaking(s: State, el: seq<Entry>, x: Tid)
    requires ThreadsOk(s, el) && WakersOk(s) && Still(s)
    ensures x !in s.waking
  {
    if x in s.waking {
      StillThread(s, el, s.waking[x]);
    }
  }

  lemma {:induction false} SleeperListed(s: State, el: seq<Entry>, t: Tid)
    requires ThreadsOk(s, el) && WakersOk(s) && Still(s) && Sleeps(At(s, t))
    ensures Entry(t, At(s, t).ReadAsleep?, false) in el
  {
    assert ThreadOk(s, el, t);
    StillThread(s, el, t);
    NooneWaking(s, el, t);
  }

  lemma {:induction false} HolderRests(s: State, el: seq<Entry>, u: Tid)
    requires ThreadsOk(s, el) && WakersOk(s) && Still(s) && (u in s.readers || s.writer == Some(u))
    ensures if u in s.readers then At(s, u).Reading? else At(s, u).Writing?
  {
    assert ThreadOk(s, el, u);
    StillThread(s, el, u);
    NooneWaking(s, el, u);
  }

  lemma {:induction false} ListedQueued(el: seq<Entry>, t: Tid, rd: bool)
    requires Entry(t, rd, false) in el
    ensures FairRw.Request(t, rd) in Requests(el[Overflow(el)..])
  {
    var i :| 0 <= i < |el| && el[i] == Entry(t, rd, false);
    var g := Overflow(el);
    assert g <= i;
    assert Requests(el[g..])[i - g] == FairRw.Request(t, rd);
  }

  lemma {:induction false} QueuedBehind(s: State, t: Tid) returns (u: Tid)
    requires Inv(s) && Still(s) && Sleeps(At(s, t))
    ensures FairRw.Request(t, At(s, t).ReadAsleep?) in AbsOf(s).queue
    ensures u in s.readers || s.writer == Some(u)
  {
    var v := ViewOf(s);
    SleeperListed(s, v.el, t);
    ListedQueued(v.el, t, At(s, t).ReadAsleep?);
    EncodedBar(v);
    if s.writer.Some? {
      u := s.writer.value;
    } else {
      u :| u in s.readers;
    }
  }

  /**
   * No wake-up is lost, and no call waits for another call: when no call can take a step, every thread
   * inside a call is asleep and in the queue, and someone has the lock and is at rest with it.
   */
  lemma {:induction false} StillOnlyWhileHeld(ss: seq<State>, acts: seq<Action>, k: nat, t: Tid) returns (u: Tid)
    requires Run(ss, acts) && k < |ss| && Still(ss[k]) && !Rests(At(ss[k], t))
    ensures var s := ss[k];
      && Sleeps(At(s, t)) && FairRw.Request(t, At(s, t).ReadAsleep?) in AbsOf(s).queue
      && (At(s, u).Reading? || At(s, u).Writing?)
  {
    RunInv(ss, acts, k);
    StillThread(ss[k], ViewOf(ss[k]).el, t);
    u := QueuedBehind(ss[k], t);
    HolderRests(ss[k], ViewOf(ss[k]).el, u);
  }
}
