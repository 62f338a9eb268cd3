/**
 * The invariant of the bit-range reader-writer lock over all interleavings, and its main result:
 * a run of the lock is a run of the fair lock.
 */
module RwBitlockRuns {
  import opened Base
  import opened RwBitlock
  import opened RwBitlockProof
  import FairRw

  predicate HoldsList(p: Pc) {
    || p.ReadUnderList? || p.ReadAppend? || p.WriteUnderList? || p.WriteAppend?
    || p.ReadUnUnderList? || p.ReadUnSpecial? || p.ReadUnSwap?
    || p.WriteUnUnderList? || p.WriteUnSwap?
  }

  predicate HoldsRead(p: Pc) {
    p.Reading? || p.ReadUnWant? || p.ReadUnUnderList? || p.ReadUnSpecial?
  }

  predicate HoldsWrite(p: Pc) {
    p.Writing? || p.WriteUnWant? || p.WriteUnUnderList?
  }

  predicate Unwoken(s: State, t: Tid) {
    t !in s.waking && t !in s.signalled
  }

  /** Where a thread's program counter says it stands, against the lock and the list `el`. */
  predicate ThreadOk(s: State, el: seq<Entry>, t: Tid)
  {
    var p := At(s, t);
    && (HoldsList(p) <==> s.listOwner == Some(t))
    && (if HoldsRead(p) then t in s.readers && s.writer != Some(t) && Unwoken(s, t)
        else if HoldsWrite(p) then
          t !in s.readers && s.writer == Some(t) && Unwoken(s, t)
          && (p.Writing? || (el != [] && p.saw == Word(true, 1)))
        else match p
          case ReadAppend(have) =>
            (t in s.readers <==> have) && s.writer != Some(t) && Unwoken(s, t)
            && Entry(t, true, have) in el
          case WriteAppend =>
            t !in s.readers && s.writer != Some(t) && Unwoken(s, t) && Entry(t, false, false) in el
          case ReadAsleep =>
            && s.writer != Some(t)
            && (if t in s.readers then t in s.waking <==> t !in s.signalled
                else Unwoken(s, t) && Entry(t, true, false) in el)
          case WriteAsleep =>
            && t !in s.readers
            && (if s.writer == Some(t) then t in s.waking <==> t !in s.signalled
                else Unwoken(s, t) && Entry(t, false, false) in el)
          case Fault => false
          case _ =>
            t !in s.readers && s.writer != Some(t) && Unwoken(s, t) && t !in Tids(el))
  }

  /** Only a releasing thread still has signals to send. */
  predicate WakersOk(s: State) {
    forall x :: x in s.waking ==> Releasing(At(s, s.waking[x]))
  }

  predicate Releasing(p: Pc) {
    p.ReadUnSwap? || p.WriteUnSwap? || p.Signalling?
  }

  /** While a decided word is not yet written, the old one keeps every swap loop out. */
  predicate Frozen(s: State) {
    match OwnerPc(s)
    case ReadUnSpecial => Special(s.max, s.word)
    case ReadUnSwap(o, n) =>
      s.word.r == o && o >= 1 && n <= o <= n + 1 && Special(s.max, s.word) && WriterUnwoken(s)
    case WriteUnSwap(o, n) => s.word == o && o == Word(true, 1) && WriterUnwoken(s)
    case _ => true
  }

  /** A writer granted by the owner of the wait-list lock has not been told yet. */
  predicate WriterUnwoken(s: State)
    requires s.listOwner.Some?
  {
    s.writer.Some? ==>
      s.writer.value in s.waking && s.waking[s.writer.value] == s.listOwner.value
  }

  ghost predicate ThreadsOk(s: State, el: seq<Entry>) {
    forall t :: ThreadOk(s, el, t)
  }

  ghost predicate Inv(s: State) {
    var v := ViewOf(s);
    Encodes(v) && WakersOk(s) && ThreadsOk(s, v.el) && Frozen(s)
  }

  lemma {:induction false} InitInv(s: State)
    requires Init(s)
    ensures Inv(s) && LockOf(ViewOf(s)) == FairRw.Free
  {
    assert ViewOf(s).el == [];
  }

  /** The event of the fair lock that an action amounts to. */
  function EventOf(s: State, a: Action): FairRw.Event
    requires Can(s, a)
  {
    match a
    case ReadFast(t, _) => if GotRead(s.max, s.word) then FairRw.ReadGranted(t) else FairRw.Quiet
    case WriteFast(t, _) => if GotWrite(s.word) then FairRw.WriteGranted(t) else FairRw.Quiet
    case ReadSlow(t) =>
      if !s.word.w then FairRw.ReadGranted(t)
      else if At(s, t).try then FairRw.Quiet
      else FairRw.Queued(FairRw.Request(t, true))
    case WriteSlow(t) =>
      if GotWrite(s.word) then FairRw.WriteGranted(t)
      else FairRw.Queued(FairRw.Request(t, false))
    case ReadUnFast(t) => if Special(s.max, s.word) then FairRw.Quiet else FairRw.ReadReleased(t)
    case ReadUnSlow(t) => if Special(s.max, s.word) then FairRw.Quiet else FairRw.ReadReleased(t)
    case ReadUnEdit(t) => FairRw.ReadReleased(t)
    case WriteUnFast(t) => if s.word.r != 0 then FairRw.Quiet else FairRw.WriteReleased(t)
    case WriteUnEdit(t) => FairRw.WriteReleased(t)
    case _ => FairRw.Quiet
  }

  // ---------- threads that an action does not concern ----------

  predicate SameFor(s: State, el: seq<Entry>, s': State, el': seq<Entry>, u: Tid) {
    && At(s', u) == At(s, u)
    && (u in s'.readers <==> u in s.readers)
    && (s'.writer == Some(u) <==> s.writer == Some(u))
    && (s'.listOwner == Some(u) <==> s.listOwner == Some(u))
    && (u in s'.waking <==> u in s.waking)
    && (u in s'.signalled <==> u in s.signalled)
    && (u !in s.readers || s.listOwner == Some(u) ==>
          forall rd, have :: Entry(u, rd, have) in el ==> Entry(u, rd, have) in el')
    && (u in Tids(el') ==> u in Tids(el))
    && (s.writer == Some(u) && el != [] ==> el' != [])
  }

  lemma {:induction false} Others(s: State, el: seq<Entry>, s': State, el': seq<Entry>, ts: set<Tid>)
    requires ThreadsOk(s, el)
    requires forall t :: t in ts ==> ThreadOk(s', el', t)
    requires forall u :: u !in ts ==> SameFor(s, el, s', el', u)
    ensures ThreadsOk(s', el')
  {
    forall u: Tid
      ensures ThreadOk(s', el', u)
    {
      if u !in ts {
        assert SameFor(s, el, s', el', u);
        assert ThreadOk(s, el, u);
      }
    }
  }

  predicate Refines(v: View, e: FairRw.Event, v': View) {
    FairRw.Step(LockOf(v), e, LockOf(v'))
  }

  // ---------- acquiring without the wait list ----------

  lemma {:induction false} ReadFastThreads(s: State, s': State, el: seq<Entry>, t: Tid, try: bool)
    requires ThreadsOk(s, el) && At(s, t).Idle?
    requires s' == DoReadFast(s, t, try)
    ensures ThreadsOk(s', el)
  {
    assert ThreadOk(s, el, t);
    Others(s, el, s', el, {t});
  }

  lemma {:induction false} ReadFastView(s: State, s': State, v: View, t: Tid, try: bool)
    requires Frozen(s) && At(s, t).Idle? && s.listOwner != Some(t)
    requires s' == DoReadFast(s, t, try) && v == ViewOf(s)
    ensures Frozen(s')
    ensures GotRead(s.max, s.word) ==>
      && GotRead(v.max, v.word)
      && ViewOf(s') == v.(word := Word(false, v.word.r + 1), readers := v.readers + {t})
    ensures !GotRead(s.max, s.word) ==> ViewOf(s') == v
  {
    assert OwnerPc(s') == OwnerPc(s);
  }

  lemma {:induction false} IdleFacts(s: State, t: Tid)
    requires Inv(s) && At(s, t).Idle?
    ensures s.listOwner != Some(t) && Fresh(ViewOf(s), t)
  {
    assert ThreadOk(s, ViewOf(s).el, t);
  }

  lemma {:induction false} ReadFastWakers(s: State, s': State, t: Tid, try: bool)
    requires WakersOk(s) && At(s, t).Idle? && s' == DoReadFast(s, t, try)
    ensures WakersOk(s')
  {
  }

  lemma {:induction false} ReadFastGood(s: State, s': State, t: Tid, try: bool)
    requires Inv(s) && Can(s, ReadFast(t, try)) && s' == DoReadFast(s, t, try)
    ensures Inv(s')
    ensures Refines(ViewOf(s),
              if GotRead(s.max, s.word) then FairRw.ReadGranted(t) else FairRw.Quiet, ViewOf(s'))
  {
    IdleFacts(s, t);
    ReadFastView(s, s', ViewOf(s), t, try);
    ReadFastWakers(s, s', t, try);
    ReadFastThreads(s, s', ViewOf(s).el, t, try);
    if GotRead(s.max, s.word) {
      ReadGrant(ViewOf(s), t);
    }
  }

  lemma {:induction false} WriteFastThreads(s: State, s': State, el: seq<Entry>, t: Tid, try: bool)
    requires ThreadsOk(s, el) && At(s, t).Idle?
    requires GotWrite(s.word) ==> s.writer == None
    requires s' == DoWriteFast(s, t, try)
    ensures ThreadsOk(s', el)
  {
    assert ThreadOk(s, el, t);
    Others(s, el, s', el, {t});
  }

  lemma {:induction false} WriteFastView(s: State, s': State, v: View, t: Tid, try: bool)
    requires s.max >= 3 && Frozen(s) && At(s, t).Idle? && s.listOwner != Some(t)
    requires s' == DoWriteFast(s, t, try) && v == ViewOf(s)
    requires GotWrite(v.word) ==> s.writer == None
    ensures Frozen(s')
    ensures GotWrite(s.word) ==>
      GotWrite(v.word) && ViewOf(s') == v.(word := Word(true, 0), writer := Some(t))
    ensures !GotWrite(s.word) ==> ViewOf(s') == v
  {
    assert OwnerPc(s') == OwnerPc(s);
  }

  lemma {:induction false} WriteFastGood(s: State, s': State, t: Tid, try: bool)
    requires Inv(s) && Can(s, WriteFast(t, try)) && s' == DoWriteFast(s, t, try)
    ensures Inv(s')
    ensures Refines(ViewOf(s),
              if GotWrite(s.word) then FairRw.WriteGranted(t) else FairRw.Quiet, ViewOf(s'))
  {
    var v := ViewOf(s);
    IdleFacts(s, t);
    FreeWhenWritable(v);
    WriteFastView(s, s', v, t, try);
    WriteFastWakers(s, s', t, try);
    WriteFastThreads(s, s', v.el, t, try);
    if GotWrite(s.word) {
      WriteGrant(v, t);
    }
  }

  lemma {:induction false} FreeWhenWritable(v: View)
    requires Encodes(v)
    ensures v.max >= 3 && (GotWrite(v.word) ==> v.writer == None)
  {
  }

  lemma {:induction false} WriteFastWakers(s: State, s': State, t: Tid, try: bool)
    requires WakersOk(s) && At(s, t).Idle? && s' == DoWriteFast(s, t, try)
    ensures WakersOk(s')
  {
  }

  // ---------- acquiring under the wait-list lock ----------

  lemma {:induction false} TakeListView(s: State, s': State, t: Tid)
    requires s.listOwner == None && s' == DoTakeList(s, t)
    requires var p := At(s, t); p.ReadWant? || p.WriteWant? || p.ReadUnWant? || p.WriteUnWant?
    ensures Frozen(s') && ViewOf(s') == ViewOf(s)
  {
  }

  lemma {:induction false} TakeListThreads(s: State, s': State, el: seq<Entry>, t: Tid)
    requires ThreadsOk(s, el) && s.listOwner == None && s' == DoTakeList(s, t)
    requires var p := At(s, t); p.ReadWant? || p.WriteWant? || p.ReadUnWant? || p.WriteUnWant?
    ensures ThreadsOk(s', el)
  {
    assert ThreadOk(s, el, t);
    Others(s, el, s', el, {t});
  }

  lemma {:induction false} TakeListWakers(s: State, s': State, t: Tid)
    requires WakersOk(s) && s' == DoTakeList(s, t)
    requires var p := At(s, t); p.ReadWant? || p.WriteWant? || p.ReadUnWant? || p.WriteUnWant?
    ensures WakersOk(s')
  {
  }

  lemma {:induction false} TakeListGood(s: State, s': State, t: Tid)
    requires Inv(s) && Can(s, TakeList(t)) && s' == DoTakeList(s, t)
    ensures Inv(s') && ViewOf(s') == ViewOf(s)
  {
    TakeListView(s, s', t);
    TakeListThreads(s, s', ViewOf(s).el, t);
    TakeListWakers(s, s', t);
  }

  lemma {:induction false} NotListed(q: seq<Entry>, t: Tid)
    requires t !in Tids(q)
    ensures forall i :: 0 <= i < |q| ==> q[i].t != t
    ensures Find(q, t) == |q|
  {
    forall i | 0 <= i < |q|
      ensures q[i].t != t
    {
      assert q[i].t in Tids(q);
    }
  }

  /** Appending an entry of `t` leaves the entries of the others alone. */
  lemma {:induction false} AppendedEntry(el: seq<Entry>, e: Entry)
    ensures e in el + [e]
    ensures Tids(el + [e]) == Tids(el) + {e.t}
    ensures forall x :: x in el ==> x in el + [e]
  {
    TidsConcat(el, [e]);
    assert (el + [e])[|el|] == e;
    assert [e][0].t in Tids([e]);
  }

  lemma {:induction false} ReadSlowSelf(s: State, s': State, el: seq<Entry>, el': seq<Entry>, t: Tid)
    requires ThreadOk(s, el, t) && At(s, t).ReadUnderList? && s' == DoReadSlow(s, t)
    requires el' == if At(s', t).ReadAppend? then el + [Entry(t, true, At(s', t).have)] else el
    ensures ThreadOk(s', el', t)
  {
    AppendedEntry(el, Entry(t, true, true));
    AppendedEntry(el, Entry(t, true, false));
  }

  lemma {:induction false} ReadSlowOther(s: State, s': State, el: seq<Entry>, el': seq<Entry>, t: Tid, u: Tid)
    requires u != t && At(s, t).ReadUnderList? && s.listOwner == Some(t) && s' == DoReadSlow(s, t)
    requires el' == if At(s', t).ReadAppend? then el + [Entry(t, true, At(s', t).have)] else el
    ensures SameFor(s, el, s', el', u)
  {
    AppendedEntry(el, Entry(t, true, true));
    AppendedEntry(el, Entry(t, true, false));
  }

  lemma {:induction false} ReadSlowThreads(s: State, s': State, el: seq<Entry>, el': seq<Entry>, t: Tid)
    requires ThreadsOk(s, el) && At(s, t).ReadUnderList?
    requires s' == DoReadSlow(s, t)
    requires el' == if At(s', t).ReadAppend? then el + [Entry(t, true, At(s', t).have)] else el
    ensures ThreadsOk(s', el')
  {
    assert ThreadOk(s, el, t);
    ReadSlowSelf(s, s', el, el', t);
    forall u | u != t
      ensures SameFor(s, el, s', el', u)
    {
      ReadSlowOther(s, s', el, el', t, u);
    }
    Others(s, el, s', el', {t});
  }

  lemma {:induction false} ReadSlowView(s: State, s': State, v: View, t: Tid)
    requires At(s, t).ReadUnderList? && s.listOwner == Some(t)
    requires s' == DoReadSlow(s, t) && v == ViewOf(s)
    ensures v.el == s.list && v.word == s.word && Frozen(s')
    ensures ViewOf(s') ==
      if GotRead(s.max, s.word) then
        v.(word := Word(false, v.word.r + 1), readers := v.readers + {t})
      else if !s.word.w then v.(el := v.el + [Entry(t, true, true)], readers := v.readers + {t})
      else if At(s, t).try then v
      else v.(word := s'.word, el := v.el + [Entry(t, true, false)])
  {
  }

  lemma {:induction false} ReadSlowRefines(v: View, t: Tid, try: bool, v': View)
    requires Encodes(v) && Fresh(v, t)
    requires v' ==
      if GotRead(v.max, v.word) then
        v.(word := Word(false, v.word.r + 1), readers := v.readers + {t})
      else if !v.word.w then v.(el := v.el + [Entry(t, true, true)], readers := v.readers + {t})
      else if try then v
      else v.(word := SetRead(v.max, v.word, false, true), el := v.el + [Entry(t, true, false)])
    ensures Encodes(v')
    ensures Refines(v,
              if !v.word.w then FairRw.ReadGranted(t)
              else if try then FairRw.Quiet
              else FairRw.Queued(FairRw.Request(t, true)), v')
  {
    if GotRead(v.max, v.word) {
      ReadGrant(v, t);
    } else if !v.word.w {
      OverflowGrant(v, t);
    } else if !try {
      Enqueue(v, t, true, v'.word);
    }
  }

  lemma {:induction false} UnderList(s: State, t: Tid)
    requires Inv(s) && At(s, t).ReadUnderList?
    ensures s.listOwner == Some(t) && Fresh(ViewOf(s), t)
  {
    assert ThreadOk(s, ViewOf(s).el, t);
    NotListed(ViewOf(s).el, t);
  }

  lemma {:induction false} ReadSlowWakers(s: State, s': State, t: Tid)
    requires WakersOk(s) && At(s, t).ReadUnderList? && s' == DoReadSlow(s, t)
    ensures WakersOk(s')
  {
  }

  lemma {:induction false} ReadSlowGood(s: State, s': State, t: Tid)
    requires Inv(s) && Can(s, ReadSlow(t)) && s' == DoReadSlow(s, t)
    ensures Inv(s')
    ensures Refines(ViewOf(s),
              if !s.word.w then FairRw.ReadGranted(t)
              else if At(s, t).try then FairRw.Quiet
              else FairRw.Queued(FairRw.Request(t, true)),
              ViewOf(s'))
  {
    var v := ViewOf(s);
    UnderList(s, t);
    ReadSlowView(s, s', v, t);
    ReadSlowWakers(s, s', t);
    ReadSlowThreads(s, s', v.el, ViewOf(s').el, t);
    ReadSlowRefines(v, t, At(s, t).try, ViewOf(s'));
  }

  lemma {:induction false} WriteSlowThreads(s: State, s': State, el: seq<Entry>, el': seq<Entry>, t: Tid)
    requires ThreadsOk(s, el) && At(s, t).WriteUnderList?
    requires GotWrite(s.word) ==> s.writer == None
    requires s' == DoWriteSlow(s, t)
    requires el' == if At(s', t).WriteAppend? then el + [Entry(t, false, false)] else el
    ensures ThreadsOk(s', el')
  {
    assert ThreadOk(s, el, t);
    AppendedEntry(el, Entry(t, false, false));
    Others(s, el, s', el', {t});
  }

  lemma {:induction false} WriteSlowView(s: State, s': State, v: View, t: Tid)
    requires At(s, t).WriteUnderList? && s.listOwner == Some(t)
    requires s' == DoWriteSlow(s, t) && v == ViewOf(s)
    ensures v.el == s.list && v.word == s.word && Frozen(s')
    ensures ViewOf(s') ==
      if GotWrite(s.word) then v.(word := Word(true, 0), writer := Some(t))
      else v.(word := s'.word, el := v.el + [Entry(t, false, false)])
  {
  }

  lemma {:induction false} WriteSlowRefines(v: View, t: Tid, word: Word, v': View)
    requires Encodes(v) && Fresh(v, t) && word == SetWrite(v.word, false, true)
    requires v' ==
      if GotWrite(v.word) then v.(word := Word(true, 0), writer := Some(t))
      else v.(word := word, el := v.el + [Entry(t, false, false)])
    ensures Encodes(v')
    ensures Refines(v,
              if GotWrite(v.word) then FairRw.WriteGranted(t)
              else FairRw.Queued(FairRw.Request(t, false)), v')
  {
    if GotWrite(v.word) {
      WriteGrant(v, t);
    } else {
      Enqueue(v, t, false, word);
    }
  }

  lemma {:induction false} WriteSlowGood(s: State, s': State, t: Tid)
    requires Inv(s) && Can(s, WriteSlow(t)) && s' == DoWriteSlow(s, t)
    ensures Inv(s')
    ensures Refines(ViewOf(s),
              if GotWrite(s.word) then FairRw.WriteGranted(t)
              else FairRw.Queued(FairRw.Request(t, false)),
              ViewOf(s'))
  {
    var v := ViewOf(s);
    assert ThreadOk(s, v.el, t);
    NotListed(v.el, t);
    WriteSlowView(s, s', v, t);
    WriteSlowRefines(v, t, SetWrite(s.word, false, true), ViewOf(s'));
    WriteSlowThreads(s, s', v.el, ViewOf(s').el, t);
  }

  lemma {:induction false} AppendThreads(s: State, s': State, el: seq<Entry>, t: Tid)
    requires ThreadsOk(s, el) && (At(s, t).ReadAppend? || At(s, t).WriteAppend?)
    requires s' == DoAppend(s, t)
    ensures ThreadsOk(s', el)
  {
    assert ThreadOk(s, el, t);
    Others(s, el, s', el, {t});
  }

  lemma {:induction false} AppendGood(s: State, s': State, t: Tid)
    requires Inv(s) && Can(s, Append(t)) && s' == DoAppend(s, t)
    ensures Inv(s') && ViewOf(s') == ViewOf(s)
  {
    assert ThreadOk(s, ViewOf(s).el, t);
    assert s'.list + [] == s'.list;
    assert ViewOf(s') == ViewOf(s);
    AppendThreads(s, s', ViewOf(s).el, t);
  }

  lemma {:induction false} ResumeThreads(s: State, s': State, el: seq<Entry>, t: Tid)
    requires ThreadsOk(s, el) && Can(s, Resume(t)) && s' == DoResume(s, t)
    ensures ThreadsOk(s', el)
  {
    assert ThreadOk(s, el, t);
    Others(s, el, s', el, {t});
  }

  lemma {:induction false} ResumeView(s: State, s': State, t: Tid)
    requires Can(s, Resume(t)) && s' == DoResume(s, t) && WakersOk(s) && Frozen(s) && s.listOwner != Some(t)
    ensures ViewOf(s') == ViewOf(s) && WakersOk(s') && Frozen(s')
  {
    assert OwnerPc(s') == OwnerPc(s);
  }

  lemma {:induction false} ResumeGood(s: State, s': State, t: Tid)
    requires Inv(s) && Can(s, Resume(t)) && s' == DoResume(s, t)
    ensures Inv(s') && ViewOf(s') == ViewOf(s)
  {
    assert s.listOwner != Some(t) by { assert ThreadOk(s, ViewOf(s).el, t); }
    ResumeView(s, s', t);
    ResumeThreads(s, s', ViewOf(s).el, t);
  }

  lemma {:induction false} SignalThreads(s: State, s': State, el: seq<Entry>, x: Tid)
    requires ThreadsOk(s, el) && x in s.waking && s' == DoSignal(s, x)
    ensures ThreadsOk(s', el)
  {
    assert ThreadOk(s, el, x);
    Others(s, el, s', el, {x});
  }

  lemma {:induction false} SignalView(s: State, s': State, t: Tid, x: Tid)
    requires Can(s, Signal(t, x)) && s' == DoSignal(s, x) && WakersOk(s) && Frozen(s)
    requires HoldsList(At(s, t)) <==> s.listOwner == Some(t)
    ensures ViewOf(s') == ViewOf(s) && WakersOk(s') && Frozen(s')
  {
    assert OwnerPc(s') == OwnerPc(s);
  }

  lemma {:induction false} SignalGood(s: State, s': State, t: Tid, x: Tid)
    requires Inv(s) && Can(s, Signal(t, x)) && s' == DoSignal(s, x)
    ensures Inv(s') && ViewOf(s') == ViewOf(s)
  {
    assert HoldsList(At(s, t)) <==> s.listOwner == Some(t) by { assert ThreadOk(s, ViewOf(s).el, t); }
    SignalView(s, s', t, x);
    SignalThreads(s, s', ViewOf(s).el, x);
  }

  lemma {:induction false} SignalDoneThreads(s: State, s': State, el: seq<Entry>, t: Tid)
    requires ThreadsOk(s, el) && At(s, t).Signalling? && s' == To(s, t, Idle)
    ensures ThreadsOk(s', el)
  {
    assert ThreadOk(s, el, t);
    Others(s, el, s', el, {t});
  }

  lemma {:induction false} SignalDoneView(s: State, s': State, t: Tid)
    requires Can(s, SignalDone(t)) && s' == To(s, t, Idle) && WakersOk(s) && Frozen(s) && s.listOwner != Some(t)
    ensures ViewOf(s') == ViewOf(s) && WakersOk(s') && Frozen(s')
  {
    assert OwnerPc(s') == OwnerPc(s);
    forall x | x in s'.waking
      ensures Releasing(At(s', s'.waking[x]))
    {
      assert s.waking[x] in s.waking.Values;
    }
  }

  lemma {:induction false} SignalDoneGood(s: State, s': State, t: Tid)
    requires Inv(s) && Can(s, SignalDone(t)) && s' == To(s, t, Idle)
    ensures Inv(s') && ViewOf(s') == ViewOf(s)
  {
    assert s.listOwner != Some(t) by { assert ThreadOk(s, ViewOf(s).el, t); }
    SignalDoneView(s, s', t);
    SignalDoneThreads(s, s', ViewOf(s).el, t);
  }

  // ---------- releasing without the wait list ----------

  lemma {:induction false} ReadUnViewFacts(s: State, v: View, t: Tid)
    requires Encodes(v) && v == ViewOf(s) && Frozen(s) && t in s.readers
    ensures s.word.r != 0
    ensures !Special(s.max, s.word) ==> v.word == s.word
    ensures !Special(s.max, s.word) ==> t !in Tids(v.el) && t !in Tids(s.list)
  {
    if !Special(s.max, s.word) {
      assert v.word == s.word;
      assert Overflow(v.el) == 0;
      forall i | 0 <= i < |s.list|
        ensures s.list[i].t != t
      {
        assert v.el[i] == s.list[i];
      }
    }
  }

  lemma {:induction false} ReadUnThreads(s: State, s': State, el: seq<Entry>, t: Tid)
    requires ThreadsOk(s, el) && HoldsRead(At(s, t))
    requires At(s', t).Idle? ==> t !in Tids(el)
    requires if At(s, t).Reading? then s' == DoReadUnFast(s, t)
             else At(s, t).ReadUnUnderList? && s' == DoReadUnSlow(s, t)
    requires !At(s', t).Fault?
    ensures ThreadsOk(s', el)
  {
    assert ThreadOk(s, el, t);
    Others(s, el, s', el, {t});
  }

  lemma {:induction false} ReadUnFastView(s: State, s': State, v: View, t: Tid)
    requires Frozen(s) && At(s, t).Reading? && s.listOwner != Some(t) && s.word.r != 0
    requires s' == DoReadUnFast(s, t) && v == ViewOf(s) && !At(s', t).Fault?
    ensures Frozen(s')
    ensures ViewOf(s') ==
      if Special(s.max, s.word) then v
      else v.(word := ClearRead(v.max, v.word), readers := v.readers - {t})
  {
    assert OwnerPc(s') == OwnerPc(s);
  }

  lemma {:induction false} ReadUnFastGood(s: State, s': State, t: Tid)
    requires Inv(s) && Can(s, ReadUnFast(t)) && s' == DoReadUnFast(s, t)
    ensures Inv(s')
    ensures Refines(ViewOf(s),
              if Special(s.max, s.word) then FairRw.Quiet else FairRw.ReadReleased(t), ViewOf(s'))
  {
    var v := ViewOf(s);
    assert ThreadOk(s, v.el, t);
    ReadUnViewFacts(s, v, t);
    ReadUnThreads(s, s', v.el, t);
    ReadUnFastView(s, s', v, t);
    if !Special(s.max, s.word) {
      PlainReadRelease(v, t);
    }
  }

  lemma {:induction false} ReadUnSlowGood(s: State, s': State, t: Tid)
    requires Inv(s) && Can(s, ReadUnSlow(t)) && s' == DoReadUnSlow(s, t)
    ensures Inv(s')
    ensures Refines(ViewOf(s),
              if Special(s.max, s.word) then FairRw.Quiet else FairRw.ReadReleased(t), ViewOf(s'))
  {
    var v := ViewOf(s);
    assert ThreadOk(s, v.el, t);
    ReadUnViewFacts(s, v, t);
    ReadUnThreads(s, s', v.el, t);
    ReadUnSlowView(s, s', v, t);
    if !Special(s.max, s.word) {
      PlainReadRelease(v, t);
    }
  }

  lemma {:induction false} ReadUnSlowView(s: State, s': State, v: View, t: Tid)
    requires At(s, t).ReadUnUnderList? && s.listOwner == Some(t) && v == ViewOf(s) && s.word.r != 0
    requires s' == DoReadUnSlow(s, t) && WakersOk(s) && (Special(s.max, s.word) || t !in Tids(s.list))
    ensures WakersOk(s') && Frozen(s')
    ensures ViewOf(s') ==
      if Special(s.max, s.word) then v
      else v.(word := ClearRead(v.max, v.word), readers := v.readers - {t})
  {
    assert s'.list + [] == s'.list;
  }

  lemma {:induction false} WriteUnFastThreads(s: State, s': State, el: seq<Entry>, t: Tid)
    requires ThreadsOk(s, el) && At(s, t).Writing? && s.word.w
    requires s' == DoWriteUnFast(s, t)
    requires s.word == Word(true, if el == [] then 0 else 1)
    ensures ThreadsOk(s', el)
  {
    assert ThreadOk(s, el, t);
    Others(s, el, s', el, {t});
  }

  lemma {:induction false} WriteUnFastView(s: State, s': State, v: View, t: Tid)
    requires At(s, t).Writing? && s.listOwner != Some(t) && s.word.w && v == ViewOf(s) && v.word == s.word
    requires s' == DoWriteUnFast(s, t) && WakersOk(s) && Frozen(s) && s.writer == Some(t) && Unwoken(s, t)
    ensures WakersOk(s') && Frozen(s')
    ensures ViewOf(s') == if s.word.r != 0 then v else v.(word := ClearWrite(v.word), writer := None)
  {
    assert OwnerPc(s') == OwnerPc(s);
  }

  lemma {:induction false} WritingFacts(s: State, v: View, t: Tid)
    requires Inv(s) && At(s, t).Writing? && v == ViewOf(s)
    ensures s.listOwner != Some(t) && s.writer == Some(t) && Unwoken(s, t)
    ensures v.word == s.word == Word(true, if v.el == [] then 0 else 1)
  {
    assert ThreadOk(s, v.el, t);
  }

  lemma {:induction false} WriteUnFastGood(s: State, s': State, t: Tid)
    requires Inv(s) && Can(s, WriteUnFast(t)) && s' == DoWriteUnFast(s, t)
    ensures Inv(s')
    ensures Refines(ViewOf(s),
              if s.word.r != 0 then FairRw.Quiet else FairRw.WriteReleased(t), ViewOf(s'))
  {
    var v := ViewOf(s);
    WritingFacts(s, v, t);
    WriteUnFastView(s, s', v, t);
    WriteUnFastThreads(s, s', v.el, t);
    if s.word.r == 0 {
      PlainWriteRelease(v, t);
    }
  }

  // ---------- releasing under the wait-list lock ----------

  lemma {:induction false} FinishThreads(s: State, s': State, el: seq<Entry>, t: Tid)
    requires ThreadsOk(s, el)
    requires if At(s, t).ReadUnSwap? then s' == DoReadUnFinish(s, t)
             else At(s, t).WriteUnSwap? && s' == DoWriteUnFinish(s, t)
    requires At(s', t).Signalling?
    ensures ThreadsOk(s', el)
  {
    assert ThreadOk(s, el, t);
    Others(s, el, s', el, {t});
  }

  lemma {:induction false} ReadUnFinishGood(s: State, s': State, t: Tid)
    requires Inv(s) && Can(s, ReadUnFinish(t)) && s' == DoReadUnFinish(s, t)
    ensures Inv(s') && ViewOf(s') == ViewOf(s)
  {
    assert ThreadOk(s, ViewOf(s).el, t);
    assert ViewOf(s') == ViewOf(s);
    FinishThreads(s, s', ViewOf(s).el, t);
  }

  lemma {:induction false} WriteUnFinishGood(s: State, s': State, t: Tid)
    requires Inv(s) && Can(s, WriteUnFinish(t)) && s' == DoWriteUnFinish(s, t)
    ensures Inv(s') && ViewOf(s') == ViewOf(s)
  {
    assert ThreadOk(s, ViewOf(s).el, t);
    assert ViewOf(s') == ViewOf(s);
    FinishThreads(s, s', ViewOf(s).el, t);
  }

  /** A thread whose entry on the list does not hold the lock is asleep and unwoken. */
  lemma {:induction false} Sleeper(s: State, el: seq<Entry>, i: nat)
    requires ThreadsOk(s, el) && i < |el| && !el[i].have
    requires forall j, k :: 0 <= j < k < |el| ==> el[j].t != el[k].t
    requires el[i].t !in s.readers && s.writer != Some(el[i].t) && s.listOwner != Some(el[i].t)
    ensures At(s, el[i].t) == (if el[i].rd then ReadAsleep else WriteAsleep)
    ensures Unwoken(s, el[i].t)
  {
    var t := el[i].t;
    assert ThreadOk(s, el, t);
    assert t in Tids(el);
    if At(s, t).ReadAsleep? {
      var j :| 0 <= j < |el| && el[j] == Entry(t, true, false);
      assert j == i;
    } else if At(s, t).WriteAsleep? {
      var j :| 0 <= j < |el| && el[j] == Entry(t, false, false);
      assert j == i;
    }
  }

  // A reader edits the list.

  lemma {:induction false} DroppedEntry(q: seq<Entry>, i: nat)
    requires i < |q|
    requires forall j, k :: 0 <= j < k < |q| ==> q[j].t != q[k].t
    ensures forall x :: x in q && x.t != q[i].t ==> x in Drop(q, i)
    ensures Tids(Drop(q, i)) == Tids(q) - {q[i].t}
  {
    var a, e, b := q[..i], q[i], q[i + 1..];
    assert q == a + [e] + b;
    TidsConcat(a, b);
    TidsConcat(a + [e], b);
    AppendedEntry(a, e);
    forall u | u in Tids(a + b)
      ensures u != e.t
    {
      var j :| 0 <= j < |a + b| && (a + b)[j].t == u;
      assert (a + b)[j] == q[if j < i then j else j + 1];
    }
  }

  /** Which entry, if any, a releasing reader takes off the list. */
  lemma {:induction false} ReadEditDrops(max: nat, w: Word, q: seq<Entry>, t: Tid) returns (i: nat)
    requires w.r != 0 && ReadUnlockEdit(max, w, q, t).ok
    ensures i <= |q|
    ensures var e := ReadUnlockEdit(max, w, q, t);
            && e.list == (if i < |q| then Drop(q, i) else q)
            && (t in Tids(q) ==> i < |q| && q[i].t == t)
            && (i < |q| && !q[i].have && q[i].t != t ==> e.wake == Some(q[i].t))
            && (e.wake.Some? ==> i == 0 && q != [] && !q[0].have && !q[0].rd && e.wake.value == q[0].t && t !in Tids(q))
  {
    i := Find(q, t);
    if i == |q| {
      if q != [] && (q[0].have || w.r == 1) {
        i := 0;
        assert Drop(q, 0) == q[1..];
      }
    } else {
      assert q[i].t in Tids(q);
    }
  }

  /** What the encoding says of each entry. */
  predicate EntriesOk(q: seq<Entry>, readers: set<Tid>, writer: Option<Tid>) {
    && (forall j, k :: 0 <= j < k < |q| ==> q[j].t != q[k].t)
    && (forall j :: 0 <= j < |q| ==>
          if q[j].have then q[j].t in readers
          else q[j].t !in readers && writer != Some(q[j].t))
  }

  lemma {:induction false} EncodedEntries(v: View)
    requires Encodes(v)
    ensures EntriesOk(v.el, v.readers, v.writer)
    ensures v.readers != {} ==> v.writer == None
    ensures v.writer.Some? ==> forall j :: 0 <= j < |v.el| ==> !v.el[j].have
  {
  }

  /** A reader leaves and the oldest waiter, a writer, is given the lock. */
  lemma {:induction false} ReadUnWakeThreads(s: State, s': State, t: Tid, q': seq<Entry>, x: Tid)
    requires ThreadsOk(s, s.list) && At(s, t).ReadUnSpecial? && t !in Tids(s.list)
    requires EntriesOk(s.list, s.readers, s.writer) && s.writer == None
    requires s.list != [] && !s.list[0].have && !s.list[0].rd && x == s.list[0].t && q' == Drop(s.list, 0)
    requires s' == To(s, t, At(s', t)).(list := q', readers := s.readers - {t}, writer := Some(x), waking := s.waking[x := t])
    requires At(s', t).ReadUnSwap?
    ensures ThreadsOk(s', q')
  {
    assert ThreadOk(s, s.list, t);
    DroppedEntry(s.list, 0);
    assert x in Tids(s.list);
    Sleeper(s, s.list, 0);
    Others(s, s.list, s', q', {t, x});
  }

  /** A reader leaves, and an entry that holds the lock, its own or another's, may leave the list. */
  lemma {:induction false} ReadUnDropThreads(s: State, s': State, t: Tid, q': seq<Entry>, i: nat)
    requires ThreadsOk(s, s.list) && At(s, t).ReadUnSpecial? && i <= |s.list|
    requires EntriesOk(s.list, s.readers, s.writer) && s.writer == None
    requires q' == if i < |s.list| then Drop(s.list, i) else s.list
    requires t in Tids(s.list) ==> i < |s.list| && s.list[i].t == t
    requires i < |s.list| ==> s.list[i].have || s.list[i].t == t
    requires s' == To(s, t, At(s', t)).(list := q', readers := s.readers - {t})
    requires At(s', t).ReadUnSwap?
    ensures ThreadsOk(s', q')
  {
    assert ThreadOk(s, s.list, t);
    if i < |s.list| {
      DroppedEntry(s.list, i);
    }
    Others(s, s.list, s', q', {t});
  }

  lemma {:induction false} ReadUnEditThreads(s: State, s': State, t: Tid)
    requires ThreadsOk(s, s.list) && At(s, t).ReadUnSpecial? && s.word.r != 0
    requires Special(s.max, s.word) && ReadUnlockEdit(s.max, s.word, s.list, t).ok
    requires s' == DoReadUnEdit(s, t)
    requires EntriesOk(s.list, s.readers, s.writer) && s.writer == None
    ensures ThreadsOk(s', s'.list)
  {
    var e := ReadUnlockEdit(s.max, s.word, s.list, t);
    var i := ReadEditDrops(s.max, s.word, s.list, t);
    if e.wake.Some? {
      ReadUnWakeThreads(s, s', t, e.list, e.wake.value);
    } else {
      ReadUnDropThreads(s, s', t, e.list, i);
    }
  }

  lemma {:induction false} ReadUnEditView(s: State, s': State, v: View, t: Tid)
    requires At(s, t).ReadUnSpecial? && s.listOwner == Some(t) && s.word.r != 0
    requires Special(s.max, s.word) && ReadUnlockEdit(s.max, s.word, s.list, t).ok
    requires s' == DoReadUnEdit(s, t) && v == ViewOf(s) && s.writer == None
    ensures Frozen(s')
    ensures var e := ReadUnlockEdit(s.max, s.word, s.list, t);
      ViewOf(s') == v.(word := Word(v.word.w, e.r), el := e.list, readers := v.readers - {t},
                       writer := if e.wake.Some? then e.wake else v.writer)
  {
    assert s'.list + [] == s'.list;
  }

  lemma {:induction false} ReadUnEditWakers(s: State, s': State, t: Tid)
    requires WakersOk(s) && At(s, t).ReadUnSpecial? && s' == DoReadUnEdit(s, t) && !At(s', t).Fault?
    ensures WakersOk(s')
  {
  }

  lemma {:induction false} ReadUnEditRest(s: State, s': State, v: View, t: Tid)
    requires ThreadsOk(s, v.el) && WakersOk(s) && Frozen(s) && v == ViewOf(s)
    requires At(s, t).ReadUnSpecial? && s.listOwner == Some(t) && s.writer == None && s.word.r != 0
    requires EntriesOk(v.el, v.readers, v.writer)
    requires ReadUnlockEdit(v.max, v.word, v.el, t).ok && s' == DoReadUnEdit(s, t)
    ensures WakersOk(s') && ThreadsOk(s', ViewOf(s').el) && Frozen(s')
    ensures var e := ReadUnlockEdit(v.max, v.word, v.el, t);
      ViewOf(s') == v.(word := Word(v.word.w, e.r), el := e.list, readers := v.readers - {t},
                       writer := if e.wake.Some? then e.wake else v.writer)
  {
    assert v.el == s.list && v.word == s.word;
    ReadUnEditView(s, s', v, t);
    ReadUnEditThreads(s, s', t);
    ReadUnEditWakers(s, s', t);
  }

  lemma {:induction false} ReadUnEditGood(s: State, s': State, t: Tid)
    requires Inv(s) && Can(s, ReadUnEdit(t)) && s' == DoReadUnEdit(s, t)
    ensures Inv(s')
    ensures Refines(ViewOf(s), FairRw.ReadReleased(t), ViewOf(s'))
  {
    var v := ViewOf(s);
    assert ThreadOk(s, v.el, t);
    EncodedEntries(v);
    ReadEditRelease(v, t);
    ReadUnEditRest(s, s', v, t);
  }

  // A writer edits the list.

  lemma {:induction false} TidAt(q: seq<Entry>, u: Tid) returns (i: nat)
    requires u in Tids(q)
    ensures i < |q| && q[i].t == u
  {
    i :| 0 <= i < |q| && q[i].t == u;
  }

  /** A thread granted the lock by a releasing writer was asleep on the list. */
  lemma {:induction false} GrantedOk(s: State, s': State, u: Tid)
    requires ThreadsOk(s, s.list) && EntriesOk(s.list, s.readers, s.writer)
    requires s.listOwner != Some(u) && s.readers == {} && u in Tids(s.list)
    requires forall j :: 0 <= j < |s.list| ==> !s.list[j].have
    requires At(s', u) == At(s, u) && s'.listOwner == s.listOwner
    requires forall j :: 0 <= j < |s.list| && s.list[j].t == u ==>
      if s.list[j].rd then u in s'.readers && s'.writer != Some(u)
      else u !in s'.readers && s'.writer == Some(u)
    requires u in s'.waking <==> u !in s'.signalled
    ensures forall el' :: ThreadOk(s', el', u)
  {
    var i := TidAt(s.list, u);
    Sleeper(s, s.list, i);
    assert ThreadOk(s, s.list, u);
  }

  lemma {:induction false} WriteUnEditOthers(s: State, s': State, t: Tid, granted: set<Tid>)
    requires ThreadsOk(s, s.list) && EntriesOk(s.list, s.readers, s.writer)
    requires At(s, t).WriteUnUnderList? && s.readers == {} && granted <= Tids(s.list)
    requires forall j :: 0 <= j < |s.list| ==> !s.list[j].have
    requires forall u :: u != t ==> At(s', u) == At(s, u)
    requires At(s', t).WriteUnSwap? && s'.listOwner == s.listOwner
    requires forall u :: u in s'.readers || s'.writer == Some(u) ==> u in granted
    requires forall j :: 0 <= j < |s.list| && s.list[j].t in granted ==>
      if s.list[j].rd then s.list[j].t in s'.readers && s'.writer != Some(s.list[j].t)
      else s.list[j].t !in s'.readers && s'.writer == Some(s.list[j].t)
    requires forall u :: u in granted ==> (u in s'.waking <==> u !in s'.signalled)
    requires forall u :: u !in granted ==>
      (u in s'.waking <==> u in s.waking) && (u in s'.signalled <==> u in s.signalled)
    requires forall x :: x in s.list && x.t !in granted ==> x in s'.list
    requires Tids(s'.list) <= Tids(s.list)
    ensures ThreadsOk(s', s'.list)
  {
    assert ThreadOk(s, s.list, t);
    assert t !in Tids(s.list) by {
      if t in Tids(s.list) {
        var i := TidAt(s.list, t);
        assert false;
      }
    }
    forall u | u in granted
      ensures ThreadOk(s', s'.list, u)
    {
      GrantedOk(s, s', u);
    }
    forall u | u !in granted && u != t
      ensures SameFor(s, s.list, s', s'.list, u)
    {
      assert ThreadOk(s, s.list, u);
    }
    Others(s, s.list, s', s'.list, {t} + granted);
  }

  lemma {:induction false} ListUnwoken(s: State, u: Tid)
    requires ThreadsOk(s, s.list) && EntriesOk(s.list, s.readers, s.writer)
    requires s.listOwner != Some(u) && s.readers == {} && u in Tids(s.list)
    ensures Unwoken(s, u)
  {
    var i := TidAt(s.list, u);
    Sleeper(s, s.list, i);
  }

  lemma {:induction false} WriteUnToWriterThreads(s: State, s': State, t: Tid)
    requires ThreadsOk(s, s.list) && EntriesOk(s.list, s.readers, s.writer)
    requires At(s, t).WriteUnUnderList? && s.readers == {} && s.listOwner == Some(t)
    requires forall j :: 0 <= j < |s.list| ==> !s.list[j].have
    requires At(s, t).saw == s.word && s.list != [] && !s.list[0].rd && s' == DoWriteUnEdit(s, t)
    ensures ThreadsOk(s', s'.list)
  {
    var q := s.list;
    var x := q[0].t;
    assert ThreadOk(s, q, t);
    assert x in Tids(q);
    ListUnwoken(s, x);
    assert Drop(q, 0) == q[1..];
    DroppedEntry(q, 0);
    assert s'.list == q[1..] && s'.readers == {} && s'.writer == Some(x);
    assert Tids(q[..1]) == {x} by { assert q[..1][0].t == x; }
    assert Tids([]) == {};
    WriteUnEditOthers(s, s', t, {x});
  }

  lemma {:induction false} TidsApart(q: seq<Entry>, n: nat, run: nat)
    requires n <= run <= |q|
    requires forall j, k :: 0 <= j < k < |q| ==> q[j].t != q[k].t
    ensures Tids(q[..n]) !! Tids(q[n..run])
  {
    var a, b := q[..n], q[n..run];
    assert forall j :: 0 <= j < |b| ==> b[j] == q[n + j];
    forall u | u in Tids(a)
      ensures u !in Tids(b)
    {
      var i := TidAt(a, u);
      assert forall j :: 0 <= j < |b| ==> b[j].t != q[i].t;
    }
  }

  lemma {:induction false} MarkedRest(q: seq<Entry>, n: nat, run: nat)
    requires n <= run <= |q|
    requires forall j, k :: 0 <= j < k < |q| ==> q[j].t != q[k].t
    ensures var q' := Mark(q[n..], run - n);
            && Tids(q') <= Tids(q)
            && (forall x :: x in q && x.t !in Tids(q[..run]) ==> x in q')
    ensures Tids(q[..n]) !! Tids(q[n..run])
    ensures Tids(q[..run]) <= Tids(q)
    ensures forall j :: 0 <= j < |q| && q[j].t in Tids(q[..run]) ==> j < run
  {
    var q' := Mark(q[n..], run - n);
    forall u | u in Tids(q')
      ensures u in Tids(q)
    {
      var i := TidAt(q', u);
      assert q[n + i].t == u;
    }
    forall x | x in q && x.t !in Tids(q[..run])
      ensures x in q'
    {
      var j :| 0 <= j < |q| && q[j] == x;
      assert j >= run;
      assert q'[j - n] == x;
    }
    forall u | u in Tids(q[..run])
      ensures u in Tids(q)
    {
      var i := TidAt(q[..run], u);
      assert q[i].t == u;
    }
    TidsApart(q, n, run);
    forall j | 0 <= j < |q| && q[j].t in Tids(q[..run])
      ensures j < run
    {
      var i := TidAt(q[..run], q[j].t);
    }
  }

  /** The state after a writer handed the lock to the `run` leading readers, `n` of them counted. */
  predicate HandedToReaders(s: State, s': State, t: Tid, n: nat, run: nat) {
    && n <= run <= |s.list|
    && s'.pc == s.pc[t := At(s', t)] && At(s', t).WriteUnSwap?
    && s'.listOwner == s.listOwner
    && s'.list == Mark(s.list[n..], run - n)
    && s'.readers == Tids(s.list[..run])
    && s'.writer == None
    && s'.signalled == s.signalled + Tids(s.list[n..run])
    && s'.waking.Keys == s.waking.Keys + Tids(s.list[..n])
  }

  lemma {:induction false} HandedKeys(waking: map<Tid, Tid>, g: set<Tid>, t: Tid)
    ensures (waking + (map x | x in g :: t)).Keys == waking.Keys + g
  {
  }

  lemma {:induction false} WriteUnToReadersState(s: State, s': State, t: Tid, n: nat, run: nat)
    requires At(s, t).WriteUnUnderList? && At(s, t).saw == s.word
    requires s.list != [] && s.list[0].rd && s' == DoWriteUnEdit(s, t) && s.max > 0
    requires run == LeadingReaders(s.list) && n == if run < s.max then run else s.max
    ensures HandedToReaders(s, s', t, n, run)
  {
    WriteEditToReaders(s.max, s.list);
    var e := WriteUnlockEdit(s.max, s.list);
    HandedKeys(s.waking, Tids(e.wake), t);
    assert s'.list == e.list && s'.readers == Tids(e.wake) + Tids(e.woken);
  }

  lemma {:induction false} WriteUnToReadersThreads(s: State, s': State, t: Tid, n: nat, run: nat)
    requires ThreadsOk(s, s.list) && EntriesOk(s.list, s.readers, s.writer)
    requires At(s, t).WriteUnUnderList? && s.readers == {} && s.listOwner == Some(t)
    requires forall j :: 0 <= j < |s.list| ==> !s.list[j].have
    requires HandedToReaders(s, s', t, n, run)
    requires forall j :: 0 <= j < run ==> s.list[j].rd
    ensures ThreadsOk(s', s'.list)
  {
    var q := s.list;
    assert ThreadOk(s, q, t);
    MarkedRest(q, n, run);
    var granted := Tids(q[..run]);
    assert t !in Tids(q) by {
      if t in Tids(q) {
        var i := TidAt(q, t);
        assert false;
      }
    }
    forall u | u in granted
      ensures Unwoken(s, u)
    {
      ListUnwoken(s, u);
    }
    assert granted == Tids(q[..n]) + Tids(q[n..run]) by {
      TidsConcat(q[..n], q[n..run]);
      assert q[..run] == q[..n] + q[n..run];
    }
    WriteUnEditOthers(s, s', t, granted);
  }

  lemma {:induction false} WriteUnEditView(s: State, s': State, v: View, t: Tid)
    requires At(s, t).WriteUnUnderList? && s.listOwner == Some(t) && s.list != []
    requires s' == DoWriteUnEdit(s, t) && v == ViewOf(s) && s.word == At(s, t).saw == Word(true, 1)
    ensures Frozen(s') && v.el == s.list && ViewOf(s') == AfterWriteRelease(v)
  {
    assert s'.list + [] == s'.list;
  }

  lemma {:induction false} WriteUnEditThreads(s: State, s': State, t: Tid)
    requires ThreadsOk(s, s.list) && EntriesOk(s.list, s.readers, s.writer) && s.max > 0
    requires At(s, t).WriteUnUnderList? && s.readers == {} && s.listOwner == Some(t)
    requires forall j :: 0 <= j < |s.list| ==> !s.list[j].have
    requires At(s, t).saw == s.word && s.list != [] && s' == DoWriteUnEdit(s, t)
    ensures ThreadsOk(s', s'.list)
  {
    if s.list[0].rd {
      var run := LeadingReaders(s.list);
      var n := if run < s.max then run else s.max;
      WriteUnToReadersState(s, s', t, n, run);
      WriteUnToReadersThreads(s, s', t, n, run);
    } else {
      WriteUnToWriterThreads(s, s', t);
    }
  }

  lemma {:induction false} WriteUnEditWakers(s: State, s': State, t: Tid)
    requires WakersOk(s) && s.list != [] && At(s, t).WriteUnUnderList? && At(s, t).saw == s.word
    requires s' == DoWriteUnEdit(s, t)
    ensures WakersOk(s')
  {
    forall x | x in s'.waking
      ensures Releasing(At(s', s'.waking[x]))
    {
      if s'.waking[x] != t {
        assert x in s.waking;
      }
    }
  }

  lemma {:induction false} WriteUnEditGood(s: State, s': State, t: Tid)
    requires Inv(s) && Can(s, WriteUnEdit(t)) && s' == DoWriteUnEdit(s, t)
    ensures Inv(s')
    ensures Refines(ViewOf(s), FairRw.WriteReleased(t), ViewOf(s'))
  {
    var v := ViewOf(s);
    assert ThreadOk(s, v.el, t);
    assert v.el == s.list && v.word == s.word;
    EncodedEntries(v);
    WriteUnEditView(s, s', v, t);
    WriteUnEditThreads(s, s', t);
    WriteUnEditWakers(s, s', t);
    WriteEditRelease(v, t);
  }

  // ---------- every run ----------

  /** Each action keeps the invariant and is the stated event of the fair lock. */
  lemma {:induction false} StepGood(s: State, a: Action, s': State)
    requires Inv(s) && Can(s, a) && s' == Do(s, a)
    ensures Inv(s')
    ensures Refines(ViewOf(s), EventOf(s, a), ViewOf(s'))
  {
    match a
    case ReadFast(t, try) => ReadFastGood(s, s', t, try);
    case WriteFast(t, try) => WriteFastGood(s, s', t, try);
    case TakeList(t) => TakeListGood(s, s', t);
    case ReadSlow(t) => ReadSlowGood(s, s', t);
    case WriteSlow(t) => WriteSlowGood(s, s', t);
    case Append(t) => AppendGood(s, s', t);
    case Resume(t) => ResumeGood(s, s', t);
    case ReadUnFast(t) => ReadUnFastGood(s, s', t);
    case ReadUnSlow(t) => ReadUnSlowGood(s, s', t);
    case ReadUnEdit(t) => ReadUnEditGood(s, s', t);
    case ReadUnFinish(t) => ReadUnFinishGood(s, s', t);
    case WriteUnFast(t) => WriteUnFastGood(s, s', t);
    case WriteUnEdit(t) => WriteUnEditGood(s, s', t);
    case WriteUnFinish(t) => WriteUnFinishGood(s, s', t);
    case Signal(t, x) => SignalGood(s, s', t, x);
    case SignalDone(t) => SignalDoneGood(s, s', t);
    case SetPayload(_) => PayloadGood(s, s');
  }

  lemma {:induction false} PayloadView(s: State, s': State)
    requires s' == s.(payload := s'.payload)
    ensures ViewOf(s') == ViewOf(s) && OwnerPc(s') == OwnerPc(s)
    ensures WakersOk(s) ==> WakersOk(s')
    ensures Frozen(s) ==> Frozen(s')
  {
  }

  lemma {:induction false} PayloadThreads(s: State, s': State, el: seq<Entry>)
    requires s' == s.(payload := s'.payload) && ThreadsOk(s, el)
    ensures ThreadsOk(s', el)
  {
    forall t
      ensures ThreadOk(s', el, t)
    {
      assert ThreadOk(s, el, t);
    }
  }

  lemma {:induction false} PayloadGood(s: State, s': State)
    requires Inv(s) && s' == s.(payload := s'.payload)
    ensures Inv(s') && ViewOf(s') == ViewOf(s)
  {
    PayloadView(s, s');
    PayloadThreads(s, s', ViewOf(s).el);
  }

  lemma {:induction false} RunInv(ss: seq<State>, acts: seq<Action>, k: nat)
    requires Run(ss, acts) && k < |ss|
    ensures Inv(ss[k])
  {
    if k == 0 {
      InitInv(ss[0]);
    } else {
      RunInv(ss, acts, k - 1);
      StepGood(ss[k - 1], acts[k - 1], ss[k]);
    }
  }

  function Locks(ss: seq<State>): seq<FairRw.Lock> {
    seq(|ss|, i requires 0 <= i < |ss| => LockOf(ViewOf(ss[i])))
  }

  function Events(ss: seq<State>, acts: seq<Action>): seq<FairRw.Event>
    requires Run(ss, acts)
  {
    seq(|acts|, i requires 0 <= i < |acts| => EventOf(ss[i], acts[i]))
  }

  /** Main result: whatever the number of bits, a run of the lock is a run of the fair lock. */
  lemma {:induction false} RunIsFair(ss: seq<State>, acts: seq<Action>)
    requires Run(ss, acts)
    ensures FairRw.Run(Locks(ss), Events(ss, acts))
  {
    InitInv(ss[0]);
    forall i | 0 <= i < |acts|
      ensures FairRw.Step(Locks(ss)[i], Events(ss, acts)[i], Locks(ss)[i + 1])
    {
      RunInv(ss, acts, i);
      StepGood(ss[i], acts[i], ss[i + 1]);
    }
  }

  /** No check of the lock's bits or of the list ever fails, and threads inside the lock exclude each other. */
  lemma {:induction false} Exclusion(ss: seq<State>, acts: seq<Action>, k: nat, t: Tid, u: Tid)
    requires Run(ss, acts) && k < |ss|
    ensures !At(ss[k], t).Fault?
    ensures At(ss[k], t).Writing? && t != u ==> !At(ss[k], u).Reading? && !At(ss[k], u).Writing?
  {
    RunInv(ss, acts, k);
    var s := ss[k];
    assert ThreadOk(s, ViewOf(s).el, t) && ThreadOk(s, ViewOf(s).el, u);
  }

  /** No lost waiter: a sleeper is queued, or owed a signal by a releasing thread, or signalled. */
  lemma {:induction false} SleeperIsKept(ss: seq<State>, acts: seq<Action>, k: nat, t: Tid)
    requires Run(ss, acts) && k < |ss|
    requires At(ss[k], t).ReadAsleep? || At(ss[k], t).WriteAsleep?
    ensures var s := ss[k];
            || Entry(t, At(s, t).ReadAsleep?, false) in ViewOf(s).el
            || (t in s.waking && Releasing(At(s, s.waking[t])))
            || t in s.signalled
  {
    RunInv(ss, acts, k);
    assert ThreadOk(ss[k], ViewOf(ss[k]).el, t);
  }

  /**
   * With the wait-list lock free, the bits mean what the header promises: readers are counted
   * up to saturation and the surplus are the leading list entries; the writer bit says that
   * someone waits or that a writer holds; the count under a writer is the contention mark.
   */
  lemma {:induction false} BitsWhenListFree(ss: seq<State>, acts: seq<Action>, k: nat)
    requires Run(ss, acts) && k < |ss| && ss[k].listOwner == None
    ensures var s := ss[k];
            var g := Overflow(s.list);
            && (s.readers != {} ==>
                  && s.writer == None
                  && s.word.r == (if |s.readers| < s.max then |s.readers| else s.max)
                  && g == |s.readers| - s.word.r
                  && s.word.w == (g < |s.list|))
            && (s.writer.Some? ==> s.word == Word(true, if s.list == [] then 0 else 1))
            && (s.readers == {} && s.writer == None ==> s.word == Word(false, 0) && s.list == [])
            && forall i :: g <= i < |s.list| ==> !s.list[i].have
  {
    RunInv(ss, acts, k);
    assert ss[k].list + [] == ss[k].list;
    EncodedBits(ViewOf(ss[k]));
  }

  /** The encoding, read off the bits. */
  lemma {:induction false} EncodedBits(v: View)
    requires Encodes(v)
    ensures var g := Overflow(v.el);
            && (v.readers != {} ==>
                  && v.writer == None
                  && v.word.r == (if |v.readers| < v.max then |v.readers| else v.max)
                  && g == |v.readers| - v.word.r
                  && v.word.w == (g < |v.el|))
            && (v.writer.Some? ==> v.word == Word(true, if v.el == [] then 0 else 1))
            && (v.readers == {} && v.writer == None ==> v.word == Word(false, 0) && v.el == [])
            && forall i :: g <= i < |v.el| ==> !v.el[i].have
  {
  }
}
