/**
 * What the callers of the bit-range reader-writer lock get: where each call can end, and exactly when
 * a try is refused.
 */
module RwBitlockCalls {
  import opened Base
  import opened RwBitlock
  import opened RwBitlockProof
  import opened RwBitlockRuns
  import opened RwBitlockChecks
  import FairRw

  // ---------- where a call can be, and how it ends ----------

  predicate Begins(a: Action) {
    a.ReadFast? || a.WriteFast? || a.ReadUnFast? || a.WriteUnFast?
  }

  /**
   * A read lock call ends reading, a write lock call writing, or, if it is a try, without the lock; a
   * try never sleeps. A release ends without the lock.
   */
  predicate Inside(c: Action, p: Pc)
    requires Begins(c)
  {
    match c
    case ReadFast(_, try) =>
      (match p
       case Reading => true
       case Idle => try
       case ReadWant(x) => x == try
       case ReadUnderList(x) => x == try
       case ReadAppend(have) => have || !try
       case ReadAsleep => !try
       case _ => false)
    case WriteFast(_, try) =>
      p.Writing? || (if try then p.Idle? else p.WriteWant? || p.WriteUnderList? || p.WriteAppend? || p.WriteAsleep?)
    case ReadUnFast(_) =>
      p.Idle? || p.ReadUnWant? || p.ReadUnUnderList? || p.ReadUnSpecial? || p.ReadUnSwap? || p.Signalling?
    case WriteUnFast(_) =>
      p.Idle? || p.WriteUnWant? || p.WriteUnUnderList? || p.WriteUnSwap? || p.Signalling?
  }

  predicate Moves(a: Action) {
    !Begins(a) && !a.SetPayload? && !a.Signal?
  }

  lemma {:induction false} AcquirePc(s: State, a: Action) returns (p': Pc)
    requires Can(s, a) && (a.TakeList? || a.ReadSlow? || a.WriteSlow? || a.Append? || a.Resume?)
    ensures Do(s, a).pc == s.pc[a.t := p'] && p' != At(s, a.t)
    ensures forall c :: Begins(c) && Inside(c, At(s, a.t)) ==> Inside(c, p')
  {
    var p := At(s, a.t);
    match a
    case TakeList(t) =>
      match p {
        case ReadWant(try) => p' := ReadUnderList(try);
        case WriteWant => p' := WriteUnderList;
        case ReadUnWant => p' := ReadUnUnderList;
        case WriteUnWant(w, x) => p' := WriteUnUnderList(w, x);
      }
    case ReadSlow(t) =>
      p' := if GotRead(s.max, s.word) then Reading
            else if p.try && s.word.w then Idle else ReadAppend(!s.word.w);
    case WriteSlow(t) => p' := if GotWrite(s.word) then Writing else WriteAppend;
    case Append(t) =>
      p' := if p.WriteAppend? then WriteAsleep else if p.have then Reading else ReadAsleep;
    case Resume(t) => p' := if p.ReadAsleep? then Reading else Writing;
  }

  lemma {:induction false} ReadReleasePc(s: State, a: Action) returns (p': Pc)
    requires Can(s, a) && (a.ReadUnSlow? || a.ReadUnEdit? || a.ReadUnFinish?)
    ensures Do(s, a).pc == s.pc[a.t := p'] && p' != At(s, a.t)
    ensures p'.Fault? || forall c :: Begins(c) && Inside(c, At(s, a.t)) ==> Inside(c, p')
  {
    var p := At(s, a.t);
    match a
    case ReadUnSlow(t) =>
      p' := if s.word.r == 0 then Fault else if Special(s.max, s.word) then ReadUnSpecial
            else if t in Tids(s.list) then Fault else Idle;
    case ReadUnEdit(t) =>
      if s.word.r == 0 || !Special(s.max, s.word) || !ReadUnlockEdit(s.max, s.word, s.list, t).ok {
        p' := Fault;
      } else {
        p' := ReadUnSwap(s.word.r, ReadUnlockEdit(s.max, s.word, s.list, t).r);
      }
    case ReadUnFinish(t) => p' := if p.oldR != p.newR && s.word.r != p.oldR then Fault else Signalling;
  }

  lemma {:induction false} WriteReleasePc(s: State, a: Action) returns (p': Pc)
    requires Can(s, a) && (a.WriteUnEdit? || a.WriteUnFinish? || a.SignalDone?)
    ensures Do(s, a).pc == s.pc[a.t := p'] && p' != At(s, a.t)
    ensures p'.Fault? || forall c :: Begins(c) && Inside(c, At(s, a.t)) ==> Inside(c, p')
  {
    match a
    case WriteUnEdit(t) => p' := WriteEditPc(s, t);
    case WriteUnFinish(t) => p' := if s.word != At(s, t).oldW then Fault else Signalling;
    case SignalDone(t) => p' := Idle;
  }

  lemma {:induction false} WriteEditPc(s: State, t: Tid) returns (p': Pc)
    requires At(s, t).WriteUnUnderList?
    ensures DoWriteUnEdit(s, t).pc == s.pc[t := p'] && (p'.Fault? || p'.WriteUnSwap?)
  {
    if s.word != At(s, t).saw || s.list == [] {
      p' := Fault;
    } else {
      p' := WriteUnSwap(s.word, WriteUnlockEdit(s.max, s.list).word);
    }
  }

  lemma {:induction false} BeginPc(s: State, a: Action) returns (p': Pc)
    requires Can(s, a) && Begins(a)
    ensures Do(s, a).pc == (if p'.Idle? && At(s, a.t).Idle? then s.pc else s.pc[a.t := p'])
    ensures p'.Fault? || Inside(a, p')
  {
    match a
    case ReadFast(t, try) =>
      p' := if GotRead(s.max, s.word) then Reading else if try && s.word.w then Idle else ReadWant(try);
    case WriteFast(t, try) => p' := if GotWrite(s.word) then Writing else if try then Idle else WriteWant;
    case ReadUnFast(t) =>
      p' := if s.word.r == 0 then Fault else if Special(s.max, s.word) then ReadUnWant
            else if t in Tids(s.list) then Fault else Idle;
    case WriteUnFast(t) =>
      p' := if !s.word.w then Fault else if s.word.r != 0 then WriteUnWant(s.word, s.payload) else Idle;
  }

  // ---------- calls over whole runs ----------

  /** One step, seen from the thread whose call is `c`. */
  predicate Keeps(s: State, a: Action, s': State, c: Action)
    requires Begins(c)
  {
    if !Acts(a, c.t) then At(s', c.t) == At(s, c.t)
    else if Begins(a) then a == c ==> Inside(c, At(s', c.t))
    else Inside(c, At(s, c.t)) ==> Inside(c, At(s', c.t))
  }

  lemma {:induction false} QuietFollows(s: State, a: Action, s': State, c: Action)
    requires Begins(c) && !Begins(a) && s'.pc == s.pc
    ensures Keeps(s, a, s', c)
  {
  }

  lemma {:induction false} MoveFollows(s: State, a: Action, s': State, c: Action, p': Pc)
    requires Begins(c) && Moves(a) && s'.pc == s.pc[a.t := p'] && !At(s', a.t).Fault?
    requires p'.Fault? || (Inside(c, At(s, a.t)) ==> Inside(c, p'))
    ensures Keeps(s, a, s', c)
  {
  }

  lemma {:induction false} BeginFollows(s: State, a: Action, s': State, c: Action, p': Pc)
    requires Begins(c) && Begins(a) && (p'.Fault? || Inside(a, p')) && !At(s', a.t).Fault?
    requires s'.pc == (if p'.Idle? && At(s, a.t).Idle? then s.pc else s.pc[a.t := p'])
    ensures Keeps(s, a, s', c)
  {
  }

  lemma {:induction false} StepFollows(s: State, a: Action, s': State, c: Action)
    requires Can(s, a) && s' == Do(s, a) && (a.SetPayload? || !At(s', a.t).Fault?) && Begins(c)
    ensures Keeps(s, a, s', c)
  {
    if a.SetPayload? || a.Signal? {
      assert s'.pc == s.pc;
      QuietFollows(s, a, s', c);
    } else if Begins(a) {
      var p' := BeginPc(s, a);
      BeginFollows(s, a, s', c, p');
    } else if a.TakeList? || a.ReadSlow? || a.WriteSlow? || a.Append? || a.Resume? {
      var p' := AcquirePc(s, a);
      MoveFollows(s, a, s', c, p');
    } else if a.ReadUnSlow? || a.ReadUnEdit? || a.ReadUnFinish? {
      var p' := ReadReleasePc(s, a);
      MoveFollows(s, a, s', c, p');
    } else {
      var p' := WriteReleasePc(s, a);
      MoveFollows(s, a, s', c, p');
    }
  }

  lemma {:induction false} RunStep(ss: seq<State>, acts: seq<Action>, k: nat)
    requires Run(ss, acts) && k < |acts|
    ensures Inv(ss[k]) && Can(ss[k], acts[k]) && ss[k + 1] == Do(ss[k], acts[k])
  {
    RunInv(ss, acts, k);
  }

  ghost predicate Calls(ss: seq<State>, acts: seq<Action>, c: Action) {
    && |ss| == |acts| + 1 && Begins(c)
    && forall k :: 0 <= k < |acts| ==> Keeps(ss[k], acts[k], ss[k + 1], c)
  }

  lemma {:induction false} RunCalls(ss: seq<State>, acts: seq<Action>, c: Action)
    requires Run(ss, acts) && Begins(c)
    ensures Calls(ss, acts, c)
  {
    forall k | 0 <= k < |acts|
      ensures Keeps(ss[k], acts[k], ss[k + 1], c)
    {
      RunStep(ss, acts, k);
      StepKeeps(ss[k], acts[k], c);
    }
  }

  lemma {:induction false} NoFault(s: State, el: seq<Entry>, t: Tid)
    requires ThreadsOk(s, el)
    ensures !At(s, t).Fault?
  {
    assert ThreadOk(s, el, t);
  }

  lemma {:induction false} StepKeeps(s: State, a: Action, c: Action)
    requires Inv(s) && Can(s, a) && Begins(c)
    ensures Keeps(s, a, Do(s, a), c)
  {
    var s' := Do(s, a);
    StepGood(s, a, s');
    if !a.SetPayload? {
      NoFault(s', ViewOf(s').el, a.t);
    }
    StepFollows(s, a, s', c);
  }

  /** Call `c` began at `j`, and its thread has begun no other since. */
  predicate Calling(acts: seq<Action>, j: nat, k: nat, c: Action)
    requires j < k <= |acts|
  {
    acts[j] == c && Begins(c) && forall m :: j < m < k && Acts(acts[m], c.t) ==> !Begins(acts[m])
  }

  lemma {:induction false} CallGoesOn(ss: seq<State>, acts: seq<Action>, j: nat, k: nat, c: Action)
    requires Calls(ss, acts, c) && j < k < |ss| && Calling(acts, j, k, c)
    ensures Inside(c, At(ss[k], c.t))
  {
    assert Keeps(ss[k - 1], acts[k - 1], ss[k], c);
    if j + 1 < k {
      CallGoesOn(ss, acts, j, k - 1, c);
    }
  }

  /** Every call stays where it belongs and ends as promised, with or without the lock. */
  lemma {:induction false} CallEnds(ss: seq<State>, acts: seq<Action>, j: nat, k: nat, c: Action)
    requires Run(ss, acts) && j < k < |ss| && Calling(acts, j, k, c)
    ensures Inside(c, At(ss[k], c.t))
    ensures var s, p := ss[k], At(ss[k], c.t);
      && (p.Reading? ==> c.t in AbsOf(s).readers)
      && (p.Writing? ==> AbsOf(s).writer == Some(c.t))
      && (p.Idle? ==> c.t !in AbsOf(s).readers && AbsOf(s).writer != Some(c.t))
  {
    RunInv(ss, acts, k);
    assert ThreadOk(ss[k], ViewOf(ss[k]).el, c.t);
    RunCalls(ss, acts, c);
    CallGoesOn(ss, acts, j, k, c);
  }

  // ---------- when a lock call is granted, and when a try is refused ----------

  function AbsOf(s: State): FairRw.Lock {
    LockOf(ViewOf(s))
  }

  /** A releasing writer has decided who comes next but not yet swapped the word. */
  predicate Deciding(s: State) {
    OwnerPc(s).WriteUnSwap?
  }

  /** Someone writes or waits. */
  predicate Barred(l: FairRw.Lock) {
    l.writer.Some? || l.queue != []
  }

  predicate Held(l: FairRw.Lock) {
    l.writer.Some? || l.readers != {}
  }

  lemma {:induction false} EncodedBar(v: View)
    requires Encodes(v)
    ensures v.word.w <==> Barred(LockOf(v))
    ensures v.max >= 3 && (GotWrite(v.word) <==> !Held(LockOf(v)))
    ensures Barred(LockOf(v)) ==> Held(LockOf(v))
  {
  }

  /** What the word tells a caller, also while a release is under way. */
  lemma {:induction false} WordTells(s: State)
    requires Inv(s)
    ensures s.word.w <==> Barred(AbsOf(s)) || Deciding(s)
    ensures GotWrite(s.word) <==> !Held(AbsOf(s)) && !Deciding(s)
  {
    EncodedBar(ViewOf(s));
    WordInRelease(s);
  }

  lemma {:induction false} WordInRelease(s: State)
    requires Frozen(s) && s.max >= 3
    ensures s.word.w <==> Settled(s).w || Deciding(s)
    ensures GotWrite(s.word) <==> GotWrite(Settled(s)) && !Deciding(s)
  {
  }

  lemma {:induction false} WordUnderList(s: State, t: Tid)
    requires Inv(s) && (At(s, t).ReadUnderList? || At(s, t).WriteUnderList?)
    ensures s.word.w <==> Barred(AbsOf(s))
    ensures GotWrite(s.word) <==> !Held(AbsOf(s))
  {
    EncodedBar(ViewOf(s));
    WordWithList(s, ViewOf(s).el, t);
  }

  lemma {:induction false} WordWithList(s: State, el: seq<Entry>, t: Tid)
    requires ThreadsOk(s, el) && (At(s, t).ReadUnderList? || At(s, t).WriteUnderList?)
    ensures Settled(s) == s.word
  {
    assert ThreadOk(s, el, t);
  }

  /**
   * A read lock call that tries without the wait list is refused exactly when someone writes or waits,
   * or a writer's release has not swapped the word yet; a blocking call is never refused. The call is
   * granted at once if and only if that is not so and the count has room.
   */
  lemma {:induction false} ReadTried(ss: seq<State>, acts: seq<Action>, k: nat)
    requires Run(ss, acts) && k < |acts| && acts[k].ReadFast?
    ensures var s, s', t, try := ss[k], ss[k + 1], acts[k].t, acts[k].try;
      && (At(s', t).Idle? <==> try && (Barred(AbsOf(s)) || Deciding(s)))
      && (At(s', t).Idle? ==> s' == s)
      && (At(s', t).Reading? <==> !Barred(AbsOf(s)) && !Deciding(s) && s.word.r != s.max)
      && (At(s', t).Reading? ==> AbsOf(s').readers == AbsOf(s).readers + {t})
      && (At(s', t).Idle? || At(s', t).Reading? || At(s', t) == ReadWant(try))
  {
    RunStep(ss, acts, k);
    WordTells(ss[k]);
    ReadFastStep(ss[k], acts[k].t, acts[k].try);
    StepGood(ss[k], acts[k], ss[k + 1]);
  }

  lemma {:induction false} ReadFastStep(s: State, t: Tid, try: bool)
    requires At(s, t).Idle?
    ensures var s' := DoReadFast(s, t, try);
      && (At(s', t).Idle? <==> try && s.word.w) && (At(s', t).Idle? ==> s' == s)
      && (At(s', t).Reading? <==> GotRead(s.max, s.word))
      && (At(s', t).Idle? || At(s', t).Reading? || At(s', t) == ReadWant(try))
  {
  }

  /** Under the wait-list lock a reader gets the lock if and only if no one writes or waits; only a try gives up. */
  lemma {:induction false} ReadDecided(ss: seq<State>, acts: seq<Action>, k: nat)
    requires Run(ss, acts) && k < |acts| && acts[k].ReadSlow?
    ensures var s, s', t := ss[k], ss[k + 1], acts[k].t;
      if !Barred(AbsOf(s)) then
        (At(s', t).Reading? || At(s', t) == ReadAppend(true)) && AbsOf(s').readers == AbsOf(s).readers + {t}
      else if At(s, t).try then At(s', t).Idle? && AbsOf(s') == AbsOf(s)
      else At(s', t) == ReadAppend(false) && AbsOf(s').queue == AbsOf(s).queue + [FairRw.Request(t, true)]
  {
    RunStep(ss, acts, k);
    ReadDecision(ss[k], acts[k].t);
  }

  lemma {:induction false} ReadDecision(s: State, t: Tid)
    requires Inv(s) && Can(s, ReadSlow(t))
    ensures var s' := DoReadSlow(s, t);
      if !Barred(AbsOf(s)) then
        (At(s', t).Reading? || At(s', t) == ReadAppend(true)) && AbsOf(s').readers == AbsOf(s).readers + {t}
      else if At(s, t).try then At(s', t).Idle? && AbsOf(s') == AbsOf(s)
      else At(s', t) == ReadAppend(false) && AbsOf(s').queue == AbsOf(s).queue + [FairRw.Request(t, true)]
  {
    WordUnderList(s, t);
    ReadSlowStep(s, t);
    ReadSlowEffect(s, t);
  }

  lemma {:induction false} ReadSlowEffect(s: State, t: Tid)
    requires Inv(s) && Can(s, ReadSlow(t))
    ensures var l, l' := AbsOf(s), AbsOf(DoReadSlow(s, t));
      if !s.word.w then l'.readers == l.readers + {t}
      else if At(s, t).try then l' == l
      else l'.queue == l.queue + [FairRw.Request(t, true)]
  {
    var s' := DoReadSlow(s, t);
    ReadSlowGood(s, s', t);
    EventEffect(ViewOf(s), if !s.word.w then FairRw.ReadGranted(t) else if At(s, t).try then FairRw.Quiet
                           else FairRw.Queued(FairRw.Request(t, true)), ViewOf(s'));
  }

  lemma {:induction false} ReadSlowStep(s: State, t: Tid)
    requires At(s, t).ReadUnderList?
    ensures var s' := DoReadSlow(s, t);
      if !s.word.w then At(s', t).Reading? || At(s', t) == ReadAppend(true)
      else At(s', t) == if At(s, t).try then Idle else ReadAppend(false)
  {
  }

  /** A write lock call is granted if and only if no one holds the lock and no release is under way. */
  lemma {:induction false} WriteTried(ss: seq<State>, acts: seq<Action>, k: nat)
    requires Run(ss, acts) && k < |acts| && acts[k].WriteFast?
    ensures var s, s', t := ss[k], ss[k + 1], acts[k].t;
      if !Held(AbsOf(s)) && !Deciding(s) then At(s', t).Writing? && AbsOf(s').writer == Some(t)
      else if acts[k].try then s' == s
      else At(s', t).WriteWant? && AbsOf(s') == AbsOf(s)
  {
    RunStep(ss, acts, k);
    WordTells(ss[k]);
    WriteFastStep(ss[k], acts[k].t, acts[k].try);
    StepGood(ss[k], acts[k], ss[k + 1]);
  }

  lemma {:induction false} WriteFastStep(s: State, t: Tid, try: bool)
    requires At(s, t).Idle?
    ensures var s' := DoWriteFast(s, t, try);
      if GotWrite(s.word) then At(s', t).Writing? else if try then s' == s else At(s', t).WriteWant?
  {
  }

  /** Under the wait-list lock a writer gets a free lock and queues for any other. */
  lemma {:induction false} WriteDecided(ss: seq<State>, acts: seq<Action>, k: nat)
    requires Run(ss, acts) && k < |acts| && acts[k].WriteSlow?
    ensures var s, s', t := ss[k], ss[k + 1], acts[k].t;
      if !Held(AbsOf(s)) then At(s', t).Writing? && AbsOf(s').writer == Some(t)
      else At(s', t).WriteAppend? && AbsOf(s').queue == AbsOf(s).queue + [FairRw.Request(t, false)]
  {
    RunStep(ss, acts, k);
    WriteDecision(ss[k], acts[k].t);
  }

  lemma {:induction false} WriteDecision(s: State, t: Tid)
    requires Inv(s) && Can(s, WriteSlow(t))
    ensures var s' := DoWriteSlow(s, t);
      if !Held(AbsOf(s)) then At(s', t).Writing? && AbsOf(s').writer == Some(t)
      else At(s', t).WriteAppend? && AbsOf(s').queue == AbsOf(s).queue + [FairRw.Request(t, false)]
  {
    WordUnderList(s, t);
    WriteSlowStep(s, t);
    WriteSlowEffect(s, t);
  }

  lemma {:induction false} WriteSlowEffect(s: State, t: Tid)
    requires Inv(s) && Can(s, WriteSlow(t))
    ensures var l, l' := AbsOf(s), AbsOf(DoWriteSlow(s, t));
      if GotWrite(s.word) then l'.writer == Some(t) else l'.queue == l.queue + [FairRw.Request(t, false)]
  {
    var s' := DoWriteSlow(s, t);
    WriteSlowGood(s, s', t);
    EventEffect(ViewOf(s), if GotWrite(s.word) then FairRw.WriteGranted(t) else FairRw.Queued(FairRw.Request(t, false)),
                ViewOf(s'));
  }

  lemma {:induction false} EventEffect(v: View, e: FairRw.Event, v': View)
    requires Refines(v, e, v') && (e.Quiet? || e.ReadGranted? || e.WriteGranted? || e.Queued?)
    ensures var l, l' := LockOf(v), LockOf(v');
      match e
      case Quiet => l' == l
      case ReadGranted(t) => l'.readers == l.readers + {t}
      case WriteGranted(t) => l'.writer == Some(t)
      case Queued(r) => l'.queue == l.queue + [r]
      case _ => true
  {
  }

  lemma {:induction false} WriteSlowStep(s: State, t: Tid)
    requires At(s, t).WriteUnderList?
    ensures var s' := DoWriteSlow(s, t); if GotWrite(s.word) then At(s', t).Writing? else At(s', t).WriteAppend?
  {
  }

  // ---------- when a release needs the wait list ----------

  lemma {:induction false} ReadReleased(s: State, t: Tid)
    requires Inv(s) && At(s, t).Reading?
    ensures var s' := DoReadUnFast(s, t);
      if Special(s.max, s.word) then At(s', t).ReadUnWant? && AbsOf(s') == AbsOf(s)
      else At(s', t).Idle? && AbsOf(s').readers == AbsOf(s).readers - {t}
  {
    var s', v := DoReadUnFast(s, t), ViewOf(s);
    assert ThreadOk(s, v.el, t);
    ReadUnViewFacts(s, v, t);
    ReadUnStep(s, t);
    ReadUnFastView(s, s', v, t);
  }

  lemma {:induction false} WriteReleased(s: State, t: Tid)
    requires Inv(s) && At(s, t).Writing?
    ensures var s' := DoWriteUnFast(s, t);
      if AbsOf(s).queue != [] then At(s', t).WriteUnWant? && AbsOf(s') == AbsOf(s)
      else At(s', t).Idle? && AbsOf(s').writer == None
  {
    var s', v := DoWriteUnFast(s, t), ViewOf(s);
    WritingFacts(s, v, t);
    WriterQueue(v);
    WriteUnStep(s, t);
    WriteUnFastView(s, s', v, t);
  }

  /**
   * A reader gives its lock back at once if and only if the count is not saturated and it is not the last
   * one while others wait; a writer if and only if no one waits. Otherwise they go on to the wait list.
   */
  lemma {:induction false} ReleasedAtOnce(ss: seq<State>, acts: seq<Action>, k: nat)
    requires Run(ss, acts) && k < |acts| && (acts[k].ReadUnFast? || acts[k].WriteUnFast?)
    ensures var s, s', t := ss[k], ss[k + 1], acts[k].t;
      if acts[k].ReadUnFast? then
        if Special(s.max, s.word) then At(s', t).ReadUnWant? && AbsOf(s') == AbsOf(s)
        else At(s', t).Idle? && AbsOf(s').readers == AbsOf(s).readers - {t}
      else if AbsOf(s).queue != [] then At(s', t).WriteUnWant? && AbsOf(s') == AbsOf(s)
      else At(s', t).Idle? && AbsOf(s').writer == None
  {
    RunStep(ss, acts, k);
    ReleaseStep(ss[k], acts[k]);
  }

  lemma {:induction false} ReleaseStep(s: State, a: Action)
    requires Inv(s) && Can(s, a) && (a.ReadUnFast? || a.WriteUnFast?)
    ensures var s', t := Do(s, a), a.t;
      if a.ReadUnFast? then
        if Special(s.max, s.word) then At(s', t).ReadUnWant? && AbsOf(s') == AbsOf(s)
        else At(s', t).Idle? && AbsOf(s').readers == AbsOf(s).readers - {t}
      else if AbsOf(s).queue != [] then At(s', t).WriteUnWant? && AbsOf(s') == AbsOf(s)
      else At(s', t).Idle? && AbsOf(s').writer == None
  {
    match a
    case ReadUnFast(t) => ReadReleased(s, t);
    case WriteUnFast(t) => WriteReleased(s, t);
  }

  lemma {:induction false} WriterQueue(v: View)
    requires Encodes(v) && v.writer.Some?
    ensures LockOf(v).queue == [] <==> v.el == []
  {
  }

  lemma {:induction false} ReadUnStep(s: State, t: Tid)
    requires At(s, t).Reading? && !At(DoReadUnFast(s, t), t).Fault?
    ensures var s' := DoReadUnFast(s, t); if Special(s.max, s.word) then At(s', t).ReadUnWant? else At(s', t).Idle?
  {
  }

  lemma {:induction false} WriteUnStep(s: State, t: Tid)
    requires At(s, t).Writing? && s.word.w
    ensures var s' := DoWriteUnFast(s, t); if s.word.r != 0 then At(s', t).WriteUnWant? else At(s', t).Idle?
  {
  }

  // ---------- a refusal while a release is under way ----------

  /** Thread 1 is the writer, at `p`; thread 2 is at `p2` and has asked to read. */
  function ReadScene(max: nat, r: nat, list: seq<Entry>, owner: Option<Tid>, p: Pc, p2: Pc): State {
    State(max, 0, Word(true, r), list, owner, map[1 := p, 2 := p2], map[], {}, {}, Some(1))
  }

  /** Thread 1 has decided to let thread 2 in, but the word still says that a writer holds. */
  function Decided(max: nat): State {
    State(max, 0, Word(true, 1), [], Some(1),
          map[1 := WriteUnSwap(Word(true, 1), Word(false, 1)), 2 := ReadAsleep], map[2 := 1], {}, {2}, None)
  }

  lemma {:induction false} ToReadWaiting(max: nat) returns (ss: seq<State>, acts: seq<Action>)
    requires max >= 3
    ensures Steps(ss, acts) && Init(ss[0]) && ss[0].max == max
    ensures ss[|acts|] == ReadScene(max, 1, [Entry(2, true, false)], None, Writing, ReadAsleep)
  {
    var s := State(max, 0, Word(false, 0), [], None, map[], map[], {}, {}, None);
    ss, acts := [s], [];
    ss, acts := Then(ss, acts, WriteFast(1, false), s.(word := Word(true, 0), pc := map[1 := Writing], writer := Some(1)));
    ss, acts := Then(ss, acts, ReadFast(2, false), ReadScene(max, 0, [], None, Writing, ReadWant(false)));
    ss, acts := Then(ss, acts, TakeList(2), ReadScene(max, 0, [], Some(2), Writing, ReadUnderList(false)));
    ss, acts := Then(ss, acts, ReadSlow(2), ReadScene(max, 1, [], Some(2), Writing, ReadAppend(false)));
    assert [] + [Entry(2, true, false)] == [Entry(2, true, false)];
    ss, acts := Then(ss, acts, Append(2), ReadScene(max, 1, [Entry(2, true, false)], None, Writing, ReadAsleep));
  }

  lemma {:induction false} Decides(max: nat)
    requires max >= 3
    ensures var s := ReadScene(max, 1, [Entry(2, true, false)], Some(1), WriteUnUnderList(Word(true, 1), 0), ReadAsleep);
      Step(s, WriteUnEdit(1), Decided(max))
  {
    var q := [Entry(2, true, false)];
    assert LeadingReaders(q) == 1 by { assert q[1..] == []; }
    assert WriteUnlockEdit(max, q) == WriteEdit([], Word(false, 1), q, []);
    assert Tids(q) == {2} by { assert q[0].t in Tids(q); }
    assert Tids([]) == {};
    assert (map x | x in Tids(q) :: 1) == map[2 := 1];
  }

  /** For every width: a try is refused although no one writes or waits, since a release is under way. */
  lemma {:induction false} RefusedWhileDeciding(max: nat) returns (ss: seq<State>, acts: seq<Action>, k: nat)
    requires max >= 3
    ensures Run(ss, acts) && ss[0].max == max && k < |acts| && acts[k] == ReadFast(3, true)
    ensures At(ss[k + 1], 3).Idle? && !Barred(AbsOf(ss[k])) && Deciding(ss[k])
  {
    ss, acts := ToReadWaiting(max);
    var q, w := [Entry(2, true, false)], Word(true, 1);
    ss, acts := Then(ss, acts, WriteUnFast(1), ReadScene(max, 1, q, None, WriteUnWant(w, 0), ReadAsleep));
    ss, acts := Then(ss, acts, TakeList(1), ReadScene(max, 1, q, Some(1), WriteUnUnderList(w, 0), ReadAsleep));
    Decides(max);
    ss, acts := Then(ss, acts, WriteUnEdit(1), Decided(max));
    k := |acts|;
    ss, acts := Then(ss, acts, ReadFast(3, true), Decided(max));
    StepsRun(ss, acts);
  }

  lemma {:induction false} StepsRun(ss: seq<State>, acts: seq<Action>)
    requires Steps(ss, acts) && Init(ss[0])
    ensures Run(ss, acts)
  {
    forall i | 0 <= i < |acts|
      ensures Can(ss[i], acts[i]) && ss[i + 1] == Do(ss[i], acts[i])
    {
      assert Step(ss[i], acts[i], ss[i + 1]);
    }
  }

  // ---------- no step is idle ----------

  /** Every step of a call gets its thread on. */
  lemma {:induction false} StepsMove(ss: seq<State>, acts: seq<Action>, k: nat)
    requires Run(ss, acts) && k < |acts| && Moves(acts[k])
    ensures At(ss[k + 1], acts[k].t) != At(ss[k], acts[k].t)
  {
    OwnMoves(ss[k], acts[k]);
  }

  lemma {:induction false} OwnMoves(s: State, a: Action)
    requires Can(s, a) && Moves(a)
    ensures At(Do(s, a), a.t) != At(s, a.t)
  {
    if a.TakeList? || a.ReadSlow? || a.WriteSlow? || a.Append? || a.Resume? {
      var p' := AcquirePc(s, a);
    } else if a.ReadUnSlow? || a.ReadUnEdit? || a.ReadUnFinish? {
      var p' := ReadReleasePc(s, a);
    } else {
      var p' := WriteReleasePc(s, a);
    }
  }
}
