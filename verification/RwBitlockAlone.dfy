/** How many steps a call of the bit-range reader-writer lock takes that no other thread disturbs. */
module RwBitlockAlone {
  import opened Base
  import opened RwBitlock
  import opened RwBitlockCalls
  import RwBitlockRest

  /** Those whom the thread has yet to signal. */
  function Owed(s: State, t: Tid): set<Tid> {
    set x | x in s.waking && s.waking[x] == t
  }

  function Owes(s: State, t: Tid): nat {
    |Owed(s, t)|
  }

  /** The steps from `p` on for a thread with `n` signals to send, and `m` entries in the list. */
  function StepsFrom(p: Pc, n: nat, m: nat, signalled: bool): nat {
    match p
    case ReadAsleep => if signalled then 1 else 0
    case WriteAsleep => if signalled then 1 else 0
    case ReadAppend(_) => 2
    case WriteAppend => 2
    case ReadUnderList(_) => 3
    case WriteUnderList => 3
    case ReadWant(_) => 4
    case WriteWant => 4
    case Signalling => n + 1
    case ReadUnSwap(_, _) => n + 2
    case ReadUnSpecial => n + 4
    case ReadUnUnderList => n + 5
    case ReadUnWant => n + 6
    case WriteUnSwap(_, _) => n + 2
    case WriteUnUnderList(_, _) => n + m + 3
    case WriteUnWant(_, _) => n + m + 4
    case _ => 0
  }

  /** The steps a call still takes when only its thread steps. */
  function Left(s: State, t: Tid): nat {
    StepsFrom(At(s, t), Owes(s, t), |s.list|, t in s.signalled)
  }

  lemma {:induction false} AcquireLowers(s: State, a: Action)
    requires Can(s, a) && (a.TakeList? || a.ReadSlow? || a.WriteSlow? || a.Append? || a.Resume?)
    ensures Left(Do(s, a), a.t) < Left(s, a.t)
  {
  }

  lemma {:induction false} FewTids(q: seq<Entry>)
    ensures |Tids(q)| <= |q|
  {
    if q != [] {
      var n := |q| - 1;
      FewTids(q[..n]);
      assert Tids(q) == Tids(q[..n]) + {q[n].t};
    }
  }

  lemma {:induction false} FewMore(a: set<Tid>, b: set<Tid>, c: set<Tid>)
    requires a <= b + c
    ensures |a| <= |b| + |c|
  {
    assert |b + c| == |b| + |c| - |b * c|;
    assert b + c == a + (b + c - a);
  }

  lemma {:induction false} FinishLowers(s: State, a: Action)
    requires Can(s, a) && (a.ReadUnSlow? || a.ReadUnFinish? || a.WriteUnFinish? || a.SignalDone?)
    ensures Left(Do(s, a), a.t) < Left(s, a.t)
  {
  }

  lemma {:induction false} SignalLowers(s: State, t: Tid, x: Tid)
    requires Can(s, Signal(t, x))
    ensures Left(DoSignal(s, x), t) < Left(s, t)
  {
    assert Owed(DoSignal(s, x), t) == Owed(s, t) - {x};
  }

  lemma {:induction false} ReadEditOwes(s: State, t: Tid)
    requires At(s, t).ReadUnSpecial?
    ensures Owes(DoReadUnEdit(s, t), t) <= Owes(s, t) + 1
  {
    var s' := DoReadUnEdit(s, t);
    if s'.waking == s.waking {
      assert Owed(s', t) == Owed(s, t);
    } else {
      FewMore(Owed(s', t), Owed(s, t), {ReadUnlockEdit(s.max, s.word, s.list, t).wake.value});
    }
  }

  lemma {:induction false} ReadEditPc(s: State, t: Tid) returns (p': Pc)
    requires At(s, t).ReadUnSpecial?
    ensures DoReadUnEdit(s, t).pc == s.pc[t := p'] && (p'.Fault? || p'.ReadUnSwap?)
  {
    if s.word.r == 0 || !Special(s.max, s.word) || !ReadUnlockEdit(s.max, s.word, s.list, t).ok {
      p' := Fault;
    } else {
      p' := ReadUnSwap(s.word.r, ReadUnlockEdit(s.max, s.word, s.list, t).r);
    }
  }

  lemma {:induction false} ReadEditLowers(s: State, t: Tid)
    requires At(s, t).ReadUnSpecial?
    ensures Left(DoReadUnEdit(s, t), t) < Left(s, t)
  {
    ReadEditOwes(s, t);
    var p' := ReadEditPc(s, t);
    PcLeft(DoReadUnEdit(s, t), t, p');
  }

  lemma {:induction false} FewWoken(max: nat, q: seq<Entry>)
    requires q != []
    ensures |WriteUnlockEdit(max, q).wake| <= |q|
  {
  }

  lemma {:induction false} WriteEditOwes(s: State, t: Tid)
    requires At(s, t).WriteUnUnderList? && s.word == At(s, t).saw && s.list != []
    ensures Owes(DoWriteUnEdit(s, t), t) <= Owes(s, t) + |s.list|
  {
    var s' := DoWriteUnEdit(s, t);
    var wake := WriteUnlockEdit(s.max, s.list).wake;
    assert s'.waking == s.waking + (map x | x in Tids(wake) :: t);
    FewWoken(s.max, s.list);
    FewTids(wake);
    MoreOwed(s.waking, Tids(wake), t);
    FewMore(Owed(s', t), Owed(s, t), Tids(wake));
  }

  lemma {:induction false} MoreOwed(w: map<Tid, Tid>, xs: set<Tid>, t: Tid)
    ensures var w' := w + (map x | x in xs :: t);
      (set x | x in w' && w'[x] == t) <= (set x | x in w && w[x] == t) + xs
  {
  }

  lemma {:induction false} WriteEditLowers(s: State, t: Tid)
    requires At(s, t).WriteUnUnderList?
    ensures Left(DoWriteUnEdit(s, t), t) < Left(s, t)
  {
    if s.word == At(s, t).saw && s.list != [] {
      WriteEditOwes(s, t);
    }
    var p' := WriteEditPc(s, t);
    PcLeft(DoWriteUnEdit(s, t), t, p');
  }

  lemma {:induction false} PcLeft(s: State, t: Tid, p: Pc)
    requires At(s, t) == p && (p.Fault? || p.WriteUnSwap? || p.ReadUnSwap?)
    ensures Left(s, t) == if p.Fault? then 0 else Owes(s, t) + 2
  {
  }

  lemma {:induction false} StepLowers(s: State, a: Action)
    requires Can(s, a) && RwBitlockRest.Inner(a)
    ensures Left(Do(s, a), a.t) < Left(s, a.t)
  {
    match a
    case Signal(t, x) => SignalLowers(s, t, x);
    case ReadUnEdit(t) => ReadEditLowers(s, t);
    case WriteUnEdit(t) => WriteEditLowers(s, t);
    case _ =>
      if a.ReadUnSlow? || a.ReadUnFinish? || a.WriteUnFinish? || a.SignalDone? {
        FinishLowers(s, a);
      } else {
        AcquireLowers(s, a);
      }
  }

  predicate Alone(acts: seq<Action>, j: nat, k: nat, t: Tid)
    requires j <= k <= |acts|
  {
    forall m :: j <= m < k ==> RwBitlockRest.Inner(acts[m]) && acts[m].t == t
  }

  predicate Lower(ss: seq<State>, k: nat, t: Tid)
    requires 0 < k < |ss|
  {
    Left(ss[k], t) < Left(ss[k - 1], t)
  }

  lemma {:induction false} RunLower(ss: seq<State>, acts: seq<Action>, k: nat)
    requires Run(ss, acts) && k < |acts| && RwBitlockRest.Inner(acts[k])
    ensures Lower(ss, k + 1, acts[k].t)
  {
    StepLowers(ss[k], acts[k]);
  }

  lemma {:induction false} LowerSteps(ss: seq<State>, j: nat, k: nat, t: Tid)
    requires j <= k < |ss| && forall m :: j < m <= k ==> Lower(ss, m, t)
    ensures k - j + Left(ss[k], t) <= Left(ss[j], t)
    decreases k
  {
    if j < k {
      LowerSteps(ss, j, k - 1, t);
      assert Lower(ss, k, t);
    }
  }

  ghost predicate Lowers(ss: seq<State>, acts: seq<Action>) {
    |ss| == |acts| + 1 && forall k :: 0 <= k < |acts| && RwBitlockRest.Inner(acts[k]) ==> Lower(ss, k + 1, acts[k].t)
  }

  lemma {:induction false} RunLowers(ss: seq<State>, acts: seq<Action>)
    requires Run(ss, acts)
    ensures Lowers(ss, acts)
  {
    forall k | 0 <= k < |acts| && RwBitlockRest.Inner(acts[k])
      ensures Lower(ss, k + 1, acts[k].t)
    {
      RunLower(ss, acts, k);
    }
  }

  lemma {:induction false} LeftFalls(ss: seq<State>, acts: seq<Action>, j: nat, k: nat, t: Tid)
    requires Lowers(ss, acts) && j <= k < |ss| && Alone(acts, j, k, t)
    ensures k - j <= Left(ss[j], t)
  {
    forall m | j < m <= k
      ensures Lower(ss, m, t)
    {
      assert Lower(ss, m - 1 + 1, acts[m - 1].t);
    }
    LowerSteps(ss, j, k, t);
  }

  lemma {:induction false} LeftBound(s: State, t: Tid)
    ensures Left(s, t) <= Owes(s, t) + |s.list| + 6
  {
  }

  /**
   * A call that no other thread disturbs ends, sleeps, or wants the wait list while another has it, within
   * as many steps as the thread has signals to send, and entries are in the list, and six more.
   */
  lemma {:induction false} EndsAlone(ss: seq<State>, acts: seq<Action>, j: nat, k: nat, t: Tid)
    requires Run(ss, acts) && j <= k < |ss| && Alone(acts, j, k, t)
    ensures k - j <= Owes(ss[j], t) + |ss[j].list| + 6
  {
    RunLowers(ss, acts);
    LeftFalls(ss, acts, j, k, t);
    LeftBound(ss[j], t);
  }
}
