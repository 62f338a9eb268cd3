/**
 * Bitlock mutexes with condition bits: each lock is three bits of a word (lock, wait, cv), and any
 * number of locks share one wait list, whose entries name a lock and say what they wait for. Each
 * masked swap and each section under the list lock between two swaps is one step.
 *
 * `holder`, `has` and `giver` are auxiliary: who holds each lock, which callers are between a lock and
 * an unlock, and who last handed a lock over. The list lock is a plain mutual exclusion.
 */
module Bitlock {
  import opened Base

  /** A bitlock, named by its address and masks. */
  type Lid = nat

  datatype Bits = Bits(lock: bool, wait: bool, cv: bool)

  datatype Kind = Wait | Cv

  datatype Entry = Entry(t: Tid, l: Lid, kind: Kind)

  /** What a thread does once it has handed a lock over. */
  datatype Cont = Leave | Sleep

  datatype Pc =
    | Idle
    | LockEnter(l: Lid)
    | LockSet(l: Lid)
    | LockGot(l: Lid)
    | LockAppend(l: Lid)
    | Blocked(l: Lid)
    | UnlockTry(l: Lid)
    | UnlockEnter(l: Lid)
    | UnlockFind(l: Lid)
    | UnlockClear(l: Lid, heir: Tid)
    | UnlockExit(l: Lid, heir: Tid)
    | CvSet(l: Lid)
    | CvEnter(l: Lid)
    | CvDrop(l: Lid)
    | CvFind(l: Lid)
    | CvClear(l: Lid, heir: Tid)
    | CvAppend(l: Lid, found: Option<Tid>)
    | SigEnter(l: Lid, all: bool)
    | SigMark(l: Lid, all: bool)
    | SigClear(l: Lid, last: bool)
    | SigSet(l: Lid)
    | Wake(l: Lid, heir: Tid, cont: Cont)
    | Fault

  datatype State = State(
    bits: map<Lid, Bits>,
    list: seq<Entry>,
    listHolder: Option<Tid>,
    pc: map<Tid, Pc>,
    signalled: set<Tid>,
    holder: map<Lid, Tid>,
    has: set<(Tid, Lid)>,
    giver: map<Lid, Tid>)

  function At(s: State, t: Tid): Pc {
    if t in s.pc then s.pc[t] else Idle
  }

  function BitsOf(s: State, l: Lid): Bits {
    if l in s.bits then s.bits[l] else Bits(false, false, false)
  }

  function To(s: State, t: Tid, p: Pc): State {
    s.(pc := s.pc[t := p])
  }

  function Put(s: State, l: Lid, b: Bits): State {
    s.(bits := s.bits[l := b])
  }

  predicate IsFor(e: Entry, l: Lid, k: Kind) {
    e.l == l && e.kind == k
  }

  /** The index of the oldest entry of a kind, or the length of the list. */
  function Find(q: seq<Entry>, l: Lid, k: Kind): (i: nat)
    ensures i <= |q|
    ensures forall j :: 0 <= j < i ==> !IsFor(q[j], l, k)
    ensures i < |q| ==> IsFor(q[i], l, k)
  {
    if q == [] then 0 else if IsFor(q[0], l, k) then 0 else 1 + Find(q[1..], l, k)
  }

  predicate Waits(q: seq<Entry>, l: Lid, k: Kind) {
    exists i :: 0 <= i < |q| && IsFor(q[i], l, k)
  }

  /** A signal turns a condition waiter into a waiter for the lock, in place. */
  function Marked(e: Entry, l: Lid): Entry {
    if IsFor(e, l, Cv) then Entry(e.t, l, Wait) else e
  }

  function MarkOne(q: seq<Entry>, l: Lid): seq<Entry> {
    var i := Find(q, l, Cv);
    if i == |q| then q else q[i := Marked(q[i], l)]
  }

  function MarkAll(q: seq<Entry>, l: Lid): seq<Entry> {
    seq(|q|, i requires 0 <= i < |q| => Marked(q[i], l))
  }

  function Removed(q: seq<Entry>, i: nat): seq<Entry>
    requires i < |q|
  {
    q[..i] + q[i + 1..]
  }

  datatype Action =
    | FastLock(t: Tid, l: Lid, try: bool)
    | Resume(t: Tid)
    | StartUnlock(t: Tid, l: Lid)
    | StartCvWait(t: Tid, l: Lid)
    | StartSignal(t: Tid, l: Lid, all: bool)
    | TakeList(t: Tid)
    | Step(t: Tid)

  predicate WantsList(p: Pc) {
    p.LockEnter? || p.UnlockEnter? || p.CvEnter? || p.SigEnter?
  }

  predicate Steps(p: Pc) {
    || p.LockSet? || p.LockGot? || p.LockAppend? || p.UnlockTry? || p.UnlockFind? || p.UnlockClear?
    || p.UnlockExit? || p.CvSet? || p.CvDrop? || p.CvFind? || p.CvClear? || p.CvAppend?
    || p.SigMark? || p.SigClear? || p.SigSet? || p.Wake?
  }

  predicate Can(s: State, a: Action) {
    var p := At(s, a.t);
    match a
    case FastLock(t, l, _) => p.Idle? && (t, l) !in s.has
    case Resume(t) => p.Blocked? && t in s.signalled
    case StartUnlock(t, l) => p.Idle? && (t, l) in s.has
    case StartCvWait(t, l) => p.Idle? && (t, l) in s.has
    case StartSignal(t, l, _) => p.Idle? && (t, l) in s.has
    case TakeList(_) => WantsList(p) && s.listHolder == None
    case Step(_) => Steps(p)
  }

  function FastLockOf(s: State, t: Tid, l: Lid, try: bool): State {
    var b := BitsOf(s, l);
    if !b.lock && !b.wait then
      To(Put(s, l, b.(lock := true)), t, Idle).(holder := s.holder[l := t], has := s.has + {(t, l)})
    else if try then s
    else To(s, t, LockEnter(l))
  }

  function TakeListOf(s: State, t: Tid): State
    requires WantsList(At(s, t))
  {
    var p := At(s, t);
    var p' :=
      if p.LockEnter? then LockSet(p.l)
      else if p.UnlockEnter? then UnlockFind(p.l)
      else if p.CvEnter? then CvDrop(p.l)
      else SigMark(p.l, p.all);
    To(s, t, p').(listHolder := Some(t))
  }

  /** With the list locked: take the lock, or announce a waiter. */
  function LockSetOf(s: State, t: Tid, l: Lid): State {
    var b := BitsOf(s, l);
    if b.lock then To(Put(s, l, b.(wait := true)), t, LockAppend(l))
    else if b.wait then To(s, t, Fault)
    else To(Put(s, l, b.(lock := true)), t, LockGot(l)).(holder := s.holder[l := t])
  }

  /** The oldest waiter for the lock leaves the list; if it was the only one the wait bit must go. */
  function FindOf(s: State, t: Tid, l: Lid, cv: bool): State {
    var i := Find(s.list, l, Wait);
    if i == |s.list| then To(s, t, Fault)
    else
      var h := s.list[i].t;
      var rest := Removed(s.list, i);
      var more := Find(rest, l, Wait) < |rest|;
      var p' :=
        if cv then (if more then CvAppend(l, Some(h)) else CvClear(l, h))
        else (if more then UnlockExit(l, h) else UnlockClear(l, h));
      To(s, t, p').(list := rest, holder := s.holder[l := h], giver := s.giver[l := t])
  }

  function ClearOf(s: State, t: Tid, l: Lid, p': Pc): State {
    var b := BitsOf(s, l);
    if !b.lock || !b.wait then To(s, t, Fault) else To(Put(s, l, b.(wait := false)), t, p')
  }

  function MarkOf(s: State, t: Tid, l: Lid, all: bool): State {
    if Find(s.list, l, Cv) == |s.list| then To(s, t, Fault)
    else
      var q := if all then MarkAll(s.list, l) else MarkOne(s.list, l);
      To(s, t, SigClear(l, all || Find(q, l, Cv) == |q|)).(list := q, listHolder := None)
  }

  function StepOf(s: State, t: Tid): State
    requires Steps(At(s, t))
  {
    match At(s, t)
    case LockSet(l) => LockSetOf(s, t, l)
    case LockGot(l) => To(s, t, Idle).(listHolder := None, has := s.has + {(t, l)})
    case LockAppend(l) => To(s, t, Blocked(l)).(list := s.list + [Entry(t, l, Wait)], listHolder := None)
    case UnlockTry(l) =>
      var b := BitsOf(s, l);
      if !b.lock then To(s, t, Fault)
      else if b.wait then To(s, t, UnlockEnter(l))
      else To(Put(s, l, b.(lock := false)), t, Idle).(holder := s.holder - {l})
    case UnlockFind(l) => FindOf(s, t, l, false)
    case UnlockClear(l, h) => ClearOf(s, t, l, UnlockExit(l, h))
    case UnlockExit(l, h) => To(s, t, Wake(l, h, Leave)).(listHolder := None)
    case CvSet(l) => To(Put(s, l, BitsOf(s, l).(cv := true)), t, CvEnter(l))
    case CvDrop(l) =>
      var b := BitsOf(s, l);
      if !b.lock then To(s, t, Fault)
      else if b.wait then To(s, t, CvFind(l))
      else To(Put(s, l, b.(lock := false)), t, CvAppend(l, None)).(holder := s.holder - {l})
    case CvFind(l) => FindOf(s, t, l, true)
    case CvClear(l, h) => ClearOf(s, t, l, CvAppend(l, Some(h)))
    case CvAppend(l, f) =>
      To(s, t, if f.Some? then Wake(l, f.value, Sleep) else Blocked(l))
        .(list := s.list + [Entry(t, l, Cv)], listHolder := None)
    case SigMark(l, all) => MarkOf(s, t, l, all)
    case SigClear(l, last) =>
      To(if last then Put(s, l, BitsOf(s, l).(cv := false)) else s, t, SigSet(l))
    case SigSet(l) =>
      To(Put(s, l, BitsOf(s, l).(wait := true)), t, Idle).(has := s.has + {(t, l)})
    case Wake(l, h, c) => To(s, t, if c.Sleep? then Blocked(l) else Idle).(signalled := s.signalled + {h})
  }

  function Do(s: State, a: Action): State
    requires Can(s, a)
  {
    match a
    case FastLock(t, l, try) => FastLockOf(s, t, l, try)
    case Resume(t) =>
      To(s, t, Idle).(signalled := s.signalled - {t}, has := s.has + {(t, At(s, t).l)})
    case StartUnlock(t, l) => To(s, t, UnlockTry(l)).(has := s.has - {(t, l)})
    case StartCvWait(t, l) => To(s, t, CvSet(l)).(has := s.has - {(t, l)})
    case StartSignal(t, l, all) =>
      if !BitsOf(s, l).cv then s
      else To(s, t, SigEnter(l, all)).(has := s.has - {(t, l)})
    case TakeList(t) => TakeListOf(s, t)
    case Step(t) => StepOf(s, t)
  }

  predicate Init(s: State) {
    s == State(map[], [], None, map[], {}, map[], {}, map[])
  }

  predicate Run(ss: seq<State>, acts: seq<Action>) {
    && |ss| == |acts| + 1
    && Init(ss[0])
    && forall i :: 0 <= i < |acts| ==> Can(ss[i], acts[i]) && ss[i + 1] == Do(ss[i], acts[i])
  }
}
