/**
 * The 2-byte mutex: one 16-bit word per mutex that names the newest waiter, or the owner when no one
 * waits, and one `next` link per thread that serves every mutex the thread ever waits for. The owner
 * is stored nowhere else.
 *
 * `line`, `arrived`, `owned`, `has` and `waker` are auxiliary: a mutex's line is its owner followed by
 * its waiters, oldest first; the others record who pushed itself on the word, who came to own it,
 * which callers are between a lock and an unlock, and who last handed the mutex over.
 */
module Mutex2b {
  import opened Base

  /** A mutex, named by its address. */
  type Mid = nat

  /** The id that means "no waiter". */
  const NIL: nat := 0xFFFF

  datatype Pc =
    | Idle
    | Lock(m: Mid)
    | LockSwap(m: Mid, seen: nat)
    | Blocked(m: Mid)
    | Unlock(m: Mid, found: Option<Tid>)
    | UnlockWalk(m: Mid, seen: nat, cur: Tid)
    | UnlockSwap(m: Mid, seen: nat, found: Option<Tid>)
    | HandOver(m: Mid, heir: Tid)
    | Wake(m: Mid, heir: Tid)
    | Fault

  datatype State = State(
    word: map<Mid, nat>,
    next: map<Tid, nat>,
    pc: map<Tid, Pc>,
    signalled: set<Tid>,
    line: map<Mid, seq<Tid>>,
    arrived: map<Mid, seq<Tid>>,
    owned: map<Mid, seq<Tid>>,
    has: set<(Tid, Mid)>,
    waker: map<Mid, Tid>)

  function At(s: State, t: Tid): Pc {
    if t in s.pc then s.pc[t] else Idle
  }

  function Next(s: State, t: Tid): nat {
    if t in s.next then s.next[t] else NIL
  }

  function Word(s: State, m: Mid): nat {
    if m in s.word then s.word[m] else NIL
  }

  function Line(s: State, m: Mid): seq<Tid> {
    if m in s.line then s.line[m] else []
  }

  function Arrived(s: State, m: Mid): seq<Tid> {
    if m in s.arrived then s.arrived[m] else []
  }

  function Owned(s: State, m: Mid): seq<Tid> {
    if m in s.owned then s.owned[m] else []
  }

  function To(s: State, t: Tid, p: Pc): State {
    s.(pc := s.pc[t := p])
  }

  datatype Action =
    | TryLock(t: Tid, m: Mid)
    | StartLock(t: Tid, m: Mid)
    | SetNext(t: Tid)
    | SwapLock(t: Tid)
    | Resume(t: Tid)
    | StartUnlock(t: Tid, m: Mid)
    | ReadWord(t: Tid)
    | StepWalk(t: Tid)
    | SwapUnlock(t: Tid)
    | ClearNext(t: Tid)
    | Signal(t: Tid)

  /** Callers do not relock what they have, and unlock only that. */
  predicate Can(s: State, a: Action) {
    var p := At(s, a.t);
    match a
    case TryLock(t, m) => p.Idle? && t < NIL && (t, m) !in s.has
    case StartLock(t, m) => p.Idle? && t < NIL && (t, m) !in s.has
    case SetNext(_) => p.Lock?
    case SwapLock(_) => p.LockSwap?
    case Resume(t) => p.Blocked? && t in s.signalled
    case StartUnlock(t, m) => p.Idle? && (t, m) in s.has
    case ReadWord(_) => p.Unlock?
    case StepWalk(_) => p.UnlockWalk?
    case SwapUnlock(_) => p.UnlockSwap?
    case ClearNext(_) => p.HandOver?
    case Signal(_) => p.Wake?
  }

  /** The word takes `t`: as the owner when it was free, else as the newest waiter. */
  function Pushed(s: State, t: Tid, m: Mid): State {
    var free := Word(s, m) == NIL;
    s.(word := s.word[m := t], line := s.line[m := Line(s, m) + [t]],
       arrived := s.arrived[m := Arrived(s, m) + [t]],
       owned := if free then s.owned[m := Owned(s, m) + [t]] else s.owned,
       has := if free then s.has + {(t, m)} else s.has,
       pc := s.pc[t := if free then Idle else Blocked(m)])
  }

  function TryLockOf(s: State, t: Tid, m: Mid): State {
    if Word(s, m) != NIL then s else Pushed(s, t, m)
  }

  function SetNextOf(s: State, t: Tid): State
    requires At(s, t).Lock?
  {
    var m := At(s, t).m;
    if Word(s, m) == t then To(s, t, Fault)
    else To(s, t, LockSwap(m, Word(s, m))).(next := s.next[t := Word(s, m)])
  }

  function SwapLockOf(s: State, t: Tid): State
    requires At(s, t).LockSwap?
  {
    var p := At(s, t);
    if Word(s, p.m) != p.seen then To(s, t, Lock(p.m)) else Pushed(s, t, p.m)
  }

  function ResumeOf(s: State, t: Tid): State
    requires At(s, t).Blocked?
  {
    To(s, t, Idle).(signalled := s.signalled - {t}, has := s.has + {(t, At(s, t).m)})
  }

  function ReadWordOf(s: State, t: Tid): State
    requires At(s, t).Unlock?
  {
    var p := At(s, t);
    var seen := Word(s, p.m);
    if seen == t || p.found.Some? then To(s, t, UnlockSwap(p.m, seen, p.found))
    else if seen == NIL then To(s, t, Fault)
    else To(s, t, UnlockWalk(p.m, seen, seen))
  }

  /** One step of the walk to the waiter whose link is the owner. */
  function StepWalkOf(s: State, t: Tid): State
    requires At(s, t).UnlockWalk?
  {
    var p := At(s, t);
    var n := Next(s, p.cur);
    if n == t then To(s, t, UnlockSwap(p.m, p.seen, Some(p.cur)))
    else if n == NIL then To(s, t, Fault)
    else To(s, t, UnlockWalk(p.m, p.seen, n))
  }

  /** With no waiter the word becomes free; with one, the swap only checks that it is unchanged. */
  function SwapUnlockOf(s: State, t: Tid): State
    requires At(s, t).UnlockSwap?
  {
    var p := At(s, t);
    if p.seen == t then
      if Word(s, p.m) != p.seen then To(s, t, Unlock(p.m, p.found))
      else if p.found.Some? then To(s, t, Fault)
      else To(s, t, Idle).(word := s.word[p.m := NIL], line := s.line[p.m := []])
    else if p.found == None || Next(s, p.found.value) != t then To(s, t, Fault)
    else if Word(s, p.m) != p.seen then To(s, t, Unlock(p.m, p.found))
    else To(s, t, HandOver(p.m, p.found.value))
  }

  /** Clearing the heir's link is what makes it the owner. */
  function ClearNextOf(s: State, t: Tid): State
    requires At(s, t).HandOver?
  {
    var p := At(s, t);
    To(s, t, Wake(p.m, p.heir))
      .(next := s.next[p.heir := NIL],
        line := s.line[p.m := if Line(s, p.m) == [] then [] else Line(s, p.m)[1..]],
        owned := s.owned[p.m := Owned(s, p.m) + [p.heir]],
        waker := s.waker[p.m := t])
  }

  function Do(s: State, a: Action): State
    requires Can(s, a)
  {
    match a
    case TryLock(t, m) => TryLockOf(s, t, m)
    case StartLock(t, m) => To(s, t, Lock(m))
    case SetNext(t) => SetNextOf(s, t)
    case SwapLock(t) => SwapLockOf(s, t)
    case Resume(t) => ResumeOf(s, t)
    case StartUnlock(t, m) => To(s, t, Unlock(m, None)).(has := s.has - {(t, m)})
    case ReadWord(t) => ReadWordOf(s, t)
    case StepWalk(t) => StepWalkOf(s, t)
    case SwapUnlock(t) => SwapUnlockOf(s, t)
    case ClearNext(t) => ClearNextOf(s, t)
    case Signal(t) => To(s, t, Idle).(signalled := s.signalled + {At(s, t).heir})
  }

  predicate Init(s: State) {
    s == State(map[], map[], map[], {}, map[], map[], map[], {}, map[])
  }

  predicate Run(ss: seq<State>, acts: seq<Action>) {
    && |ss| == |acts| + 1
    && Init(ss[0])
    && forall i :: 0 <= i < |acts| ==> Can(ss[i], acts[i]) && ss[i + 1] == Do(ss[i], acts[i])
  }
}
