/**
 * The 4-byte mutex: a word with the owner's id and the newest waiter's id, and `next` and `prev` links
 * in the waiters. Waiters push themselves with `next` only; the owner's walk fills in `prev` when it
 * unlocks, hands the mutex to the oldest waiter with one swap, and unlinks it afterwards.
 *
 * `line`, `tail`, `giver`, `arrived`, `owned` and the indices in a program counter are auxiliary: the
 * waiters oldest first, the new owner while it is still linked, who is handing the mutex over, who
 * arrived, and who came to own the mutex.
 */
module Mutex {
  import opened Base

  /** The id that means "no waiter". */
  const NIL: nat := 0xFFFF

  datatype Pc =
    | Idle
    | Owning
    | Blocked
    | Unlock
    | Walk(seen: nat, cur: Tid, m: nat, j: nat)      // seen is line[m], cur is line[j]
    | Swap(seen: nat, found: Option<Tid>, m: nat)
    | Unlink(heir: Tid)
    | Wake(heir: Tid)
    | Fault

  datatype State = State(
    owner: nat,
    waitq: nat,
    next: map<Tid, nat>,
    prev: map<Tid, nat>,
    pc: map<Tid, Pc>,
    signalled: set<Tid>,
    line: seq<Tid>,
    tail: seq<Tid>,
    giver: Option<Tid>,
    arrived: seq<Tid>,
    owned: seq<Tid>)

  function At(s: State, t: Tid): Pc {
    if t in s.pc then s.pc[t] else Idle
  }

  function Next(s: State, t: Tid): nat {
    if t in s.next then s.next[t] else NIL
  }

  function Prev(s: State, t: Tid): nat {
    if t in s.prev then s.prev[t] else NIL
  }

  function To(s: State, t: Tid, p: Pc): State {
    s.(pc := s.pc[t := p])
  }

  datatype Action =
    | TryLock(t: Tid)
    | Lock(t: Tid)
    | Resume(t: Tid)
    | StartUnlock(t: Tid)
    | ReadWord(t: Tid)
    | StepWalk(t: Tid)
    | DoSwap(t: Tid)
    | DoUnlink(t: Tid)
    | Signal(t: Tid)

  predicate Can(s: State, a: Action) {
    var p := At(s, a.t);
    match a
    case TryLock(t) => p.Idle? && t < NIL
    case Lock(t) => p.Idle? && t < NIL
    case Resume(t) => p.Blocked? && t in s.signalled
    case StartUnlock(_) => p.Owning?
    case ReadWord(_) => p.Unlock?
    case StepWalk(_) => p.Walk?
    case DoSwap(_) => p.Swap?
    case DoUnlink(_) => p.Unlink?
    case Signal(_) => p.Wake?
  }

  function Taken(s: State, t: Tid): State {
    To(s, t, Owning).(owner := t, arrived := s.arrived + [t], owned := s.owned + [t])
  }

  function TryLockOf(s: State, t: Tid): State {
    if s.owner != NIL then s
    else if s.waitq != NIL then To(s, t, Fault)
    else Taken(s, t)
  }

  function LockOf(s: State, t: Tid): State {
    if Next(s, t) != NIL || Prev(s, t) != NIL || s.owner == t then To(s, t, Fault)
    else if s.owner == NIL then (if s.waitq != NIL then To(s, t, Fault) else Taken(s, t))
    else
      To(s, t, Blocked).(next := s.next[t := s.waitq], waitq := t, line := s.line + [t],
                         arrived := s.arrived + [t])
  }

  function ReadWordOf(s: State, t: Tid): State {
    if s.owner != t then To(s, t, Fault)
    else if s.waitq == NIL then To(s, t, Swap(NIL, None, 0))
    else
      var m := if s.line == [] then 0 else |s.line| - 1;
      To(s, t, Walk(s.waitq, s.waitq, m, m))
  }

  /** One step of the walk: the link back from the next waiter is set. */
  function StepWalkOf(s: State, t: Tid): State
    requires At(s, t).Walk?
  {
    var p := At(s, t);
    var n := Next(s, p.cur);
    if n == NIL then To(s, t, Swap(p.seen, Some(p.cur), p.m))
    else if Prev(s, n) != NIL && Prev(s, n) != p.cur then To(s, t, Fault)
    else
      To(s, t, Walk(p.seen, n, p.m, if p.j == 0 then 0 else p.j - 1)).(prev := s.prev[n := p.cur])
  }

  function SwapOf(s: State, t: Tid): State
    requires At(s, t).Swap?
  {
    var p := At(s, t);
    if s.owner != t || s.waitq != p.seen then ReadWordOf(s, t)
    else
      match p.found
      case None =>
        if s.waitq != NIL then To(s, t, Fault) else To(s, t, Idle).(owner := NIL)
      case Some(h) =>
        var rest := if s.line == [] then [] else s.line[1..];
        To(s, t, Unlink(h))
          .(owner := h, waitq := if p.seen == h then NIL else s.waitq, line := rest,
            tail := if rest == [] then [] else [h], giver := Some(t),
            owned := s.owned + [h])
  }

  /** Takes the new owner out of the list of ids. */
  function UnlinkOf(s: State, t: Tid): State
    requires At(s, t).Unlink?
  {
    var h := At(s, t).heir;
    var n, p := Next(s, h), Prev(s, h);
    if (n != NIL && Prev(s, n) != h) || (p != NIL && Next(s, p) != h) then To(s, t, Fault)
    else
      var prev1 := if n != NIL then s.prev[n := p] else s.prev;
      var next1 := if p != NIL then s.next[p := n] else s.next;
      To(s, t, Wake(h)).(next := next1[h := NIL], prev := prev1[h := NIL], tail := [])
  }

  function Do(s: State, a: Action): State
    requires Can(s, a)
  {
    match a
    case TryLock(t) => TryLockOf(s, t)
    case Lock(t) => LockOf(s, t)
    case Resume(t) => To(s, t, if s.owner == t then Owning else Fault).(signalled := s.signalled - {t})
    case StartUnlock(t) => To(s, t, Unlock)
    case ReadWord(t) => ReadWordOf(s, t)
    case StepWalk(t) => StepWalkOf(s, t)
    case DoSwap(t) => SwapOf(s, t)
    case DoUnlink(t) => UnlinkOf(s, t)
    case Signal(t) => To(s, t, Idle).(signalled := s.signalled + {At(s, t).heir}, giver := None)
  }

  predicate Init(s: State) {
    s == State(NIL, NIL, map[], map[], map[], {}, [], [], None, [], [])
  }

  predicate Run(ss: seq<State>, acts: seq<Action>) {
    && |ss| == |acts| + 1
    && Init(ss[0])
    && forall i :: 0 <= i < |acts| ==> Can(ss[i], acts[i]) && ss[i + 1] == Do(ss[i], acts[i])
  }
}
