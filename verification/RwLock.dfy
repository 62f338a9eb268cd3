/**
 * The 4-byte reader-writer lock as a transition system: a word holding a write flag, a reader
 * count and the id of the newest waiter, and one `next` link and tag per thread's waiter.
 *
 * Each compare-and-swap on the word or on a `next` link is one action, and so is each step of a
 * walk that other threads can disturb. A walk of the only holder is one action; its parameter is
 * the list the links spell. `queue`, `phys`, `readers`, `writer`, `transit` and `keeper` are
 * auxiliary: they only record. `queue` is the queue a caller reasons about and `phys` the part of
 * it that hangs off the word; both newest first. A local variable that names a private list of
 * waiters is shown as that list.
 */
module RwLock {
  import opened Base
  import opened RwSpec

  /** The id that means "no waiter". */
  const NIL: nat := 0xFFFF

  /** What a releasing thread does when it is done. */
  datatype Cont = Leave | SleepAs(mode: Mode)

  datatype Pc =
    | Idle
    | Asleep(mode: Mode)
    | Reading
    | Writing
    | Unlock(excl: bool, cont: Cont)
    | Scan(excl: bool, cont: Cont)                 // about to form the list of waiters to wake
    | Cut(excl: bool, cont: Cont, oldR: nat, oldQ: nat, taken: seq<Req>, whole: bool)
    | TryUpgrade(cont: Cont)                       // last reader of an unfair lock, with waiters
    | UnfairLook(cont: Cont)                       // writer of an unfair lock, with waiters
    | UnfairDown(cont: Cont)
    | Split(cont: Cont, all: seq<Req>)             // took the whole queue off the lock
    | Reinsert(cont: Cont, back: seq<Req>, count: nat)
    | ReinsertWalk(cont: Cont, back: seq<Req>, count: nat, oldR: nat, oldQ: nat, cur: Tid)
    | ReinsertLink(cont: Cont, back: seq<Req>, count: nat, oldR: nat, oldQ: nat, cur: Tid)
    | ReinsertSwap(cont: Cont, back: seq<Req>, count: nat, oldR: nat, oldQ: nat, newQ: nat)
    | Wake(cont: Cont)
    | UpStart
    | UpWalk(cur: Tid)
    | UpLink(cur: Tid)
    | DownWalk(cur: Tid)
    | Fault

  datatype State = State(
    unfair: bool,
    wlocked: bool,
    count: nat,
    waitq: nat,
    next: map<Tid, nat>,             // not listed: NIL
    tag: map<Tid, Mode>,             // not listed: Shared
    pc: map<Tid, Pc>,                // not listed: Idle
    waking: map<Tid, Tid>,
    signalled: set<Tid>,
    queue: seq<Req>,
    phys: seq<Req>,
    readers: set<Tid>,
    writer: Option<Tid>,
    transit: Option<Tid>,
    keeper: Option<Tid>)

  function At(s: State, t: Tid): Pc {
    if t in s.pc then s.pc[t] else Idle
  }

  function Next(s: State, t: Tid): nat {
    if t in s.next then s.next[t] else NIL
  }

  function Tag(s: State, t: Tid): Mode {
    if t in s.tag then s.tag[t] else Shared
  }

  function After(c: Cont): Pc {
    match c
    case Leave => Idle
    case SleepAs(m) => Asleep(m)
  }

  function To(s: State, t: Tid, p: Pc): State {
    s.(pc := s.pc[t := p])
  }

  function Last<T>(q: seq<T>): T
    requires q != []
  {
    q[|q| - 1]
  }

  function First(q: seq<Req>, last: nat): nat {
    if q == [] then last else q[0].t
  }

  predicate LinkOk(s: State, q: seq<Req>, i: nat, last: nat)
    requires i < |q|
  {
    && Tag(s, q[i].t) == q[i].mode
    && Next(s, q[i].t) == if i + 1 < |q| then q[i + 1].t else last
  }

  /** From `id`, the links and tags of the waiters spell `q` and then lead to `last`. */
  predicate Spells(s: State, id: nat, q: seq<Req>, last: nat) {
    id == First(q, last) && forall i :: 0 <= i < |q| ==> LinkOk(s, q, i, last)
  }

  /** A walk from the word's newest waiter to the end reads the list `q`. */
  predicate Reads(s: State, q: seq<Req>) {
    Spells(s, s.waitq, q, NIL) && forall i :: 0 <= i < |q| ==> q[i].t < NIL
  }

  datatype Action =
    | Lock(t: Tid, mode: Mode, try: bool)
    | Resume(t: Tid)
    | StartUnlock(t: Tid)
    | DoUnlock(t: Tid)
    | DoScan(t: Tid, q: seq<Req>)
    | SwapCut(t: Tid)
    | DoTryUpgrade(t: Tid)
    | DoUnfairLook(t: Tid, q: seq<Req>)
    | DoUnfairDown(t: Tid, q: seq<Req>)
    | DoSplit(t: Tid)
    | DoReinsert(t: Tid)
    | StepReinsert(t: Tid)
    | LinkReinsert(t: Tid)
    | SwapReinsert(t: Tid)
    | Signal(t: Tid, x: Tid)
    | WakeDone(t: Tid)
    | StartUpgrade(t: Tid)
    | BeginUpWalk(t: Tid)
    | StepUpWalk(t: Tid)
    | LinkUpgrade(t: Tid)
    | StartDowngrade(t: Tid)
    | StepDownWalk(t: Tid)

  predicate Can(s: State, a: Action) {
    var p := At(s, a.t);
    match a
    case Lock(_, m, _) => p.Idle? && m != Upgrade && a.t < NIL
    case Resume(_) => p.Asleep? && a.t in s.signalled
    case StartUnlock(_) => p.Reading? || p.Writing?
    case DoUnlock(_) => p.Unlock?
    case DoScan(_, q) => p.Scan? && Reads(s, q)
    case SwapCut(_) => p.Cut?
    case DoTryUpgrade(_) => p.TryUpgrade?
    case DoUnfairLook(_, q) => p.UnfairLook? && Reads(s, q)
    case DoUnfairDown(_, q) => p.UnfairDown? && Reads(s, q)
    case DoSplit(_) => p.Split?
    case DoReinsert(_) => p.Reinsert?
    case StepReinsert(_) => p.ReinsertWalk?
    case LinkReinsert(_) => p.ReinsertLink?
    case SwapReinsert(_) => p.ReinsertSwap?
    case Signal(_, x) => p.Wake? && x in s.waking && s.waking[x] == a.t
    case WakeDone(_) => p.Wake? && a.t !in s.waking.Values
    case StartUpgrade(_) => p.Reading?
    case BeginUpWalk(_) => p.UpStart?
    case StepUpWalk(_) => p.UpWalk?
    case LinkUpgrade(_) => p.UpLink?
    case StartDowngrade(_) => p.Writing?
    case StepDownWalk(_) => p.DownWalk?
  }

  // ---------- acquiring ----------

  /** Grant at once, or push the waiter on the queue, or (try) do nothing. */
  function TryOrPush(s: State, t: Tid, m: Mode, try: bool): State {
    if m == Shared && !s.wlocked && (s.waitq == NIL || s.unfair) then
      To(s, t, Reading).(count := s.count + 1, readers := s.readers + {t})
    else if m == Exclusive && !s.wlocked && s.count == 0 && s.waitq == NIL then
      To(s, t, Writing).(wlocked := true, writer := Some(t))
    else if try then s
    else
      To(s, t, Asleep(m)).(next := s.next[t := s.waitq], tag := s.tag[t := m], waitq := t,
                           queue := [Req(t, m)] + s.queue, phys := [Req(t, m)] + s.phys)
  }

  function ResumeOf(s: State, t: Tid): State
    requires At(s, t).Asleep?
  {
    To(s, t, if At(s, t).mode == Shared then Reading else Writing)
      .(signalled := s.signalled - {t})
  }

  // ---------- releasing ----------

  function StartUnlockOf(s: State, t: Tid): State {
    To(s, t, Unlock(At(s, t).Writing?, Leave))
  }

  function UnlockOf(s: State, t: Tid): State
    requires At(s, t).Unlock?
  {
    var p := At(s, t);
    if p.excl then
      if s.count != 0 || !s.wlocked then To(s, t, Fault)
      else if s.waitq != NIL then
        To(s, t, if s.unfair then UnfairLook(p.cont) else Scan(true, p.cont))
      else To(s, t, After(p.cont)).(wlocked := false, writer := None)
    else
      if s.count == 0 || s.wlocked then To(s, t, Fault)
      else if s.count == 1 && s.waitq != NIL then
        To(s, t, if s.unfair then TryUpgrade(p.cont) else Scan(false, p.cont))
      else To(s, t, After(p.cont)).(count := s.count - 1, readers := s.readers - {t})
  }

  /**
   * Forms the list to wake: the oldest waiters that may enter together. When waiters remain
   * behind them, the list is cut off in place before the word is swapped.
   */
  function ScanOf(s: State, t: Tid, q: seq<Req>): State
    requires At(s, t).Scan?
  {
    var p := At(s, t);
    if p.excl && (s.count != 0 || !s.wlocked) then To(s, t, Fault)
    else if !p.excl && (s.count == 0 || s.wlocked) then To(s, t, Fault)
    else if q == [] then To(s, t, Fault)
    else if !p.excl && s.count > 1 then
      To(s, t, After(p.cont)).(count := s.count - 1, readers := s.readers - {t})
    else
      var k := |q| - FairServed(q);
      var s' := To(s, t, Cut(p.excl, p.cont, s.count, s.waitq, q[k..], k == 0))
                  .(keeper := Some(t));
      if k == 0 then s' else s'.(next := s.next[q[k - 1].t := NIL], phys := q[..k])
  }

  /** The queue without its `n` oldest waiters. */
  function Without(q: seq<Req>, n: nat): seq<Req> {
    if n <= |q| then q[..|q| - n] else []
  }

  /** The swap succeeds: the lock belongs to the waiters cut off. */
  function HandedTo(s: State, t: Tid, p: Pc): State
    requires p.Cut? && p.taken != []
  {
    var shared := Last(p.taken).mode == Shared;
    To(s, t, Wake(p.cont))
      .(wlocked := !shared,
        count := if shared then |p.taken| else 0,
        waitq := if p.whole then NIL else s.waitq,
        phys := if p.whole then [] else s.phys,
        queue := Without(s.queue, |p.taken|),
        readers := if shared then Threads(p.taken) else {},
        writer := if shared then None else Some(Last(p.taken).t),
        transit := None,
        waking := s.waking + (map x | x in Threads(p.taken) :: t),
        keeper := None)
  }

  function SwapCutOf(s: State, t: Tid): State
    requires At(s, t).Cut?
  {
    var p := At(s, t);
    if p.taken == [] then To(s, t, Fault)
    else if s.count == p.oldR && s.waitq == p.oldQ && s.wlocked == p.excl then HandedTo(s, t, p)
    else if p.whole then To(s, t, Scan(p.excl, p.cont)).(keeper := None)
    else To(s, t, Cut(p.excl, p.cont, s.count, s.waitq, p.taken, false))
  }

  function TryUpgradeOf(s: State, t: Tid): State
    requires At(s, t).TryUpgrade?
  {
    var c := At(s, t).cont;
    if s.count == 0 || s.wlocked then To(s, t, Fault)
    else if s.count == 1 then
      To(s, t, Scan(true, c)).(count := 0, wlocked := true, readers := s.readers - {t},
                               transit := Some(t))
    else To(s, t, After(c)).(count := s.count - 1, readers := s.readers - {t})
  }

  function UnfairLookOf(s: State, t: Tid, q: seq<Req>): State
    requires At(s, t).UnfairLook?
  {
    var c := At(s, t).cont;
    if q == [] then To(s, t, Fault)
    else To(s, t, if Last(q).mode == Shared then UnfairDown(c) else Scan(true, c))
  }

  /** One swap: become a reader, and take the whole queue off the lock. */
  function TakenOff(s: State, t: Tid, c: Cont, q: seq<Req>): State {
    To(s, t, Split(c, q))
      .(wlocked := false, count := 1, waitq := NIL, phys := [],
        queue := NotShared(q),
        readers := Threads(OnlyShared(q)), writer := None,
        waking := s.waking + (map x | x in Threads(OnlyShared(q)) :: t),
        keeper := Some(t))
  }

  function UnfairDownOf(s: State, t: Tid, q: seq<Req>): State
    requires At(s, t).UnfairDown?
  {
    if s.count != 0 || !s.wlocked then To(s, t, Fault) else TakenOff(s, t, At(s, t).cont, q)
  }

  /** Relinks the threads of `q` in order, ending in `last`. */
  function Link(next: map<Tid, nat>, q: seq<Req>, last: nat): map<Tid, nat> {
    if q == [] then next
    else Link(next, q[1..], last)[q[0].t := if |q| == 1 then last else q[1].t]
  }

  function Reversed(q: seq<Req>): seq<Req> {
    if q == [] then [] else Reversed(q[1..]) + [q[0]]
  }

  /** Separates readers from writers; only the detached links change. */
  function SplitOf(s: State, t: Tid): State
    requires At(s, t).Split?
  {
    var p := At(s, t);
    var readers, back := OnlyShared(p.all), NotShared(p.all);
    To(s, t, Reinsert(p.cont, back, |readers|))
      .(next := Link(Link(s.next, Reversed(readers), NIL), back, NIL))
  }

  function ReinsertOf(s: State, t: Tid): State
    requires At(s, t).Reinsert?
  {
    var p := At(s, t);
    if p.back == [] then
      To(s, t, ReinsertSwap(p.cont, [], p.count, s.count, s.waitq, s.waitq))
    else if s.waitq == NIL then
      To(s, t, ReinsertSwap(p.cont, p.back, p.count, s.count, s.waitq, p.back[0].t))
    else
      To(s, t, ReinsertWalk(p.cont, p.back, p.count, s.count, s.waitq, s.waitq))
  }

  /** The writers hang in the queue again, behind `cur`; the word keeps its newest waiter. */
  function Spliced(s: State, t: Tid, p: Pc, next: map<Tid, nat>): State
    requires p.ReinsertWalk? || p.ReinsertLink?
  {
    To(s, t, ReinsertSwap(p.cont, [], p.count, p.oldR, p.oldQ, p.oldQ))
      .(next := next, phys := s.queue)
  }

  function StepReinsertOf(s: State, t: Tid): State
    requires At(s, t).ReinsertWalk?
  {
    var p := At(s, t);
    var n := Next(s, p.cur);
    if p.back == [] then To(s, t, Fault)
    else if n != NIL then
      if Tag(s, n) == Upgrade then
        if Next(s, n) != NIL then To(s, t, Fault)
        else Spliced(s, t, p, s.next[Last(p.back).t := n][p.cur := p.back[0].t])
      else To(s, t, ReinsertWalk(p.cont, p.back, p.count, p.oldR, p.oldQ, n))
    else if Tag(s, p.cur) == Upgrade then
      if p.oldQ != p.cur then To(s, t, Fault)
      else
        To(s, t, ReinsertSwap(p.cont, p.back, p.count, p.oldR, p.oldQ, p.back[0].t))
          .(next := s.next[Last(p.back).t := p.cur])
    else
      To(s, t, ReinsertLink(p.cont, p.back, p.count, p.oldR, p.oldQ, p.cur))
  }

  /** The swap of the oldest waiter's link: it may lose to an upgrade. */
  function LinkReinsertOf(s: State, t: Tid): State
    requires At(s, t).ReinsertLink?
  {
    var p := At(s, t);
    var n := Next(s, p.cur);
    if p.back == [] then To(s, t, Fault)
    else if n == NIL then Spliced(s, t, p, s.next[p.cur := p.back[0].t])
    else if Next(s, n) != NIL || Tag(s, n) != Upgrade then To(s, t, Fault)
    else Spliced(s, t, p, s.next[Last(p.back).t := n][p.cur := p.back[0].t])
  }

  function SwapReinsertOf(s: State, t: Tid): State
    requires At(s, t).ReinsertSwap?
  {
    var p := At(s, t);
    if s.wlocked || s.count == 0 || p.count == 0 then To(s, t, Fault)
    else if s.count == p.oldR && s.waitq == p.oldQ then
      To(s, t, Wake(p.cont))
        .(count := s.count + p.count - 1, waitq := p.newQ,
          phys := if p.back == [] then s.phys else s.queue, keeper := None)
    else To(s, t, Reinsert(p.cont, p.back, p.count))
  }

  function SignalOf(s: State, x: Tid): State {
    s.(waking := s.waking - {x}, signalled := s.signalled + {x},
       next := if Tag(s, x) == Shared then s.next[x := NIL] else s.next)
  }

  // ---------- upgrade and downgrade ----------

  function StartUpgradeOf(s: State, t: Tid): State {
    if Next(s, t) != NIL then To(s, t, Fault)
    else if s.waitq != NIL then To(s, t, UpStart).(tag := s.tag[t := Upgrade])
    else if s.count == 1 then
      To(s, t, Writing).(wlocked := true, count := 0, readers := s.readers - {t}, writer := Some(t))
    else if s.count == 0 then To(s, t, Fault)
    else
      To(s, t, Asleep(Upgrade))
        .(tag := s.tag[t := Upgrade], waitq := t, count := s.count - 1,
          readers := s.readers - {t},
          queue := s.queue + [Req(t, Upgrade)], phys := [Req(t, Upgrade)])
  }

  function BeginUpWalkOf(s: State, t: Tid): State {
    if s.waitq == NIL || s.wlocked then To(s, t, Fault) else To(s, t, UpWalk(s.waitq))
  }

  function StepUpWalkOf(s: State, t: Tid): State
    requires At(s, t).UpWalk?
  {
    var cur := At(s, t).cur;
    if Next(s, cur) != NIL then
      if Tag(s, cur) == Upgrade then To(s, t, Fault) else To(s, t, UpWalk(Next(s, cur)))
    else if Tag(s, cur) == Upgrade then To(s, t, Reading)
    else To(s, t, UpLink(cur))
  }

  function LinkUpgradeOf(s: State, t: Tid): State
    requires At(s, t).UpLink?
  {
    var cur := At(s, t).cur;
    if Next(s, cur) == NIL then
      To(s, t, Unlock(false, SleepAs(Upgrade)))
        .(next := s.next[cur := t],
          queue := s.queue + [Req(t, Upgrade)], phys := s.phys + [Req(t, Upgrade)])
    else if Tag(s, Next(s, cur)) == Upgrade then To(s, t, Reading)
    else To(s, t, UpStart)
  }

  function StartDowngradeOf(s: State, t: Tid): State {
    if !s.wlocked || s.count != 0 then To(s, t, Fault)
    else if s.waitq != NIL then To(s, t, DownWalk(s.waitq))
    else To(s, t, Reading).(wlocked := false, count := 1, readers := {t}, writer := None)
  }

  function StepDownWalkOf(s: State, t: Tid): State
    requires At(s, t).DownWalk?
  {
    var cur := At(s, t).cur;
    if Next(s, cur) != NIL then To(s, t, DownWalk(Next(s, cur)))
    else if Next(s, t) != NIL then To(s, t, Fault)
    else
      To(s, t, Unlock(true, SleepAs(Shared)))
        .(next := s.next[cur := t], tag := s.tag[t := Shared],
          queue := s.queue + [Req(t, Shared)], phys := s.phys + [Req(t, Shared)])
  }

  function Do(s: State, a: Action): State
    requires Can(s, a)
  {
    match a
    case Lock(t, m, try) => TryOrPush(s, t, m, try)
    case Resume(t) => ResumeOf(s, t)
    case StartUnlock(t) => StartUnlockOf(s, t)
    case DoUnlock(t) => UnlockOf(s, t)
    case DoScan(t, q) => ScanOf(s, t, q)
    case SwapCut(t) => SwapCutOf(s, t)
    case DoTryUpgrade(t) => TryUpgradeOf(s, t)
    case DoUnfairLook(t, q) => UnfairLookOf(s, t, q)
    case DoUnfairDown(t, q) => UnfairDownOf(s, t, q)
    case DoSplit(t) => SplitOf(s, t)
    case DoReinsert(t) => ReinsertOf(s, t)
    case StepReinsert(t) => StepReinsertOf(s, t)
    case LinkReinsert(t) => LinkReinsertOf(s, t)
    case SwapReinsert(t) => SwapReinsertOf(s, t)
    case Signal(_, x) => SignalOf(s, x)
    case WakeDone(t) => To(s, t, After(At(s, t).cont))
    case StartUpgrade(t) => StartUpgradeOf(s, t)
    case BeginUpWalk(t) => BeginUpWalkOf(s, t)
    case StepUpWalk(t) => StepUpWalkOf(s, t)
    case LinkUpgrade(t) => LinkUpgradeOf(s, t)
    case StartDowngrade(t) => StartDowngradeOf(s, t)
    case StepDownWalk(t) => StepDownWalkOf(s, t)
  }

  predicate Init(s: State) {
    s == State(s.unfair, false, 0, NIL, map[], map[], map[], map[], {}, [], [], {}, None, None, None)
  }

  predicate Run(ss: seq<State>, acts: seq<Action>) {
    && |ss| == |acts| + 1
    && Init(ss[0])
    && forall i :: 0 <= i < |acts| ==> Can(ss[i], acts[i]) && ss[i + 1] == Do(ss[i], acts[i])
  }
}
