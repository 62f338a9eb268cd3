/**
 * The lock-free stack: a word with the id of the top element and a tag that counts swaps, and one
 * `next` field per element. Reading the top, reading an element's `next` and each swap are steps of
 * their own, and whoever holds an element may overwrite its `next` at will.
 *
 * `stack`, `held` and `swaps` are auxiliary: the elements from the top down, the holder of each
 * other element, and the number of swaps so far, of which the tag is the remainder.
 */
module LfStack {
  import opened Base

  /** An element, counted from 1. */
  type Id = nat

  /** The id that means "no element". */
  const NONE: nat := 0

  /** What a thread read of the word, and (auxiliary) when. */
  datatype Seen = Seen(top: nat, tag: nat, at: nat)

  datatype Pc =
    | Idle
    | Push(id: Id, seen: Seen)
    | PushSwap(id: Id, seen: Seen)
    | Pop(seen: Seen)
    | PopSwap(seen: Seen, next: nat)
    | Popped(id: Id)

  datatype State = State(
    tags: nat,                       // how many tags there are; the field has 32 bits
    top: nat,
    tag: nat,
    next: map<Id, nat>,
    pc: map<Tid, Pc>,
    stack: seq<Id>,
    held: map<Id, Tid>,
    swaps: nat)

  function At(s: State, t: Tid): Pc {
    if t in s.pc then s.pc[t] else Idle
  }

  function Next(s: State, id: Id): nat {
    if id in s.next then s.next[id] else NONE
  }

  function To(s: State, t: Tid, p: Pc): State {
    s.(pc := s.pc[t := p])
  }

  function Look(s: State): Seen {
    Seen(s.top, s.tag, s.swaps)
  }

  datatype Action =
    | StartPush(t: Tid, id: Id)
    | LinkPush(t: Tid)
    | SwapPush(t: Tid)
    | StartPop(t: Tid)
    | ReadNext(t: Tid)
    | SwapPop(t: Tid)
    | FinishPop(t: Tid)
    | Overwrite(t: Tid, id: Id, v: nat)
    | Give(t: Tid, id: Id, to: Tid)

  predicate Can(s: State, a: Action) {
    var p := At(s, a.t);
    match a
    case StartPush(t, id) => p.Idle? && id in s.held && s.held[id] == t
    case LinkPush(_) => p.Push?
    case SwapPush(_) => p.PushSwap?
    case StartPop(_) => p.Idle?
    case ReadNext(_) => p.Pop?
    case SwapPop(_) => p.PopSwap?
    case FinishPop(_) => p.Popped?
    case Overwrite(t, id, _) => p.Idle? && id in s.held && s.held[id] == t
    case Give(t, id, _) => p.Idle? && id in s.held && s.held[id] == t
  }

  predicate Matches(s: State, w: Seen) {
    s.top == w.top && s.tag == w.tag
  }

  function Bumped(s: State): State
    requires s.tags > 0
  {
    s.(tag := (s.tag + 1) % s.tags, swaps := s.swaps + 1)
  }

  function SwapPushOf(s: State, t: Tid): State
    requires At(s, t).PushSwap? && s.tags > 0
  {
    var p := At(s, t);
    if !Matches(s, p.seen) then To(s, t, Push(p.id, Look(s)))
    else To(Bumped(s), t, Idle).(top := p.id, stack := [p.id] + s.stack, held := s.held - {p.id})
  }

  function SwapPopOf(s: State, t: Tid): State
    requires At(s, t).PopSwap? && s.tags > 0
  {
    var p := At(s, t);
    if !Matches(s, p.seen) then To(s, t, if s.top == NONE then Idle else Pop(Look(s)))
    else
      To(Bumped(s), t, Popped(p.seen.top))
        .(top := p.next, stack := if s.stack == [] then [] else s.stack[1..],
          held := s.held[p.seen.top := t])
  }

  function Do(s: State, a: Action): State
    requires Can(s, a) && s.tags > 0
  {
    var p := At(s, a.t);
    match a
    case StartPush(t, id) => To(s, t, Push(id, Look(s)))
    case LinkPush(t) => To(s, t, PushSwap(p.id, p.seen)).(next := s.next[p.id := p.seen.top])
    case SwapPush(t) => SwapPushOf(s, t)
    case StartPop(t) => To(s, t, if s.top == NONE then Idle else Pop(Look(s)))
    case ReadNext(t) => To(s, t, PopSwap(p.seen, Next(s, p.seen.top)))
    case SwapPop(t) => SwapPopOf(s, t)
    case FinishPop(t) => To(s, t, Idle).(next := s.next[p.id := NONE])
    case Overwrite(t, id, v) => s.(next := s.next[id := v])
    case Give(t, id, to) => s.(held := s.held[id := to])
  }

  // ---------- the invariant ----------

  predicate LinkOk(s: State, i: nat)
    requires i < |s.stack|
  {
    Next(s, s.stack[i]) == if i + 1 < |s.stack| then s.stack[i + 1] else NONE
  }

  predicate ChainOk(s: State) {
    && s.tags > 0 && s.tag == s.swaps % s.tags
    && Distinct(s.stack) && NONE !in s.stack
    && s.top == (if s.stack == [] then NONE else s.stack[0])
    && (forall i :: 0 <= i < |s.stack| ==> LinkOk(s, i))
    && (forall id :: id in s.held ==> id !in s.stack && id != NONE)
  }

  /** What was read of the word is still so if no swap has happened since. */
  predicate SeenOk(s: State, w: Seen)
    requires s.tags > 0
  {
    && w.at <= s.swaps && w.tag == w.at % s.tags
    && (w.at == s.swaps ==> Matches(s, w))
  }

  predicate Mine(s: State, t: Tid, id: Id) {
    id in s.held && s.held[id] == t
  }

  predicate ThreadOk(s: State, t: Tid)
    requires s.tags > 0
  {
    match At(s, t)
    case Idle => true
    case Push(id, w) => Mine(s, t, id) && SeenOk(s, w)
    case PushSwap(id, w) => Mine(s, t, id) && SeenOk(s, w) && Next(s, id) == w.top
    case Pop(w) => SeenOk(s, w) && w.top != NONE
    case PopSwap(w, n) => SeenOk(s, w) && w.top != NONE && (w.at == s.swaps ==> n == Next(s, w.top))
    case Popped(id) => Mine(s, t, id)
  }

  ghost predicate Inv(s: State) {
    ChainOk(s) && forall t :: ThreadOk(s, t)
  }

  /** Fewer swaps than there are tags since the thread read the word it is about to swap. */
  predicate InWindow(s: State, a: Action) {
    var p := At(s, a.t);
    && (a.SwapPush? && p.PushSwap? ==> s.swaps < p.seen.at + s.tags)
    && (a.SwapPop? && p.PopSwap? ==> s.swaps < p.seen.at + s.tags)
  }

  /** Within the window, a swap that succeeds found the stack as it was read. */
  lemma {:induction false} TagTells(n: nat, a: nat, b: nat)
    requires n > 0 && a <= b < a + n && a % n == b % n
    ensures a == b
  {
    var q, r := a / n, b / n;
    assert b - a == n * (r - q);
    if r > q {
      MulGe(n, r - q);
    }
    if r < q {
      MulGe(n, q - r);
    }
  }

  lemma {:induction false} MulGe(n: nat, k: int)
    requires k >= 1
    ensures n * k >= n
  {
  }

  // ---------- steps ----------

  lemma {:induction false} SwapPushInv(s: State, s': State, t: Tid)
    requires Inv(s) && At(s, t).PushSwap? && s' == SwapPushOf(s, t) && InWindow(s, SwapPush(t))
    ensures Inv(s')
    ensures Matches(s, At(s, t).seen) ==> s'.stack == [At(s, t).id] + s.stack
  {
    var p := At(s, t);
    assert ThreadOk(s, t);
    if Matches(s, p.seen) {
      TagTells(s.tags, p.seen.at, s.swaps);
      PushChain(s, s', t, p.id);
    } else {
      ChainKept(s, s');
    }
    forall u
      ensures ThreadOk(s', u)
    {
      assert ThreadOk(s, u);
    }
  }

  lemma {:induction false} PushChain(s: State, s': State, t: Tid, id: Id)
    requires ChainOk(s) && Mine(s, t, id) && Next(s, id) == s.top
    requires s'.stack == [id] + s.stack && s'.top == id && s'.held == s.held - {id} && s'.next == s.next
    requires s'.tags == s.tags && s'.swaps == s.swaps + 1 && s'.tag == (s.tag + 1) % s.tags
    ensures ChainOk(s')
  {
    NextTag(s.tags, s.swaps);
    forall i | 0 <= i < |s'.stack|
      ensures LinkOk(s', i)
    {
      if i > 0 {
        assert LinkOk(s, i - 1);
      }
    }
  }

  lemma {:induction false} NextTag(n: nat, k: nat)
    requires n > 0
    ensures (k % n + 1) % n == (k + 1) % n
  {
    var q, r := k / n, k % n;
    if r + 1 == n {
      assert k + 1 == n * (q + 1);
      ModZero(n, q + 1);
    } else {
      assert k + 1 == n * q + (r + 1);
      ModRest(n, q, r + 1);
    }
  }

  lemma {:induction false} ModRest(n: nat, q: nat, r: nat)
    requires r < n
    ensures (n * q + r) % n == r
  {
    var x := n * q + r;
    var d := x / n - q;
    assert x % n - r == -(n * d);
    if d > 0 {
      MulGe(n, d);
    }
    if d < 0 {
      MulGe(n, -d);
    }
  }

  lemma {:induction false} ModZero(n: nat, q: nat)
    requires n > 0
    ensures (n * q) % n == 0
  {
    ModRest(n, q, 0);
  }

  lemma {:induction false} PopChain(s: State, s': State, t: Tid)
    requires ChainOk(s) && s.stack != []
    requires s'.stack == s.stack[1..] && s'.top == Next(s, s.stack[0]) && s'.next == s.next
    requires s'.held == s.held[s.stack[0] := t]
    requires s'.tags == s.tags && s'.swaps == s.swaps + 1 && s'.tag == (s.tag + 1) % s.tags
    ensures ChainOk(s')
  {
    NextTag(s.tags, s.swaps);
    assert LinkOk(s, 0);
    assert s.stack == [s.stack[0]] + s.stack[1..];
    forall i | 0 <= i < |s'.stack|
      ensures LinkOk(s', i)
    {
      assert LinkOk(s, i + 1);
    }
  }

  lemma {:induction false} SwapPopInv(s: State, s': State, t: Tid)
    requires Inv(s) && At(s, t).PopSwap? && s' == SwapPopOf(s, t) && InWindow(s, SwapPop(t))
    ensures Inv(s')
    ensures Matches(s, At(s, t).seen) ==>
      s.stack == [At(s, t).seen.top] + s'.stack && At(s, t).seen.top !in s.held
  {
    var p := At(s, t);
    assert ThreadOk(s, t);
    if Matches(s, p.seen) {
      TagTells(s.tags, p.seen.at, s.swaps);
      PopChain(s, s', t);
      assert s.stack[0] in s.stack;
    } else {
      ChainKept(s, s');
    }
    forall u
      ensures ThreadOk(s', u)
    {
      assert ThreadOk(s, u);
    }
  }

  lemma {:induction false} ChainKept(s: State, s': State)
    requires ChainOk(s) && s' == s.(pc := s'.pc, held := s'.held) && s'.held.Keys == s.held.Keys
    ensures ChainOk(s')
  {
    forall i | 0 <= i < |s'.stack|
      ensures LinkOk(s', i)
    {
      assert LinkOk(s, i);
    }
  }

  /** Writing the `next` of an element that is held leaves the chain alone. */
  lemma {:induction false} HeldWrite(s: State, s': State, id: Id, v: nat)
    requires ChainOk(s) && id in s.held && s'.next == s.next[id := v]
    requires s'.stack == s.stack && s'.top == s.top && s'.tag == s.tag && s'.tags == s.tags
    requires s'.swaps == s.swaps && s'.held == s.held
    ensures ChainOk(s')
    ensures s.top != NONE ==> Next(s', s.top) == Next(s, s.top)
  {
    if s.top != NONE {
      assert s.stack[0] in s.stack;
    }
    forall i | 0 <= i < |s'.stack|
      ensures LinkOk(s', i)
    {
      assert LinkOk(s, i);
      assert s.stack[i] in s.stack;
    }
  }

  lemma {:induction false} LinkPushInv(s: State, s': State, t: Tid)
    requires Inv(s) && At(s, t).Push? && s' == Do(s, LinkPush(t))
    ensures Inv(s')
  {
    assert ThreadOk(s, t);
    HeldWrite(s, s', At(s, t).id, At(s, t).seen.top);
    forall u
      ensures ThreadOk(s', u)
    {
      assert ThreadOk(s, u);
    }
  }

  lemma {:induction false} OwnerInv(s: State, a: Action, s': State)
    requires Inv(s) && Can(s, a) && s' == Do(s, a) && (a.FinishPop? || a.Overwrite?)
    ensures Inv(s')
  {
    assert ThreadOk(s, a.t);
    if a.FinishPop? {
      HeldWrite(s, s', At(s, a.t).id, NONE);
    } else {
      HeldWrite(s, s', a.id, a.v);
    }
    forall u
      ensures ThreadOk(s', u)
    {
      assert ThreadOk(s, u);
    }
  }

  lemma {:induction false} QuietInv(s: State, a: Action, s': State)
    requires Inv(s) && Can(s, a) && s' == Do(s, a)
    requires a.StartPush? || a.StartPop? || a.ReadNext? || a.Give?
    ensures Inv(s') && s'.stack == s.stack
  {
    assert ThreadOk(s, a.t);
    ChainKept(s, s');
    forall u
      ensures ThreadOk(s', u)
    {
      assert ThreadOk(s, u);
    }
  }

  lemma {:induction false} StepInv(s: State, a: Action, s': State)
    requires Inv(s) && Can(s, a) && s' == Do(s, a) && InWindow(s, a)
    ensures Inv(s')
  {
    match a
    case LinkPush(t) => LinkPushInv(s, s', t);
    case SwapPush(t) => SwapPushInv(s, s', t);
    case SwapPop(t) => SwapPopInv(s, s', t);
    case FinishPop(_) => OwnerInv(s, a, s');
    case Overwrite(_, _, _) => OwnerInv(s, a, s');
    case _ => QuietInv(s, a, s');
  }

  // ---------- runs ----------

  /** Any stack, with every other element held by someone. */
  predicate Init(s: State) {
    ChainOk(s) && s.pc == map[] && s.swaps == 0
  }

  predicate Run(ss: seq<State>, acts: seq<Action>) {
    && |ss| == |acts| + 1
    && Init(ss[0])
    && forall i :: 0 <= i < |acts| ==>
         ss[i].tags > 0 && Can(ss[i], acts[i]) && ss[i + 1] == Do(ss[i], acts[i])
  }

  predicate Windowed(ss: seq<State>, acts: seq<Action>) {
    |ss| == |acts| + 1 && forall i :: 0 <= i < |acts| ==> InWindow(ss[i], acts[i])
  }

  lemma {:induction false} RunInv(ss: seq<State>, acts: seq<Action>, k: nat)
    requires Run(ss, acts) && Windowed(ss, acts) && k < |ss|
    ensures Inv(ss[k])
  {
    if k > 0 {
      RunInv(ss, acts, k - 1);
      assert InWindow(ss[k - 1], acts[k - 1]);
      StepInv(ss[k - 1], acts[k - 1], ss[k]);
    }
  }

  predicate Swaps(s: State, a: Action) {
    var p := At(s, a.t);
    (a.SwapPush? && p.PushSwap? && Matches(s, p.seen)) || (a.SwapPop? && p.PopSwap? && Matches(s, p.seen))
  }

  /**
   * Under any interleaving, the links from the top spell the stack; a successful swap pushes the
   * element its thread holds or pops the top element, which no one held; nothing else changes the stack.
   */
  lemma {:induction false} StepIsPushOrPop(ss: seq<State>, acts: seq<Action>, k: nat)
    requires Run(ss, acts) && Windowed(ss, acts) && k < |acts|
    ensures ChainOk(ss[k]) && ss[k].tags > 0 && Can(ss[k], acts[k])
    ensures var s, s', a := ss[k], ss[k + 1], acts[k];
      if !Swaps(s, a) then s'.stack == s.stack
      else if a.SwapPush? then s'.stack == [At(s, a.t).id] + s.stack && Mine(s, a.t, At(s, a.t).id)
      else
        var id := At(s, a.t).seen.top;
        s.stack == [id] + s'.stack && id !in s.held && Mine(s', a.t, id)
  {
    RunInv(ss, acts, k);
    var s, s', a := ss[k], ss[k + 1], acts[k];
    assert InWindow(s, a) && ThreadOk(s, a.t);
    match a
    case SwapPush(t) => SwapPushInv(s, s', t);
    case SwapPop(t) => SwapPopInv(s, s', t);
    case _ =>
  }

  /** No element is on the stack and held, and a pop that finds no element finds the stack empty. */
  lemma {:induction false} HeldIsOff(ss: seq<State>, acts: seq<Action>, k: nat, id: Id)
    requires Run(ss, acts) && Windowed(ss, acts) && k < |ss|
    ensures !(id in ss[k].held && id in ss[k].stack)
    ensures ss[k].top == NONE <==> ss[k].stack == []
  {
    RunInv(ss, acts, k);
    assert ss[k].stack != [] ==> ss[k].stack[0] in ss[k].stack;
  }
}
