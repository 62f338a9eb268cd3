/**
 * Pins, the delete mask and the wait id of the self-locking list's elements: one word per element that
 * says how many pins there are, whether a removal has begun, and whom to wake. The remover waits in it
 * for the last unpin; an iterator that comes too late to pin waits in it for the removal to end.
 *
 * `holds`, `remover`, `iters` and `counted` are auxiliary: who has pins, who masked the element, which
 * iterators wait behind the wait id, newest first, and which elements the list's count includes.
 */
module AtomicPins {
  import opened Base

  type Id = nat

  datatype Ref = Ref(pins: nat, mask: bool, wait: Option<Tid>)

  datatype Pc =
    | Idle
    | Insert(e: Id, pinned: bool)
    | Expose(e: Id, pinned: bool)
    | Masked(e: Id, more: bool)        // masked, and the list's count not yet lowered
    | Removing(e: Id)
    | Waiting(e: Id)
    | Deleting(e: Id)
    | Unlinking(e: Id)                 // has the element locked exclusively
    | Walking(e: Id)                   // has the masked element locked shared
    | Deferred(e: Id)
    | Fault

  datatype State = State(
    refs: map<Id, Ref>,
    count: nat,
    linked: set<Id>,
    pc: map<Tid, Pc>,
    woken: set<Tid>,
    holds: map<Id, multiset<Tid>>,
    remover: map<Id, Tid>,
    iters: map<Id, seq<Tid>>,
    counted: set<Id>)

  function At(s: State, t: Tid): Pc {
    if t in s.pc then s.pc[t] else Idle
  }

  /** An element that was never inserted looks like one that was removed: masked and unpinned. */
  function RefOf(s: State, e: Id): Ref {
    if e in s.refs then s.refs[e] else Ref(0, true, None)
  }

  function Holds(s: State, e: Id): multiset<Tid> {
    if e in s.holds then s.holds[e] else multiset{}
  }

  function Iters(s: State, e: Id): seq<Tid> {
    if e in s.iters then s.iters[e] else []
  }

  function To(s: State, t: Tid, p: Pc): State {
    s.(pc := s.pc[t := p])
  }

  function Put(s: State, e: Id, r: Ref, h: multiset<Tid>): State {
    s.(refs := s.refs[e := r], holds := s.holds[e := h])
  }

  datatype Action =
    | StartInsert(t: Tid, e: Id, pinned: bool)
    | Pin(t: Tid, e: Id)
    | Unpin(t: Tid, e: Id)
    | StartRemove(t: Tid, e: Id)
    | StartWalk(t: Tid, e: Id)
    | ForcePin(t: Tid)
    | Defer(t: Tid)
    | Leave(t: Tid)
    | Step(t: Tid)

  /** The thread has nothing to do with the element, but that it may have been woken after its removal. */
  predicate Clear(s: State, u: Tid, e: Id) {
    var p := At(s, u);
    p.Idle? || p.Fault? || p.e != e || (p.Deferred? && u in s.woken)
  }

  ghost predicate Can(s: State, a: Action) {
    var p := At(s, a.t);
    match a
    case StartInsert(_, e, _) => p.Idle? && e !in s.linked && forall u :: Clear(s, u, e)
    case Pin(_, e) => p.Idle? && e in s.linked
    case Unpin(t, e) => p.Idle? && t in Holds(s, e)
    case StartRemove(t, e) => p.Idle? && t in Holds(s, e)
    case StartWalk(_, e) =>
      p.Idle? && e in s.linked && RefOf(s, e).mask && forall u :: At(s, u) != Unlinking(e)
    case ForcePin(_) => p.Walking?
    case Defer(_) => p.Walking?
    case Leave(_) => p.Walking?
    case Step(t) =>
      || p.Insert? || p.Expose? || p.Masked? || p.Removing? || p.Unlinking?
      || (p.Waiting? && t in s.woken) || (p.Deferred? && t in s.woken)
      || (p.Deleting? && forall u :: At(s, u) != Walking(p.e))
  }

  function StartInsertOf(s: State, t: Tid, e: Id, pinned: bool): State {
    To(Put(s, e, Ref(if pinned then 1 else 0, true, None), if pinned then multiset{t} else multiset{}),
       t, Insert(e, pinned))
  }

  function PinOf(s: State, t: Tid, e: Id): State {
    var r := RefOf(s, e);
    if r.mask then s else To(Put(s, e, r.(pins := r.pins + 1), Holds(s, e) + multiset{t}), t, Idle)
  }

  /** The last unpin of a masked element wakes whoever the wait id names. */
  function UnpinOf(s: State, t: Tid, e: Id): State {
    var r := RefOf(s, e);
    if r.pins == 0 then To(s, t, Fault)
    else if r.mask && r.pins == 1 then
      if r.wait == None then To(s, t, Fault)
      else
        To(Put(s, e, Ref(0, true, None), Holds(s, e) - multiset{t}), t, Idle)
          .(woken := s.woken + {r.wait.value})
    else To(Put(s, e, r.(pins := r.pins - 1), Holds(s, e) - multiset{t}), t, Idle)
  }

  /** Only one removal gets to set the mask; alone with its pin it gives that up at once. */
  function StartRemoveOf(s: State, t: Tid, e: Id): State {
    var r := RefOf(s, e);
    if r.mask then s
    else if r.pins == 0 then To(s, t, Fault)
    else if r.pins == 1 then
      To(Put(s, e, r.(mask := true, pins := 0), Holds(s, e) - multiset{t}), t, Masked(e, false))
        .(remover := s.remover[e := t])
    else
      To(Put(s, e, r.(mask := true), Holds(s, e)), t, Masked(e, true)).(remover := s.remover[e := t])
  }

  function ForcePinOf(s: State, t: Tid): State
    requires At(s, t).Walking?
  {
    var e := At(s, t).e;
    var r := RefOf(s, e);
    if !r.mask then To(s, t, Fault)
    else if r.pins == 0 then s
    else To(Put(s, e, r.(pins := r.pins + 1), Holds(s, e) + multiset{t}), t, Idle)
  }

  /** Too late to pin: wait behind the wait id until the element is gone. */
  function DeferOf(s: State, t: Tid): State
    requires At(s, t).Walking?
  {
    var e := At(s, t).e;
    var r := RefOf(s, e);
    if r.pins != 0 then s
    else if !r.mask then To(s, t, Fault)
    else
      To(Put(s, e, r.(wait := Some(t)), Holds(s, e)), t, Deferred(e))
        .(iters := s.iters[e := [t] + Iters(s, e)])
  }

  function ExposeOf(s: State, t: Tid, e: Id, pinned: bool): State {
    var r := RefOf(s, e);
    if !r.mask || r.wait.Some? || (pinned && r.pins != 1) then To(s, t, Fault)
    else To(Put(s, e, r.(mask := false), Holds(s, e)), t, Idle).(linked := s.linked + {e})
  }

  /** The remover lets go of its own pin: it waits if there are others. */
  function RemoveWaitOf(s: State, t: Tid, e: Id): State {
    var r := RefOf(s, e);
    if r.wait.Some? || r.pins == 0 || !r.mask then To(s, t, Fault)
    else if r.pins == 1 then
      To(Put(s, e, r.(pins := 0), Holds(s, e) - multiset{t}), t, Deleting(e))
    else
      To(Put(s, e, r.(pins := r.pins - 1, wait := Some(t)), Holds(s, e) - multiset{t}), t, Waiting(e))
  }

  /** The element leaves the list, and every iterator that waits for that is woken. */
  function ClearOf(s: State, t: Tid, e: Id): State {
    var r := RefOf(s, e);
    if !r.mask || r.pins != 0 || (r.wait.Some? && Iters(s, e) == []) then To(s, t, Fault)
    else
      To(Put(s, e, r.(wait := None), Holds(s, e)), t, Idle)
        .(linked := s.linked - {e}, woken := s.woken + (set u | u in Iters(s, e)),
          iters := s.iters[e := []], remover := s.remover - {e})
  }

  ghost function StepOf(s: State, t: Tid): State
    requires Can(s, Step(t))
  {
    match At(s, t)
    case Insert(e, pinned) => To(s, t, Expose(e, pinned)).(count := s.count + 1, counted := s.counted + {e})
    case Expose(e, pinned) => ExposeOf(s, t, e, pinned)
    case Masked(e, more) =>
      if s.count == 0 then To(s, t, Fault)
      else
        To(s, t, if more then Removing(e) else Deleting(e))
          .(count := s.count - 1, counted := s.counted - {e})
    case Removing(e) => RemoveWaitOf(s, t, e)
    case Waiting(e) => To(s, t, Deleting(e)).(woken := s.woken - {t})
    case Deleting(e) => To(s, t, Unlinking(e))
    case Unlinking(e) => ClearOf(s, t, e)
    case Deferred(e) => To(s, t, Idle).(woken := s.woken - {t})
  }

  ghost function Do(s: State, a: Action): State
    requires Can(s, a)
  {
    match a
    case StartInsert(t, e, pinned) => StartInsertOf(s, t, e, pinned)
    case Pin(t, e) => PinOf(s, t, e)
    case Unpin(t, e) => UnpinOf(s, t, e)
    case StartRemove(t, e) => StartRemoveOf(s, t, e)
    case StartWalk(t, e) => To(s, t, Walking(e))
    case ForcePin(t) => ForcePinOf(s, t)
    case Defer(t) => DeferOf(s, t)
    case Leave(t) => To(s, t, Idle)
    case Step(t) => StepOf(s, t)
  }

  predicate Init(s: State) {
    s == State(map[], 0, {}, map[], {}, map[], map[], map[], {})
  }

  ghost predicate Run(ss: seq<State>, acts: seq<Action>) {
    && |ss| == |acts| + 1
    && Init(ss[0])
    && forall i :: 0 <= i < |acts| ==> Can(ss[i], acts[i]) && ss[i + 1] == Do(ss[i], acts[i])
  }
}
