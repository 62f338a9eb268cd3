/**
 * The doubly linked list that locks itself: every node has a reader-writer lock, and the head and the
 * tail of the list are nodes of their own. Inserts, removals and walks take locks along the list, or
 * against it by letting go of what they hold and checking again afterwards.
 *
 * The locks a thread holds and wants are what its program counter says; a lock is granted when no one
 * else holds it in conflict. An element that an operation stands on is pinned by the caller, and a
 * removal starts only when nothing stands on its element; that is a rule on starting here, and follows
 * from the pins in `AtomicListJoin`.
 * `list` and `mid` are auxiliary: the elements in order, and who has linked a new element behind a
 * node but not yet to its successor.
 */
module AtomicList {
  import opened Base

  type Id = nat

  datatype Node = Head | Tail | Elem(id: Id)

  /** What to do in front of a node: put a new element there, or take the node out. */
  datatype Kind = Insert(i: Id) | Delete

  datatype Pc =
    | Idle
    // an insert behind x: x is locked, then its successor n
    | AfterWant(x: Node, i: Id)
    | AfterHold(x: Node, i: Id)
    | AfterNext(x: Node, i: Id, n: Node)
    | AfterBoth(x: Node, i: Id, n: Node)
    // an insert in front of x, or the removal of x: x is locked, then its predecessor p
    | PreWant(x: Node, k: Kind)
    | PreHold(x: Node, k: Kind)
    | PreWait(x: Node, k: Kind, p: Node)
    | PreRelock(x: Node, k: Kind, p: Node)
    | PreBoth(x: Node, k: Kind, p: Node)
    | PreNext(x: Node, p: Node, n: Node)
    | PreAll(x: Node, p: Node, n: Node)
    | Clear(x: Node)
    | Clean(x: Node)
    // a walk forward
    | FwdWant(x: Node)
    | FwdHold(x: Node)
    | FwdNext(x: Node, n: Node)
    // a walk backward
    | BwdWant(x: Node)
    | BwdHold(x: Node)
    | BwdWait(x: Node, p: Node)
    | BwdRelock(x: Node, p: Node)
    | BwdBoth(x: Node, p: Node)
    | BwdDefer(x: Node)

  datatype State = State(
    next: map<Node, Node>,
    prev: map<Node, Node>,
    pc: map<Tid, Pc>,
    list: seq<Id>,
    mid: map<Node, Tid>)

  function At(s: State, t: Tid): Pc {
    if t in s.pc then s.pc[t] else Idle
  }

  function Next(s: State, n: Node): Node {
    if n in s.next then s.next[n] else Tail
  }

  function Prev(s: State, n: Node): Node {
    if n in s.prev then s.prev[n] else Head
  }

  function To(s: State, t: Tid, p: Pc): State {
    s.(pc := s.pc[t := p])
  }

  // ---------- locks ----------

  /** The nodes a thread has locked exclusively. */
  function Owns(p: Pc): set<Node> {
    match p
    case AfterHold(x, _) => {x}
    case AfterNext(x, _, _) => {x}
    case AfterBoth(x, _, n) => {x, n}
    case PreHold(x, _) => {x}
    case PreRelock(_, _, p) => {p}
    case PreBoth(x, _, p) => {x, p}
    case PreNext(x, p, _) => {x, p}
    case PreAll(x, p, n) => {x, p, n}
    case Clear(x) => {x}
    case _ => {}
  }

  /** The nodes a thread has locked shared. */
  function Reads(p: Pc): set<Node> {
    match p
    case FwdHold(x) => {x}
    case FwdNext(x, _) => {x}
    case BwdHold(x) => {x}
    case BwdRelock(_, p) => {p}
    case BwdBoth(x, p) => {x, p}
    case _ => {}
  }

  /** The lock a thread waits for. */
  function Wants(p: Pc): Option<Node> {
    match p
    case AfterWant(x, _) => Some(x)
    case AfterNext(_, _, n) => Some(n)
    case PreWant(x, _) => Some(x)
    case PreWait(_, _, p) => Some(p)
    case PreRelock(x, _, _) => Some(x)
    case PreNext(_, _, n) => Some(n)
    case FwdWant(x) => Some(x)
    case FwdNext(_, n) => Some(n)
    case BwdWant(x) => Some(x)
    case BwdWait(_, p) => Some(p)
    case BwdRelock(x, _) => Some(x)
    case _ => None
  }

  predicate WantsOwned(p: Pc) {
    p.AfterWant? || p.AfterNext? || p.PreWant? || p.PreWait? || p.PreRelock? || p.PreNext?
  }

  /** No one else holds the lock of `n` in conflict. */
  ghost predicate Free(s: State, t: Tid, n: Node, owned: bool) {
    forall u :: u != t ==> n !in Owns(At(s, u)) && (owned ==> n !in Reads(At(s, u)))
  }

  // ---------- which elements an operation relies on ----------

  /** The node that a pin, or the thread's own removal, keeps in the list. */
  function Stands(p: Pc): Option<Node> {
    match p
    case AfterWant(x, _) => Some(x)
    case AfterHold(x, _) => Some(x)
    case AfterNext(x, _, _) => Some(x)
    case AfterBoth(x, _, _) => Some(x)
    case PreWant(x, _) => Some(x)
    case PreHold(x, _) => Some(x)
    case PreWait(x, _, _) => Some(x)
    case PreRelock(x, _, _) => Some(x)
    case PreBoth(x, _, _) => Some(x)
    case PreNext(x, _, _) => Some(x)
    case PreAll(x, _, _) => Some(x)
    case FwdWant(x) => Some(x)
    case BwdWant(x) => Some(x)
    case BwdHold(x) => Some(x)
    case BwdWait(x, _) => Some(x)
    case BwdRelock(x, _) => Some(x)
    case BwdBoth(x, _) => Some(x)
    case BwdDefer(x) => Some(x)
    case _ => None
  }

  predicate Deletes(p: Pc, n: Node) {
    || ((p.PreWant? || p.PreHold? || p.PreWait? || p.PreRelock? || p.PreBoth?) && p.k == Delete && p.x == n)
    || ((p.PreNext? || p.PreAll? || p.Clear? || p.Clean?) && p.x == n)
  }

  /** The element a thread is putting in. */
  function Brings(p: Pc): Option<Id> {
    match p
    case AfterWant(_, i) => Some(i)
    case AfterHold(_, i) => Some(i)
    case AfterNext(_, i, _) => Some(i)
    case AfterBoth(_, i, _) => Some(i)
    case PreWant(_, k) => if k.Insert? then Some(k.i) else None
    case PreHold(_, k) => if k.Insert? then Some(k.i) else None
    case PreWait(_, k, _) => if k.Insert? then Some(k.i) else None
    case PreRelock(_, k, _) => if k.Insert? then Some(k.i) else None
    case PreBoth(_, k, _) => if k.Insert? then Some(k.i) else None
    case _ => None
  }

  /** The thread has to do with `n` in any way. */
  predicate Touches(p: Pc, n: Node) {
    || n in Owns(p) || n in Reads(p) || Wants(p) == Some(n) || Stands(p) == Some(n) || Deletes(p, n)
    || (n.Elem? && Brings(p) == Some(n.id))
  }

  predicate Listed(s: State, n: Node) {
    n.Elem? ==> n.id in s.list
  }

  /** A caller may stand on a node that is listed and that no one is removing. */
  ghost predicate Steady(s: State, n: Node) {
    Listed(s, n) && forall u :: !Deletes(At(s, u), n)
  }

  ghost predicate Unused(s: State, i: Id) {
    i !in s.list && forall u :: !Touches(At(s, u), Elem(i))
  }

  datatype Action =
    | StartAfter(t: Tid, x: Node, i: Id)
    | StartPre(t: Tid, x: Node, k: Kind)
    | StartFwd(t: Tid, x: Node)
    | StartBwd(t: Tid, x: Node)
    | Grant(t: Tid)
    | Step(t: Tid)
    | Stop(t: Tid)
    | Force(t: Tid, defer: bool)
    | Finish(t: Tid)

  ghost predicate Can(s: State, a: Action) {
    var p := At(s, a.t);
    match a
    case StartAfter(_, x, i) => p.Idle? && x != Tail && Steady(s, x) && Unused(s, i)
    case StartPre(t, x, k) =>
      && p.Idle? && x != Head && Steady(s, x)
      && (k.Insert? ==> Unused(s, k.i))
      && (k.Delete? ==> x.Elem? && forall u :: Stands(At(s, u)) != Some(x))
    case StartFwd(_, x) => p.Idle? && x != Tail && Steady(s, x)
    case StartBwd(_, x) => p.Idle? && x != Head && Steady(s, x)
    case Grant(t) => Wants(p).Some? && Free(s, t, Wants(p).value, WantsOwned(p))
    case Step(_) =>
      p.AfterHold? || p.AfterBoth? || p.PreHold? || p.PreBoth? || p.PreAll? || p.Clear? || p.FwdHold?
    case Stop(_) => p.FwdHold? || p.BwdHold? || p.BwdDefer?
    case Force(t, defer) =>
      || (p.BwdHold? && !defer && Prev(s, p.x) != Head)
      || (p.BwdBoth? && (defer || forall u :: !Deletes(At(s, u), p.p)))
    case Finish(t) => p.Clean? && forall u :: u != t ==> !Touches(At(s, u), p.x)
  }

  // ---------- what the steps do ----------

  /** A new element between two neighbours that are both locked. */
  function Linked(s: State, a: Node, i: Id, b: Node): State {
    s.(next := s.next[a := Elem(i)][Elem(i) := b], prev := s.prev[b := Elem(i)][Elem(i) := a])
  }

  /** The position of a node's element. */
  function Index(q: seq<Id>, i: Id): (k: nat)
    ensures k <= |q| && (k < |q| ==> q[k] == i) && (k == |q| <==> i !in q)
  {
    if q == [] then 0 else if q[0] == i then 0 else 1 + Index(q[1..], i)
  }

  /** How many elements are not behind the node. */
  function UpTo(q: seq<Id>, n: Node): (k: nat)
    ensures k <= |q|
  {
    match n
    case Head => 0
    case Tail => |q|
    case Elem(i) => if i in q then Index(q, i) + 1 else 0
  }

  function Inserted(q: seq<Id>, k: nat, i: Id): seq<Id>
    requires k <= |q|
  {
    q[..k] + [i] + q[k..]
  }

  function Without(q: seq<Id>, i: Id): seq<Id> {
    if i in q then q[..Index(q, i)] + q[Index(q, i) + 1..] else q
  }

  ghost function GrantOf(s: State, t: Tid): State
    requires Wants(At(s, t)).Some?
  {
    match At(s, t)
    case AfterWant(x, i) => To(s, t, AfterHold(x, i))
    case AfterNext(x, i, n) => To(s, t, AfterBoth(x, i, n))
    case PreWant(x, k) => To(s, t, PreHold(x, k))
    case PreWait(x, k, p) => To(s, t, PreRelock(x, k, p))
    case PreRelock(x, k, p) =>
      To(s, t, if Prev(s, x) == p then PreBoth(x, k, p) else PreHold(x, k))
    case PreNext(x, p, n) => To(s, t, PreAll(x, p, n))
    case FwdWant(x) => To(s, t, FwdHold(x))
    case FwdNext(_, n) => To(s, t, FwdHold(n))
    case BwdWant(x) => To(s, t, BwdHold(x))
    case BwdWait(x, p) => To(s, t, BwdRelock(x, p))
    case BwdRelock(x, p) => To(s, t, if Prev(s, x) == p then BwdBoth(x, p) else BwdHold(x))
  }

  ghost function StepOf(s: State, t: Tid): State
    requires Can(s, Step(t))
  {
    match At(s, t)
    case AfterHold(x, i) =>
      var n := Next(s, x);
      if x == Head then To(s, t, AfterNext(x, i, n))
      else
        To(s, t, AfterNext(x, i, n))
          .(next := s.next[x := Elem(i)][Elem(i) := n], prev := s.prev[Elem(i) := x], mid := s.mid[x := t])
    case AfterBoth(x, i, n) =>
      To(Linked(s, x, i, n), t, Idle)
        .(list := Inserted(s.list, UpTo(s.list, x), i), mid := s.mid - {x})
    case PreHold(x, k) =>
      var p := Prev(s, x);
      To(s, t, if Free(s, t, p, true) then PreBoth(x, k, p) else PreWait(x, k, p))
    case PreBoth(x, k, p) =>
      (match k
       case Insert(i) => To(Linked(s, p, i, x), t, Idle).(list := Inserted(s.list, UpTo(s.list, p), i))
       case Delete => To(s, t, PreNext(x, p, Next(s, x))))
    case PreAll(x, p, n) =>
      To(s, t, Clear(x))
        .(next := s.next[p := n], prev := s.prev[n := p],
          list := if x.Elem? then Without(s.list, x.id) else s.list)
    case Clear(x) => To(s, t, Clean(x))
    case FwdHold(x) => To(s, t, if Next(s, x) == Tail then Idle else FwdNext(x, Next(s, x)))
  }

  /**
   * The walk backward locks the predecessor at once, or waits for it without holding on. With both
   * locked it goes on to the predecessor, or defers to the removal of it.
   */
  ghost function ForceOf(s: State, t: Tid, defer: bool): State
    requires Can(s, Force(t, defer))
  {
    match At(s, t)
    case BwdHold(x) =>
      var p := Prev(s, x);
      To(s, t, if Free(s, t, p, false) then BwdBoth(x, p) else BwdWait(x, p))
    case BwdBoth(x, p) =>
      To(s, t, if defer then BwdDefer(x) else if x == Tail then BwdWant(p) else BwdHold(p))
  }

  ghost function Do(s: State, a: Action): State
    requires Can(s, a)
  {
    match a
    case StartAfter(t, x, i) => To(s, t, AfterWant(x, i))
    case StartPre(t, x, k) => To(s, t, PreWant(x, k))
    case StartFwd(t, x) => To(s, t, FwdWant(x))
    case StartBwd(t, x) => To(s, t, BwdWant(x))
    case Grant(t) => GrantOf(s, t)
    case Step(t) => StepOf(s, t)
    case Stop(t) => To(s, t, if At(s, t).BwdDefer? then BwdWant(At(s, t).x) else Idle)
    case Force(t, defer) => ForceOf(s, t, defer)
    case Finish(t) => To(s, t, Idle)
  }

  predicate Init(s: State) {
    s == State(map[], map[], map[], [], map[])
  }

  ghost predicate Run(ss: seq<State>, acts: seq<Action>) {
    && |ss| == |acts| + 1
    && Init(ss[0])
    && forall i :: 0 <= i < |acts| ==> Can(ss[i], acts[i]) && ss[i + 1] == Do(ss[i], acts[i])
  }
}
