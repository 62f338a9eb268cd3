/** Setting the lock-free stack up, naming its elements, and what the tag is for. */
module LfStackUse {
  import opened Base
  import opened LfStack

  // ---------- ids, in the machine's arithmetic ----------

  const TWO32: nat := 0x1_0000_0000
  const TWO64: nat := 0x1_0000_0000_0000_0000

  function Add32(a: nat, b: nat): nat {
    (a + b) % TWO32
  }

  /** The check made when the stack is set up. */
  predicate InitCheck(num: nat) {
    Add32(num, 1) <= TWO32 - 1
  }

  /** The check made on an id before it is turned into an address. */
  predicate IdCheck(num: nat, id: Id) {
    1 <= id < Add32(num, 1)
  }

  function IdToObj(base: nat, size: nat, id: Id): Option<nat> {
    if id == NONE then None else Some((base + (id - 1) * size) % TWO64)
  }

  function Offset(base: nat, obj: nat): nat {
    (obj - base) % TWO64
  }

  /** The quotient is cut off to 32 bits. */
  function Index(base: nat, size: nat, obj: nat): nat
    requires size > 0
  {
    (Offset(base, obj) / size) % TWO32
  }

  /** The checks made on an object before it is pushed. */
  predicate ObjCheck(base: nat, num: nat, size: nat, obj: nat)
    requires size > 0
  {
    Offset(base, obj) % size == 0 && Index(base, size, obj) < num
  }

  function ObjToId(base: nat, size: nat, obj: nat): Id
    requires size > 0
  {
    Add32(Index(base, size, obj), 1)
  }

  /**
   * The check at set-up refuses no number of elements; the check on ids lets every id of an element
   * through if and only if there are fewer elements than 2^32 - 1.
   */
  lemma {:induction false} IdChecks(num: nat)
    requires num < TWO32
    ensures InitCheck(num)
    ensures (forall id :: 1 <= id <= num ==> IdCheck(num, id)) <==> num < TWO32 - 1
  {
    if num == TWO32 - 1 {
      assert !IdCheck(num, 1);
    }
  }

  /** With 2^32 - 1 elements the check on ids fails for each of them. */
  lemma {:induction false} LargestStack(num: nat, id: Id)
    requires num == TWO32 - 1 && 1 <= id <= num
    ensures InitCheck(num) && !IdCheck(num, id)
  {
  }

  lemma {:induction false} DivExact(size: nat, i: nat)
    requires size > 0
    ensures (i * size) / size == i && (i * size) % size == 0
  {
    ModRest(size, i, 0);
    var q := (size * i) / size;
    assert i * size == size * i + 0 && size * q == size * i;
    if q > i {
      MulGe(size, q - i);
    } else if q < i {
      MulGe(size, i - q);
    }
  }

  lemma {:induction false} MulMono(a: nat, b: nat, size: nat)
    requires a < b
    ensures a * size + size <= b * size
  {
    assert (b - a) * size == b * size - a * size;
    MulGe(size, b - a);
    assert size * (b - a) == (b - a) * size;
  }

  /** No address of the array wraps. */
  lemma {:induction false} Unwrapped(base: nat, at: nat)
    requires base + at < TWO64
    ensures Offset(base, base + at) == at && (base + at) % TWO64 == base + at
  {
  }

  /** For an array that lies in the address space: every id names an element, and the element that id. */
  lemma {:induction false} IdRoundTrip(base: nat, num: nat, size: nat, id: Id)
    requires size > 0 && 1 <= id <= num < TWO32 && base + num * size <= TWO64
    ensures IdToObj(base, size, id) == Some(base + (id - 1) * size)
    ensures ObjCheck(base, num, size, base + (id - 1) * size)
    ensures ObjToId(base, size, base + (id - 1) * size) == id
  {
    var at := (id - 1) * size;
    MulMono(id - 1, num, size);
    DivExact(size, id - 1);
    Unwrapped(base, at);
    IndexIs(base, size, base + at, id - 1);
  }

  lemma {:induction false} IndexIs(base: nat, size: nat, obj: nat, q: nat)
    requires size > 0 && Offset(base, obj) / size == q < TWO32
    ensures Index(base, size, obj) == q && (q + 1 < TWO32 ==> ObjToId(base, size, obj) == q + 1)
  {
  }

  /** Two addresses, given by their distance from the base, of which the first does not wrap. */
  lemma {:induction false} SameAddress(base: nat, at: nat, obj: nat)
    requires base + at < TWO64 && obj < TWO64
    ensures base + at == obj <==> at == Offset(base, obj)
  {
    var off := if obj >= base then obj - base else obj - base + TWO64;
    assert Offset(base, obj) == off;
  }

  lemma {:induction false} SameProduct(i: nat, q: nat, size: nat)
    requires size > 0
    ensures i * size == q * size <==> i == q
  {
    if i < q {
      MulMono(i, q, size);
    } else if q < i {
      MulMono(q, i, size);
    }
  }

  lemma {:induction false} ExactQuotient(off: nat, size: nat)
    requires size > 0 && off % size == 0
    ensures off == (off / size) * size
  {
    var q := off / size;
    assert off == size * q + off % size;
    assert q * size == size * q;
  }

  /**
   * An address that passes the checks comes back from its id if and only if it is less than 2^32
   * elements behind the base: further on, the cut-off index names another element.
   */
  lemma {:induction false} ObjRoundTrip(base: nat, num: nat, size: nat, obj: nat)
    requires size > 0 && num < TWO32 && base + num * size <= TWO64 && obj < TWO64
    requires ObjCheck(base, num, size, obj)
    ensures IdToObj(base, size, ObjToId(base, size, obj)) == Some(obj) <==>
      Offset(base, obj) / size < TWO32
  {
    var off := Offset(base, obj);
    var q, i := off / size, Index(base, size, obj);
    ExactQuotient(off, size);
    MulMono(i, num, size);
    var at := i * size;
    Unwrapped(base, at);
    SameAddress(base, at, obj);
    SameProduct(i, q, size);
    CutOff(q);
    assert ObjToId(base, size, obj) == i + 1;
  }

  lemma {:induction false} CutOff(q: nat)
    ensures q % TWO32 == q <==> q < TWO32
  {
  }

  // ---------- setting up ----------

  function Down(n: nat): seq<Id> {
    if n == 0 then [] else [n] + Down(n - 1)
  }

  lemma {:induction false} DownIs(n: nat)
    ensures |Down(n)| == n && forall i :: 0 <= i < n ==> Down(n)[i] == n - i
  {
    if n > 0 {
      DownIs(n - 1);
    }
  }

  /** The loop that links all elements: the last of the array ends up on top. */
  method Populate(num: nat, next: array<nat>) returns (top: nat)
    requires next.Length == num + 1
    modifies next
    ensures top == num
    ensures forall id :: 1 <= id <= num ==> next[id] == id - 1
  {
    top := NONE;
    for i := 0 to num
      invariant top == i
      invariant forall id :: 1 <= id <= i ==> next[id] == id - 1
    {
      next[i + 1] := top;
      top := i + 1;
    }
  }

  /** Links set up by that loop are a full stack to start from. */
  lemma {:induction false} PopulatedIsInit(s: State, num: nat)
    requires s.tags > 0 && s.tag == 0 && s.swaps == 0 && s.pc == map[] && s.held == map[]
    requires s.top == num && s.stack == Down(num)
    requires forall id :: 1 <= id <= num ==> Next(s, id) == id - 1
    ensures Init(s)
  {
    DownIs(num);
    ModRest(s.tags, 0, 0);
    forall i | 0 <= i < |s.stack|
      ensures LinkOk(s, i)
    {
      assert Next(s, s.stack[i]) == s.stack[i] - 1;
    }
  }

  // ---------- why the window is needed ----------

  /** Steps of which each swap is made within its window. */
  predicate Steps(ss: seq<State>, acts: seq<Action>) {
    && |ss| == |acts| + 1
    && forall i :: 0 <= i < |acts| ==> Step(ss[i], acts[i], ss[i + 1]) && InWindow(ss[i], acts[i])
  }

  predicate Step(s: State, a: Action, s': State) {
    s.tags > 0 && Can(s, a) && s' == Do(s, a)
  }

  /** Continues a run by one action. */
  lemma {:induction false} Then(ss: seq<State>, acts: seq<Action>, a: Action, s': State)
      returns (ss': seq<State>, acts': seq<Action>)
    requires Steps(ss, acts) && Step(ss[|acts|], a, s') && InWindow(ss[|acts|], a)
    ensures Steps(ss', acts') && ss'[0] == ss[0] && ss'[|acts'|] == s'
  {
    ss', acts' := ss + [s'], acts + [a];
    forall i | 0 <= i < |acts'|
      ensures Step(ss'[i], acts'[i], ss'[i + 1]) && InWindow(ss'[i], acts'[i])
    {
      if i < |acts| {
        assert ss'[i] == ss[i] && ss'[i + 1] == ss[i + 1] && acts'[i] == acts[i];
      }
    }
  }

  /**
   * One of the states below, with `n` tags and after `w` swaps: thread 1 has read, before any swap, that
   * 1 is on top of 2; thread 2, at `p`, has everything that is not on the stack.
   */
  function Scene(n: nat, w: nat, stack: seq<Id>, next: map<Id, nat>, p: Pc): State
    requires n > 0
  {
    State(n, Top(stack), w % n, next, map[1 := PopSwap(Seen(1, 0, 0), 2), 2 := p], stack,
          HeldBeside(stack), w)
  }

  function HeldBeside(stack: seq<Id>): map<Id, Tid> {
    map id | id in {1, 2, 3} && id !in stack :: 2
  }

  lemma {:induction false} HeldAround(q: seq<Id>, x: Id)
    requires x in {1, 2, 3} && x !in q
    ensures HeldBeside(q) == HeldBeside([x] + q)[x := 2] && HeldBeside([x] + q) == HeldBeside(q) - {x}
  {
  }

  function Top(stack: seq<Id>): nat {
    if stack == [] then NONE else stack[0]
  }

  function Now(n: nat, w: nat, stack: seq<Id>): Seen
    requires n > 0
  {
    Seen(Top(stack), w % n, w)
  }

  lemma {:induction false} PopRest(n: nat, w: nat, q: seq<Id>, x: Id, next: map<Id, nat>)
      returns (ss: seq<State>, acts: seq<Action>)
    requires n > 0 && x in {1, 2, 3} && x !in q && x in next && next[x] == Top(q)
    ensures Steps(ss, acts) && ss[0] == Scene(n, w, [x] + q, next, Pop(Now(n, w, [x] + q)))
    ensures ss[|acts|] == Scene(n, w + 1, q, next[x := NONE], Idle)
  {
    var seen := Now(n, w, [x] + q);
    ss, acts := [Scene(n, w, [x] + q, next, Pop(seen))], [];
    ss, acts := Then(ss, acts, ReadNext(2), Scene(n, w, [x] + q, next, PopSwap(seen, Top(q))));
    PopSwaps(n, w, q, x, next);
    ss, acts := Then(ss, acts, SwapPop(2), Scene(n, w + 1, q, next, Popped(x)));
    FinishPops(n, w + 1, q, x, next);
    ss, acts := Then(ss, acts, FinishPop(2), Scene(n, w + 1, q, next[x := NONE], Idle));
  }

  lemma {:induction false} FinishPops(n: nat, w: nat, q: seq<Id>, x: Id, next: map<Id, nat>)
    requires n > 0
    ensures Step(Scene(n, w, q, next, Popped(x)), FinishPop(2), Scene(n, w, q, next[x := NONE], Idle))
  {
    var s, s' := Scene(n, w, q, next, Popped(x)), Scene(n, w, q, next[x := NONE], Idle);
    assert s'.pc == s.pc[2 := Idle];
  }

  lemma {:induction false} PopSteps(n: nat, w: nat, q: seq<Id>, x: Id, next: map<Id, nat>)
      returns (ss: seq<State>, acts: seq<Action>)
    requires n > 0 && x in {1, 2, 3} && x !in q && x in next && next[x] == Top(q)
    ensures Steps(ss, acts) && ss[0] == Scene(n, w, [x] + q, next, Idle)
    ensures ss[|acts|] == Scene(n, w + 1, q, next[x := NONE], Idle)
  {
    ss, acts := [Scene(n, w, [x] + q, next, Idle)], [];
    ss, acts := Then(ss, acts, StartPop(2), Scene(n, w, [x] + q, next, Pop(Now(n, w, [x] + q))));
    var ss2, acts2 := PopRest(n, w, q, x, next);
    ss, acts := Join(ss, acts, ss2, acts2);
  }

  lemma {:induction false} PopSwaps(n: nat, w: nat, q: seq<Id>, x: Id, next: map<Id, nat>)
    requires n > 0 && x in {1, 2, 3} && x !in q
    ensures Step(Scene(n, w, [x] + q, next, PopSwap(Now(n, w, [x] + q), Top(q))), SwapPop(2),
                 Scene(n, w + 1, q, next, Popped(x)))
  {
    NextTag(n, w);
    HeldAround(q, x);
    var s, s' := Scene(n, w, [x] + q, next, PopSwap(Now(n, w, [x] + q), Top(q))), Scene(n, w + 1, q, next, Popped(x));
    assert ([x] + q)[1..] == q;
    assert s'.pc == s.pc[2 := Popped(x)];
  }

  lemma {:induction false} PushSteps(n: nat, w: nat, q: seq<Id>, x: Id, next: map<Id, nat>)
      returns (ss: seq<State>, acts: seq<Action>)
    requires n > 0 && x in {1, 2, 3} && x !in q
    ensures Steps(ss, acts) && ss[0] == Scene(n, w, q, next, Idle)
    ensures ss[|acts|] == Scene(n, w + 1, [x] + q, next[x := Top(q)], Idle)
  {
    var seen, next' := Now(n, w, q), next[x := Top(q)];
    ss, acts := [Scene(n, w, q, next, Idle)], [];
    ss, acts := Then(ss, acts, StartPush(2, x), Scene(n, w, q, next, Push(x, seen)));
    ss, acts := Then(ss, acts, LinkPush(2), Scene(n, w, q, next', PushSwap(x, seen)));
    PushSwaps(n, w, q, x, next');
    ss, acts := Then(ss, acts, SwapPush(2), Scene(n, w + 1, [x] + q, next', Idle));
  }

  lemma {:induction false} PushSwaps(n: nat, w: nat, q: seq<Id>, x: Id, next: map<Id, nat>)
    requires n > 0 && x in {1, 2, 3} && x !in q
    ensures Step(Scene(n, w, q, next, PushSwap(x, Now(n, w, q))), SwapPush(2),
                 Scene(n, w + 1, [x] + q, next, Idle))
  {
    NextTag(n, w);
    HeldAround(q, x);
    var s, s' := Scene(n, w, q, next, PushSwap(x, Now(n, w, q))), Scene(n, w + 1, [x] + q, next, Idle);
    assert s'.pc == s.pc[2 := Idle];
  }

  /** One run after another. */
  lemma {:induction false} Join(ss: seq<State>, acts: seq<Action>, ss2: seq<State>, acts2: seq<Action>)
      returns (ss': seq<State>, acts': seq<Action>)
    requires Steps(ss, acts) && Steps(ss2, acts2) && ss2[0] == ss[|acts|]
    ensures Steps(ss', acts') && ss'[0] == ss[0] && ss'[|acts'|] == ss2[|acts2|]
  {
    ss', acts' := ss[..|acts|] + ss2, acts + acts2;
    forall i | 0 <= i < |acts'|
      ensures Step(ss'[i], acts'[i], ss'[i + 1]) && InWindow(ss'[i], acts'[i])
    {
      if i < |acts| {
        assert ss'[i] == ss[i] && ss'[i + 1] == ss[i + 1] && acts'[i] == acts[i];
      } else {
        var k := i - |acts|;
        assert ss'[i] == ss2[k] && ss'[i + 1] == ss2[k + 1] && acts'[i] == acts2[k];
      }
    }
  }

  const CLEAR: map<Id, nat> := map[1 := NONE, 2 := NONE, 3 := NONE]

  const LINKED: map<Id, nat> := map[1 := 2, 2 := NONE, 3 := NONE]

  function First(n: nat): State {
    State(n, 1, 0, LINKED, map[], [1, 2], map[3 := 2], 0)
  }

  /** Both threads have read the top; thread 1 has also read what is below it. */
  lemma {:induction false} ToPoised(n: nat) returns (ss: seq<State>, acts: seq<Action>)
    requires n > 0
    ensures Steps(ss, acts) && ss[0] == First(n) && Init(First(n))
    ensures ss[|acts|] == Scene(n, 0, [1, 2], LINKED, Pop(Now(n, 0, [1, 2])))
  {
    var s := First(n);
    var seen := Seen(1, 0, 0);
    ModRest(n, 0, 0);
    assert LinkOk(s, 0) && LinkOk(s, 1);
    ss, acts := [s], [];
    ss, acts := Then(ss, acts, StartPop(2), s.(pc := map[2 := Pop(seen)]));
    ss, acts := Then(ss, acts, StartPop(1), s.(pc := map[1 := Pop(seen), 2 := Pop(seen)]));
    var s' := Scene(n, 0, [1, 2], LINKED, Pop(seen));
    assert s'.held == s.held;
    ss, acts := Then(ss, acts, ReadNext(1), s');
  }

  /** Thread 2 has then popped both elements. */
  lemma {:induction false} ToGone(n: nat) returns (ss: seq<State>, acts: seq<Action>)
    requires n > 0
    ensures Steps(ss, acts) && ss[0] == First(n) && Init(First(n)) && ss[|acts|] == Scene(n, 2, [], CLEAR, Idle)
  {
    ss, acts := ToPoised(n);
    assert [1] + [2] == [1, 2];
    var ss1, acts1 := PopRest(n, 0, [2], 1, LINKED);
    ss, acts := Join(ss, acts, ss1, acts1);
    assert [2] + [] == [2] && LINKED[1 := NONE] == CLEAR && CLEAR[2 := NONE] == CLEAR;
    var ss2, acts2 := PopSteps(n, 1, [], 2, CLEAR);
    ss, acts := Join(ss, acts, ss2, acts2);
  }

  /** Pushing 2 and popping it again, as often as needed. */
  lemma {:induction false} Around(n: nat, w: nat, times: nat, q: seq<Id>) returns (ss: seq<State>, acts: seq<Action>)
    requires n > 0 && (q == [] || q == [3])
    ensures Steps(ss, acts) && ss[0] == Scene(n, w, q, CLEAR, Idle)
    ensures ss[|acts|] == Scene(n, w + 2 * times, q, CLEAR, Idle)
  {
    if times == 0 {
      ss, acts := [Scene(n, w, q, CLEAR, Idle)], [];
    } else {
      ss, acts := Around(n, w, times - 1, q);
      var v := w + 2 * times - 2;
      var ss1, acts1 := OnceAround(n, v, q);
      ss, acts := Join(ss, acts, ss1, acts1);
    }
  }

  lemma {:induction false} OnceAround(n: nat, w: nat, q: seq<Id>) returns (ss: seq<State>, acts: seq<Action>)
    requires n > 0 && (q == [] || q == [3])
    ensures Steps(ss, acts) && ss[0] == Scene(n, w, q, CLEAR, Idle)
    ensures ss[|acts|] == Scene(n, w + 2, q, CLEAR, Idle)
  {
    ss, acts := PushSteps(n, w, q, 2, CLEAR);
    var ss2, acts2 := PopSteps(n, w + 1, q, 2, CLEAR[2 := Top(q)]);
    ss, acts := Join(ss, acts, ss2, acts2);
    assert CLEAR[2 := Top(q)][2 := NONE] == CLEAR;
  }

  /** Both elements are gone, and one more swap makes as many as there are tags. */
  lemma {:induction false} ToBrink(n: nat) returns (ss: seq<State>, acts: seq<Action>, q: seq<Id>)
    requires n >= 3
    ensures Steps(ss, acts) && ss[0] == First(n) && Init(First(n))
    ensures (q == [] || q == [3]) && ss[|acts|] == Scene(n, n - 1, q, CLEAR, Idle)
  {
    ss, acts := ToGone(n);
    q := if n % 2 == 1 then [] else [3];
    if n % 2 == 0 {
      var ss1, acts1 := PushSteps(n, 2, [], 3, CLEAR);
      ss, acts := Join(ss, acts, ss1, acts1);
      assert [3] + [] == [3] && CLEAR[3 := NONE] == CLEAR;
    }
    var ss2, acts2 := Around(n, 2 + |q|, (n - 3 - |q|) / 2, q);
    ss, acts := Join(ss, acts, ss2, acts2);
  }

  /**
   * The window cannot be wider: for every number of tags from three there is a run in which all swaps
   * but the last are made within their windows, the last one just after as many swaps as there are
   * tags, and the top is then an element that someone holds.
   */
  lemma {:induction false} TagsRunOut(n: nat) returns (ss: seq<State>, acts: seq<Action>, k: nat)
    requires n >= 3
    ensures Run(ss, acts) && ss[0].tags == n && k + 1 == |acts|
    ensures forall m :: 0 <= m < k ==> InWindow(ss[m], acts[m])
    ensures acts[k].SwapPop? && At(ss[k], acts[k].t).PopSwap?
    ensures ss[k].swaps == At(ss[k], acts[k].t).seen.at + n
    ensures ss[k + 1].top in ss[k + 1].held
  {
    var q;
    ss, acts, q := ToBrink(n);
    var ss1, acts1 := PushSteps(n, n - 1, q, 1, CLEAR);
    ss, acts := Join(ss, acts, ss1, acts1);
    k := |acts|;
    var s := ss[k];
    LastSwap(n, q, s);
    ss, acts := ss + [Do(s, SwapPop(1))], acts + [SwapPop(1)];
    forall i | 0 <= i < |acts|
      ensures ss[i].tags > 0 && Can(ss[i], acts[i]) && ss[i + 1] == Do(ss[i], acts[i])
    {
      assert i < k ==> Step(ss[i], acts[i], ss[i + 1]);
    }
  }

  lemma {:induction false} LastSwap(n: nat, q: seq<Id>, s: State)
    requires n >= 3 && (q == [] || q == [3]) && s == Scene(n, n, [1] + q, CLEAR[1 := Top(q)], Idle)
    ensures Can(s, SwapPop(1)) && Do(s, SwapPop(1)).top in Do(s, SwapPop(1)).held
  {
    ModRest(n, 1, 0);
    assert n * 1 + 0 == n;
    assert 2 in s.held;
  }
}
