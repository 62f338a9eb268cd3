/**
 * The four swap loops of the bit-range reader-writer lock on the numeric 32-bit word.
 *
 * Whatever other threads store in the word between a loop's read and its swap, the loop acts
 * in one step on the value it returns: it changes the lock's fields as the transition system
 * says and leaves every other bit alone.
 */
module RwBitlockWord {
  import opened RwBitlock

  function Pow2(n: nat): (p: nat)
    ensures p > 0
  {
    if n == 0 then 1 else 2 * Pow2(n - 1)
  }

  lemma {:induction false} Pow2Sum(a: nat, b: nat)
    ensures Pow2(a + b) == Pow2(a) * Pow2(b)
  {
    if a > 0 {
      Pow2Sum(a - 1, b);
    }
  }

  /** Position and size of the lock inside the word. */
  datatype Layout = Layout(start: nat, bits: nat)

  predicate Wf(l: Layout) {
    l.start < 30 && 3 <= l.bits < 32 && l.start + l.bits <= 32
  }

  function WriterMask(l: Layout): nat {
    Pow2(l.start)
  }

  function ReaderInc(l: Layout): nat {
    Pow2(l.start + 1)
  }

  function Max(l: Layout): nat
    requires Wf(l)
  {
    Pow2(l.bits - 1) - 1
  }

  // The word, low bits first: payload, writer bit, reader count, payload.

  function Quot(x: nat, p: nat): (q: nat)
    requires p > 0
    ensures x == p * q + Rem(x, p)
  {
    x / p
  }

  function Rem(x: nat, p: nat): (r: nat)
    requires p > 0
    ensures r < p
  {
    x % p
  }

  function Low(l: Layout, x: nat): nat {
    Rem(x, Pow2(l.start))
  }

  function Writer(l: Layout, x: nat): nat {
    Rem(Quot(x, Pow2(l.start)), 2)
  }

  function Readers(l: Layout, x: nat): nat
    requires Wf(l)
  {
    Rem(Quot(Quot(x, Pow2(l.start)), 2), Pow2(l.bits - 1))
  }

  function High(l: Layout, x: nat): nat
    requires Wf(l)
  {
    Quot(Quot(Quot(x, Pow2(l.start)), 2), Pow2(l.bits - 1))
  }

  function Fields(l: Layout, x: nat): Word
    requires Wf(l)
  {
    Word(Writer(l, x) == 1, Readers(l, x))
  }

  function Payload(l: Layout, x: nat): (nat, nat)
    requires Wf(l)
  {
    (Low(l, x), High(l, x))
  }

  lemma {:induction false} SmallMultiple(p: int, d: int)
    requires -p < p * d < p
    ensures d == 0
  {
  }

  lemma {:induction false} DivMod(p: nat, q: nat, r: nat)
    requires r < p
    ensures Quot(r + p * q, p) == q && Rem(r + p * q, p) == r
  {
    var x := r + p * q;
    assert x == p * Quot(x, p) + Rem(x, p);
    assert p * Quot(x, p) - p * q == p * (Quot(x, p) - q);
    SmallMultiple(p, Quot(x, p) - q);
  }

  function Value(l: Layout, low: nat, w: nat, r: nat, high: nat): nat
    requires Wf(l)
  {
    low + Times(Pow2(l.start), w + 2 * (r + Times(Pow2(l.bits - 1), high)))
  }

  function Times(a: nat, b: nat): nat {
    a * b
  }

  lemma {:induction false} Units(p: int, q: int)
    ensures p * 1 + q * 0 == p && p * 0 + q * 1 == q && p * -1 + q * 0 == -p && p * 0 + q * -1 == -q
  {
  }

  /** The fields determine the word, and the word its fields. */
  lemma {:induction false} FieldsOfValue(l: Layout, low: nat, w: nat, r: nat, high: nat)
    requires Wf(l) && low < Pow2(l.start) && w < 2 && r < Pow2(l.bits - 1)
    ensures var x := Value(l, low, w, r, high);
            Low(l, x) == low && Writer(l, x) == w && Readers(l, x) == r && High(l, x) == high
  {
    var h := r + Pow2(l.bits - 1) * high;
    DivMod(Pow2(l.start), w + 2 * h, low);
    DivMod(2, h, w);
    DivMod(Pow2(l.bits - 1), high, r);
  }

  lemma {:induction false} ValueOfFields(l: Layout, x: nat)
    requires Wf(l)
    ensures x == Value(l, Low(l, x), Writer(l, x), Readers(l, x), High(l, x))
    ensures Low(l, x) < Pow2(l.start) && Writer(l, x) < 2 && Readers(l, x) < Pow2(l.bits - 1)
  {
    var p, m := Pow2(l.start), Pow2(l.bits - 1);
    var y := Quot(x, p);
    var z := Quot(y, 2);
    assert z == Readers(l, x) + m * High(l, x);
    assert y == Writer(l, x) + 2 * z;
  }

  /** Words with the same lock fields are equal if and only if their payloads are. */
  lemma {:induction false} SameWord(l: Layout, x: nat, y: nat)
    requires Wf(l) && Fields(l, x) == Fields(l, y)
    ensures x == y <==> Payload(l, x) == Payload(l, y)
  {
    ValueOfFields(l, x);
    ValueOfFields(l, y);
  }

  lemma {:induction false} Distribute(p: int, a: int, b: int, da: int, db: int)
    ensures p * (a + 2 * b) + p * da + 2 * p * db == p * (a + da + 2 * (b + db))
  {
  }

  /** Setting the two lock fields by adding to the word leaves the payload. */
  lemma {:induction false} MoveFields(l: Layout, x: nat, y: int, w: nat, r: nat)
    requires Wf(l) && w < 2 && r < Pow2(l.bits - 1)
    requires y == x + WriterMask(l) * (w - Writer(l, x)) + ReaderInc(l) * (r - Readers(l, x))
    ensures y >= 0 && Fields(l, y) == Word(w == 1, r) && Payload(l, y) == Payload(l, x)
  {
    ValueOfFields(l, x);
    var w0, r0, m := Writer(l, x), Readers(l, x), Pow2(l.bits - 1) * High(l, x);
    Distribute(Pow2(l.start), w0, r0 + m, w - w0, r - r0);
    assert y == Value(l, Low(l, x), w, r, High(l, x));
    FieldsOfValue(l, Low(l, x), w, r, High(l, x));
  }

  // What each addition does to the fields.

  lemma {:induction false} SetReadMoves(l: Layout, x: nat, try: bool, underList: bool)
    requires Wf(l)
    requires var f := Fields(l, x); if f.w then underList && !try && f.r == 0 else f.r != Max(l)
    ensures Fields(l, x + ReaderInc(l)) == SetRead(Max(l), Fields(l, x), try, underList)
    ensures Payload(l, x + ReaderInc(l)) == Payload(l, x)
  {
    ValueOfFields(l, x);
    Units(WriterMask(l), ReaderInc(l));
    MoreThanTwoReaders(l);
    MoveFields(l, x, x + ReaderInc(l), Writer(l, x), Readers(l, x) + 1);
  }

  lemma {:induction false} ClearReadMoves(l: Layout, x: nat)
    requires Wf(l) && Readers(l, x) != 0 && !Special(Max(l), Fields(l, x))
    ensures x >= ReaderInc(l) && Fields(l, x - ReaderInc(l)) == ClearRead(Max(l), Fields(l, x))
    ensures Payload(l, x - ReaderInc(l)) == Payload(l, x)
  {
    ValueOfFields(l, x);
    Units(WriterMask(l), ReaderInc(l));
    MoveFields(l, x, x - ReaderInc(l), Writer(l, x), Readers(l, x) - 1);
  }

  lemma {:induction false} ContendMoves(l: Layout, x: nat)
    requires Wf(l) && Fields(l, x) == Word(true, 0)
    ensures Fields(l, x + ReaderInc(l)) == Word(true, 1) && Payload(l, x + ReaderInc(l)) == Payload(l, x)
  {
    ValueOfFields(l, x);
    Units(WriterMask(l), ReaderInc(l));
    MoreThanTwoReaders(l);
    MoveFields(l, x, x + ReaderInc(l), 1, 1);
  }

  lemma {:induction false} SetWriteMoves(l: Layout, x: nat)
    requires Wf(l) && !Fields(l, x).w
    ensures Fields(l, x + WriterMask(l)) == Word(true, Readers(l, x))
    ensures Payload(l, x + WriterMask(l)) == Payload(l, x)
  {
    ValueOfFields(l, x);
    Units(WriterMask(l), ReaderInc(l));
    MoveFields(l, x, x + WriterMask(l), 1, Readers(l, x));
  }

  lemma {:induction false} ClearWriteMoves(l: Layout, x: nat)
    requires Wf(l) && Fields(l, x) == Word(true, 0)
    ensures x >= WriterMask(l) && Fields(l, x - WriterMask(l)) == Word(false, 0)
    ensures Payload(l, x - WriterMask(l)) == Payload(l, x)
  {
    ValueOfFields(l, x);
    Units(WriterMask(l), ReaderInc(l));
    MoreThanTwoReaders(l);
    MoveFields(l, x, x - WriterMask(l), 0, 0);
  }

  // ---------- the word and its swap loops ----------

  /**
   * The shared word. `others` are the values that other threads will store in it, one just
   * before each swap attempt; any finite interference is such a sequence.
   */
  class SharedWord {
    var word: nat
    var others: seq<nat>

    constructor (word: nat, others: seq<nat>)
      ensures this.word == word && this.others == others
    {
      this.word, this.others := word, others;
    }

    /** Compare and swap: `seen` is the value found. */
    method Swap(expected: nat, value: nat) returns (swapped: bool, seen: nat)
      modifies this
      ensures seen == (if old(others) == [] then old(word) else old(others)[0])
      ensures others == (if old(others) == [] then [] else old(others)[1..])
      ensures swapped <==> seen == expected
      ensures word == if swapped then value else seen
    {
      if others != [] {
        word, others := others[0], others[1..];
      }
      seen := word;
      swapped := word == expected;
      if swapped {
        word := value;
      }
    }

    method SetRdlock(l: Layout, try: bool, underList: bool) returns (seen: nat)
      requires Wf(l)
      modifies this
      ensures Fields(l, word) == SetRead(Max(l), Fields(l, seen), try, underList)
      ensures Payload(l, word) == Payload(l, seen)
      ensures seen == old(word) || seen in old(others)
    {
      seen := word;
      while true
        invariant seen == old(word) || seen in old(others)
        invariant forall x :: x in others ==> x in old(others)
        invariant word == seen
        decreases |others|
      {
        var f := Fields(l, seen);
        if f.w && (!underList || try || f.r != 0) {
          return;
        }
        if !f.w && f.r == Max(l) {
          return;
        }
        SetReadMoves(l, seen, try, underList);
        var swapped;
        swapped, seen := Swap(seen, seen + ReaderInc(l));
        if swapped {
          return;
        }
      }
    }

    method ClearRdlock(l: Layout) returns (seen: nat)
      requires Wf(l)
      requires Readers(l, word) != 0 && forall x :: x in others ==> Readers(l, x) != 0
      modifies this
      ensures Readers(l, seen) != 0
      ensures Fields(l, word) == ClearRead(Max(l), Fields(l, seen))
      ensures Payload(l, word) == Payload(l, seen)
      ensures seen == old(word) || seen in old(others)
    {
      seen := word;
      while true
        invariant seen == old(word) || seen in old(others)
        invariant forall x :: x in others ==> x in old(others)
        invariant word == seen
        decreases |others|
      {
        var f := Fields(l, seen);
        if f.r == Max(l) || (f.r == 1 && f.w) {
          return;
        }
        ClearReadMoves(l, seen);
        var swapped;
        swapped, seen := Swap(seen, seen - ReaderInc(l));
        if swapped {
          return;
        }
      }
    }

    method SetWrlock(l: Layout, try: bool, underList: bool) returns (seen: nat)
      requires Wf(l)
      modifies this
      ensures Fields(l, word) == SetWrite(Fields(l, seen), try, underList)
      ensures Payload(l, word) == Payload(l, seen)
      ensures seen == old(word) || seen in old(others)
    {
      seen := word;
      while true
        invariant seen == old(word) || seen in old(others)
        invariant forall x :: x in others ==> x in old(others)
        invariant word == seen
        decreases |others|
      {
        var f := Fields(l, seen);
        var value: nat;
        if f.w {
          if !underList || try || f.r != 0 {
            return;
          }
          value := seen + ReaderInc(l);
          ContendMoves(l, seen);
        } else {
          if f.r != 0 && (!underList || try) {
            return;
          }
          value := seen + WriterMask(l);
          SetWriteMoves(l, seen);
        }
        var swapped;
        swapped, seen := Swap(seen, value);
        if swapped {
          return;
        }
      }
    }

    method ClearWrlock(l: Layout) returns (seen: nat)
      requires Wf(l)
      requires Writer(l, word) == 1 && forall x :: x in others ==> Writer(l, x) == 1
      modifies this
      ensures Fields(l, word) == ClearWrite(Fields(l, seen))
      ensures Payload(l, word) == Payload(l, seen)
      ensures seen == old(word) || seen in old(others)
    {
      seen := word;
      while true
        invariant seen == old(word) || seen in old(others)
        invariant forall x :: x in others ==> x in old(others)
        invariant word == seen
        decreases |others|
      {
        if Readers(l, seen) != 0 {
          return;
        }
        ClearWriteMoves(l, seen);
        var swapped;
        swapped, seen := Swap(seen, seen - WriterMask(l));
        if swapped {
          return;
        }
      }
    }
  }

  lemma {:induction false} MoreThanTwoReaders(l: Layout)
    requires Wf(l)
    ensures Max(l) >= 3
  {
    Pow2Sum(2, l.bits - 3);
    assert Pow2(2) == 4;
  }

  lemma {:induction false} AtLeast(p: int, a: int, b: int)
    requires p >= 0 && a >= b
    ensures p * a >= p * b
  {
  }

  /**
   * The debug check of the writer's loop compares the whole word with the lock's own bits:
   * it holds exactly when the payload is zero.
   */
  lemma {:induction false} WriterLoopCheck(l: Layout, x: nat)
    requires Wf(l) && Fields(l, x) == Word(true, 0)
    ensures x + ReaderInc(l) == WriterMask(l) + ReaderInc(l) <==> Payload(l, x) == (0, 0)
  {
    ValueOfFields(l, x);
    var p, m, h := Pow2(l.start), Pow2(l.bits - 1), High(l, x);
    var y := 1 + 2 * (0 + m * h);
    assert x == Low(l, x) + p * y;
    if h > 0 {
      AtLeast(m, h, 1);
      AtLeast(p, y, 3);
      assert p * 3 == p + 2 * p;
    } else {
      assert m * h == 0 && y == 1;
    }
  }
}
