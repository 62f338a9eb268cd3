/**
 * The swap under a mask that every step on a bitlock's word rests on. A word is the set of its bits
 * that are one, so that "and" is intersection and "or" is union.
 */
module MaskedSwap {

  type Bits = set<nat>

  /** The value to store: the bits under the mask as they are, the others as asked for. */
  function Merged(cur: Bits, next: Bits, retain: Bits): Bits {
    (cur * retain) + (next - retain)
  }

  /**
   * The word. `others` are the values that other threads will store in it, one just before each swap
   * attempt; any finite interference is such a sequence.
   */
  class Word {
    var val: Bits
    var others: seq<Bits>

    constructor (v: Bits, others: seq<Bits>)
      ensures val == v && this.others == others
    {
      val, this.others := v, others;
    }

    /** One compare-and-swap: `seen` is the value found. */
    method Swap(expected: Bits, next: Bits) returns (ok: bool, seen: Bits)
      modifies this
      ensures seen == (if old(others) == [] then old(val) else old(others)[0])
      ensures others == (if old(others) == [] then [] else old(others)[1..])
      ensures ok <==> seen == expected
      ensures val == if ok then next else seen
    {
      if others != [] {
        val, others := others[0], others[1..];
      }
      seen := val;
      ok := val == expected;
      if ok {
        val := next;
      }
    }

    /**
     * Replaces the bits outside `retain` if they are as expected. It acts in one step on `met`, a value
     * that the word had during the call: it succeeds if and only if that value agrees with the expected
     * one outside the mask, and then the bits under the mask keep what the other threads left there. On
     * a mismatch the word is left alone and its bits outside the mask are returned.
     */
    method SwapWithMask(retain: Bits, expected: Bits, next: Bits) returns (ok: bool, now: Bits, met: Bits)
      modifies this
      ensures met == old(val) || met in old(others)
      ensures ok <==> met - retain == expected - retain
      ensures ok ==> val * retain == met * retain && val - retain == next - retain && now == expected
      ensures !ok ==> val == met && now == met - retain
    {
      met, now, ok := val, expected, false;
      while true
        invariant met == old(val) || met in old(others)
        invariant forall x :: x in others ==> x in old(others)
        invariant val == met && now == expected && !ok
        decreases |others|
      {
        if met - retain != expected - retain {
          now := met - retain;
          return;
        }
        var cur := (met * retain) + (expected - retain);
        assert cur == met;
        ok, met := Swap(cur, Merged(cur, next, retain));
        if ok {
          return;
        }
      }
    }
  }
}
