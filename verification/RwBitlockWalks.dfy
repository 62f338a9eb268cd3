/**
 * The walks over the shared wait list. Locks of other addresses and kinds keep their entries on
 * the same list; these walks see only the entries of one bit range, edit the list in place, and
 * compute exactly the list edits of the transition system.
 */
module RwBitlockWalks {
  import opened Base
  import opened RwBitlock

  /** What the matcher compares: the bit range, and the mark that sets these waiters apart. */
  datatype Key = Key(start: nat, bits: nat, rw: bool)

  datatype Item = Item(key: Key, entry: Entry)

  function Mine(q: seq<Item>, k: Key): seq<Entry> {
    if q == [] then []
    else if q[0].key == k then [q[0].entry] + Mine(q[1..], k)
    else Mine(q[1..], k)
  }

  function Foreign(q: seq<Item>, k: Key): seq<Item> {
    if q == [] then []
    else if q[0].key == k then Foreign(q[1..], k)
    else [q[0]] + Foreign(q[1..], k)
  }

  lemma {:induction false} MineConcat(a: seq<Item>, b: seq<Item>, k: Key)
    ensures Mine(a + b, k) == Mine(a, k) + Mine(b, k)
  {
    if a == [] {
      assert a + b == b;
    } else {
      MineConcat(a[1..], b, k);
      assert (a + b)[1..] == a[1..] + b;
    }
  }

  lemma {:induction false} ForeignConcat(a: seq<Item>, b: seq<Item>, k: Key)
    ensures Foreign(a + b, k) == Foreign(a, k) + Foreign(b, k)
  {
    if a == [] {
      assert a + b == b;
    } else {
      ForeignConcat(a[1..], b, k);
      assert (a + b)[1..] == a[1..] + b;
    }
  }

  lemma {:induction false} Concat(a: seq<Item>, b: seq<Item>, k: Key)
    ensures Mine(a + b, k) == Mine(a, k) + Mine(b, k)
    ensures Foreign(a + b, k) == Foreign(a, k) + Foreign(b, k)
  {
    MineConcat(a, b, k);
    ForeignConcat(a, b, k);
  }

  /** An item of the lock at `i` splits its entries there. */
  lemma {:induction false} SplitAt(q: seq<Item>, i: nat, k: Key)
    requires i < |q| && q[i].key == k
    ensures Mine(q, k) == Mine(q[..i], k) + [q[i].entry] + Mine(q[i + 1..], k)
    ensures Mine(q[..i] + q[i + 1..], k) == Mine(q[..i], k) + Mine(q[i + 1..], k)
    ensures Foreign(q[..i] + q[i + 1..], k) == Foreign(q, k)
  {
    Concat(q[..i], q[i..], k);
    Concat(q[..i], q[i + 1..], k);
    assert q == q[..i] + q[i..];
    assert q[i..][1..] == q[i + 1..];
  }

  lemma {:induction false} NoneMine(q: seq<Item>, k: Key)
    requires forall i :: 0 <= i < |q| ==> q[i].key != k
    ensures Mine(q, k) == []
  {
    if q != [] {
      NoneMine(q[1..], k);
    }
  }

  lemma {:induction false} LeadingIs(q: seq<Entry>, n: nat)
    requires n <= |q|
    requires forall i :: 0 <= i < n ==> q[i].rd
    requires n < |q| ==> !q[n].rd
    ensures LeadingReaders(q) == n
  {
    if n > 0 {
      LeadingIs(q[1..], n - 1);
    }
  }

  /** Taking the item at `i` off the list when the next one of the lock is at `next`. */
  lemma {:induction false} TakeOne(q: seq<Item>, i: nat, next: nat, k: Key)
    requires i < next <= |q| && q[i].key == k && Mine(q[..i], k) == []
    requires forall j :: i < j < next ==> q[j].key != k
    ensures var q' := q[..i] + q[i + 1..];
            && Mine(q'[..next - 1], k) == []
            && Mine(q, k) == [q[i].entry] + Mine(q', k)
            && Foreign(q', k) == Foreign(q, k)
            && (next < |q| ==> q'[next - 1] == q[next])
  {
    var q' := q[..i] + q[i + 1..];
    SplitAt(q, i, k);
    NoneMine(q[i + 1..next], k);
    Concat(q[..i], q[i + 1..next], k);
    assert q'[..next - 1] == q[..i] + q[i + 1..next];
  }

  class WaitList {
    var items: seq<Item>

    constructor ()
      ensures items == []
    {
      items := [];
    }

    /** First item of the lock at or after `from`; the length if there is none. */
    method FindNext(from: nat, k: Key) returns (i: nat)
      requires from <= |items|
      ensures from <= i <= |items|
      ensures i < |items| ==> items[i].key == k
      ensures forall j :: from <= j < i ==> items[j].key != k
    {
      i := from;
      while i < |items| && items[i].key != k
        invariant from <= i <= |items|
        invariant forall j :: from <= j < i ==> items[j].key != k
      {
        i := i + 1;
      }
    }

    /** Takes the leading run of one kind off the list, up to `limit` readers or one writer. */
    method FindEligible(k: Key, limit: nat) returns (wake: seq<Entry>, more: bool, nextIsReader: bool)
      requires limit > 0
      modifies this
      ensures wake + Mine(items, k) == old(Mine(items, k))
      ensures Foreign(items, k) == old(Foreign(items, k))
      ensures more <==> Mine(items, k) != []
      ensures more ==> nextIsReader == Mine(items, k)[0].rd
      ensures old(Mine(items, k)) != [] ==> wake != []
      ensures forall e :: e in wake ==> e.rd == wake[0].rd
      ensures wake != [] && !wake[0].rd ==> |wake| == 1
      ensures wake != [] && wake[0].rd ==>
        |wake| <= limit && (|wake| == limit || !more || !nextIsReader)
    {
      wake, more, nextIsReader := [], false, false;
      var i := FindNext(0, k);
      NoneMine(items[..i], k);
      if i == |items| {
        assert items[..i] == items;
        return;
      }
      var want := items[i].entry.rd;
      var max := if want then limit else 1;
      while i < |items|
        invariant i <= |items|
        invariant i < |items| ==> items[i].key == k
        invariant Mine(items[..i], k) == []
        invariant wake + Mine(items, k) == old(Mine(items, k))
        invariant Foreign(items, k) == old(Foreign(items, k))
        invariant forall e :: e in wake ==> e.rd == want
        invariant |wake| <= max
        invariant wake == [] ==> i < |items| && items[i].entry.rd == want
        decreases |items|
      {
        var next := FindNext(i + 1, k);
        if want == items[i].entry.rd && |wake| < max {
          TakeOne(items, i, next, k);
          wake := wake + [items[i].entry];
          items := items[..i] + items[i + 1..];
          i := next - 1;
        } else {
          SplitAt(items, i, k);
          nextIsReader := items[i].entry.rd;
          more := true;
          return;
        }
      }
      assert items[..i] == items;
    }

    /** Gives the lock to the leading readers still on the list, which stay there. */
    method WakeEligibleReaders(k: Key) returns (woken: seq<Entry>, haveWriter: bool)
      modifies this
      ensures var q := old(Mine(items, k));
              var n := LeadingReaders(q);
              && Mine(items, k) == Mark(q, n)
              && woken == q[..n]
              && haveWriter == (n < |q|)
      ensures Foreign(items, k) == old(Foreign(items, k))
    {
      woken, haveWriter := [], false;
      ghost var all := Mine(items, k);
      var i := FindNext(0, k);
      NoneMine(items[..i], k);
      Rejoin(items, i, k);
      while i < |items|
        invariant i <= |items| && |woken| <= |all|
        invariant i < |items| ==> items[i].key == k
        invariant Mine(items[..i], k) == Mark(woken, |woken|)
        invariant woken + Mine(items[i..], k) == all
        invariant forall e :: e in woken ==> e.rd
        invariant Foreign(items, k) == old(Foreign(items, k))
        decreases |items| - i
      {
        var next := FindNext(i + 1, k);
        if items[i].entry.rd {
          WakeOne(items, i, next, k, woken, all);
          woken := woken + [items[i].entry];
          items := items[i := items[i].(entry := items[i].entry.(have := true))];
          i := next;
        } else {
          haveWriter := true;
          break;
        }
      }
      Rejoin(items, i, k);
      WokenRun(all, woken, Mine(items[i..], k));
    }

    /** The list work of a writer's release, word included. */
    method WriteUnlock(k: Key, max: nat) returns (word: Word, wake: seq<Entry>, woken: seq<Entry>)
      requires Mine(items, k) != [] && max > 0
      modifies this
      ensures WriteEdit(Mine(items, k), word, wake, woken) == WriteUnlockEdit(max, old(Mine(items, k)))
      ensures Foreign(items, k) == old(Foreign(items, k))
    {
      ghost var all := Mine(items, k);
      var more, nextIsReader;
      wake, more, nextIsReader := FindEligible(k, max);
      ghost var rest := Mine(items, k);
      assert all[0] == wake[0];
      woken := [];
      if !wake[0].rd {
        word := Word(true, if more then 1 else 0);
        assert wake == all[..1] && rest == all[1..];
      } else {
        word := Word(more, |wake|);
        EligibleReaders(all, wake, rest, max);
        if more && |wake| == max && nextIsReader {
          var haveWriter;
          woken, haveWriter := WakeEligibleReaders(k);
          word := Word(haveWriter, |wake|);
        }
      }
    }

    /** First item of thread `t` with this key. */
    method FindThread(k: Key, t: Tid) returns (i: nat)
      requires t in Tids(Mine(items, k))
      ensures i < |items| && items[i].key == k && items[i].entry.t == t
      ensures |Mine(items[..i], k)| == Find(Mine(items, k), t)
    {
      i := 0;
      assert items[0..] == items;
      while !(i < |items| && items[i].key == k && items[i].entry.t == t)
        invariant i <= |items|
        invariant t in Tids(Mine(items[i..], k))
        invariant |Mine(items[..i], k)| + Find(Mine(items[i..], k), t) == Find(Mine(items, k), t)
        decreases |items| - i
      {
        ThreadFurther(items, i, k, t);
        i := i + 1;
      }
      assert Mine(items[i..], k)[0] == items[i].entry;
    }

    /** Takes one entry of the lock off the list. */
    method TakeOut(i: nat, k: Key)
      requires i < |items| && items[i].key == k
      modifies this
      ensures var at := |Mine(old(items)[..i], k)|;
              at < |old(Mine(items, k))| && Mine(items, k) == Drop(old(Mine(items, k)), at)
      ensures Foreign(items, k) == old(Foreign(items, k))
    {
      SplitAt(items, i, k);
      items := items[..i] + items[i + 1..];
    }

    /** The list work of a reader that found the count saturated or itself last. */
    method ReadUnlock(k: Key, max: nat, w: Word, t: Tid) returns (ok: bool, r: nat, wake: Option<Tid>)
      requires w.r != 0
      modifies this
      ensures ReadEdit(ok, Mine(items, k), r, wake) == ReadUnlockEdit(max, w, old(Mine(items, k)), t)
      ensures Foreign(items, k) == old(Foreign(items, k))
    {
      var inList := t in Tids(Mine(items, k));
      Listed(Mine(items, k), t);
      if inList {
        var i := FindThread(k, t);
        ok, r, wake := w.r == max, w.r, None;
        TakeOut(i, k);
      } else {
        ok, r, wake := ReadUnlockOther(k, max, w, t);
      }
    }

    /** The reader has no entry of its own: the first entry, if any, decides. */
    method ReadUnlockOther(k: Key, max: nat, w: Word, t: Tid) returns (ok: bool, r: nat, wake: Option<Tid>)
      requires w.r != 0 && Find(Mine(items, k), t) == |Mine(items, k)|
      modifies this
      ensures ReadEdit(ok, Mine(items, k), r, wake) == ReadUnlockEdit(max, w, old(Mine(items, k)), t)
      ensures Foreign(items, k) == old(Foreign(items, k))
    {
      ok, r, wake := true, w.r, None;
      var i := FindNext(0, k);
      FirstMine(items, i, k);
      if i == |items| {
        r := w.r - 1;
        return;
      }
      var first := items[i].entry;
      if first.have {
        ok := first.rd && w.r == max;
        TakeOut(i, k);
      } else {
        ok := !first.rd;
        var next := FindNext(i + 1, k);
        NextIsLast(items, i, next, k);
        if next == |items| || w.r == max {
          r := w.r - 1;
        }
        if w.r == 1 {
          wake := Some(first.t);
          TakeOut(i, k);
        }
      }
    }
  }

  lemma {:induction false} FirstMine(q: seq<Item>, i: nat, k: Key)
    requires i <= |q| && (forall j :: 0 <= j < i ==> q[j].key != k) && (i < |q| ==> q[i].key == k)
    ensures Mine(q[..i], k) == [] && (i == |q| ==> Mine(q, k) == [])
    ensures i < |q| ==> Mine(q, k) != [] && Mine(q, k)[0] == q[i].entry
  {
    NoneMine(q[..i], k);
    Rejoin(q, i, k);
    if i < |q| {
      SplitAt(q, i, k);
    } else {
      assert q[..i] == q;
    }
  }

  /** The readers taken are the leading run, cut at the capacity of the count. */
  lemma {:induction false} EligibleReaders(all: seq<Entry>, wake: seq<Entry>, rest: seq<Entry>, max: nat)
    requires all == wake + rest && wake != [] && forall e :: e in wake ==> e.rd
    requires |wake| <= max && (|wake| == max || rest == [] || !rest[0].rd)
    ensures var run := LeadingReaders(all);
            |wake| == if run < max then run else max
    ensures wake == all[..|wake|] && rest == all[|wake|..]
  {
    var run := LeadingReaders(all);
    assert forall j :: 0 <= j < |wake| ==> all[j] == wake[j] && all[j].rd;
    if run > |wake| {
      assert all[|wake|] == rest[0];
    }
  }

  lemma {:induction false} Listed(q: seq<Entry>, t: Tid)
    ensures t in Tids(q) <==> Find(q, t) < |q|
  {
    if Find(q, t) < |q| {
      assert q[Find(q, t)].t in Tids(q);
    }
  }

  lemma {:induction false} ThreadFurther(q: seq<Item>, i: nat, k: Key, t: Tid)
    requires i <= |q| && t in Tids(Mine(q[i..], k))
    requires !(i < |q| && q[i].key == k && q[i].entry.t == t)
    ensures i < |q| && t in Tids(Mine(q[i + 1..], k))
    ensures |Mine(q[..i + 1], k)| + Find(Mine(q[i + 1..], k), t)
         == |Mine(q[..i], k)| + Find(Mine(q[i..], k), t)
  {
    var m, n := Mine(q[i..], k), Mine(q[i + 1..], k);
    var j :| 0 <= j < |m| && m[j].t == t;
    assert i < |q|;
    assert q[i..][1..] == q[i + 1..];
    assert q[..i + 1] == q[..i] + [q[i]];
    MineConcat(q[..i], [q[i]], k);
    if q[i].key == k {
      assert m == [q[i].entry] + n;
      assert n[j - 1].t == t;
      assert m[1..] == n;
    } else {
      assert n[j].t == t;
    }
  }

  lemma {:induction false} NextIsLast(q: seq<Item>, i: nat, next: nat, k: Key)
    requires i < next <= |q| && q[i].key == k && Mine(q[..i], k) == []
    requires forall j :: i < j < next ==> q[j].key != k
    requires next < |q| ==> q[next].key == k
    ensures next == |q| <==> |Mine(q, k)| == 1
  {
    SplitAt(q, i, k);
    NoneMine(q[i + 1..next], k);
    MineConcat(q[i + 1..next], q[next..], k);
    assert q[i + 1..] == q[i + 1..next] + q[next..];
  }

  lemma {:induction false} Rejoin(q: seq<Item>, i: nat, k: Key)
    requires i <= |q|
    ensures Mine(q, k) == Mine(q[..i], k) + Mine(q[i..], k)
  {
    MineConcat(q[..i], q[i..], k);
    assert q[..i] + q[i..] == q;
  }

  lemma {:induction false} MarkMore(q: seq<Entry>, e: Entry)
    ensures Mark(q + [e], |q| + 1) == Mark(q, |q|) + [e.(have := true)]
  {
  }

  lemma {:induction false} WokenRun(all: seq<Entry>, woken: seq<Entry>, rest: seq<Entry>)
    requires all == woken + rest
    requires forall e :: e in woken ==> e.rd
    requires rest != [] ==> !rest[0].rd
    ensures LeadingReaders(all) == |woken|
    ensures Mark(all, |woken|) == Mark(woken, |woken|) + rest
  {
    LeadingIs(all, |woken|);
  }

  /** One more reader is woken where it stands: what the loop keeps. */
  lemma {:induction false} WakeOne(q: seq<Item>, i: nat, next: nat, k: Key, woken: seq<Entry>, all: seq<Entry>)
    requires i < next <= |q| && q[i].key == k
    requires forall j :: i < j < next ==> q[j].key != k
    requires Mine(q[..i], k) == Mark(woken, |woken|) && woken + Mine(q[i..], k) == all
    ensures var q' := q[i := q[i].(entry := q[i].entry.(have := true))];
            var woken' := woken + [q[i].entry];
            && Mine(q'[..next], k) == Mark(woken', |woken'|)
            && woken' + Mine(q'[next..], k) == all
            && Foreign(q', k) == Foreign(q, k)
  {
    MarkOne(q, i, next, k);
    MarkMore(woken, q[i].entry);
  }

  /** Marking one item and moving past it. */
  lemma {:induction false} MarkOne(q: seq<Item>, i: nat, next: nat, k: Key)
    requires i < next <= |q| && q[i].key == k
    requires forall j :: i < j < next ==> q[j].key != k
    ensures var e := q[i].entry.(have := true);
            var q' := q[i := q[i].(entry := e)];
            && Mine(q'[..next], k) == Mine(q[..i], k) + [e]
            && Mine(q[i..], k) == [q[i].entry] + Mine(q'[next..], k)
            && Foreign(q', k) == Foreign(q, k)
  {
    var x := q[i].(entry := q[i].entry.(have := true));
    var q' := q[i := x];
    var gap := q[i + 1..next];
    NoneMine(gap, k);
    assert q'[..next] == q[..i] + [x] + gap;
    Concat(q[..i], [x], k);
    Concat(q[..i] + [x], gap, k);
    assert q[i..] == [q[i]] + gap + q[next..];
    Concat([q[i]], gap, k);
    Concat([q[i]] + gap, q[next..], k);
    assert q'[next..] == q[next..];
    assert q' == q[..i] + [x] + q[i + 1..];
    assert q == q[..i] + [q[i]] + q[i + 1..];
    Concat(q[..i], [q[i]], k);
    Concat(q[..i] + [x], q[i + 1..], k);
    Concat(q[..i] + [q[i]], q[i + 1..], k);
  }
}
