/**
 * Every run of the bit-range reader-writer lock is a run of the fair lock, and no check
 * of the lock's bits or of the list ever fails.
 *
 * The proof looks at the lock through a view in which what the owner of the wait-list lock has
 * decided but not yet written (its appended entry, its new word) counts as written. On that view
 * each action is one event of the fair lock, and the writes that complete it change nothing.
 */
module RwBitlockProof {
  import opened Base
  import opened RwBitlock
  import FairRw

  datatype View = View(max: nat, word: Word, el: seq<Entry>, readers: set<Tid>, writer: Option<Tid>)

  function OwnerPc(s: State): Pc {
    if s.listOwner.Some? then At(s, s.listOwner.value) else Idle
  }

  function Pending(s: State): seq<Entry> {
    match OwnerPc(s)
    case ReadAppend(have) => [Entry(s.listOwner.value, true, have)]
    case WriteAppend => [Entry(s.listOwner.value, false, false)]
    case _ => []
  }

  function Settled(s: State): Word {
    match OwnerPc(s)
    case ReadUnSwap(_, r) => Word(s.word.w, r)
    case WriteUnSwap(_, w) => w
    case _ => s.word
  }

  function ViewOf(s: State): View {
    View(s.max, Settled(s), s.list + Pending(s), s.readers, s.writer)
  }

  /** Number of leading entries that already hold the lock. */
  function Overflow(q: seq<Entry>): (g: nat)
    ensures g <= |q|
    ensures forall i :: 0 <= i < g ==> q[i].have
    ensures g < |q| ==> !q[g].have
  {
    if q == [] || !q[0].have then 0 else 1 + Overflow(q[1..])
  }

  lemma {:induction false} OverflowIs(q: seq<Entry>, g: nat)
    requires g <= |q|
    requires forall i :: 0 <= i < g ==> q[i].have
    requires g < |q| ==> !q[g].have
    ensures Overflow(q) == g
  {
    if g > 0 {
      OverflowIs(q[1..], g - 1);
    }
  }

  function Requests(q: seq<Entry>): seq<FairRw.Request> {
    seq(|q|, i requires 0 <= i < |q| => FairRw.Request(q[i].t, q[i].rd))
  }

  function LockOf(v: View): FairRw.Lock {
    FairRw.Lock(v.readers, v.writer, Requests(v.el[Overflow(v.el)..]))
  }

  /** How the bits and the list encode the lock whenever the wait-list lock is free. */
  predicate Encodes(v: View) {
    var g := Overflow(v.el);
    && v.max >= 3
    && (forall i, j :: 0 <= i < j < |v.el| ==> v.el[i].t != v.el[j].t)
    && (forall i :: 0 <= i < g ==> v.el[i].rd && v.el[i].t in v.readers)
    && (forall i :: g <= i < |v.el| ==>
          !v.el[i].have && v.el[i].t !in v.readers && v.writer != Some(v.el[i].t))
    && (v.readers != {} ==>
          && v.writer == None
          && v.word.r + g == |v.readers|
          && 1 <= v.word.r <= v.max
          && (g > 0 ==> v.word.r == v.max)
          && v.word.w == (g < |v.el|)
          && (g < |v.el| ==> !v.el[g].rd))
    && (v.writer.Some? ==>
          && v.readers == {}
          && g == 0
          && v.word == Word(true, if v.el == [] then 0 else 1))
    && (v.readers == {} && v.writer == None ==> v.word == Word(false, 0) && v.el == [])
  }

  // ---------- one lemma per kind of change of the view ----------

  lemma {:induction false} ReadGrant(v: View, t: Tid)
    requires Encodes(v) && GotRead(v.max, v.word) && t !in v.readers
    ensures var v' := v.(word := Word(false, v.word.r + 1), readers := v.readers + {t});
            Encodes(v') && FairRw.Step(LockOf(v), FairRw.ReadGranted(t), LockOf(v'))
  {
  }

  lemma {:induction false} WriteGrant(v: View, t: Tid)
    requires Encodes(v) && GotWrite(v.word)
    ensures var v' := v.(word := Word(true, 0), writer := Some(t));
            Encodes(v') && FairRw.Step(LockOf(v), FairRw.WriteGranted(t), LockOf(v'))
  {
  }

  predicate Fresh(v: View, t: Tid) {
    t !in v.readers && v.writer != Some(t) && forall i :: 0 <= i < |v.el| ==> v.el[i].t != t
  }

  lemma {:induction false} OverflowGrant(v: View, t: Tid)
    requires Encodes(v) && !v.word.w && v.word.r == v.max && Fresh(v, t)
    ensures var v' := v.(el := v.el + [Entry(t, true, true)], readers := v.readers + {t});
            Encodes(v') && FairRw.Step(LockOf(v), FairRw.ReadGranted(t), LockOf(v'))
  {
    var el' := v.el + [Entry(t, true, true)];
    OverflowIs(el', |el'|);
    assert el'[Overflow(el')..] == [];
  }

  lemma {:induction false} EnqueueEncodes(v: View, v': View, t: Tid, rd: bool, word: Word)
    requires Encodes(v) && Fresh(v, t) && (rd ==> v.word.w) && !GotWrite(v.word)
    requires word == if rd then SetRead(v.max, v.word, false, true) else SetWrite(v.word, false, true)
    requires v' == v.(word := word, el := v.el + [Entry(t, rd, false)])
    ensures Encodes(v') && Overflow(v'.el) == Overflow(v.el)
  {
    OverflowIs(v'.el, Overflow(v.el));
  }

  lemma {:induction false} EnqueueFair(v: View, v': View, t: Tid, rd: bool)
    requires v.readers != {} || v.writer.Some?
    requires rd ==> v.writer.Some? || Overflow(v.el) < |v.el|
    requires v'.el == v.el + [Entry(t, rd, false)] && v'.readers == v.readers && v'.writer == v.writer
    requires Overflow(v'.el) == Overflow(v.el)
    ensures FairRw.Step(LockOf(v), FairRw.Queued(FairRw.Request(t, rd)), LockOf(v'))
  {
    var g := Overflow(v.el);
    assert Requests(v'.el[g..]) == Requests(v.el[g..]) + [FairRw.Request(t, rd)];
  }

  lemma {:induction false} HeldWhenBusy(v: View, rd: bool)
    requires Encodes(v) && (rd ==> v.word.w) && !GotWrite(v.word)
    ensures v.readers != {} || v.writer.Some?
    ensures rd ==> v.writer.Some? || Overflow(v.el) < |v.el|
  {
  }

  lemma {:induction false} Enqueue(v: View, t: Tid, rd: bool, word: Word)
    requires Encodes(v) && Fresh(v, t)
    requires rd ==> v.word.w
    requires !GotWrite(v.word)
    requires word == if rd then SetRead(v.max, v.word, false, true) else SetWrite(v.word, false, true)
    ensures var v' := v.(word := word, el := v.el + [Entry(t, rd, false)]);
            Encodes(v') && FairRw.Step(LockOf(v), FairRw.Queued(FairRw.Request(t, rd)), LockOf(v'))
  {
    var v' := v.(word := word, el := v.el + [Entry(t, rd, false)]);
    HeldWhenBusy(v, rd);
    EnqueueEncodes(v, v', t, rd, word);
    EnqueueFair(v, v', t, rd);
  }

  lemma {:induction false} PlainReadRelease(v: View, t: Tid)
    requires Encodes(v) && t in v.readers && v.word.r != 0 && !Special(v.max, v.word)
    ensures var v' := v.(word := ClearRead(v.max, v.word), readers := v.readers - {t});
            && Encodes(v')
            && FairRw.Step(LockOf(v), FairRw.ReadReleased(t), LockOf(v'))
            && Overflow(v.el) == 0
  {
    var left := v.readers - {t};
    assert |left| == |v.readers| - 1;
    assert left == {} <==> |left| == 0;
  }

  lemma {:induction false} PlainWriteRelease(v: View, t: Tid)
    requires Encodes(v) && v.writer == Some(t) && v.word.r == 0
    ensures var v' := v.(word := ClearWrite(v.word), writer := None);
            Encodes(v') && FairRw.Step(LockOf(v), FairRw.WriteReleased(t), LockOf(v'))
  {
  }

  // The four ways a reader that needs the wait list can leave.

  lemma {:induction false} OwnEntryEncodes(v: View, v': View, t: Tid, i: nat)
    requires Encodes(v) && t in v.readers && i < |v.el| && v.el[i].t == t
    requires v' == v.(el := Drop(v.el, i), readers := v.readers - {t})
    ensures v.word.r == v.max && i < Overflow(v.el)
    ensures Encodes(v') && Overflow(v'.el) == Overflow(v.el) - 1
  {
    var g := Overflow(v.el);
    assert i < g;
    OverflowIs(v'.el, g - 1);
    assert |v'.readers| == |v.readers| - 1;
  }

  lemma {:induction false} EntryLeavesFair(v: View, v': View, t: Tid)
    requires t in v.readers && v'.readers == v.readers - {t} && v'.writer == v.writer == None
    requires v'.readers != {}
    requires v'.el[Overflow(v'.el)..] == v.el[Overflow(v.el)..]
    ensures FairRw.Step(LockOf(v), FairRw.ReadReleased(t), LockOf(v'))
  {
  }

  lemma {:induction false} DropTail(q: seq<Entry>, i: nat, g: nat)
    requires i < g <= |q|
    ensures Drop(q, i)[g - 1..] == q[g..]
  {
  }

  /** A holder with an entry of its own is never the last reader. */
  lemma {:induction false} OwnEntryNotLast(v: View, t: Tid, g: nat)
    requires Encodes(v) && t in v.readers && g == Overflow(v.el) && g > 0
    ensures v.writer == None && v.readers - {t} != {}
  {
    assert |v.readers - {t}| == |v.readers| - 1;
  }

  lemma {:induction false} OwnEntryRelease(v: View, t: Tid, i: nat)
    requires Encodes(v) && t in v.readers && i < |v.el| && v.el[i].t == t
    ensures var v' := v.(el := Drop(v.el, i), readers := v.readers - {t});
            && v.word.r == v.max
            && Encodes(v')
            && FairRw.Step(LockOf(v), FairRw.ReadReleased(t), LockOf(v'))
  {
    var v' := v.(el := Drop(v.el, i), readers := v.readers - {t});
    OwnEntryEncodes(v, v', t, i);
    var g := Overflow(v.el);
    DropTail(v.el, i, g);
    OwnEntryNotLast(v, t, g);
    EntryLeavesFair(v, v', t);
  }

  lemma {:induction false} OtherEntryRelease(v: View, t: Tid)
    requires Encodes(v) && t in v.readers && v.el != [] && v.el[0].have
    requires forall i :: 0 <= i < |v.el| ==> v.el[i].t != t
    ensures var v' := v.(el := v.el[1..], readers := v.readers - {t});
            && v.word.r == v.max && v.el[0].rd
            && Encodes(v')
            && FairRw.Step(LockOf(v), FairRw.ReadReleased(t), LockOf(v'))
  {
    var g := Overflow(v.el);
    OverflowIs(v.el[1..], g - 1);
    assert v.el[1..][g - 1..] == v.el[g..];
    assert |v.readers - {t}| == |v.readers| - 1;
  }

  lemma {:induction false} SaturatedRelease(v: View, t: Tid)
    requires Encodes(v) && t in v.readers && v.word.r == v.max
    requires v.el == [] || !v.el[0].have
    ensures var v' := v.(word := Word(v.word.w, v.word.r - 1), readers := v.readers - {t});
            Encodes(v') && FairRw.Step(LockOf(v), FairRw.ReadReleased(t), LockOf(v'))
  {
    assert |v.readers - {t}| == |v.readers| - 1;
  }

  lemma {:induction false} LastReaderRelease(v: View, t: Tid)
    requires Encodes(v) && t in v.readers && v.word == Word(true, 1)
    ensures v.el != [] && !v.el[0].have && !v.el[0].rd
    ensures var v' := v.(word := Word(true, if |v.el| == 1 then 0 else 1), el := v.el[1..],
                         readers := {}, writer := Some(v.el[0].t));
            && Encodes(v')
            && FairRw.Step(LockOf(v), FairRw.ReadReleased(t), LockOf(v'))
            && v.readers == {t}
  {
    assert Overflow(v.el) == 0;
    assert |v.readers - {t}| == 0;
    assert v.readers == {t};
    assert v.el[0..] == v.el;
    var rest := v.el[1..];
    assert rest != [] ==> !rest[0].have;
    OverflowIs(rest, 0);
    assert rest[0..] == rest;
    assert Requests(v.el)[1..] == Requests(rest);
  }

  lemma {:induction false} ReadEditRelease(v: View, t: Tid)
    requires Encodes(v) && t in v.readers && Special(v.max, v.word)
    ensures v.word.r != 0
    ensures var e := ReadUnlockEdit(v.max, v.word, v.el, t);
            var v' := v.(word := Word(v.word.w, e.r), el := e.list, readers := v.readers - {t},
                         writer := if e.wake.Some? then e.wake else v.writer);
            && e.ok
            && Encodes(v')
            && FairRw.Step(LockOf(v), FairRw.ReadReleased(t), LockOf(v'))
  {
    var i := Find(v.el, t);
    if i < |v.el| {
      OwnEntryRelease(v, t, i);
    } else if v.el != [] && v.el[0].have {
      OtherEntryRelease(v, t);
    } else if v.word.r == v.max {
      SaturatedRelease(v, t);
    } else {
      LastReaderRelease(v, t);
    }
  }

  // A releasing writer that has waiters.

  lemma {:induction false} RunsAgree(q: seq<Entry>)
    ensures FairRw.ReaderRun(Requests(q)) == LeadingReaders(q)
  {
    if q != [] && q[0].rd {
      assert Requests(q)[1..] == Requests(q[1..]);
      RunsAgree(q[1..]);
    }
  }

  lemma {:induction false} RunSplits(q: seq<Entry>, n: nat)
    requires n <= LeadingReaders(q)
    ensures LeadingReaders(q[n..]) == LeadingReaders(q) - n
  {
    if n > 0 {
      RunSplits(q[1..], n - 1);
      assert q[1..][n - 1..] == q[n..];
    } else {
      assert q[0..] == q;
    }
  }

  lemma {:induction false} TidsCount(q: seq<Entry>)
    requires forall i, j :: 0 <= i < j < |q| ==> q[i].t != q[j].t
    ensures |Tids(q)| == |q|
  {
    if q != [] {
      var n := |q| - 1;
      TidsCount(q[..n]);
      assert Tids(q) == Tids(q[..n]) + {q[n].t};
      assert q[n].t !in Tids(q[..n]);
    }
  }

  lemma {:induction false} TidsOfRequests(q: seq<Entry>)
    ensures FairRw.Threads(Requests(q)) == Tids(q)
  {
    var rs := Requests(q);
    forall x | x in Tids(q)
      ensures x in FairRw.Threads(rs)
    {
      var i :| 0 <= i < |q| && q[i].t == x;
      assert rs[i].t == x;
    }
    forall x | x in FairRw.Threads(rs)
      ensures x in Tids(q)
    {
      var i :| 0 <= i < |rs| && rs[i].t == x;
      assert q[i].t == x;
    }
  }

  function AfterWriteRelease(v: View): View
    requires v.el != []
  {
    var e := WriteUnlockEdit(v.max, v.el);
    v.(word := e.word, el := e.list,
       readers := if v.el[0].rd then Tids(e.wake) + Tids(e.woken) else {},
       writer := if v.el[0].rd then None else Some(v.el[0].t))
  }

  /** Leading readers are released in full, whatever the capacity of the count. */
  lemma {:induction false} WriteEditToReaders(max: nat, q: seq<Entry>)
    requires q != [] && q[0].rd && max > 0
    ensures var e := WriteUnlockEdit(max, q);
            var run := LeadingReaders(q);
            var n := if run < max then run else max;
            && e.word == Word(run < |q|, n)
            && e.list == Mark(q[n..], run - n)
            && e.wake == q[..n] && e.woken == q[n..run]
            && Tids(e.wake) + Tids(e.woken) == Tids(q[..run])
  {
    var run := LeadingReaders(q);
    var n := if run < max then run else max;
    RunSplits(q, n);
    assert q[..run] == q[..n] + q[n..run];
    TidsConcat(q[..n], q[n..run]);
    if n == run {
      assert Mark(q[n..], 0) == q[n..];
      assert n == |q| ==> q[..n] == q;
    }
  }

  lemma {:induction false} TidsConcat(a: seq<Entry>, b: seq<Entry>)
    ensures Tids(a + b) == Tids(a) + Tids(b)
  {
    forall x | x in Tids(a) + Tids(b)
      ensures x in Tids(a + b)
    {
      if x in Tids(a) {
        var i :| 0 <= i < |a| && a[i].t == x;
        assert (a + b)[i].t == x;
      } else {
        var i :| 0 <= i < |b| && b[i].t == x;
        assert (a + b)[|a| + i].t == x;
      }
    }
  }

  /** The view in which the `run` leading readers hold and the rest still wait. */
  function ReadersIn(v: View, run: nat): View
    requires run <= |v.el|
  {
    var n := if run < v.max then run else v.max;
    View(v.max, Word(run < |v.el|, n), Mark(v.el[n..], run - n), Tids(v.el[..run]), None)
  }

  lemma {:induction false} ReadersInEncodes(v: View, run: nat)
    requires Encodes(v) && v.writer.Some?
    requires 0 < run <= |v.el| && (run < |v.el| ==> !v.el[run].rd)
    requires forall i :: 0 <= i < run ==> v.el[i].rd
    ensures Encodes(ReadersIn(v, run))
    ensures Overflow(ReadersIn(v, run).el) == run - ReadersIn(v, run).word.r
  {
    var q, v' := v.el, ReadersIn(v, run);
    var n := v'.word.r;
    assert Overflow(q) == 0;
    OverflowIs(v'.el, run - n);
    TidsCount(q[..run]);
    assert v'.readers != {} by { assert q[..run][0].t in v'.readers; }
    RestTids(q, n, run);
  }

  /** Of the entries that stay, exactly the marked ones are among the readers let in. */
  lemma {:induction false} RestTids(q: seq<Entry>, n: nat, run: nat)
    requires n <= run <= |q| && forall i, j :: 0 <= i < j < |q| ==> q[i].t != q[j].t
    ensures var q' := Mark(q[n..], run - n);
      forall i :: 0 <= i < |q'| ==> (q'[i].t in Tids(q[..run]) <==> i < run - n)
  {
    var q' := Mark(q[n..], run - n);
    forall i | 0 <= i < |q'|
      ensures q'[i].t in Tids(q[..run]) <==> i < run - n
    {
      assert q'[i].t == q[n + i].t;
      if i < run - n {
        assert q[..run][n + i].t == q'[i].t;
      }
    }
  }

  lemma {:induction false} HandOffToReaders(q: seq<Entry>, run: nat)
    requires q != [] && q[0].rd && run == LeadingReaders(q)
    ensures FairRw.HandOff(FairRw.Lock({}, None, Requests(q)))
         == FairRw.Lock(Tids(q[..run]), None, Requests(q[run..]))
  {
    RunsAgree(q);
    TidsOfRequests(q[..run]);
    assert Requests(q)[..run] == Requests(q[..run]);
    assert Requests(q)[run..] == Requests(q[run..]);
  }

  lemma {:induction false} ReadersInFair(v: View, t: Tid, run: nat)
    requires v.writer == Some(t) && v.readers == {} && v.el != [] && v.el[0].rd && Overflow(v.el) == 0
    requires run == LeadingReaders(v.el)
    requires Overflow(ReadersIn(v, run).el) == run - ReadersIn(v, run).word.r
    ensures FairRw.Step(LockOf(v), FairRw.WriteReleased(t), LockOf(ReadersIn(v, run)))
  {
    var q, v' := v.el, ReadersIn(v, run);
    assert q[0..] == q;
    HandOffToReaders(q, run);
    assert Requests(q[run..]) == Requests(v'.el[run - v'.word.r..]);
  }

  lemma {:induction false} WriterGranted(v: View, t: Tid)
    requires Encodes(v) && v.writer == Some(t) && v.el != [] && !v.el[0].rd
    ensures var v' := AfterWriteRelease(v);
            Encodes(v') && FairRw.Step(LockOf(v), FairRw.WriteReleased(t), LockOf(v'))
  {
    var q := v.el;
    assert Overflow(q) == 0 && q[0..] == q;
    OverflowIs(q[1..], 0);
    assert q[1..][0..] == q[1..];
    assert Requests(q)[1..] == Requests(q[1..]);
  }

  lemma {:induction false} ReadersRelease(v: View, t: Tid, run: nat)
    requires Encodes(v) && v.writer == Some(t) && v.el != [] && v.el[0].rd && run == LeadingReaders(v.el)
    ensures Encodes(ReadersIn(v, run))
    ensures FairRw.Step(LockOf(v), FairRw.WriteReleased(t), LockOf(ReadersIn(v, run)))
  {
    ReadersInEncodes(v, run);
    ReadersInFair(v, t, run);
  }

  lemma {:induction false} AfterIsReadersIn(v: View, run: nat)
    requires v.el != [] && v.el[0].rd && v.max > 0 && run == LeadingReaders(v.el)
    ensures AfterWriteRelease(v) == ReadersIn(v, run)
  {
    WriteEditToReaders(v.max, v.el);
  }

  lemma {:induction false} WriteEditRelease(v: View, t: Tid)
    requires Encodes(v) && v.writer == Some(t) && v.el != []
    ensures var v' := AfterWriteRelease(v);
            Encodes(v') && FairRw.Step(LockOf(v), FairRw.WriteReleased(t), LockOf(v'))
  {
    if v.el[0].rd {
      var run := LeadingReaders(v.el);
      AfterIsReadersIn(v, run);
      ReadersRelease(v, t, run);
    } else {
      WriterGranted(v, t);
    }
  }
}
