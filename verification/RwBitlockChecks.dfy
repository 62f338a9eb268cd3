/**
 * The one check of the bit-range reader-writer lock that looks at more than the lock's own bits while
 * other threads run: a contended writer's release compares the whole word, read before it locked the
 * wait list, with the word as it is then.
 */
module RwBitlockChecks {
  import opened Base
  import opened RwBitlock
  import RwBitlockProof
  import opened RwBitlockRuns

  predicate InRelease(p: Pc) {
    p.WriteUnWant? || p.WriteUnUnderList?
  }

  predicate Acts(a: Action, t: Tid) {
    !a.SetPayload? && a.t == t
  }

  /** What a step means for a thread that is in a contended release afterwards. */
  predicate Follows(s: State, a: Action, s': State, t: Tid) {
    InRelease(At(s', t)) ==>
      if !Acts(a, t) then At(s', t) == At(s, t)
      else if InRelease(At(s, t)) then
        a.TakeList? && At(s', t).saw == At(s, t).saw && At(s', t).beside == At(s, t).beside
      else a == WriteUnFast(t) && At(s', t) == WriteUnWant(s.word, s.payload)
  }

  /** A step moves its own thread only, and most do not end in a contended release. */
  predicate MovesOne(s: State, a: Action, s': State)
    requires !a.SetPayload?
  {
    && (s'.pc == s.pc || s'.pc == s.pc[a.t := At(s', a.t)])
    && (InRelease(At(s', a.t)) ==> a.TakeList? || a.WriteUnFast?)
  }

  predicate Acquires(a: Action) {
    a.ReadFast? || a.WriteFast? || a.ReadSlow? || a.WriteSlow? || a.Append? || a.Resume? || a.Signal? || a.SignalDone?
  }

  lemma {:induction false} AcquireMoves(s: State, a: Action, s': State)
    requires Can(s, a) && s' == Do(s, a) && Acquires(a)
    ensures MovesOne(s, a, s')
  {
  }

  lemma {:induction false} ReleaseMoves(s: State, a: Action, s': State)
    requires Can(s, a) && s' == Do(s, a) && !Acquires(a) && !a.SetPayload?
    ensures MovesOne(s, a, s')
  {
  }

  lemma {:induction false} EntryMoves(s: State, s': State, t: Tid)
    requires if At(s, t).Writing? then s' == DoWriteUnFast(s, t) else s' == DoTakeList(s, t)
    ensures Follows(s, if At(s, t).Writing? then WriteUnFast(t) else TakeList(t), s', t)
  {
  }

  lemma {:induction false} StepFollows(s: State, a: Action, s': State, t: Tid)
    requires Can(s, a) && s' == Do(s, a)
    ensures Follows(s, a, s', t)
  {
    if a.SetPayload? {
      assert s'.pc == s.pc;
    } else {
      if Acquires(a) {
        AcquireMoves(s, a, s');
      } else {
        ReleaseMoves(s, a, s');
      }
      if a.t == t && (a.WriteUnFast? || a.TakeList?) {
        EntryMoves(s, s', t);
      }
    }
  }

  lemma {:induction false} PayloadStays(s: State, a: Action, s': State)
    requires Can(s, a) && s' == Do(s, a) && !a.SetPayload?
    ensures s'.payload == s.payload
  {
  }

  /** Since the step `j` in which it found others waiting, the thread has at most locked the list. */
  predicate ReleasingSince(acts: seq<Action>, j: nat, k: nat, t: Tid)
    requires j < k <= |acts|
  {
    acts[j] == WriteUnFast(t) && forall m :: j < m < k && Acts(acts[m], t) ==> acts[m].TakeList?
  }

  predicate History(ss: seq<State>, acts: seq<Action>, t: Tid) {
    && |ss| == |acts| + 1 && ss[0].pc == map[]
    && forall k :: 0 <= k < |acts| ==> Follows(ss[k], acts[k], ss[k + 1], t)
  }

  lemma {:induction false} RunHistory(ss: seq<State>, acts: seq<Action>, t: Tid)
    requires Run(ss, acts)
    ensures History(ss, acts, t)
  {
    forall k | 0 <= k < |acts|
      ensures Follows(ss[k], acts[k], ss[k + 1], t)
    {
      StepFollows(ss[k], acts[k], ss[k + 1], t);
    }
  }

  lemma {:induction false} WhereReleased(ss: seq<State>, acts: seq<Action>, k: nat, t: Tid) returns (j: nat)
    requires History(ss, acts, t) && k < |ss| && InRelease(At(ss[k], t))
    ensures j < k && ReleasingSince(acts, j, k, t)
    ensures At(ss[k], t).saw == ss[j].word && At(ss[k], t).beside == ss[j].payload
  {
    assert Follows(ss[k - 1], acts[k - 1], ss[k], t);
    if Acts(acts[k - 1], t) && !InRelease(At(ss[k - 1], t)) {
      j := k - 1;
    } else {
      j := WhereReleased(ss, acts, k - 1, t);
    }
  }

  lemma {:induction false} PayloadSince(ss: seq<State>, acts: seq<Action>, j: nat, k: nat)
    requires Run(ss, acts) && j <= k < |ss| && forall m :: j <= m < k ==> !acts[m].SetPayload?
    ensures ss[k].payload == ss[j].payload
  {
    if j < k {
      PayloadSince(ss, acts, j, k - 1);
      PayloadStays(ss[k - 1], acts[k - 1], ss[k]);
    }
  }

  /**
   * When a releasing writer has locked the wait list, the lock's bits are as it read them; so the
   * comparison of the whole words holds if and only if the payload is what it was at that read, and
   * certainly if no one has stored to it since.
   */
  lemma {:induction false} ReleaseCheck(ss: seq<State>, acts: seq<Action>, k: nat, t: Tid) returns (j: nat)
    requires Run(ss, acts) && k < |ss| && At(ss[k], t).WriteUnUnderList?
    ensures j < k && ReleasingSince(acts, j, k, t)
    ensures ss[k].word == ss[j].word == Word(true, 1)
    ensures WholeWordCheck(ss[k], t) <==> ss[k].payload == ss[j].payload
    ensures (forall m :: j <= m < k ==> !acts[m].SetPayload?) ==> WholeWordCheck(ss[k], t)
  {
    RunHistory(ss, acts, t);
    j := WhereReleased(ss, acts, k, t);
    RunInv(ss, acts, k);
    BitsUnderRelease(ss[k], t);
    if forall m :: j <= m < k ==> !acts[m].SetPayload? {
      PayloadSince(ss, acts, j, k);
    }
  }

  lemma {:induction false} BitsUnderRelease(s: State, t: Tid)
    requires Inv(s) && At(s, t).WriteUnUnderList?
    ensures s.word == At(s, t).saw == Word(true, 1)
  {
    assert ThreadOk(s, RwBitlockProof.ViewOf(s).el, t);
    assert RwBitlockProof.OwnerPc(s) == At(s, t);
  }

  // ---------- a run in which the comparison fails ----------

  predicate Step(s: State, a: Action, s': State) {
    Can(s, a) && s' == Do(s, a)
  }

  predicate Steps(ss: seq<State>, acts: seq<Action>) {
    |ss| == |acts| + 1 && forall i :: 0 <= i < |acts| ==> Step(ss[i], acts[i], ss[i + 1])
  }

  lemma {:induction false} Then(ss: seq<State>, acts: seq<Action>, a: Action, s': State)
      returns (ss': seq<State>, acts': seq<Action>)
    requires Steps(ss, acts) && Step(ss[|acts|], a, s')
    ensures Steps(ss', acts') && ss'[0] == ss[0] && ss'[|acts'|] == s' && ss' == ss + [s'] && acts' == acts + [a]
  {
    ss', acts' := ss + [s'], acts + [a];
    forall i | 0 <= i < |acts'|
      ensures Step(ss'[i], acts'[i], ss'[i + 1])
    {
      if i < |acts| {
        assert ss'[i] == ss[i] && ss'[i + 1] == ss[i + 1] && acts'[i] == acts[i];
      }
    }
  }

  /** Thread 1 is the writer, at `p`; thread 2 is at `p2`. */
  function Scene(max: nat, payload: nat, r: nat, list: seq<Entry>, owner: Option<Tid>, p: Pc, p2: Pc): State {
    State(max, payload, Word(true, r), list, owner, map[1 := p, 2 := p2], map[], {}, {}, Some(1))
  }

  /** Thread 1 has the write lock and thread 2 waits for it. */
  lemma {:induction false} ToWaiting(max: nat, payload: nat) returns (ss: seq<State>, acts: seq<Action>)
    requires max >= 3
    ensures Steps(ss, acts) && Init(ss[0]) && ss[0].max == max && ss[0].payload == payload
    ensures ss[|acts|] == Scene(max, payload, 1, [Entry(2, false, false)], None, Writing, WriteAsleep)
    ensures forall m :: 0 <= m < |acts| ==> !acts[m].SetPayload?
  {
    var s := State(max, payload, Word(false, 0), [], None, map[], map[], {}, {}, None);
    ss, acts := [s], [];
    ss, acts := Then(ss, acts, WriteFast(1, false), s.(word := Word(true, 0), pc := map[1 := Writing], writer := Some(1)));
    ss, acts := Then(ss, acts, WriteFast(2, false), Scene(max, payload, 0, [], None, Writing, WriteWant));
    ss, acts := Then(ss, acts, TakeList(2), Scene(max, payload, 0, [], Some(2), Writing, WriteUnderList));
    ss, acts := Then(ss, acts, WriteSlow(2), Scene(max, payload, 1, [], Some(2), Writing, WriteAppend));
    assert [] + [Entry(2, false, false)] == [Entry(2, false, false)];
    ss, acts := Then(ss, acts, Append(2), Scene(max, payload, 1, [Entry(2, false, false)], None, Writing, WriteAsleep));
  }

  /**
   * For every width of the lock and every two payloads: one store to the payload between the writer's
   * read and its locking of the list makes the comparison fail.
   */
  lemma {:induction false} OneStoreFails(max: nat, before: nat, after: nat)
      returns (ss: seq<State>, acts: seq<Action>, k: nat)
    requires max >= 3 && before != after
    ensures Run(ss, acts) && ss[0].max == max && ss[0].payload == before
    ensures k < |ss| && At(ss[k], 1).WriteUnUnderList? && !WholeWordCheck(ss[k], 1)
    ensures exists m :: 0 <= m < |acts| && acts[m] == SetPayload(after) && forall i :: 0 <= i < |acts| && i != m ==> !acts[i].SetPayload?
  {
    ss, acts := ToWaiting(max, before);
    var m := |acts| + 1;
    var q, w := [Entry(2, false, false)], Word(true, 1);
    ss, acts := Then(ss, acts, WriteUnFast(1), Scene(max, before, 1, q, None, WriteUnWant(w, before), WriteAsleep));
    ss, acts := Then(ss, acts, SetPayload(after), Scene(max, after, 1, q, None, WriteUnWant(w, before), WriteAsleep));
    ss, acts := Then(ss, acts, TakeList(1), Scene(max, after, 1, q, Some(1), WriteUnUnderList(w, before), WriteAsleep));
    k := |acts|;
    assert acts[m] == SetPayload(after);
    assert Run(ss, acts) by {
      forall i | 0 <= i < |acts|
        ensures Can(ss[i], acts[i]) && ss[i + 1] == Do(ss[i], acts[i])
      {
        assert Step(ss[i], acts[i], ss[i + 1]);
      }
    }
  }
}
