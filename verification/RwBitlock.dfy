/**
 * The reader-writer lock made of a few bits of a word, as a transition system.
 *
 * One state component per shared variable: the bits of the lock word, the wait list (restricted
 * to the entries that carry this lock's bit range), the owner of the wait-list lock and the
 * wake-up signals. Every compare-and-swap, and every edit made under the wait-list lock, is one
 * action; other threads may act between any two of them. `readers` and `writer` are auxiliary:
 * no action reads them.
 *
 * A `Tid` names one acquisition, that is one waiter buffer.
 */
module RwBitlock {
  import opened Base

  datatype Entry = Entry(t: Tid, rd: bool, have: bool)

  /** The writer bit and the reader count. */
  datatype Word = Word(w: bool, r: nat)

  datatype Pc =
    | Idle
    | ReadWant(try: bool)            // about to take the wait-list lock
    | ReadUnderList(try: bool)       // owns the wait-list lock
    | ReadAppend(have: bool)         // word done, about to append its entry
    | ReadAsleep
    | Reading
    | WriteWant
    | WriteUnderList
    | WriteAppend
    | WriteAsleep
    | Writing
    | ReadUnWant
    | ReadUnUnderList
    | ReadUnSpecial                  // saw a saturated count, or itself as last reader
    | ReadUnSwap(oldR: nat, newR: nat)
    | WriteUnWant(saw: Word, beside: nat)        // the word as read, and the payload with it
    | WriteUnUnderList(saw: Word, beside: nat)
    | WriteUnSwap(oldW: Word, newW: Word)
    | Signalling                     // wait-list lock dropped, waking those it granted
    | Fault                          // a check of the lock's bits or of the list failed

  datatype State = State(
    max: nat,                        // largest reader count that fits
    payload: nat,                    // the bits that are not the lock's
    word: Word,
    list: seq<Entry>,
    listOwner: Option<Tid>,
    pc: map<Tid, Pc>,                // a thread not listed is idle
    waking: map<Tid, Tid>,           // granted sleeper -> thread that still has to signal it
    signalled: set<Tid>,
    readers: set<Tid>,
    writer: Option<Tid>)

  // ---------- the four swap loops on the lock word ----------

  function SetRead(max: nat, w: Word, try: bool, underList: bool): Word {
    if w.w then
      if !underList || try || w.r != 0 then w else Word(true, w.r + 1)
    else if w.r == max then w
    else Word(false, w.r + 1)
  }

  predicate GotRead(max: nat, w: Word) {
    w.r != max && !w.w
  }

  /** Saturated, or the last reader with a writer waiting: needs the wait list. */
  predicate Special(max: nat, w: Word) {
    w.r == max || (w.w && w.r == 1)
  }

  function ClearRead(max: nat, w: Word): Word
    requires w.r != 0
  {
    if Special(max, w) then w else Word(w.w, w.r - 1)
  }

  function SetWrite(w: Word, try: bool, underList: bool): Word {
    if w.w then
      if !underList || try || w.r != 0 then w else Word(true, w.r + 1)
    else if w.r != 0 then
      if !underList || try then w else Word(true, w.r)
    else Word(true, 0)
  }

  predicate GotWrite(w: Word) {
    w.r == 0 && !w.w
  }

  function ClearWrite(w: Word): Word {
    if w.r != 0 then w else Word(false, 0)
  }

  // ---------- edits of the wait list ----------

  /** Position of `t` on the list, or the length if it is not there. */
  function Find(q: seq<Entry>, t: Tid): (i: nat)
    ensures i <= |q|
    ensures forall k :: 0 <= k < i ==> q[k].t != t
    ensures i < |q| ==> q[i].t == t
  {
    if q == [] || q[0].t == t then 0 else 1 + Find(q[1..], t)
  }

  function Drop(q: seq<Entry>, i: nat): seq<Entry>
    requires i < |q|
  {
    q[..i] + q[i + 1..]
  }

  function LeadingReaders(q: seq<Entry>): (n: nat)
    ensures n <= |q|
    ensures forall i :: 0 <= i < n ==> q[i].rd
    ensures n < |q| ==> !q[n].rd
  {
    if q == [] || !q[0].rd then 0 else 1 + LeadingReaders(q[1..])
  }

  function Mark(q: seq<Entry>, n: nat): seq<Entry>
    requires n <= |q|
  {
    seq(|q|, i requires 0 <= i < |q| => if i < n then q[i].(have := true) else q[i])
  }

  function Tids(q: seq<Entry>): set<Tid> {
    set i | 0 <= i < |q| :: q[i].t
  }

  datatype ReadEdit = ReadEdit(ok: bool, list: seq<Entry>, r: nat, wake: Option<Tid>)

  /** What a reader that found a special word does to the list and the count. */
  function ReadUnlockEdit(max: nat, w: Word, q: seq<Entry>, t: Tid): ReadEdit
    requires w.r != 0
  {
    var i := Find(q, t);
    if i < |q| then ReadEdit(w.r == max, Drop(q, i), w.r, None)
    else if q == [] then ReadEdit(true, q, w.r - 1, None)
    else if q[0].have then ReadEdit(q[0].rd && w.r == max, q[1..], w.r, None)
    else
      var wake := w.r == 1;
      ReadEdit(!q[0].rd,
               if wake then q[1..] else q,
               if |q| == 1 || w.r == max then w.r - 1 else w.r,
               if wake then Some(q[0].t) else None)
  }

  datatype WriteEdit = WriteEdit(list: seq<Entry>, word: Word, wake: seq<Entry>, woken: seq<Entry>)

  /** What a releasing writer does: `wake` leaves the list, `woken` stays on it as overflow. */
  function WriteUnlockEdit(max: nat, q: seq<Entry>): WriteEdit
    requires q != []
  {
    if !q[0].rd then
      WriteEdit(q[1..], Word(true, if |q| > 1 then 1 else 0), q[..1], [])
    else
      var run := LeadingReaders(q);
      var n := if run < max then run else max;
      if n == |q| then WriteEdit([], Word(false, n), q, [])
      else if n == max && q[n].rd then
        var m := LeadingReaders(q[n..]);
        WriteEdit(Mark(q[n..], m), Word(n + m < |q|, n), q[..n], q[n..n + m])
      else
        WriteEdit(q[n..], Word(true, n), q[..n], [])
  }

  // ---------- actions ----------

  datatype Action =
    | ReadFast(t: Tid, try: bool)
    | WriteFast(t: Tid, try: bool)
    | TakeList(t: Tid)
    | ReadSlow(t: Tid)
    | WriteSlow(t: Tid)
    | Append(t: Tid)
    | Resume(t: Tid)
    | ReadUnFast(t: Tid)
    | ReadUnSlow(t: Tid)
    | ReadUnEdit(t: Tid)
    | ReadUnFinish(t: Tid)
    | WriteUnFast(t: Tid)
    | WriteUnEdit(t: Tid)
    | WriteUnFinish(t: Tid)
    | Signal(t: Tid, x: Tid)
    | SignalDone(t: Tid)
    | SetPayload(value: nat)

  function At(s: State, t: Tid): Pc {
    if t in s.pc then s.pc[t] else Idle
  }

  predicate Can(s: State, a: Action) {
    if a.SetPayload? then true
    else
      var p := At(s, a.t);
      match a
      case ReadFast(_, _) => p.Idle?
      case WriteFast(_, _) => p.Idle?
      case TakeList(_) =>
        s.listOwner == None && (p.ReadWant? || p.WriteWant? || p.ReadUnWant? || p.WriteUnWant?)
      case ReadSlow(_) => p.ReadUnderList?
      case WriteSlow(_) => p.WriteUnderList?
      case Append(_) => p.ReadAppend? || p.WriteAppend?
      case Resume(_) => (p.ReadAsleep? || p.WriteAsleep?) && a.t in s.signalled
      case ReadUnFast(_) => p.Reading?
      case ReadUnSlow(_) => p.ReadUnUnderList?
      case ReadUnEdit(_) => p.ReadUnSpecial?
      case ReadUnFinish(_) => p.ReadUnSwap?
      case WriteUnFast(_) => p.Writing?
      case WriteUnEdit(_) => p.WriteUnUnderList?
      case WriteUnFinish(_) => p.WriteUnSwap?
      case Signal(_, x) => p.Signalling? && x in s.waking && s.waking[x] == a.t
      case SignalDone(_) => p.Signalling? && a.t !in s.waking.Values
  }

  function To(s: State, t: Tid, p: Pc): State {
    s.(pc := s.pc[t := p])
  }

  function DoReadFast(s: State, t: Tid, try: bool): State {
    if GotRead(s.max, s.word) then
      To(s, t, Reading).(word := SetRead(s.max, s.word, try, false), readers := s.readers + {t})
    else if try && s.word.w then s
    else To(s, t, ReadWant(try))
  }

  function DoWriteFast(s: State, t: Tid, try: bool): State {
    if GotWrite(s.word) then
      To(s, t, Writing).(word := SetWrite(s.word, try, false), writer := Some(t))
    else if try then s
    else To(s, t, WriteWant)
  }

  function DoTakeList(s: State, t: Tid): State
  {
    var p := match At(s, t)
      case ReadWant(try) => ReadUnderList(try)
      case WriteWant => WriteUnderList
      case ReadUnWant => ReadUnUnderList
      case WriteUnWant(w, p) => WriteUnUnderList(w, p)
      case other => other;
    To(s, t, p).(listOwner := Some(t))
  }

  function DoReadSlow(s: State, t: Tid): State
    requires At(s, t).ReadUnderList?
  {
    var try := At(s, t).try;
    var word := SetRead(s.max, s.word, try, true);
    if GotRead(s.max, s.word) then
      To(s, t, Reading).(word := word, readers := s.readers + {t}, listOwner := None)
    else if try && s.word.w then To(s, t, Idle).(listOwner := None)
    else if s.word.w then To(s, t, ReadAppend(false)).(word := word)
    else To(s, t, ReadAppend(true)).(word := word, readers := s.readers + {t})
  }

  function DoWriteSlow(s: State, t: Tid): State {
    var word := SetWrite(s.word, false, true);
    if GotWrite(s.word) then
      To(s, t, Writing).(word := word, writer := Some(t), listOwner := None)
    else To(s, t, WriteAppend).(word := word)
  }

  function DoAppend(s: State, t: Tid): State
  {
    match At(s, t)
    case ReadAppend(have) =>
      To(s, t, if have then Reading else ReadAsleep)
        .(list := s.list + [Entry(t, true, have)], listOwner := None)
    case _ =>
      To(s, t, WriteAsleep).(list := s.list + [Entry(t, false, false)], listOwner := None)
  }

  function DoResume(s: State, t: Tid): State
  {
    To(s, t, if At(s, t).ReadAsleep? then Reading else Writing).(signalled := s.signalled - {t})
  }

  function DoReadUnFast(s: State, t: Tid): State {
    if s.word.r == 0 then To(s, t, Fault)
    else if Special(s.max, s.word) then To(s, t, ReadUnWant)
    else if t in Tids(s.list) then To(s, t, Fault)
    else To(s, t, Idle).(word := ClearRead(s.max, s.word), readers := s.readers - {t})
  }

  function DoReadUnSlow(s: State, t: Tid): State {
    if s.word.r == 0 then To(s, t, Fault)
    else if Special(s.max, s.word) then To(s, t, ReadUnSpecial)
    else if t in Tids(s.list) then To(s, t, Fault)
    else
      To(s, t, Idle)
        .(word := ClearRead(s.max, s.word), readers := s.readers - {t}, listOwner := None)
  }

  function DoReadUnEdit(s: State, t: Tid): State {
    if s.word.r == 0 || !Special(s.max, s.word) then To(s, t, Fault)
    else
      var e := ReadUnlockEdit(s.max, s.word, s.list, t);
      if !e.ok then To(s, t, Fault)
      else
        To(s, t, ReadUnSwap(s.word.r, e.r))
          .(list := e.list,
            readers := s.readers - {t},
            writer := if e.wake.Some? then e.wake else s.writer,
            waking := if e.wake.Some? then s.waking[e.wake.value := t] else s.waking)
  }

  /** The masked swap of the reader bits must find them unchanged. */
  function DoReadUnFinish(s: State, t: Tid): State
    requires At(s, t).ReadUnSwap?
  {
    var p := At(s, t);
    if p.oldR == p.newR then To(s, t, Signalling).(listOwner := None)
    else if s.word.r != p.oldR then To(s, t, Fault)
    else To(s, t, Signalling).(word := Word(s.word.w, p.newR), listOwner := None)
  }

  function DoWriteUnFast(s: State, t: Tid): State {
    if !s.word.w then To(s, t, Fault)
    else if s.word.r != 0 then To(s, t, WriteUnWant(s.word, s.payload))
    else To(s, t, Idle).(word := ClearWrite(s.word), writer := None)
  }

  /**
   * Here the code compares the whole word with the one read before the list was locked. The lock's bits
   * are compared below; `WholeWordCheck` is the whole comparison.
   */
  function DoWriteUnEdit(s: State, t: Tid): State
    requires At(s, t).WriteUnUnderList?
  {
    if s.word != At(s, t).saw || s.list == [] then To(s, t, Fault)
    else
      var e := WriteUnlockEdit(s.max, s.list);
      var readers := if s.list[0].rd then Tids(e.wake) + Tids(e.woken) else {};
      To(s, t, WriteUnSwap(s.word, e.word))
        .(list := e.list,
          readers := readers,
          writer := if s.list[0].rd then None else Some(s.list[0].t),
          waking := s.waking + (map x | x in Tids(e.wake) :: t),
          signalled := s.signalled + Tids(e.woken))
  }

  predicate WholeWordCheck(s: State, t: Tid)
    requires At(s, t).WriteUnUnderList?
  {
    s.word == At(s, t).saw && s.payload == At(s, t).beside
  }

  function DoWriteUnFinish(s: State, t: Tid): State
    requires At(s, t).WriteUnSwap?
  {
    var p := At(s, t);
    if s.word != p.oldW then To(s, t, Fault)
    else To(s, t, Signalling).(word := p.newW, listOwner := None)
  }

  function DoSignal(s: State, x: Tid): State {
    s.(waking := s.waking - {x}, signalled := s.signalled + {x})
  }

  function Do(s: State, a: Action): State
    requires Can(s, a)
  {
    match a
    case ReadFast(t, try) => DoReadFast(s, t, try)
    case WriteFast(t, try) => DoWriteFast(s, t, try)
    case TakeList(t) => DoTakeList(s, t)
    case ReadSlow(t) => DoReadSlow(s, t)
    case WriteSlow(t) => DoWriteSlow(s, t)
    case Append(t) => DoAppend(s, t)
    case Resume(t) => DoResume(s, t)
    case ReadUnFast(t) => DoReadUnFast(s, t)
    case ReadUnSlow(t) => DoReadUnSlow(s, t)
    case ReadUnEdit(t) => DoReadUnEdit(s, t)
    case ReadUnFinish(t) => DoReadUnFinish(s, t)
    case WriteUnFast(t) => DoWriteUnFast(s, t)
    case WriteUnEdit(t) => DoWriteUnEdit(s, t)
    case WriteUnFinish(t) => DoWriteUnFinish(s, t)
    case Signal(_, x) => DoSignal(s, x)
    case SignalDone(t) => To(s, t, Idle)
    case SetPayload(value) => s.(payload := value)
  }

  predicate Init(s: State) {
    && s.max >= 3
    && s.word == Word(false, 0)
    && s.list == []
    && s.listOwner == None
    && s.pc == map[]
    && s.waking == map[]
    && s.signalled == {}
    && s.readers == {}
    && s.writer == None
  }

  predicate Run(ss: seq<State>, acts: seq<Action>) {
    && |ss| == |acts| + 1
    && Init(ss[0])
    && forall i :: 0 <= i < |acts| ==> Can(ss[i], acts[i]) && ss[i + 1] == Do(ss[i], acts[i])
  }
}
