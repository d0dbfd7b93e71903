/**
 The accounting of the JSONL pipeline: conservation of records, the slot
 discipline, and what the sink holds at every moment.
 */
module JsonlProofs {
  import opened Wrappers
  import opened JsonlModel

  // ---------------------------------------------------------------- counting

  /** Properties of Log calls that the accounting counts. */
  datatype Tag = HasSlot | BetweenAdds | BeforeSend | HasFate(fate: Fate)

  predicate Is(c: LogCall, tag: Tag) {
    match tag
    case HasSlot => c.pc.SlotClosed? || c.pc.SlotFailed? || c.pc.GiveBack? || c.pc.Accept? || c.pc.Pend? || c.pc.Send?
    case BetweenAdds => c.pc.Pend?
    case BeforeSend => c.pc.Send?
    case HasFate(fate) => c.fate == Some(fate)
  }

  function One(b: bool): nat {
    if b then 1 else 0
  }

  function Count(calls: seq<LogCall>, tag: Tag): nat {
    if calls == [] then 0 else Count(calls[..|calls| - 1], tag) + One(Is(calls[|calls| - 1], tag))
  }

  lemma {:induction false} CountUpdate(calls: seq<LogCall>, i: nat, c: LogCall, tag: Tag)
    requires i < |calls|
    ensures Count(calls[i := c], tag) + One(Is(calls[i], tag)) == Count(calls, tag) + One(Is(c, tag))
  {
    var n := |calls| - 1;
    var later := calls[i := c];
    if i == n {
      assert later[..n] == calls[..n];
    } else {
      assert later[..n] == calls[..n][i := c];
      CountUpdate(calls[..n], i, c, tag);
    }
  }

  lemma CountAppend(calls: seq<LogCall>, c: LogCall, tag: Tag)
    ensures Count(calls + [c], tag) == Count(calls, tag) + One(Is(c, tag))
  {
    assert (calls + [c])[..|calls|] == calls;
  }

  lemma {:induction false} CountNone(calls: seq<LogCall>, tag: Tag)
    requires forall i :: 0 <= i < |calls| ==> !Is(calls[i], tag)
    ensures Count(calls, tag) == 0
  {
    if calls != [] {
      CountNone(calls[..|calls| - 1], tag);
    }
  }

  lemma {:induction false} CountSome(calls: seq<LogCall>, i: nat, tag: Tag)
    requires i < |calls| && Is(calls[i], tag)
    ensures Count(calls, tag) > 0
  {
    if i < |calls| - 1 {
      CountSome(calls[..|calls| - 1], i, tag);
    }
  }

  // -------------------------------------------------------------- invariants

  /** The writer has a record that still occupies a slot. */
  predicate InHand(w: WriterPc) {
    match w
    case Receive => false
    case Unlocking => false
    case Exited => false
    case _ => true
  }

  /** The writer has a record that `pending` still counts. */
  predicate Owed(w: WriterPc) {
    InHand(w) && w != FreeSlot
  }

  function Remaining(c: ClosePc): nat {
    if c.Adding? then c.remaining else 0
  }

  /** Close has taken `pending` over. */
  predicate Swapped(s: State) {
    s.abandoned && s.closer != Swapping
  }

  predicate AfterQueueClose(c: ClosePc) {
    match c
    case NotCalled => false
    case StopAdmission => false
    case CallLock => false
    case WantWriteLock => false
    case HasWriteLock => false
    case _ => true
  }

  predicate Inside(c: LogCall) {
    match c.pc
    case Enter => false
    case CheckFailed => false
    case WantLock => false
    case LockedClosed => false
    case CountDrop(_, _) => false
    case Unlock => false
    case Finished => false
    case _ => true
  }

  /** The fate of a call is settled exactly when its counter was incremented. */
  predicate FateOk(c: LogCall) {
    match c.pc
    case Pend => c.fate == Some(Accepted)
    case Send => c.fate == Some(Accepted)
    case Unlock => c.fate.Some?
    case Finished => c.fate.Some?
    case _ => c.fate == None
  }

  /** How far Close and the writer are, and what they have set. */
  predicate Stages(s: State) {
    && (s.queueClosed <==> AfterQueueClose(s.closer))
    && (s.closer == NotCalled <==> !s.closedState)
    && (s.closer == NotCalled || s.closer == StopAdmission || s.admissionStop)
    && (s.abandoned ==>
          s.closer.Swapping? || s.closer.Adding? || s.closer.Released? || s.closer.Timeout? || s.closer.Closed?)
    && (s.closer.Swapping? || s.closer.Adding? || s.closer.Released? || s.closer.Timeout? ==> s.abandoned)
    && (s.closer == Closed ==> s.abandoned || s.writer == Exited)
    && (s.abandoned ==> !s.writer.Locked? && !s.writer.FailureSet? && !s.writer.Counted?)
    && (s.writer == Exited ==> s.queueClosed && s.queue == [])
    && !(WriterHasAccounts(s.writer) && CloserHasAccounts(s.closer))
  }

  /** Whom the admission lock shuts out. */
  ghost predicate Admission(s: State) {
    && (WriteLocked(s) ==> NoReaders(s))
    && (s.queueClosed ==> forall i :: 0 <= i < |s.calls| ==> !Inside(s.calls[i]))
    && (forall i :: 0 <= i < |s.calls| ==> FateOk(s.calls[i]))
  }

  ghost predicate Lifecycle(s: State) {
    Stages(s) && Admission(s)
  }

  predicate SlotLedger(s: State) {
    && s.slots == Count(s.calls, HasSlot) + |s.queue| + One(InHand(s.writer))
    && s.slots <= s.capacity < 0x1_0000_0000_0000_0000
    && 0 < s.capacity
  }

  predicate PendingLedger(s: State) {
    s.counters.pending ==
      if Swapped(s) then 0 else |s.queue| + One(Owed(s.writer)) + Count(s.calls, BeforeSend)
  }

  predicate RecordLedger(s: State) {
    s.counters.accepted + One(s.writer == Counted) ==
      s.counters.written + s.counters.undelivered + s.counters.pending
      + Count(s.calls, BetweenAdds) + Remaining(s.closer)
  }

  predicate FateLedger(s: State) {
    && s.counters.accepted == Count(s.calls, HasFate(Accepted))
    && s.counters.queueTimeout == Count(s.calls, HasFate(Dropped(QueueTimeout)))
    && s.counters.canceled == Count(s.calls, HasFate(Dropped(Canceled)))
    && s.counters.postClose == Count(s.calls, HasFate(Dropped(PostClose)))
    && s.counters.sinkFailure == Count(s.calls, HasFate(Dropped(SinkFailure)))
  }

  ghost predicate Ledgers(s: State) {
    Lifecycle(s) && SlotLedger(s) && PendingLedger(s) && RecordLedger(s) && FateLedger(s)
  }

  // ---------------------------------------------------------- Log call steps

  /** How one step of a Log call moves it between the counted groups. */
  predicate SlotMoves(v: LogView, c: LogCall, d: LogCall, e: Effect) {
    && (One(Is(d, HasSlot)) + One(e.ReturnSlot?) + One(e.Enqueue?) == One(Is(c, HasSlot)) + One(e.TakeSlot?))
    && (e.TakeSlot? ==> v.slotFree)
    && (e.ReturnSlot? ==> v.slotTaken)
  }

  predicate CountMoves(c: LogCall, d: LogCall, e: Effect) {
    && (One(Is(d, BetweenAdds)) + One(e.AddPending?) == One(Is(c, BetweenAdds)) + One(e == CountFate(Accepted)))
    && (One(Is(d, BeforeSend)) + One(e.Enqueue?) == One(Is(c, BeforeSend)) + One(e.AddPending?))
    && (if e.CountFate? then c.fate == None && d.fate == Some(e.fate) else d.fate == c.fate)
  }

  predicate Moves(v: LogView, c: LogCall, d: LogCall, e: Effect) {
    SlotMoves(v, c, d, e) && CountMoves(c, d, e)
  }

  /** Locks and fates after one step of a Log call. */
  predicate Orderly(v: LogView, c: LogCall, d: LogCall, e: Effect) {
    && FateOk(d)
    && (HoldsReadLock(d) ==> HoldsReadLock(c) || !v.heldBack)
    && (Inside(d) ==> Inside(c) || !v.queueClosed)
    && (e.Enqueue? || e.AddPending? ==> Inside(c))
    && (e.Enqueue? ==> !v.queueClosed)
  }

  /** The call is still being admitted. */
  predicate Waiting(pc: LogPc) {
    match pc
    case Enter => true
    case CheckFailed => true
    case WantLock => true
    case LockedClosed => true
    case LockedFailed => true
    case TrySlot => true
    case CheckContext => true
    case WaitSlot => true
    case _ => false
  }

  lemma SlotMovesEarly(v: LogView, c: LogCall, alt: Alternative)
    requires CanLog(v, c, alt) && Waiting(c.pc)
    ensures SlotMoves(v, c, NextLog(v, c, alt).0, NextLog(v, c, alt).1)
  {
  }

  lemma SlotMovesLate(v: LogView, c: LogCall, alt: Alternative)
    requires CanLog(v, c, alt) && !Waiting(c.pc)
    ensures SlotMoves(v, c, NextLog(v, c, alt).0, NextLog(v, c, alt).1)
  {
  }

  lemma SlotMovesOfLog(v: LogView, c: LogCall, alt: Alternative)
    requires CanLog(v, c, alt)
    ensures SlotMoves(v, c, NextLog(v, c, alt).0, NextLog(v, c, alt).1)
  {
    hide CanLog, NextLog, SlotMoves;
    if Waiting(c.pc) {
      SlotMovesEarly(v, c, alt);
    } else {
      SlotMovesLate(v, c, alt);
    }
  }

  lemma CountMovesEarly(v: LogView, c: LogCall, alt: Alternative)
    requires CanLog(v, c, alt) && FateOk(c) && Waiting(c.pc)
    ensures CountMoves(c, NextLog(v, c, alt).0, NextLog(v, c, alt).1)
  {
  }

  lemma CountMovesLate(v: LogView, c: LogCall, alt: Alternative)
    requires CanLog(v, c, alt) && FateOk(c) && !Waiting(c.pc)
    ensures CountMoves(c, NextLog(v, c, alt).0, NextLog(v, c, alt).1)
  {
  }

  lemma CountMovesOfLog(v: LogView, c: LogCall, alt: Alternative)
    requires CanLog(v, c, alt) && FateOk(c)
    ensures CountMoves(c, NextLog(v, c, alt).0, NextLog(v, c, alt).1)
  {
    hide CanLog, NextLog, CountMoves, FateOk;
    if Waiting(c.pc) {
      CountMovesEarly(v, c, alt);
    } else {
      CountMovesLate(v, c, alt);
    }
  }

  lemma OrderlyEarly(v: LogView, c: LogCall, alt: Alternative)
    requires CanLog(v, c, alt) && FateOk(c) && Waiting(c.pc)
    ensures Orderly(v, c, NextLog(v, c, alt).0, NextLog(v, c, alt).1)
  {
  }

  lemma OrderlyLate(v: LogView, c: LogCall, alt: Alternative)
    requires CanLog(v, c, alt) && FateOk(c) && !Waiting(c.pc)
    ensures Orderly(v, c, NextLog(v, c, alt).0, NextLog(v, c, alt).1)
  {
  }

  lemma OrderlyLog(v: LogView, c: LogCall, alt: Alternative)
    requires CanLog(v, c, alt) && FateOk(c)
    ensures Orderly(v, c, NextLog(v, c, alt).0, NextLog(v, c, alt).1)
  {
    hide CanLog, NextLog, Orderly, FateOk;
    if Waiting(c.pc) {
      OrderlyEarly(v, c, alt);
    } else {
      OrderlyLate(v, c, alt);
    }
  }

  lemma LifecycleLog(s: State, i: nat, d: LogCall, e: Effect)
    requires Lifecycle(s) && i < |s.calls| && Orderly(ViewForLog(s), s.calls[i], d, e)
    ensures Lifecycle(CommitLog(s, i, d, e))
  {
    hide FateOk, AddFate;
  }

  lemma SwappedIsClosed(s: State, i: nat)
    requires Lifecycle(s) && i < |s.calls|
    ensures Swapped(s) ==> s.queueClosed && !Inside(s.calls[i])
  {
    hide FateOk, Inside, NoReaders;
  }

  lemma SlotsLog(s: State, i: nat, d: LogCall, e: Effect)
    requires Lifecycle(s) && SlotLedger(s) && PendingLedger(s) && i < |s.calls|
    requires Moves(ViewForLog(s), s.calls[i], d, e) && Orderly(ViewForLog(s), s.calls[i], d, e)
    ensures SlotLedger(CommitLog(s, i, d, e)) && PendingLedger(CommitLog(s, i, d, e))
  {
    hide Lifecycle, Is, FateOk, Count, InHand, Owed, HoldsReadLock, Inside;
    SwappedIsClosed(s, i);
    CountUpdate(s.calls, i, d, HasSlot);
    CountUpdate(s.calls, i, d, BeforeSend);
  }

  lemma RecordsLog(s: State, i: nat, d: LogCall, e: Effect)
    requires RecordLedger(s) && i < |s.calls| && Moves(ViewForLog(s), s.calls[i], d, e)
    ensures RecordLedger(CommitLog(s, i, d, e))
  {
    hide Is, FateOk, Count;
    CountUpdate(s.calls, i, d, BetweenAdds);
  }

  lemma FatesLog(s: State, i: nat, d: LogCall, e: Effect)
    requires FateLedger(s) && i < |s.calls| && Moves(ViewForLog(s), s.calls[i], d, e)
    ensures FateLedger(CommitLog(s, i, d, e))
  {
    hide FateOk, Count;
    CountUpdate(s.calls, i, d, HasFate(Accepted));
    CountUpdate(s.calls, i, d, HasFate(Dropped(QueueTimeout)));
    CountUpdate(s.calls, i, d, HasFate(Dropped(Canceled)));
    CountUpdate(s.calls, i, d, HasFate(Dropped(PostClose)));
    CountUpdate(s.calls, i, d, HasFate(Dropped(SinkFailure)));
  }

  lemma LedgersLog(s: State, i: nat, alt: Alternative)
    requires Ledgers(s) && Enabled(s, LogStep(i, alt))
    ensures Ledgers(Apply(s, LogStep(i, alt)))
  {
    var v, c := ViewForLog(s), s.calls[i];
    assert FateOk(c);
    hide CanLog, NextLog, CommitLog, SlotMoves, CountMoves, Orderly, Lifecycle, SlotLedger, PendingLedger,
         RecordLedger, FateLedger;
    SlotMovesOfLog(v, c, alt);
    CountMovesOfLog(v, c, alt);
    OrderlyLog(v, c, alt);
    var (d, e) := NextLog(v, c, alt);
    LifecycleLog(s, i, d, e);
    SlotsLog(s, i, d, e);
    RecordsLog(s, i, d, e);
    FatesLog(s, i, d, e);
  }

  // ------------------------------------------------------------ writer steps

  /** What a step of the writer says about the record in its hands. */
  predicate WriterMoves(s: State, pc: WriterPc, e: WriterEffect) {
    && One(InHand(pc)) + One(e.ReleaseSlot?) == One(InHand(s.writer)) + One(e.Dequeue?)
    && (e.Dequeue? ==> s.queue != [])
    && (e.ReleaseSlot? ==> s.slots > 0 && s.writer == FreeSlot)
    && (e.AddWritten? || e.AddUndelivered? <==> pc == Counted)
    && (pc == Counted ==> s.writer.Locked? || s.writer.FailureSet?)
    && (e.DecrementPending? <==> s.writer == Counted)
    && (e.DecrementPending? ==> pc == FreeSlot)
    && (pc == FreeSlot ==> s.writer == Counted || (s.writer.WantAccount? && s.abandoned))
    && (pc == Exited ==> s.queue == [] && s.queueClosed && !e.Dequeue?)
    && (WriterHasAccounts(pc) ==> WriterHasAccounts(s.writer) || !CloserHasAccounts(s.closer))
    && (pc.Locked? ==> !s.abandoned)
    && (pc.FailureSet? ==> s.writer.Locked?)
    && (s.writer == FreeSlot ==> !InHand(pc))
    && s.writer != Exited
  }

  lemma MovesOfWriter(s: State, w: WriteStep)
    requires CanWriter(s, w)
    ensures var (pc, e) := NextWriter(s, w);
            WriterMoves(s, pc, e)
  {
  }

  lemma StagesWriter(s: State, pc: WriterPc, e: WriterEffect)
    requires Stages(s) && WriterMoves(s, pc, e)
    ensures Stages(CommitWriter(s, pc, e))
  {
    hide CountersAfter, InHand;
  }

  lemma AdmissionWriter(s: State, pc: WriterPc, e: WriterEffect)
    requires Admission(s)
    ensures Admission(CommitWriter(s, pc, e))
  {
    hide CountersAfter, FateOk, Inside, HoldsReadLock;
  }

  lemma SlotsWriter(s: State, pc: WriterPc, e: WriterEffect)
    requires SlotLedger(s) && WriterMoves(s, pc, e)
    ensures SlotLedger(CommitWriter(s, pc, e))
  {
    hide Count, CountersAfter, InHand;
  }

  lemma {:induction false} SendersHaveSlots(calls: seq<LogCall>)
    ensures Count(calls, BeforeSend) <= Count(calls, HasSlot)
  {
    if calls != [] {
      SendersHaveSlots(calls[..|calls| - 1]);
    }
  }

  /** The decrement never wraps: the record in hand is still counted. */
  lemma DecrementIsExact(s: State)
    requires Lifecycle(s) && SlotLedger(s) && PendingLedger(s) && s.writer == Counted
    ensures s.counters.pending > 0
    ensures WrappingDecrement(s.counters.pending) == s.counters.pending - 1
  {
    hide Count;
    assert s.counters.pending == |s.queue| + 1 + Count(s.calls, BeforeSend);
    SendersHaveSlots(s.calls);
  }

  lemma PendingWriter(s: State, pc: WriterPc, e: WriterEffect)
    requires Lifecycle(s) && SlotLedger(s) && PendingLedger(s) && RecordLedger(s) && WriterMoves(s, pc, e)
    ensures PendingLedger(CommitWriter(s, pc, e)) && RecordLedger(CommitWriter(s, pc, e))
  {
    if s.writer == Counted {
      DecrementIsExact(s);
    }
    hide Count, WrappingDecrement, SlotLedger, Admission;
  }

  lemma FatesWriter(s: State, pc: WriterPc, e: WriterEffect)
    requires FateLedger(s)
    ensures FateLedger(CommitWriter(s, pc, e))
  {
    hide Count, WrappingDecrement;
  }

  lemma LedgersWriter(s: State, w: WriteStep)
    requires Ledgers(s) && CanWriter(s, w)
    ensures Ledgers(Apply(s, WriterStep(w)))
  {
    hide CanWriter, NextWriter, CommitWriter, WriterMoves, Stages, Admission, SlotLedger, PendingLedger, RecordLedger,
         FateLedger;
    MovesOfWriter(s, w);
    var (pc, e) := NextWriter(s, w);
    StagesWriter(s, pc, e);
    AdmissionWriter(s, pc, e);
    SlotsWriter(s, pc, e);
    PendingWriter(s, pc, e);
    FatesWriter(s, pc, e);
  }

  // ------------------------------------------------------------- Close steps

  lemma StagesClose(s: State, timedOut: bool)
    requires Stages(s) && CanClose(s, timedOut)
    ensures Stages(Apply(s, CloseStep(timedOut)))
  {
    hide NoReaders;
  }

  lemma AdmissionClose(s: State, timedOut: bool)
    requires Stages(s) && Admission(s) && CanClose(s, timedOut)
    ensures Admission(Apply(s, CloseStep(timedOut)))
  {
    assert forall i :: 0 <= i < |s.calls| && Inside(s.calls[i]) ==> HoldsReadLock(s.calls[i]);
    hide Inside, HoldsReadLock, FateOk;
  }

  /** Once the queue is closed no call is on its way to it. */
  lemma NobodyInside(s: State)
    requires Admission(s)
    ensures s.queueClosed ==> Count(s.calls, BeforeSend) == 0 && Count(s.calls, BetweenAdds) == 0
  {
    hide Count, FateOk, NoReaders;
    if s.queueClosed {
      CountNone(s.calls, BeforeSend);
      CountNone(s.calls, BetweenAdds);
    }
  }

  lemma AccountsClose(s: State, timedOut: bool)
    requires Ledgers(s) && CanClose(s, timedOut)
    ensures var t := Apply(s, CloseStep(timedOut));
            SlotLedger(t) && PendingLedger(t) && RecordLedger(t) && FateLedger(t)
  {
    hide Count, Admission, NoReaders, InHand;
    NobodyInside(s);
  }

  lemma LedgersClose(s: State, timedOut: bool)
    requires Ledgers(s) && CanClose(s, timedOut)
    ensures Ledgers(Apply(s, CloseStep(timedOut)))
  {
    hide CanClose, NextClose, CommitClose, Stages, Admission, SlotLedger, PendingLedger, RecordLedger, FateLedger;
    StagesClose(s, timedOut);
    AdmissionClose(s, timedOut);
    AccountsClose(s, timedOut);
  }

  // --------------------------------------------------------- the environment

  lemma CountsEnv(s: State, step: Step)
    requires Enabled(s, step) && (step.StartLog? || step.CancelLog?)
    ensures forall tag :: Count(Apply(s, step).calls, tag) == Count(s.calls, tag)
  {
    hide CanLog, CanWriter, CanClose, NextLog, NextWriter, NextClose;
    forall tag
      ensures Count(Apply(s, step).calls, tag) == Count(s.calls, tag)
    {
      if step.StartLog? {
        CountAppend(s.calls, LogCall(step.line, Enter, false, None), tag);
      } else {
        CountUpdate(s.calls, step.i, s.calls[step.i].(canceled := true), tag);
      }
    }
  }

  lemma AdmissionEnv(s: State, step: Step)
    requires Admission(s) && Enabled(s, step) && (step.StartLog? || step.CancelLog?)
    ensures Admission(Apply(s, step))
  {
    hide CanLog, CanWriter, CanClose, NextLog, NextWriter, NextClose;
    var t := Apply(s, step);
    assert forall i :: 0 <= i < |s.calls| ==> t.calls[i].pc == s.calls[i].pc && t.calls[i].fate == s.calls[i].fate;
    assert forall i :: |s.calls| <= i < |t.calls| ==> t.calls[i].pc == Enter && t.calls[i].fate == None;
  }

  lemma LedgersEnv(s: State, step: Step)
    requires Ledgers(s) && Enabled(s, step) && (step.StartLog? || step.CancelLog?)
    ensures Ledgers(Apply(s, step))
  {
    hide CanLog, CanWriter, CanClose, NextLog, NextWriter, NextClose, Count, Admission, InHand, Owed, AfterQueueClose;
    CountsEnv(s, step);
    AdmissionEnv(s, step);
  }

  lemma LedgersStep(s: State, step: Step)
    requires Ledgers(s) && Enabled(s, step)
    ensures Ledgers(Apply(s, step))
  {
    hide Ledgers, Apply;
    match step
    case LogStep(i, alt) => LedgersLog(s, i, alt);
    case WriterStep(w) => LedgersWriter(s, w);
    case CloseStep(timedOut) => LedgersClose(s, timedOut);
    case _ => LedgersEnv(s, step);
  }

  // ---------------------------------------------------------------- the sink

  /** The concatenation of lines. */
  function Lines(lines: seq<string>): string {
    if lines == [] then "" else Lines(lines[..|lines| - 1]) + lines[|lines| - 1]
  }

  /** Lines received by the writer so far. */
  function Taken(s: State): int {
    |s.enqueued| - |s.queue|
  }

  /** The record in the writer's hands, while it is still known by its line. */
  function LineInHand(w: WriterPc): Option<string> {
    match w
    case CheckAbandoned(line) => Some(line)
    case CheckSinkFailed(line) => Some(line)
    case Writing(line, _) => Some(line)
    case _ => None
  }

  /** What the sink holds relative to what was taken and counted. `clean`: every
      line taken before the one in hand was written and counted. */
  predicate Progress(s: State) {
    var taken, written := Taken(s), s.counters.written;
    var clean := s.whole == written && s.cut == 0;
    match s.writer
    case Receive => s.failed || s.abandoned || (clean && written == taken)
    case CheckAbandoned(_) => s.failed || s.abandoned || (clean && written == taken - 1)
    case CheckSinkFailed(_) => s.failed || (clean && written == taken - 1)
    case Writing(line, offset) =>
      && !s.failed && s.whole == written == taken - 1 && s.cut == offset && offset < |line|
    case WantAccount(result) =>
      (match result
       case WriteOk => !s.failed && s.cut == 0 && s.whole == written + 1 == taken
       case WriteErr => !s.failed && written == taken - 1
       case Skipped => s.failed || s.abandoned)
    case Locked(result) =>
      (match result
       case WriteOk => !s.failed && s.cut == 0 && s.whole == written + 1 == taken
       case WriteErr => !s.failed && written == taken - 1
       case Skipped => s.failed || s.abandoned)
    case FailureSet => s.failed
    case Exited => true
    case _ => s.failed || s.abandoned || (clean && written == taken)
  }

  /** The queue is first in, first out, and the sink holds a prefix of what was
      enqueued: whole lines, then `cut` bytes of the next. */
  predicate Content(s: State) {
    && |s.queue| <= |s.enqueued| && s.enqueued[Taken(s)..] == s.queue
    && (LineInHand(s.writer).Some? ==> Taken(s) > 0 && s.enqueued[Taken(s) - 1] == LineInHand(s.writer).value)
    && s.whole <= Taken(s)
    && (if s.cut == 0 then s.sink == Lines(s.enqueued[..s.whole])
        else && s.whole < Taken(s) && s.cut < |s.enqueued[s.whole]|
             && s.sink == Lines(s.enqueued[..s.whole]) + s.enqueued[s.whole][..s.cut])
  }

  predicate SinkOk(s: State) {
    && Content(s)
    && s.counters.written <= s.whole <= s.counters.written + 1
    && Progress(s)
  }

  lemma LinesGrow(lines: seq<string>, n: nat)
    requires n < |lines|
    ensures Lines(lines[..n + 1]) == Lines(lines[..n]) + lines[n]
  {
    assert lines[..n + 1][..n] == lines[..n];
  }

  /** The part of the state the sink argument reads. */
  predicate SameSink(s: State, t: State) {
    && t.queue == s.queue && t.enqueued == s.enqueued && t.sink == s.sink && t.whole == s.whole && t.cut == s.cut
    && t.counters.written == s.counters.written
  }

  lemma SinkEnqueue(s: State, t: State, line: string)
    requires SinkOk(s) && t.queue == s.queue + [line] && t.enqueued == s.enqueued + [line]
    requires SameSink(s.(queue := t.queue, enqueued := t.enqueued), t)
    requires t.writer == s.writer && t.failed == s.failed && t.abandoned == s.abandoned
    ensures SinkOk(t)
  {
    hide Lines;
    assert Taken(t) == Taken(s);
    assert t.enqueued[Taken(t)..] == t.queue;
    assert t.enqueued[..s.whole] == s.enqueued[..s.whole];
  }

  lemma SinkLog(s: State, i: nat, d: LogCall, e: Effect)
    requires SinkOk(s) && i < |s.calls|
    ensures SinkOk(CommitLog(s, i, d, e))
  {
    hide Lines;
    var t := CommitLog(s, i, d, e);
    if e.Enqueue? {
      SinkEnqueue(s, t, e.line);
    } else {
      assert SameSink(s, t);
    }
  }

  lemma SinkClose(s: State, timedOut: bool)
    requires SinkOk(s) && CanClose(s, timedOut)
    ensures SinkOk(Apply(s, CloseStep(timedOut)))
  {
    hide Lines, NoReaders;
  }

  /** A Write call extends the line in hand. */
  lemma ContentWriting(s: State, t: State, line: string, offset: nat, reached: nat)
    requires Content(s) && LineInHand(s.writer) == Some(line) && s.whole == Taken(s) - 1
    requires s.cut == offset <= reached <= |line| && offset < |line|
    requires t.queue == s.queue && t.enqueued == s.enqueued && t.sink == s.sink + line[offset..reached]
    requires if reached == |line| then t.whole == s.whole + 1 && t.cut == 0 else t.whole == s.whole && t.cut == reached
    requires LineInHand(t.writer) == None || LineInHand(t.writer) == Some(line)
    ensures Content(t)
  {
    var before := Lines(s.enqueued[..s.whole]);
    LinesGrow(s.enqueued, s.whole);
    hide Lines;
    assert line[..offset] + line[offset..reached] == line[..reached];
    assert s.sink == before + line[..offset] by {
      if offset == 0 {
        assert line[..0] == "" && before + "" == before;
      }
    }
    assert t.sink == before + line[..reached];
    if reached == |line| {
      assert line[..reached] == line;
    } else if reached == 0 {
      assert line[..0] == "" && before + "" == before;
    }
  }

  lemma SinkWriting(s: State, w: WriteStep)
    requires SinkOk(s) && CanWriter(s, w) && s.writer.Writing?
    ensures SinkOk(Apply(s, WriterStep(w)))
  {
    hide Content;
    var t := Apply(s, WriterStep(w));
    ContentWriting(s, t, s.writer.line, s.writer.offset, s.writer.offset + w.n);
  }

  lemma ContentReceive(s: State, t: State)
    requires Content(s) && s.queue != [] && t.queue == s.queue[1..] && t.enqueued == s.enqueued
    requires t.sink == s.sink && t.whole == s.whole && t.cut == s.cut && t.writer == CheckAbandoned(s.queue[0])
    ensures Content(t) && Taken(t) == Taken(s) + 1
  {
    hide Lines;
    assert Taken(t) == Taken(s) + 1;
    assert t.enqueued[Taken(t)..] == s.enqueued[Taken(s)..][1..];
    assert s.enqueued[Taken(s)] == s.enqueued[Taken(s)..][0];
  }

  lemma SinkReceive(s: State, w: WriteStep)
    requires SinkOk(s) && CanWriter(s, w) && s.writer == Receive
    ensures SinkOk(Apply(s, WriterStep(w)))
  {
    hide Content;
    var t := Apply(s, WriterStep(w));
    if s.queue != [] {
      ContentReceive(s, t);
    } else {
      ContentFrame(s, t);
    }
  }

  lemma ContentFrame(s: State, t: State)
    requires Content(s) && SameSink(s, t.(counters := s.counters))
    requires LineInHand(t.writer) == LineInHand(s.writer) || LineInHand(t.writer) == None
    ensures Content(t)
  {
    hide Lines;
  }

  /** An empty line is whole at once. */
  lemma ContentEmptyLine(s: State, t: State)
    requires Content(s) && s.writer.CheckSinkFailed? && s.writer.line == "" && s.cut == 0 && s.whole == Taken(s) - 1
    requires SameSink(s, t.(whole := s.whole, counters := s.counters)) && t.whole == s.whole + 1
    requires LineInHand(t.writer) == None
    ensures Content(t)
  {
    LinesGrow(s.enqueued, s.whole);
    hide Lines;
    assert Lines(s.enqueued[..s.whole]) + "" == Lines(s.enqueued[..s.whole]);
  }

  lemma SinkChecks(s: State, w: WriteStep)
    requires SinkOk(s) && CanWriter(s, w) && (s.writer.CheckAbandoned? || s.writer.CheckSinkFailed?)
    ensures SinkOk(Apply(s, WriterStep(w)))
  {
    hide Content;
    var t := Apply(s, WriterStep(w));
    if s.writer.CheckSinkFailed? && !s.failed && s.writer.line == "" {
      assert s.sink + "" == s.sink;
      ContentEmptyLine(s, t);
    } else {
      ContentFrame(s, t);
    }
  }

  /** From `WantAccount` to `Unlocking` only the counters move. */
  lemma SinkWantsAccount(s: State, w: WriteStep)
    requires SinkOk(s) && CanWriter(s, w) && s.writer.WantAccount?
    ensures SinkOk(Apply(s, WriterStep(w)))
  {
    var t := Apply(s, WriterStep(w));
    hide Content;
    ContentFrame(s, t);
  }

  lemma AbandonedStage(s: State)
    requires Stages(s) && s.abandoned
    ensures !s.writer.Locked? && !s.writer.FailureSet? && !s.writer.Counted?
  {
  }

  lemma SinkAccounts(s: State, w: WriteStep)
    requires Stages(s) && SinkOk(s) && CanWriter(s, w) && WriterHasAccounts(s.writer)
    ensures SinkOk(Apply(s, WriterStep(w)))
  {
    hide WrappingDecrement, Content, Stages;
    if s.abandoned {
      AbandonedStage(s);
    }
    ContentFrame(s, Apply(s, WriterStep(w)));
  }

  lemma SinkEnv(s: State, t: State)
    requires SinkOk(s) && t == s.(calls := t.calls)
    ensures SinkOk(t)
  {
    hide Lines;
  }

  lemma SinkStep(s: State, step: Step)
    requires Stages(s) && SinkOk(s) && Enabled(s, step)
    ensures SinkOk(Apply(s, step))
  {
    hide CanLog, CanClose, NextLog, NextWriter, NextClose, CommitLog, CommitWriter, CommitClose, Stages, SinkOk;
    match step
    case LogStep(i, alt) =>
      var (d, e) := NextLog(ViewForLog(s), s.calls[i], alt);
      SinkLog(s, i, d, e);
    case WriterStep(w) =>
      if s.writer.Writing? {
        SinkWriting(s, w);
      } else if s.writer == Receive {
        SinkReceive(s, w);
      } else if s.writer.CheckAbandoned? || s.writer.CheckSinkFailed? {
        SinkChecks(s, w);
      } else if s.writer.WantAccount? {
        SinkWantsAccount(s, w);
      } else {
        SinkAccounts(s, w);
      }
    case CloseStep(timedOut) => SinkClose(s, timedOut);
    case _ => SinkEnv(s, Apply(s, step));
  }
}
