/**
 Why a Log call ends as it does: every drop has the reason that its counter names, and
 exactly the lines of accepted calls reach the queue.
 */
module JsonlFates {
  import opened Wrappers
  import opened JsonlModel
  import opened JsonlProofs
  import opened JsonlTheorems

  // ------------------------------------------------------------- one Log call step

  /** The reason for which a call was dropped, or is about to be. */
  function DropOf(c: LogCall): Option<Drop> {
    match c.pc
    case GiveBack(why) => Some(why)
    case CountDrop(why, _) => Some(why)
    case _ => if c.fate.Some? && c.fate.value.Dropped? then Some(c.fate.value.why) else None
  }

  /** What drops a call for each reason: the admission timer; its context, found canceled
      or ending the wait; Close, by its flag, its queue or its stop signal; a failed sink. */
  predicate Drops(v: LogView, c: LogCall, alt: Alternative, why: Drop) {
    match why
    case QueueTimeout => alt == OnTimer
    case Canceled => alt == OnContext || (c.pc == CheckContext && c.canceled)
    case PostClose =>
      || alt == OnStop
      || (c.pc == Enter && v.closedState)
      || (c.pc == LockedClosed && v.queueClosed)
      || (c.pc == SlotClosed && v.closedState)
    case SinkFailure =>
      alt == OnFailure || ((c.pc == CheckFailed || c.pc == LockedFailed || c.pc == SlotFailed) && v.failed)
  }

  /** Points up to the last look at Close. */
  predicate BeforeLastLook(pc: LogPc) {
    match pc
    case Enter => true
    case CheckFailed => true
    case WantLock => true
    case LockedClosed => true
    case LockedFailed => true
    case TrySlot => true
    case CheckContext => true
    case WaitSlot => true
    case SlotClosed => true
    case _ => false
  }

  /** A call keeps its line, and it is dropped for a reason exactly if it was before or
      the step meets the reason. */
  predicate DropKept(v: LogView, c: LogCall, alt: Alternative, d: LogCall, why: Drop) {
    && d.line == c.line && d.canceled == c.canceled
    && (DropOf(d) == Some(why) <==> DropOf(c) == Some(why) || Drops(v, c, alt, why))
  }

  lemma DropKeptWaiting(v: LogView, c: LogCall, alt: Alternative, why: Drop)
    requires CanLog(v, c, alt) && FateOk(c) && c.pc == WaitSlot
    ensures DropKept(v, c, alt, NextLog(v, c, alt).0, why)
  {
  }

  lemma DropKeptEarly(v: LogView, c: LogCall, alt: Alternative, why: Drop)
    requires CanLog(v, c, alt) && FateOk(c) && BeforeLastLook(c.pc) && c.pc != WaitSlot
    ensures DropKept(v, c, alt, NextLog(v, c, alt).0, why)
  {
  }

  lemma DropKeptLate(v: LogView, c: LogCall, alt: Alternative, why: Drop)
    requires CanLog(v, c, alt) && FateOk(c) && !BeforeLastLook(c.pc)
    ensures DropKept(v, c, alt, NextLog(v, c, alt).0, why)
  {
  }

  lemma DropKeptByLog(v: LogView, c: LogCall, alt: Alternative, why: Drop)
    requires CanLog(v, c, alt) && FateOk(c)
    ensures DropKept(v, c, alt, NextLog(v, c, alt).0, why)
  {
    hide CanLog, NextLog, FateOk, DropKept, BeforeLastLook;
    if c.pc == WaitSlot {
      DropKeptWaiting(v, c, alt, why);
    } else if BeforeLastLook(c.pc) {
      DropKeptEarly(v, c, alt, why);
    } else {
      DropKeptLate(v, c, alt, why);
    }
  }

  /** A call that took a slot gives it back only for Close or a failed sink. */
  predicate Seated(c: LogCall) {
    match c.pc
    case SlotClosed => true
    case SlotFailed => true
    case Accept => true
    case Pend => true
    case Send => true
    case GiveBack(why) => why == PostClose || why == SinkFailure
    case CountDrop(why, _) => why == PostClose || why == SinkFailure
    case Unlock => Settled(c)
    case Finished => Settled(c)
    case _ => false
  }

  predicate Settled(c: LogCall) {
    c.fate in {Some(Accepted), Some(Dropped(PostClose)), Some(Dropped(SinkFailure))}
  }

  lemma SeatedByLog(v: LogView, c: LogCall, alt: Alternative)
    requires CanLog(v, c, alt) && FateOk(c)
    ensures Seated(c) || (c.pc == TrySlot && v.slotFree) ==> Seated(NextLog(v, c, alt).0)
  {
  }

  /** A call that has yet to look at a closed logger, or a failed one, ends dropped. */
  predicate Doomed(v: LogView, c: LogCall) {
    || DropOf(c).Some?
    || (v.closedState && BeforeLastLook(c.pc))
    || (v.failed && (BeforeLastLook(c.pc) || c.pc == SlotFailed))
  }

  lemma DoomedByLog(v: LogView, c: LogCall, alt: Alternative)
    requires CanLog(v, c, alt) && FateOk(c) && Doomed(v, c)
    ensures Doomed(v, NextLog(v, c, alt).0)
  {
  }

  // -------------------------------------------------------------------- whole steps

  /** What a step does to call `i`. */
  lemma CallStep(s: State, step: Step, i: nat)
    requires Inv(s) && Enabled(s, step) && i < |s.calls|
    ensures |Apply(s, step).calls| >= |s.calls| && FateOk(s.calls[i])
    ensures var c, d := s.calls[i], Apply(s, step).calls[i];
            if step.LogStep? && step.i == i then
              CanLog(ViewForLog(s), c, step.alt) && d == NextLog(ViewForLog(s), c, step.alt).0
            else d == c || d == c.(canceled := true)
  {
    hide Inv, FateOk, CanLog, NextLog, ViewForLog;
    FateOf(s, i);
    if step.WriterStep? || step.CloseStep? {
      CallsStay(s, step);
    } else {
      hide CanWriter, NextWriter, CanClose, NextClose, AddFate;
    }
  }

  lemma CallsStay(s: State, step: Step)
    requires Enabled(s, step) && (step.WriterStep? || step.CloseStep?)
    ensures Apply(s, step).calls == s.calls
  {
    hide CanWriter, NextWriter, CanClose, NextClose, CountersAfter;
  }

  lemma FateOf(s: State, i: nat)
    requires Inv(s) && i < |s.calls|
    ensures FateOk(s.calls[i])
  {
    hide Stages, SlotLedger, PendingLedger, RecordLedger, FateLedger, EnqueueLedger, SinkOk, FateOk;
  }

  /** The flags of the logger are never taken back. */
  lemma FlagsStay(s: State, step: Step)
    requires Enabled(s, step)
    ensures s.closedState ==> Apply(s, step).closedState
    ensures s.failed ==> Apply(s, step).failed
    ensures s.abandoned ==> Apply(s, step).abandoned
  {
    hide CanLog, NextLog, CanWriter, NextWriter, CanClose, NextClose, ViewForLog;
  }

  lemma NewCalls(s: State, step: Step, i: nat)
    requires Enabled(s, step) && |s.calls| <= i < |Apply(s, step).calls|
    ensures step.StartLog? && i == |s.calls| && Apply(s, step).calls[i] == LogCall(step.line, Enter, false, None)
  {
    hide CanLog, NextLog, CanWriter, NextWriter, CanClose, NextClose, ViewForLog;
  }

  lemma RunStep(capacity: nat, states: seq<State>, steps: seq<Step>, n: nat)
    requires IsRun(capacity, states, steps) && n < |steps|
    ensures Inv(states[n]) && Enabled(states[n], steps[n]) && states[n + 1] == Apply(states[n], steps[n])
  {
    hide Inv, Enabled, Apply, Init;
    InvRun(capacity, states, steps, n);
    var step := steps[n];
  }

  // ---------------------------------------------------------------- reasons of drops

  /** Step `m` of the run drops call `i` for this reason. */
  ghost predicate DroppedAt(states: seq<State>, steps: seq<Step>, m: nat, i: nat, why: Drop) {
    && m < |steps| && m < |states| && steps[m].LogStep? && steps[m].i == i && i < |states[m].calls|
    && Drops(ViewForLog(states[m]), states[m].calls[i], steps[m].alt, why)
  }

  ghost predicate WasDropped(states: seq<State>, steps: seq<Step>, n: nat, i: nat, why: Drop) {
    exists m: nat :: m < n && DroppedAt(states, steps, m, i, why)
  }

  /** A call is dropped for a reason if and only if one of its steps met that reason. */
  lemma {:induction false} DropHasReason(
      capacity: nat, states: seq<State>, steps: seq<Step>, n: nat, i: nat, why: Drop)
    requires IsRun(capacity, states, steps) && n < |states| && i < |states[n].calls|
    ensures DropOf(states[n].calls[i]) == Some(why) <==> WasDropped(states, steps, n, i, why)
    decreases n
  {
    hide Inv, Enabled, Apply, Drops, ViewForLog, DropOf;
    if n > 0 {
      hide Init;
      RunStep(capacity, states, steps, n - 1);
      var s, step := states[n - 1], steps[n - 1];
      LaterDrops(states, steps, n, i, why);
      if i < |s.calls| {
        DropHasReason(capacity, states, steps, n - 1, i, why);
        CallStep(s, step, i);
        if step.LogStep? && step.i == i {
          DropKeptByLog(ViewForLog(s), s.calls[i], step.alt, why);
        } else {
          SameDrop(s.calls[i], states[n].calls[i]);
        }
      } else {
        NewCalls(s, step, i);
        NoDropYet(capacity, states, steps, n, i, why);
        assert DropOf(LogCall(step.line, Enter, false, None)) == None by { NewIsNotDropped(step.line); }
      }
    }
  }

  lemma LaterDrops(states: seq<State>, steps: seq<Step>, n: nat, i: nat, why: Drop)
    requires n > 0
    ensures WasDropped(states, steps, n, i, why) <==>
              WasDropped(states, steps, n - 1, i, why) || DroppedAt(states, steps, n - 1, i, why)
  {
    hide DroppedAt;
    if WasDropped(states, steps, n, i, why) {
      var m: nat :| m < n && DroppedAt(states, steps, m, i, why);
      assert m == n - 1 || WasDropped(states, steps, n - 1, i, why);
    }
  }

  lemma SameDrop(c: LogCall, d: LogCall)
    requires d == c || d == c.(canceled := true)
    ensures DropOf(d) == DropOf(c)
  {
  }

  lemma NewIsNotDropped(line: string)
    ensures DropOf(LogCall(line, Enter, false, None)) == None
  {
  }

  /** Calls are numbered as they start, so a new one has taken no step. */
  lemma {:induction false} NoDropYet(
      capacity: nat, states: seq<State>, steps: seq<Step>, n: nat, i: nat, why: Drop)
    requires IsRun(capacity, states, steps) && 0 < n < |states| && |states[n - 1].calls| <= i
    ensures !WasDropped(states, steps, n, i, why)
    decreases n
  {
    hide Inv, Enabled, Apply, Init, Drops;
    LaterDrops(states, steps, n, i, why);
    if n > 1 {
      RunStep(capacity, states, steps, n - 2);
      CallsGrow(states[n - 2], steps[n - 2]);
      NoDropYet(capacity, states, steps, n - 1, i, why);
    }
  }

  lemma CallsGrow(s: State, step: Step)
    requires Enabled(s, step)
    ensures |s.calls| <= |Apply(s, step).calls|
  {
    hide CanLog, NextLog, CanWriter, NextWriter, CanClose, NextClose, ViewForLog, CountersAfter, AddFate;
  }

  /** A finished call timed out if and only if its admission timer fired. */
  lemma TimeoutsAreTimers(capacity: nat, states: seq<State>, steps: seq<Step>, n: nat, i: nat)
    requires IsRun(capacity, states, steps) && n < |states| && i < |states[n].calls|
    requires states[n].calls[i].pc == Finished
    ensures states[n].calls[i].fate == Some(Dropped(QueueTimeout)) <==>
              exists m: nat :: m < n && steps[m] == LogStep(i, OnTimer)
  {
    hide Inv, Enabled, Apply, Init, ViewForLog;
    DropHasReason(capacity, states, steps, n, i, QueueTimeout);
    if WasDropped(states, steps, n, i, QueueTimeout) {
      var m: nat :| m < n && DroppedAt(states, steps, m, i, QueueTimeout);
      assert steps[m] == LogStep(i, OnTimer);
    }
    if m: nat :| m < n && steps[m] == LogStep(i, OnTimer) {
      RunStep(capacity, states, steps, m);
      TimerIsOfCall(states[m], i);
      assert DroppedAt(states, steps, m, i, QueueTimeout);
    }
  }

  lemma TimerIsOfCall(s: State, i: nat)
    requires Enabled(s, LogStep(i, OnTimer))
    ensures i < |s.calls|
  {
  }

  /** The reason that a drop names is a fact: the call's context was canceled, the logger
      was closed, or its sink had failed. */
  predicate Justified(s: State, c: LogCall) {
    && (DropOf(c) == Some(Canceled) ==> c.canceled)
    && (DropOf(c) == Some(PostClose) ==> s.closedState)
    && (DropOf(c) == Some(SinkFailure) ==> s.failed)
  }

  lemma JustifiedByLog(s: State, c: LogCall, alt: Alternative)
    requires Stages(s) && (s.admissionStop ==> s.closedState)
    requires CanLog(ViewForLog(s), c, alt) && Justified(s, c) && FateOk(c)
    ensures Justified(s, NextLog(ViewForLog(s), c, alt).0)
  {
    hide NextLog, FateOk;
    DropKeptByLog(ViewForLog(s), c, alt, Canceled);
    DropKeptByLog(ViewForLog(s), c, alt, PostClose);
    DropKeptByLog(ViewForLog(s), c, alt, SinkFailure);
  }

  lemma StagesOf(s: State)
    requires Inv(s)
    ensures Stages(s)
  {
    hide Stages, Admission, SlotLedger, PendingLedger, RecordLedger, FateLedger, EnqueueLedger, SinkOk;
  }

  /** The stop signal comes after the flag. */
  lemma {:induction false} StopMeansClosed(capacity: nat, states: seq<State>, steps: seq<Step>, n: nat)
    requires IsRun(capacity, states, steps) && n < |states|
    ensures states[n].admissionStop ==> states[n].closedState
  {
    hide Inv, Enabled, Apply;
    if n > 0 {
      hide Init;
      StopMeansClosed(capacity, states, steps, n - 1);
      RunStep(capacity, states, steps, n - 1);
      StagesOf(states[n - 1]);
      StopStep(states[n - 1], steps[n - 1]);
    }
  }

  lemma StopStep(s: State, step: Step)
    requires Stages(s) && Enabled(s, step) && (s.admissionStop ==> s.closedState)
    ensures Apply(s, step).admissionStop ==> Apply(s, step).closedState
  {
    hide CanLog, NextLog, CanWriter, NextWriter, ViewForLog, NoReaders;
  }

  lemma JustifiedFlags(s: State, t: State, c: LogCall, d: LogCall)
    requires Justified(s, c) && (d == c || d == c.(canceled := true))
    requires (s.closedState ==> t.closedState) && (s.failed ==> t.failed)
    ensures Justified(t, d)
  {
  }

  lemma {:induction false} DropsAreJustified(capacity: nat, states: seq<State>, steps: seq<Step>, n: nat, i: nat)
    requires IsRun(capacity, states, steps) && n < |states| && i < |states[n].calls|
    ensures Justified(states[n], states[n].calls[i])
    decreases n
  {
    hide Inv, Enabled, Apply, Justified, ViewForLog;
    if n > 0 {
      hide Init;
      RunStep(capacity, states, steps, n - 1);
      var s, step := states[n - 1], steps[n - 1];
      FlagsStay(s, step);
      if i < |s.calls| {
        DropsAreJustified(capacity, states, steps, n - 1, i);
        CallStep(s, step, i);
        if step.LogStep? && step.i == i {
          StagesOf(s);
          StopMeansClosed(capacity, states, steps, n - 1);
          JustifiedByLog(s, s.calls[i], step.alt);
          JustifiedFlags(s, states[n], states[n].calls[i], states[n].calls[i]);
        } else {
          JustifiedFlags(s, states[n], s.calls[i], states[n].calls[i]);
        }
      } else {
        NewCalls(s, step, i);
        NewIsJustified(states[n], step.line);
      }
    }
  }

  lemma NewIsJustified(s: State, line: string)
    ensures Justified(s, LogCall(line, Enter, false, None))
  {
  }

  // ------------------------------------------------------------------ free slots

  lemma {:induction false} SeatIsKept(capacity: nat, states: seq<State>, steps: seq<Step>, m: nat, n: nat, i: nat)
    requires IsRun(capacity, states, steps) && m < n < |states| && steps[m] == LogStep(i, Proceed)
    requires i < |states[m].calls| && states[m].calls[i].pc == TrySlot && states[m].slots < states[m].capacity
    ensures i < |states[n].calls| && Seated(states[n].calls[i])
    decreases n
  {
    hide Inv, Enabled, Apply, Init, Seated, NextLog;
    RunStep(capacity, states, steps, n - 1);
    var s, step := states[n - 1], steps[n - 1];
    if m < n - 1 {
      SeatIsKept(capacity, states, steps, m, n - 1, i);
    }
    CallStep(s, step, i);
    if step.LogStep? && step.i == i {
      SeatedByLog(ViewForLog(s), s.calls[i], step.alt);
    } else {
      SameSeat(s.calls[i], states[n].calls[i]);
    }
  }

  lemma SameSeat(c: LogCall, d: LogCall)
    requires d == c || d == c.(canceled := true)
    ensures Seated(c) ==> Seated(d)
  {
  }

  /** A call that finds a free slot is never dropped for its context or the timer, even
      if it was canceled before; and in a logger that is neither closed nor failed it is
      accepted. */
  lemma FreeSlotIsEnough(capacity: nat, states: seq<State>, steps: seq<Step>, m: nat, n: nat, i: nat)
    requires IsRun(capacity, states, steps) && m < n < |states| && steps[m] == LogStep(i, Proceed)
    requires i < |states[m].calls| && states[m].calls[i].pc == TrySlot && states[m].slots < states[m].capacity
    ensures i < |states[n].calls|
    ensures DropOf(states[n].calls[i]) != Some(Canceled) && DropOf(states[n].calls[i]) != Some(QueueTimeout)
    ensures states[n].calls[i].pc == Finished && !states[n].closedState && !states[n].failed ==>
              states[n].calls[i].fate == Some(Accepted)
  {
    hide Inv, Enabled, Apply, Init;
    SeatIsKept(capacity, states, steps, m, n, i);
    DropsAreJustified(capacity, states, steps, n, i);
    InvRun(capacity, states, steps, n);
    FateOf(states[n], i);
  }

  // ------------------------------------------------------------------- late calls

  lemma DoomedFlags(v: LogView, w: LogView, c: LogCall, d: LogCall)
    requires Doomed(v, c) && (d == c || d == c.(canceled := true))
    requires (v.closedState ==> w.closedState) && (v.failed ==> w.failed)
    ensures Doomed(w, d)
  {
  }

  lemma DoomedAtFirst(s: State, c: LogCall)
    requires || (s.closedState && BeforeLastLook(c.pc))
             || (s.failed && (BeforeLastLook(c.pc) || c.pc == SlotFailed))
    ensures Doomed(ViewForLog(s), c)
  {
  }

  lemma DoomedFate(v: LogView, c: LogCall)
    requires Doomed(v, c) && FateOk(c)
    ensures c.fate != Some(Accepted)
  {
  }

  /** Once the logger is closed, or its sink failed, no call is accepted any more that
      has not taken its last look at that. */
  lemma {:induction false} LateCallsAreDropped(
      capacity: nat, states: seq<State>, steps: seq<Step>, m: nat, n: nat, i: nat)
    requires IsRun(capacity, states, steps) && m <= n < |states| && i < |states[m].calls|
    requires || (states[m].closedState && BeforeLastLook(states[m].calls[i].pc))
             || (states[m].failed && (BeforeLastLook(states[m].calls[i].pc) || states[m].calls[i].pc == SlotFailed))
    ensures i < |states[n].calls| && Doomed(ViewForLog(states[n]), states[n].calls[i])
    ensures states[n].calls[i].fate != Some(Accepted)
    decreases n
  {
    hide Inv, Enabled, Apply, Init, Doomed, NextLog, BeforeLastLook;
    if m == n {
      DoomedAtFirst(states[m], states[m].calls[i]);
    } else {
      LateCallsAreDropped(capacity, states, steps, m, n - 1, i);
      RunStep(capacity, states, steps, n - 1);
      var s, step := states[n - 1], steps[n - 1];
      var v, w := ViewForLog(s), ViewForLog(states[n]);
      CallStep(s, step, i);
      FlagsStay(s, step);
      if step.LogStep? && step.i == i {
        DoomedByLog(v, s.calls[i], step.alt);
        DoomedFlags(v, w, states[n].calls[i], states[n].calls[i]);
      } else {
        DoomedFlags(v, w, s.calls[i], states[n].calls[i]);
      }
    }
    InvRun(capacity, states, steps, n);
    FateOf(states[n], i);
    DoomedFate(ViewForLog(states[n]), states[n].calls[i]);
  }

  predicate AfterClose(c: LogCall) {
    c.pc == Enter || DropOf(c) == Some(PostClose)
  }

  lemma AfterCloseByLog(v: LogView, c: LogCall, alt: Alternative)
    requires CanLog(v, c, alt) && FateOk(c) && v.closedState && AfterClose(c)
    ensures AfterClose(NextLog(v, c, alt).0)
  {
  }

  /** A call that enters a closed logger is a drop after close, whatever else is wrong. */
  lemma {:induction false} CallAfterClose(
      capacity: nat, states: seq<State>, steps: seq<Step>, m: nat, n: nat, i: nat)
    requires IsRun(capacity, states, steps) && m <= n < |states| && i < |states[m].calls|
    requires states[m].closedState && states[m].calls[i].pc == Enter
    ensures i < |states[n].calls| && states[n].closedState && AfterClose(states[n].calls[i])
    decreases n
  {
    hide Inv, Enabled, Apply, Init, NextLog;
    if m < n {
      hide AfterClose;
      CallAfterClose(capacity, states, steps, m, n - 1, i);
      RunStep(capacity, states, steps, n - 1);
      var s, step := states[n - 1], steps[n - 1];
      CallStep(s, step, i);
      FlagsStay(s, step);
      if step.LogStep? && step.i == i {
        AfterCloseByLog(ViewForLog(s), s.calls[i], step.alt);
      } else {
        SameAfterClose(s.calls[i], states[n].calls[i]);
      }
    }
  }

  lemma SameAfterClose(c: LogCall, d: LogCall)
    requires d == c || d == c.(canceled := true)
    ensures AfterClose(c) ==> AfterClose(d)
  {
  }
}
