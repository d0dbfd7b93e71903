/**
 What reaches the queue and the sink, and why the logger gives up: the queue gets
 exactly the lines of accepted calls, the sink fails only by a failed write, and Close
 abandons the writer only after the deadline, which stops its writing.
 */
module JsonlRecords {
  import opened Wrappers
  import opened JsonlModel
  import opened JsonlProofs
  import opened JsonlTheorems
  import opened JsonlFates

  // ------------------------------------------------------------------- the queue

  /** The call was accepted and has sent `line`. */
  predicate HasSent(c: LogCall, line: string) {
    c.fate == Some(Accepted) && c.pc != Pend && c.pc != Send && c.line == line
  }

  /** How many calls have sent `line`. */
  function Senders(calls: seq<LogCall>, line: string): nat {
    if calls == [] then 0 else Senders(calls[..|calls| - 1], line) + One(HasSent(calls[|calls| - 1], line))
  }

  lemma {:induction false} SendersUpdate(calls: seq<LogCall>, i: nat, d: LogCall, line: string)
    requires i < |calls|
    ensures Senders(calls[i := d], line) + One(HasSent(calls[i], line)) == Senders(calls, line) + One(HasSent(d, line))
  {
    hide HasSent;
    var n := |calls| - 1;
    if i == n {
      assert calls[i := d][..n] == calls[..n];
    } else {
      assert calls[i := d][..n] == calls[..n][i := d];
      SendersUpdate(calls[..n], i, d, line);
    }
  }

  lemma SendersAppend(calls: seq<LogCall>, c: LogCall, line: string)
    ensures Senders(calls + [c], line) == Senders(calls, line) + One(HasSent(c, line))
  {
    assert (calls + [c])[..|calls|] == calls;
  }

  /** A call sends its own line, and only once it was accepted. */
  lemma SendByLog(v: LogView, c: LogCall, alt: Alternative, line: string)
    requires CanLog(v, c, alt) && FateOk(c)
    ensures var (d, e) := NextLog(v, c, alt);
            One(HasSent(d, line)) == One(HasSent(c, line)) + One(e == Enqueue(line))
  {
  }

  /** How often `line` was sent to the queue. */
  function Times(lines: seq<string>, line: string): nat {
    multiset(lines)[line]
  }

  lemma TimesAppend(lines: seq<string>, l: string, line: string)
    ensures Times(lines + [l], line) == Times(lines, line) + One(l == line)
  {
  }

  predicate QueueOk(s: State, line: string) {
    Times(s.enqueued, line) == Senders(s.calls, line)
  }

  lemma QueueLog(s: State, i: nat, alt: Alternative, line: string)
    requires Enabled(s, LogStep(i, alt)) && i < |s.calls| && FateOk(s.calls[i]) && QueueOk(s, line)
    ensures QueueOk(Apply(s, LogStep(i, alt)), line)
  {
    hide HasSent, Senders, CanLog, NextLog, FateOk, Times;
    var c, v := s.calls[i], ViewForLog(s);
    SendByLog(v, c, alt, line);
    var (d, e) := NextLog(v, c, alt);
    SendersUpdate(s.calls, i, d, line);
    if e.Enqueue? {
      TimesAppend(s.enqueued, e.line, line);
    }
  }

  lemma CanceledHasSent(c: LogCall, line: string)
    ensures HasSent(c.(canceled := true), line) == HasSent(c, line)
  {
  }

  lemma NewHasNotSent(l: string, line: string)
    ensures !HasSent(LogCall(l, Enter, false, None), line)
  {
  }

  lemma QueueOther(s: State, step: Step, line: string)
    requires Enabled(s, step) && !step.LogStep? && QueueOk(s, line)
    ensures QueueOk(Apply(s, step), line)
  {
    hide HasSent, Senders, Times, CanWriter, NextWriter, CanClose, NextClose, CountersAfter;
    match step
    case StartLog(l) =>
      SendersAppend(s.calls, LogCall(l, Enter, false, None), line);
      NewHasNotSent(l, line);
    case CancelLog(i) =>
      SendersUpdate(s.calls, i, s.calls[i].(canceled := true), line);
      CanceledHasSent(s.calls[i], line);
    case _ =>
  }

  /** The queue gets exactly the lines of accepted calls: every line was sent to it as
      often as there are accepted calls that have sent that line. */
  lemma {:induction false} QueueGetsAcceptedLines(
      capacity: nat, states: seq<State>, steps: seq<Step>, n: nat, line: string)
    requires IsRun(capacity, states, steps) && n < |states|
    ensures multiset(states[n].enqueued)[line] == Senders(states[n].calls, line)
    decreases n
  {
    hide Inv, Enabled, Apply, HasSent;
    if n > 0 {
      hide Init, Senders;
      QueueGetsAcceptedLines(capacity, states, steps, n - 1, line);
      RunStep(capacity, states, steps, n - 1);
      var s, step := states[n - 1], steps[n - 1];
      if step.LogStep? {
        LogStepOf(s, step);
        CallStep(s, step, step.i);
        QueueLog(s, step.i, step.alt, line);
      } else {
        QueueOther(s, step, line);
      }
    }
  }

  lemma LogStepOf(s: State, step: Step)
    requires Enabled(s, step) && step.LogStep?
    ensures step.i < |s.calls|
  {
  }

  /** A call logs the line it was started with. */
  lemma {:induction false} CallKeepsLine(capacity: nat, states: seq<State>, steps: seq<Step>, m: nat, n: nat)
    requires IsRun(capacity, states, steps) && m < n < |states| && steps[m].StartLog?
    ensures var i := |states[m].calls|; i < |states[n].calls| && states[n].calls[i].line == steps[m].line
    decreases n
  {
    hide Inv, Enabled, Init, NextLog;
    var i := |states[m].calls|;
    RunStep(capacity, states, steps, n - 1);
    if m < n - 1 {
      hide Apply;
      CallKeepsLine(capacity, states, steps, m, n - 1);
      var s, step := states[n - 1], steps[n - 1];
      CallStep(s, step, i);
      if step.LogStep? && step.i == i {
        DropKeptByLog(ViewForLog(s), s.calls[i], step.alt, Canceled);
      }
    }
  }

  // ----------------------------------------------------------------- sink failures

  /** A Write call that reported an error or accepted nothing. */
  predicate BadWrite(s: State, step: Step) {
    step.WriterStep? && s.writer.Writing? && (step.w.failed || step.w.n == 0)
  }

  /** The sink has failed, or the writer is about to say so. */
  predicate Failing(s: State) {
    s.failed || s.writer in {WantAccount(WriteErr), Locked(WriteErr), FailureSet}
  }

  lemma FailingBefore(s: State, step: Step)
    requires Enabled(s, step) && Failing(Apply(s, step))
    ensures Failing(s) || BadWrite(s, step)
  {
    hide CanLog, NextLog, CanClose, NextClose, ViewForLog, CountersAfter;
  }

  /** The sink is failed only by a failed write. */
  lemma {:induction false} FailureHasCause(capacity: nat, states: seq<State>, steps: seq<Step>, n: nat)
      returns (m: nat)
    requires IsRun(capacity, states, steps) && n < |states| && Failing(states[n])
    ensures m < n && BadWrite(states[m], steps[m])
  {
    hide Inv, Enabled, Apply, BadWrite;
    if n > 0 {
      hide Init, Failing;
      RunStep(capacity, states, steps, n - 1);
      FailingBefore(states[n - 1], steps[n - 1]);
      if BadWrite(states[n - 1], steps[n - 1]) {
        m := n - 1;
      } else {
        m := FailureHasCause(capacity, states, steps, n - 1);
      }
    }
  }

  /** The failure is known, on its way, or nobody's concern any more. */
  predicate Noted(s: State) {
    s.failed || s.abandoned || s.writer == WantAccount(WriteErr) || s.writer == Locked(WriteErr)
  }

  lemma NotedStep(s: State, step: Step)
    requires Enabled(s, step) && (Noted(s) || BadWrite(s, step))
    ensures Noted(Apply(s, step))
  {
    hide CanLog, NextLog, CanClose, NextClose, ViewForLog, CountersAfter;
  }

  /** A failed write fails the sink, unless Close has abandoned the writer. */
  lemma {:induction false} BadWriteFails(capacity: nat, states: seq<State>, steps: seq<Step>, m: nat, n: nat)
    requires IsRun(capacity, states, steps) && m < n < |states| && BadWrite(states[m], steps[m])
    ensures Noted(states[n])
    decreases n
  {
    hide Inv, Enabled, Apply, Init, Noted, BadWrite;
    RunStep(capacity, states, steps, n - 1);
    if m < n - 1 {
      BadWriteFails(capacity, states, steps, m, n - 1);
    }
    NotedStep(states[n - 1], steps[n - 1]);
  }

  // ------------------------------------------------------------------- abandonment

  /** The abandoned writer has no write in progress. */
  predicate Halted(s: State) {
    s.abandoned && !s.writer.CheckSinkFailed? && !s.writer.Writing?
  }

  lemma HaltedStep(s: State, step: Step)
    requires Enabled(s, step) && Halted(s)
    ensures Halted(Apply(s, step)) && Apply(s, step).sink == s.sink
  {
    hide CanLog, NextLog, CanClose, NextClose, ViewForLog, CountersAfter;
  }

  /** An abandoned writer begins no further record: unless it is in the middle of one,
      the sink never changes again. */
  lemma {:induction false} AbandonedWriterStops(
      capacity: nat, states: seq<State>, steps: seq<Step>, m: nat, n: nat)
    requires IsRun(capacity, states, steps) && m <= n < |states| && Halted(states[m])
    ensures Halted(states[n]) && states[n].sink == states[m].sink
    decreases n
  {
    hide Inv, Enabled, Apply, Init, Halted;
    if m < n {
      AbandonedWriterStops(capacity, states, steps, m, n - 1);
      RunStep(capacity, states, steps, n - 1);
      HaltedStep(states[n - 1], steps[n - 1]);
    }
  }

  /** Close has decided to abandon the writer. */
  predicate GivingUp(s: State) {
    s.abandoned || s.closer == WantAccounts || s.closer == Abandoning
  }

  /** Close takes its last look at the writer, and it has not ended. */
  predicate LastLookFails(s: State, step: Step) {
    step.CloseStep? && s.closer == LastChance && s.writer != Exited
  }

  lemma GivingUpBefore(s: State, step: Step)
    requires Enabled(s, step) && GivingUp(Apply(s, step))
    ensures GivingUp(s) || LastLookFails(s, step)
  {
    hide CanLog, NextLog, CanWriter, NextWriter, ViewForLog, NoReaders, CountersAfter, AddFate;
  }

  lemma CloserStays(s: State, step: Step)
    requires Enabled(s, step) && !step.CloseStep?
    ensures Apply(s, step).closer == s.closer
  {
    hide CanLog, NextLog, CanWriter, NextWriter, ViewForLog, CountersAfter, AddFate;
  }

  lemma CloserMoves(s: State, timedOut: bool)
    requires CanClose(s, timedOut) && NextClose(s, timedOut).0 == LastChance
    ensures s.closer == WaitWorker && timedOut
  {
    hide NoReaders;
  }

  lemma LastChanceBefore(s: State, step: Step)
    requires Enabled(s, step) && Apply(s, step).closer == LastChance
    ensures s.closer == LastChance || (s.closer == WaitWorker && step == CloseStep(true))
  {
    hide CanClose, NextClose;
    if step.CloseStep? {
      CloserMoves(s, step.timedOut);
    } else {
      hide Enabled, Apply;
      CloserStays(s, step);
    }
  }

  lemma {:induction false} LastChanceIsLate(capacity: nat, states: seq<State>, steps: seq<Step>, n: nat)
      returns (m: nat)
    requires IsRun(capacity, states, steps) && n < |states| && states[n].closer == LastChance
    ensures m < n && states[m].closer == WaitWorker && steps[m] == CloseStep(true)
  {
    hide Inv, Enabled, Apply;
    if n > 0 {
      hide Init;
      RunStep(capacity, states, steps, n - 1);
      LastChanceBefore(states[n - 1], steps[n - 1]);
      if states[n - 1].closer == LastChance {
        m := LastChanceIsLate(capacity, states, steps, n - 1);
      } else {
        m := n - 1;
      }
    }
  }

  lemma {:induction false} AbandonsAtLastLook(capacity: nat, states: seq<State>, steps: seq<Step>, n: nat)
      returns (l: nat)
    requires IsRun(capacity, states, steps) && n < |states| && GivingUp(states[n])
    ensures l < n && LastLookFails(states[l], steps[l])
  {
    hide Inv, Enabled, Apply, LastLookFails;
    if n > 0 {
      hide Init, GivingUp;
      RunStep(capacity, states, steps, n - 1);
      GivingUpBefore(states[n - 1], steps[n - 1]);
      if LastLookFails(states[n - 1], steps[n - 1]) {
        l := n - 1;
      } else {
        l := AbandonsAtLastLook(capacity, states, steps, n - 1);
      }
    }
  }

  /** Close abandons the writer only after the deadline passed while it waited, and
      after a last look at which the writer had still not ended. */
  lemma AbandonsOnlyLate(capacity: nat, states: seq<State>, steps: seq<Step>, n: nat) returns (m: nat, l: nat)
    requires IsRun(capacity, states, steps) && n < |states| && states[n].abandoned
    ensures m < l < n
    ensures states[m].closer == WaitWorker && steps[m] == CloseStep(true)
    ensures states[l].closer == LastChance && steps[l].CloseStep? && states[l].writer != Exited
  {
    hide Inv, Enabled, Apply, Init;
    l := AbandonsAtLastLook(capacity, states, steps, n);
    m := LastChanceIsLate(capacity, states, steps, l);
  }
}
