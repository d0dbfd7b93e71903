/**
 What holds of every run of the JSONL pipeline, whatever the interleaving of
 Log calls, writer, sink failures, cancellations, timers and Close.
 */
module JsonlTheorems {
  import opened Wrappers
  import opened JsonlModel
  import opened JsonlProofs

  // ----------------------------------------------------------- accepted lines

  /** Every accepted record was sent to the queue, or its call is about to. */
  predicate EnqueueLedger(s: State) {
    s.counters.accepted == |s.enqueued| + Count(s.calls, BetweenAdds) + Count(s.calls, BeforeSend)
  }

  lemma EnqueuesLog(s: State, i: nat, d: LogCall, e: Effect)
    requires EnqueueLedger(s) && i < |s.calls| && CountMoves(s.calls[i], d, e)
    ensures EnqueueLedger(CommitLog(s, i, d, e))
  {
    hide Is, Count;
    CountUpdate(s.calls, i, d, BetweenAdds);
    CountUpdate(s.calls, i, d, BeforeSend);
  }

  lemma EnqueueStep(s: State, step: Step)
    requires Ledgers(s) && EnqueueLedger(s) && Enabled(s, step)
    ensures EnqueueLedger(Apply(s, step))
  {
    match step
    case LogStep(i, alt) =>
      var v, c := ViewForLog(s), s.calls[i];
      assert FateOk(c);
      hide CanLog, NextLog, CommitLog, CountMoves, Ledgers, EnqueueLedger;
      CountMovesOfLog(v, c, alt);
      var (d, e) := NextLog(v, c, alt);
      EnqueuesLog(s, i, d, e);
    case WriterStep(w) =>
      hide Ledgers, Count, CanWriter, NextWriter, WrappingDecrement;
    case CloseStep(_) =>
      hide Ledgers, Count, NoReaders;
    case _ =>
      hide Ledgers, Count;
      CountsEnv(s, step);
  }

  // ------------------------------------------------------------------- runs

  ghost predicate Inv(s: State) {
    Ledgers(s) && EnqueueLedger(s) && SinkOk(s)
  }

  lemma InvStep(s: State, step: Step)
    requires Inv(s) && Enabled(s, step)
    ensures Inv(Apply(s, step)) && Apply(s, step).capacity == s.capacity
  {
    assert Stages(s);
    LedgersStep(s, step);
    EnqueueStep(s, step);
    SinkStep(s, step);
    hide Ledgers, EnqueueLedger, SinkOk, CanLog, CanWriter, CanClose, NextLog, NextWriter, NextClose, CountersAfter,
         AddFate;
  }

  /** The invariant holds in every state of every run. */
  lemma {:induction false} InvRun(capacity: nat, states: seq<State>, steps: seq<Step>, n: nat)
    requires IsRun(capacity, states, steps) && n < |states|
    ensures Inv(states[n]) && states[n].capacity == capacity
  {
    if n == 0 {
    } else {
      hide Inv, Apply, Enabled;
      InvRun(capacity, states, steps, n - 1);
      var step := steps[n - 1];
      InvStep(states[n - 1], step);
    }
  }

  // ------------------------------------------------------------ conservation

  /** accepted = written + undelivered + pending + admitters between their two adds. */
  predicate PlainLaw(s: State) {
    s.counters.accepted
    == s.counters.written + s.counters.undelivered + s.counters.pending + Count(s.calls, BetweenAdds)
  }

  /** No accepted record is lost or counted twice. The plain law holds exactly when
      neither the writer nor Close is between the two atomic operations of its
      accounting section, hence whenever the accounting lock is free. */
  lemma Conservation(capacity: nat, states: seq<State>, steps: seq<Step>, n: nat)
    requires IsRun(capacity, states, steps) && n < |states|
    ensures var s := states[n];
            && s.counters.accepted + One(s.writer == Counted)
               == s.counters.written + s.counters.undelivered + s.counters.pending
                  + Count(s.calls, BetweenAdds) + Remaining(s.closer)
            && (PlainLaw(s) <==> s.writer != Counted && Remaining(s.closer) == 0)
            && (!WriterHasAccounts(s.writer) && !CloserHasAccounts(s.closer) ==> PlainLaw(s))
  {
    InvRun(capacity, states, steps, n);
    assert Stages(states[n]);
    hide Count, Admission, SinkOk, SlotLedger, PendingLedger, FateLedger;
  }

  /** One Log call of the line "x" at `pc`, everything else as it started. */
  function Example(pc: LogPc, slots: nat, accepted: nat, pending: nat): State {
    Init(1).(calls := [LogCall("x", pc, false, if accepted == 0 then None else Some(Accepted))], slots := slots,
             counters := Counters(accepted, 0, pending, 0, 0, 0, 0, 0))
  }

  /** The same after its line was sent, with the writer at `w`. */
  function Written(w: WriterPc, whole: nat, written: nat): State {
    Example(Unlock, 1, 1, 1).(enqueued := ["x"], writer := w, sink := if whole == 0 then "" else "x", whole := whole,
                              counters := Counters(1, written, 1, 0, 0, 0, 0, 0))
  }

  /** `states` is a run that ends in `last`. */
  ghost predicate EndsIn(capacity: nat, states: seq<State>, steps: seq<Step>, last: State) {
    IsRun(capacity, states, steps) && states[|steps|] == last
  }

  lemma Extend(capacity: nat, states: seq<State>, steps: seq<Step>, last: State, step: Step, next: State)
      returns (more: seq<State>, moreSteps: seq<Step>)
    requires EndsIn(capacity, states, steps, last) && Enabled(last, step) && next == Apply(last, step)
    ensures EndsIn(capacity, more, moreSteps, next)
  {
    hide Enabled, Apply, Init;
    more, moreSteps := states + [next], steps + [step];
    forall i | 0 <= i < |moreSteps|
      ensures Enabled(more[i], moreSteps[i]) && more[i + 1] == Apply(more[i], moreSteps[i])
    {
      if i < |steps| {
        assert moreSteps[i] == steps[i];
      }
    }
  }

  /** One more step of the example's Log call. */
  lemma ExampleLog(states: seq<State>, steps: seq<Step>, before: State, d: LogCall, e: Effect, after: State)
      returns (more: seq<State>, moreSteps: seq<Step>)
    requires EndsIn(1, states, steps, before) && |before.calls| == 1
    requires CanLog(ViewForLog(before), before.calls[0], Proceed)
    requires NextLog(ViewForLog(before), before.calls[0], Proceed) == (d, e) && after == CommitLog(before, 0, d, e)
    ensures EndsIn(1, more, moreSteps, after)
  {
    hide EndsIn, CanLog, NextLog, CommitLog;
    more, moreSteps := Extend(1, states, steps, before, LogStep(0, Proceed), after);
  }

  function ExampleCall(pc: LogPc): LogCall {
    LogCall("x", pc, false, None)
  }

  lemma ExampleStarts() returns (states: seq<State>, steps: seq<Step>)
    ensures EndsIn(1, states, steps, Example(Enter, 0, 0, 0))
  {
    states, steps := [Init(1)], [];
    assert [] + [ExampleCall(Enter)] == [ExampleCall(Enter)];
    states, steps := Extend(1, states, steps, Init(1), StartLog("x"), Example(Enter, 0, 0, 0));
  }

  lemma ExampleLocks() returns (states: seq<State>, steps: seq<Step>)
    ensures EndsIn(1, states, steps, Example(LockedClosed, 0, 0, 0))
  {
    hide EndsIn;
    states, steps := ExampleStarts();
    states, steps := ExampleLog(states, steps, Example(Enter, 0, 0, 0), ExampleCall(CheckFailed), Nothing,
                                Example(CheckFailed, 0, 0, 0));
    states, steps := ExampleLog(states, steps, Example(CheckFailed, 0, 0, 0), ExampleCall(WantLock), Nothing,
                                Example(WantLock, 0, 0, 0));
    states, steps := ExampleLog(states, steps, Example(WantLock, 0, 0, 0), ExampleCall(LockedClosed), Nothing,
                                Example(LockedClosed, 0, 0, 0));
  }

  lemma ExampleTakesSlot() returns (states: seq<State>, steps: seq<Step>)
    ensures EndsIn(1, states, steps, Example(SlotFailed, 1, 0, 0))
  {
    hide EndsIn;
    states, steps := ExampleLocks();
    states, steps := ExampleLog(states, steps, Example(LockedClosed, 0, 0, 0), ExampleCall(LockedFailed), Nothing,
                                Example(LockedFailed, 0, 0, 0));
    states, steps := ExampleLog(states, steps, Example(LockedFailed, 0, 0, 0), ExampleCall(TrySlot), Nothing,
                                Example(TrySlot, 0, 0, 0));
    states, steps := ExampleLog(states, steps, Example(TrySlot, 0, 0, 0), ExampleCall(SlotClosed), TakeSlot,
                                Example(SlotClosed, 1, 0, 0));
    states, steps := ExampleLog(states, steps, Example(SlotClosed, 1, 0, 0), ExampleCall(SlotFailed), Nothing,
                                Example(SlotFailed, 1, 0, 0));
  }

  lemma ExampleAccepts() returns (states: seq<State>, steps: seq<Step>)
    ensures EndsIn(1, states, steps, Example(Pend, 1, 1, 0))
  {
    hide EndsIn;
    var log := LogStep(0, Proceed);
    states, steps := ExampleTakesSlot();
    states, steps := Extend(1, states, steps, Example(SlotFailed, 1, 0, 0), log, Example(Accept, 1, 0, 0));
    states, steps := Extend(1, states, steps, Example(Accept, 1, 0, 0), log, Example(Pend, 1, 1, 0));
  }

  lemma ExamplePends() returns (states: seq<State>, steps: seq<Step>)
    ensures EndsIn(1, states, steps, Example(Send, 1, 1, 1))
  {
    hide EndsIn;
    states, steps := ExampleAccepts();
    states, steps := Extend(1, states, steps, Example(Pend, 1, 1, 0), LogStep(0, Proceed), Example(Send, 1, 1, 1));
  }

  lemma ExampleSends() returns (states: seq<State>, steps: seq<Step>)
    ensures EndsIn(1, states, steps, Written(Receive, 0, 0).(queue := ["x"]))
  {
    hide EndsIn;
    var log, before, after := LogStep(0, Proceed), Example(Send, 1, 1, 1), Written(Receive, 0, 0).(queue := ["x"]);
    states, steps := ExamplePends();
    var sent := LogCall("x", Unlock, false, Some(Accepted));
    assert NextLog(ViewForLog(before), before.calls[0], Proceed) == (sent, Enqueue("x"));
    assert before.calls[0 := sent] == [sent];
    assert before.queue + ["x"] == ["x"];
    assert CommitLog(before, 0, sent, Enqueue("x")) == after;
    states, steps := Extend(1, states, steps, before, log, after);
  }

  lemma ExampleWrites() returns (states: seq<State>, steps: seq<Step>)
    ensures EndsIn(1, states, steps, Written(WantAccount(WriteOk), 1, 0))
  {
    hide EndsIn;
    var write := WriterStep(WriteStep(1, false));
    states, steps := ExampleSends();
    assert ["x"][1..] == [];
    states, steps := Extend(1, states, steps, Written(Receive, 0, 0).(queue := ["x"]), write,
      Written(CheckAbandoned("x"), 0, 0));
    states, steps := Extend(1, states, steps, Written(CheckAbandoned("x"), 0, 0), write,
      Written(CheckSinkFailed("x"), 0, 0));
    states, steps := Extend(1, states, steps, Written(CheckSinkFailed("x"), 0, 0), write,
      Written(Writing("x", 0), 0, 0));
    assert "x"[0..1] == "x" && "" + "x" == "x";
    states, steps := Extend(1, states, steps, Written(Writing("x", 0), 0, 0), write,
      Written(WantAccount(WriteOk), 1, 0));
  }

  /** The plain law does fail for a moment: a record that was written is still
      counted as pending until the writer's next operation. */
  lemma PlainLawFails() returns (states: seq<State>, steps: seq<Step>)
    ensures IsRun(1, states, steps) && !PlainLaw(states[|steps|])
  {
    var write := WriterStep(WriteStep(1, false));
    states, steps := ExampleWrites();
    states, steps := Extend(1, states, steps, Written(WantAccount(WriteOk), 1, 0), write,
      Written(Locked(WriteOk), 1, 0));
    states, steps := Extend(1, states, steps, Written(Locked(WriteOk), 1, 0), write, Written(Counted, 1, 1));
    CountNone(Written(Counted, 1, 1).calls, BetweenAdds);
  }

  /** The wrapping decrement of `pending` always takes exactly one away. */
  lemma NoUnderflow(capacity: nat, states: seq<State>, steps: seq<Step>, n: nat)
    requires IsRun(capacity, states, steps) && n < |steps| && steps[n].WriterStep? && states[n].writer == Counted
    ensures states[n].counters.pending > 0
    ensures states[n + 1].counters == states[n].counters.(pending := states[n].counters.pending - 1)
  {
    InvRun(capacity, states, steps, n);
    var s, w := states[n], steps[n].w;
    DecrementIsExact(s);
    hide WrappingDecrement, Inv, Count;
    assert Enabled(s, WriterStep(w)) && states[n + 1] == Apply(s, steps[n]);
  }

  /** When Close returns, every accepted record is classified, even if the
      deadline made it abandon records in mid-write. */
  lemma CloseSettlesAccounts(capacity: nat, states: seq<State>, steps: seq<Step>, n: nat)
    requires IsRun(capacity, states, steps) && n < |states| && states[n].closer == Closed
    ensures states[n].counters.pending == 0
    ensures states[n].counters.accepted == states[n].counters.written + states[n].counters.undelivered
    ensures states[n].counters.accepted == |states[n].enqueued|
  {
    InvRun(capacity, states, steps, n);
    var s := states[n];
    CountNone(s.calls, BetweenAdds);
    CountNone(s.calls, BeforeSend);
    hide Count, SinkOk, FateLedger, SlotLedger;
  }

  predicate SameTotals(k: Counters, l: Counters) {
    k.accepted == l.accepted && k.written == l.written && k.undelivered == l.undelivered && k.pending == l.pending
  }

  lemma ClosedLog(v: LogView, c: LogCall, alt: Alternative)
    requires CanLog(v, c, alt) && !Inside(c)
    ensures var e := NextLog(v, c, alt).1; e != CountFate(Accepted) && !e.AddPending?
  {
  }

  lemma NotInside(s: State, i: nat)
    requires Lifecycle(s) && s.closer == Closed && i < |s.calls|
    ensures !Inside(s.calls[i])
  {
    hide Inside, FateOk, HoldsReadLock;
  }

  lemma ClosedStep(s: State, step: Step)
    requires Lifecycle(s) && Enabled(s, step) && s.closer == Closed
    ensures var t := Apply(s, step);
            t.closer == Closed && SameTotals(t.counters, s.counters)
  {
    match step
    case LogStep(i, alt) => ClosedLogStep(s, i, alt);
    case _ => ClosedOtherStep(s, step);
  }

  lemma ClosedLogStep(s: State, i: nat, alt: Alternative)
    requires Lifecycle(s) && Enabled(s, LogStep(i, alt)) && s.closer == Closed
    ensures var t := Apply(s, LogStep(i, alt));
            t.closer == Closed && SameTotals(t.counters, s.counters)
  {
    hide Lifecycle, CanLog, NextLog, Inside;
    NotInside(s, i);
    ClosedLog(ViewForLog(s), s.calls[i], alt);
  }

  lemma ClosedOtherStep(s: State, step: Step)
    requires Lifecycle(s) && Enabled(s, step) && s.closer == Closed && !step.LogStep?
    ensures var t := Apply(s, step);
            t.closer == Closed && SameTotals(t.counters, s.counters)
  {
    hide CanLog, NextLog, Admission, NoReaders;
  }

  /** After Close the totals never move again, though an abandoned writer may
      still be running and late Log calls are still being turned away. */
  lemma {:induction false} ClosedTotalsAreFinal(capacity: nat, states: seq<State>, steps: seq<Step>, m: nat, n: nat)
    requires IsRun(capacity, states, steps) && m <= n < |states| && states[m].closer == Closed
    ensures states[n].closer == Closed && SameTotals(states[n].counters, states[m].counters)
  {
    if m < n {
      ClosedTotalsAreFinal(capacity, states, steps, m, n - 1);
      InvRun(capacity, states, steps, n - 1);
      var step := steps[n - 1];
      assert Lifecycle(states[n - 1]);
      hide Lifecycle, Apply, Enabled, Inv, Init, IsRun;
      ClosedStep(states[n - 1], step);
    }
  }

  // ------------------------------------------------------------------- fates

  function Settled(calls: seq<LogCall>): nat {
    if calls == [] then 0 else Settled(calls[..|calls| - 1]) + One(calls[|calls| - 1].fate.Some?)
  }

  lemma {:induction false} FatesPartition(calls: seq<LogCall>)
    ensures Settled(calls) == Count(calls, HasFate(Accepted)) + Count(calls, HasFate(Dropped(QueueTimeout)))
            + Count(calls, HasFate(Dropped(Canceled))) + Count(calls, HasFate(Dropped(PostClose)))
            + Count(calls, HasFate(Dropped(SinkFailure)))
  {
    if calls != [] {
      FatesPartition(calls[..|calls| - 1]);
      match calls[|calls| - 1].fate
      case None =>
      case Some(Accepted) =>
      case Some(Dropped(QueueTimeout)) =>
      case Some(Dropped(Canceled)) =>
      case Some(Dropped(PostClose)) =>
      case Some(Dropped(SinkFailure)) =>
    }
  }

  /** Every finished Log call was counted in exactly one of the five counters. */
  lemma EveryCallCountedOnce(capacity: nat, states: seq<State>, steps: seq<Step>, n: nat)
    requires IsRun(capacity, states, steps) && n < |states|
    ensures var s, k := states[n], states[n].counters;
            && (forall i :: 0 <= i < |s.calls| && s.calls[i].pc == Finished ==> s.calls[i].fate.Some?)
            && k.accepted + k.queueTimeout + k.canceled + k.postClose + k.sinkFailure == Settled(s.calls)
            && k.accepted == Count(s.calls, HasFate(Accepted))
            && k.queueTimeout == Count(s.calls, HasFate(Dropped(QueueTimeout)))
            && k.canceled == Count(s.calls, HasFate(Dropped(Canceled)))
            && k.postClose == Count(s.calls, HasFate(Dropped(PostClose)))
            && k.sinkFailure == Count(s.calls, HasFate(Dropped(SinkFailure)))
  {
    InvRun(capacity, states, steps, n);
    FatesPartition(states[n].calls);
    hide Count, Settled, Stages, SlotLedger, PendingLedger, RecordLedger, SinkOk;
  }

  // ------------------------------------------------------------------- slots

  /** Slots are held by admitters, queued records and the record in hand, so a
      call that reached the send finds room in an open queue. */
  lemma SlotDiscipline(capacity: nat, states: seq<State>, steps: seq<Step>, n: nat)
    requires IsRun(capacity, states, steps) && n < |states|
    ensures var s := states[n];
            && s.slots == Count(s.calls, HasSlot) + |s.queue| + One(InHand(s.writer)) <= capacity
            && (forall i: nat :: i < |s.calls| && s.calls[i].pc == Send ==> Enabled(s, LogStep(i, Proceed)))
            && (forall i: nat :: i < |s.calls| && s.calls[i].pc.GiveBack? ==> Enabled(s, LogStep(i, Proceed)))
            && (s.writer == FreeSlot ==> Enabled(s, WriterStep(WriteStep(0, false))))
  {
    InvRun(capacity, states, steps, n);
    var s := states[n];
    forall i: nat | i < |s.calls| && (s.calls[i].pc == Send || s.calls[i].pc.GiveBack?)
      ensures Enabled(s, LogStep(i, Proceed))
    {
      CountSome(s.calls, i, HasSlot);
      assert Inside(s.calls[i]);
    }
    hide Count, SinkOk, PendingLedger, RecordLedger, FateLedger, Stages;
  }

  /** How many steps a Log call has left. */
  function Rank(pc: LogPc): nat {
    match pc
    case Enter => 15
    case CheckFailed => 14
    case WantLock => 13
    case LockedClosed => 12
    case LockedFailed => 11
    case TrySlot => 10
    case CheckContext => 9
    case WaitSlot => 8
    case SlotClosed => 7
    case SlotFailed => 6
    case GiveBack(_) => 3
    case Accept => 5
    case Pend => 4
    case Send => 3
    case CountDrop(_, _) => 2
    case Unlock => 1
    case Finished => 0
  }

  /** What a holder of the read lock does once admission is stopped. */
  function WayOut(c: LogCall): Alternative {
    if c.pc == WaitSlot then OnStop else Proceed
  }

  lemma RankDrops(v: LogView, c: LogCall, alt: Alternative)
    requires CanLog(v, c, alt)
    ensures Rank(NextLog(v, c, alt).0.pc) < Rank(c.pc)
  {
  }

  lemma WayOutIsOpen(s: State, i: nat)
    requires Ledgers(s) && s.admissionStop && i < |s.calls| && HoldsReadLock(s.calls[i])
    ensures Enabled(s, LogStep(i, WayOut(s.calls[i])))
  {
    hide Count, FateOk, RecordLedger, FateLedger, PendingLedger, Stages;
    if s.calls[i].pc == Send || s.calls[i].pc.GiveBack? {
      CountSome(s.calls, i, HasSlot);
      assert Inside(s.calls[i]);
    }
  }

  /** With admission stopped no holder of the read lock can be stuck, and
      whatever it does brings it closer to letting go. */
  lemma HolderMoves(s: State, i: nat)
    requires Ledgers(s) && s.admissionStop && i < |s.calls| && HoldsReadLock(s.calls[i])
    ensures Enabled(s, LogStep(i, WayOut(s.calls[i])))
    ensures forall alt :: Enabled(s, LogStep(i, alt)) ==>
              Rank(Apply(s, LogStep(i, alt)).calls[i].pc) < Rank(s.calls[i].pc)
  {
    WayOutIsOpen(s, i);
    hide Ledgers, CanLog, NextLog, Rank, WayOut, AddFate;
    forall alt | Enabled(s, LogStep(i, alt))
      ensures Rank(Apply(s, LogStep(i, alt)).calls[i].pc) < Rank(s.calls[i].pc)
    {
      RankDrops(ViewForLog(s), s.calls[i], alt);
    }
  }

  function HolderRank(c: LogCall): nat {
    if HoldsReadLock(c) then Rank(c.pc) else 0
  }

  function HolderRanks(calls: seq<LogCall>): nat {
    if calls == [] then 0 else HolderRanks(calls[..|calls| - 1]) + HolderRank(calls[|calls| - 1])
  }

  lemma {:induction false} HolderRanksUpdate(calls: seq<LogCall>, i: nat, c: LogCall)
    requires i < |calls|
    ensures HolderRanks(calls[i := c]) + HolderRank(calls[i]) == HolderRanks(calls) + HolderRank(c)
  {
    var n := |calls| - 1;
    var later := calls[i := c];
    if i == n {
      assert later[..n] == calls[..n];
    } else {
      assert later[..n] == calls[..n][i := c];
      HolderRanksUpdate(calls[..n], i, c);
    }
  }

  /** A piece of a run, made of steps of Log calls only. */
  ghost predicate IsDrain(s: State, states: seq<State>, steps: seq<Step>) {
    && |states| == |steps| + 1
    && states[0] == s
    && (forall j {:trigger steps[j]} :: 0 <= j < |steps| ==>
          steps[j].LogStep? && Enabled(states[j], steps[j]) && states[j + 1] == Apply(states[j], steps[j]))
  }

  lemma DrainShrinks(s: State, i: nat) returns (t: State)
    requires Ledgers(s) && s.admissionStop && i < |s.calls| && HoldsReadLock(s.calls[i])
    ensures Enabled(s, LogStep(i, WayOut(s.calls[i]))) && t == Apply(s, LogStep(i, WayOut(s.calls[i])))
    ensures Ledgers(t) && t.closer == s.closer && t.admissionStop
    ensures HolderRanks(t.calls) < HolderRanks(s.calls)
  {
    HolderMoves(s, i);
    var step := LogStep(i, WayOut(s.calls[i]));
    t := Apply(s, step);
    LedgersStep(s, step);
    hide Ledgers, CanLog, NextLog, HolderRanks, Rank, WayOut, AddFate;
    HolderRanksUpdate(s.calls, i, t.calls[i]);
  }

  lemma DrainExtends(s: State, step: Step, t: State, states: seq<State>, steps: seq<Step>)
    requires step.LogStep? && Enabled(s, step) && t == Apply(s, step) && IsDrain(t, states, steps)
    ensures IsDrain(s, [s] + states, [step] + steps)
  {
    hide Enabled, Apply;
    var a, b := [s] + states, [step] + steps;
    forall j | 0 <= j < |b|
      ensures b[j].LogStep? && Enabled(a[j], b[j]) && a[j + 1] == Apply(a[j], b[j])
    {
      if j > 0 {
        assert b[j] == steps[j - 1];
      }
    }
  }

  /** From any state in which Close waits for the admission lock, the holders of
      the read lock can run to completion on their own, with no help from the
      writer, from Close or from a timer, and then Close has the lock. */
  lemma {:induction false} CloseCanLock(s: State) returns (states: seq<State>, steps: seq<Step>)
    requires Ledgers(s) && s.closer == WantWriteLock
    ensures IsDrain(s, states, steps)
    ensures Enabled(states[|steps|], CloseStep(false)) && states[|steps|].closer == WantWriteLock
    decreases HolderRanks(s.calls)
  {
    if NoReaders(s) {
      states, steps := [s], [];
    } else {
      assert s.admissionStop;
      var i: nat :| i < |s.calls| && HoldsReadLock(s.calls[i]);
      hide Ledgers, Apply, Enabled, HoldsReadLock;
      var t := DrainShrinks(s, i);
      var restStates, restSteps := CloseCanLock(t);
      DrainExtends(s, LogStep(i, WayOut(s.calls[i])), t, restStates, restSteps);
      states, steps := [s] + restStates, [LogStep(i, WayOut(s.calls[i]))] + restSteps;
    }
  }

  /** The same, said of runs: the wait for the admission lock can always end. */
  lemma CloseNeverDeadlocks(capacity: nat, states: seq<State>, steps: seq<Step>, n: nat)
      returns (more: seq<State>, drain: seq<Step>)
    requires IsRun(capacity, states, steps) && n < |states| && states[n].closer == WantWriteLock
    ensures IsDrain(states[n], more, drain)
    ensures Enabled(more[|drain|], CloseStep(false))
  {
    InvRun(capacity, states, steps, n);
    more, drain := CloseCanLock(states[n]);
  }

  /** How many steps of a run from `m` to `n` are steps of read-lock holders. */
  ghost function HolderSteps(states: seq<State>, steps: seq<Step>, m: nat, n: nat): nat
    requires m <= n <= |steps| <= |states|
    decreases n
  {
    if m == n then 0 else HolderSteps(states, steps, m, n - 1) + One(IsHolderStep(states[n - 1], steps[n - 1]))
  }

  predicate IsHolderStep(s: State, step: Step) {
    step.LogStep? && step.i < |s.calls| && HoldsReadLock(s.calls[step.i])
  }

  lemma {:induction false} HolderRanksAppend(calls: seq<LogCall>, c: LogCall)
    ensures HolderRanks(calls + [c]) == HolderRanks(calls) + HolderRank(c)
  {
    assert (calls + [c])[..|calls|] == calls;
  }

  /** While Close waits for the lock nobody joins the readers. */
  lemma HeldBack(v: LogView, c: LogCall, alt: Alternative)
    requires CanLog(v, c, alt) && v.heldBack
    ensures HoldsReadLock(NextLog(v, c, alt).0) ==> HoldsReadLock(c)
  {
  }

  lemma WaitingLogStep(s: State, i: nat, alt: Alternative)
    requires s.closer == WantWriteLock && Enabled(s, LogStep(i, alt))
    ensures var t := Apply(s, LogStep(i, alt));
            HolderRanks(t.calls) + One(HoldsReadLock(s.calls[i])) <= HolderRanks(s.calls)
  {
    hide CanLog, NextLog, HolderRanks, Rank, HoldsReadLock, AddFate;
    var v, c := ViewForLog(s), s.calls[i];
    RankDrops(v, c, alt);
    HeldBack(v, c, alt);
    HolderRanksUpdate(s.calls, i, NextLog(v, c, alt).0);
  }

  lemma WaitingStep(s: State, step: Step)
    requires s.closer == WantWriteLock && Enabled(s, step) && Apply(s, step).closer == WantWriteLock
    ensures HolderRanks(Apply(s, step).calls) + One(IsHolderStep(s, step)) <= HolderRanks(s.calls)
  {
    match step
    case LogStep(i, alt) =>
      hide Apply, HolderRanks;
      WaitingLogStep(s, i, alt);
    case StartLog(line) =>
      hide HolderRanks;
      HolderRanksAppend(s.calls, LogCall(line, Enter, false, None));
    case CancelLog(i) =>
      hide HolderRanks;
      HolderRanksUpdate(s.calls, i, s.calls[i].(canceled := true));
    case _ =>
      hide HolderRanks, NoReaders, NextWriter, CanWriter;
  }

  lemma {:induction false} NoRankNoReaders(calls: seq<LogCall>, i: nat)
    requires i < |calls| && HolderRanks(calls) == 0
    ensures !HoldsReadLock(calls[i])
  {
    if i < |calls| - 1 {
      NoRankNoReaders(calls[..|calls| - 1], i);
    }
  }

  lemma WaitingRunStep(capacity: nat, states: seq<State>, steps: seq<Step>, n: nat)
    requires IsRun(capacity, states, steps) && n < |steps|
    requires states[n].closer == WantWriteLock && states[n + 1].closer == WantWriteLock
    ensures HolderRanks(states[n + 1].calls) + One(IsHolderStep(states[n], steps[n])) <= HolderRanks(states[n].calls)
  {
    hide Apply, Enabled, HolderRanks, Init, IsHolderStep;
    var step := steps[n];
    WaitingStep(states[n], step);
  }

  /** Whatever the schedule, while Close waits for the admission lock the holders of
      the read lock take at most as many steps as their ranks add up to; after that
      many, or as soon as the ranks are used up, Close has the lock. */
  lemma {:induction false} CloseWaitIsBounded(capacity: nat, states: seq<State>, steps: seq<Step>, m: nat, n: nat)
    requires IsRun(capacity, states, steps) && m <= n < |states|
    requires forall k :: m <= k <= n ==> states[k].closer == WantWriteLock
    ensures HolderSteps(states, steps, m, n) + HolderRanks(states[n].calls) <= HolderRanks(states[m].calls)
    ensures HolderSteps(states, steps, m, n) == HolderRanks(states[m].calls) ==> Enabled(states[n], CloseStep(false))
    decreases n
  {
    hide Apply, Enabled, HolderRanks, Init, IsHolderStep;
    if m < n {
      assert states[n - 1].closer == WantWriteLock;
      CloseWaitIsBounded(capacity, states, steps, m, n - 1);
      WaitingRunStep(capacity, states, steps, n - 1);
    }
    assert states[n].closer == WantWriteLock;
    if HolderRanks(states[n].calls) == 0 {
      RanksUsedUp(states[n]);
    }
  }

  lemma RanksUsedUp(s: State)
    requires s.closer == WantWriteLock && HolderRanks(s.calls) == 0
    ensures Enabled(s, CloseStep(false))
  {
    forall i | 0 <= i < |s.calls|
      ensures !HoldsReadLock(s.calls[i])
    {
      NoRankNoReaders(s.calls, i);
    }
  }

  // -------------------------------------------------------------------- sink

  /** The sink holds whole lines of a prefix of the enqueued records, in order,
      then at most a proper part of the next; the whole lines are at most one
      ahead of the Written counter. */
  lemma SinkIsPrefix(capacity: nat, states: seq<State>, steps: seq<Step>, n: nat)
      returns (k: nat, part: string)
    requires IsRun(capacity, states, steps) && n < |states|
    ensures var s := states[n];
            && s.counters.written <= k <= s.counters.written + 1
            && k <= |s.enqueued| <= s.counters.accepted
            && s.sink == Lines(s.enqueued[..k]) + part
            && (part != "" ==> k < |s.enqueued| && part < s.enqueued[k])
  {
    InvRun(capacity, states, steps, n);
    var s := states[n];
    k := s.whole;
    hide Lines, Count, Ledgers, Progress;
    part := if s.cut == 0 then "" else s.enqueued[k][..s.cut];
    assert Lines(s.enqueued[..k]) + "" == Lines(s.enqueued[..k]);
  }

  lemma SinkGrowsStep(s: State, step: Step)
    requires Inv(s) && Enabled(s, step)
    ensures Grown(s, Apply(s, step))
  {
    hide Ledgers, EnqueueLedger, Content, NoReaders, CountersAfter, AddFate;
    match step
    case WriterStep(w) =>
      hide CommitLog, CommitClose, CanLog, NextLog, NextClose;
    case _ =>
      hide CanWriter, NextWriter, CanLog, NextLog, CommitWriter, SinkOk;
  }

  predicate Grown(s: State, t: State) {
    && s.sink <= t.sink && s.enqueued <= t.enqueued
    && (s.failed ==> t.failed && t.sink == s.sink)
  }

  lemma GrownTransitive(s: State, t: State, u: State)
    requires Grown(s, t) && Grown(t, u)
    ensures Grown(s, u)
  {
  }

  lemma GrownByStep(capacity: nat, states: seq<State>, steps: seq<Step>, n: nat)
    requires IsRun(capacity, states, steps) && n < |steps|
    ensures Grown(states[n], states[n + 1])
  {
    hide Inv, Apply, Enabled, Grown;
    InvRun(capacity, states, steps, n);
    var step := steps[n];
    SinkGrowsStep(states[n], step);
  }

  /** What is on the sink or in the queue order is never revised, and once the
      sink has failed no further byte reaches it. */
  lemma {:induction false} SinkOnlyGrows(capacity: nat, states: seq<State>, steps: seq<Step>, m: nat, n: nat)
    requires IsRun(capacity, states, steps) && m <= n < |states|
    ensures Grown(states[m], states[n])
  {
    if m < n {
      SinkOnlyGrows(capacity, states, steps, m, n - 1);
      GrownByStep(capacity, states, steps, n - 1);
      hide Grown;
      GrownTransitive(states[m], states[n - 1], states[n]);
    }
  }
}
