/**
 The JSONL telemetry pipeline of internal/telemetry as a state machine: any
 number of concurrent Log calls, the one writer goroutine, and Close with its
 deadline. One step is one atomic operation, one channel operation, one lock
 operation or one Write call on the sink; a timer may fire at any time.
 */
module JsonlModel {
  import opened Wrappers

  datatype Drop = QueueTimeout | Canceled | PostClose | SinkFailure

  /** What became of one Log call. */
  datatype Fate = Accepted | Dropped(why: Drop)

  // -------------------------------------------------------------- Log calls

  /** From `LockedClosed` to `Unlock` the call holds the admission read lock. */
  datatype LogPc =
    | Enter
    | CheckFailed
    | WantLock
    | LockedClosed
    | LockedFailed
    | TrySlot
    | CheckContext
    | WaitSlot
    | SlotClosed
    | SlotFailed
    | GiveBack(why: Drop)
    | Accept
    | Pend
    | Send
    | CountDrop(why: Drop, locked: bool)
    | Unlock
    | Finished

  datatype LogCall = LogCall(line: string, pc: LogPc, canceled: bool, fate: Option<Fate>)

  /** Which branch of a select or of a timer race is taken. */
  datatype Alternative = Proceed | OnStop | OnFailure | OnContext | OnTimer

  // ------------------------------------------------------------- the writer

  datatype WriteResult = WriteOk | WriteErr | Skipped

  /** From `Locked` to `Unlocking` the writer holds the accounting lock; from
      `CheckAbandoned` to `FreeSlot` it has a record in its hands. */
  datatype WriterPc =
    | Receive
    | CheckAbandoned(line: string)
    | CheckSinkFailed(line: string)
    | Writing(line: string, offset: nat)
    | WantAccount(result: WriteResult)
    | Locked(result: WriteResult)
    | FailureSet
    | Counted
    | FreeSlot
    | Unlocking
    | Exited

  // -------------------------------------------------------------- the closer

  /** At `WantWriteLock` the closer has announced itself to the admission lock and
      waits for its readers. From `Abandoning` to `Released` it holds the accounting
      lock. */
  datatype ClosePc =
    | NotCalled
    | StopAdmission
    | CallLock
    | WantWriteLock
    | HasWriteLock
    | ReleaseWriteLock
    | WaitWorker
    | LastChance
    | WantAccounts
    | Abandoning
    | Swapping
    | Adding(remaining: nat)
    | Released
    | Timeout
    | Closed

  // ------------------------------------------------------------- shared state

  datatype Counters = Counters(
    accepted: nat,
    written: nat,
    pending: nat,
    undelivered: nat,
    queueTimeout: nat,
    canceled: nat,
    postClose: nat,
    sinkFailure: nat)

  /** `enqueued` is every line ever sent to the queue, in order; `whole` and `cut`
      say what the sink holds of them: whole lines, then bytes of the next. */
  datatype State = State(
    capacity: nat,
    slots: nat,
    queue: seq<string>,
    queueClosed: bool,
    closedState: bool,
    admissionStop: bool,
    failed: bool,
    abandoned: bool,
    counters: Counters,
    calls: seq<LogCall>,
    writer: WriterPc,
    closer: ClosePc,
    sink: string,
    enqueued: seq<string>,
    whole: nat,
    cut: nat)

  function Init(capacity: nat): State {
    State(capacity, 0, [], false, false, false, false, false, Counters(0, 0, 0, 0, 0, 0, 0, 0),
          [], Receive, NotCalled, "", [], 0, 0)
  }

  predicate HoldsReadLock(c: LogCall) {
    match c.pc
    case Enter => false
    case CheckFailed => false
    case WantLock => false
    case CountDrop(_, locked) => locked
    case Finished => false
    case _ => true
  }

  ghost predicate NoReaders(s: State) {
    forall i :: 0 <= i < |s.calls| ==> !HoldsReadLock(s.calls[i])
  }

  /** New readers wait, as sync.RWMutex lets a waiting writer go first. */
  predicate HoldsBack(s: State) {
    s.closer == WantWriteLock || WriteLocked(s)
  }

  predicate WriteLocked(s: State) {
    s.closer == HasWriteLock || s.closer == ReleaseWriteLock
  }

  predicate WriterHasAccounts(w: WriterPc) {
    w.Locked? || w.FailureSet? || w.Counted? || w.FreeSlot? || w.Unlocking?
  }

  predicate CloserHasAccounts(c: ClosePc) {
    c.Abandoning? || c.Swapping? || c.Adding? || c.Released?
  }

  // -------------------------------------------------------- one Log call step

  /** What one step of a Log call can read of the shared state. */
  datatype LogView = LogView(
    slotFree: bool,
    slotTaken: bool,
    queueRoom: bool,
    queueClosed: bool,
    heldBack: bool,
    closedState: bool,
    admissionStop: bool,
    failed: bool)

  function ViewForLog(s: State): LogView {
    LogView(s.slots < s.capacity, s.slots > 0, |s.queue| < s.capacity, s.queueClosed, HoldsBack(s),
            s.closedState, s.admissionStop, s.failed)
  }

  datatype Effect =
    | Nothing
    | TakeSlot
    | ReturnSlot
    | CountFate(fate: Fate)
    | AddPending
    | Enqueue(line: string)

  predicate CanLog(v: LogView, c: LogCall, alt: Alternative) {
    match c.pc
    case WantLock => alt == Proceed && !v.heldBack
    case WaitSlot =>
      (match alt
       case Proceed => v.slotFree
       case OnStop => v.admissionStop
       case OnFailure => v.failed
       case OnContext => c.canceled
       case OnTimer => true)
    case Send => alt == Proceed && v.queueRoom && !v.queueClosed
    case GiveBack(_) => alt == Proceed && v.slotTaken
    case Finished => false
    case _ => alt == Proceed
  }

  function DropAt(c: LogCall, why: Drop, locked: bool): LogCall {
    c.(pc := CountDrop(why, locked))
  }

  function NextLog(v: LogView, c: LogCall, alt: Alternative): (LogCall, Effect)
    requires CanLog(v, c, alt)
  {
    match c.pc
    case Enter => if v.closedState then (DropAt(c, PostClose, false), Nothing) else (c.(pc := CheckFailed), Nothing)
    case CheckFailed => if v.failed then (DropAt(c, SinkFailure, false), Nothing) else (c.(pc := WantLock), Nothing)
    case WantLock => (c.(pc := LockedClosed), Nothing)
    case LockedClosed =>
      if v.queueClosed then (DropAt(c, PostClose, true), Nothing) else (c.(pc := LockedFailed), Nothing)
    case LockedFailed => if v.failed then (DropAt(c, SinkFailure, true), Nothing) else (c.(pc := TrySlot), Nothing)
    case TrySlot =>
      if v.slotFree then (c.(pc := SlotClosed), TakeSlot) else (c.(pc := CheckContext), Nothing)
    case CheckContext => if c.canceled then (DropAt(c, Canceled, true), Nothing) else (c.(pc := WaitSlot), Nothing)
    case WaitSlot =>
      (match alt
       case Proceed => (c.(pc := SlotClosed), TakeSlot)
       case OnStop => (DropAt(c, PostClose, true), Nothing)
       case OnFailure => (DropAt(c, SinkFailure, true), Nothing)
       case OnContext => (DropAt(c, Canceled, true), Nothing)
       case OnTimer => (DropAt(c, QueueTimeout, true), Nothing))
    case SlotClosed => (c.(pc := if v.closedState then GiveBack(PostClose) else SlotFailed), Nothing)
    case SlotFailed => (c.(pc := if v.failed then GiveBack(SinkFailure) else Accept), Nothing)
    case GiveBack(why) => (DropAt(c, why, true), ReturnSlot)
    case Accept => (c.(pc := Pend, fate := Some(Accepted)), CountFate(Accepted))
    case Pend => (c.(pc := Send), AddPending)
    case Send => (c.(pc := Unlock), Enqueue(c.line))
    case CountDrop(why, locked) =>
      (c.(pc := if locked then Unlock else Finished, fate := Some(Dropped(why))), CountFate(Dropped(why)))
    case Unlock => (c.(pc := Finished), Nothing)
  }

  function AddFate(k: Counters, fate: Fate): Counters {
    match fate
    case Accepted => k.(accepted := k.accepted + 1)
    case Dropped(why) =>
      match why
      case QueueTimeout => k.(queueTimeout := k.queueTimeout + 1)
      case Canceled => k.(canceled := k.canceled + 1)
      case PostClose => k.(postClose := k.postClose + 1)
      case SinkFailure => k.(sinkFailure := k.sinkFailure + 1)
  }

  function CommitLog(s: State, i: nat, c: LogCall, e: Effect): State
    requires i < |s.calls|
  {
    s.(calls := s.calls[i := c],
       slots := if e.TakeSlot? then s.slots + 1 else if e.ReturnSlot? && s.slots > 0 then s.slots - 1 else s.slots,
       counters := match e
                   case CountFate(fate) => AddFate(s.counters, fate)
                   case AddPending => s.counters.(pending := s.counters.pending + 1)
                   case _ => s.counters,
       queue := if e.Enqueue? then s.queue + [e.line] else s.queue,
       enqueued := if e.Enqueue? then s.enqueued + [e.line] else s.enqueued)
  }

  // --------------------------------------------------------- one writer step

  /** `pending.Add(^uint64(0))`: a decrement that wraps around below zero. */
  function WrappingDecrement(n: nat): nat {
    (n + 0xFFFF_FFFF_FFFF_FFFF) % 0x1_0000_0000_0000_0000
  }

  /** One Write call accepts `n` bytes and may report an error as well. */
  datatype WriteStep = WriteStep(n: nat, failed: bool)

  datatype WriterEffect =
    | Keep
    | Dequeue
    | ToSink(chunk: string, reached: nat, complete: bool)
    | SetFailed
    | AddWritten
    | AddUndelivered
    | DecrementPending
    | ReleaseSlot

  predicate CanWriter(s: State, w: WriteStep) {
    match s.writer
    case Receive => s.queue != [] || s.queueClosed
    case Writing(line, offset) => offset + w.n <= |line|
    case WantAccount(_) => !CloserHasAccounts(s.closer)
    case FreeSlot => s.slots > 0
    case Exited => false
    case _ => true
  }

  /** The writer's next program point and effect. After a Write call the bytes are
      on the sink whatever the call reported. */
  function NextWriter(s: State, w: WriteStep): (WriterPc, WriterEffect)
    requires CanWriter(s, w)
  {
    match s.writer
    case Receive => if s.queue != [] then (CheckAbandoned(s.queue[0]), Dequeue) else (Exited, Keep)
    case CheckAbandoned(line) => (if s.abandoned then WantAccount(Skipped) else CheckSinkFailed(line), Keep)
    case CheckSinkFailed(line) =>
      if s.failed then (WantAccount(Skipped), Keep)
      else if line == "" then (WantAccount(WriteOk), ToSink("", 0, true))
      else (Writing(line, 0), Keep)
    case Writing(line, offset) =>
      var reached := offset + w.n;
      (if w.failed || w.n == 0 then WantAccount(WriteErr)
       else if reached == |line| then WantAccount(WriteOk)
       else Writing(line, reached),
       ToSink(line[offset..reached], reached, reached == |line|))
    case WantAccount(result) => (if s.abandoned then FreeSlot else Locked(result), Keep)
    case Locked(result) =>
      (match result
       case WriteOk => (Counted, AddWritten)
       case WriteErr => (FailureSet, SetFailed)
       case Skipped => (Counted, AddUndelivered))
    case FailureSet => (Counted, AddUndelivered)
    case Counted => (FreeSlot, DecrementPending)
    case FreeSlot => (Unlocking, ReleaseSlot)
    case Unlocking => (Receive, Keep)
  }

  function CountersAfter(k: Counters, e: WriterEffect): Counters {
    match e
    case AddWritten => k.(written := k.written + 1)
    case AddUndelivered => k.(undelivered := k.undelivered + 1)
    case DecrementPending => k.(pending := WrappingDecrement(k.pending))
    case _ => k
  }

  function CommitWriter(s: State, pc: WriterPc, e: WriterEffect): State {
    s.(writer := pc,
       queue := if e.Dequeue? && s.queue != [] then s.queue[1..] else s.queue,
       failed := s.failed || e.SetFailed?,
       counters := CountersAfter(s.counters, e),
       slots := if e.ReleaseSlot? && s.slots > 0 then s.slots - 1 else s.slots,
       sink := if e.ToSink? then s.sink + e.chunk else s.sink,
       whole := if e.ToSink? && e.complete then s.whole + 1 else s.whole,
       cut := if e.ToSink? then (if e.complete then 0 else e.reached) else s.cut)
  }

  // ---------------------------------------------------------- one Close step

  datatype CloseEffect =
    | Silent
    | SetClosedState
    | SetAdmissionStop
    | CloseQueue
    | SetAbandoned
    | SwapPending
    | AddRemaining(remaining: nat)

  ghost predicate CanClose(s: State, timedOut: bool) {
    match s.closer
    case WantWriteLock => NoReaders(s)
    case WaitWorker => timedOut || s.writer == Exited
    case WantAccounts => !WriterHasAccounts(s.writer)
    case Closed => false
    case _ => true
  }

  ghost function NextClose(s: State, timedOut: bool): (ClosePc, CloseEffect)
    requires CanClose(s, timedOut)
  {
    match s.closer
    case NotCalled => (StopAdmission, SetClosedState)
    case StopAdmission => (CallLock, SetAdmissionStop)
    case CallLock => (WantWriteLock, Silent)
    case WantWriteLock => (HasWriteLock, Silent)
    case HasWriteLock => (ReleaseWriteLock, CloseQueue)
    case ReleaseWriteLock => (WaitWorker, Silent)
    case WaitWorker => (if timedOut then LastChance else Closed, Silent)
    case LastChance => (if s.writer == Exited then Closed else WantAccounts, Silent)
    case WantAccounts => (Abandoning, Silent)
    case Abandoning => (Swapping, SetAbandoned)
    case Swapping => (Adding(s.counters.pending), SwapPending)
    case Adding(remaining) => (Released, AddRemaining(remaining))
    case Released => (Timeout, Silent)
    case Timeout => (Closed, Silent)
  }

  function CommitClose(s: State, pc: ClosePc, e: CloseEffect): State {
    s.(closer := pc,
       closedState := s.closedState || e.SetClosedState?,
       admissionStop := s.admissionStop || e.SetAdmissionStop?,
       queueClosed := s.queueClosed || e.CloseQueue?,
       abandoned := s.abandoned || e.SetAbandoned?,
       counters := match e
                   case SwapPending => s.counters.(pending := 0)
                   case AddRemaining(n) => s.counters.(undelivered := s.counters.undelivered + n)
                   case _ => s.counters)
  }

  // ------------------------------------------------------------- the machine

  datatype Step =
    | StartLog(line: string)
    | CancelLog(i: nat)
    | LogStep(i: nat, alt: Alternative)
    | WriterStep(w: WriteStep)
    | CloseStep(timedOut: bool)

  ghost predicate Enabled(s: State, step: Step) {
    match step
    case StartLog(_) => true
    case CancelLog(i) => i < |s.calls|
    case LogStep(i, alt) => i < |s.calls| && CanLog(ViewForLog(s), s.calls[i], alt)
    case WriterStep(w) => CanWriter(s, w)
    case CloseStep(timedOut) => CanClose(s, timedOut)
  }

  ghost function Apply(s: State, step: Step): State
    requires Enabled(s, step)
  {
    match step
    case StartLog(line) => s.(calls := s.calls + [LogCall(line, Enter, false, None)])
    case CancelLog(i) => s.(calls := s.calls[i := s.calls[i].(canceled := true)])
    case LogStep(i, alt) =>
      var (c, e) := NextLog(ViewForLog(s), s.calls[i], alt);
      CommitLog(s, i, c, e)
    case WriterStep(w) =>
      var (pc, e) := NextWriter(s, w);
      CommitWriter(s, pc, e)
    case CloseStep(timedOut) =>
      var (pc, e) := NextClose(s, timedOut);
      CommitClose(s, pc, e)
  }

  /** `states` is a run of a logger with the given capacity. */
  ghost predicate IsRun(capacity: nat, states: seq<State>, steps: seq<Step>) {
    && 0 < capacity < 0x1_0000_0000_0000_0000
    && |states| == |steps| + 1
    && states[0] == Init(capacity)
    && forall i {:trigger steps[i]} :: 0 <= i < |steps| ==>
         Enabled(states[i], steps[i]) && states[i + 1] == Apply(states[i], steps[i])
  }
}
