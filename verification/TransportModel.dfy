/**
 The whole LSP transport as a state machine: callers, notifiers, file openers,
 cancellation senders, server-response writers, the reader loop, `Close` and
 outside aborts, all interleaving.

 One step is one mutex section, one channel operation, one compare-and-swap, one
 context check or one `Write` call on the input. Contexts are flags that only go
 from live to canceled. Actors, write jobs and open transitions are numbered in
 the order of their creation.
 */
module TransportModel {
  import opened Wrappers
  import opened Connection
  import Framing

  type ActorId = nat
  type RequestId = nat
  type File = string

  // ---------------------------------------------------------------- messages

  datatype Kind =
    | Request(id: RequestId)
    | Notification
    | CancelRequest(id: RequestId)
    | MethodNotFound
    | DidOpen(file: File, text: string)
    | Shutdown
    | Exit

  /** One message to be written: what it is and its marshaled JSON. */
  datatype Message = Message(kind: Kind, body: string) {
    function Bytes(): (b: string)
      ensures |b| > 0
    {
      Framing.FrameBytes(body)
    }
  }

  function PolicyOf(kind: Kind): Policy {
    match kind
    case MethodNotFound => ServerResponse
    case Shutdown => ShutdownWrite
    case Exit => ExitWrite
    case _ => External
  }

  // -------------------------------------------------------------- write jobs

  /** The atomic that settles the race between dispatch and abort. */
  datatype Cas = FrameWriting | FrameDispatched | FrameAborted

  /** Where the goroutine of writeFrameLocked is. `Copied`: writeFull has written
      every byte and is about to run its callback. `Reported`: the result was sent. */
  datatype JobPhase = Copying | Copied | Settled | Reported(ok: bool)

  datatype Job = Job(owner: ActorId, message: Message, written: nat, cas: Cas, phase: JobPhase) {
    predicate Complete() {
      written == |message.Bytes()|
    }
  }

  // ------------------------------------------------------------------ actors

  datatype Role =
    | Caller(id: RequestId)
    | Notifier
    | CancelSender(id: RequestId)
    | Responder
    | Opener(file: File)
    | Closer(id: RequestId)
    | Reader
    | Aborter

  /** The error a write returned. `isCtx`: errors.Is relates it to the caller's context error. */
  datatype WriteErr = NoErr | CtxErr | OtherErr(isCtx: bool)

  /** Where an actor is inside writeMessage. From `Held` to `Releasing` it has the gate. */
  datatype Stage =
    | Begin
    | WantGate
    | Held
    | Checked
    | Admitted
    | Framed
    | Writing
    | Awaiting
    | Releasing(dispatched: bool, err: WriteErr)
    | Returned(dispatched: bool, err: WriteErr)

  /** What follows a call of abort. */
  datatype Resume = ToRelease(message: Message, err: WriteErr) | ToInput | ToReap | ToFinish

  datatype Pc =
    | Registering(body: string)
    | Wr(stage: Stage, message: Message)
    | AbortEnter(cause: Cause, next: Resume)
    | AbortInput(next: Resume)
    | Waiting(dispatched: bool)
    | Joining(dispatched: bool, canceled: bool)
    | Concluding(dispatched: bool, canceled: bool)
    | CloseMarshal
    | CloseLock(marshaled: bool)
    | CloseBegin(marshaled: bool)
    | CloseUnlock
    | CloseInputTest
    | CloseInputLock
    | CloseInputNow(gated: bool)
    | CloseInputUnlock
    | CloseReap
    | ReadLoop
    | OpenLoop
    | OpenWait
    | OpenRead
    | OpenFailed(err: WriteErr)
    | OpenPublish(source: Option<string>, retryable: bool)
    | Finished(dispatched: bool, canceled: bool)

  /** How a pending request ended. */
  datatype Outcome =
    | Response(body: string)
    | Broken(cause: Cause)
    | WriteError
    | CallerCanceled(caller: ActorId)

  /** `claimed` are requests this actor removed from the pending table and has
      still to complete, all with `verdict`. `job` is the write job of the current
      writeMessage; `transition` the open transition it owns or waits for. */
  datatype Actor = Actor(
    role: Role,
    pc: Pc,
    canceled: bool,
    totalCanceled: bool,
    claimed: set<RequestId>,
    verdict: Outcome,
    job: Option<nat>,
    transition: nat)

  function NewActor(role: Role, pc: Pc): Actor {
    Actor(role, pc, false, false, {}, WriteError, None, 0)
  }

  /** openTransition; `owner` is the elected opener and `source` is present
      exactly when the transition's error is nil. */
  datatype Transition = Transition(
    file: File,
    owner: ActorId,
    done: bool,
    source: Option<string>,
    retryable: bool)

  // ------------------------------------------------------------ shared state

  datatype State = State(
    conn: Conn,
    gate: Option<ActorId>,
    wire: string,                                  // every byte the input accepted
    jobs: seq<Job>,
    lastId: nat,
    completions: map<RequestId, seq<Outcome>>,     // every completion of a registered request
    actors: seq<Actor>,
    closing: bool,                                 // closeOnce has run
    transitions: seq<Transition>,
    openFiles: map<File, nat>)

  function Init(): State {
    State(Fresh(), None, "", [], 0, map[], [NewActor(Reader, ReadLoop)], false, [], map[])
  }

  predicate IsActor(s: State, a: ActorId) {
    a < |s.actors|
  }

  predicate Completed(s: State, r: RequestId) {
    r in s.completions && s.completions[r] != []
  }

  // ---------------------------------------------------------------- programs

  /** What one atomic step of an actor can read of the shared state. */
  datatype View = View(
    me: ActorId,
    conn: Conn,
    gateFree: bool,
    job: Option<Job>,
    jobCount: nat,
    completed: bool,
    transition: Option<Transition>,
    openAt: Option<nat>,
    transitionCount: nat)

  /** What one atomic step of an actor does to the shared state. */
  datatype Effect =
    | Nothing
    | Acquire
    | Release
    | NewJob(message: Message)
    | SwapAborted                                  // CompareAndSwap(frameWriting, frameAborted)
    | ClaimOne(r: RequestId)
    | Register(r: RequestId)
    | StartClosing(r: RequestId)
    | DrainPending
    | FinishClosing
    | Abort(cause: Cause)
    | ShutInput
    | Complete(r: RequestId, outcome: Outcome)
    | Fork(child: Actor)
    | Elect(file: File)
    | Publish(source: Option<string>, retryable: bool)

  datatype Choice =
    | Pass
    | Fail(err: WriteErr)
    | GiveUp
    | Marshaled(body: string)
    | FileRead(text: string, body: string)
    | Deliver(r: RequestId, body: string)
    | Serve(body: string)
    | Break(cause: Cause)
    | CompleteOne(r: RequestId)

  function RequestOf(role: Role): Option<RequestId> {
    match role
    case Caller(id) => Some(id)
    case Closer(id) => Some(id)
    case _ => None
  }

  predicate HasReported(v: View, ok: bool) {
    v.job.Some? && v.job.value.phase == JobPhase.Reported(ok)
  }

  /** Which alternatives writeMessage has at each stage. */
  predicate CanWrite(x: Actor, v: View, c: Choice)
    requires x.pc.Wr?
  {
    var ctxFailure := c == Fail(CtxErr) && x.canceled;
    var otherFailure := c.Fail? && c.err.OtherErr?;
    match x.pc.stage
    case Begin => (c == Pass && !x.canceled) || ctxFailure || otherFailure
    case WantGate => (c == Pass && v.gateFree) || ctxFailure
    case Held => (c == Pass && !x.canceled) || ctxFailure
    case Checked => if Admits(v.conn, PolicyOf(x.pc.message.kind)) then c == Pass else otherFailure
    case Admitted => (c == Pass && !x.canceled) || ctxFailure
    case Framed => c == Pass
    case Writing =>
      || (c == Pass && HasReported(v, true))
      || (otherFailure && HasReported(v, false))
      || (c == GiveUp && x.canceled && v.job.Some?)
    case Awaiting => (c == Pass && HasReported(v, true)) || (otherFailure && HasReported(v, false))
    case Releasing(_, _) => c == Pass
    case Returned(_, _) => c == Pass
  }

  predicate CanOpen(x: Actor, v: View, c: Choice) {
    match x.pc
    case OpenLoop => (c == Pass && !x.canceled) || (c == GiveUp && x.canceled)
    case OpenWait =>
      || (c == Pass && v.transition.Some? && v.transition.value.done)
      || (c == GiveUp && x.canceled)
    case OpenRead => c.FileRead? || (c.Fail? && (c.err.OtherErr? || (c.err == CtxErr && x.canceled)))
    case OpenFailed(_) => c == Pass
    case OpenPublish(_, _) => c == Pass
    case _ => false
  }

  predicate CanClose(x: Actor, v: View, c: Choice) {
    match x.pc
    case CloseMarshal => (c == Pass && !x.canceled) || (c == GiveUp && x.canceled)
    case CloseLock(_) => (c == Pass && v.gateFree) || (c == GiveUp && x.canceled)
    case CloseBegin(_) => c.Marshaled?
    case CloseInputLock => (c == Pass && v.gateFree) || (c == GiveUp && x.totalCanceled)
    case _ => c == Pass
  }

  predicate CanCall(x: Actor, v: View, c: Choice) {
    && RequestOf(x.role).Some?
    && match x.pc
       case Waiting(_) => (c == Pass && v.completed) || (c == GiveUp && x.canceled)
       case Joining(_, _) => c == Pass && v.completed
       case Concluding(_, _) => c.Marshaled?
       case _ => false
  }

  predicate CanOther(x: Actor, c: Choice) {
    match x.pc
    case Registering(_) => c == Pass && x.role.Caller?
    case AbortEnter(_, _) => c == Pass
    case AbortInput(_) => c == Pass
    case ReadLoop => c.Deliver? || c.Serve? || c.Break?
    case _ => false
  }

  /** Which of the five parts of the programs a program point belongs to. */
  datatype Part = InWrite | InCall | InOpen | InClose | Elsewhere

  function PartOf(pc: Pc): Part {
    match pc
    case Wr(_, _) => InWrite
    case Waiting(_) => InCall
    case Joining(_, _) => InCall
    case Concluding(_, _) => InCall
    case OpenLoop => InOpen
    case OpenWait => InOpen
    case OpenRead => InOpen
    case OpenFailed(_) => InOpen
    case OpenPublish(_, _) => InOpen
    case Registering(_) => Elsewhere
    case AbortEnter(_, _) => Elsewhere
    case AbortInput(_) => Elsewhere
    case ReadLoop => Elsewhere
    case Finished(_, _) => Elsewhere
    case _ => InClose
  }

  /** The actor may take alternative `c` now. Claimed requests are completed first. */
  predicate Can(x: Actor, v: View, c: Choice) {
    if x.claimed != {} then c.CompleteOne? && c.r in x.claimed
    else match PartOf(x.pc)
         case InWrite => CanWrite(x, v, c)
         case InCall => CanCall(x, v, c)
         case InOpen => x.role.Opener? && CanOpen(x, v, c)
         case InClose => x.role.Closer? && CanClose(x, v, c)
         case Elsewhere => CanOther(x, c)
  }

  /** writeMessage, writeAdmittedFrameLocked and writeFrameLocked up to their return. */
  function NextWrite(x: Actor, v: View, c: Choice): (Actor, Effect)
    requires x.pc.Wr? && CanWrite(x, v, c)
  {
    var m := x.pc.message;
    match x.pc.stage
    case Begin =>
      (x.(job := None, pc := Wr(if c == Pass then WantGate else Returned(false, c.err), m)), Nothing)
    case WantGate =>
      if c == Pass then (x.(pc := Wr(Held, m)), Acquire)
      else (x.(pc := Wr(Returned(false, c.err), m)), Nothing)
    case Held => (x.(pc := Wr(if c == Pass then Checked else Releasing(false, c.err), m)), Nothing)
    case Checked => (x.(pc := Wr(if c == Pass then Admitted else Releasing(false, c.err), m)), Nothing)
    case Admitted => (x.(pc := Wr(if c == Pass then Framed else Releasing(false, c.err), m)), Nothing)
    case Framed => (x.(pc := Wr(Writing, m), job := Some(v.jobCount)), NewJob(m))
    case Writing =>
      var job := v.job.value;
      if c == Pass then
        if job.cas == FrameDispatched then (x.(pc := Wr(Releasing(true, NoErr), m)), Nothing)
        else (x.(pc := Wr(Releasing(false, if x.canceled then CtxErr else NoErr), m)), Nothing)
      else if c.Fail? then
        (x.(pc := AbortEnter(WriteFailed(job.written), ToRelease(m, c.err))), SwapAborted)
      else if job.cas == FrameWriting then
        (x.(pc := AbortEnter(ContextDone, ToRelease(m, CtxErr))), SwapAborted)
      else (x.(pc := Wr(Awaiting, m)), Nothing)
    case Awaiting =>
      if c == Pass then (x.(pc := Wr(Releasing(true, NoErr), m)), Nothing)
      else (x.(pc := AbortEnter(WriteFailed(v.job.value.written), ToRelease(m, c.err))), Nothing)
    case Releasing(d, e) => (x.(pc := Wr(Returned(d, e), m)), Release)
    case Returned(_, _) => NextReturned(x, v)
  }

  /** Claims `r` for `x` when it is pending, as complete does. */
  function TryClaim(x: Actor, v: View, r: RequestId, outcome: Outcome): (Actor, Effect) {
    if r in v.conn.pending then (x.(claimed := {r}, verdict := outcome), ClaimOne(r)) else (x, Nothing)
  }

  function DrainedBy(x: Actor, v: View, outcome: Outcome, pc: Pc): Actor {
    x.(claimed := v.conn.pending, verdict := outcome, pc := pc)
  }

  /** What the caller of writeMessage does with its result. */
  function NextReturned(x: Actor, v: View): (Actor, Effect)
    requires x.pc.Wr? && x.pc.stage.Returned?
  {
    var d, e := x.pc.stage.dispatched, x.pc.stage.err;
    match x.role
    case Caller(id) =>
      if e == NoErr then (x.(pc := Waiting(d)), Nothing)
      else TryClaim(x.(pc := Waiting(d)), v, id, WriteError)
    case Closer(id) =>
      if x.pc.message.kind == Exit then (x.(pc := CloseInputTest), Nothing)
      else if e == NoErr then (x.(pc := Waiting(d)), Nothing)
      else TryClaim(x.(pc := Waiting(d)), v, id, WriteError)
    case Opener(_) =>
      if e == NoErr && x.pc.message.kind.DidOpen? then
        (x.(pc := OpenPublish(Some(x.pc.message.kind.text), false)), Nothing)
      else (x.(pc := OpenFailed(e)), Nothing)
    case _ => (x.(pc := Finished(d, false)), Nothing)
  }

  function AfterAbort(next: Resume): Pc {
    match next
    case ToRelease(m, e) => Wr(Releasing(false, e), m)
    case ToInput => CloseInputTest
    case ToReap => CloseReap
    case ToFinish => Finished(false, false)
  }

  /** errors.Is(err, ctx.Err()) for the opener's own context. */
  predicate IsCtxError(x: Actor, e: WriteErr) {
    x.canceled && (e == CtxErr || (e.OtherErr? && e.isCtx))
  }

  /** ensureOpen and openFile. */
  function NextOpen(x: Actor, v: View, c: Choice): (Actor, Effect)
    requires x.role.Opener? && CanOpen(x, v, c)
  {
    match x.pc
    case OpenLoop =>
      if c == GiveUp then (x.(pc := Finished(false, true)), Nothing)
      else if v.openAt.Some? then (x.(pc := OpenWait, transition := v.openAt.value), Nothing)
      else (x.(pc := OpenRead, transition := v.transitionCount), Elect(x.role.file))
    case OpenWait =>
      if c == GiveUp then (x.(pc := Finished(false, true)), Nothing)
      else if v.transition.value.retryable then (x.(pc := OpenLoop), Nothing)
      else (x.(pc := Finished(v.transition.value.source.Some?, false)), Nothing)
    case OpenRead =>
      if c.FileRead? then (x.(pc := Wr(Begin, Message(DidOpen(x.role.file, c.text), c.body))), Nothing)
      else (x.(pc := OpenFailed(c.err)), Nothing)
    case OpenFailed(e) =>
      (x.(pc := OpenPublish(None, IsCtxError(x, e) && v.conn.phase == Open)), Nothing)
    case OpenPublish(source, retryable) =>
      (x.(pc := Finished(source.Some?, false)), Publish(source, retryable))
  }

  /** close, apart from the writes and waits it shares with calls. */
  function NextClose(x: Actor, v: View, c: Choice): (Actor, Effect)
    requires PartOf(x.pc) == InClose && x.role.Closer? && CanClose(x, v, c)
  {
    match x.pc
    case CloseMarshal => (x.(pc := CloseLock(c == Pass)), Nothing)
    case CloseLock(ok) =>
      if c == Pass then (x.(pc := CloseBegin(ok)), Acquire)
      else (x.(pc := AbortEnter(ContextDone, ToInput)), Nothing)
    case CloseBegin(ok) =>
      if v.conn.phase != Open then (x.(pc := CloseUnlock), Nothing)
      else
        (DrainedBy(x, v, Broken(ProviderClosed),
                   Wr(if ok then Held else Releasing(false, CtxErr), Message(Shutdown, c.body))),
         StartClosing(x.role.id))
    case CloseUnlock => (x.(pc := CloseInputTest), Release)
    case CloseInputTest =>
      (x.(pc := if v.conn.phase == Closing && !v.conn.inputClosed then CloseInputLock
                else CloseInputNow(false)), Nothing)
    case CloseInputLock =>
      if c == Pass then (x.(pc := CloseInputNow(true)), Acquire)
      else (x.(pc := AbortEnter(ContextDone, ToReap)), Nothing)
    case CloseInputNow(gated) =>
      (x.(pc := if gated then CloseInputUnlock else CloseReap), ShutInput)
    case CloseInputUnlock => (x.(pc := CloseReap), Release)
    case CloseReap =>
      if v.conn.phase != Closing then (x.(pc := Finished(false, false)), Nothing)
      else (DrainedBy(x, v, Broken(ProviderClosed), Finished(false, false)), FinishClosing)
  }

  /** call after the request was written, and waitPending. */
  function NextCall(x: Actor, v: View, c: Choice): (Actor, Effect)
    requires CanCall(x, v, c)
  {
    var id := RequestOf(x.role).value;
    match x.pc
    case Waiting(d) =>
      if c == Pass then (x.(pc := Concluding(d, false)), Nothing)
      else TryClaim(x.(pc := Joining(d, id in v.conn.pending)), v, id, CallerCanceled(v.me))
    case Joining(d, canceled) => (x.(pc := Concluding(d, canceled)), Nothing)
    case Concluding(d, canceled) =>
      if x.role.Closer? then (x.(pc := Wr(Begin, Message(Exit, c.body))), Nothing)
      else if d && canceled then
        (x.(pc := Finished(d, canceled)),
         Fork(NewActor(CancelSender(id), Wr(Begin, Message(CancelRequest(id), c.body)))))
      else (x.(pc := Finished(d, canceled)), Nothing)
  }

  /** register, abort and readLoop. */
  function NextOther(x: Actor, v: View, c: Choice): (Actor, Effect)
    requires CanOther(x, c)
  {
    match x.pc
    case Registering(body) =>
      if v.conn.phase != Open then (x.(pc := Finished(false, false)), Nothing)
      else (x.(pc := Wr(Begin, Message(Request(x.role.id), body))), Register(x.role.id))
    case AbortEnter(cause, next) =>
      if v.conn.phase == Closed || v.conn.phase == Aborted then (x.(pc := AfterAbort(next)), Nothing)
      else (DrainedBy(x, v, Broken(cause), AbortInput(next)), Abort(cause))
    case AbortInput(next) => (x.(pc := AfterAbort(next)), ShutInput)
    case ReadLoop =>
      if c.Deliver? then TryClaim(x, v, c.r, Response(c.body))
      else if c.Serve? then
        (x, Fork(NewActor(Responder, Wr(Begin, Message(MethodNotFound, c.body)))))
      else if v.conn.phase == Closing then
        (DrainedBy(x, v, Broken(c.cause), Finished(false, false)), DrainPending)
      else (x.(pc := AbortEnter(c.cause, ToFinish)), Nothing)
  }

  /** One atomic step of an actor's program: its new local state and its effect. */
  function Next(x: Actor, v: View, c: Choice): (Actor, Effect)
    requires Can(x, v, c)
  {
    if x.claimed != {} then (x.(claimed := x.claimed - {c.r}), Complete(c.r, x.verdict))
    else match PartOf(x.pc)
         case InWrite => NextWrite(x, v, c)
         case InCall => NextCall(x, v, c)
         case InOpen => NextOpen(x, v, c)
         case InClose => NextClose(x, v, c)
         case Elsewhere => NextOther(x, v, c)
  }

  // ------------------------------------------------------------- the machine

  function ViewOf(s: State, a: ActorId): View
    requires IsActor(s, a)
  {
    var x := s.actors[a];
    View(
      a,
      s.conn,
      s.gate == None,
      if x.job.Some? && x.job.value < |s.jobs| then Some(s.jobs[x.job.value]) else None,
      |s.jobs|,
      RequestOf(x.role).Some? && Completed(s, RequestOf(x.role).value),
      if x.transition < |s.transitions| then Some(s.transitions[x.transition]) else None,
      if x.role.Opener? && x.role.file in s.openFiles then Some(s.openFiles[x.role.file]) else None,
      |s.transitions|)
  }

  /** CompareAndSwap(frameWriting, to). */
  function Swap(job: Job, to: Cas): Job {
    if job.cas == FrameWriting then job.(cas := to) else job
  }

  /** What an effect does to the guarded connection state. */
  function ConnAfter(c: Conn, e: Effect): Conn {
    match e
    case ClaimOne(r) => Claimed(c, r)
    case Register(r) => if c.phase == Open then Registered(c, r) else c
    case StartClosing(r) => if c.phase == Open then ClosingStarted(c, r) else c
    case DrainPending => c.(pending := {})
    case FinishClosing => CloseFinished(c)
    case Abort(cause) => AbortedBy(c, cause)
    case ShutInput => InputClosed(c)
    case _ => c
  }

  /** What an effect of actor `a`, now `x`, does to the write jobs. */
  function JobsAfter(jobs: seq<Job>, a: ActorId, x: Actor, e: Effect): seq<Job> {
    match e
    case NewJob(m) => jobs + [Job(a, m, 0, FrameWriting, Copying)]
    case SwapAborted =>
      if x.job.Some? && x.job.value < |jobs| then
        jobs[x.job.value := Swap(jobs[x.job.value], FrameAborted)]
      else jobs
    case _ => jobs
  }

  function CompletionsAfter(done: map<RequestId, seq<Outcome>>, e: Effect): map<RequestId, seq<Outcome>> {
    match e
    case Register(r) => done[r := []]
    case StartClosing(r) => done[r := []]
    case Complete(r, outcome) => if r in done then done[r := done[r] + [outcome]] else done
    case _ => done
  }

  function TransitionsAfter(ts: seq<Transition>, a: ActorId, x: Actor, e: Effect): seq<Transition> {
    match e
    case Elect(file) => ts + [Transition(file, a, false, None, false)]
    case Publish(source, retryable) =>
      if x.transition < |ts| then
        ts[x.transition := ts[x.transition].(done := true, source := source, retryable := retryable)]
      else ts
    case _ => ts
  }

  function OpenFilesAfter(s: State, x: Actor, e: Effect): map<File, nat> {
    match e
    case Elect(file) => s.openFiles[file := |s.transitions|]
    case Publish(source, _) =>
      if source == None && x.role.Opener? then s.openFiles - {x.role.file} else s.openFiles
    case _ => s.openFiles
  }

  /** The shared state after actor `a` became `x` and had effect `e`. */
  function Commit(s: State, a: ActorId, x: Actor, e: Effect): State
    requires IsActor(s, a)
  {
    s.(conn := ConnAfter(s.conn, e),
       gate := if e.Acquire? then Some(a) else if e.Release? then None else s.gate,
       jobs := JobsAfter(s.jobs, a, x, e),
       completions := CompletionsAfter(s.completions, e),
       actors := s.actors[a := x] + (if e.Fork? then [e.child] else []),
       transitions := TransitionsAfter(s.transitions, a, x, e),
       openFiles := OpenFilesAfter(s, x, e))
  }

  datatype Step =
    // the environment starts work or cancels a context
    | StartCall(body: string)
    | StartNotify(body: string)
    | StartOpen(file: File)
    | StartClose
    | StartAbort(cause: Cause)
    | Cancel(a: ActorId, total: bool)
    // an actor takes one step of its program
    | Act(a: ActorId, choice: Choice)
    // the goroutine of a write job: one Write call, the completion callback, the result
    | JobWrite(j: nat, n: nat, failed: bool)
    | JobSettle(j: nat)
    | JobReport(j: nat)

  /** The actor a starting step creates. */
  function Started(s: State, step: Step): Actor
    requires step.StartCall? || step.StartNotify? || step.StartOpen? || step.StartClose? || step.StartAbort?
  {
    match step
    case StartCall(body) => NewActor(Caller(s.lastId + 1), Registering(body))
    case StartNotify(body) => NewActor(Notifier, Wr(Begin, Message(Notification, body)))
    case StartOpen(file) => NewActor(Opener(file), OpenLoop)
    case StartClose => NewActor(Closer(s.lastId + 1), CloseMarshal)
    case StartAbort(cause) => NewActor(Aborter, AbortEnter(cause, ToFinish))
  }

  predicate Starting(step: Step) {
    step.StartCall? || step.StartNotify? || step.StartOpen? || step.StartClose? || step.StartAbort?
  }

  /** One Write call accepted `n` bytes; on an error, or without progress, writeFull gives up. */
  function AfterWrite(job: Job, n: nat, failed: bool): Job {
    var w := job.written + n;
    job.(written := w,
         phase := if failed || n == 0 then JobPhase.Reported(false)
                  else if w == |job.message.Bytes()| then Copied else Copying)
  }

  predicate Enabled(s: State, step: Step) {
    match step
    case StartClose => !s.closing
    case Cancel(a, _) => IsActor(s, a)
    case Act(a, c) => IsActor(s, a) && Can(s.actors[a], ViewOf(s, a), c)
    case JobWrite(j, n, _) =>
      j < |s.jobs| && s.jobs[j].phase == Copying && s.jobs[j].written + n <= |s.jobs[j].message.Bytes()|
    case JobSettle(j) => j < |s.jobs| && s.jobs[j].phase == Copied
    case JobReport(j) => j < |s.jobs| && s.jobs[j].phase == Settled
    case _ => true
  }

  function Apply(s: State, step: Step): State
    requires Enabled(s, step)
  {
    match step
    case Cancel(a, total) =>
      var x := s.actors[a];
      s.(actors := s.actors[a := x.(canceled := true, totalCanceled := x.totalCanceled || total)])
    case Act(a, c) =>
      var (x, e) := Next(s.actors[a], ViewOf(s, a), c);
      Commit(s, a, x, e)
    case JobWrite(j, n, failed) =>
      var job := s.jobs[j];
      s.(wire := s.wire + job.message.Bytes()[job.written..job.written + n],
         jobs := s.jobs[j := AfterWrite(job, n, failed)])
    case JobSettle(j) => s.(jobs := s.jobs[j := Swap(s.jobs[j], FrameDispatched).(phase := Settled)])
    case JobReport(j) => s.(jobs := s.jobs[j := s.jobs[j].(phase := JobPhase.Reported(true))])
    case _ =>
      s.(actors := s.actors + [Started(s, step)],
         lastId := if step.StartCall? || step.StartClose? then s.lastId + 1 else s.lastId,
         closing := s.closing || step.StartClose?)
  }

  /** `states` is a run from the initial state that takes `steps` in order. */
  ghost predicate IsRun(states: seq<State>, steps: seq<Step>) {
    && |states| == |steps| + 1
    && states[0] == Init()
    && forall i {:trigger steps[i]} :: 0 <= i < |steps| ==>
         Enabled(states[i], steps[i]) && states[i + 1] == Apply(states[i], steps[i])
  }
}
