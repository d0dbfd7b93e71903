/**
 The bytes on the wire. At most one write job is unfinished at any time, so the
 input always holds whole frames in the order their writers were admitted,
 followed by at most one frame that is still being written or was cut short.
 */
module TransportWire {
  import opened Wrappers
  import opened Connection
  import opened TransportModel
  import opened TransportGate
  import Framing

  // -------------------------------------------------------------- invariants

  /** What the goroutine's phase says about the bytes written and the CAS. */
  predicate JobOk(job: Job) {
    && job.written <= |job.message.Bytes()|
    && match job.phase
       case Copying => !job.Complete() && job.cas != FrameDispatched
       case Copied => job.Complete() && job.cas != FrameDispatched
       case Settled => job.Complete() && job.cas != FrameWriting
       case Reported(ok) => if ok then job.Complete() && job.cas != FrameWriting else job.cas != FrameDispatched
  }

  predicate Owns(me: ActorId, m: Message, job: Option<Job>) {
    job.Some? && job.value.owner == me && job.value.message == m
  }

  /** The actor's job wrote the whole frame and won the CAS. */
  predicate Sent(me: ActorId, job: Option<Job>) {
    job.Some? && job.value.owner == me && job.value.cas == FrameDispatched && job.value.Complete()
  }

  predicate Dispatched(me: ActorId, m: Message, job: Option<Job>) {
    Sent(me, job) && job.value.message == m
  }

  /** What a stage of writeMessage says about the actor's own job and the connection.
      `idle` means that every write job has written its whole frame. */
  predicate StageOk(stage: Stage, m: Message, x: Actor, me: ActorId, c: Conn, job: Option<Job>, idle: bool) {
    match stage
    case Begin => true
    case WantGate => x.job == None
    case Held => x.job == None
    case Checked => x.job == None
    case Admitted => x.job == None && idle
    case Framed => x.job == None && idle
    case Writing => Owns(me, m, job) && job.value.cas != FrameAborted
    case Awaiting => Dispatched(me, m, job)
    case Releasing(d, e) =>
      if d then e == NoErr && Dispatched(me, m, job)
      else e != NoErr && (x.job == None || c.phase == Aborted)
    case Returned(d, e) =>
      if d then e == NoErr && Dispatched(me, m, job)
      else e != NoErr && (x.job == None || c.phase == Aborted)
  }

  /** What `dispatched` still means after the write returned. */
  predicate StillSent(d: bool, x: Actor, me: ActorId, job: Option<Job>) {
    && (d && x.role.Caller? ==> Sent(me, job) && job.value.message.kind == Request(x.role.id))
    && (d && x.role.Closer? ==> Sent(me, job) && job.value.message.kind == Shutdown)
  }

  predicate WriterOk(x: Actor, me: ActorId, c: Conn, job: Option<Job>, idle: bool) {
    match x.pc
    case Wr(stage, m) => StageOk(stage, m, x, me, c, job, idle)
    case AbortEnter(_, next) => next.ToRelease? ==> Owns(me, next.message, job) && next.err != NoErr
    case AbortInput(next) => next.ToRelease? ==> c.phase == Aborted && next.err != NoErr
    case Waiting(d) => StillSent(d, x, me, job)
    case Joining(d, _) => StillSent(d, x, me, job)
    case Concluding(d, _) => StillSent(d, x, me, job)
    case Finished(d, _) => x.role.Caller? ==> StillSent(d, x, me, job)
    case CloseMarshal => x.job == None
    case CloseLock(_) => x.job == None
    case CloseBegin(_) => x.job == None
    case _ => true
  }

  /** Past admission and not yet back: the points at which a frame may be on its way. */
  predicate PastAdmission(pc: Pc) {
    match pc
    case Wr(stage, _) => stage.Admitted? || stage.Framed? || stage.Writing? || stage.Awaiting?
    case AbortEnter(_, next) => next.ToRelease?
    case _ => false
  }

  /** How far the closer is decides the phase. */
  predicate CloserOk(pc: Pc, c: Conn) {
    match pc
    case CloseMarshal => (c.phase == Open && !c.inputClosed) || c.phase == Aborted
    case CloseLock(_) => (c.phase == Open && !c.inputClosed) || c.phase == Aborted
    case CloseBegin(_) => (c.phase == Open && !c.inputClosed) || c.phase == Aborted
    case CloseUnlock => c.phase == Aborted
    case CloseInputNow(gated) => (gated && c.phase == Closing && !c.inputClosed) || c.phase == Aborted
    case CloseInputUnlock => (c.phase == Closing && c.inputClosed) || c.phase == Aborted
    case CloseReap => (c.phase == Closing && c.inputClosed) || c.phase == Aborted
    case AbortEnter(_, next) =>
      if next.ToInput? then (c.phase == Open && !c.inputClosed) || c.phase == Aborted
      else (c.phase == Closing && !c.inputClosed) || c.phase == Aborted
    case AbortInput(_) => c.phase == Aborted
    case Finished(_, _) => (c.phase == Closed && c.inputClosed) || c.phase == Aborted
    case _ => (c.phase == Closing && !c.inputClosed) || c.phase == Aborted
  }

  predicate LocalOk(x: Actor, me: ActorId, c: Conn, job: Option<Job>, idle: bool) {
    && WriterOk(x, me, c, job, idle)
    && (x.role.Closer? ==> CloserOk(x.pc, c))
    && (x.pc.AbortInput? ==> c.phase == Aborted)
    && (PastAdmission(x.pc) ==> !c.inputClosed || c.phase == Aborted)
  }

  predicate ConnOk(c: Conn) {
    && (c.phase == Open ==> !c.inputClosed)
    && (c.phase == Closed ==> c.inputClosed)
  }

  // ------------------------------------------------------- one program step

  /** The actor's own job after its step. */
  function OwnJob(v: View, y: Actor, e: Effect): Option<Job> {
    match e
    case NewJob(m) => Some(Job(v.me, m, 0, FrameWriting, Copying))
    case SwapAborted => if v.job.Some? then Some(Swap(v.job.value, FrameAborted)) else None
    case _ => if y.job == None then None else v.job
  }

  /** Only the closer changes the phase other than to Aborted, and it needs the
      gate to close the input of a connection that is not aborted. */
  predicate ConnMoves(c: Conn, d: Conn, x: Actor) {
    if c.phase == Aborted then d.phase == Aborted
    else
      || d.phase == Aborted
      || (d.phase == c.phase && d.inputClosed == c.inputClosed)
      || (x.role.Closer? && d.phase != Open && (d.inputClosed == c.inputClosed || Holds(x.pc)))
  }

  /** The invariant of the stepping actor holds after the step, and what the step
      did to the connection and to the jobs came from the right program point. */
  predicate LocalKept(x: Actor, v: View, idle: bool, ye: (Actor, Effect)) {
    var (y, e) := ye;
    && LocalOk(y, v.me, ConnAfter(v.conn, e), OwnJob(v, y, e), idle)
    && ConnOk(ConnAfter(v.conn, e))
    && (e.NewJob? ==> idle && y.job == Some(v.jobCount) && y.pc == Wr(Writing, e.message))
    && (e.SwapAborted? ==> y.job == x.job && y.pc.AbortEnter? && y.pc.next.ToRelease?)
    && (!e.NewJob? && y.job != x.job ==> y.job == None && !Holds(x.pc))
    && (x.pc.Wr? && x.pc.stage.Writing? && v.job.Some? && !v.job.value.Complete() ==>
          y.job == x.job && (y.pc == x.pc || (y.pc.AbortEnter? && y.pc.next.ToRelease?)))
    && (x.pc.AbortEnter? && x.pc.next.ToRelease? ==> y.pc == x.pc || ConnAfter(v.conn, e).phase == Aborted)
    && ConnMoves(v.conn, ConnAfter(v.conn, e), x)
    && (e.Fork? ==> e.child.job == None && e.child.pc.Wr? && e.child.pc.stage == Begin)
  }

  /** What a step may assume of the actor and of what it sees. */
  predicate LocalPre(x: Actor, v: View, idle: bool) {
    && PcOk(x.role, x.pc)
    && ConnOk(v.conn)
    && LocalOk(x, v.me, v.conn, v.job, idle)
    && (v.job.Some? ==> JobOk(v.job.value))
    && (x.job == None ==> v.job == None)
    && (x.pc.Wr? && x.pc.stage == Checked && v.conn.phase != Aborted ==> idle)
  }

  predicate Early(stage: Stage) {
    stage.Begin? || stage.WantGate? || stage.Held? || stage.Checked?
  }

  predicate Middle(stage: Stage) {
    stage.Admitted? || stage.Framed? || stage.Writing?
  }

  lemma LocalByEarlyWrite(x: Actor, v: View, c: Choice, idle: bool)
    requires LocalPre(x, v, idle) && x.pc.Wr? && CanWrite(x, v, c) && Early(x.pc.stage)
    ensures LocalKept(x, v, idle, NextWrite(x, v, c))
  {
    hide Framing.FrameBytes;
  }

  lemma LocalByMiddleWrite(x: Actor, v: View, c: Choice, idle: bool)
    requires LocalPre(x, v, idle) && x.pc.Wr? && CanWrite(x, v, c) && Middle(x.pc.stage)
    ensures LocalKept(x, v, idle, NextWrite(x, v, c))
  {
    hide Framing.FrameBytes;
  }

  lemma LocalByCloserReturned(x: Actor, v: View, c: Choice, idle: bool)
    requires LocalPre(x, v, idle) && x.pc.Wr? && CanWrite(x, v, c) && !Early(x.pc.stage) && !Middle(x.pc.stage)
    requires x.pc.stage.Returned?
    requires x.role.Closer?
    ensures LocalKept(x, v, idle, NextWrite(x, v, c))
  {
    hide Framing.FrameBytes;
  }

  lemma LocalByWriterReturned(x: Actor, v: View, c: Choice, idle: bool)
    requires LocalPre(x, v, idle) && x.pc.Wr? && CanWrite(x, v, c) && !Early(x.pc.stage) && !Middle(x.pc.stage)
    requires x.pc.stage.Returned?
    requires !x.role.Closer?
    ensures LocalKept(x, v, idle, NextWrite(x, v, c))
  {
    hide Framing.FrameBytes;
  }

  lemma LocalByReturned(x: Actor, v: View, c: Choice, idle: bool)
    requires LocalPre(x, v, idle) && x.pc.Wr? && CanWrite(x, v, c) && !Early(x.pc.stage) && !Middle(x.pc.stage)
    requires x.pc.stage.Returned?
    ensures LocalKept(x, v, idle, NextWrite(x, v, c))
  {
    hide LocalPre, LocalKept, CanWrite, NextWrite;
    if x.role.Closer? {
      LocalByCloserReturned(x, v, c, idle);
    } else {
      LocalByWriterReturned(x, v, c, idle);
    }
  }

  lemma LocalByRelease(x: Actor, v: View, c: Choice, idle: bool)
    requires LocalPre(x, v, idle) && x.pc.Wr? && CanWrite(x, v, c) && !Early(x.pc.stage) && !Middle(x.pc.stage)
    requires !x.pc.stage.Returned?
    ensures LocalKept(x, v, idle, NextWrite(x, v, c))
  {
    hide Framing.FrameBytes;
  }

  lemma LocalByLateWrite(x: Actor, v: View, c: Choice, idle: bool)
    requires LocalPre(x, v, idle) && x.pc.Wr? && CanWrite(x, v, c) && !Early(x.pc.stage) && !Middle(x.pc.stage)
    ensures LocalKept(x, v, idle, NextWrite(x, v, c))
  {
    hide LocalPre, LocalKept, CanWrite, NextWrite;
    if x.pc.stage.Returned? {
      LocalByReturned(x, v, c, idle);
    } else {
      LocalByRelease(x, v, c, idle);
    }
  }

  lemma LocalByCall(x: Actor, v: View, c: Choice, idle: bool)
    requires LocalPre(x, v, idle) && CanCall(x, v, c)
    ensures LocalKept(x, v, idle, NextCall(x, v, c))
  {
    hide Framing.FrameBytes;
  }

  lemma LocalByElection(x: Actor, v: View, c: Choice, idle: bool)
    requires LocalPre(x, v, idle) && x.role.Opener? && CanOpen(x, v, c)
    requires x.pc.OpenLoop? || x.pc.OpenWait?
    ensures LocalKept(x, v, idle, NextOpen(x, v, c))
  {
    hide Framing.FrameBytes;
  }

  lemma LocalByOpening(x: Actor, v: View, c: Choice, idle: bool)
    requires LocalPre(x, v, idle) && x.role.Opener? && CanOpen(x, v, c)
    requires !(x.pc.OpenLoop? || x.pc.OpenWait?)
    ensures LocalKept(x, v, idle, NextOpen(x, v, c))
  {
    hide Framing.FrameBytes;
  }

  lemma LocalByOpen(x: Actor, v: View, c: Choice, idle: bool)
    requires LocalPre(x, v, idle) && x.role.Opener? && CanOpen(x, v, c)
    ensures LocalKept(x, v, idle, NextOpen(x, v, c))
  {
    hide LocalPre, LocalKept, CanOpen, NextOpen;
    if x.pc.OpenLoop? || x.pc.OpenWait? {
      LocalByElection(x, v, c, idle);
    } else {
      LocalByOpening(x, v, c, idle);
    }
  }

  predicate EarlyClose(pc: Pc) {
    pc.CloseMarshal? || pc.CloseLock? || pc.CloseBegin?
  }

  predicate MiddleClose(pc: Pc) {
    pc.CloseUnlock? || pc.CloseInputTest? || pc.CloseInputLock?
  }

  lemma LocalByEarlyClose(x: Actor, v: View, c: Choice, idle: bool)
    requires LocalPre(x, v, idle) && PartOf(x.pc) == InClose && x.role.Closer? && CanClose(x, v, c) && EarlyClose(x.pc)
    ensures LocalKept(x, v, idle, NextClose(x, v, c))
  {
    hide Framing.FrameBytes;
  }

  lemma LocalByMiddleClose(x: Actor, v: View, c: Choice, idle: bool)
    requires LocalPre(x, v, idle) && PartOf(x.pc) == InClose && x.role.Closer? && CanClose(x, v, c) && MiddleClose(x.pc)
    ensures LocalKept(x, v, idle, NextClose(x, v, c))
  {
    hide Framing.FrameBytes;
  }

  lemma LocalByReap(x: Actor, v: View, c: Choice, idle: bool)
    requires LocalPre(x, v, idle) && PartOf(x.pc) == InClose && x.role.Closer? && CanClose(x, v, c) &&
             !EarlyClose(x.pc) && !MiddleClose(x.pc)
    requires x.pc.CloseReap?
    ensures LocalKept(x, v, idle, NextClose(x, v, c))
  {
    hide Framing.FrameBytes;
  }

  lemma LocalByInput(x: Actor, v: View, c: Choice, idle: bool)
    requires LocalPre(x, v, idle) && PartOf(x.pc) == InClose && x.role.Closer? && CanClose(x, v, c) &&
             !EarlyClose(x.pc) && !MiddleClose(x.pc)
    requires !x.pc.CloseReap?
    ensures LocalKept(x, v, idle, NextClose(x, v, c))
  {
    hide Framing.FrameBytes;
  }

  lemma LocalByLateClose(x: Actor, v: View, c: Choice, idle: bool)
    requires LocalPre(x, v, idle) && PartOf(x.pc) == InClose && x.role.Closer? && CanClose(x, v, c) &&
             !EarlyClose(x.pc) && !MiddleClose(x.pc)
    ensures LocalKept(x, v, idle, NextClose(x, v, c))
  {
    hide LocalPre, LocalKept, CanClose, NextClose;
    if x.pc.CloseReap? {
      LocalByReap(x, v, c, idle);
    } else {
      LocalByInput(x, v, c, idle);
    }
  }

  lemma LocalByReader(x: Actor, v: View, c: Choice, idle: bool)
    requires LocalPre(x, v, idle) && CanOther(x, c)
    requires x.pc.ReadLoop? || x.pc.Registering?
    ensures LocalKept(x, v, idle, NextOther(x, v, c))
  {
    hide Framing.FrameBytes;
  }

  lemma LocalByAbort(x: Actor, v: View, c: Choice, idle: bool)
    requires LocalPre(x, v, idle) && CanOther(x, c)
    requires !(x.pc.ReadLoop? || x.pc.Registering?)
    ensures LocalKept(x, v, idle, NextOther(x, v, c))
  {
    hide Framing.FrameBytes;
  }

  lemma LocalByOther(x: Actor, v: View, c: Choice, idle: bool)
    requires LocalPre(x, v, idle) && CanOther(x, c)
    ensures LocalKept(x, v, idle, NextOther(x, v, c))
  {
    hide LocalPre, LocalKept, CanOther, NextOther;
    if x.pc.ReadLoop? || x.pc.Registering? {
      LocalByReader(x, v, c, idle);
    } else {
      LocalByAbort(x, v, c, idle);
    }
  }

  lemma LocalByNext(x: Actor, v: View, c: Choice, idle: bool)
    requires LocalPre(x, v, idle) && Can(x, v, c)
    ensures LocalKept(x, v, idle, Next(x, v, c))
  {
    hide Framing.FrameBytes;
    hide NextWrite, NextOpen, NextClose, NextCall, NextOther, CanWrite, CanOpen, CanClose, CanCall, CanOther;
    if x.claimed == {} {
      hide LocalPre, LocalKept;
      match PartOf(x.pc)
      case InWrite =>
        if Early(x.pc.stage) {
          LocalByEarlyWrite(x, v, c, idle);
        } else if Middle(x.pc.stage) {
          LocalByMiddleWrite(x, v, c, idle);
        } else {
          LocalByLateWrite(x, v, c, idle);
        }
      case InCall => LocalByCall(x, v, c, idle);
      case InOpen => LocalByOpen(x, v, c, idle);
      case InClose =>
        if EarlyClose(x.pc) {
          LocalByEarlyClose(x, v, c, idle);
        } else if MiddleClose(x.pc) {
          LocalByMiddleClose(x, v, c, idle);
        } else {
          LocalByLateClose(x, v, c, idle);
        }
      case Elsewhere => LocalByOther(x, v, c, idle);
    }
  }

  // ------------------------------------------------------------- whole states

  function JobAt(jobs: seq<Job>, j: Option<nat>): Option<Job> {
    if j.Some? && j.value < |jobs| then Some(jobs[j.value]) else None
  }

  /** Every job has written its whole frame. */
  ghost predicate Idle(jobs: seq<Job>) {
    forall j :: 0 <= j < |jobs| ==> jobs[j].Complete()
  }

  /** The frames in the order of their jobs, each as far as it was written. */
  function BytesOf(jobs: seq<Job>): string {
    if jobs == [] then ""
    else BytesOf(jobs[..|jobs| - 1]) + Prefix(jobs[|jobs| - 1])
  }

  function Prefix(job: Job): string {
    if job.written <= |job.message.Bytes()| then job.message.Bytes()[..job.written] else ""
  }

  /** The owner of an unfinished job is still inside writeFrameLocked with it. */
  predicate Busy(s: State, j: nat)
    requires j < |s.jobs|
  {
    var o := s.jobs[j].owner;
    && o < |s.actors| && s.actors[o].job == Some(j)
    && match s.actors[o].pc
       case Wr(stage, _) => stage.Writing?
       case AbortEnter(_, next) => next.ToRelease?
       case _ => false
  }

  ghost predicate JobsOk(s: State) {
    && (forall j :: 0 <= j < |s.jobs| ==> JobOk(s.jobs[j]))
    && (forall j :: 0 <= j < |s.jobs| - 1 ==> s.jobs[j].Complete())
    && (forall j :: 0 <= j < |s.jobs| && !s.jobs[j].Complete() ==> s.conn.phase == Aborted || Busy(s, j))
  }

  ghost predicate ActorsOk(s: State) {
    forall a :: 0 <= a < |s.actors| ==> ActorOk(s, a)
  }

  ghost predicate ActorOk(s: State, a: ActorId)
    requires a < |s.actors|
  {
    var x := s.actors[a];
    && (x.job.Some? ==> x.job.value < |s.jobs| && s.jobs[x.job.value].owner == a)
    && LocalOk(x, a, s.conn, JobAt(s.jobs, x.job), Idle(s.jobs))
  }

  ghost predicate Wire(s: State) {
    && JobsOk(s)
    && ActorsOk(s)
    && ConnOk(s.conn)
    && (!s.closing ==> s.conn.phase == Open || s.conn.phase == Aborted)
    && s.wire == BytesOf(s.jobs)
  }

  // ------------------------------------------------------------- actor steps

  /** Only the gate holder's own job can be unfinished on a live connection, so
      an actor about to ask for admission sees every earlier frame complete. */
  lemma IdleAtAdmission(s: State, a: ActorId)
    requires Gate(s) && Wire(s) && IsActor(s, a)
    requires s.actors[a].pc.Wr? && s.actors[a].pc.stage == Checked && s.conn.phase != Aborted
    ensures Idle(s.jobs)
  {
    assert s.gate == Some(a);
    forall j | 0 <= j < |s.jobs|
      ensures s.jobs[j].Complete()
    {
      if !s.jobs[j].Complete() {
        assert false;
      }
    }
  }

  lemma PreOfAct(s: State, a: ActorId)
    requires Roles(s) && Gate(s) && Wire(s) && IsActor(s, a)
    ensures LocalPre(s.actors[a], ViewOf(s, a), Idle(s.jobs))
  {
    hide Framing.FrameBytes;
    assert ActorOk(s, a);
    if s.actors[a].pc.Wr? && s.actors[a].pc.stage == Checked && s.conn.phase != Aborted {
      IdleAtAdmission(s, a);
    }
  }

  /** What a program step guarantees, gathered for the whole-state argument. */
  ghost predicate StepFacts(s: State, a: ActorId, y: Actor, e: Effect)
    requires IsActor(s, a)
  {
    && LocalKept(s.actors[a], ViewOf(s, a), Idle(s.jobs), (y, e))
    && RoleKept(s.actors[a], (y, e))
    && GateKept(s.actors[a], ViewOf(s, a), (y, e))
  }

  lemma {:induction false} BytesOfSwap(jobs: seq<Job>, j: nat, k: Job)
    requires j < |jobs| && k.message == jobs[j].message && k.written == jobs[j].written
    ensures BytesOf(jobs[j := k]) == BytesOf(jobs)
  {
    var t := jobs[j := k];
    var n := |jobs| - 1;
    if j == n {
      assert t[..n] == jobs[..n];
    } else {
      assert t[..n] == jobs[..n][j := k];
      BytesOfSwap(jobs[..n], j, k);
    }
  }

  lemma BytesOfNew(jobs: seq<Job>, job: Job)
    requires job.written == 0
    ensures BytesOf(jobs + [job]) == BytesOf(jobs)
  {
    assert (jobs + [job])[..|jobs|] == jobs;
    assert Prefix(job) == "";
  }

  lemma BytesCommit(s: State, a: ActorId, y: Actor, e: Effect)
    requires Wire(s) && IsActor(s, a)
    ensures Commit(s, a, y, e).wire == BytesOf(Commit(s, a, y, e).jobs)
  {
    hide Framing.FrameBytes;
    if e.NewJob? {
      BytesOfNew(s.jobs, Job(a, e.message, 0, FrameWriting, Copying));
    } else if e.SwapAborted? && y.job.Some? && y.job.value < |s.jobs| {
      BytesOfSwap(s.jobs, y.job.value, Swap(s.jobs[y.job.value], FrameAborted));
    }
  }

  /** What an effect does to one job that was there before. */
  lemma JobCommit(s: State, a: ActorId, y: Actor, e: Effect, j: nat)
    requires JobsOk(s) && IsActor(s, a) && j < |s.jobs|
    ensures var t := Commit(s, a, y, e);
            && j < |t.jobs| && JobOk(t.jobs[j]) && t.jobs[j].Complete() == s.jobs[j].Complete()
            && t.jobs[j].owner == s.jobs[j].owner
            && (|t.jobs| > |s.jobs| <==> e.NewJob?) && |t.jobs| <= |s.jobs| + 1
  {
    hide Framing.FrameBytes, ConnAfter, CompletionsAfter, TransitionsAfter, OpenFilesAfter, Busy;
    assert JobOk(s.jobs[j]);
  }

  /** An unfinished job stays with its owner, who stays in writeFrameLocked. */
  lemma BusyCommit(s: State, a: ActorId, y: Actor, e: Effect, j: nat)
    requires Wire(s) && IsActor(s, a) && LocalKept(s.actors[a], ViewOf(s, a), Idle(s.jobs), (y, e))
    requires j < |s.jobs| && !s.jobs[j].Complete()
    ensures var t := Commit(s, a, y, e); j < |t.jobs| && (t.conn.phase == Aborted || Busy(t, j))
  {
    JobCommit(s, a, y, e, j);
    assert s.conn.phase == Aborted || Busy(s, j);
    hide Framing.FrameBytes, LocalOk, JobsAfter, CompletionsAfter, TransitionsAfter, OpenFilesAfter, ActorsOk, JobsOk;
  }

  lemma NewJobCommit(s: State, a: ActorId, y: Actor, e: Effect)
    requires Wire(s) && IsActor(s, a) && LocalKept(s.actors[a], ViewOf(s, a), Idle(s.jobs), (y, e)) && e.NewJob?
    ensures var t := Commit(s, a, y, e);
            |t.jobs| == |s.jobs| + 1 && JobOk(t.jobs[|s.jobs|]) && Busy(t, |s.jobs|) && Idle(s.jobs)
  {
    hide Framing.FrameBytes, LocalOk, ConnAfter, CompletionsAfter, TransitionsAfter, OpenFilesAfter, ActorsOk, JobsOk;
  }

  lemma JobsCommit(s: State, a: ActorId, y: Actor, e: Effect)
    requires Wire(s) && IsActor(s, a) && StepFacts(s, a, y, e)
    ensures JobsOk(Commit(s, a, y, e))
  {
    hide Framing.FrameBytes, JobOk, Busy, LocalKept, RoleKept, GateKept, Commit;
    var t := Commit(s, a, y, e);
    if e.NewJob? {
      NewJobCommit(s, a, y, e);
    } else if s.jobs == [] {
      NoJobCommit(s, a, y, e);
    }
    forall j | 0 <= j < |t.jobs|
      ensures JobOk(t.jobs[j])
      ensures j < |t.jobs| - 1 ==> t.jobs[j].Complete()
      ensures !t.jobs[j].Complete() ==> t.conn.phase == Aborted || Busy(t, j)
    {
      if j < |s.jobs| {
        JobCommit(s, a, y, e, j);
        if !s.jobs[j].Complete() {
          BusyCommit(s, a, y, e, j);
        }
      } else if s.jobs != [] {
        JobCommit(s, a, y, e, 0);
      }
    }
  }

  lemma NoJobCommit(s: State, a: ActorId, y: Actor, e: Effect)
    requires IsActor(s, a) && s.jobs == [] && !e.NewJob?
    ensures Commit(s, a, y, e).jobs == []
  {
    hide Framing.FrameBytes, ConnAfter, CompletionsAfter, TransitionsAfter, OpenFilesAfter;
  }

  /** An actor that does not move keeps its invariant: it has its own job, and
      whoever has the gate excludes it from the points that depend on `idle` or
      on the input being open. */
  lemma LocalStable(z: Actor, b: ActorId, c: Conn, d: Conn, x: Actor, job: Option<Job>, idle: bool, idle': bool)
    requires LocalOk(z, b, c, job, idle)
    requires ConnMoves(c, d, x)
    requires x.role.Closer? ==> !z.role.Closer?
    requires Holds(x.pc) ==> !Holds(z.pc)
    requires idle ==> idle' || Holds(x.pc)
    ensures LocalOk(z, b, d, job, idle')
  {
    hide Framing.FrameBytes;
  }

  lemma OtherCommit(s: State, a: ActorId, y: Actor, e: Effect, b: ActorId)
    requires Roles(s) && Gate(s) && Wire(s) && IsActor(s, a) && StepFacts(s, a, y, e)
    requires b < |s.actors| && b != a
    ensures ActorOk(Commit(s, a, y, e), b)
  {
    hide Framing.FrameBytes, LocalOk, RoleKept, GateKept, ConnMoves, ConnOk;
    var t := Commit(s, a, y, e);
    var z := s.actors[b];
    assert ActorOk(s, a) && ActorOk(s, b);
    assert t.actors[b] == z;
    assert JobAt(t.jobs, z.job) == JobAt(s.jobs, z.job);
    IdleCommit(s, a, y, e);
    LocalStable(z, b, s.conn, t.conn, s.actors[a], JobAt(s.jobs, z.job), Idle(s.jobs), Idle(t.jobs));
  }

  /** Only the gate holder starts a job, and no other step undoes a complete one. */
  lemma IdleCommit(s: State, a: ActorId, y: Actor, e: Effect)
    requires Gate(s) && Wire(s) && IsActor(s, a) && StepFacts(s, a, y, e)
    ensures Idle(s.jobs) ==> Idle(Commit(s, a, y, e).jobs) || Holds(s.actors[a].pc)
  {
    hide Framing.FrameBytes, LocalOk, RoleKept, ConnMoves, ConnOk;
    if e.NewJob? {
      assert Holds(y.pc);
    }
  }

  lemma SelfCommit(s: State, a: ActorId, y: Actor, e: Effect)
    requires Gate(s) && Wire(s) && IsActor(s, a) && StepFacts(s, a, y, e)
    ensures ActorOk(Commit(s, a, y, e), a)
  {
    hide Framing.FrameBytes, RoleKept, GateKept, ConnMoves, ConnOk, ConnAfter;
    var t := Commit(s, a, y, e);
    assert ActorOk(s, a);
    assert JobAt(t.jobs, y.job) == OwnJob(ViewOf(s, a), y, e);
    if e.NewJob? {
      assert LocalOk(y, a, t.conn, JobAt(t.jobs, y.job), Idle(t.jobs));
    } else {
      hide LocalOk;
      assert Idle(t.jobs) == Idle(s.jobs) by {
        assert forall j :: 0 <= j < |s.jobs| ==> t.jobs[j].Complete() == s.jobs[j].Complete();
      }
    }
  }

  lemma ForkCommit(s: State, a: ActorId, y: Actor, e: Effect)
    requires Roles(s) && Wire(s) && IsActor(s, a) && StepFacts(s, a, y, e) && e.Fork?
    ensures ActorOk(Commit(s, a, y, e), |s.actors|)
  {
    hide Framing.FrameBytes;
  }

  lemma ConnCommit(s: State, a: ActorId, y: Actor, e: Effect)
    requires Roles(s) && Wire(s) && IsActor(s, a) && LocalKept(s.actors[a], ViewOf(s, a), Idle(s.jobs), (y, e))
    ensures var t := Commit(s, a, y, e);
            ConnOk(t.conn) && (!t.closing ==> t.conn.phase == Open || t.conn.phase == Aborted)
  {
    hide Framing.FrameBytes, LocalOk, ConnAfter, JobsAfter, CompletionsAfter, TransitionsAfter, OpenFilesAfter,
      JobsOk, ActorsOk, BytesOf;
  }

  lemma ActorsCommit(s: State, a: ActorId, y: Actor, e: Effect)
    requires Roles(s) && Gate(s) && Wire(s) && IsActor(s, a) && StepFacts(s, a, y, e)
    ensures ActorsOk(Commit(s, a, y, e))
  {
    hide Framing.FrameBytes, Roles, Gate, Wire, ActorOk, StepFacts, ConnAfter, JobsAfter, CompletionsAfter,
      TransitionsAfter, OpenFilesAfter;
    var t := Commit(s, a, y, e);
    forall b | 0 <= b < |t.actors|
      ensures ActorOk(t, b)
    {
      if b == a {
        SelfCommit(s, a, y, e);
      } else if b < |s.actors| {
        OtherCommit(s, a, y, e, b);
      } else {
        ForkCommit(s, a, y, e);
      }
    }
  }

  lemma WireAct(s: State, a: ActorId, c: Choice)
    requires Roles(s) && Gate(s) && Wire(s) && Enabled(s, Act(a, c))
    ensures Wire(Apply(s, Act(a, c)))
  {
    hide Framing.FrameBytes, Next, Can, LocalPre, LocalKept, RoleKept, GateKept, Roles, Gate, JobsOk, ActorsOk, ConnOk,
      Commit;
    var x, v := s.actors[a], ViewOf(s, a);
    PreOfAct(s, a);
    assert PcOk(x.role, x.pc) by { RoleOf(s, a); }
    KeptByNext(x, v, c);
    LocalByNext(x, v, c, Idle(s.jobs));
    var (y, e) := Next(x, v, c);
    BytesCommit(s, a, y, e);
    JobsCommit(s, a, y, e);
    ActorsCommit(s, a, y, e);
    ConnCommit(s, a, y, e);
  }

  lemma RoleOf(s: State, a: ActorId)
    requires Roles(s) && IsActor(s, a)
    ensures PcOk(s.actors[a].role, s.actors[a].pc)
  {
  }

  // --------------------------------------------------------------- job steps

  /** A goroutine only adds bytes and, once the frame is complete, wins the CAS. */
  predicate JobMoves(job: Job, k: Job) {
    && k.owner == job.owner && k.message == job.message
    && job.written <= k.written
    && (job.Complete() ==> k.Complete())
    && (k.cas == job.cas || (job.cas == FrameWriting && k.cas == FrameDispatched && k.Complete()))
  }

  lemma JobsMoveInBackground(s: State, step: Step)
    requires JobsOk(s) && Enabled(s, step) && !step.Act?
    ensures var t := Apply(s, step);
            |t.jobs| == |s.jobs| && forall j :: 0 <= j < |s.jobs| ==> JobMoves(s.jobs[j], t.jobs[j])
  {
    hide Framing.FrameBytes, Can, Next, Commit, ViewOf;
    if step.JobWrite? || step.JobSettle? || step.JobReport? {
      assert JobOk(s.jobs[step.j]);
    }
  }

  lemma ActorsKeepWithJob(s: State, t: State, j: nat, k: Job)
    requires Wire(s) && j < |s.jobs| && JobMoves(s.jobs[j], k)
    requires t == s.(jobs := s.jobs[j := k], wire := t.wire)
    ensures ActorsOk(t)
  {
    hide Framing.FrameBytes;
    assert Idle(s.jobs) ==> Idle(t.jobs);
    forall a | 0 <= a < |t.actors|
      ensures ActorOk(t, a)
    {
      assert ActorOk(s, a);
    }
  }

  lemma JobsKeepWithJob(s: State, t: State, j: nat, k: Job)
    requires Wire(s) && j < |s.jobs| && JobMoves(s.jobs[j], k) && JobOk(k)
    requires t == s.(jobs := s.jobs[j := k], wire := t.wire)
    ensures JobsOk(t)
  {
    hide Framing.FrameBytes, LocalOk;
    forall i | 0 <= i < |t.jobs| && !t.jobs[i].Complete()
      ensures t.conn.phase == Aborted || Busy(t, i)
    {
      assert !s.jobs[i].Complete();
      assert s.conn.phase == Aborted || Busy(s, i);
    }
  }

  /** Bytes are only ever added by the last job. */
  lemma BytesOfWrite(jobs: seq<Job>, k: Job, n: nat)
    requires |jobs| > 0
    requires var job := jobs[|jobs| - 1];
             k.message == job.message && k.written == job.written + n <= |job.message.Bytes()|
    ensures var job := jobs[|jobs| - 1];
            BytesOf(jobs[|jobs| - 1 := k]) == BytesOf(jobs) + job.message.Bytes()[job.written..k.written]
  {
    hide Framing.FrameBytes;
    var l := |jobs| - 1;
    var job := jobs[l];
    assert jobs[l := k][..l] == jobs[..l];
    assert Prefix(k) == Prefix(job) + job.message.Bytes()[job.written..k.written];
  }

  /** The goroutine's step as a move of its job. */
  lemma JobStepMoves(s: State, step: Step)
    requires JobsOk(s) && Enabled(s, step) && (step.JobWrite? || step.JobSettle? || step.JobReport?)
    ensures var t, j := Apply(s, step), step.j;
            && j < |s.jobs| == |t.jobs| && t == s.(jobs := s.jobs[j := t.jobs[j]], wire := t.wire)
            && JobMoves(s.jobs[j], t.jobs[j]) && JobOk(t.jobs[j])
            && (!step.JobWrite? ==> t.wire == s.wire && t.jobs[j].written == s.jobs[j].written)
            && (step.JobWrite? ==>
                  var job := s.jobs[j];
                  && !job.Complete() && t.jobs[j].written == job.written + step.n <= |job.message.Bytes()|
                  && t.wire == s.wire + job.message.Bytes()[job.written..job.written + step.n])
  {
    hide Framing.FrameBytes, Can, Next, Commit, ViewOf, Busy;
    assert JobOk(s.jobs[step.j]);
  }

  /** Only the last job can be unfinished. */
  lemma UnfinishedIsLast(s: State, j: nat)
    requires JobsOk(s) && j < |s.jobs| && !s.jobs[j].Complete()
    ensures j == |s.jobs| - 1
  {
  }

  lemma BytesOfJobWrite(s: State, step: Step)
    requires JobsOk(s) && s.wire == BytesOf(s.jobs) && Enabled(s, step) && step.JobWrite?
    ensures Apply(s, step).wire == BytesOf(Apply(s, step).jobs)
  {
    hide Framing.FrameBytes, Enabled, Apply, JobsOk, BytesOf, JobOk;
    JobStepMoves(s, step);
    UnfinishedIsLast(s, step.j);
    BytesOfWrite(s.jobs, Apply(s, step).jobs[step.j], step.n);
  }

  lemma BytesOfJobStep(s: State, step: Step)
    requires JobsOk(s) && s.wire == BytesOf(s.jobs) && Enabled(s, step)
    requires step.JobWrite? || step.JobSettle? || step.JobReport?
    ensures Apply(s, step).wire == BytesOf(Apply(s, step).jobs)
  {
    hide Framing.FrameBytes, Enabled, Apply, JobsOk, BytesOf, JobOk;
    if step.JobWrite? {
      BytesOfJobWrite(s, step);
    } else {
      JobStepMoves(s, step);
      BytesOfSwap(s.jobs, step.j, Apply(s, step).jobs[step.j]);
    }
  }

  lemma WireJob(s: State, step: Step)
    requires Wire(s) && Enabled(s, step) && (step.JobWrite? || step.JobSettle? || step.JobReport?)
    ensures Wire(Apply(s, step))
  {
    hide Framing.FrameBytes, JobsOk, ActorsOk, JobMoves, JobOk, BytesOf, Enabled, Apply;
    JobStepMoves(s, step);
    BytesOfJobStep(s, step);
    var t := Apply(s, step);
    ActorsKeepWithJob(s, t, step.j, t.jobs[step.j]);
    JobsKeepWithJob(s, t, step.j, t.jobs[step.j]);
  }

  // --------------------------------------------------------- the environment

  lemma WireEnv(s: State, step: Step)
    requires Wire(s) && Enabled(s, step) && (Starting(step) || step.Cancel?)
    ensures Wire(Apply(s, step))
  {
    hide Framing.FrameBytes, Can, Next, Commit, ViewOf, JobOk, JobsOk, BytesOf;
    var t := Apply(s, step);
    forall b | 0 <= b < |t.actors|
      ensures ActorOk(t, b)
    {
      if b < |s.actors| {
        assert ActorOk(s, b);
      }
    }
    JobsKeepWithActors(s, t);
  }

  lemma JobsKeepWithActors(s: State, t: State)
    requires JobsOk(s) && t.jobs == s.jobs && t.conn == s.conn && |s.actors| <= |t.actors|
    requires forall a :: 0 <= a < |s.actors| ==>
               t.actors[a].pc == s.actors[a].pc && t.actors[a].job == s.actors[a].job
    ensures JobsOk(t)
  {
    hide Framing.FrameBytes, JobOk;
    forall j | 0 <= j < |t.jobs| && !t.jobs[j].Complete()
      ensures t.conn.phase == Aborted || Busy(t, j)
    {
      assert s.conn.phase == Aborted || Busy(s, j);
    }
  }

  lemma WireStep(s: State, step: Step)
    requires Roles(s) && Gate(s) && Wire(s) && Enabled(s, step)
    ensures Wire(Apply(s, step))
  {
    hide Wire, Enabled, Apply;
    match step
    case Act(a, c) => WireAct(s, a, c);
    case JobWrite(_, _, _) => WireJob(s, step);
    case JobSettle(_) => WireJob(s, step);
    case JobReport(_) => WireJob(s, step);
    case _ => WireEnv(s, step);
  }
}
