/**
 The order of the shutdown handshake on the wire: ordinary traffic, then at most
 one shutdown request, then at most one exit notification, with nothing but
 answers to server requests after shutdown.
 */
module TransportShutdown {
  import opened Wrappers
  import opened Connection
  import opened TransportModel
  import opened TransportGate
  import opened TransportWire
  import Framing

  predicate Farewell(kind: Kind) {
    kind == Shutdown || kind == Exit
  }

  /** No shutdown or exit frame was ever started. */
  ghost predicate NoFarewell(jobs: seq<Job>) {
    forall j :: 0 <= j < |jobs| ==> !Farewell(jobs[j].message.kind)
  }

  ghost predicate NoExit(jobs: seq<Job>) {
    forall j :: 0 <= j < |jobs| ==> jobs[j].message.kind != Exit
  }

  predicate SentShutdown(job: Job) {
    job.message.kind == Shutdown && job.cas == FrameDispatched && job.Complete()
  }

  /** The shutdown request was dispatched. */
  ghost predicate ShutdownSent(jobs: seq<Job>) {
    exists j :: 0 <= j < |jobs| && SentShutdown(jobs[j])
  }

  predicate MayFollow(earlier: Kind, later: Kind) {
    && (earlier == Shutdown ==> later == MethodNotFound || later == Exit)
    && (earlier == Exit ==> later == MethodNotFound)
  }

  ghost predicate Ordered(jobs: seq<Job>) {
    && (forall i, j :: 0 <= i < j < |jobs| ==> MayFollow(jobs[i].message.kind, jobs[j].message.kind))
    && (forall j :: 0 <= j < |jobs| && jobs[j].message.kind == Exit ==> ShutdownSent(jobs[..j]))
  }

  /** Why shutdown may have gone unsent. */
  predicate Excused(x: Actor, c: Conn) {
    x.canceled || c.phase == Aborted
  }

  predicate ShutdownStage(stage: Stage, x: Actor, c: Conn, none: bool, noExit: bool, sent: bool) {
    && noExit
    && match stage
       case Begin => false
       case WantGate => false
       case Held => none
       case Checked => none
       case Admitted => none
       case Framed => none
       case Releasing(d, _) => if d then sent else Excused(x, c)
       case Returned(d, _) => if d then sent else Excused(x, c)
       case _ => true
  }

  predicate ExitStage(stage: Stage, x: Actor, c: Conn, noExit: bool, sent: bool) {
    match stage
    case Begin => noExit && (sent || Excused(x, c))
    case WantGate => noExit && (sent || c.phase == Aborted)
    case Held => noExit && (sent || c.phase == Aborted)
    case Checked => noExit && (sent || c.phase == Aborted)
    case Admitted => noExit && sent
    case Framed => noExit && sent
    case _ => true
  }

  /** What the closer's position says about the frames started so far. */
  predicate FarewellOk(x: Actor, c: Conn, none: bool, noExit: bool, sent: bool) {
    match x.pc
    case CloseMarshal => none
    case CloseLock(marshaled) => none && (marshaled || x.canceled)
    case CloseBegin(marshaled) => none && (marshaled || x.canceled)
    case Wr(stage, m) =>
      if m.kind == Shutdown then ShutdownStage(stage, x, c, none, noExit, sent)
      else ExitStage(stage, x, c, noExit, sent)
    case AbortEnter(_, next) => next.ToRelease? && next.message.kind == Shutdown ==> noExit
    case AbortInput(next) => next.ToRelease? && next.message.kind == Shutdown ==> noExit
    case Waiting(d) => noExit && (if d then sent else Excused(x, c))
    case Joining(d, _) => noExit && (if d then sent else Excused(x, c))
    case Concluding(d, _) => noExit && (if d then sent else Excused(x, c))
    case _ => true
  }

  predicate ShapeOk(x: Actor, c: Conn, none: bool, noExit: bool, sent: bool) {
    && (x.role.Closer? ==> FarewellOk(x, c, none, noExit, sent))
    && (BeforeJob(x.pc) && PolicyOf(x.pc.message.kind) == External ==> none)
  }

  predicate ShapePre(x: Actor, v: View, idle: bool, none: bool, noExit: bool, sent: bool) {
    && LocalPre(x, v, idle)
    && ShapeOk(x, v.conn, none, noExit, sent)
    && (none ==> noExit)
    && (v.conn.phase == Open ==> none)
    && (v.job.Some? && SentShutdown(v.job.value) ==> sent)
  }

  predicate ShapeKept(x: Actor, v: View, none: bool, noExit: bool, sent: bool, ye: (Actor, Effect)) {
    var (y, e) := ye;
    var started := e.NewJob? && Farewell(e.message.kind);
    var none' := none && !started;
    && ShapeOk(y, ConnAfter(v.conn, e), none', noExit && !(e.NewJob? && e.message.kind == Exit), sent)
    && (e.NewJob? ==> Holds(x.pc) && match e.message.kind
                      case Shutdown => none && x.role.Closer?
                      case Exit => noExit && sent && x.role.Closer?
                      case MethodNotFound => true
                      case _ => none)
    && (ConnAfter(v.conn, e).phase == Open ==> none')
  }

  lemma ShapeByEarlyWrite(x: Actor, v: View, c: Choice, idle: bool, none: bool, noExit: bool, sent: bool)
    requires ShapePre(x, v, idle, none, noExit, sent) && x.pc.Wr? && CanWrite(x, v, c) && Early(x.pc.stage)
    ensures ShapeKept(x, v, none, noExit, sent, NextWrite(x, v, c))
  {
    hide Framing.FrameBytes;
  }

  lemma ShapeByMiddleWrite(x: Actor, v: View, c: Choice, idle: bool, none: bool, noExit: bool, sent: bool)
    requires ShapePre(x, v, idle, none, noExit, sent) && x.pc.Wr? && CanWrite(x, v, c) && Middle(x.pc.stage)
    ensures ShapeKept(x, v, none, noExit, sent, NextWrite(x, v, c))
  {
    hide Framing.FrameBytes;
  }

  lemma ShapeByReturned(x: Actor, v: View, c: Choice, idle: bool, none: bool, noExit: bool, sent: bool)
    requires ShapePre(x, v, idle, none, noExit, sent) && x.pc.Wr? && CanWrite(x, v, c) && !Early(x.pc.stage) &&
             !Middle(x.pc.stage)
    requires x.pc.stage.Returned?
    ensures ShapeKept(x, v, none, noExit, sent, NextWrite(x, v, c))
  {
    hide Framing.FrameBytes;
  }

  lemma ShapeByRelease(x: Actor, v: View, c: Choice, idle: bool, none: bool, noExit: bool, sent: bool)
    requires ShapePre(x, v, idle, none, noExit, sent) && x.pc.Wr? && CanWrite(x, v, c) && !Early(x.pc.stage) &&
             !Middle(x.pc.stage)
    requires !x.pc.stage.Returned?
    ensures ShapeKept(x, v, none, noExit, sent, NextWrite(x, v, c))
  {
    hide Framing.FrameBytes;
  }

  lemma ShapeByLateWrite(x: Actor, v: View, c: Choice, idle: bool, none: bool, noExit: bool, sent: bool)
    requires ShapePre(x, v, idle, none, noExit, sent) && x.pc.Wr? && CanWrite(x, v, c) && !Early(x.pc.stage) &&
             !Middle(x.pc.stage)
    ensures ShapeKept(x, v, none, noExit, sent, NextWrite(x, v, c))
  {
    hide ShapePre, ShapeKept, CanWrite, NextWrite;
    if x.pc.stage.Returned? {
      ShapeByReturned(x, v, c, idle, none, noExit, sent);
    } else {
      ShapeByRelease(x, v, c, idle, none, noExit, sent);
    }
  }

  lemma ShapeByCall(x: Actor, v: View, c: Choice, idle: bool, none: bool, noExit: bool, sent: bool)
    requires ShapePre(x, v, idle, none, noExit, sent) && CanCall(x, v, c)
    ensures ShapeKept(x, v, none, noExit, sent, NextCall(x, v, c))
  {
    hide Framing.FrameBytes;
  }

  lemma ShapeByOpen(x: Actor, v: View, c: Choice, idle: bool, none: bool, noExit: bool, sent: bool)
    requires ShapePre(x, v, idle, none, noExit, sent) && x.role.Opener? && CanOpen(x, v, c)
    ensures ShapeKept(x, v, none, noExit, sent, NextOpen(x, v, c))
  {
    hide Framing.FrameBytes;
  }

  lemma ShapeByEarlyClose(x: Actor, v: View, c: Choice, idle: bool, none: bool, noExit: bool, sent: bool)
    requires ShapePre(x, v, idle, none, noExit, sent) && PartOf(x.pc) == InClose && x.role.Closer? && CanClose(x, v, c)
    requires EarlyClose(x.pc)
    ensures ShapeKept(x, v, none, noExit, sent, NextClose(x, v, c))
  {
    hide Framing.FrameBytes;
  }

  lemma ShapeByMiddleClose(x: Actor, v: View, c: Choice, idle: bool, none: bool, noExit: bool, sent: bool)
    requires ShapePre(x, v, idle, none, noExit, sent) && PartOf(x.pc) == InClose && x.role.Closer? && CanClose(x, v, c)
    requires !EarlyClose(x.pc)
    requires MiddleClose(x.pc)
    ensures ShapeKept(x, v, none, noExit, sent, NextClose(x, v, c))
  {
    hide Framing.FrameBytes;
  }

  lemma ShapeByReap(x: Actor, v: View, c: Choice, idle: bool, none: bool, noExit: bool, sent: bool)
    requires ShapePre(x, v, idle, none, noExit, sent) && PartOf(x.pc) == InClose && x.role.Closer? && CanClose(x, v, c)
    requires !EarlyClose(x.pc)
    requires !MiddleClose(x.pc)
    ensures ShapeKept(x, v, none, noExit, sent, NextClose(x, v, c))
  {
    hide Framing.FrameBytes;
  }

  lemma ShapeByLateClose(x: Actor, v: View, c: Choice, idle: bool, none: bool, noExit: bool, sent: bool)
    requires ShapePre(x, v, idle, none, noExit, sent) && PartOf(x.pc) == InClose && x.role.Closer? && CanClose(x, v, c)
    requires !EarlyClose(x.pc)
    ensures ShapeKept(x, v, none, noExit, sent, NextClose(x, v, c))
  {
    hide ShapePre, ShapeKept, CanClose, NextClose;
    if MiddleClose(x.pc) {
      ShapeByMiddleClose(x, v, c, idle, none, noExit, sent);
    } else {
      ShapeByReap(x, v, c, idle, none, noExit, sent);
    }
  }

  lemma ShapeByClose(x: Actor, v: View, c: Choice, idle: bool, none: bool, noExit: bool, sent: bool)
    requires ShapePre(x, v, idle, none, noExit, sent) && PartOf(x.pc) == InClose && x.role.Closer? && CanClose(x, v, c)
    ensures ShapeKept(x, v, none, noExit, sent, NextClose(x, v, c))
  {
    hide ShapePre, ShapeKept, CanClose, NextClose;
    if EarlyClose(x.pc) {
      ShapeByEarlyClose(x, v, c, idle, none, noExit, sent);
    } else {
      ShapeByLateClose(x, v, c, idle, none, noExit, sent);
    }
  }

  lemma ShapeByOther(x: Actor, v: View, c: Choice, idle: bool, none: bool, noExit: bool, sent: bool)
    requires ShapePre(x, v, idle, none, noExit, sent) && CanOther(x, c)
    ensures ShapeKept(x, v, none, noExit, sent, NextOther(x, v, c))
  {
    hide Framing.FrameBytes;
  }

  lemma ShapeByNext(x: Actor, v: View, c: Choice, idle: bool, none: bool, noExit: bool, sent: bool)
    requires ShapePre(x, v, idle, none, noExit, sent) && Can(x, v, c)
    ensures ShapeKept(x, v, none, noExit, sent, Next(x, v, c))
  {
    hide Framing.FrameBytes, LocalPre;
    hide NextWrite, NextOpen, NextClose, NextCall, NextOther, CanWrite, CanOpen, CanClose, CanCall, CanOther;
    if x.claimed == {} {
      hide ShapePre, ShapeKept;
      match PartOf(x.pc)
      case InWrite =>
        if Early(x.pc.stage) {
          ShapeByEarlyWrite(x, v, c, idle, none, noExit, sent);
        } else if Middle(x.pc.stage) {
          ShapeByMiddleWrite(x, v, c, idle, none, noExit, sent);
        } else {
          ShapeByLateWrite(x, v, c, idle, none, noExit, sent);
        }
      case InCall => ShapeByCall(x, v, c, idle, none, noExit, sent);
      case InOpen => ShapeByOpen(x, v, c, idle, none, noExit, sent);
      case InClose => ShapeByClose(x, v, c, idle, none, noExit, sent);
      case Elsewhere => ShapeByOther(x, v, c, idle, none, noExit, sent);
    }
  }

  // ------------------------------------------------------------- whole states

  ghost predicate ActorShape(s: State, a: ActorId)
    requires a < |s.actors|
  {
    ShapeOk(s.actors[a], s.conn, NoFarewell(s.jobs), NoExit(s.jobs), ShutdownSent(s.jobs))
  }

  ghost predicate Farewells(s: State) {
    && (forall a :: 0 <= a < |s.actors| ==> ActorShape(s, a))
    && (s.conn.phase == Open || !s.closing ==> NoFarewell(s.jobs))
    && Ordered(s.jobs)
  }

  /** Jobs keep their messages, and a dispatched one stays dispatched. */
  ghost predicate SameFrames(jobs: seq<Job>, later: seq<Job>) {
    && |jobs| == |later|
    && forall j :: 0 <= j < |jobs| ==>
         && later[j].message == jobs[j].message
         && (SentShutdown(jobs[j]) ==> SentShutdown(later[j]))
  }

  lemma SentPersists(jobs: seq<Job>, later: seq<Job>)
    requires SameFrames(jobs, later) && ShutdownSent(jobs)
    ensures ShutdownSent(later)
  {
    var j :| 0 <= j < |jobs| && SentShutdown(jobs[j]);
    assert SentShutdown(later[j]);
  }

  lemma OrderedPersists(jobs: seq<Job>, later: seq<Job>)
    requires SameFrames(jobs, later) && Ordered(jobs)
    ensures Ordered(later)
    ensures NoFarewell(later) <==> NoFarewell(jobs)
    ensures NoExit(later) <==> NoExit(jobs)
    ensures ShutdownSent(jobs) ==> ShutdownSent(later)
  {
    hide Framing.FrameBytes, SentShutdown;
    assert NoFarewell(later) <==> NoFarewell(jobs) by {
      assert forall j :: 0 <= j < |jobs| ==> later[j].message.kind == jobs[j].message.kind;
    }
    assert NoExit(later) <==> NoExit(jobs);
    if ShutdownSent(jobs) {
      SentPersists(jobs, later);
    }
    forall j | 0 <= j < |later| && later[j].message.kind == Exit
      ensures ShutdownSent(later[..j])
    {
      assert ShutdownSent(jobs[..j]);
      SentPersists(jobs[..j], later[..j]);
    }
  }

  lemma OrderedNew(jobs: seq<Job>, job: Job)
    requires Ordered(jobs) && (NoFarewell(jobs) ==> NoExit(jobs))
    requires match job.message.kind
             case Shutdown => NoFarewell(jobs)
             case Exit => NoExit(jobs) && ShutdownSent(jobs)
             case MethodNotFound => true
             case _ => NoFarewell(jobs)
    ensures Ordered(jobs + [job])
  {
    hide SentShutdown;
    var later := jobs + [job];
    forall j | 0 <= j < |later| && later[j].message.kind == Exit
      ensures ShutdownSent(later[..j])
    {
      assert later[..j] == jobs[..j];
      if j == |jobs| {
        assert jobs[..j] == jobs;
      }
    }
  }

  lemma SentGrows(jobs: seq<Job>, job: Job)
    ensures ShutdownSent(jobs) ==> ShutdownSent(jobs + [job])
    ensures NoFarewell(jobs + [job]) <==> NoFarewell(jobs) && !Farewell(job.message.kind)
    ensures NoExit(jobs + [job]) <==> NoExit(jobs) && job.message.kind != Exit
  {
    hide SentShutdown;
    var later := jobs + [job];
    if ShutdownSent(jobs) {
      var j :| 0 <= j < |jobs| && SentShutdown(jobs[j]);
      assert SentShutdown(later[j]);
    }
    assert later[|jobs|] == job;
    assert forall j :: 0 <= j < |jobs| ==> later[j] == jobs[j];
    assert later[..|jobs|] == jobs;
  }

  lemma ShapeStable(z: Actor, c: Conn, d: Conn, none: bool, noExit: bool, sent: bool,
                    none': bool, noExit': bool, sent': bool)
    requires ShapeOk(z, c, none, noExit, sent)
    requires c.phase == Aborted ==> d.phase == Aborted
    requires sent ==> sent'
    requires z.role.Closer? || Holds(z.pc) ==> (none ==> none') && (noExit ==> noExit')
    ensures ShapeOk(z, d, none', noExit', sent')
  {
  }

  /** How one actor step changes the frames started so far. */
  lemma FramesCommit(s: State, a: ActorId, y: Actor, e: Effect)
    requires Wire(s) && Farewells(s) && IsActor(s, a) && StepFacts(s, a, y, e)
    requires ShapeKept(s.actors[a], ViewOf(s, a), NoFarewell(s.jobs), NoExit(s.jobs), ShutdownSent(s.jobs), (y, e))
    ensures var later := Commit(s, a, y, e).jobs;
            && Ordered(later)
            && (ShutdownSent(s.jobs) ==> ShutdownSent(later))
            && (NoFarewell(later) <==> NoFarewell(s.jobs) && !(e.NewJob? && Farewell(e.message.kind)))
            && (NoExit(later) <==> NoExit(s.jobs) && !(e.NewJob? && e.message.kind == Exit))
  {
    hide Framing.FrameBytes, Wire, StepFacts, ShapeOk, Ordered, ShutdownSent, NoFarewell, NoExit, ConnAfter;
    if e.NewJob? {
      var job := Job(a, e.message, 0, FrameWriting, Copying);
      SentGrows(s.jobs, job);
      FarewellImpliesExit(s.jobs);
      OrderedNew(s.jobs, job);
    } else {
      assert SameFrames(s.jobs, Commit(s, a, y, e).jobs);
      OrderedPersists(s.jobs, Commit(s, a, y, e).jobs);
    }
  }

  lemma FarewellImpliesExit(jobs: seq<Job>)
    ensures NoFarewell(jobs) ==> NoExit(jobs)
  {
  }

  lemma ShapePreOfAct(s: State, a: ActorId)
    requires Roles(s) && Gate(s) && Wire(s) && Farewells(s) && IsActor(s, a)
    ensures ShapePre(s.actors[a], ViewOf(s, a), Idle(s.jobs), NoFarewell(s.jobs), NoExit(s.jobs), ShutdownSent(s.jobs))
  {
    hide Framing.FrameBytes, LocalPre, Wire, Gate, Roles, ShapeOk;
    PreOfAct(s, a);
    FarewellImpliesExit(s.jobs);
    assert ActorShape(s, a);
  }

  lemma FarewellsAct(s: State, a: ActorId, c: Choice)
    requires Roles(s) && Gate(s) && Wire(s) && Farewells(s) && Enabled(s, Act(a, c))
    ensures Farewells(Apply(s, Act(a, c)))
  {
    hide Framing.FrameBytes, Next, Can, Wire, LocalOk, LocalPre, ShapeOk, ShapePre, Ordered, ShutdownSent, NoFarewell,
         NoExit;
    var x, v := s.actors[a], ViewOf(s, a);
    PreOfAct(s, a);
    ShapePreOfAct(s, a);
    KeptByNext(x, v, c);
    LocalByNext(x, v, c, Idle(s.jobs));
    ShapeByNext(x, v, c, Idle(s.jobs), NoFarewell(s.jobs), NoExit(s.jobs), ShutdownSent(s.jobs));
    var (y, e) := Next(x, v, c);
    FramesCommit(s, a, y, e);
    var t := Commit(s, a, y, e);
    forall b | 0 <= b < |t.actors|
      ensures ActorShape(t, b)
    {
      if b == a {
        SelfShape(s, a, y, e);
      } else if b < |s.actors| {
        OtherShape(s, a, y, e, b);
      } else {
        ForkShape(s, a, y, e);
      }
    }
  }

  lemma OtherShape(s: State, a: ActorId, y: Actor, e: Effect, b: ActorId)
    requires Roles(s) && Gate(s) && Wire(s) && Farewells(s) && IsActor(s, a) && StepFacts(s, a, y, e)
    requires ShapeKept(s.actors[a], ViewOf(s, a), NoFarewell(s.jobs), NoExit(s.jobs), ShutdownSent(s.jobs), (y, e))
    requires b < |s.actors| && b != a
    ensures ActorShape(Commit(s, a, y, e), b)
  {
    hide Framing.FrameBytes, Wire, LocalOk, ShapeOk, Ordered, ShutdownSent, NoFarewell, NoExit, RoleKept, GateKept;
    FramesCommit(s, a, y, e);
    assert ActorShape(s, b);
    var t := Commit(s, a, y, e);
    ShapeStable(s.actors[b], s.conn, t.conn, NoFarewell(s.jobs), NoExit(s.jobs), ShutdownSent(s.jobs),
                NoFarewell(t.jobs), NoExit(t.jobs), ShutdownSent(t.jobs));
  }

  lemma SelfShape(s: State, a: ActorId, y: Actor, e: Effect)
    requires Wire(s) && Farewells(s) && IsActor(s, a) && StepFacts(s, a, y, e)
    requires ShapeKept(s.actors[a], ViewOf(s, a), NoFarewell(s.jobs), NoExit(s.jobs), ShutdownSent(s.jobs), (y, e))
    ensures ActorShape(Commit(s, a, y, e), a)
  {
    hide Framing.FrameBytes, Wire, StepFacts, ShapeOk, Ordered, ShutdownSent, NoFarewell, NoExit, ConnAfter;
    FramesCommit(s, a, y, e);
    var t := Commit(s, a, y, e);
    var none, noExit := NoFarewell(t.jobs), NoExit(t.jobs);
    ShapeStable(y, t.conn, t.conn, none, noExit, ShutdownSent(s.jobs), none, noExit, ShutdownSent(t.jobs));
  }

  lemma ForkShape(s: State, a: ActorId, y: Actor, e: Effect)
    requires IsActor(s, a) && StepFacts(s, a, y, e) && e.Fork?
    ensures ActorShape(Commit(s, a, y, e), |s.actors|)
  {
    hide Framing.FrameBytes, LocalOk;
  }

  /** Goroutine and environment steps start no frame and undo none. */
  lemma SameFramesOther(s: State, step: Step)
    requires JobsOk(s) && Enabled(s, step) && !step.Act?
    ensures SameFrames(s.jobs, Apply(s, step).jobs)
  {
    hide Framing.FrameBytes;
    JobsMoveInBackground(s, step);
    hide Can, Next, Commit, ViewOf, Apply;
  }

  lemma ShapeInBackground(s: State, t: State, b: ActorId)
    requires Farewells(s) && Background(s, t) && b < |t.actors|
    requires (NoFarewell(t.jobs) <==> NoFarewell(s.jobs)) && (NoExit(t.jobs) <==> NoExit(s.jobs))
    requires ShutdownSent(s.jobs) ==> ShutdownSent(t.jobs)
    ensures ActorShape(t, b)
  {
    hide Framing.FrameBytes, Ordered, ShutdownSent, NoFarewell, NoExit;
    if b < |s.actors| {
      assert ActorShape(s, b);
    }
  }

  lemma FarewellsOther(s: State, step: Step)
    requires Wire(s) && Farewells(s) && Enabled(s, step) && !step.Act?
    ensures Farewells(Apply(s, step))
  {
    hide Framing.FrameBytes, Enabled, Apply, ActorsOk, JobsOk, ActorShape, Ordered, ShutdownSent, NoFarewell, NoExit,
      SameFrames;
    var t := Apply(s, step);
    SameFramesOther(s, step);
    OrderedPersists(s.jobs, t.jobs);
    BackgroundStep(s, step);
    forall b | 0 <= b < |t.actors|
      ensures ActorShape(t, b)
    {
      ShapeInBackground(s, t, b);
    }
  }

  lemma FarewellsStep(s: State, step: Step)
    requires Roles(s) && Gate(s) && Wire(s) && Farewells(s) && Enabled(s, step)
    ensures Farewells(Apply(s, step))
  {
    hide Wire, Enabled, Apply, Farewells;
    if step.Act? {
      FarewellsAct(s, step.a, step.choice);
    } else {
      FarewellsOther(s, step);
    }
  }
}
