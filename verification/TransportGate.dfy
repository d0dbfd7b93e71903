/**
 Which actor can be where: roles and program points agree, there is one closer,
 and the write gate is held by exactly the actor whose program point says so.
 */
module TransportGate {
  import opened Wrappers
  import opened Connection
  import opened TransportModel
  import Framing

  /** The message an actor of this role may be writing. */
  predicate MayWrite(role: Role, kind: Kind) {
    match role
    case Caller(id) => kind == Request(id)
    case Notifier => kind == Notification
    case CancelSender(id) => kind == CancelRequest(id)
    case Responder => kind == MethodNotFound
    case Opener(f) => kind.DidOpen? && kind.file == f
    case Closer(_) => kind == Shutdown || kind == Exit
    case Reader => false
    case Aborter => false
  }

  predicate NextOk(role: Role, next: Resume) {
    match next
    case ToRelease(m, _) => MayWrite(role, m.kind)
    case ToInput => role.Closer?
    case ToReap => role.Closer?
    case ToFinish => role.Reader? || role.Aborter?
  }

  predicate PcOk(role: Role, pc: Pc) {
    match pc
    case Registering(_) => role.Caller?
    case Wr(_, m) => MayWrite(role, m.kind)
    case AbortEnter(_, next) => NextOk(role, next)
    case AbortInput(next) => NextOk(role, next)
    case Waiting(_) => role.Caller? || role.Closer?
    case Joining(_, _) => role.Caller? || role.Closer?
    case Concluding(_, _) => role.Caller? || role.Closer?
    case ReadLoop => role.Reader?
    case OpenLoop => role.Opener?
    case OpenWait => role.Opener?
    case OpenRead => role.Opener?
    case OpenFailed(_) => role.Opener?
    case OpenPublish(_, _) => role.Opener?
    case Finished(_, _) => true
    case _ => role.Closer?
  }

  ghost predicate Roles(s: State) {
    && (forall a :: 0 <= a < |s.actors| ==> PcOk(s.actors[a].role, s.actors[a].pc))
    && (forall a :: 0 <= a < |s.actors| && s.actors[a].role.Closer? ==> s.closing)
    && (forall a, b :: 0 <= a < b < |s.actors| && s.actors[a].role.Closer? ==> !s.actors[b].role.Closer?)
  }

  /** The program points between taking the gate and giving it back. */
  predicate Holds(pc: Pc) {
    match pc
    case Wr(stage, _) => !(stage.Begin? || stage.WantGate? || stage.Returned?)
    case AbortEnter(_, next) => next.ToRelease?
    case AbortInput(next) => next.ToRelease?
    case CloseBegin(_) => true
    case CloseUnlock => true
    case CloseInputNow(gated) => gated
    case CloseInputUnlock => true
    case _ => false
  }

  /** Admitted, and the frame not yet started. */
  predicate BeforeJob(pc: Pc) {
    pc.Wr? && (pc.stage.Admitted? || pc.stage.Framed?)
  }

  ghost predicate Gate(s: State) {
    && (s.gate.Some? ==> s.gate.value < |s.actors|)
    && forall a :: 0 <= a < |s.actors| ==> (Holds(s.actors[a].pc) <==> s.gate == Some(a))
  }

  // -------------------------------------------------------- one program step

  /** A step keeps the actor's role, and what it forks is a writer. */
  predicate RoleKept(x: Actor, ye: (Actor, Effect)) {
    && ye.0.role == x.role && PcOk(x.role, ye.0.pc)
    && (ye.1.Fork? ==> PcOk(ye.1.child.role, ye.1.child.pc) && !ye.1.child.role.Closer?)
  }

  /** A step starts or stops holding the gate exactly by the gate's own operations. */
  predicate GateKept(x: Actor, v: View, ye: (Actor, Effect)) {
    && (ye.1.Acquire? ==> v.gateFree && !Holds(x.pc) && Holds(ye.0.pc))
    && (ye.1.Release? ==> Holds(x.pc) && !Holds(ye.0.pc))
    && (!ye.1.Acquire? && !ye.1.Release? ==> (Holds(x.pc) <==> Holds(ye.0.pc)))
    && (ye.1.Fork? ==> !Holds(ye.1.child.pc))
  }

  lemma KeptByReturned(x: Actor, v: View, c: Choice)
    requires x.pc.Wr? && CanWrite(x, v, c) && PcOk(x.role, x.pc)
    requires x.pc.stage.Returned?
    ensures RoleKept(x, NextWrite(x, v, c)) && GateKept(x, v, NextWrite(x, v, c))
  {
  }

  lemma KeptByWriting(x: Actor, v: View, c: Choice)
    requires x.pc.Wr? && CanWrite(x, v, c) && PcOk(x.role, x.pc)
    requires !x.pc.stage.Returned?
    ensures RoleKept(x, NextWrite(x, v, c)) && GateKept(x, v, NextWrite(x, v, c))
  {
  }

  lemma KeptByWrite(x: Actor, v: View, c: Choice)
    requires x.pc.Wr? && CanWrite(x, v, c) && PcOk(x.role, x.pc)
    ensures RoleKept(x, NextWrite(x, v, c)) && GateKept(x, v, NextWrite(x, v, c))
  {
    hide PcOk, RoleKept, GateKept, CanWrite, NextWrite;
    if x.pc.stage.Returned? {
      KeptByReturned(x, v, c);
    } else {
      KeptByWriting(x, v, c);
    }
  }

  lemma KeptByCall(x: Actor, v: View, c: Choice)
    requires CanCall(x, v, c) && PcOk(x.role, x.pc)
    ensures RoleKept(x, NextCall(x, v, c)) && GateKept(x, v, NextCall(x, v, c))
  {
  }

  lemma KeptByOpen(x: Actor, v: View, c: Choice)
    requires x.role.Opener? && CanOpen(x, v, c) && PcOk(x.role, x.pc)
    ensures RoleKept(x, NextOpen(x, v, c)) && GateKept(x, v, NextOpen(x, v, c))
  {
  }

  lemma KeptByClose(x: Actor, v: View, c: Choice)
    requires PartOf(x.pc) == InClose && x.role.Closer? && CanClose(x, v, c) && PcOk(x.role, x.pc)
    ensures RoleKept(x, NextClose(x, v, c)) && GateKept(x, v, NextClose(x, v, c))
  {
  }

  lemma KeptByOther(x: Actor, v: View, c: Choice)
    requires CanOther(x, c) && PcOk(x.role, x.pc)
    ensures RoleKept(x, NextOther(x, v, c)) && GateKept(x, v, NextOther(x, v, c))
  {
  }

  lemma KeptByNext(x: Actor, v: View, c: Choice)
    requires Can(x, v, c) && PcOk(x.role, x.pc)
    ensures RoleKept(x, Next(x, v, c)) && GateKept(x, v, Next(x, v, c))
  {
    hide NextWrite, NextOpen, NextClose, NextCall, NextOther, CanWrite, CanOpen, CanClose, CanCall, CanOther;
    if x.claimed == {} {
      hide RoleKept, GateKept;
      match PartOf(x.pc)
      case InWrite => KeptByWrite(x, v, c);
      case InCall => KeptByCall(x, v, c);
      case InOpen => KeptByOpen(x, v, c);
      case InClose => KeptByClose(x, v, c);
      case Elsewhere => KeptByOther(x, v, c);
    }
  }

  // ------------------------------------------------- steps of no actor at all

  predicate SameButContext(x: Actor, y: Actor) {
    && y == x.(canceled := y.canceled, totalCanceled := y.totalCanceled)
    && (x.canceled ==> y.canceled) && (x.totalCanceled ==> y.totalCanceled)
  }

  /** A newly started actor has an id of its own and nothing in its hands. */
  predicate JustStarted(s: State, t: State, x: Actor) {
    && x.claimed == {} && x.job == None && !x.canceled
    && (RequestOf(x.role).Some? ==> RequestOf(x.role).value == t.lastId == s.lastId + 1)
    && match x.role
       case Caller(_) => x.pc.Registering?
       case Notifier => x.pc.Wr? && x.pc.stage == Begin && x.pc.message.kind == Notification
       case Opener(_) => x.pc == OpenLoop
       case Closer(_) => x.pc == CloseMarshal && !s.closing && t.closing
       case Aborter => x.pc.AbortEnter? && x.pc.next == ToFinish
       case _ => false
  }

  /** Environment and goroutine steps leave everything but the contexts, the jobs
      and the wire as it was, except that they may start one actor. */
  ghost predicate Background(s: State, t: State) {
    && t.conn == s.conn && t.gate == s.gate && t.completions == s.completions
    && t.transitions == s.transitions && t.openFiles == s.openFiles
    && s.lastId <= t.lastId && (s.closing ==> t.closing)
    && |s.actors| <= |t.actors| <= |s.actors| + 1
    && (forall a :: 0 <= a < |s.actors| ==> SameButContext(s.actors[a], t.actors[a]))
    && (|t.actors| == |s.actors| ==> t.closing == s.closing && t.lastId == s.lastId)
    && (|t.actors| > |s.actors| ==> t.jobs == s.jobs && JustStarted(s, t, t.actors[|s.actors|]))
    && (t.closing != s.closing ==> |t.actors| > |s.actors| && t.actors[|s.actors|].role.Closer?)
  }

  lemma BackgroundStep(s: State, step: Step)
    requires Enabled(s, step) && !step.Act?
    ensures Background(s, Apply(s, step))
  {
    hide Framing.FrameBytes, Can, Next, Commit, ViewOf;
  }

  // ------------------------------------------------------------- whole steps

  lemma RolesCommit(s: State, a: ActorId, x: Actor, e: Effect)
    requires Roles(s) && IsActor(s, a)
    requires x.role == s.actors[a].role && PcOk(x.role, x.pc)
    requires e.Fork? ==> PcOk(e.child.role, e.child.pc) && !e.child.role.Closer?
    ensures Roles(Commit(s, a, x, e))
  {
  }

  lemma GateCommit(s: State, a: ActorId, x: Actor, e: Effect)
    requires Gate(s) && IsActor(s, a)
    requires e.Acquire? ==> s.gate == None && Holds(x.pc)
    requires e.Release? ==> Holds(s.actors[a].pc) && !Holds(x.pc)
    requires !e.Acquire? && !e.Release? ==> (Holds(s.actors[a].pc) <==> Holds(x.pc))
    requires e.Fork? ==> !Holds(e.child.pc)
    ensures Gate(Commit(s, a, x, e))
  {
  }

  lemma RolesStep(s: State, step: Step)
    requires Roles(s) && Enabled(s, step)
    ensures Roles(Apply(s, step))
  {
    if step.Act? {
      hide Can, Next, Commit;
      var x, v := s.actors[step.a], ViewOf(s, step.a);
      KeptByNext(x, v, step.choice);
      var (y, e) := Next(x, v, step.choice);
      RolesCommit(s, step.a, y, e);
    }
  }

  lemma GateStep(s: State, step: Step)
    requires Roles(s) && Gate(s) && Enabled(s, step)
    ensures Gate(Apply(s, step))
  {
    if step.Act? {
      hide Can, Next, Commit;
      var x, v := s.actors[step.a], ViewOf(s, step.a);
      KeptByNext(x, v, step.choice);
      var (y, e) := Next(x, v, step.choice);
      GateCommit(s, step.a, y, e);
    }
  }
}
