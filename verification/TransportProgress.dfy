/**
 Nobody waits for a transport that cannot move: whoever has the write gate can take a
 step or has its writer goroutine take one, and once the connection is over every
 waiting call can be answered.
 */
module TransportProgress {
  import opened Wrappers
  import opened Connection
  import opened TransportModel
  import opened TransportGate
  import opened TransportWire
  import opened TransportPending
  import opened TransportTheorems
  import Framing

  // -------------------------------------------------------------- the write gate

  /** The goroutine of the actor's write job has still to report. */
  predicate WaitsForJob(x: Actor, job: Option<Job>) {
    && x.claimed == {} && x.pc.Wr? && (x.pc.stage.Writing? || x.pc.stage.Awaiting?)
    && job.Some? && !job.value.phase.Reported?
  }

  /** What a holder of the gate can do next. */
  ghost function HolderChoice(x: Actor, v: View): Choice {
    if x.claimed != {} then var r :| r in x.claimed; CompleteOne(r)
    else match x.pc
      case CloseBegin(_) => Marshaled("")
      case Wr(stage, m) =>
        (match stage
         case Checked => if Admits(v.conn, PolicyOf(m.kind)) then Pass else Fail(OtherErr(false))
         case Held => if x.canceled then Fail(CtxErr) else Pass
         case Admitted => if x.canceled then Fail(CtxErr) else Pass
         case Writing => if HasReported(v, true) then Pass else Fail(OtherErr(false))
         case Awaiting => if HasReported(v, true) then Pass else Fail(OtherErr(false))
         case _ => Pass)
      case _ => Pass
  }

  lemma HolderCan(x: Actor, v: View, idle: bool)
    requires LocalPre(x, v, idle) && Holds(x.pc) && !WaitsForJob(x, v.job)
    ensures Can(x, v, HolderChoice(x, v))
  {
    hide Framing.FrameBytes, CloserOk;
  }

  /** What its goroutine can do next. */
  function GoroutineStep(j: nat, job: Job): Step {
    match job.phase
    case Copied => JobSettle(j)
    case Settled => JobReport(j)
    case _ => JobWrite(j, 0, true)
  }

  lemma GoroutineCan(s: State, j: nat)
    requires j < |s.jobs| && JobOk(s.jobs[j]) && !s.jobs[j].phase.Reported?
    ensures var step := GoroutineStep(j, s.jobs[j]);
            Enabled(s, step) && (step.JobWrite? || step.JobSettle? || step.JobReport?) && step.j == j
  {
    hide Framing.FrameBytes;
  }

  /** Whoever has the gate can take a step, or its own writer goroutine can: the gate
      is never held by someone who is stuck. */
  lemma GateIsNeverStuck(states: seq<State>, steps: seq<Step>, i: nat, a: ActorId) returns (step: Step)
    requires IsRun(states, steps) && i < |states| && states[i].gate == Some(a)
    ensures Enabled(states[i], step)
    ensures || (step.Act? && step.a == a)
            || (&& (step.JobWrite? || step.JobSettle? || step.JobReport?)
                && step.j < |states[i].jobs| && states[i].jobs[step.j].owner == a)
  {
    hide Framing.FrameBytes, Inv, Enabled, Apply, Init;
    InvRun(states, steps, i);
    step := HolderStep(states[i], a);
  }

  lemma HolderOf(s: State, a: ActorId)
    requires Inv(s) && s.gate == Some(a)
    ensures Roles(s) && Gate(s) && Wire(s) && a < |s.actors| && Holds(s.actors[a].pc)
    ensures s.actors[a].job.Some? && s.actors[a].job.value < |s.jobs| ==> s.jobs[s.actors[a].job.value].owner == a
  {
    assert Roles(s) && Gate(s) && Wire(s);
    ActorOkOf(s, a);
    hide Framing.FrameBytes, Inv, Roles, Wire, LocalOk;
  }

  lemma HolderStep(s: State, a: ActorId) returns (step: Step)
    requires Inv(s) && s.gate == Some(a)
    ensures Enabled(s, step)
    ensures || (step.Act? && step.a == a)
            || (&& (step.JobWrite? || step.JobSettle? || step.JobReport?)
                && step.j < |s.jobs| && s.jobs[step.j].owner == a)
  {
    hide Framing.FrameBytes, Inv, Roles, Gate, Wire, Can, LocalPre, ActorOk, JobOk, HolderChoice, GoroutineStep;
    HolderOf(s, a);
    var x, v := s.actors[a], ViewOf(s, a);
    if WaitsForJob(x, v.job) {
      var j := x.job.value;
      JobOkOf(s, j);
      GoroutineCan(s, j);
      step := GoroutineStep(j, s.jobs[j]);
    } else {
      PreOfAct(s, a);
      HolderCan(x, v, Idle(s.jobs));
      step := Act(a, HolderChoice(x, v));
    }
  }

  // --------------------------------------------------------------- waiting calls

  /** Once the connection is Closed or Aborted, a call that waits for its result has it
      and can go on, or some actor has it in hand and can complete it. */
  lemma WaitingCallIsAnswered(states: seq<State>, steps: seq<Step>, i: nat, a: ActorId) returns (step: Step)
    requires IsRun(states, steps) && i < |states| && a < |states[i].actors|
    requires states[i].conn.phase == Closed || states[i].conn.phase == Aborted
    requires states[i].actors[a].pc.Waiting? || states[i].actors[a].pc.Joining?
    ensures Enabled(states[i], step) && RequestOf(states[i].actors[a].role).Some?
    ensures var r := RequestOf(states[i].actors[a].role).value;
            if Completed(states[i], r) then step.Act? && step.a == a
            else step.Act? && step.choice == CompleteOne(r)
  {
    hide Framing.FrameBytes, Inv, Enabled, Apply, Init;
    InvRun(states, steps, i);
    step := AnswerStep(states[i], a);
  }

  /** Whoever has a request in hand can complete it. */
  lemma CompleterCan(s: State, b: ActorId, r: RequestId)
    requires b < |s.actors| && r in s.actors[b].claimed
    ensures Enabled(s, Act(b, CompleteOne(r)))
  {
    hide Framing.FrameBytes, CanWrite, CanClose, CanOpen, CanOther, CanCall;
  }

  /** A caller whose request was completed can go on. */
  lemma CallerCan(s: State, a: ActorId)
    requires a < |s.actors| && s.actors[a].claimed == {} && (s.actors[a].pc.Waiting? || s.actors[a].pc.Joining?)
    requires RequestOf(s.actors[a].role).Some? && Completed(s, RequestOf(s.actors[a].role).value)
    ensures Enabled(s, Act(a, Pass))
  {
    hide Framing.FrameBytes, CanWrite, CanClose, CanOpen, CanOther;
  }

  lemma WhereItIs(s: State, a: ActorId)
    requires Inv(s) && a < |s.actors| && (s.conn.phase == Closed || s.conn.phase == Aborted)
    requires s.actors[a].pc.Waiting? || s.actors[a].pc.Joining?
    ensures RequestOf(s.actors[a].role).Some?
    ensures var r := RequestOf(s.actors[a].role).value; Completed(s, r) || InHands(s, r)
  {
    hide Framing.FrameBytes, Inv, InHands;
    RolesOf(s);
    PendingOf(s);
    assert PcOk(s.actors[a].role, s.actors[a].pc);
  }

  lemma AnswerStep(s: State, a: ActorId) returns (step: Step)
    requires Inv(s) && a < |s.actors| && (s.conn.phase == Closed || s.conn.phase == Aborted)
    requires s.actors[a].pc.Waiting? || s.actors[a].pc.Joining?
    ensures Enabled(s, step) && RequestOf(s.actors[a].role).Some?
    ensures var r := RequestOf(s.actors[a].role).value;
            if Completed(s, r) then step.Act? && step.a == a
            else step.Act? && step.choice == CompleteOne(r)
  {
    hide Framing.FrameBytes, Inv, Enabled, Completed;
    WhereItIs(s, a);
    var x, r := s.actors[a], RequestOf(s.actors[a].role).value;
    if !Completed(s, r) {
      var b: nat :| b < |s.actors| && r in s.actors[b].claimed;
      CompleterCan(s, b, r);
      step := Act(b, CompleteOne(r));
    } else if x.claimed == {} {
      CallerCan(s, a);
      step := Act(a, Pass);
    } else {
      var q :| q in x.claimed;
      CompleterCan(s, a, q);
      step := Act(a, CompleteOne(q));
    }
  }
}
