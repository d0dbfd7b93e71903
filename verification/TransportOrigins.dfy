/**
 Where things come from in a run of the transport: the body of every frame, the cause
 of every abort and the error of every failed open go back to the step that brought
 them in.
 */
module TransportOrigins {
  import opened Wrappers
  import opened Connection
  import opened TransportModel
  import opened TransportGate
  import opened TransportTheorems
  import Framing

  // ---------------------------------------------------------------------- bodies

  /** The step gives actor `a` the message `m` to write. */
  predicate GivenBy(s: State, step: Step, a: ActorId, m: Message) {
    match m.kind
    case Request(id) => step == StartCall(m.body) && a == |s.actors| && id == s.lastId + 1
    case Notification => step == StartNotify(m.body) && a == |s.actors|
    case MethodNotFound =>
      step.Act? && step.choice == Serve(m.body) && RoleAt(s, step.a) == Some(Reader) && a == |s.actors|
    case DidOpen(f, text) => step == Act(a, FileRead(text, m.body)) && RoleAt(s, a) == Some(Opener(f))
    case CancelRequest(id) =>
      step.Act? && step.choice == Marshaled(m.body) && RoleAt(s, step.a) == Some(Caller(id)) && a == |s.actors|
    case Shutdown => step == Act(a, Marshaled(m.body)) && a < |s.actors| && s.actors[a].pc.CloseBegin?
    case Exit => step == Act(a, Marshaled(m.body)) && a < |s.actors| && s.actors[a].pc.Concluding?
  }

  function RoleAt(s: State, a: ActorId): Option<Role> {
    if a < |s.actors| then Some(s.actors[a].role) else None
  }

  /** The message an actor is to write or is writing. */
  function CarriedBy(x: Actor): Option<Message> {
    match x.pc
    case Registering(body) => if x.role.Caller? then Some(Message(Request(x.role.id), body)) else None
    case Wr(_, m) => Some(m)
    case AbortEnter(_, next) => if next.ToRelease? then Some(next.message) else None
    case AbortInput(next) => if next.ToRelease? then Some(next.message) else None
    case _ => None
  }

  /** Alternative `c` gives the actor itself a message. */
  predicate Gives(x: Actor, c: Choice, m: Message) {
    match m.kind
    case DidOpen(f, text) => c == FileRead(text, m.body) && x.role == Opener(f)
    case Shutdown => c == Marshaled(m.body) && x.pc.CloseBegin?
    case Exit => c == Marshaled(m.body) && x.pc.Concluding?
    case _ => false
  }

  /** Alternative `c` forks an actor that begins to write the message it gives. */
  predicate GivesChild(x: Actor, c: Choice, child: Actor) {
    && child.pc.Wr? && child.pc.stage == Begin
    && var m := child.pc.message;
       match m.kind
       case MethodNotFound => c == Serve(m.body) && x.role.Reader?
       case CancelRequest(id) => c == Marshaled(m.body) && x.role == Caller(id)
       case _ => false
  }

  predicate BodyKept(x: Actor, c: Choice, ye: (Actor, Effect)) {
    var (y, e) := ye;
    && y.role == x.role
    && (CarriedBy(y).Some? ==> CarriedBy(y) == CarriedBy(x) || Gives(x, c, CarriedBy(y).value))
    && (e.NewJob? ==> CarriedBy(x) == Some(e.message))
    && (e.Fork? ==> GivesChild(x, c, e.child))
  }

  // ----------------------------------------------------------------------- causes

  /** The step sends actor `a` into abort with `cause`: an abort from outside, a reader
      whose input broke while not closing, a context that ran out, or a failed write
      with the number of bytes that were written. */
  predicate CausedBy(s: State, step: Step, a: ActorId, cause: Cause) {
    || (step == StartAbort(cause) && a == |s.actors|)
    || (step.Act? && step.a == a && a < |s.actors| && Causes(s.actors[a], ViewOf(s, a), step.choice, cause))
  }

  predicate Causes(x: Actor, v: View, c: Choice, cause: Cause) {
    || (c == Break(cause) && x.role.Reader? && v.conn.phase != Closing)
    || (c == GiveUp && cause == ContextDone && (x.canceled || x.totalCanceled))
    || (c.Fail? && HasReported(v, false) && cause == WriteFailed(v.job.value.written))
  }

  predicate CauseKept(x: Actor, v: View, c: Choice, ye: (Actor, Effect)) {
    ye.0.pc.AbortEnter? ==> ye.0.pc == x.pc || Causes(x, v, c, ye.0.pc.cause)
  }

  // ----------------------------------------------------------------------- errors

  /** The step makes the work of actor `a` fail with `e`: the failure is `e` itself, or
      it is the error of the actor's canceled context. */
  predicate FailedBy(s: State, step: Step, a: ActorId, e: WriteErr) {
    step.Act? && step.a == a && a < |s.actors| && Fails(s.actors[a], step.choice, e)
  }

  predicate Fails(x: Actor, c: Choice, e: WriteErr) {
    c == Fail(e) || (e == CtxErr && x.canceled && !c.Fail?)
  }

  /** The error an opener is to report. */
  function ErrorOf(x: Actor): Option<WriteErr> {
    match x.pc
    case Wr(stage, _) =>
      if (stage.Releasing? || stage.Returned?) && stage.err != NoErr then Some(stage.err) else None
    case AbortEnter(_, next) => if next.ToRelease? then Some(next.err) else None
    case AbortInput(next) => if next.ToRelease? then Some(next.err) else None
    case OpenFailed(e) => Some(e)
    case _ => None
  }

  predicate ErrorKept(x: Actor, c: Choice, ye: (Actor, Effect)) {
    x.role.Opener? && ErrorOf(ye.0).Some? ==>
      ErrorOf(ye.0) == ErrorOf(x) || Fails(x, c, ErrorOf(ye.0).value)
  }

  // ------------------------------------------------------------- one program step

  predicate OriginKept(x: Actor, v: View, c: Choice, ye: (Actor, Effect)) {
    BodyKept(x, c, ye) && CauseKept(x, v, c, ye) && ErrorKept(x, c, ye)
  }

  lemma OriginByWriting(x: Actor, v: View, c: Choice)
    requires PcOk(x.role, x.pc) && x.claimed == {} && x.pc.Wr? && CanWrite(x, v, c) && !x.pc.stage.Returned?
    ensures OriginKept(x, v, c, NextWrite(x, v, c))
  {
    hide Framing.FrameBytes;
  }

  lemma OriginByReturned(x: Actor, v: View, c: Choice)
    requires PcOk(x.role, x.pc) && x.claimed == {} && x.pc.Wr? && CanWrite(x, v, c) && x.pc.stage.Returned?
    ensures OriginKept(x, v, c, NextWrite(x, v, c))
  {
    hide Framing.FrameBytes;
  }

  lemma OriginByCall(x: Actor, v: View, c: Choice)
    requires PcOk(x.role, x.pc) && x.claimed == {} && CanCall(x, v, c)
    ensures OriginKept(x, v, c, NextCall(x, v, c))
  {
    hide Framing.FrameBytes;
  }

  lemma OriginByOpen(x: Actor, v: View, c: Choice)
    requires PcOk(x.role, x.pc) && x.claimed == {} && x.role.Opener? && CanOpen(x, v, c)
    ensures OriginKept(x, v, c, NextOpen(x, v, c))
  {
    hide Framing.FrameBytes;
  }

  lemma OriginByClose(x: Actor, v: View, c: Choice)
    requires PcOk(x.role, x.pc) && x.claimed == {}
    requires PartOf(x.pc) == InClose && x.role.Closer? && CanClose(x, v, c)
    ensures OriginKept(x, v, c, NextClose(x, v, c))
  {
    hide Framing.FrameBytes;
  }

  lemma OriginByOther(x: Actor, v: View, c: Choice)
    requires PcOk(x.role, x.pc) && x.claimed == {} && CanOther(x, c)
    ensures OriginKept(x, v, c, NextOther(x, v, c))
  {
    hide Framing.FrameBytes;
  }

  lemma OriginByNext(x: Actor, v: View, c: Choice)
    requires PcOk(x.role, x.pc) && Can(x, v, c)
    ensures OriginKept(x, v, c, Next(x, v, c))
  {
    hide NextWrite, NextOpen, NextClose, NextCall, NextOther, CanWrite, CanOpen, CanClose, CanCall, CanOther;
    if x.claimed == {} {
      hide OriginKept, PcOk;
      match PartOf(x.pc)
      case InWrite =>
        if x.pc.stage.Returned? {
          OriginByReturned(x, v, c);
        } else {
          OriginByWriting(x, v, c);
        }
      case InCall => OriginByCall(x, v, c);
      case InOpen => OriginByOpen(x, v, c);
      case InClose => OriginByClose(x, v, c);
      case Elsewhere => OriginByOther(x, v, c);
    }
  }

  // ------------------------------------------------------------------ whole steps

  /** An actor's step, with what the shared state looks like afterwards. */
  lemma ActorStep(s: State, a: ActorId, c: Choice)
    requires Roles(s) && Enabled(s, Act(a, c))
    ensures a < |s.actors|
    ensures var t := Apply(s, Act(a, c));
            && (forall b :: 0 <= b < |s.actors| && b != a ==> t.actors[b] == s.actors[b])
            && |s.actors| <= |t.actors| <= |s.actors| + 1 && |s.jobs| <= |t.jobs| <= |s.jobs| + 1
            && (forall j :: 0 <= j < |s.jobs| ==>
                  t.jobs[j].owner == s.jobs[j].owner && t.jobs[j].message == s.jobs[j].message)
            && (|t.jobs| > |s.jobs| ==>
                  t.jobs[|s.jobs|].owner == a && CarriedBy(s.actors[a]) == Some(t.jobs[|s.jobs|].message))
            && (|t.actors| > |s.actors| ==> GivesChild(s.actors[a], c, t.actors[|s.actors|]))
    ensures exists e :: OriginKept(s.actors[a], ViewOf(s, a), c, (Apply(s, Act(a, c)).actors[a], e))
  {
    hide Framing.FrameBytes, Can, Next, PcOk, CauseKept, ErrorKept, ViewOf, CarriedBy, Gives, GivesChild,
         TransitionsAfter, ConnAfter, CompletionsAfter, OpenFilesAfter;
    PcOkOf(s, a);
    var x, v := s.actors[a], ViewOf(s, a);
    OriginByNext(x, v, c);
    var (y, e) := Next(x, v, c);
    assert Apply(s, Act(a, c)).actors[a] == y;
    assert OriginKept(x, v, c, (y, e));
  }

  lemma PcOkOf(s: State, a: ActorId)
    requires Roles(s) && a < |s.actors|
    ensures PcOk(s.actors[a].role, s.actors[a].pc)
  {
  }

  /** Any other step. */
  lemma OtherStep(s: State, step: Step)
    requires Enabled(s, step) && !step.Act?
    ensures var t := Apply(s, step);
            && (forall b :: 0 <= b < |s.actors| ==> SameButContext(s.actors[b], t.actors[b]))
            && |s.actors| <= |t.actors| <= |s.actors| + 1 && |t.jobs| == |s.jobs|
            && (forall j :: 0 <= j < |s.jobs| ==>
                  t.jobs[j].owner == s.jobs[j].owner && t.jobs[j].message == s.jobs[j].message)
            && (|t.actors| > |s.actors| ==> Starting(step) && t.actors[|s.actors|] == Started(s, step))
  {
    hide Framing.FrameBytes, Can, Next, Commit, ViewOf, Started;
  }

  /** An actor that was there before and has a message to write had it before, or the
      step gave it. */
  lemma CarriedBefore(s: State, step: Step, a: ActorId)
    requires Roles(s) && Enabled(s, step) && a < |Apply(s, step).actors| && CarriedBy(Apply(s, step).actors[a]).Some?
    ensures var m := CarriedBy(Apply(s, step).actors[a]).value;
            (a < |s.actors| && CarriedBy(s.actors[a]) == Some(m)) || GivenBy(s, step, a, m)
  {
    hide Framing.FrameBytes, Enabled, Apply, Roles, CauseKept, ErrorKept;
    if step.Act? {
      ActorStep(s, step.a, step.choice);
    } else {
      OtherStep(s, step);
      if a < |s.actors| {
        assert SameButContext(s.actors[a], Apply(s, step).actors[a]);
      }
    }
  }

  lemma AbortingBefore(s: State, step: Step, a: ActorId)
    requires Roles(s) && Enabled(s, step) && a < |Apply(s, step).actors| && Apply(s, step).actors[a].pc.AbortEnter?
    ensures var pc := Apply(s, step).actors[a].pc;
            (a < |s.actors| && s.actors[a].pc == pc) || CausedBy(s, step, a, pc.cause)
  {
    hide Framing.FrameBytes, Enabled, Apply, Roles, BodyKept, ErrorKept, Causes;
    if step.Act? {
      ActorStep(s, step.a, step.choice);
    } else {
      OtherStep(s, step);
      if a < |s.actors| {
        assert SameButContext(s.actors[a], Apply(s, step).actors[a]);
      }
    }
  }

  lemma FailedBefore(s: State, step: Step, a: ActorId)
    requires Roles(s) && Enabled(s, step) && a < |Apply(s, step).actors| && Apply(s, step).actors[a].role.Opener?
    requires ErrorOf(Apply(s, step).actors[a]).Some?
    ensures var e := ErrorOf(Apply(s, step).actors[a]).value;
            (a < |s.actors| && s.actors[a].role.Opener? && ErrorOf(s.actors[a]) == Some(e)) || FailedBy(s, step, a, e)
  {
    hide Framing.FrameBytes, Enabled, Apply, Roles, CauseKept;
    if step.Act? {
      ActorStep(s, step.a, step.choice);
    } else {
      OtherStep(s, step);
      if a < |s.actors| {
        assert SameButContext(s.actors[a], Apply(s, step).actors[a]);
      }
    }
  }

  // ------------------------------------------------------------------- whole runs

  lemma {:induction false} CarriedIsGiven(states: seq<State>, steps: seq<Step>, k: nat, a: ActorId) returns (n: nat)
    requires IsRun(states, steps) && k < |states| && a < |states[k].actors| && CarriedBy(states[k].actors[a]).Some?
    ensures n < k && GivenBy(states[n], steps[n], a, CarriedBy(states[k].actors[a]).value)
    decreases k
  {
    hide Framing.FrameBytes, Inv, Enabled, Apply, GivenBy;
    if k > 0 {
      hide Init, CarriedBy;
      InvRun(states, steps, k - 1);
      RolesOf(states[k - 1]);
      assert Enabled(states[k - 1], steps[k - 1]) && states[k - 1 + 1] == Apply(states[k - 1], steps[k - 1]);
      CarriedBefore(states[k - 1], steps[k - 1], a);
      if GivenBy(states[k - 1], steps[k - 1], a, CarriedBy(states[k].actors[a]).value) {
        n := k - 1;
      } else {
        n := CarriedIsGiven(states, steps, k - 1, a);
      }
    }
  }

  /** Every frame carries the message that its writer was given: a request the body its
      call was started with, under the call's own id, a didOpen the text that was read
      for its file, and likewise for all other kinds. */
  lemma {:induction false} FrameCarriesItsBody(states: seq<State>, steps: seq<Step>, k: nat, j: nat) returns (n: nat)
    requires IsRun(states, steps) && k < |states| && j < |states[k].jobs|
    ensures n < k && GivenBy(states[n], steps[n], states[k].jobs[j].owner, states[k].jobs[j].message)
    decreases k
  {
    hide Framing.FrameBytes, Inv, Enabled, Apply, GivenBy, CarriedBy;
    if k > 0 {
      hide Init;
      var s, step := states[k - 1], steps[k - 1];
      InvRun(states, steps, k - 1);
      RolesOf(s);
      assert Enabled(states[k - 1], steps[k - 1]) && states[k - 1 + 1] == Apply(states[k - 1], steps[k - 1]);
      if step.Act? {
        ActorStep(s, step.a, step.choice);
      } else {
        OtherStep(s, step);
      }
      if j < |s.jobs| {
        n := FrameCarriesItsBody(states, steps, k - 1, j);
      } else {
        n := CarriedIsGiven(states, steps, k - 1, step.a);
      }
    }
  }

  /** Every abort has the cause of the step that called it. */
  lemma {:induction false} AbortHasCause(states: seq<State>, steps: seq<Step>, k: nat, a: ActorId) returns (n: nat)
    requires IsRun(states, steps) && k < |states| && a < |states[k].actors| && states[k].actors[a].pc.AbortEnter?
    ensures n < k && CausedBy(states[n], steps[n], a, states[k].actors[a].pc.cause)
    decreases k
  {
    hide Framing.FrameBytes, Inv, Enabled, Apply, CausedBy;
    if k > 0 {
      hide Init;
      InvRun(states, steps, k - 1);
      RolesOf(states[k - 1]);
      assert Enabled(states[k - 1], steps[k - 1]) && states[k - 1 + 1] == Apply(states[k - 1], steps[k - 1]);
      AbortingBefore(states[k - 1], steps[k - 1], a);
      if CausedBy(states[k - 1], steps[k - 1], a, states[k].actors[a].pc.cause) {
        n := k - 1;
      } else {
        n := AbortHasCause(states, steps, k - 1, a);
      }
    }
  }

  lemma {:induction false} ErrorHasStep(states: seq<State>, steps: seq<Step>, k: nat, a: ActorId, e: WriteErr)
      returns (n: nat)
    requires IsRun(states, steps) && k < |states| && a < |states[k].actors| && states[k].actors[a].role.Opener?
    requires ErrorOf(states[k].actors[a]) == Some(e)
    ensures n < k && FailedBy(states[n], steps[n], a, e)
    decreases k
  {
    hide Framing.FrameBytes, Inv, Enabled, Apply, FailedBy;
    if k > 0 {
      hide Init, ErrorOf;
      InvRun(states, steps, k - 1);
      RolesOf(states[k - 1]);
      assert Enabled(states[k - 1], steps[k - 1]) && states[k - 1 + 1] == Apply(states[k - 1], steps[k - 1]);
      FailedBefore(states[k - 1], steps[k - 1], a);
      if FailedBy(states[k - 1], steps[k - 1], a, e) {
        n := k - 1;
      } else {
        n := ErrorHasStep(states, steps, k - 1, a, e);
      }
    }
  }
}
