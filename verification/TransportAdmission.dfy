/**
 Admission is still good when the frame starts: between admitWrite and the first
 byte the writer has the gate, and without the gate nobody can take the
 connection anywhere but to Aborted.
 */
module TransportAdmission {
  import opened Connection
  import opened TransportModel
  import opened TransportGate
  import opened TransportWire
  import Framing

  predicate AdmissionOk(x: Actor, c: Conn) {
    BeforeJob(x.pc) ==> c.phase == Aborted || Admits(c, PolicyOf(x.pc.message.kind))
  }

  ghost predicate Admission(s: State) {
    forall a: nat :: a < |s.actors| ==> AdmissionOk(s.actors[a], s.conn)
  }

  /** Phase and input change only by an abort, with the gate, or after the input was
      closed. */
  predicate Gated(x: Actor, c: Conn, d: Conn) {
    || d.phase == Aborted
    || (c.phase != Aborted && d.phase == c.phase && d.inputClosed == c.inputClosed)
    || (c.phase != Aborted && (Holds(x.pc) || c.inputClosed))
  }

  predicate AdmissionKept(x: Actor, v: View, ye: (Actor, Effect)) {
    var (y, e) := ye;
    && AdmissionOk(y, ConnAfter(v.conn, e))
    && Gated(x, v.conn, ConnAfter(v.conn, e))
    && (e.Fork? ==> !BeforeJob(e.child.pc))
    && (e.NewJob? ==> BeforeJob(x.pc) && e.message == x.pc.message)
  }

  lemma AdmissionByWrite(x: Actor, v: View, c: Choice, idle: bool)
    requires LocalPre(x, v, idle) && AdmissionOk(x, v.conn) && x.claimed == {} && x.pc.Wr? && CanWrite(x, v, c)
    ensures AdmissionKept(x, v, NextWrite(x, v, c))
  {
    hide Framing.FrameBytes;
  }

  lemma AdmissionByClose(x: Actor, v: View, c: Choice, idle: bool)
    requires LocalPre(x, v, idle) && AdmissionOk(x, v.conn) && x.claimed == {}
    requires PartOf(x.pc) == InClose && x.role.Closer? && CanClose(x, v, c)
    ensures AdmissionKept(x, v, NextClose(x, v, c))
  {
    hide Framing.FrameBytes, WriterOk;
  }

  lemma AdmissionByRest(x: Actor, v: View, c: Choice, idle: bool)
    requires LocalPre(x, v, idle) && AdmissionOk(x, v.conn) && Can(x, v, c)
    requires x.claimed != {} || PartOf(x.pc) == InCall || PartOf(x.pc) == InOpen || PartOf(x.pc) == Elsewhere
    ensures AdmissionKept(x, v, Next(x, v, c))
  {
    hide Framing.FrameBytes, NextWrite, NextClose, CanWrite, CanClose, WriterOk, CloserOk;
  }

  lemma AdmissionByNext(x: Actor, v: View, c: Choice, idle: bool)
    requires LocalPre(x, v, idle) && AdmissionOk(x, v.conn) && Can(x, v, c)
    ensures AdmissionKept(x, v, Next(x, v, c))
  {
    hide Framing.FrameBytes, LocalPre, NextWrite, NextOther, NextCall, NextOpen, NextClose, AdmissionKept, AdmissionOk;
    if x.claimed == {} && PartOf(x.pc) == InWrite {
      AdmissionByWrite(x, v, c, idle);
    } else if x.claimed == {} && PartOf(x.pc) == InClose {
      AdmissionByClose(x, v, c, idle);
    } else {
      AdmissionByRest(x, v, c, idle);
    }
  }

  /** What another actor does cannot take an admission back. */
  lemma AdmissionStable(z: Actor, x: Actor, c: Conn, d: Conn)
    requires AdmissionOk(z, c) && Gated(x, c, d) && (BeforeJob(z.pc) ==> !Holds(x.pc))
    requires PastAdmission(z.pc) ==> !c.inputClosed || c.phase == Aborted
    ensures AdmissionOk(z, d)
  {
  }

  lemma AdmissionCommit(s: State, a: ActorId, y: Actor, e: Effect)
    requires Gate(s) && Wire(s) && Admission(s) && IsActor(s, a) && AdmissionKept(s.actors[a], ViewOf(s, a), (y, e))
    ensures Admission(Commit(s, a, y, e))
  {
    hide Framing.FrameBytes, ConnAfter, WriterOk, CloserOk, JobsOk;
    var t := Commit(s, a, y, e);
    forall b: nat | b < |t.actors|
      ensures AdmissionOk(t.actors[b], t.conn)
    {
      if b != a && b < |s.actors| {
        assert ActorOk(s, b);
        AdmissionStable(s.actors[b], s.actors[a], s.conn, t.conn);
      }
    }
  }

  lemma AdmissionStep(s: State, step: Step)
    requires Roles(s) && Gate(s) && Wire(s) && Admission(s) && Enabled(s, step)
    ensures Admission(Apply(s, step))
  {
    if step.Act? {
      assert AdmissionOk(s.actors[step.a], s.conn);
      hide Framing.FrameBytes, Can, Next, Commit, LocalPre, AdmissionKept, Roles, Gate, Wire, Admission, AdmissionOk;
      PreOfAct(s, step.a);
      AdmissionByNext(s.actors[step.a], ViewOf(s, step.a), step.choice, Idle(s.jobs));
      var (y, e) := Next(s.actors[step.a], ViewOf(s, step.a), step.choice);
      AdmissionCommit(s, step.a, y, e);
    } else {
      hide Framing.FrameBytes, Can, Next, Commit, ViewOf, Roles, Gate, Wire;
      BackgroundStep(s, step);
      var t := Apply(s, step);
      forall a: nat | a < |t.actors|
        ensures AdmissionOk(t.actors[a], t.conn)
      {
        if a < |s.actors| {
          assert AdmissionOk(s.actors[a], s.conn);
        }
      }
    }
  }

  lemma OnlyActsStart(s: State, step: Step)
    requires Enabled(s, step) && !step.Act?
    ensures |Apply(s, step).jobs| == |s.jobs|
  {
    hide Framing.FrameBytes, Can, Next, Commit, ViewOf;
  }

  lemma StartedMessage(s: State, a: ActorId, y: Actor, e: Effect)
    requires IsActor(s, a) && |Commit(s, a, y, e).jobs| > |s.jobs|
    ensures e.NewJob? && Commit(s, a, y, e).jobs[|s.jobs|].message == e.message
  {
    hide Framing.FrameBytes, ConnAfter, CompletionsAfter, TransitionsAfter, OpenFilesAfter;
  }

  /** A frame is started only on a connection that admits it at that moment, or that
      was aborted after it had been admitted. */
  lemma StartIsAdmitted(s: State, step: Step)
    requires Roles(s) && Gate(s) && Wire(s) && Admission(s) && Enabled(s, step) && |Apply(s, step).jobs| > |s.jobs|
    ensures var m := Apply(s, step).jobs[|s.jobs|].message;
            s.conn.phase == Aborted || Admits(s.conn, PolicyOf(m.kind))
  {
    if !step.Act? {
      OnlyActsStart(s, step);
    } else {
      assert AdmissionOk(s.actors[step.a], s.conn);
      hide Framing.FrameBytes, Can, Next, LocalPre, Commit, ConnAfter, Roles, Gate, Wire, Admission;
      PreOfAct(s, step.a);
      AdmissionByNext(s.actors[step.a], ViewOf(s, step.a), step.choice, Idle(s.jobs));
      var (y, e) := Next(s.actors[step.a], ViewOf(s, step.a), step.choice);
      StartedMessage(s, step.a, y, e);
    }
  }
}
