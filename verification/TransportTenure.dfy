/**
 Writer goroutines and the write gate: a goroutine that has not reported its
 result has its owner waiting for it inside writeFrameLocked, with the gate, unless
 the connection was aborted.
 */
module TransportTenure {
  import opened Wrappers
  import opened Connection
  import opened TransportModel
  import opened TransportGate
  import opened TransportWire
  import Framing

  /** The points of writeFrameLocked at which a goroutine may be running. */
  predicate InFrame(pc: Pc) {
    match pc
    case Wr(stage, _) => stage.Writing? || stage.Awaiting?
    case AbortEnter(_, next) => next.ToRelease?
    case _ => false
  }

  predicate Running(job: Job) {
    !job.phase.Reported?
  }

  predicate Awaited(s: State, j: nat)
    requires j < |s.jobs|
  {
    var o := s.jobs[j].owner;
    o < |s.actors| && s.actors[o].job == Some(j) && InFrame(s.actors[o].pc)
  }

  ghost predicate Tenure(s: State) {
    forall j: nat :: j < |s.jobs| && Running(s.jobs[j]) ==> s.conn.phase == Aborted || Awaited(s, j)
  }

  /** An actor leaves writeFrameLocked behind a running goroutine only by an abort,
      and starts a goroutine only to wait for it. */
  predicate TenureKept(x: Actor, v: View, ye: (Actor, Effect)) {
    var (y, e) := ye;
    && (v.conn.phase == Aborted ==> ConnAfter(v.conn, e).phase == Aborted)
    && (InFrame(x.pc) && v.job.Some? && Running(v.job.value) ==>
          (InFrame(y.pc) && y.job == x.job) || ConnAfter(v.conn, e).phase == Aborted)
    && (e.NewJob? ==> InFrame(y.pc) && y.job == Some(v.jobCount) && !InFrame(x.pc))
  }

  lemma TenureByWrite(x: Actor, v: View, c: Choice, idle: bool)
    requires LocalPre(x, v, idle) && x.claimed == {} && x.pc.Wr? && CanWrite(x, v, c)
    ensures TenureKept(x, v, NextWrite(x, v, c))
  {
    hide Framing.FrameBytes;
  }

  lemma TenureByOther(x: Actor, v: View, c: Choice, idle: bool)
    requires LocalPre(x, v, idle) && x.claimed == {} && PartOf(x.pc) == Elsewhere && CanOther(x, c)
    ensures TenureKept(x, v, NextOther(x, v, c))
  {
    hide Framing.FrameBytes;
  }

  lemma TenureByRest(x: Actor, v: View, c: Choice, idle: bool)
    requires LocalPre(x, v, idle) && Can(x, v, c)
    requires x.claimed != {} || PartOf(x.pc) == InCall || PartOf(x.pc) == InOpen || PartOf(x.pc) == InClose
    ensures TenureKept(x, v, Next(x, v, c))
  {
    hide Framing.FrameBytes, NextWrite, NextOther, CanWrite, CanOther;
  }

  lemma TenureByNext(x: Actor, v: View, c: Choice, idle: bool)
    requires LocalPre(x, v, idle) && Can(x, v, c)
    ensures TenureKept(x, v, Next(x, v, c))
  {
    hide Framing.FrameBytes, LocalPre, NextWrite, NextOther, NextCall, NextOpen, NextClose, TenureKept;
    if x.claimed == {} && PartOf(x.pc) == InWrite {
      TenureByWrite(x, v, c, idle);
    } else if x.claimed == {} && PartOf(x.pc) == Elsewhere {
      TenureByOther(x, v, c, idle);
    } else {
      TenureByRest(x, v, c, idle);
    }
  }

  lemma TenureCommit(s: State, a: ActorId, y: Actor, e: Effect)
    requires Tenure(s) && IsActor(s, a) && TenureKept(s.actors[a], ViewOf(s, a), (y, e))
    ensures Tenure(Commit(s, a, y, e))
  {
    hide Framing.FrameBytes, ConnAfter, InFrame;
    var t := Commit(s, a, y, e);
    forall j: nat | j < |t.jobs| && Running(t.jobs[j])
      ensures t.conn.phase == Aborted || Awaited(t, j)
    {
      if j < |s.jobs| {
        assert t.jobs[j].owner == s.jobs[j].owner && Running(s.jobs[j]);
        assert s.conn.phase == Aborted || Awaited(s, j);
      }
    }
  }

  lemma TenureStep(s: State, step: Step)
    requires Roles(s) && Gate(s) && Wire(s) && Tenure(s) && Enabled(s, step)
    ensures Tenure(Apply(s, step))
  {
    if step.Act? {
      hide Framing.FrameBytes, Can, Next, Commit, LocalPre, TenureKept, Roles, Gate, Wire, Tenure;
      PreOfAct(s, step.a);
      TenureByNext(s.actors[step.a], ViewOf(s, step.a), step.choice, Idle(s.jobs));
      var (y, e) := Next(s.actors[step.a], ViewOf(s, step.a), step.choice);
      TenureCommit(s, step.a, y, e);
    } else {
      hide Framing.FrameBytes, Can, Next, Commit, ViewOf, Roles, Gate, Wire;
      var t := Apply(s, step);
      assert |t.jobs| == |s.jobs|;
      forall j: nat | j < |t.jobs| && Running(t.jobs[j])
        ensures t.conn.phase == Aborted || Awaited(t, j)
      {
        assert t.jobs[j].owner == s.jobs[j].owner && Running(s.jobs[j]);
        assert s.conn.phase == Aborted || Awaited(s, j);
      }
    }
  }

  /** Hence the gate is still the owner's. */
  lemma RunningHasGate(s: State, j: nat)
    requires Gate(s) && Tenure(s) && j < |s.jobs| && Running(s.jobs[j])
    ensures s.conn.phase == Aborted || s.gate == Some(s.jobs[j].owner)
  {
    if s.conn.phase != Aborted {
      assert Awaited(s, j);
      assert Holds(s.actors[s.jobs[j].owner].pc);
    }
  }
}
