/**
 What the transport owes: a call that is left waiting was sent, an abort closes the
 input, a server request gets its response, and Close says exit once it has begun.
 */
module TransportDuties {
  import opened Wrappers
  import opened Connection
  import opened TransportModel
  import opened TransportGate
  import opened TransportWire
  import opened TransportPending
  import opened TransportTheorems
  import opened TransportOrigins
  import Framing

  // ------------------------------------------------------------- one program step

  /** writeMessage has an error exactly when the frame was not dispatched. */
  predicate HonestReturn(x: Actor) {
    x.pc.Wr? && x.pc.stage.Returned? ==> (x.pc.stage.dispatched <==> x.pc.stage.err == NoErr)
  }

  /** A call that goes on to wait without having been sent gives up its request. */
  predicate WaitKept(x: Actor, v: View, ye: (Actor, Effect)) {
    var (y, e) := ye;
    y.pc == Waiting(false) && x.pc != y.pc && RequestOf(x.role).Some? ==>
      RequestOf(x.role).value !in ConnAfter(v.conn, e).pending
  }

  /** Whoever aborts goes on to close the input. */
  predicate AbortKept(x: Actor, v: View, ye: (Actor, Effect)) {
    var (y, e) := ye;
    && (v.conn.inputClosed ==> ConnAfter(v.conn, e).inputClosed)
    && (ConnAfter(v.conn, e).phase == Aborted && v.conn.phase != Aborted ==> y.pc.AbortInput?)
    && (x.pc.AbortInput? ==> y.pc == x.pc || ConnAfter(v.conn, e).inputClosed)
  }

  /** The connection becomes unavailable by an abort, with its cause, or by Close. */
  predicate CauseRecorded(x: Actor, v: View, ye: (Actor, Effect)) {
    var after := ConnAfter(v.conn, ye.1).unavailable;
    after != v.conn.unavailable ==> Withdraws(x, v.conn, after)
  }

  predicate Withdraws(x: Actor, conn: Conn, cause: Option<Cause>) {
    && conn.phase == Open && x.claimed == {} && cause.Some?
    && (|| (x.pc.AbortEnter? && x.pc.cause == cause.value)
        || (x.role.Closer? && x.pc.CloseBegin? && cause.value == ProviderClosed))
  }

  /** The handshake of Close: the shutdown request, its answer, and then exit. */
  predicate InHandshake(x: Actor) {
    && x.role.Closer?
    && match x.pc
       case Wr(_, m) => m.kind == Shutdown
       case AbortEnter(_, next) => next.ToRelease? && next.message.kind == Shutdown
       case AbortInput(next) => next.ToRelease? && next.message.kind == Shutdown
       case Waiting(_) => true
       case Joining(_, _) => true
       case Concluding(_, _) => true
       case _ => false
  }

  /** About to write exit. */
  predicate SaysExit(x: Actor) {
    x.role.Closer? && x.pc.Wr? && x.pc.stage == Begin && x.pc.message.kind == Exit
  }

  predicate HandshakeKept(x: Actor, v: View, ye: (Actor, Effect)) {
    && (InHandshake(x) ==> InHandshake(ye.0) || SaysExit(ye.0))
    && (x.role.Closer? && x.pc.CloseBegin? && x.claimed == {} && v.conn.phase == Open ==> InHandshake(ye.0))
  }

  predicate DutyKept(x: Actor, v: View, ye: (Actor, Effect)) {
    WaitKept(x, v, ye) && AbortKept(x, v, ye) && CauseRecorded(x, v, ye) && HandshakeKept(x, v, ye)
  }

  lemma DutyByWriting(x: Actor, v: View, c: Choice)
    requires PcOk(x.role, x.pc) && HonestReturn(x) && x.claimed == {} && x.pc.Wr? && CanWrite(x, v, c)
    requires !x.pc.stage.Returned?
    ensures DutyKept(x, v, NextWrite(x, v, c))
  {
    hide Framing.FrameBytes;
  }

  lemma DutyByReturned(x: Actor, v: View, c: Choice)
    requires PcOk(x.role, x.pc) && HonestReturn(x) && x.claimed == {} && x.pc.Wr? && CanWrite(x, v, c)
    requires x.pc.stage.Returned?
    ensures DutyKept(x, v, NextWrite(x, v, c))
  {
    hide Framing.FrameBytes;
  }

  lemma DutyByCall(x: Actor, v: View, c: Choice)
    requires PcOk(x.role, x.pc) && x.claimed == {} && CanCall(x, v, c)
    ensures DutyKept(x, v, NextCall(x, v, c))
  {
    hide Framing.FrameBytes;
  }

  lemma DutyByOpen(x: Actor, v: View, c: Choice)
    requires PcOk(x.role, x.pc) && x.claimed == {} && x.role.Opener? && CanOpen(x, v, c)
    ensures DutyKept(x, v, NextOpen(x, v, c))
  {
    hide Framing.FrameBytes;
  }

  lemma DutyByClose(x: Actor, v: View, c: Choice)
    requires PcOk(x.role, x.pc) && x.claimed == {}
    requires PartOf(x.pc) == InClose && x.role.Closer? && CanClose(x, v, c)
    ensures DutyKept(x, v, NextClose(x, v, c))
  {
    hide Framing.FrameBytes;
  }

  lemma DutyByOther(x: Actor, v: View, c: Choice)
    requires PcOk(x.role, x.pc) && x.claimed == {} && CanOther(x, c)
    ensures DutyKept(x, v, NextOther(x, v, c))
  {
    hide Framing.FrameBytes;
  }

  lemma DutyByNext(x: Actor, v: View, c: Choice)
    requires PcOk(x.role, x.pc) && HonestReturn(x) && Can(x, v, c)
    ensures DutyKept(x, v, Next(x, v, c))
  {
    hide NextWrite, NextOpen, NextClose, NextCall, NextOther, CanWrite, CanOpen, CanClose, CanCall, CanOther;
    if x.claimed == {} {
      hide DutyKept, PcOk, HonestReturn;
      match PartOf(x.pc)
      case InWrite =>
        if x.pc.stage.Returned? {
          DutyByReturned(x, v, c);
        } else {
          DutyByWriting(x, v, c);
        }
      case InCall => DutyByCall(x, v, c);
      case InOpen => DutyByOpen(x, v, c);
      case InClose => DutyByClose(x, v, c);
      case Elsewhere => DutyByOther(x, v, c);
    }
  }

  // ------------------------------------------------------------------ whole steps

  lemma HonestOf(s: State, a: ActorId)
    requires Inv(s) && a < |s.actors|
    ensures HonestReturn(s.actors[a])
  {
    hide Framing.FrameBytes, Inv, StillSent, Dispatched, Owns, CloserOk, ConnOk;
    ActorOkOf(s, a);
  }

  /** An actor's step: what it guarantees, and what stays as it was. */
  lemma DutyOfStep(s: State, a: ActorId, c: Choice, y: Actor, e: Effect)
    requires Inv(s) && Enabled(s, Act(a, c)) && a < |s.actors|
    requires Can(s.actors[a], ViewOf(s, a), c) && (y, e) == Next(s.actors[a], ViewOf(s, a), c)
    ensures DutyKept(s.actors[a], ViewOf(s, a), (y, e)) && ClaimKept(s.actors[a], ViewOf(s, a), (y, e))
    ensures y.role == s.actors[a].role
    ensures var t := Apply(s, Act(a, c));
            && t.conn == ConnAfter(s.conn, e) && |s.actors| <= |t.actors| && t.actors[a] == y
            && (forall b :: 0 <= b < |s.actors| && b != a ==> t.actors[b] == s.actors[b])
            && (forall b :: |s.actors| <= b < |t.actors| ==> t.actors[b].pc.Wr?)
  {
    hide Framing.FrameBytes, Inv, Can, Next, DutyKept, ClaimKept, PcOk, OriginKept, HonestReturn;
    RolesOf(s);
    PcOkOf(s, a);
    HonestOf(s, a);
    DutyByNext(s.actors[a], ViewOf(s, a), c);
    ClaimByNext(s.actors[a], ViewOf(s, a), c);
    KeptByNext(s.actors[a], ViewOf(s, a), c);
    ActorStep(s, a, c);
  }

  // ---------------------------------------------------------------- waiting calls

  /** Nobody waits for a request that was never sent. */
  ghost predicate WaitsWereSent(s: State) {
    forall a :: 0 <= a < |s.actors| && s.actors[a].pc == Waiting(false) && RequestOf(s.actors[a].role).Some? ==>
      RequestOf(s.actors[a].role).value !in s.conn.pending
  }

  /** The request of a waiting call is registered, so it is not registered again. */
  lemma WaiterIsRegistered(s: State, a: ActorId, b: ActorId, y: Actor, e: Effect)
    requires Pending(s) && a < |s.actors| && b < |s.actors| && s.actors[b].pc.Waiting?
    requires ClaimKept(s.actors[a], ViewOf(s, a), (y, e)) && RequestOf(s.actors[b].role).Some?
    ensures var r := RequestOf(s.actors[b].role).value;
            r in ConnAfter(s.conn, e).pending ==> r in s.conn.pending
  {
    hide Table, Phases;
  }

  lemma WaitsAct(s: State, a: ActorId, c: Choice)
    requires Inv(s) && Enabled(s, Act(a, c)) && WaitsWereSent(s)
    ensures WaitsWereSent(Apply(s, Act(a, c)))
  {
    hide Framing.FrameBytes, Inv, Can, Next, Apply, ClaimKept, ConnAfter, AbortKept, CauseRecorded, HandshakeKept,
         Pending;
    var (y, e) := Next(s.actors[a], ViewOf(s, a), c);
    DutyOfStep(s, a, c, y, e);
    PendingOf(s);
    var t := Apply(s, Act(a, c));
    forall b | 0 <= b < |t.actors| && t.actors[b].pc == Waiting(false) && RequestOf(t.actors[b].role).Some?
      ensures RequestOf(t.actors[b].role).value !in t.conn.pending
    {
      if b < |s.actors| && s.actors[b].pc.Waiting? {
        WaiterIsRegistered(s, a, b, y, e);
      }
    }
  }

  lemma WaitsOther(s: State, step: Step)
    requires Enabled(s, step) && !step.Act? && WaitsWereSent(s)
    ensures WaitsWereSent(Apply(s, step))
  {
    hide Enabled, Apply;
    BackgroundStep(s, step);
    var t := Apply(s, step);
    forall b | 0 <= b < |t.actors| && t.actors[b].pc == Waiting(false) && RequestOf(t.actors[b].role).Some?
      ensures RequestOf(t.actors[b].role).value !in t.conn.pending
    {
      if b < |s.actors| {
        assert SameButContext(s.actors[b], t.actors[b]);
      }
    }
  }

  /** A call whose request is still in the table was dispatched in full: a call whose
      write failed is never left to wait for an answer. */
  lemma {:induction false} WaitingCallWasSent(states: seq<State>, steps: seq<Step>, k: nat)
    requires IsRun(states, steps) && k < |states|
    ensures WaitsWereSent(states[k])
  {
    hide Framing.FrameBytes, Inv, Enabled, Apply;
    if k > 0 {
      hide Init, WaitsWereSent;
      WaitingCallWasSent(states, steps, k - 1);
      InvRun(states, steps, k - 1);
      var step := steps[k - 1];
      assert Enabled(states[k - 1], step) && states[k - 1 + 1] == Apply(states[k - 1], step);
      if step.Act? {
        WaitsAct(states[k - 1], step.a, step.choice);
      } else {
        WaitsOther(states[k - 1], step);
      }
    }
  }

  // ----------------------------------------------------------------------- aborts

  /** An aborted connection has its input closed, or someone is about to close it. */
  ghost predicate AbortsClose(s: State) {
    s.conn.phase == Aborted ==> s.conn.inputClosed || SomeoneCloses(s)
  }

  ghost predicate SomeoneCloses(s: State) {
    exists a :: 0 <= a < |s.actors| && s.actors[a].pc.AbortInput?
  }

  lemma AbortsAct(s: State, a: ActorId, c: Choice)
    requires Inv(s) && Enabled(s, Act(a, c)) && AbortsClose(s)
    ensures AbortsClose(Apply(s, Act(a, c)))
  {
    hide Framing.FrameBytes, Inv, Can, Next, Apply, ClaimKept, ConnAfter, WaitKept, CauseRecorded, HandshakeKept;
    var (y, e) := Next(s.actors[a], ViewOf(s, a), c);
    DutyOfStep(s, a, c, y, e);
    var t := Apply(s, Act(a, c));
    if s.conn.phase == Aborted && !s.conn.inputClosed {
      var b :| 0 <= b < |s.actors| && s.actors[b].pc.AbortInput?;
      assert b != a ==> t.actors[b].pc.AbortInput?;
      assert t.actors[a] == y;
    }
  }

  lemma AbortsOther(s: State, step: Step)
    requires Enabled(s, step) && !step.Act? && AbortsClose(s)
    ensures AbortsClose(Apply(s, step))
  {
    hide Enabled, Apply;
    BackgroundStep(s, step);
    var t := Apply(s, step);
    if SomeoneCloses(s) {
      var b :| 0 <= b < |s.actors| && s.actors[b].pc.AbortInput?;
      assert SameButContext(s.actors[b], t.actors[b]);
    }
  }

  lemma {:induction false} AbortClosesInput(states: seq<State>, steps: seq<Step>, k: nat)
    requires IsRun(states, steps) && k < |states|
    ensures AbortsClose(states[k])
  {
    hide Framing.FrameBytes, Inv, Enabled, Apply;
    if k > 0 {
      hide Init, AbortsClose;
      AbortClosesInput(states, steps, k - 1);
      InvRun(states, steps, k - 1);
      var step := steps[k - 1];
      assert Enabled(states[k - 1], step) && states[k - 1 + 1] == Apply(states[k - 1], step);
      if step.Act? {
        AbortsAct(states[k - 1], step.a, step.choice);
      } else {
        AbortsOther(states[k - 1], step);
      }
    }
  }

  // --------------------------------------------------------------- unavailability

  /** The step of an actor that makes the connection unavailable. */
  predicate WithdrawnBy(s: State, step: Step, cause: Option<Cause>) {
    step.Act? && step.a < |s.actors| && Withdraws(s.actors[step.a], s.conn, cause)
  }

  lemma WithdrawnBefore(s: State, step: Step)
    requires Inv(s) && Enabled(s, step)
    ensures Apply(s, step).conn.unavailable == s.conn.unavailable
            || WithdrawnBy(s, step, Apply(s, step).conn.unavailable)
  {
    hide Framing.FrameBytes, Inv, Can, Next, Apply, ClaimKept, ConnAfter, WaitKept, AbortKept, HandshakeKept, Withdraws;
    if step.Act? {
      var (y, e) := Next(s.actors[step.a], ViewOf(s, step.a), step.choice);
      DutyOfStep(s, step.a, step.choice, y, e);
    } else {
      BackgroundStep(s, step);
    }
  }

  /** The recorded cause is that of the abort, or of Close, that ended the open phase. */
  lemma {:induction false} UnavailableHasCause(states: seq<State>, steps: seq<Step>, k: nat) returns (i: nat)
    requires IsRun(states, steps) && k < |states| && states[k].conn.unavailable.Some?
    ensures i < k && WithdrawnBy(states[i], steps[i], states[k].conn.unavailable)
  {
    hide Framing.FrameBytes, Inv, Enabled, Apply, WithdrawnBy;
    if k > 0 {
      hide Init;
      InvRun(states, steps, k - 1);
      var step := steps[k - 1];
      assert Enabled(states[k - 1], step) && states[k - 1 + 1] == Apply(states[k - 1], step);
      WithdrawnBefore(states[k - 1], step);
      if states[k - 1].conn.unavailable == states[k].conn.unavailable {
        i := UnavailableHasCause(states, steps, k - 1);
      } else {
        i := k - 1;
      }
    }
  }

  // ----------------------------------------------------------------- server requests

  /** Every server request starts one responder, which is to write exactly its answer. */
  lemma ServeStartsResponder(s: State, a: ActorId, body: string)
    requires Roles(s) && Enabled(s, Act(a, Serve(body)))
    ensures var t := Apply(s, Act(a, Serve(body)));
            && |t.actors| == |s.actors| + 1 && t.actors[|s.actors|].role == Responder
            && CarriedBy(t.actors[|s.actors|]) == Some(Message(MethodNotFound, body))
            && t.actors[..|s.actors|] == s.actors && t.conn == s.conn && t.jobs == s.jobs
  {
    hide Framing.FrameBytes;
    assert PcOk(s.actors[a].role, s.actors[a].pc);
    var t := Apply(s, Act(a, Serve(body)));
    assert s.actors[a := s.actors[a]] == s.actors;
  }

  /** Which frames are admitted, by what they are: work of callers while open, answers to
      the server until closed, and the farewells while closing. */
  lemma AdmittedByKind(conn: Conn, kind: Kind)
    ensures Admits(conn, PolicyOf(kind)) <==>
              && !conn.inputClosed
              && match kind
                 case Request(_) => conn.phase == Open
                 case Notification => conn.phase == Open
                 case CancelRequest(_) => conn.phase == Open
                 case DidOpen(_, _) => conn.phase == Open
                 case MethodNotFound => conn.phase == Open || conn.phase == Closing
                 case Shutdown => conn.phase == Closing
                 case Exit => conn.phase == Closing
  {
  }

  // ------------------------------------------------------------------------- close

  /** Close began the shutdown in this step. */
  predicate BeginsClose(s: State, step: Step, a: ActorId) {
    && step.Act? && step.a == a && a < |s.actors| && s.actors[a].claimed == {}
    && s.actors[a].role.Closer? && s.actors[a].pc.CloseBegin? && s.conn.phase == Open
  }

  ghost predicate SaidExit(states: seq<State>, i: nat, k: nat, a: ActorId) {
    exists m: nat :: i < m <= k < |states| && a < |states[m].actors| && SaysExit(states[m].actors[a])
  }

  lemma HandshakeStep(s: State, step: Step, a: ActorId)
    requires Inv(s) && Enabled(s, step) && a < |s.actors| && (InHandshake(s.actors[a]) || BeginsClose(s, step, a))
    ensures a < |Apply(s, step).actors|
    ensures InHandshake(Apply(s, step).actors[a]) || SaysExit(Apply(s, step).actors[a])
  {
    hide Framing.FrameBytes, Inv, Can, Next, Apply, ClaimKept, ConnAfter, WaitKept, AbortKept, CauseRecorded;
    if step.Act? {
      var (y, e) := Next(s.actors[step.a], ViewOf(s, step.a), step.choice);
      DutyOfStep(s, step.a, step.choice, y, e);
    } else {
      BackgroundStep(s, step);
      assert SameButContext(s.actors[a], Apply(s, step).actors[a]);
    }
  }

  /** Once it has begun the shutdown, Close is still about the shutdown request or has
      gone on to write exit: it never skips it. */
  lemma {:induction false} CloseSaysExit(states: seq<State>, steps: seq<Step>, i: nat, k: nat, a: ActorId)
    requires IsRun(states, steps) && i < k < |states| && BeginsClose(states[i], steps[i], a)
    ensures a < |states[k].actors| && (InHandshake(states[k].actors[a]) || SaidExit(states, i, k, a))
    decreases k
  {
    hide Framing.FrameBytes, Inv, Enabled, Apply, Init, InHandshake, SaysExit;
    InvRun(states, steps, k - 1);
    assert Enabled(states[k - 1], steps[k - 1]) && states[k - 1 + 1] == Apply(states[k - 1], steps[k - 1]);
    ActorsStay(states[k - 1], steps[k - 1]);
    if i == k - 1 {
      HandshakeStep(states[i], steps[i], a);
    } else {
      CloseSaysExit(states, steps, i, k - 1, a);
      if InHandshake(states[k - 1].actors[a]) {
        HandshakeStep(states[k - 1], steps[k - 1], a);
      } else {
        var m: nat :| i < m <= k - 1 && a < |states[m].actors| && SaysExit(states[m].actors[a]);
        assert SaidExit(states, i, k, a);
      }
    }
    if SaysExit(states[k].actors[a]) {
      assert SaidExit(states, i, k, a);
    }
  }

  lemma ActorsStay(s: State, step: Step)
    requires Inv(s) && Enabled(s, step)
    ensures |s.actors| <= |Apply(s, step).actors|
  {
    hide Framing.FrameBytes, Inv, Can, Next, Apply;
    if step.Act? {
      RolesOf(s);
      ActorStep(s, step.a, step.choice);
    } else {
      BackgroundStep(s, step);
    }
  }

  /** When Close returns the connection is over: closed with its input closed, or
      aborted. */
  lemma CloseEndsConnection(states: seq<State>, steps: seq<Step>, k: nat, a: ActorId)
    requires IsRun(states, steps) && k < |states| && a < |states[k].actors|
    requires states[k].actors[a].role.Closer? && states[k].actors[a].pc.Finished?
    ensures (states[k].conn.phase == Closed && states[k].conn.inputClosed) || states[k].conn.phase == Aborted
  {
    hide Framing.FrameBytes, Inv, Enabled, Apply, Init, WriterOk;
    InvRun(states, steps, k);
    ActorOkOf(states[k], a);
  }
}
