/**
 Which result a request gets: the step that takes it out of the pending table fixes
 it, and every result comes from such a step.
 */
module TransportAnswers {
  import opened Wrappers
  import opened Connection
  import opened TransportModel
  import opened TransportGate
  import opened TransportPending
  import opened TransportTheorems
  import Framing

  // ------------------------------------------------------------ one program step

  /** Alternative `c` of actor `x`, number `me`, ends the pending request `r` with `o`:
      the server's response goes to the request it names, a failed write and a
      cancellation end the actor's own request, and a drain ends every request with the
      cause of the drain. */
  predicate EndsHere(x: Actor, me: ActorId, conn: Conn, c: Choice, r: RequestId, o: Outcome) {
    && x.claimed == {} && r in conn.pending
    && match o
       case Response(body) => x.role.Reader? && x.pc == ReadLoop && c == Deliver(r, body)
       case Broken(cause) =>
         || (x.pc.AbortEnter? && x.pc.cause == cause)
         || (x.role.Reader? && x.pc == ReadLoop && c == Break(cause) && conn.phase == Closing)
         || (x.role.Closer? && x.pc.CloseBegin? && cause == ProviderClosed && conn.phase == Open)
         || (x.role.Closer? && x.pc == CloseReap && cause == ProviderClosed && conn.phase == Closing)
       case WriteError =>
         && RequestOf(x.role) == Some(r) && x.pc.Wr? && x.pc.stage.Returned? && x.pc.stage.err != NoErr
         && x.pc.message.kind != Exit
       case CallerCanceled(b) =>
         b == me && RequestOf(x.role) == Some(r) && x.pc.Waiting? && c == GiveUp && x.canceled
  }

  /** What leaves the table goes to the actor's hands with the outcome it ends with. */
  ghost predicate TakenAs(x: Actor, v: View, c: Choice, ye: (Actor, Effect)) {
    forall r :: r in v.conn.pending && r !in ConnAfter(v.conn, ye.1).pending ==>
      r in ye.0.claimed && EndsHere(x, v.me, v.conn, c, r, ye.0.verdict)
  }

  /** And whatever ends here is taken. */
  ghost predicate EndedAs(x: Actor, v: View, c: Choice, ye: (Actor, Effect)) {
    forall r, o :: EndsHere(x, v.me, v.conn, c, r, o) ==> r in ye.0.claimed && ye.0.verdict == o
  }

  ghost predicate Kept(x: Actor, v: View, c: Choice, ye: (Actor, Effect)) {
    TakenAs(x, v, c, ye) && EndedAs(x, v, c, ye)
  }

  /** The phases in which a request can be pending. */
  predicate LivePending(conn: Conn) {
    conn.phase == Closed || conn.phase == Aborted ==> conn.pending == {}
  }

  lemma TakenByWrite(x: Actor, v: View, c: Choice)
    requires PcOk(x.role, x.pc) && LivePending(v.conn) && x.claimed == {} && x.pc.Wr? && CanWrite(x, v, c)
    ensures Kept(x, v, c, NextWrite(x, v, c))
  {
    hide Framing.FrameBytes;
  }

  lemma TakenByCall(x: Actor, v: View, c: Choice)
    requires PcOk(x.role, x.pc) && LivePending(v.conn) && x.claimed == {} && CanCall(x, v, c)
    ensures Kept(x, v, c, NextCall(x, v, c))
  {
    hide Framing.FrameBytes;
  }

  lemma TakenByOpen(x: Actor, v: View, c: Choice)
    requires PcOk(x.role, x.pc) && LivePending(v.conn) && x.claimed == {} && x.role.Opener? && CanOpen(x, v, c)
    ensures Kept(x, v, c, NextOpen(x, v, c))
  {
    hide Framing.FrameBytes;
  }

  lemma TakenByClose(x: Actor, v: View, c: Choice)
    requires PcOk(x.role, x.pc) && LivePending(v.conn) && x.claimed == {}
    requires PartOf(x.pc) == InClose && x.role.Closer? && CanClose(x, v, c)
    ensures Kept(x, v, c, NextClose(x, v, c))
  {
    hide Framing.FrameBytes;
  }

  lemma TakenByOther(x: Actor, v: View, c: Choice)
    requires PcOk(x.role, x.pc) && LivePending(v.conn) && x.claimed == {} && CanOther(x, c)
    ensures Kept(x, v, c, NextOther(x, v, c))
  {
    hide Framing.FrameBytes;
  }

  lemma TakenByNext(x: Actor, v: View, c: Choice)
    requires PcOk(x.role, x.pc) && LivePending(v.conn) && Can(x, v, c)
    ensures Kept(x, v, c, Next(x, v, c))
  {
    hide NextWrite, NextOpen, NextClose, NextCall, NextOther, CanWrite, CanOpen, CanClose, CanCall, CanOther;
    if x.claimed == {} {
      hide Kept;
      match PartOf(x.pc)
      case InWrite => TakenByWrite(x, v, c);
      case InCall => TakenByCall(x, v, c);
      case InOpen => TakenByOpen(x, v, c);
      case InClose => TakenByClose(x, v, c);
      case Elsewhere => TakenByOther(x, v, c);
    }
  }

  // ------------------------------------------------------------------ whole steps

  /** The step of an actor that ends the pending request `r` with `o`. */
  predicate Ends(s: State, step: Step, r: RequestId, o: Outcome) {
    step.Act? && IsActor(s, step.a) && EndsHere(s.actors[step.a], step.a, s.conn, step.choice, r, o)
  }

  /** The request has ended with `o`, or someone has it in hand to end it so. */
  ghost predicate Fated(s: State, r: RequestId, o: Outcome) {
    && r in s.completions
    && (s.completions[r] == [o] || (s.completions[r] == [] && Holder(s, r, o)))
  }

  ghost predicate Holder(s: State, r: RequestId, o: Outcome) {
    exists a :: 0 <= a < |s.actors| && r in s.actors[a].claimed && s.actors[a].verdict == o
  }

  lemma LiveOf(s: State)
    requires Pending(s)
    ensures LivePending(s.conn)
  {
    hide Table, Ids;
  }

  /** A step that ends a request fixes its result. */
  lemma EndsFates(s: State, step: Step, r: RequestId, o: Outcome)
    requires Roles(s) && Pending(s) && Enabled(s, step) && Ends(s, step, r, o)
    ensures Fated(Apply(s, step), r, o)
  {
    hide Framing.FrameBytes, Can, Next, Phases, EndsHere, Table, Ids, Pending;
    LiveOf(s);
    PendingAct(s, step.a, step.choice);
    var x, v := s.actors[step.a], ViewOf(s, step.a);
    TakenByNext(x, v, step.choice);
    var (y, e) := Next(x, v, step.choice);
    var t := Apply(s, step);
    assert t.actors[step.a] == y;
    assert r in t.actors[step.a].claimed;
    HandsOpen(t, step.a, r);
  }

  lemma HandsOpen(s: State, a: ActorId, r: RequestId)
    requires Pending(s) && a < |s.actors| && r in s.actors[a].claimed
    ensures r in s.completions && s.completions[r] == []
  {
    hide Ids, Phases, InHands;
  }

  /** A fixed result stays fixed. */
  lemma FatedStep(s: State, step: Step, r: RequestId, o: Outcome)
    requires Roles(s) && Pending(s) && Enabled(s, step) && Fated(s, r, o)
    ensures Fated(Apply(s, step), r, o)
  {
    hide Framing.FrameBytes, Can, Next, Pending, Commit, Enabled, Apply, Fated;
    if step.Act? {
      FatedAct(s, step.a, step.choice, r, o);
    } else {
      BackgroundStep(s, step);
      FatedInBackground(s, Apply(s, step), r, o);
    }
  }

  lemma FatedInBackground(s: State, t: State, r: RequestId, o: Outcome)
    requires Background(s, t) && Fated(s, r, o)
    ensures Fated(t, r, o)
  {
    if s.completions[r] == [] {
      var a :| 0 <= a < |s.actors| && r in s.actors[a].claimed && s.actors[a].verdict == o;
      assert SameButContext(s.actors[a], t.actors[a]);
    }
  }

  lemma FatedAct(s: State, a: ActorId, c: Choice, r: RequestId, o: Outcome)
    requires Roles(s) && Pending(s) && Enabled(s, Act(a, c)) && Fated(s, r, o)
    ensures Fated(Apply(s, Act(a, c)), r, o)
  {
    hide Framing.FrameBytes, Can, Next, Pending, Commit, Fated;
    var x, v := s.actors[a], ViewOf(s, a);
    ClaimByNext(x, v, c);
    var (y, e) := Next(x, v, c);
    FatedCommit(s, a, y, e, r, o);
  }

  lemma FatedCommit(s: State, a: ActorId, y: Actor, e: Effect, r: RequestId, o: Outcome)
    requires Pending(s) && IsActor(s, a) && ClaimKept(s.actors[a], ViewOf(s, a), (y, e)) && Fated(s, r, o)
    ensures Fated(Commit(s, a, y, e), r, o)
  {
    hide Phases, InHands, ConnAfter, JobsAfter, TransitionsAfter, OpenFilesAfter;
    var t := Commit(s, a, y, e);
    if s.completions[r] == [] {
      var b :| 0 <= b < |s.actors| && r in s.actors[b].claimed && s.actors[b].verdict == o;
      assert b != a ==> t.actors[b] == s.actors[b];
      assert t.actors[a] == y;
      assert b == a ==> e.Complete?;
    }
  }

  // -------------------------------------------------------------------- whole runs

  /** The step that takes a pending request out of the table fixes its result: from
      then on, once the request is completed, that is its one result. */
  lemma {:induction false} ResultIsFixed(
      states: seq<State>, steps: seq<Step>, i: nat, k: nat, r: RequestId, o: Outcome)
    requires IsRun(states, steps) && i < k < |states| && Ends(states[i], steps[i], r, o)
    ensures Fated(states[k], r, o) && r !in states[k].conn.pending
    ensures Completed(states[k], r) ==> states[k].completions[r] == [o]
    decreases k
  {
    hide Framing.FrameBytes, Inv, Enabled, Apply, Init, Ends, Pending, Fated;
    InvRun(states, steps, k - 1);
    RolesOf(states[k - 1]);
    PendingOf(states[k - 1]);
    assert Enabled(states[k - 1], steps[k - 1]) && states[k - 1 + 1] == Apply(states[k - 1], steps[k - 1]);
    if i == k - 1 {
      EndsFates(states[i], steps[i], r, o);
    } else {
      ResultIsFixed(states, steps, i, k - 1, r, o);
      FatedStep(states[k - 1], steps[k - 1], r, o);
    }
    InvRun(states, steps, k);
    PendingOf(states[k]);
    FatedIsGone(states[k], r, o);
  }

  lemma FatedIsGone(s: State, r: RequestId, o: Outcome)
    requires Pending(s) && Fated(s, r, o)
    ensures r !in s.conn.pending && (Completed(s, r) ==> s.completions[r] == [o])
  {
    hide Ids, Phases, InHands;
  }

  /** In particular the call whose id a response carries gets exactly that response. */
  lemma AnswerIsDelivered(
      states: seq<State>, steps: seq<Step>, i: nat, k: nat, a: ActorId, r: RequestId, body: string)
    requires IsRun(states, steps) && i < k < |states|
    requires steps[i] == Act(a, Deliver(r, body)) && r in states[i].conn.pending
    ensures r !in states[k].conn.pending
    ensures Completed(states[k], r) ==> states[k].completions[r] == [Response(body)]
  {
    hide Framing.FrameBytes, Inv, Apply, Init, Pending;
    InvRun(states, steps, i);
    RolesOf(states[i]);
    assert Enabled(states[i], steps[i]);
    DeliverIsRead(states[i], a, r, body);
    ResultIsFixed(states, steps, i, k, r, Response(body));
  }

  lemma DeliverIsRead(s: State, a: ActorId, r: RequestId, body: string)
    requires Roles(s) && Enabled(s, Act(a, Deliver(r, body))) && r in s.conn.pending
    ensures Ends(s, Act(a, Deliver(r, body)), r, Response(body))
  {
    hide Framing.FrameBytes;
    assert PcOk(s.actors[a].role, s.actors[a].pc);
  }

  /** A response for a request that is not pending changes nothing at all. */
  lemma LateAnswerIsIgnored(s: State, a: ActorId, r: RequestId, body: string)
    requires Enabled(s, Act(a, Deliver(r, body))) && r !in s.conn.pending
    ensures Apply(s, Act(a, Deliver(r, body))) == s
  {
    hide Framing.FrameBytes;
    assert s.actors[a := s.actors[a]] == s.actors;
  }

  /** The request is in the table, or it has a fixed result. */
  lemma {:induction false} ResultHasOrigin(
      states: seq<State>, steps: seq<Step>, k: nat, r: RequestId, o: Outcome) returns (i: nat)
    requires IsRun(states, steps) && k < |states| && Fated(states[k], r, o)
    ensures i < k && Ends(states[i], steps[i], r, o)
    decreases k
  {
    hide Framing.FrameBytes, Inv, Enabled, Apply, Init, Ends, Pending, Fated;
    if k == 0 {
      NothingAtFirst(r, o);
    } else {
      InvRun(states, steps, k - 1);
      RolesOf(states[k - 1]);
      PendingOf(states[k - 1]);
      assert Enabled(states[k - 1], steps[k - 1]) && states[k - 1 + 1] == Apply(states[k - 1], steps[k - 1]);
      FatedBefore(states[k - 1], steps[k - 1], r, o);
      if Ends(states[k - 1], steps[k - 1], r, o) {
        i := k - 1;
      } else {
        i := ResultHasOrigin(states, steps, k - 1, r, o);
      }
    }
  }

  lemma NothingAtFirst(r: RequestId, o: Outcome)
    ensures !Fated(Init(), r, o)
  {
  }

  lemma FatedBefore(s: State, step: Step, r: RequestId, o: Outcome)
    requires Roles(s) && Pending(s) && Enabled(s, step) && Fated(Apply(s, step), r, o)
    ensures Fated(s, r, o) || Ends(s, step, r, o)
  {
    hide Framing.FrameBytes, Can, Next, Pending, Enabled, Apply, Fated, Ends;
    if step.Act? {
      BeforeAct(s, step.a, step.choice, r, o);
    } else {
      BackgroundStep(s, step);
      BeforeBackground(s, Apply(s, step), r, o);
    }
  }

  lemma BeforeBackground(s: State, t: State, r: RequestId, o: Outcome)
    requires Background(s, t) && Fated(t, r, o)
    ensures Fated(s, r, o)
  {
    if t.completions[r] == [] {
      var a :| 0 <= a < |t.actors| && r in t.actors[a].claimed && t.actors[a].verdict == o;
      if a < |s.actors| {
        assert SameButContext(s.actors[a], t.actors[a]);
      }
    }
  }

  lemma BeforeAct(s: State, a: ActorId, c: Choice, r: RequestId, o: Outcome)
    requires Roles(s) && Pending(s) && Enabled(s, Act(a, c)) && Fated(Apply(s, Act(a, c)), r, o)
    ensures Fated(s, r, o) || Ends(s, Act(a, c), r, o)
  {
    hide Framing.FrameBytes, Can, Next, Pending, Commit, Fated, EndsHere;
    LiveOf(s);
    var x, v := s.actors[a], ViewOf(s, a);
    ClaimByNext(x, v, c);
    TakenByNext(x, v, c);
    BeforeCommit(s, a, c, Next(x, v, c).0, Next(x, v, c).1, r, o);
  }

  lemma BeforeCommit(s: State, a: ActorId, c: Choice, y: Actor, e: Effect, r: RequestId, o: Outcome)
    requires Pending(s) && IsActor(s, a) && ClaimKept(s.actors[a], ViewOf(s, a), (y, e))
    requires TakenAs(s.actors[a], ViewOf(s, a), c, (y, e)) && Fated(Commit(s, a, y, e), r, o)
    ensures Fated(s, r, o) || Ends(s, Act(a, c), r, o)
  {
    hide Commit, Pending, ClaimKept, TakenAs, EndsHere;
    if Commit(s, a, y, e).completions[r] == [] {
      BeforeHolding(s, a, c, y, e, r, o);
    } else {
      BeforeCompleting(s, a, y, e, r, o);
    }
  }

  lemma BeforeCompleting(s: State, a: ActorId, y: Actor, e: Effect, r: RequestId, o: Outcome)
    requires Pending(s) && IsActor(s, a) && ClaimKept(s.actors[a], ViewOf(s, a), (y, e))
    requires r in Commit(s, a, y, e).completions && Commit(s, a, y, e).completions[r] == [o]
    ensures Fated(s, r, o)
  {
    hide Phases, Ids, InHands, ConnAfter, JobsAfter, TransitionsAfter, OpenFilesAfter;
    if e.Complete? && e.r == r {
      assert r in s.actors[a].claimed;
      HandsOpen(s, a, r);
      assert [e.outcome][0] == [o][0];
      assert s.actors[a].verdict == o;
    }
  }

  lemma BeforeHolding(s: State, a: ActorId, c: Choice, y: Actor, e: Effect, r: RequestId, o: Outcome)
    requires Pending(s) && IsActor(s, a) && ClaimKept(s.actors[a], ViewOf(s, a), (y, e))
    requires TakenAs(s.actors[a], ViewOf(s, a), c, (y, e)) && Holder(Commit(s, a, y, e), r, o)
    ensures Fated(s, r, o) || Ends(s, Act(a, c), r, o)
  {
    hide Phases, EndsHere, JobsAfter, TransitionsAfter, OpenFilesAfter, CompletionsAfter, Pending;
    var t := Commit(s, a, y, e);
    assert t.actors[a] == y;
    var b :| 0 <= b < |t.actors| && r in t.actors[b].claimed && t.actors[b].verdict == o;
    if b != a {
      assert b < |s.actors| && t.actors[b] == s.actors[b];
      HandsOpen(s, b, r);
    } else if e.Complete? {
      HandsOpen(s, a, r);
    } else {
      assert r in s.conn.pending && r !in ConnAfter(s.conn, e).pending by { ClaimedWasPending(s, a, y, e, r); }
    }
  }

  lemma ClaimedWasPending(s: State, a: ActorId, y: Actor, e: Effect, r: RequestId)
    requires Pending(s) && IsActor(s, a) && ClaimKept(s.actors[a], ViewOf(s, a), (y, e))
    requires r in y.claimed && !e.Complete?
    ensures r in s.conn.pending && r !in ConnAfter(s.conn, e).pending
  {
    hide Phases, InHands;
  }

  /** Every result comes from such a step: a response from the server's response to
      that request, a broken connection from the drain that took the request, with the
      drain's cause, a write error or a cancellation from the request's own caller. */
  lemma EveryResultHasOrigin(states: seq<State>, steps: seq<Step>, k: nat, r: RequestId) returns (i: nat)
    requires IsRun(states, steps) && k < |states| && Completed(states[k], r)
    ensures i < k && Ends(states[i], steps[i], r, states[k].completions[r][0])
    ensures states[k].completions[r] == [states[k].completions[r][0]]
  {
    hide Framing.FrameBytes, Inv, Enabled, Apply, Init, Ends, Pending, Fated;
    InvRun(states, steps, k);
    PendingOf(states[k]);
    CompletedIsFated(states[k], r);
    i := ResultHasOrigin(states, steps, k, r, states[k].completions[r][0]);
  }

  lemma CompletedIsFated(s: State, r: RequestId)
    requires Pending(s) && Completed(s, r)
    ensures s.completions[r] == [s.completions[r][0]] && Fated(s, r, s.completions[r][0])
  {
    hide Ids, Phases, InHands;
  }
}
