/**
 What every run of the transport guarantees. The statements speak of the states
 of an arbitrary run; the invariants behind them are in the modules imported here.
 */
module TransportTheorems {
  import opened Wrappers
  import opened Connection
  import opened TransportModel
  import opened TransportGate
  import opened TransportWire
  import opened TransportShutdown
  import opened TransportPending
  import opened TransportCalls
  import opened TransportOpens
  import opened TransportTenure
  import opened TransportAdmission
  import Framing

  ghost predicate Inv(s: State) {
    Roles(s) && Gate(s) && Wire(s) && Farewells(s) && Pending(s) && Calls(s) && Opens(s)
    && Tenure(s) && Admission(s)
  }

  lemma InvInit()
    ensures Inv(Init())
  {
    hide Roles, Gate, Wire, Farewells, Pending, Calls, Opens;
    RolesInit();
    WireInit();
    PendingInit();
    CallsInit();
    OpensInit();
  }

  lemma RolesInit()
    ensures Roles(Init()) && Gate(Init())
  {
  }

  lemma WireInit()
    ensures Wire(Init()) && Farewells(Init())
  {
    hide Framing.FrameBytes;
  }

  lemma PendingInit()
    ensures Pending(Init())
  {
  }

  lemma CallsInit()
    ensures Calls(Init())
  {
    hide Framing.FrameBytes;
    assert forall id, k: nat :: !IsSender(Init(), k, id);
    assert forall id, a: nat :: !EndedCanceled(Init(), a, id);
  }

  lemma OpensInit()
    ensures Opens(Init())
  {
    hide Framing.FrameBytes;
  }

  lemma InvStep(s: State, step: Step)
    requires Inv(s) && Enabled(s, step)
    ensures Inv(Apply(s, step))
  {
    hide Roles, Gate, Wire, Farewells, Pending, Calls, Opens, Tenure, Admission, Enabled, Apply;
    RolesStep(s, step);
    TenureStep(s, step);
    AdmissionStep(s, step);
    GateStep(s, step);
    WireStep(s, step);
    FarewellsStep(s, step);
    PendingStep(s, step);
    CallsStep(s, step);
    OpensStep(s, step);
  }

  lemma {:induction false} InvRun(states: seq<State>, steps: seq<Step>, i: nat)
    requires IsRun(states, steps) && i < |states|
    ensures Inv(states[i])
  {
    hide Inv, Enabled, Apply, Init;
    if i == 0 {
      InvInit();
    } else {
      InvRun(states, steps, i - 1);
      assert Enabled(states[i - 1], steps[i - 1]) && states[i - 1 + 1] == Apply(states[i - 1], steps[i - 1]);
      InvStep(states[i - 1], steps[i - 1]);
    }
  }

  // ------------------------------------------------------------ wire integrity

  /** The jobs that wrote their whole frame: all of them, or all but the last. */
  function WholeFrames(jobs: seq<Job>): seq<Job> {
    if jobs == [] || jobs[|jobs| - 1].Complete() then jobs else jobs[..|jobs| - 1]
  }

  function Bodies(jobs: seq<Job>): (bs: seq<string>)
    ensures |bs| == |jobs|
  {
    seq(|jobs|, i requires 0 <= i < |jobs| => jobs[i].message.body)
  }

  lemma {:induction false} BytesOfWhole(jobs: seq<Job>)
    requires Idle(jobs)
    ensures BytesOf(jobs) == Framing.Concat(Bodies(jobs))
  {
    hide Framing.FrameBytes;
    if jobs != [] {
      var n := |jobs| - 1;
      assert Idle(jobs[..n]);
      BytesOfWhole(jobs[..n]);
      assert jobs[n].Complete();
      assert Prefix(jobs[n]) == Framing.FrameBytes(jobs[n].message.body);
      assert Bodies(jobs) == Bodies(jobs[..n]) + [jobs[n].message.body];
      Framing.ConcatAppend(Bodies(jobs[..n]), jobs[n].message.body);
    }
  }

  /** In every state of every run the input holds whole frames in job order and
      then at most a proper prefix of one more frame. Unless the connection was
      aborted, that one belongs to the holder of the write gate. */
  lemma WireIntegrity(states: seq<State>, steps: seq<Step>, i: nat)
    requires IsRun(states, steps) && i < |states|
    ensures var s := states[i];
            var whole := WholeFrames(s.jobs);
            && (forall j :: 0 <= j < |whole| ==> whole[j].Complete())
            && |s.jobs| <= |whole| + 1
            && (|s.jobs| == |whole| ==> s.wire == Framing.Concat(Bodies(whole)))
            && (|s.jobs| > |whole| ==>
                  var cut := s.jobs[|whole|];
                  && cut.written < |cut.message.Bytes()|
                  && s.wire == Framing.Concat(Bodies(whole)) + cut.message.Bytes()[..cut.written]
                  && (s.conn.phase == Aborted || s.gate == Some(cut.owner)))
  {
    hide Framing.FrameBytes, Inv, Enabled, Apply, Init;
    InvRun(states, steps, i);
    WireIntegrityOf(states[i]);
  }

  lemma WireIntegrityOf(s: State)
    requires Inv(s)
    ensures var whole := WholeFrames(s.jobs);
            && Idle(whole)
            && |s.jobs| <= |whole| + 1
            && (|s.jobs| == |whole| ==> s.wire == Framing.Concat(Bodies(whole)))
            && (|s.jobs| > |whole| ==>
                  var cut := s.jobs[|whole|];
                  && cut.written < |cut.message.Bytes()|
                  && s.wire == Framing.Concat(Bodies(whole)) + cut.message.Bytes()[..cut.written]
                  && (s.conn.phase == Aborted || s.gate == Some(cut.owner)))
  {
    hide Framing.FrameBytes, Farewells, Pending, Calls, Opens, Tenure, Admission, ActorsOk;
    var whole := WholeFrames(s.jobs);
    BytesOfWhole(whole);
    if |s.jobs| > |whole| {
      assert JobOk(s.jobs[|whole|]);
      assert s.conn.phase == Aborted || Busy(s, |whole|);
    }
  }

  /** What the server decodes, in every state of every run, is exactly the bodies
      of the frames that were written in full: never a fragment, a mixture or a
      reordering of messages. */
  lemma ServerReadsMessages(states: seq<State>, steps: seq<Step>, i: nat)
    requires IsRun(states, steps) && i < |states|
    requires Framing.Fits(Bodies(states[i].jobs))
    ensures Framing.ReadAll(states[i].wire) == (Bodies(WholeFrames(states[i].jobs)), Framing.EndOfInput)
  {
    hide Framing.FrameBytes, Inv, Enabled, Apply, Init;
    WireIntegrity(states, steps, i);
    var s := states[i];
    var whole := WholeFrames(s.jobs);
    forall k | 0 <= k < |whole|
      ensures |Bodies(whole)[k]| <= Framing.MAX_INT
    {
      assert Bodies(whole)[k] == Bodies(s.jobs)[k];
    }
    if |s.jobs| > |whole| {
      var cut := s.jobs[|whole|];
      assert Bodies(s.jobs)[|whole|] == cut.message.body;
      Framing.StreamRoundTrip(Bodies(whole), cut.message.body, cut.written);
    } else {
      Framing.StreamRoundTrip(Bodies(whole), "", 0);
      assert s.wire + Framing.FrameBytes("")[..0] == s.wire;
    }
  }

  /** A writer goroutine outlives its owner's tenure of the gate only on an aborted
      connection, and then no further frame was started after its own. */
  lemma WriterOutlivesGate(states: seq<State>, steps: seq<Step>, i: nat, j: nat)
    requires IsRun(states, steps) && i < |states| && j < |states[i].jobs| && !states[i].jobs[j].phase.Reported?
    ensures var s := states[i];
            && (s.conn.phase == Aborted || s.gate == Some(s.jobs[j].owner))
            && (!s.jobs[j].Complete() ==> j == |s.jobs| - 1)
  {
    hide Framing.FrameBytes, Inv, Enabled, Apply, Init;
    InvRun(states, steps, i);
    TenureOf(states[i], j);
  }

  lemma TenureOf(s: State, j: nat)
    requires Inv(s) && j < |s.jobs| && Running(s.jobs[j])
    ensures s.conn.phase == Aborted || s.gate == Some(s.jobs[j].owner)
    ensures !s.jobs[j].Complete() ==> j == |s.jobs| - 1
  {
    hide Framing.FrameBytes, Roles, Farewells, Pending, Calls, Opens, Admission, ActorsOk;
    RunningHasGate(s, j);
  }

  /** writeMessage reports `dispatched` exactly without an error; then its whole
      frame was written, and otherwise, on a connection that is not aborted, its
      frame was not even started. */
  lemma DispatchReport(states: seq<State>, steps: seq<Step>, i: nat, a: ActorId)
    requires IsRun(states, steps) && i < |states| && a < |states[i].actors|
    requires states[i].actors[a].pc.Wr? && states[i].actors[a].pc.stage.Returned?
    ensures var s := states[i];
            var x := s.actors[a];
            && (x.pc.stage.dispatched <==> x.pc.stage.err == NoErr)
            && (x.pc.stage.dispatched ==>
                  && x.job.Some? && x.job.value < |s.jobs|
                  && s.jobs[x.job.value].owner == a && s.jobs[x.job.value].message == x.pc.message
                  && s.jobs[x.job.value].Complete())
            && (!x.pc.stage.dispatched ==> x.job == None || s.conn.phase == Aborted)
  {
    hide Framing.FrameBytes, Inv, Enabled, Apply, Init;
    InvRun(states, steps, i);
    assert ActorOk(states[i], a) by { ActorOkOf(states[i], a); }
  }

  lemma ActorOkOf(s: State, a: ActorId)
    requires Inv(s) && a < |s.actors|
    ensures ActorOk(s, a)
  {
    hide Farewells, Pending, Calls, Opens, Tenure, Admission, ActorOk, JobsOk, Gate, Roles;
  }

  // ------------------------------------------------------------------ shutdown

  /** The frames of every run: at most one shutdown and one exit; after shutdown
      only exit and answers to server requests, after exit only the latter; exit
      only after a shutdown that was dispatched in full. */
  lemma ShutdownOrder(states: seq<State>, steps: seq<Step>, i: nat)
    requires IsRun(states, steps) && i < |states|
    ensures var jobs := states[i].jobs;
            && (forall j, k :: 0 <= j < k < |jobs| && jobs[j].message.kind == Shutdown ==>
                  jobs[k].message.kind == Exit || jobs[k].message.kind == MethodNotFound)
            && (forall j, k :: 0 <= j < k < |jobs| && jobs[j].message.kind == Exit ==>
                  jobs[k].message.kind == MethodNotFound)
            && (forall k :: 0 <= k < |jobs| && jobs[k].message.kind == Exit ==>
                  exists j :: 0 <= j < k && jobs[j].message.kind == Shutdown
                              && jobs[j].cas == FrameDispatched && jobs[j].Complete())
  {
    hide Framing.FrameBytes, Inv, Enabled, Apply, Init;
    InvRun(states, steps, i);
    var jobs := states[i].jobs;
    assert Ordered(jobs) by { OrderedOf(states[i]); }
    forall j, k | 0 <= j < k < |jobs|
      ensures MayFollow(jobs[j].message.kind, jobs[k].message.kind)
    {
    }
    forall k | 0 <= k < |jobs| && jobs[k].message.kind == Exit
      ensures exists j :: 0 <= j < k && jobs[j].message.kind == Shutdown
                          && jobs[j].cas == FrameDispatched && jobs[j].Complete()
    {
      assert ShutdownSent(jobs[..k]);
      var j :| 0 <= j < |jobs[..k]| && SentShutdown(jobs[..k][j]);
      assert jobs[..k][j] == jobs[j];
    }
  }

  lemma OrderedOf(s: State)
    requires Inv(s)
    ensures Ordered(s.jobs)
  {
    hide Ordered, Roles, Gate, Wire, Pending, Calls, Opens, Tenure, Admission;
  }

  /** Whenever a frame is started, the connection admits its policy at that very
      moment, with its input open, unless it was aborted after the admission. */
  lemma FramesAreAdmitted(states: seq<State>, steps: seq<Step>, i: nat)
    requires IsRun(states, steps) && i < |steps| && |states[i + 1].jobs| > |states[i].jobs|
    ensures var s, m := states[i], states[i + 1].jobs[|states[i].jobs|].message;
            s.conn.phase == Aborted || Admits(s.conn, PolicyOf(m.kind))
  {
    hide Framing.FrameBytes, Enabled, Apply, Init, Roles, Gate, Wire, Farewells, Pending, Calls, Opens, Tenure,
         Admission;
    InvRun(states, steps, i);
    var step := steps[i];
    StartIsAdmitted(states[i], step);
  }

  /** Once the connection is Closed its input is closed, no writer is past admission
      and every frame is whole. */
  lemma ClosedIsQuiet(states: seq<State>, steps: seq<Step>, i: nat)
    requires IsRun(states, steps) && i < |states| && states[i].conn.phase == Closed
    ensures var s := states[i];
            && s.conn.inputClosed
            && Idle(s.jobs)
            && (forall a :: 0 <= a < |s.actors| ==> !PastAdmission(s.actors[a].pc))
            && (forall policy :: !Admits(s.conn, policy))
  {
    hide Framing.FrameBytes, Inv, Enabled, Apply, Init;
    InvRun(states, steps, i);
    QuietOf(states[i]);
  }

  lemma QuietOf(s: State)
    requires Inv(s) && s.conn.phase == Closed
    ensures s.conn.inputClosed && Idle(s.jobs)
    ensures forall a :: 0 <= a < |s.actors| ==> !PastAdmission(s.actors[a].pc)
  {
    hide Framing.FrameBytes, Farewells, Pending, Calls, Opens, Tenure, Admission, Roles, WriterOk, CloserOk;
    forall a | 0 <= a < |s.actors|
      ensures !PastAdmission(s.actors[a].pc)
    {
      assert ActorOk(s, a);
    }
    forall j | 0 <= j < |s.jobs|
      ensures s.jobs[j].Complete()
    {
      assert s.jobs[j].Complete() || Busy(s, j);
    }
  }

  /** After Closed nothing is ever written again. */
  lemma {:induction false} ClosedIsFinal(states: seq<State>, steps: seq<Step>, i: nat, k: nat)
    requires IsRun(states, steps) && i <= k < |states| && states[i].conn.phase == Closed
    ensures states[k].conn.phase == Closed && states[k].wire == states[i].wire
    decreases k
  {
    hide Framing.FrameBytes, Inv, Enabled, Apply, Init;
    if i < k {
      ClosedIsFinal(states, steps, i, k - 1);
      InvRun(states, steps, k - 1);
      assert Enabled(states[k - 1], steps[k - 1]) && states[k - 1 + 1] == Apply(states[k - 1], steps[k - 1]);
      ClosedStep(states[k - 1], steps[k - 1]);
    }
  }

  lemma ClosedStep(s: State, step: Step)
    requires Inv(s) && Enabled(s, step) && s.conn.phase == Closed
    ensures Apply(s, step).conn.phase == Closed && Apply(s, step).wire == s.wire
  {
    hide Framing.FrameBytes, Inv, Can, Next, ViewOf;
    QuietOf(s);
    if step.JobWrite? {
      assert JobOk(s.jobs[step.j]) by { JobOkOf(s, step.j); }
    }
  }

  lemma JobOkOf(s: State, j: nat)
    requires Inv(s) && j < |s.jobs|
    ensures JobOk(s.jobs[j])
  {
    hide JobOk, Farewells, Pending, Calls, Opens, Tenure, Admission, Roles, Gate, ActorsOk;
  }

  // ------------------------------------------------------- exactly-once results

  /** A registered request is pending, in one completer's hands, or completed
      once, and never two of these. */
  lemma ExactlyOnce(states: seq<State>, steps: seq<Step>, i: nat, r: RequestId)
    requires IsRun(states, steps) && i < |states| && r in states[i].completions
    ensures var s := states[i];
            var pending := r in s.conn.pending;
            var completed := s.completions[r] != [];
            && |s.completions[r]| <= 1
            && (completed ==> !pending && !InHands(s, r))
            && (pending ==> !completed && !InHands(s, r))
            && (!completed && !pending ==> InHands(s, r))
            && (forall a, b :: 0 <= a < b < |s.actors| && r in s.actors[a].claimed ==> r !in s.actors[b].claimed)
  {
    hide Framing.FrameBytes, Inv, Enabled, Apply, Init;
    InvRun(states, steps, i);
    assert Pending(states[i]) by { PendingOf(states[i]); }
  }

  lemma PendingOf(s: State)
    requires Inv(s)
    ensures Pending(s)
  {
    hide Roles, Gate, Wire, Farewells, Pending, Calls, Opens, Tenure, Admission;
  }

  /** While closing only the shutdown request can be pending; afterwards nothing
      is. `unavailable` is closed exactly when the connection leaves Open, once. */
  lemma PendingByPhase(states: seq<State>, steps: seq<Step>, i: nat)
    requires IsRun(states, steps) && i < |states|
    ensures var c := states[i].conn;
            && (c.phase == Closing ==> forall r :: r in c.pending ==> IsCloserOf(states[i], r))
            && (c.phase == Closed || c.phase == Aborted ==> c.pending == {})
            && c.unavailableCloses == (if c.phase == Open then 0 else 1)
            && (c.unavailable == None <==> c.phase == Open)
  {
    hide Framing.FrameBytes, Inv, Enabled, Apply, Init, IsCloserOf;
    InvRun(states, steps, i);
    assert Pending(states[i]) by { PendingOf(states[i]); }
  }

  /** Results and the first cause of unavailability never change. */
  lemma {:induction false} ResultsAreFinal(states: seq<State>, steps: seq<Step>, i: nat, k: nat)
    requires IsRun(states, steps) && i <= k < |states|
    ensures forall r :: r in states[i].completions && states[i].completions[r] != [] ==>
              r in states[k].completions && states[k].completions[r] == states[i].completions[r]
    ensures states[i].conn.unavailable.Some? ==> states[k].conn.unavailable == states[i].conn.unavailable
    decreases k
  {
    hide Framing.FrameBytes, Inv, Enabled, Apply, Init;
    if i < k {
      ResultsAreFinal(states, steps, i, k - 1);
      InvRun(states, steps, k - 1);
      assert Enabled(states[k - 1], steps[k - 1]) && states[k - 1 + 1] == Apply(states[k - 1], steps[k - 1]);
      ResultStep(states[k - 1], steps[k - 1]);
    }
  }

  lemma ResultStep(s: State, step: Step)
    requires Inv(s) && Enabled(s, step)
    ensures var t := Apply(s, step);
            && (forall r :: r in s.completions && s.completions[r] != [] ==>
                  r in t.completions && t.completions[r] == s.completions[r])
            && (s.conn.unavailable.Some? ==> t.conn.unavailable == s.conn.unavailable)
  {
    hide Framing.FrameBytes, Inv, Can, Next, ViewOf;
    assert Pending(s) by { PendingOf(s); }
    if step.Act? {
      assert Roles(s) by { RolesOf(s); }
      ClaimByNext(s.actors[step.a], ViewOf(s, step.a), step.choice);
    }
  }

  lemma RolesOf(s: State)
    requires Inv(s)
    ensures Roles(s)
  {
    hide Roles, Gate, Wire, Farewells, Pending, Calls, Opens, Tenure, Admission;
  }

  // -------------------------------------------------------------- cancellation

  /** The request's frame was dispatched in full. */
  ghost predicate RequestDispatched(s: State, id: RequestId) {
    exists j :: 0 <= j < |s.jobs| && s.jobs[j].message.kind == Request(id)
                && s.jobs[j].cas == FrameDispatched && s.jobs[j].Complete()
  }

  /** For a call that has ended, a `$/cancelRequest` was scheduled if and only if
      its frame was dispatched and its one result is its own cancellation; and
      never more than one was scheduled. */
  lemma CancelScheduled(states: seq<State>, steps: seq<Step>, i: nat, a: ActorId)
    requires IsRun(states, steps) && i < |states| && a < |states[i].actors|
    requires states[i].actors[a].role.Caller? && states[i].actors[a].pc.Finished?
    ensures var s := states[i];
            var id := s.actors[a].role.id;
            && (HasSender(s, id) <==>
                  RequestDispatched(s, id) && id in s.completions && s.completions[id] == [CallerCanceled(a)])
            && (forall k: nat, l: nat :: IsSender(s, k, id) && IsSender(s, l, id) ==> k == l)
  {
    hide Framing.FrameBytes, Inv, Enabled, Apply, Init, HasSender;
    InvRun(states, steps, i);
    CancelOf(states[i], a);
  }

  lemma CancelOf(s: State, a: ActorId)
    requires Inv(s) && a < |s.actors| && s.actors[a].role.Caller? && s.actors[a].pc.Finished?
    ensures var id := s.actors[a].role.id;
            && (HasSender(s, id) <==>
                  RequestDispatched(s, id) && id in s.completions && s.completions[id] == [CallerCanceled(a)])
            && (forall k: nat, l: nat :: IsSender(s, k, id) && IsSender(s, l, id) ==> k == l)
  {
    hide Framing.FrameBytes, Roles, Gate, Wire, Farewells, Opens, Tenure, Admission, HasSender, Table, Phases, CallJobs;
    var x := s.actors[a];
    var id := x.role.id;
    DispatchedMeansSent(s, a);
    VerdictOf(s, a);
    if HasEnded(s, id) {
      var b: nat :| EndedCanceled(s, b, id);
      assert RequestOf(s.actors[b].role) == RequestOf(x.role);
      assert b == a;
    }
    if x.pc == Finished(true, true) {
      assert EndedCanceled(s, a, id);
    }
  }

  /** The result of an ended call is its own cancellation exactly when it says so. */
  lemma VerdictOf(s: State, a: ActorId)
    requires Inv(s) && a < |s.actors| && s.actors[a].role.Caller? && s.actors[a].pc.Finished?
    ensures var id := s.actors[a].role.id;
            var canceled := id in s.completions && s.completions[id] == [CallerCanceled(a)];
            (canceled ==> s.actors[a].pc.canceled)
            && (s.actors[a].pc.canceled && s.actors[a].pc.dispatched ==> canceled)
  {
    hide Framing.FrameBytes, Roles, Gate, Wire, Farewells, Opens, Tenure, Admission, Table, Phases, CallJobs, Senders;
    assert ActorCall(s, a);
    assert Uncanceled(Some([CallerCanceled(a)])) == false;
  }

  /** `dispatched` is what the wire says. */
  lemma DispatchedMeansSent(s: State, a: ActorId)
    requires Inv(s) && a < |s.actors| && s.actors[a].role.Caller? && s.actors[a].pc.Finished?
    ensures s.actors[a].pc.dispatched <==> RequestDispatched(s, s.actors[a].role.id)
  {
    hide Framing.FrameBytes, Roles, Gate, Farewells, Pending, Opens, Tenure, Admission, Senders, CallJobs, JobsOk,
         CloserOk, ResultOk, OwnVerdict, StageOk, ConnOk, PastAdmission;
    var x := s.actors[a];
    var id := x.role.id;
    assert ActorCall(s, a) && ActorOk(s, a);
    if x.pc.dispatched {
      assert s.jobs[x.job.value].message.kind == Request(id);
    }
    if RequestDispatched(s, id) {
      var j :| 0 <= j < |s.jobs| && s.jobs[j].message.kind == Request(id)
               && s.jobs[j].cas == FrameDispatched && s.jobs[j].Complete();
      OwnerOfRequest(s, a, j);
      assert x.job == Some(j);
    }
  }

  lemma OwnerOfRequest(s: State, a: ActorId, j: nat)
    requires Inv(s) && a < |s.actors| && s.actors[a].role.Caller?
    requires j < |s.jobs| && s.jobs[j].message.kind == Request(s.actors[a].role.id)
    ensures s.jobs[j].owner == a && s.actors[a].job == Some(j)
  {
    hide Framing.FrameBytes, Roles, Gate, Wire, Farewells, Opens, Tenure, Admission, Senders, Table, Phases, ActorCall;
    var o := s.jobs[j].owner;
    assert RequestOf(s.actors[o].role) == RequestOf(s.actors[a].role);
  }

  // ------------------------------------------------------------------- opening

  /** openedSource. */
  function OpenedSource(s: State, f: File): Option<string> {
    if f in s.openFiles && s.openFiles[f] < |s.transitions| && s.transitions[s.openFiles[f]].done then
      s.transitions[s.openFiles[f]].source
    else None
  }

  /** At most one didOpen frame per file is ever started, whatever the mix of
      callers, cancellations, retries, close and abort. */
  lemma OneDidOpen(states: seq<State>, steps: seq<Step>, i: nat)
    requires IsRun(states, steps) && i < |states|
    ensures var jobs := states[i].jobs;
            forall j, k :: 0 <= j < k < |jobs| && jobs[j].message.kind.DidOpen? && jobs[k].message.kind.DidOpen? ==>
              jobs[j].message.kind.file != jobs[k].message.kind.file
  {
    hide Framing.FrameBytes, Inv, Enabled, Apply, Init;
    InvRun(states, steps, i);
    assert Opens(states[i]) by { OpensOf(states[i]); }
  }

  lemma OpensOf(s: State)
    requires Inv(s)
    ensures Opens(s)
  {
    hide Roles, Gate, Wire, Farewells, Pending, Calls, Opens, Tenure, Admission;
  }

  /** An ensureOpen that succeeded leaves openedSource answering with exactly the
      text of a didOpen frame that was dispatched in full. */
  lemma OpenedText(states: seq<State>, steps: seq<Step>, i: nat, a: ActorId)
    requires IsRun(states, steps) && i < |states| && a < |states[i].actors|
    requires states[i].actors[a].role.Opener? && states[i].actors[a].pc == Finished(true, false)
    ensures var s := states[i];
            var f := s.actors[a].role.file;
            && OpenedSource(s, f).Some?
            && exists j :: 0 <= j < |s.jobs| && s.jobs[j].message.kind == DidOpen(f, OpenedSource(s, f).value)
                           && s.jobs[j].cas == FrameDispatched && s.jobs[j].Complete()
  {
    hide Framing.FrameBytes, Inv, Enabled, Apply, Init;
    InvRun(states, steps, i);
    assert Opens(states[i]) by { OpensOf(states[i]); }
    var s := states[i];
    assert EndOk(s, a);
    var n := s.actors[a].transition;
    assert SuccessOk(s, n);
    var j :| 0 <= j < |s.jobs| && Backs(s.jobs[j], s.transitions[n]);
    assert s.jobs[j].message.kind == DidOpen(s.actors[a].role.file, OpenedSource(s, s.actors[a].role.file).value);
  }

  /** An ensureOpen that failed was canceled, or failed as the elected opener, or
      waited for a transition whose error was final. */
  lemma WaiterTakesFinalErrors(states: seq<State>, steps: seq<Step>, i: nat, a: ActorId)
    requires IsRun(states, steps) && i < |states| && a < |states[i].actors|
    requires states[i].actors[a].role.Opener? && states[i].actors[a].pc.Finished?
    requires !states[i].actors[a].pc.dispatched
    ensures var s := states[i];
            var x := s.actors[a];
            || (x.pc.canceled && x.canceled)
            || (&& x.transition < |s.transitions|
                && s.transitions[x.transition].done && s.transitions[x.transition].source == None
                && (s.transitions[x.transition].owner == a || !s.transitions[x.transition].retryable))
  {
    hide Framing.FrameBytes, Inv, Enabled, Apply, Init;
    InvRun(states, steps, i);
    assert Opens(states[i]) by { OpensOf(states[i]); }
    assert EndOk(states[i], a);
  }
}
