/**
 How calls end, and when a `$/cancelRequest` is scheduled: exactly for the
 requests whose frame was dispatched and whose one result is the caller's own
 cancellation.
 */
module TransportCalls {
  import opened Wrappers
  import opened Connection
  import opened TransportModel
  import opened TransportGate
  import opened TransportWire
  import opened TransportPending
  import Framing

  // ------------------------------------------------------ one program step

  /** A cancellation verdict is only ever held by the caller it names, for its own request. */
  predicate OwnVerdict(x: Actor, me: ActorId) {
    x.claimed != {} && x.verdict.CallerCanceled? ==>
      && x.verdict.caller == me
      && RequestOf(x.role).Some? && x.claimed == {RequestOf(x.role).value}
      && x.pc.Joining? && x.pc.canceled
  }

  /** `mine` is the completion history of the actor's own request, if registered. */
  predicate Uncanceled(mine: Option<seq<Outcome>>) {
    mine.Some? && mine.value != [] ==> !mine.value[0].CallerCanceled?
  }

  predicate ResultOk(x: Actor, me: ActorId, mine: Option<seq<Outcome>>) {
    var own := Some([CallerCanceled(me)]);
    match x.pc
    case Registering(_) => Uncanceled(mine)
    case Waiting(_) => Uncanceled(mine)
    case Joining(_, c) =>
      if c then mine == own || (mine == Some([]) && x.claimed != {} && x.verdict == CallerCanceled(me))
      else Uncanceled(mine)
    case Concluding(_, c) => if c then mine == own else Uncanceled(mine)
    case Finished(_, c) => x.role.Caller? ==> if c then mine == own else Uncanceled(mine)
    case Wr(_, m) => m.kind != Exit ==> Uncanceled(mine)
    case AbortEnter(_, next) => next.ToRelease? && next.message.kind != Exit ==> Uncanceled(mine)
    case AbortInput(next) => next.ToRelease? && next.message.kind != Exit ==> Uncanceled(mine)
    case _ => true
  }

  /** The caller's job was never started or lost the CAS. */
  predicate NotSent(x: Actor, job: Option<Job>) {
    x.job == None || (job.Some? && job.value.cas == FrameAborted)
  }

  predicate CallerJob(x: Actor, job: Option<Job>) {
    match x.pc
    case Registering(_) => x.job == None
    case Wr(stage, _) =>
      && (stage.Begin? ==> x.job == None)
      && (stage.Releasing? && !stage.dispatched ==> NotSent(x, job))
      && (stage.Returned? && !stage.dispatched ==> NotSent(x, job))
    case AbortEnter(_, _) => NotSent(x, job)
    case AbortInput(_) => NotSent(x, job)
    case Waiting(d) => d || NotSent(x, job)
    case Joining(d, _) => d || NotSent(x, job)
    case Concluding(d, _) => d || NotSent(x, job)
    case Finished(d, _) => d || NotSent(x, job)
    case _ => true
  }

  predicate CallOk(x: Actor, me: ActorId, mine: Option<seq<Outcome>>, job: Option<Job>) {
    && OwnVerdict(x, me)
    && (RequestOf(x.role).Some? ==> ResultOk(x, me, mine))
    && (x.role.Caller? ==> CallerJob(x, job))
  }

  /** The actor's own history after its step. */
  function MineAfter(x: Actor, mine: Option<seq<Outcome>>, e: Effect): Option<seq<Outcome>> {
    match e
    case Register(r) => if RequestOf(x.role) == Some(r) then Some([]) else mine
    case StartClosing(r) => if RequestOf(x.role) == Some(r) then Some([]) else mine
    case Complete(r, o) => if RequestOf(x.role) == Some(r) && mine.Some? then Some(mine.value + [o]) else mine
    case _ => mine
  }

  predicate CallPre(x: Actor, v: View, idle: bool, mine: Option<seq<Outcome>>) {
    && LocalPre(x, v, idle)
    && CallOk(x, v.me, mine, v.job)
    && (RequestOf(x.role).Some? ==>
          && (RequestOf(x.role).value in v.conn.pending ==> mine == Some([]))
          && (RequestOf(x.role).value in x.claimed ==> mine == Some([]))
          && (v.completed <==> mine.Some? && mine.value != []))
  }

  predicate CallKept(x: Actor, v: View, mine: Option<seq<Outcome>>, ye: (Actor, Effect)) {
    var (y, e) := ye;
    && CallOk(y, v.me, MineAfter(x, mine, e), OwnJob(v, y, e))
    && (x.role.Caller? && !e.NewJob? ==> y.job == x.job)
    && (x.role.Caller? && e.NewJob? ==> x.job == None)
    && (e.Fork? && e.child.role.CancelSender? <==>
          x.role.Caller? && x.pc == Concluding(true, true))
    && (e.Fork? && e.child.role.CancelSender? ==>
          e.child.role.id == RequestOf(x.role).value && y.pc == Finished(true, true))
    && (x.role.Caller? && y.pc == Finished(true, true) ==> e.Fork? && e.child.role.CancelSender?)
    && !x.pc.Finished?
  }

  lemma CallByEarlyWrite(x: Actor, v: View, c: Choice, idle: bool, mine: Option<seq<Outcome>>)
    requires CallPre(x, v, idle, mine) && x.claimed == {} && x.pc.Wr? && CanWrite(x, v, c) && Early(x.pc.stage)
    ensures CallKept(x, v, mine, NextWrite(x, v, c))
  {
    hide Framing.FrameBytes;
  }

  lemma CallByMiddleWrite(x: Actor, v: View, c: Choice, idle: bool, mine: Option<seq<Outcome>>)
    requires CallPre(x, v, idle, mine) && x.claimed == {} && x.pc.Wr? && CanWrite(x, v, c) && Middle(x.pc.stage)
    ensures CallKept(x, v, mine, NextWrite(x, v, c))
  {
    hide Framing.FrameBytes;
  }

  lemma CallByReturned(x: Actor, v: View, c: Choice, idle: bool, mine: Option<seq<Outcome>>)
    requires CallPre(x, v, idle, mine) && x.claimed == {} && x.pc.Wr? && CanWrite(x, v, c) && !Early(x.pc.stage) &&
             !Middle(x.pc.stage)
    requires x.pc.stage.Returned?
    ensures CallKept(x, v, mine, NextWrite(x, v, c))
  {
    hide Framing.FrameBytes;
  }

  lemma CallByRelease(x: Actor, v: View, c: Choice, idle: bool, mine: Option<seq<Outcome>>)
    requires CallPre(x, v, idle, mine) && x.claimed == {} && x.pc.Wr? && CanWrite(x, v, c) && !Early(x.pc.stage) &&
             !Middle(x.pc.stage)
    requires !x.pc.stage.Returned?
    ensures CallKept(x, v, mine, NextWrite(x, v, c))
  {
    hide Framing.FrameBytes;
  }

  lemma CallByLateWrite(x: Actor, v: View, c: Choice, idle: bool, mine: Option<seq<Outcome>>)
    requires CallPre(x, v, idle, mine) && x.claimed == {} && x.pc.Wr? && CanWrite(x, v, c) && !Early(x.pc.stage) &&
             !Middle(x.pc.stage)
    ensures CallKept(x, v, mine, NextWrite(x, v, c))
  {
    hide CallPre, CallKept, CanWrite, NextWrite;
    if x.pc.stage.Returned? {
      CallByReturned(x, v, c, idle, mine);
    } else {
      CallByRelease(x, v, c, idle, mine);
    }
  }

  lemma CallByCall(x: Actor, v: View, c: Choice, idle: bool, mine: Option<seq<Outcome>>)
    requires CallPre(x, v, idle, mine) && x.claimed == {} && CanCall(x, v, c)
    ensures CallKept(x, v, mine, NextCall(x, v, c))
  {
    hide Framing.FrameBytes;
  }

  lemma CallByOpen(x: Actor, v: View, c: Choice, idle: bool, mine: Option<seq<Outcome>>)
    requires CallPre(x, v, idle, mine) && x.claimed == {} && x.role.Opener? && CanOpen(x, v, c)
    ensures CallKept(x, v, mine, NextOpen(x, v, c))
  {
    hide Framing.FrameBytes;
  }

  lemma CallByEarlyClose(x: Actor, v: View, c: Choice, idle: bool, mine: Option<seq<Outcome>>)
    requires CallPre(x, v, idle, mine) && x.claimed == {} && PartOf(x.pc) == InClose && x.role.Closer? &&
             CanClose(x, v, c)
    requires EarlyClose(x.pc)
    ensures CallKept(x, v, mine, NextClose(x, v, c))
  {
    hide Framing.FrameBytes;
  }

  lemma CallByMiddleClose(x: Actor, v: View, c: Choice, idle: bool, mine: Option<seq<Outcome>>)
    requires CallPre(x, v, idle, mine) && x.claimed == {} && PartOf(x.pc) == InClose && x.role.Closer? &&
             CanClose(x, v, c)
    requires !EarlyClose(x.pc)
    requires MiddleClose(x.pc)
    ensures CallKept(x, v, mine, NextClose(x, v, c))
  {
    hide Framing.FrameBytes;
  }

  lemma CallByReap(x: Actor, v: View, c: Choice, idle: bool, mine: Option<seq<Outcome>>)
    requires CallPre(x, v, idle, mine) && x.claimed == {} && PartOf(x.pc) == InClose && x.role.Closer? &&
             CanClose(x, v, c)
    requires !EarlyClose(x.pc)
    requires !MiddleClose(x.pc)
    ensures CallKept(x, v, mine, NextClose(x, v, c))
  {
    hide Framing.FrameBytes;
  }

  lemma CallByLateClose(x: Actor, v: View, c: Choice, idle: bool, mine: Option<seq<Outcome>>)
    requires CallPre(x, v, idle, mine) && x.claimed == {} && PartOf(x.pc) == InClose && x.role.Closer? &&
             CanClose(x, v, c)
    requires !EarlyClose(x.pc)
    ensures CallKept(x, v, mine, NextClose(x, v, c))
  {
    hide CallPre, CallKept, CanClose, NextClose;
    if MiddleClose(x.pc) {
      CallByMiddleClose(x, v, c, idle, mine);
    } else {
      CallByReap(x, v, c, idle, mine);
    }
  }

  lemma CallByClose(x: Actor, v: View, c: Choice, idle: bool, mine: Option<seq<Outcome>>)
    requires CallPre(x, v, idle, mine) && x.claimed == {} && PartOf(x.pc) == InClose && x.role.Closer? &&
             CanClose(x, v, c)
    ensures CallKept(x, v, mine, NextClose(x, v, c))
  {
    hide CallPre, CallKept, CanClose, NextClose;
    if EarlyClose(x.pc) {
      CallByEarlyClose(x, v, c, idle, mine);
    } else {
      CallByLateClose(x, v, c, idle, mine);
    }
  }

  lemma CallByOther(x: Actor, v: View, c: Choice, idle: bool, mine: Option<seq<Outcome>>)
    requires CallPre(x, v, idle, mine) && x.claimed == {} && CanOther(x, c)
    ensures CallKept(x, v, mine, NextOther(x, v, c))
  {
    hide Framing.FrameBytes;
  }

  lemma CallByNext(x: Actor, v: View, c: Choice, idle: bool, mine: Option<seq<Outcome>>)
    requires CallPre(x, v, idle, mine) && Can(x, v, c) && x.claimed == {}
    ensures CallKept(x, v, mine, Next(x, v, c))
  {
    hide Framing.FrameBytes, CallPre, CallKept;
    hide NextWrite, NextOpen, NextClose, NextCall, NextOther, CanWrite, CanOpen, CanClose, CanCall, CanOther;
    match PartOf(x.pc)
    case InWrite =>
      if Early(x.pc.stage) {
        CallByEarlyWrite(x, v, c, idle, mine);
      } else if Middle(x.pc.stage) {
        CallByMiddleWrite(x, v, c, idle, mine);
      } else {
        CallByLateWrite(x, v, c, idle, mine);
      }
    case InCall => CallByCall(x, v, c, idle, mine);
    case InOpen => CallByOpen(x, v, c, idle, mine);
    case InClose => CallByClose(x, v, c, idle, mine);
    case Elsewhere => CallByOther(x, v, c, idle, mine);
  }

  // ------------------------------------------------------------- whole states

  function Mine(s: State, role: Role): Option<seq<Outcome>> {
    if RequestOf(role).Some? && RequestOf(role).value in s.completions then
      Some(s.completions[RequestOf(role).value])
    else None
  }

  ghost predicate ActorCall(s: State, a: ActorId)
    requires a < |s.actors|
  {
    CallOk(s.actors[a], a, Mine(s, s.actors[a].role), JobAt(s.jobs, s.actors[a].job))
  }

  /** Request frames belong to their callers, and a caller starts one job at most. */
  ghost predicate CallJobs(s: State) {
    && (forall j :: 0 <= j < |s.jobs| ==> s.jobs[j].owner < |s.actors|)
    && (forall j :: 0 <= j < |s.jobs| && s.jobs[j].message.kind.Request? ==>
          s.actors[s.jobs[j].owner].role == Caller(s.jobs[j].message.kind.id))
    && (forall j :: 0 <= j < |s.jobs| && s.actors[s.jobs[j].owner].role.Caller? ==>
          s.actors[s.jobs[j].owner].job == Some(j))
  }

  /** Call `a` ended as dispatched and canceled by its own caller. */
  predicate EndedCanceled(s: State, a: ActorId, id: RequestId) {
    a < |s.actors| && s.actors[a].role == Caller(id) && s.actors[a].pc == Finished(true, true)
  }

  predicate IsSender(s: State, k: ActorId, id: RequestId) {
    k < |s.actors| && s.actors[k].role == CancelSender(id)
  }

  ghost predicate HasSender(s: State, id: RequestId) {
    exists k :: IsSender(s, k, id)
  }

  ghost predicate HasEnded(s: State, id: RequestId) {
    exists a :: EndedCanceled(s, a, id)
  }

  /** A request has a cancellation sender, and then only one, exactly when its
      call ended dispatched and canceled. */
  ghost predicate Senders(s: State) {
    && (forall id :: HasSender(s, id) <==> HasEnded(s, id))
    && (forall k: nat, l: nat, id: nat :: IsSender(s, k, id) && IsSender(s, l, id) ==> k == l)
  }

  ghost predicate Calls(s: State) {
    && (forall a :: 0 <= a < |s.actors| ==> ActorCall(s, a))
    && CallJobs(s)
    && Senders(s)
  }

  lemma CallPreOfAct(s: State, a: ActorId)
    requires Roles(s) && Gate(s) && Wire(s) && Pending(s) && Calls(s) && IsActor(s, a)
    ensures CallPre(s.actors[a], ViewOf(s, a), Idle(s.jobs), Mine(s, s.actors[a].role))
  {
    hide Framing.FrameBytes, LocalPre, Wire, Gate, Roles, CallOk, CallJobs, Senders, Phases;
    PreOfAct(s, a);
    assert ActorCall(s, a);
  }

  /** What one actor step guarantees about calls. */
  ghost predicate CallFacts(s: State, a: ActorId, y: Actor, e: Effect)
    requires IsActor(s, a)
  {
    var x, v := s.actors[a], ViewOf(s, a);
    && StepFacts(s, a, y, e)
    && ClaimKept(x, v, (y, e))
    && RequestKept(x, (y, e))
    && (x.claimed == {} ==> CallKept(x, v, Mine(s, x.role), (y, e)))
  }

  lemma CallFactsOf(s: State, a: ActorId, c: Choice)
    requires IsActor(s, a) && Can(s.actors[a], ViewOf(s, a), c)
    requires Roles(s) && Gate(s) && Wire(s) && Pending(s) && Calls(s)
    ensures CallFacts(s, a, Next(s.actors[a], ViewOf(s, a), c).0, Next(s.actors[a], ViewOf(s, a), c).1)
  {
    hide Framing.FrameBytes, Wire, Gate, Pending, Calls, Next, LocalKept, LocalPre, CallPre, CallKept;
    var x, v := s.actors[a], ViewOf(s, a);
    PreOfAct(s, a);
    KeptByNext(x, v, c);
    LocalByNext(x, v, c, Idle(s.jobs));
    ClaimByNext(x, v, c);
    if x.claimed == {} {
      CallPreOfAct(s, a);
      CallByNext(x, v, c, Idle(s.jobs), Mine(s, x.role));
    }
  }

  /** The actor's own history is what the shared table records after the step. */
  lemma MineCommit(s: State, a: ActorId, y: Actor, e: Effect)
    requires Pending(s) && IsActor(s, a) && CallFacts(s, a, y, e)
    ensures Mine(Commit(s, a, y, e), y.role) == MineAfter(s.actors[a], Mine(s, y.role), e)
  {
    hide Framing.FrameBytes, LocalKept, GateKept, Phases, CallKept;
  }

  lemma SelfCall(s: State, a: ActorId, y: Actor, e: Effect)
    requires Gate(s) && Wire(s) && Pending(s) && Calls(s) && IsActor(s, a) && CallFacts(s, a, y, e)
    ensures ActorCall(Commit(s, a, y, e), a)
  {
    hide Framing.FrameBytes, LocalOk, ConnMoves, ConnOk, ConnAfter, Phases, Table, Ids, Senders, CallJobs;
    var t := Commit(s, a, y, e);
    assert ActorCall(s, a) && ActorOk(s, a);
    if s.actors[a].claimed == {} {
      hide CallOk;
      MineCommit(s, a, y, e);
      assert JobAt(t.jobs, y.job) == OwnJob(ViewOf(s, a), y, e);
    } else {
      SelfCompletes(s, a, y, e);
    }
  }

  /** Completing a claimed request is the one step a completer takes meanwhile. */
  lemma SelfCompletes(s: State, a: ActorId, y: Actor, e: Effect)
    requires Wire(s) && Pending(s) && IsActor(s, a) && CallFacts(s, a, y, e)
    requires ActorCall(s, a) && s.actors[a].claimed != {}
    ensures ActorCall(Commit(s, a, y, e), a)
  {
    hide Framing.FrameBytes, LocalOk, LocalKept, GateKept, RoleKept, CallKept, ConnAfter, Phases, Wire, CallerJob;
    var x, t := s.actors[a], Commit(s, a, y, e);
    assert t.jobs == s.jobs && t.actors[a] == y;
    assert s.completions[e.r] == [] && t.completions[e.r] == [x.verdict];
    if RequestOf(x.role) == Some(e.r) {
      assert Mine(s, x.role) == Some([]) && Mine(t, y.role) == Some([x.verdict]);
    } else {
      assert Mine(t, y.role) == Mine(s, x.role);
    }
    CallerJobKept(x, y, JobAt(s.jobs, x.job));
  }

  lemma CallerJobKept(x: Actor, y: Actor, job: Option<Job>)
    requires y == x.(claimed := y.claimed)
    ensures CallerJob(x, job) ==> CallerJob(y, job)
  {
  }

  /** An actor that does not move keeps its result, because a completion by
      another actor is for a request that had none. */
  lemma OtherCall(s: State, a: ActorId, y: Actor, e: Effect, b: ActorId)
    requires Wire(s) && Pending(s) && Calls(s) && IsActor(s, a) && CallFacts(s, a, y, e)
    requires b < |s.actors| && b != a
    ensures ActorCall(Commit(s, a, y, e), b)
  {
    hide Framing.FrameBytes, LocalOk, LocalKept, GateKept, RoleKept, CallKept, Phases, Senders, CallJobs, JobsOk,
         CallerJob;
    var t := Commit(s, a, y, e);
    var z := s.actors[b];
    assert ActorCall(s, a) && ActorCall(s, b) && ActorOk(s, a) && ActorOk(s, b);
    assert t.actors[b] == z;
    OtherJob(s, a, y, e, b);
    if e.Complete? && RequestOf(z.role) == Some(e.r) {
      assert Mine(s, z.role) == Some([]);
      assert !e.outcome.CallerCanceled?;
      assert z.claimed == {} || e.r !in z.claimed;
    } else {
      assert Mine(t, z.role) == Mine(s, z.role);
    }
  }

  lemma OtherJob(s: State, a: ActorId, y: Actor, e: Effect, b: ActorId)
    requires Wire(s) && IsActor(s, a) && StepFacts(s, a, y, e)
    requires b < |s.actors| && b != a
    ensures JobAt(Commit(s, a, y, e).jobs, s.actors[b].job) == JobAt(s.jobs, s.actors[b].job)
  {
    hide Framing.FrameBytes, LocalOk, GateKept, RoleKept, ConnMoves, ConnOk, ConnAfter;
    assert ActorOk(s, a) && ActorOk(s, b);
  }

  /** What a step does to the actor's job, as far as calls are concerned. */
  predicate JobLink(s: State, x: Actor, y: Actor, e: Effect) {
    && y.role == x.role
    && (x.role.Caller? && !e.NewJob? ==> y.job == x.job)
    && (e.NewJob? ==> y.job == Some(|s.jobs|) && MayWrite(x.role, e.message.kind))
    && (x.role.Caller? && e.NewJob? ==> x.job == None)
  }

  lemma JobLinkOf(s: State, a: ActorId, y: Actor, e: Effect)
    requires IsActor(s, a) && CallFacts(s, a, y, e) && MayStart(s.actors[a], e)
    ensures JobLink(s, s.actors[a], y, e)
  {
    hide Framing.FrameBytes, LocalOk, GateKept, ConnMoves, ConnOk, ConnAfter, CallOk, MayWrite;
  }

  lemma CallJobCommit(s: State, a: ActorId, y: Actor, e: Effect, j: nat)
    requires CallJobs(s) && IsActor(s, a) && JobLink(s, s.actors[a], y, e) && j < |Commit(s, a, y, e).jobs|
    ensures var t := Commit(s, a, y, e);
            && t.jobs[j].owner < |t.actors|
            && (t.jobs[j].message.kind.Request? ==>
                  t.actors[t.jobs[j].owner].role == Caller(t.jobs[j].message.kind.id))
            && (t.actors[t.jobs[j].owner].role.Caller? ==> t.actors[t.jobs[j].owner].job == Some(j))
  {
    hide Framing.FrameBytes, ConnAfter, CompletionsAfter, TransitionsAfter, OpenFilesAfter;
    var t := Commit(s, a, y, e);
    if j < |s.jobs| {
      assert t.jobs[j].owner == s.jobs[j].owner && t.jobs[j].message == s.jobs[j].message;
      assert s.jobs[j].owner < |s.actors|;
    }
  }

  lemma CallJobsCommit(s: State, a: ActorId, y: Actor, e: Effect)
    requires Calls(s) && IsActor(s, a) && CallFacts(s, a, y, e) && MayStart(s.actors[a], e)
    ensures CallJobs(Commit(s, a, y, e))
  {
    assert CallJobs(s);
    hide Framing.FrameBytes, Calls, CallFacts, Commit, JobLink;
    JobLinkOf(s, a, y, e);
    var t := Commit(s, a, y, e);
    forall j: nat | j < |t.jobs|
      ensures t.jobs[j].owner < |t.actors|
      ensures t.jobs[j].message.kind.Request? ==> t.actors[t.jobs[j].owner].role == Caller(t.jobs[j].message.kind.id)
      ensures t.actors[t.jobs[j].owner].role.Caller? ==> t.actors[t.jobs[j].owner].job == Some(j)
    {
      CallJobCommit(s, a, y, e, j);
    }
  }

  /** A job carries the message its starter was writing. */
  predicate MayStart(x: Actor, e: Effect) {
    e.NewJob? ==> MayWrite(x.role, e.message.kind)
  }

  lemma StartsOwnMessage(x: Actor, v: View, c: Choice)
    requires PcOk(x.role, x.pc) && Can(x, v, c)
    ensures MayStart(x, Next(x, v, c).1)
  {
    hide Framing.FrameBytes, CanOpen, CanClose, CanCall, CanOther;
  }

  /** A cancellation sender is forked by the step that ends its call, and by no other. */
  predicate SenderFacts(x: Actor, y: Actor, e: Effect) {
    && y.role == x.role
    && (e.Fork? ==> !e.child.role.Caller?)
    && (if e.Fork? && e.child.role.CancelSender? then
          && x.role.Caller? && e.child.role.id == x.role.id
          && x.pc == Concluding(true, true) && y.pc == Finished(true, true)
        else x.role.Caller? && y.pc == Finished(true, true) ==> x.pc == Finished(true, true))
    && (x.role.Caller? && x.pc == Finished(true, true) ==> y.pc == x.pc)
  }

  lemma SenderFactsOf(s: State, a: ActorId, y: Actor, e: Effect)
    requires IsActor(s, a) && CallFacts(s, a, y, e)
    ensures SenderFacts(s.actors[a], y, e)
  {
    hide Framing.FrameBytes, LocalKept, GateKept, RequestKept, CallOk;
  }

  lemma SendersCommit(s: State, a: ActorId, y: Actor, e: Effect)
    requires Ids(s) && Senders(s) && IsActor(s, a) && SenderFacts(s.actors[a], y, e)
    ensures Senders(Commit(s, a, y, e))
  {
    hide ConnAfter, JobsAfter, CompletionsAfter, TransitionsAfter, OpenFilesAfter, HasSender, HasEnded, Ids;
    var x, t := s.actors[a], Commit(s, a, y, e);
    var n := |s.actors|;
    assert t.actors[a] == y && forall b :: 0 <= b < n && b != a ==> t.actors[b] == s.actors[b];
    var forks := e.Fork? && e.child.role.CancelSender?;
    forall id
      ensures HasSender(t, id) <==> HasSender(s, id) || (forks && id == e.child.role.id)
      ensures HasEnded(t, id) <==> HasEnded(s, id) || (forks && id == e.child.role.id)
    {
      SenderAfter(s, a, y, e, id);
      EndedAfter(s, a, y, e, id);
    }
    if forks {
      NoSenderYet(s, a);
    }
    forall k: nat, l: nat, id: nat | IsSender(t, k, id) && IsSender(t, l, id)
      ensures k == l
    {
      assert k >= n || l >= n ==> forks && id == x.role.id;
      if k < n {
        assert IsSender(s, k, id);
        SenderWitness(s, k, id);
      }
      if l < n {
        assert IsSender(s, l, id);
        SenderWitness(s, l, id);
      }
    }
  }

  lemma SenderWitness(s: State, k: ActorId, id: RequestId)
    requires IsSender(s, k, id)
    ensures HasSender(s, id)
  {
  }

  /** A call that is still concluding has no sender yet: ids are not shared. */
  lemma NoSenderYet(s: State, a: ActorId)
    requires Ids(s) && Senders(s) && IsActor(s, a) && s.actors[a].role.Caller? && !s.actors[a].pc.Finished?
    ensures !HasSender(s, s.actors[a].role.id)
  {
    hide HasSender;
    var id := s.actors[a].role.id;
    if HasEnded(s, id) {
      assert false;
    }
  }

  lemma SenderAfter(s: State, a: ActorId, y: Actor, e: Effect, id: RequestId)
    requires IsActor(s, a) && SenderFacts(s.actors[a], y, e)
    ensures var t := Commit(s, a, y, e);
            HasSender(t, id) <==> HasSender(s, id) || (e.Fork? && e.child.role == CancelSender(id))
  {
    hide ConnAfter, JobsAfter, CompletionsAfter, TransitionsAfter, OpenFilesAfter;
    var t := Commit(s, a, y, e);
    if HasSender(s, id) {
      var k: nat :| IsSender(s, k, id);
      assert IsSender(t, k, id);
    }
    if e.Fork? && e.child.role == CancelSender(id) {
      assert IsSender(t, |s.actors|, id);
    }
    if HasSender(t, id) {
      var k: nat :| IsSender(t, k, id);
      assert k < |s.actors| ==> IsSender(s, k, id);
    }
  }

  lemma EndedAfter(s: State, a: ActorId, y: Actor, e: Effect, id: RequestId)
    requires IsActor(s, a) && SenderFacts(s.actors[a], y, e)
    ensures var t := Commit(s, a, y, e);
            HasEnded(t, id) <==> HasEnded(s, id) || (e.Fork? && e.child.role == CancelSender(id))
  {
    hide ConnAfter, JobsAfter, CompletionsAfter, TransitionsAfter, OpenFilesAfter;
    var t := Commit(s, a, y, e);
    assert t.actors[a] == y;
    if HasEnded(s, id) {
      var b: nat :| EndedCanceled(s, b, id);
      assert EndedCanceled(t, b, id);
    }
    if e.Fork? && e.child.role == CancelSender(id) {
      assert EndedCanceled(t, a, id);
    }
    if HasEnded(t, id) {
      var b: nat :| EndedCanceled(t, b, id);
      if b < |s.actors| && !EndedCanceled(s, b, id) {
        assert b == a;
      }
    }
  }

  lemma CallsAct(s: State, a: ActorId, c: Choice)
    requires Roles(s) && Gate(s) && Wire(s) && Pending(s) && Calls(s) && Enabled(s, Act(a, c))
    ensures Calls(Apply(s, Act(a, c)))
  {
    hide Framing.FrameBytes, Can, Next, Wire, Pending, CallFacts, ActorCall, CallJobs, Senders;
    var x, v := s.actors[a], ViewOf(s, a);
    CallFactsOf(s, a, c);
    StartsOwnMessage(x, v, c);
    var (y, e) := Next(x, v, c);
    var t := Commit(s, a, y, e);
    CallJobsCommit(s, a, y, e);
    SenderFactsOf(s, a, y, e);
    assert Ids(s) by { IdsOf(s); }
    SendersCommit(s, a, y, e);
    forall b | 0 <= b < |t.actors|
      ensures ActorCall(t, b)
    {
      if b == a {
        SelfCall(s, a, y, e);
      } else if b < |s.actors| {
        OtherCall(s, a, y, e, b);
      } else {
        ForkCall(s, a, y, e);
      }
    }
  }

  lemma IdsOf(s: State)
    requires Pending(s)
    ensures Ids(s)
  {
  }

  lemma ForkCall(s: State, a: ActorId, y: Actor, e: Effect)
    requires IsActor(s, a) && CallFacts(s, a, y, e) && e.Fork?
    ensures ActorCall(Commit(s, a, y, e), |s.actors|)
  {
    hide Framing.FrameBytes, LocalKept, GateKept, RequestKept, CallKept;
  }

  // --------------------------------------------------------- other steps

  lemma CallInBackground(s: State, t: State, a: ActorId)
    requires Background(s, t) && Wire(s) && Ids(s) && a < |t.actors|
    requires forall b :: 0 <= b < |s.actors| ==> ActorCall(s, b)
    requires |s.jobs| == |t.jobs| && forall j :: 0 <= j < |s.jobs| ==> JobMoves(s.jobs[j], t.jobs[j])
    ensures ActorCall(t, a)
  {
    hide Framing.FrameBytes, LocalOk, JobsOk;
    if a < |s.actors| {
      assert ActorCall(s, a) && ActorOk(s, a);
      assert SameButContext(s.actors[a], t.actors[a]);
    } else {
      assert RequestOf(t.actors[a].role).Some? ==> t.lastId !in s.completions;
    }
  }

  lemma CallJobsInBackground(s: State, t: State)
    requires Background(s, t) && CallJobs(s)
    requires |s.jobs| == |t.jobs| && forall j :: 0 <= j < |s.jobs| ==> JobMoves(s.jobs[j], t.jobs[j])
    ensures CallJobs(t)
  {
    hide Framing.FrameBytes;
    assert forall a :: 0 <= a < |s.actors| ==>
      t.actors[a].role == s.actors[a].role && t.actors[a].job == s.actors[a].job;
  }

  lemma SendersInBackground(s: State, t: State)
    requires Background(s, t) && Senders(s)
    ensures Senders(t)
  {
    assert forall a :: 0 <= a < |s.actors| ==>
      t.actors[a].role == s.actors[a].role && t.actors[a].pc == s.actors[a].pc;
    hide HasSender, HasEnded;
    forall id
      ensures HasSender(t, id) <==> HasSender(s, id)
      ensures HasEnded(t, id) <==> HasEnded(s, id)
    {
      SendersSame(s, t, id);
    }
    forall k, l, id | IsSender(t, k, id) && IsSender(t, l, id)
      ensures k == l
    {
      assert IsSender(s, k, id) && IsSender(s, l, id);
    }
  }

  lemma SendersSame(s: State, t: State, id: RequestId)
    requires Background(s, t)
    ensures HasSender(t, id) <==> HasSender(s, id)
    ensures HasEnded(t, id) <==> HasEnded(s, id)
  {
    assert forall a :: 0 <= a < |s.actors| ==>
      t.actors[a].role == s.actors[a].role && t.actors[a].pc == s.actors[a].pc;
    assert forall k :: IsSender(t, k, id) <==> IsSender(s, k, id);
    assert forall a :: EndedCanceled(t, a, id) <==> EndedCanceled(s, a, id);
  }

  lemma CallsOther(s: State, step: Step)
    requires Wire(s) && Pending(s) && Calls(s) && Enabled(s, step) && !step.Act?
    ensures Calls(Apply(s, step))
  {
    hide Framing.FrameBytes, Can, Next, Commit, ViewOf, ActorCall, CallJobs, Senders, Table, Phases, ActorOk;
    var t := Apply(s, step);
    BackgroundStep(s, step);
    JobsMoveInBackground(s, step);
    CallJobsInBackground(s, t);
    SendersInBackground(s, t);
    forall a | 0 <= a < |t.actors|
      ensures ActorCall(t, a)
    {
      CallInBackground(s, t, a);
    }
  }

  lemma CallsStep(s: State, step: Step)
    requires Roles(s) && Gate(s) && Wire(s) && Pending(s) && Calls(s) && Enabled(s, step)
    ensures Calls(Apply(s, step))
  {
    hide Wire, Pending, Calls, Enabled, Apply;
    if step.Act? {
      CallsAct(s, step.a, step.choice);
    } else {
      CallsOther(s, step);
    }
  }
}
