/**
 The per-file election of ensureOpen: at most one didOpen frame is ever started
 for a file, and a successful open publishes exactly the text its frame carried.
 */
module TransportOpens {
  import opened Wrappers
  import opened Connection
  import opened TransportModel
  import opened TransportGate
  import opened TransportWire
  import Framing

  // ------------------------------------------------------ one program step

  /** The actor was elected to open its file and has not published yet. */
  predicate Owner(x: Actor) {
    && x.role.Opener?
    && match x.pc
       case OpenRead => true
       case Wr(_, _) => true
       case AbortEnter(_, _) => true
       case AbortInput(_) => true
       case OpenFailed(_) => true
       case OpenPublish(_, _) => true
       case _ => false
  }

  predicate UnderWay(stage: Stage) {
    || stage.Writing? || stage.Awaiting?
    || (stage.Releasing? && stage.dispatched)
    || (stage.Returned? && stage.dispatched)
  }

  /** The actor's job `j` carries, or has carried, `text` for its file, and the
      write has not been reported as failed. */
  predicate Carries(x: Actor, text: string, j: nat) {
    && x.role.Opener? && x.job == Some(j)
    && match x.pc
       case Wr(stage, m) => m.kind == DidOpen(x.role.file, text) && UnderWay(stage)
       case AbortEnter(_, next) => next.ToRelease? && next.message.kind == DidOpen(x.role.file, text)
       case OpenPublish(source, _) => source == Some(text)
       case _ => false
  }

  /** A success about to be published was dispatched. */
  predicate PublishOk(x: Actor, me: ActorId, job: Option<Job>) {
    x.pc.OpenPublish? && x.pc.source.Some? && x.role.Opener? ==>
      Sent(me, job) && job.value.message.kind == DidOpen(x.role.file, x.pc.source.value) && !x.pc.retryable
  }

  /** How a step moves an opener through the election. */
  predicate ElectKept(x: Actor, v: View, ye: (Actor, Effect)) {
    var (y, e) := ye;
    && y.role == x.role
    && (e.Fork? ==> !e.child.role.Opener?)
    && (e.Elect? ==> x.pc == OpenLoop && x.role == Opener(e.file) && v.openAt == None
                     && y.transition == v.transitionCount && y.pc == OpenRead)
    && (!e.Elect? && Owner(y) ==> Owner(x) && y.transition == x.transition)
    && (e.Publish? ==> x.role.Opener? && x.pc == OpenPublish(e.source, e.retryable)
                       && y.transition == x.transition && y.pc == Finished(e.source.Some?, false))
    && (Owner(x) && !Owner(y) ==> e.Publish?)
    && (x.role.Opener? && y.pc == OpenWait ==>
          (x.pc == OpenLoop && v.openAt == Some(y.transition)) || (x.pc == OpenWait && y.transition == x.transition))
  }

  /** How an opener comes to its end without publishing. */
  predicate EndKept(x: Actor, v: View, ye: (Actor, Effect)) {
    var (y, e) := ye;
    x.role.Opener? && y.pc.Finished? && !e.Publish? ==>
      || (x.pc == y.pc && y.transition == x.transition && y.canceled == x.canceled)
      || (y.pc.canceled && y.canceled)
      || (x.pc == OpenWait && !y.pc.canceled && y.transition == x.transition
          && v.transition.Some? && v.transition.value.done && !v.transition.value.retryable
          && y.pc.dispatched == v.transition.value.source.Some?)
  }

  /** What a step says about didOpen frames. */
  predicate FrameKept(x: Actor, v: View, ye: (Actor, Effect)) {
    var (y, e) := ye;
    && PublishOk(y, v.me, OwnJob(v, y, e))
    && (e.NewJob? ==> BeforeJob(x.pc) && y.job == Some(v.jobCount)
                      && (x.role.Opener? ==> e.message.kind.DidOpen? && e.message.kind.file == x.role.file
                                             && Carries(y, e.message.kind.text, v.jobCount))
                      && (e.message.kind.DidOpen? ==> x.role.Opener?))
    && (BeforeJob(y.pc) ==>
          || BeforeJob(x.pc)
          || (x.pc == Wr(Checked, y.pc.message) && x.job == None && Admits(v.conn, PolicyOf(y.pc.message.kind))))
  }

  predicate OpenKept(x: Actor, v: View, ye: (Actor, Effect)) {
    ElectKept(x, v, ye) && EndKept(x, v, ye) && FrameKept(x, v, ye)
  }

  /** A carried text stays carried until it is published or the connection is aborted. */
  predicate CarriedOn(x: Actor, v: View, text: string, j: nat, ye: (Actor, Effect)) {
    Carries(x, text, j) ==>
      || Carries(ye.0, text, j)
      || ConnAfter(v.conn, ye.1).phase == Aborted
      || (ye.1.Publish? && ye.1.source == Some(text))
  }

  predicate OpenPre(x: Actor, v: View, idle: bool) {
    LocalPre(x, v, idle) && PublishOk(x, v.me, v.job)
  }

  lemma OpenByEarlyWrite(x: Actor, v: View, c: Choice, idle: bool, text: string, j: nat)
    requires OpenPre(x, v, idle) && x.pc.Wr? && CanWrite(x, v, c) && Early(x.pc.stage)
    ensures OpenKept(x, v, NextWrite(x, v, c)) && CarriedOn(x, v, text, j, NextWrite(x, v, c))
  {
    hide Framing.FrameBytes;
  }

  lemma OpenByMiddleWrite(x: Actor, v: View, c: Choice, idle: bool, text: string, j: nat)
    requires OpenPre(x, v, idle) && x.pc.Wr? && CanWrite(x, v, c) && Middle(x.pc.stage)
    ensures OpenKept(x, v, NextWrite(x, v, c)) && CarriedOn(x, v, text, j, NextWrite(x, v, c))
  {
    hide Framing.FrameBytes;
  }

  lemma OpenByOpenerReturned(x: Actor, v: View, c: Choice, idle: bool, text: string, j: nat)
    requires OpenPre(x, v, idle) && x.pc.Wr? && CanWrite(x, v, c) && !Early(x.pc.stage) && !Middle(x.pc.stage)
    requires x.pc.stage.Returned?
    requires x.role.Opener?
    ensures OpenKept(x, v, NextWrite(x, v, c)) && CarriedOn(x, v, text, j, NextWrite(x, v, c))
  {
    hide Framing.FrameBytes;
  }

  lemma OpenByOtherReturned(x: Actor, v: View, c: Choice, idle: bool, text: string, j: nat)
    requires OpenPre(x, v, idle) && x.pc.Wr? && CanWrite(x, v, c) && !Early(x.pc.stage) && !Middle(x.pc.stage)
    requires x.pc.stage.Returned?
    requires !x.role.Opener?
    ensures OpenKept(x, v, NextWrite(x, v, c)) && CarriedOn(x, v, text, j, NextWrite(x, v, c))
  {
    hide Framing.FrameBytes;
  }

  lemma OpenByReturned(x: Actor, v: View, c: Choice, idle: bool, text: string, j: nat)
    requires OpenPre(x, v, idle) && x.pc.Wr? && CanWrite(x, v, c) && !Early(x.pc.stage) && !Middle(x.pc.stage)
    requires x.pc.stage.Returned?
    ensures OpenKept(x, v, NextWrite(x, v, c)) && CarriedOn(x, v, text, j, NextWrite(x, v, c))
  {
    hide OpenPre, OpenKept, CarriedOn, CanWrite, NextWrite;
    if x.role.Opener? {
      OpenByOpenerReturned(x, v, c, idle, text, j);
    } else {
      OpenByOtherReturned(x, v, c, idle, text, j);
    }
  }

  lemma OpenByRelease(x: Actor, v: View, c: Choice, idle: bool, text: string, j: nat)
    requires OpenPre(x, v, idle) && x.pc.Wr? && CanWrite(x, v, c) && !Early(x.pc.stage) && !Middle(x.pc.stage)
    requires !x.pc.stage.Returned?
    ensures OpenKept(x, v, NextWrite(x, v, c)) && CarriedOn(x, v, text, j, NextWrite(x, v, c))
  {
    hide Framing.FrameBytes;
  }

  lemma OpenByLateWrite(x: Actor, v: View, c: Choice, idle: bool, text: string, j: nat)
    requires OpenPre(x, v, idle) && x.pc.Wr? && CanWrite(x, v, c) && !Early(x.pc.stage) && !Middle(x.pc.stage)
    ensures OpenKept(x, v, NextWrite(x, v, c)) && CarriedOn(x, v, text, j, NextWrite(x, v, c))
  {
    hide OpenPre, OpenKept, CarriedOn, CanWrite, NextWrite;
    if x.pc.stage.Returned? {
      OpenByReturned(x, v, c, idle, text, j);
    } else {
      OpenByRelease(x, v, c, idle, text, j);
    }
  }

  lemma OpenByCall(x: Actor, v: View, c: Choice, idle: bool, text: string, j: nat)
    requires OpenPre(x, v, idle) && CanCall(x, v, c)
    ensures OpenKept(x, v, NextCall(x, v, c)) && CarriedOn(x, v, text, j, NextCall(x, v, c))
  {
    hide Framing.FrameBytes;
  }

  lemma OpenByElection(x: Actor, v: View, c: Choice, idle: bool, text: string, j: nat)
    requires OpenPre(x, v, idle) && x.role.Opener? && CanOpen(x, v, c)
    requires x.pc.OpenLoop? || x.pc.OpenWait?
    ensures OpenKept(x, v, NextOpen(x, v, c)) && CarriedOn(x, v, text, j, NextOpen(x, v, c))
  {
    hide Framing.FrameBytes;
  }

  lemma OpenByOpening(x: Actor, v: View, c: Choice, idle: bool, text: string, j: nat)
    requires OpenPre(x, v, idle) && x.role.Opener? && CanOpen(x, v, c)
    requires !(x.pc.OpenLoop? || x.pc.OpenWait?)
    ensures OpenKept(x, v, NextOpen(x, v, c)) && CarriedOn(x, v, text, j, NextOpen(x, v, c))
  {
    hide Framing.FrameBytes;
  }

  lemma OpenByOpen(x: Actor, v: View, c: Choice, idle: bool, text: string, j: nat)
    requires OpenPre(x, v, idle) && x.role.Opener? && CanOpen(x, v, c)
    ensures OpenKept(x, v, NextOpen(x, v, c)) && CarriedOn(x, v, text, j, NextOpen(x, v, c))
  {
    hide OpenPre, OpenKept, CarriedOn, CanOpen, NextOpen;
    if x.pc.OpenLoop? || x.pc.OpenWait? {
      OpenByElection(x, v, c, idle, text, j);
    } else {
      OpenByOpening(x, v, c, idle, text, j);
    }
  }

  lemma OpenByClose(x: Actor, v: View, c: Choice, idle: bool, text: string, j: nat)
    requires OpenPre(x, v, idle) && PartOf(x.pc) == InClose && x.role.Closer? && CanClose(x, v, c)
    ensures OpenKept(x, v, NextClose(x, v, c)) && CarriedOn(x, v, text, j, NextClose(x, v, c))
  {
    hide Framing.FrameBytes;
  }

  lemma OpenByOther(x: Actor, v: View, c: Choice, idle: bool, text: string, j: nat)
    requires OpenPre(x, v, idle) && CanOther(x, c)
    ensures OpenKept(x, v, NextOther(x, v, c)) && CarriedOn(x, v, text, j, NextOther(x, v, c))
  {
    hide Framing.FrameBytes;
  }

  lemma OpenByNext(x: Actor, v: View, c: Choice, idle: bool, text: string, j: nat)
    requires OpenPre(x, v, idle) && Can(x, v, c)
    ensures OpenKept(x, v, Next(x, v, c)) && CarriedOn(x, v, text, j, Next(x, v, c))
  {
    hide Framing.FrameBytes;
    hide NextWrite, NextOpen, NextClose, NextCall, NextOther, CanWrite, CanOpen, CanClose, CanCall, CanOther;
    if x.claimed == {} {
      hide OpenPre, OpenKept, CarriedOn, LocalPre;
      match PartOf(x.pc)
      case InWrite =>
        if Early(x.pc.stage) {
          OpenByEarlyWrite(x, v, c, idle, text, j);
        } else if Middle(x.pc.stage) {
          OpenByMiddleWrite(x, v, c, idle, text, j);
        } else {
          OpenByLateWrite(x, v, c, idle, text, j);
        }
      case InCall => OpenByCall(x, v, c, idle, text, j);
      case InOpen => OpenByOpen(x, v, c, idle, text, j);
      case InClose => OpenByClose(x, v, c, idle, text, j);
      case Elsewhere => OpenByOther(x, v, c, idle, text, j);
    }
  }

  // ------------------------------------------------------------- whole states

  /** The transition an elected opener owns is its file's current, unfinished one. */
  predicate OwnsFile(s: State, a: ActorId)
    requires a < |s.actors|
  {
    var x := s.actors[a];
    && x.role.Opener? && x.transition < |s.transitions|
    && x.role.file in s.openFiles && s.openFiles[x.role.file] == x.transition
    && var t := s.transitions[x.transition];
       t.owner == a && t.file == x.role.file && !t.done
  }

  predicate FileOk(s: State, f: File)
    requires f in s.openFiles
  {
    && s.openFiles[f] < |s.transitions|
    && var t := s.transitions[s.openFiles[f]];
       t.file == f && (t.done ==> t.source.Some?)
  }

  predicate WaiterOk(s: State, a: ActorId)
    requires a < |s.actors|
  {
    s.actors[a].role.Opener? && s.actors[a].pc == OpenWait ==>
      && s.actors[a].transition < |s.transitions|
      && s.transitions[s.actors[a].transition].file == s.actors[a].role.file
  }

  ghost predicate Elections(s: State) {
    && (forall f :: f in s.openFiles ==> FileOk(s, f))
    && (forall a :: 0 <= a < |s.actors| && Owner(s.actors[a]) ==> OwnsFile(s, a))
    && (forall a :: 0 <= a < |s.actors| ==> WaiterOk(s, a))
  }

  /** The didOpen of job `j` is published as the file's text, or its opener still carries it. */
  ghost predicate Evidence(s: State, j: nat, f: File, text: string) {
    && f in s.openFiles && s.openFiles[f] < |s.transitions|
    && var t := s.transitions[s.openFiles[f]];
       || (t.done && t.source == Some(text))
       || (!t.done && t.owner < |s.actors| && Carries(s.actors[t.owner], text, j)
           && s.actors[t.owner].role.file == f)
  }

  ghost predicate OpenJob(s: State, j: nat)
    requires j < |s.jobs|
  {
    s.jobs[j].message.kind.DidOpen? ==>
      s.conn.phase == Aborted || Evidence(s, j, s.jobs[j].message.kind.file, s.jobs[j].message.kind.text)
  }

  /** No didOpen for this file was ever started. */
  ghost predicate NeverOpened(jobs: seq<Job>, f: File) {
    forall j :: 0 <= j < |jobs| && jobs[j].message.kind.DidOpen? ==> jobs[j].message.kind.file != f
  }

  ghost predicate OpenFrames(s: State) {
    && (forall j :: 0 <= j < |s.jobs| ==> OpenJob(s, j))
    && (forall i, j :: 0 <= i < j < |s.jobs| && s.jobs[i].message.kind.DidOpen? && s.jobs[j].message.kind.DidOpen? ==>
          s.jobs[i].message.kind.file != s.jobs[j].message.kind.file)
    && (forall a :: 0 <= a < |s.actors| && s.actors[a].role.Opener? && BeforeJob(s.actors[a].pc) ==>
          NeverOpened(s.jobs, s.actors[a].role.file))
  }

  /** Job `j` dispatched the text that transition `t` published. */
  predicate Backs(job: Job, t: Transition) {
    && t.source.Some? && job.message.kind == DidOpen(t.file, t.source.value)
    && job.cas == FrameDispatched && job.Complete()
  }

  ghost predicate Backed(s: State, t: Transition) {
    exists j :: 0 <= j < |s.jobs| && Backs(s.jobs[j], t)
  }

  /** How an opener ended: canceled, or with the result of a finished transition,
      of which a waiter only takes an error that is final. */
  predicate EndOk(s: State, a: ActorId)
    requires a < |s.actors|
  {
    var x := s.actors[a];
    x.role.Opener? && x.pc.Finished? ==>
      || (x.pc.canceled && x.canceled)
      || (&& !x.pc.canceled && x.transition < |s.transitions|
          && var t := s.transitions[x.transition];
             && t.done && t.file == x.role.file && x.pc.dispatched == t.source.Some?
             && (t.source == None ==> t.owner == a || !t.retryable))
  }

  ghost predicate Published(s: State) {
    && (forall i :: 0 <= i < |s.transitions| ==> SuccessOk(s, i))
    && (forall a :: 0 <= a < |s.actors| ==>
          EndOk(s, a) && PublishOk(s.actors[a], a, JobAt(s.jobs, s.actors[a].job)))
  }

  ghost predicate Opens(s: State) {
    Elections(s) && OpenFrames(s) && Published(s)
  }

  /** What one actor step guarantees about openings. */
  ghost predicate OpenFacts(s: State, a: ActorId, y: Actor, e: Effect)
    requires IsActor(s, a)
  {
    && StepFacts(s, a, y, e)
    && OpenKept(s.actors[a], ViewOf(s, a), (y, e))
    && forall text, j :: CarriedOn(s.actors[a], ViewOf(s, a), text, j, (y, e))
  }

  lemma OpenFactsOf(s: State, a: ActorId, c: Choice)
    requires Roles(s) && Gate(s) && Wire(s) && Opens(s) && Enabled(s, Act(a, c))
    ensures var (y, e) := Next(s.actors[a], ViewOf(s, a), c);
            OpenFacts(s, a, y, e)
  {
    hide Framing.FrameBytes, Wire, Gate, Elections, OpenFrames, EndOk, PublishOk, Next, LocalKept, LocalPre, OpenKept,
         CarriedOn;
    var x, v := s.actors[a], ViewOf(s, a);
    PreOfAct(s, a);
    KeptByNext(x, v, c);
    LocalByNext(x, v, c, Idle(s.jobs));
    OpenByNext(x, v, c, Idle(s.jobs), "", 0);
    forall text, j: nat
      ensures CarriedOn(x, v, text, j, Next(x, v, c))
    {
      OpenByNext(x, v, c, Idle(s.jobs), text, j);
    }
  }

  /** What a step does to the elections, without the rest of the state. */
  ghost predicate Ballot(s: State, t: State, a: ActorId, y: Actor, e: Effect)
    requires IsActor(s, a)
  {
    var x := s.actors[a];
    && |s.actors| <= |t.actors| && t.actors[a] == y
    && (forall b :: 0 <= b < |s.actors| && b != a ==> t.actors[b] == s.actors[b])
    && match e
       case Elect(f) =>
         && f !in s.openFiles && t.openFiles == s.openFiles[f := |s.transitions|]
         && t.transitions == s.transitions + [Transition(f, a, false, None, false)]
       case Publish(source, retryable) =>
         && OwnsFile(s, a)
         && t.openFiles == (if source == None then s.openFiles - {x.role.file} else s.openFiles)
         && t.transitions == s.transitions[x.transition :=
              s.transitions[x.transition].(done := true, source := source, retryable := retryable)]
       case _ => t.transitions == s.transitions && t.openFiles == s.openFiles
  }

  lemma BallotOf(s: State, a: ActorId, y: Actor, e: Effect)
    requires Elections(s) && IsActor(s, a) && ElectKept(s.actors[a], ViewOf(s, a), (y, e))
    ensures Ballot(s, Commit(s, a, y, e), a, y, e)
  {
    hide ConnAfter, JobsAfter, CompletionsAfter;
    assert Owner(s.actors[a]) ==> OwnsFile(s, a);
    hide Elections, OwnsFile;
  }

  lemma FileFact(s: State, f: File)
    requires Elections(s)
    ensures f in s.openFiles ==> FileOk(s, f)
  {
    hide FileOk, OwnsFile, WaiterOk;
  }

  lemma OwnerFact(s: State, a: ActorId)
    requires Elections(s) && IsActor(s, a)
    ensures (Owner(s.actors[a]) ==> OwnsFile(s, a)) && WaiterOk(s, a)
  {
    hide FileOk, OwnsFile, WaiterOk, Owner;
  }

  lemma FilesCommit(s: State, a: ActorId, y: Actor, e: Effect, f: File)
    requires Elections(s) && IsActor(s, a) && ElectKept(s.actors[a], ViewOf(s, a), (y, e))
    requires f in Commit(s, a, y, e).openFiles
    ensures FileOk(Commit(s, a, y, e), f)
  {
    hide Commit, Elections, ElectKept;
    BallotOf(s, a, y, e);
    FileFact(s, f);
    OwnerFact(s, a);
  }

  lemma OwnerSelf(s: State, a: ActorId, y: Actor, e: Effect)
    requires Elections(s) && IsActor(s, a) && ElectKept(s.actors[a], ViewOf(s, a), (y, e)) && Owner(y)
    ensures OwnsFile(Commit(s, a, y, e), a)
  {
    hide Commit, Elections;
    BallotOf(s, a, y, e);
    OwnerFact(s, a);
  }

  lemma OwnerOther(s: State, a: ActorId, y: Actor, e: Effect, b: ActorId)
    requires Elections(s) && IsActor(s, a) && ElectKept(s.actors[a], ViewOf(s, a), (y, e))
    requires b < |s.actors| && b != a && Owner(s.actors[b])
    ensures OwnsFile(Commit(s, a, y, e), b)
  {
    hide Commit, Elections, ElectKept, Owner;
    BallotOf(s, a, y, e);
    OwnerFact(s, b);
  }

  lemma OwnersCommit(s: State, a: ActorId, y: Actor, e: Effect, b: ActorId)
    requires Elections(s) && IsActor(s, a) && ElectKept(s.actors[a], ViewOf(s, a), (y, e))
    requires b < |Commit(s, a, y, e).actors| && Owner(Commit(s, a, y, e).actors[b])
    ensures OwnsFile(Commit(s, a, y, e), b)
  {
    hide ConnAfter, JobsAfter, CompletionsAfter, Elections, OwnsFile, TransitionsAfter, OpenFilesAfter;
    if b == a {
      OwnerSelf(s, a, y, e);
    } else if b < |s.actors| {
      OwnerOther(s, a, y, e, b);
    }
  }

  lemma NewcomerDoesNotWait(s: State, a: ActorId, y: Actor, e: Effect)
    requires IsActor(s, a) && ElectKept(s.actors[a], ViewOf(s, a), (y, e))
    ensures forall b :: |s.actors| <= b < |Commit(s, a, y, e).actors| ==> !Commit(s, a, y, e).actors[b].role.Opener?
  {
    hide ConnAfter, JobsAfter, CompletionsAfter, TransitionsAfter, OpenFilesAfter;
  }

  lemma WaitersCommit(s: State, a: ActorId, y: Actor, e: Effect, b: ActorId)
    requires Elections(s) && IsActor(s, a) && ElectKept(s.actors[a], ViewOf(s, a), (y, e))
    requires b < |Commit(s, a, y, e).actors|
    ensures WaiterOk(Commit(s, a, y, e), b)
  {
    hide Commit, Elections;
    BallotOf(s, a, y, e);
    NewcomerDoesNotWait(s, a, y, e);
    if b < |s.actors| {
      OwnerFact(s, b);
    }
    if y.role.Opener? {
      FileFact(s, y.role.file);
    }
  }

  lemma ElectionsCommit(s: State, a: ActorId, y: Actor, e: Effect)
    requires Elections(s) && IsActor(s, a) && OpenFacts(s, a, y, e)
    ensures Elections(Commit(s, a, y, e))
  {
    hide Commit, FileOk, OwnsFile, WaiterOk, StepFacts, ElectKept, CarriedOn;
    var t := Commit(s, a, y, e);
    forall f | f in t.openFiles
      ensures FileOk(t, f)
    {
      FilesCommit(s, a, y, e, f);
    }
    forall b | 0 <= b < |t.actors|
      ensures WaiterOk(t, b)
      ensures Owner(t.actors[b]) ==> OwnsFile(t, b)
    {
      WaitersCommit(s, a, y, e, b);
      if Owner(t.actors[b]) {
        OwnersCommit(s, a, y, e, b);
      }
    }
  }

  // ------------------------------------------------------------------ frames

  /** When a file's owner is admitted, no didOpen for the file can exist: every
      earlier one has left the file published or in another opener's hands. */
  lemma NeverOpenedAtAdmission(s: State, a: ActorId)
    requires Gate(s) && Wire(s) && Opens(s) && IsActor(s, a)
    requires s.actors[a].role.Opener? && s.conn.phase != Aborted
    requires s.actors[a].pc.Wr? && s.actors[a].pc.stage == Checked && s.actors[a].job == None
    ensures NeverOpened(s.jobs, s.actors[a].role.file)
  {
    hide Framing.FrameBytes, Wire, Gate, Published;
    assert OwnsFile(s, a);
    forall j | 0 <= j < |s.jobs| && s.jobs[j].message.kind.DidOpen?
      ensures s.jobs[j].message.kind.file != s.actors[a].role.file
    {
      assert OpenJob(s, j);
    }
  }

  lemma ConnOfCommit(s: State, a: ActorId, y: Actor, e: Effect)
    requires IsActor(s, a)
    ensures Commit(s, a, y, e).conn == ConnAfter(s.conn, e) && ViewOf(s, a).conn == s.conn
  {
  }

  lemma EvidenceCommit(s: State, a: ActorId, y: Actor, e: Effect, j: nat, f: File, text: string)
    requires Elections(s) && IsActor(s, a) && ElectKept(s.actors[a], ViewOf(s, a), (y, e))
    requires CarriedOn(s.actors[a], ViewOf(s, a), text, j, (y, e))
    requires Evidence(s, j, f, text)
    ensures Commit(s, a, y, e).conn.phase == Aborted || Evidence(Commit(s, a, y, e), j, f, text)
  {
    hide Commit, ViewOf, ConnAfter, Elections;
    BallotOf(s, a, y, e);
    ConnOfCommit(s, a, y, e);
    FileFact(s, f);
    OwnerFact(s, a);
  }

  lemma OpenJobCommit(s: State, a: ActorId, y: Actor, e: Effect, j: nat)
    requires Opens(s) && IsActor(s, a) && OpenFacts(s, a, y, e)
    requires j < |Commit(s, a, y, e).jobs| && ConnStays(s, a, y, e)
    ensures OpenJob(Commit(s, a, y, e), j)
  {
    hide Framing.FrameBytes, LocalKept, GateKept, CarriedOn, CompletionsAfter, Evidence, Published, ElectKept,
         EndKept, FrameKept;
    var t := Commit(s, a, y, e);
    if j < |s.jobs| {
      assert OpenJob(s, j);
      assert t.jobs[j].message == s.jobs[j].message;
      var k := s.jobs[j].message.kind;
      if k.DidOpen? && s.conn.phase != Aborted {
        assert CarriedOn(s.actors[a], ViewOf(s, a), k.text, j, (y, e));
        EvidenceCommit(s, a, y, e, j, k.file, k.text);
      }
    } else if e.NewJob? && e.message.kind.DidOpen? {
      NewEvidence(s, a, y, e);
    }
  }

  predicate ConnStays(s: State, a: ActorId, y: Actor, e: Effect)
    requires IsActor(s, a)
  {
    s.conn.phase == Aborted ==> Commit(s, a, y, e).conn.phase == Aborted
  }

  lemma NewEvidence(s: State, a: ActorId, y: Actor, e: Effect)
    requires Elections(s) && IsActor(s, a) && OpenFacts(s, a, y, e)
    requires e.NewJob? && e.message.kind.DidOpen?
    ensures Evidence(Commit(s, a, y, e), |s.jobs|, e.message.kind.file, e.message.kind.text)
  {
    hide Framing.FrameBytes, LocalKept, GateKept, CarriedOn, ConnAfter, CompletionsAfter, EndKept, PublishOk;
    var t := Commit(s, a, y, e);
    assert t.actors[a] == y;
    assert Owner(s.actors[a]) && OwnsFile(s, a);
  }

  lemma BeforeJobCommit(s: State, a: ActorId, y: Actor, e: Effect, b: ActorId)
    requires Gate(s) && Wire(s) && Opens(s) && IsActor(s, a) && OpenFacts(s, a, y, e)
    requires var t := Commit(s, a, y, e);
             b < |t.actors| && t.actors[b].role.Opener? && BeforeJob(t.actors[b].pc)
    ensures var t := Commit(s, a, y, e);
            NeverOpened(t.jobs, t.actors[b].role.file)
  {
    hide Framing.FrameBytes, LocalOk, GateKept, CarriedOn, ConnAfter, CompletionsAfter, Wire, Elections, Published,
         OpenJob, ConnMoves, ConnOk;
    var t := Commit(s, a, y, e);
    assert t.actors[a] == y;
    if b == a && !BeforeJob(s.actors[a].pc) {
      NeverOpenedAtAdmission(s, a);
    }
    assert b < |s.actors|;
    assert BeforeJob(s.actors[a].pc) ==> s.gate == Some(a);
    assert !e.NewJob?;
  }

  lemma DistinctCommit(s: State, a: ActorId, y: Actor, e: Effect, i: nat, j: nat)
    requires OpenFrames(s) && IsActor(s, a) && OpenFacts(s, a, y, e)
    requires var later := Commit(s, a, y, e).jobs;
             i < j < |later| && later[i].message.kind.DidOpen? && later[j].message.kind.DidOpen?
    ensures var later := Commit(s, a, y, e).jobs;
            later[i].message.kind.file != later[j].message.kind.file
  {
    hide Framing.FrameBytes, LocalKept, GateKept, CarriedOn, ConnAfter, CompletionsAfter, ElectKept, EndKept, OpenJob;
  }

  lemma OpenFramesCommit(s: State, a: ActorId, y: Actor, e: Effect)
    requires Gate(s) && Wire(s) && Opens(s) && IsActor(s, a) && OpenFacts(s, a, y, e) && ConnStays(s, a, y, e)
    ensures OpenFrames(Commit(s, a, y, e))
  {
    hide Commit, Wire, Gate, Elections, Published, OpenFacts, OpenJob, NeverOpened, BeforeJob;
    var t := Commit(s, a, y, e);
    forall j | 0 <= j < |t.jobs|
      ensures OpenJob(t, j)
    {
      OpenJobCommit(s, a, y, e, j);
    }
    forall i, j | 0 <= i < j < |t.jobs| && t.jobs[i].message.kind.DidOpen? && t.jobs[j].message.kind.DidOpen?
      ensures t.jobs[i].message.kind.file != t.jobs[j].message.kind.file
    {
      DistinctCommit(s, a, y, e, i, j);
    }
    forall b | 0 <= b < |t.actors| && t.actors[b].role.Opener? && BeforeJob(t.actors[b].pc)
      ensures NeverOpened(t.jobs, t.actors[b].role.file)
    {
      BeforeJobCommit(s, a, y, e, b);
    }
  }

  // ------------------------------------------------------------- publication

  /** A finished transition never changes again. */
  lemma DoneStays(s: State, a: ActorId, y: Actor, e: Effect, i: nat)
    requires Elections(s) && IsActor(s, a) && ElectKept(s.actors[a], ViewOf(s, a), (y, e))
    requires i < |s.transitions| && s.transitions[i].done
    ensures var t := Commit(s, a, y, e);
            i < |t.transitions| && t.transitions[i] == s.transitions[i]
  {
    hide Commit, Elections, ElectKept;
    BallotOf(s, a, y, e);
  }

  lemma BackedStays(s: State, a: ActorId, y: Actor, e: Effect, t: Transition)
    requires IsActor(s, a) && Backed(s, t)
    ensures Backed(Commit(s, a, y, e), t)
  {
    hide Framing.FrameBytes;
    var j :| 0 <= j < |s.jobs| && Backs(s.jobs[j], t);
    assert Backs(Commit(s, a, y, e).jobs[j], t);
  }

  ghost predicate SuccessOk(s: State, i: nat)
    requires i < |s.transitions|
  {
    s.transitions[i].done && s.transitions[i].source.Some? ==>
      && s.transitions[i].file in s.openFiles && s.openFiles[s.transitions[i].file] == i
      && !s.transitions[i].retryable
      && Backed(s, s.transitions[i])
  }

  /** A published success stays its file's current transition. */
  lemma SuccessStays(s: State, a: ActorId, y: Actor, e: Effect, i: nat)
    requires Elections(s) && IsActor(s, a) && ElectKept(s.actors[a], ViewOf(s, a), (y, e))
    requires i < |s.transitions| && s.transitions[i].done && SuccessOk(s, i)
    ensures i < |Commit(s, a, y, e).transitions| && SuccessOk(Commit(s, a, y, e), i)
  {
    DoneStays(s, a, y, e, i);
    if s.transitions[i].source.Some? {
      BackedStays(s, a, y, e, s.transitions[i]);
    }
    BallotOf(s, a, y, e);
    hide Commit, Elections, ElectKept, Backed;
  }

  /** A transition that is not done now is done after the step only if its owner
      published it. */
  lemma SuccessNew(s: State, a: ActorId, y: Actor, e: Effect, i: nat)
    requires Opens(s) && IsActor(s, a) && ElectKept(s.actors[a], ViewOf(s, a), (y, e))
    requires i < |Commit(s, a, y, e).transitions| && !(i < |s.transitions| && s.transitions[i].done)
    ensures SuccessOk(Commit(s, a, y, e), i)
  {
    BallotOf(s, a, y, e);
    if e.Publish? && e.source.Some? {
      PublishBacked(s, a, y, e);
    }
    hide Commit, Opens, ElectKept, Backed;
  }

  lemma SuccessCommit(s: State, a: ActorId, y: Actor, e: Effect, i: nat)
    requires Opens(s) && IsActor(s, a) && ElectKept(s.actors[a], ViewOf(s, a), (y, e))
    requires i < |Commit(s, a, y, e).transitions|
    ensures SuccessOk(Commit(s, a, y, e), i)
  {
    if i < |s.transitions| && s.transitions[i].done {
      assert SuccessOk(s, i) && Elections(s);
      hide Commit, Opens, ElectKept, SuccessOk, Elections;
      SuccessStays(s, a, y, e, i);
    } else {
      hide Commit, Opens, ElectKept, SuccessOk;
      SuccessNew(s, a, y, e, i);
    }
  }

  lemma PublishBacked(s: State, a: ActorId, y: Actor, e: Effect)
    requires Opens(s) && IsActor(s, a) && ElectKept(s.actors[a], ViewOf(s, a), (y, e))
    requires e.Publish? && e.source.Some?
    ensures var t := Commit(s, a, y, e);
            s.actors[a].transition < |s.transitions| && Backed(t, t.transitions[s.actors[a].transition])
    ensures !e.retryable
  {
    hide Framing.FrameBytes, ConnAfter, CompletionsAfter, OpenFrames, EndOk;
    var x, t := s.actors[a], Commit(s, a, y, e);
    assert OwnsFile(s, a);
    assert PublishOk(x, a, JobAt(s.jobs, x.job));
    assert Backs(t.jobs[x.job.value], t.transitions[x.transition]);
  }

  lemma EndSelf(s: State, a: ActorId, y: Actor, e: Effect)
    requires Opens(s) && IsActor(s, a) && OpenFacts(s, a, y, e)
    ensures EndOk(Commit(s, a, y, e), a)
  {
    hide Framing.FrameBytes, LocalKept, GateKept, CarriedOn, ConnAfter, CompletionsAfter, FrameKept, OpenFrames, Backed,
      JobsAfter;
    var x, t := s.actors[a], Commit(s, a, y, e);
    assert t.actors[a] == y;
    assert Owner(x) ==> OwnsFile(s, a);
    assert EndOk(s, a) && WaiterOk(s, a);
    var i := x.transition;
    if i < |s.transitions| && s.transitions[i].done {
      DoneStays(s, a, y, e, i);
    }
  }

  lemma EndOther(s: State, a: ActorId, y: Actor, e: Effect, b: ActorId)
    requires Opens(s) && IsActor(s, a) && OpenFacts(s, a, y, e) && b < |Commit(s, a, y, e).actors| && b != a
    ensures EndOk(Commit(s, a, y, e), b)
  {
    hide Framing.FrameBytes, LocalKept, GateKept, CarriedOn, ConnAfter, CompletionsAfter, FrameKept, OpenFrames, Backed,
      JobsAfter, TransitionsAfter, OpenFilesAfter, EndKept;
    if b < |s.actors| {
      assert EndOk(s, b);
      var i := s.actors[b].transition;
      if i < |s.transitions| && s.transitions[i].done {
        DoneStays(s, a, y, e, i);
      }
    }
  }

  lemma EndCommit(s: State, a: ActorId, y: Actor, e: Effect, b: ActorId)
    requires Opens(s) && IsActor(s, a) && OpenFacts(s, a, y, e)
    requires b < |Commit(s, a, y, e).actors|
    ensures EndOk(Commit(s, a, y, e), b)
  {
    hide EndOk, OpenFacts, Opens;
    if b == a {
      EndSelf(s, a, y, e);
    } else {
      EndOther(s, a, y, e, b);
    }
  }

  lemma PublishOkCommit(s: State, a: ActorId, y: Actor, e: Effect, b: ActorId)
    requires Wire(s) && Opens(s) && IsActor(s, a) && OpenFacts(s, a, y, e)
    requires b < |Commit(s, a, y, e).actors|
    ensures var t := Commit(s, a, y, e);
            PublishOk(t.actors[b], b, JobAt(t.jobs, t.actors[b].job))
  {
    hide Framing.FrameBytes, LocalOk, GateKept, CarriedOn, ConnAfter, CompletionsAfter, ElectKept, EndKept,
      OpenFrames, Elections, Backed, EndOk, ConnMoves, ConnOk;
    var t := Commit(s, a, y, e);
    assert t.actors[a] == y;
    assert ActorOk(s, a);
    if b == a {
      assert JobAt(t.jobs, y.job) == OwnJob(ViewOf(s, a), y, e);
    } else if b < |s.actors| {
      assert ActorOk(s, b);
      assert JobAt(t.jobs, s.actors[b].job) == JobAt(s.jobs, s.actors[b].job);
    } else {
      assert !e.child.pc.OpenPublish?;
    }
  }

  lemma PublishedCommit(s: State, a: ActorId, y: Actor, e: Effect)
    requires Wire(s) && Opens(s) && IsActor(s, a) && OpenFacts(s, a, y, e)
    ensures Published(Commit(s, a, y, e))
  {
    assert ElectKept(s.actors[a], ViewOf(s, a), (y, e)) by { hide StepFacts, CarriedOn; }
    hide Commit, Wire, Opens, OpenFacts, SuccessOk, EndOk, PublishOk, ElectKept;
    var t := Commit(s, a, y, e);
    forall i | 0 <= i < |t.transitions|
      ensures SuccessOk(t, i)
    {
      SuccessCommit(s, a, y, e, i);
    }
    forall b | 0 <= b < |t.actors|
      ensures EndOk(t, b) && PublishOk(t.actors[b], b, JobAt(t.jobs, t.actors[b].job))
    {
      EndCommit(s, a, y, e, b);
      PublishOkCommit(s, a, y, e, b);
    }
  }

  lemma OpensAct(s: State, a: ActorId, c: Choice)
    requires Roles(s) && Gate(s) && Wire(s) && Opens(s) && Enabled(s, Act(a, c))
    ensures Opens(Apply(s, Act(a, c)))
  {
    hide Framing.FrameBytes, Can, Next, Wire, Elections, OpenFrames, Published, OpenFacts;
    OpenFactsOf(s, a, c);
    var (y, e) := Next(s.actors[a], ViewOf(s, a), c);
    ElectionsCommit(s, a, y, e);
    OpenFramesCommit(s, a, y, e);
    PublishedCommit(s, a, y, e);
  }

  // ------------------------------------------------------------- other steps

  lemma OpenFramesInBackground(s: State, t: State)
    requires Background(s, t) && OpenFrames(s)
    requires |s.jobs| == |t.jobs| && forall j :: 0 <= j < |s.jobs| ==> JobMoves(s.jobs[j], t.jobs[j])
    ensures OpenFrames(t)
  {
    hide Framing.FrameBytes;
    assert forall a :: 0 <= a < |s.actors| ==>
      t.actors[a].role == s.actors[a].role && t.actors[a].pc == s.actors[a].pc && t.actors[a].job == s.actors[a].job;
    forall j | 0 <= j < |t.jobs|
      ensures OpenJob(t, j)
    {
      assert OpenJob(s, j);
    }
  }

  lemma ElectionsInBackground(s: State, t: State)
    requires Background(s, t) && Elections(s)
    ensures Elections(t)
  {
    assert forall a :: 0 <= a < |s.actors| ==> SameButContext(s.actors[a], t.actors[a]);
    forall f | f in t.openFiles
      ensures FileOk(t, f)
    {
      assert FileOk(s, f);
    }
    forall a | 0 <= a < |t.actors|
      ensures WaiterOk(t, a)
      ensures Owner(t.actors[a]) ==> OwnsFile(t, a)
    {
      if a < |s.actors| {
        assert WaiterOk(s, a);
        assert Owner(s.actors[a]) ==> OwnsFile(s, a);
      }
    }
  }

  lemma PublishedInBackground(s: State, t: State)
    requires Background(s, t) && Wire(s) && Published(s)
    requires |s.jobs| == |t.jobs| && forall j :: 0 <= j < |s.jobs| ==> JobMoves(s.jobs[j], t.jobs[j])
    ensures Published(t)
  {
    hide Framing.FrameBytes, LocalOk, JobsOk;
    assert forall a :: 0 <= a < |s.actors| ==> SameButContext(s.actors[a], t.actors[a]);
    forall i | 0 <= i < |t.transitions|
      ensures SuccessOk(t, i)
    {
      assert SuccessOk(s, i);
      if Backed(s, s.transitions[i]) {
        var j :| 0 <= j < |s.jobs| && Backs(s.jobs[j], s.transitions[i]);
        assert Backs(t.jobs[j], t.transitions[i]);
      }
    }
    forall a | 0 <= a < |t.actors|
      ensures EndOk(t, a) && PublishOk(t.actors[a], a, JobAt(t.jobs, t.actors[a].job))
    {
      if a < |s.actors| {
        assert EndOk(s, a) && PublishOk(s.actors[a], a, JobAt(s.jobs, s.actors[a].job)) && ActorOk(s, a);
      }
    }
  }

  lemma OpensStep(s: State, step: Step)
    requires Roles(s) && Gate(s) && Wire(s) && Opens(s) && Enabled(s, step)
    ensures Opens(Apply(s, step))
  {
    hide Enabled, Apply, Elections, OpenFrames, Published, JobMoves;
    if step.Act? {
      OpensAct(s, step.a, step.choice);
    } else {
      BackgroundStep(s, step);
      JobsMoveInBackground(s, step);
      var t := Apply(s, step);
      OpenFramesInBackground(s, t);
      ElectionsInBackground(s, t);
      PublishedInBackground(s, t);
    }
  }
}
