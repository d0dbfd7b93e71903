/**
 The pending table: every registered request is pending, claimed by exactly one
 completer, or completed once; the one result it gets never changes.
 */
module TransportPending {
  import opened Wrappers
  import opened Connection
  import opened TransportModel
  import opened TransportGate

  // ----------------------------------------------------- one program step

  /** Program points before the actor's own request exists. */
  predicate Unregistered(pc: Pc) {
    pc.Registering? || pc.CloseMarshal? || pc.CloseLock? || pc.CloseBegin?
  }

  /** Program points at which it must exist. */
  predicate NeedsRequest(pc: Pc) {
    match pc
    case Wr(_, _) => true
    case AbortEnter(_, next) => next.ToRelease?
    case AbortInput(next) => next.ToRelease?
    case Waiting(_) => true
    case Joining(_, _) => true
    case Concluding(_, _) => true
    case _ => false
  }

  /** How a step moves requests between the table, the actor's hands and completion. */
  predicate ClaimKept(x: Actor, v: View, ye: (Actor, Effect)) {
    var (y, e) := ye;
    && (!e.Complete? ==> x.claimed == {})
    && match e
       case ClaimOne(r) => r in v.conn.pending && y.claimed == {r}
       case Register(r) => v.conn.phase == Open && x.pc.Registering? && RequestOf(x.role) == Some(r) && y.claimed == {}
       case StartClosing(r) =>
         v.conn.phase == Open && x.pc.CloseBegin? && RequestOf(x.role) == Some(r) && y.claimed == v.conn.pending
       case DrainPending => v.conn.phase == Closing && y.claimed == v.conn.pending
       case FinishClosing => v.conn.phase == Closing && y.claimed == v.conn.pending
       case Abort(_) => (v.conn.phase == Open || v.conn.phase == Closing) && y.claimed == v.conn.pending
       case Complete(r, o) =>
         r in x.claimed && y == x.(claimed := x.claimed - {r}) && o == x.verdict
       case Fork(z) => y.claimed == {} && z.claimed == {} && RequestOf(z.role) == None
       case _ => y.claimed == {}
  }

  /** Registration happens exactly where the program registers. */
  predicate RequestKept(x: Actor, ye: (Actor, Effect)) {
    var (y, e) := ye;
    && (Unregistered(y.pc) ==> Unregistered(x.pc) && !e.Register? && !e.StartClosing?)
    && (RequestOf(x.role).Some? && NeedsRequest(y.pc) ==> NeedsRequest(x.pc) || e.Register? || e.StartClosing?)
  }

  lemma ClaimByWrite(x: Actor, v: View, c: Choice)
    requires PcOk(x.role, x.pc) && x.claimed == {} && x.pc.Wr? && CanWrite(x, v, c)
    ensures ClaimKept(x, v, NextWrite(x, v, c)) && RequestKept(x, NextWrite(x, v, c))
  {
  }

  lemma ClaimByCall(x: Actor, v: View, c: Choice)
    requires PcOk(x.role, x.pc) && x.claimed == {} && CanCall(x, v, c)
    ensures ClaimKept(x, v, NextCall(x, v, c)) && RequestKept(x, NextCall(x, v, c))
  {
  }

  lemma ClaimByOpen(x: Actor, v: View, c: Choice)
    requires PcOk(x.role, x.pc) && x.claimed == {} && x.role.Opener? && CanOpen(x, v, c)
    ensures ClaimKept(x, v, NextOpen(x, v, c)) && RequestKept(x, NextOpen(x, v, c))
  {
  }

  lemma ClaimByClose(x: Actor, v: View, c: Choice)
    requires PcOk(x.role, x.pc) && x.claimed == {} && PartOf(x.pc) == InClose && x.role.Closer? && CanClose(x, v, c)
    ensures ClaimKept(x, v, NextClose(x, v, c)) && RequestKept(x, NextClose(x, v, c))
  {
  }

  lemma ClaimByOther(x: Actor, v: View, c: Choice)
    requires PcOk(x.role, x.pc) && x.claimed == {} && CanOther(x, c)
    ensures ClaimKept(x, v, NextOther(x, v, c)) && RequestKept(x, NextOther(x, v, c))
  {
  }

  lemma ClaimByNext(x: Actor, v: View, c: Choice)
    requires PcOk(x.role, x.pc) && Can(x, v, c)
    ensures ClaimKept(x, v, Next(x, v, c)) && RequestKept(x, Next(x, v, c))
  {
    hide NextWrite, NextOpen, NextClose, NextCall, NextOther, CanWrite, CanOpen, CanClose, CanCall, CanOther;
    if x.claimed == {} {
      hide ClaimKept, RequestKept;
      match PartOf(x.pc)
      case InWrite => ClaimByWrite(x, v, c);
      case InCall => ClaimByCall(x, v, c);
      case InOpen => ClaimByOpen(x, v, c);
      case InClose => ClaimByClose(x, v, c);
      case Elsewhere => ClaimByOther(x, v, c);
    }
  }

  // ------------------------------------------------------------- whole states

  ghost predicate InHands(s: State, r: RequestId) {
    exists a :: 0 <= a < |s.actors| && r in s.actors[a].claimed
  }

  ghost predicate PendingUnfinished(s: State) {
    forall r :: r in s.conn.pending ==> r in s.completions && s.completions[r] == []
  }

  ghost predicate HandsUnfinished(s: State) {
    forall a, r :: 0 <= a < |s.actors| && r in s.actors[a].claimed ==>
      r in s.completions && s.completions[r] == [] && r !in s.conn.pending
  }

  ghost predicate HandsDisjoint(s: State) {
    forall a, b, r :: 0 <= a < b < |s.actors| && r in s.actors[a].claimed ==> r !in s.actors[b].claimed
  }

  ghost predicate OnceEach(s: State) {
    forall r :: r in s.completions ==> |s.completions[r]| <= 1
  }

  ghost predicate Accounted(s: State) {
    forall r :: r in s.completions && s.completions[r] == [] ==> r in s.conn.pending || InHands(s, r)
  }

  /** Where a request is: in the table, in one completer's hands, or completed. */
  ghost predicate Table(s: State) {
    PendingUnfinished(s) && HandsUnfinished(s) && HandsDisjoint(s) && OnceEach(s) && Accounted(s)
  }

  /** Ids are never reused, and a request exists exactly from its registration on. */
  ghost predicate Ids(s: State) {
    && (forall r :: r in s.completions ==> r <= s.lastId)
    && (forall a :: 0 <= a < |s.actors| && RequestOf(s.actors[a].role).Some? ==>
          var r := RequestOf(s.actors[a].role).value;
          && r <= s.lastId
          && (Unregistered(s.actors[a].pc) ==> r !in s.completions)
          && (NeedsRequest(s.actors[a].pc) ==> r in s.completions))
    && (forall a, b :: 0 <= a < b < |s.actors| && RequestOf(s.actors[a].role).Some? ==>
          RequestOf(s.actors[a].role) != RequestOf(s.actors[b].role))
  }

  ghost predicate IsCloserOf(s: State, r: RequestId) {
    exists a :: 0 <= a < |s.actors| && s.actors[a].role == Closer(r)
  }

  /** What each phase allows in the table, and the one announcement of unavailability. */
  ghost predicate Phases(s: State) {
    && (s.conn.phase == Closing ==> forall r :: r in s.conn.pending ==> IsCloserOf(s, r))
    && (s.conn.phase == Closed || s.conn.phase == Aborted ==> s.conn.pending == {})
    && (s.conn.phase == Open <==> s.conn.unavailableCloses == 0)
    && (s.conn.phase == Open <==> s.conn.unavailable == None)
    && s.conn.unavailableCloses <= 1
  }

  ghost predicate Pending(s: State) {
    Table(s) && Ids(s) && Phases(s)
  }

  /** Nothing is lost: a request that leaves the table is in the actor's hands. */
  lemma NothingLost(s: State, a: ActorId, y: Actor, e: Effect)
    requires Pending(s) && IsActor(s, a)
    requires ClaimKept(s.actors[a], ViewOf(s, a), (y, e))
    ensures Accounted(Commit(s, a, y, e))
  {
    var t := Commit(s, a, y, e);
    assert t.actors[a] == y;
    forall r | r in t.completions && t.completions[r] == []
      ensures r in t.conn.pending || InHands(t, r)
    {
      if r in y.claimed {
        assert r in t.actors[a].claimed;
      } else if r in s.completions && InHands(s, r) {
        var b :| 0 <= b < |s.actors| && r in s.actors[b].claimed;
        assert b != a ==> t.actors[b] == s.actors[b];
      }
    }
  }

  lemma TableKept(s: State, a: ActorId, y: Actor, e: Effect)
    requires Pending(s) && IsActor(s, a)
    requires ClaimKept(s.actors[a], ViewOf(s, a), (y, e))
    ensures PendingUnfinished(Commit(s, a, y, e)) && OnceEach(Commit(s, a, y, e))
  {
    hide InHands, Phases, HandsDisjoint;
  }

  lemma HandsKeptApart(s: State, a: ActorId, y: Actor, e: Effect)
    requires Pending(s) && IsActor(s, a)
    requires ClaimKept(s.actors[a], ViewOf(s, a), (y, e))
    ensures HandsDisjoint(Commit(s, a, y, e))
  {
    hide InHands, Phases, Ids, ConnAfter, JobsAfter, CompletionsAfter, TransitionsAfter, OpenFilesAfter;
    var t := Commit(s, a, y, e);
    assert forall b :: 0 <= b < |s.actors| && b != a ==> t.actors[b] == s.actors[b];
    forall b, r | 0 <= b < |s.actors| && b != a && r in y.claimed
      ensures r !in s.actors[b].claimed
    {
    }
  }

  lemma HandsKeptOpen(s: State, a: ActorId, y: Actor, e: Effect)
    requires Pending(s) && IsActor(s, a)
    requires ClaimKept(s.actors[a], ViewOf(s, a), (y, e))
    ensures HandsUnfinished(Commit(s, a, y, e))
  {
    hide InHands, Phases;
    var t := Commit(s, a, y, e);
    forall b, r | 0 <= b < |t.actors| && r in t.actors[b].claimed
      ensures r in t.completions && t.completions[r] == [] && r !in t.conn.pending
    {
      if b < |s.actors| && b != a {
        assert t.actors[b] == s.actors[b];
        assert r in s.completions;
      }
    }
  }

  lemma TableCommit(s: State, a: ActorId, y: Actor, e: Effect)
    requires Pending(s) && IsActor(s, a)
    requires ClaimKept(s.actors[a], ViewOf(s, a), (y, e))
    ensures Table(Commit(s, a, y, e))
  {
    hide Commit, Pending, ClaimKept;
    TableKept(s, a, y, e);
    HandsKeptApart(s, a, y, e);
    HandsKeptOpen(s, a, y, e);
    NothingLost(s, a, y, e);
  }

  lemma IdsCommit(s: State, a: ActorId, y: Actor, e: Effect)
    requires Pending(s) && IsActor(s, a) && y.role == s.actors[a].role
    requires ClaimKept(s.actors[a], ViewOf(s, a), (y, e)) && RequestKept(s.actors[a], (y, e))
    ensures Ids(Commit(s, a, y, e))
  {
    hide Table, Phases;
  }

  lemma PhasesCommit(s: State, a: ActorId, y: Actor, e: Effect)
    requires Pending(s) && IsActor(s, a) && y.role == s.actors[a].role && PcOk(y.role, s.actors[a].pc)
    requires ClaimKept(s.actors[a], ViewOf(s, a), (y, e))
    ensures Phases(Commit(s, a, y, e))
  {
    hide Table, Ids;
    var t := Commit(s, a, y, e);
    assert t.actors[a] == y;
    forall r | t.conn.phase == Closing && r in t.conn.pending
      ensures IsCloserOf(t, r)
    {
      if e.StartClosing? {
        assert t.actors[a].role == Closer(r);
      } else {
        assert IsCloserOf(s, r);
        var b :| 0 <= b < |s.actors| && s.actors[b].role == Closer(r);
        assert t.actors[b].role == Closer(r);
      }
    }
  }

  lemma PendingAct(s: State, a: ActorId, c: Choice)
    requires Roles(s) && Pending(s) && Enabled(s, Act(a, c))
    ensures Pending(Apply(s, Act(a, c)))
  {
    hide Next, Can, Table, Ids, Phases;
    var x, v := s.actors[a], ViewOf(s, a);
    KeptByNext(x, v, c);
    ClaimByNext(x, v, c);
    var (y, e) := Next(x, v, c);
    TableCommit(s, a, y, e);
    IdsCommit(s, a, y, e);
    PhasesCommit(s, a, y, e);
  }

  lemma HandsInBackground(s: State, t: State)
    requires Background(s, t)
    ensures forall r :: InHands(s, r) ==> InHands(t, r)
    ensures forall r :: IsCloserOf(s, r) ==> IsCloserOf(t, r)
  {
    forall r | InHands(s, r)
      ensures InHands(t, r)
    {
      var a :| 0 <= a < |s.actors| && r in s.actors[a].claimed;
      assert SameButContext(s.actors[a], t.actors[a]);
    }
    forall r | IsCloserOf(s, r)
      ensures IsCloserOf(t, r)
    {
      var a :| 0 <= a < |s.actors| && s.actors[a].role == Closer(r);
      assert SameButContext(s.actors[a], t.actors[a]);
    }
  }

  lemma TableInBackground(s: State, t: State)
    requires Table(s) && Background(s, t)
    ensures Table(t)
  {
    HandsInBackground(s, t);
    hide InHands, JustStarted;
    assert forall a :: 0 <= a < |s.actors| ==> t.actors[a].claimed == s.actors[a].claimed;
    assert forall a :: |s.actors| <= a < |t.actors| ==> t.actors[a].claimed == {} by {
      if |s.actors| < |t.actors| {
        assert JustStarted(s, t, t.actors[|s.actors|]);
        FreshHands(s, t);
      }
    }
  }

  lemma FreshHands(s: State, t: State)
    requires Background(s, t) && |s.actors| < |t.actors|
    ensures t.actors[|s.actors|].claimed == {}
  {
  }

  lemma IdsInBackground(s: State, t: State)
    requires Ids(s) && Background(s, t)
    ensures Ids(t)
  {
    assert forall a :: 0 <= a < |s.actors| ==>
      t.actors[a].role == s.actors[a].role && t.actors[a].pc == s.actors[a].pc;
  }

  lemma PendingOther(s: State, step: Step)
    requires Pending(s) && Enabled(s, step) && !step.Act?
    ensures Pending(Apply(s, step))
  {
    hide Enabled, Apply, Table, Ids;
    BackgroundStep(s, step);
    var t := Apply(s, step);
    TableInBackground(s, t);
    IdsInBackground(s, t);
    HandsInBackground(s, t);
  }

  lemma PendingStep(s: State, step: Step)
    requires Roles(s) && Pending(s) && Enabled(s, step)
    ensures Pending(Apply(s, step))
  {
    hide Enabled, Apply, Pending;
    if step.Act? {
      PendingAct(s, step.a, step.choice);
    } else {
      PendingOther(s, step);
    }
  }
}
