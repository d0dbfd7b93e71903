/**
 Who retries an open that failed: a transition is retryable exactly when its owner
 failed by its own cancellation on an open connection, and waiters retry exactly the
 retryable ones.
 */
module TransportRetries {
  import opened Wrappers
  import opened Connection
  import opened TransportModel
  import opened TransportGate
  import opened TransportOpens
  import opened TransportTheorems
  import opened TransportOrigins
  import Framing

  /** The elected opener failed by its own cancellation, while the connection was open. */
  predicate FailedByOwnCancel(x: Actor, conn: Conn)
    requires x.pc.OpenFailed?
  {
    x.canceled && (x.pc.err == CtxErr || x.pc.err == OtherErr(true)) && conn.phase == Open
  }

  /** The step in which opener `a` gives up the open that transition `n` stands for. */
  predicate GivesUp(s: State, step: Step, a: ActorId, n: nat) {
    && step == Act(a, Pass) && a < |s.actors| && s.actors[a].claimed == {}
    && s.actors[a].role.Opener? && s.actors[a].pc.OpenFailed? && s.actors[a].transition == n
  }

  // ------------------------------------------------------------- one program step

  /** How the mark of a failed open is made and published. */
  predicate MarkKept(x: Actor, v: View, c: Choice, ye: (Actor, Effect)) {
    var (y, e) := ye;
    && (y.pc.OpenPublish? && y.pc.source == None ==>
          && y.transition == x.transition && y.role == x.role
          && (|| (x.pc == y.pc && !e.Publish?)
              || (x.pc.OpenFailed? && c == Pass && x.claimed == {}
                  && (y.pc.retryable <==> FailedByOwnCancel(x, v.conn)))))
    && (x.role.Opener? && x.pc.OpenFailed? && x.claimed == {} ==>
          y.pc.OpenPublish? && y.pc.source == None && y.role == x.role)
    && (x.pc.OpenPublish? ==> e.Publish? || (y.pc == x.pc && y.transition == x.transition && y.role == x.role))
    && (e.Publish? ==> x.pc == OpenPublish(e.source, e.retryable) && y.transition == x.transition)
  }

  /** How a waiter leaves its wait. */
  predicate WaitKept(x: Actor, v: View, ye: (Actor, Effect)) {
    var (y, e) := ye;
    && (x.pc.Finished? ==> y.pc.Finished?)
    && (x.role.Opener? && x.pc == OpenWait ==>
          || (y.pc == OpenWait && y.transition == x.transition)
          || y.pc.Finished?
          || (v.transition.Some? && v.transition.value.done && v.transition.value.retryable))
  }

  predicate RetryKept(x: Actor, v: View, c: Choice, ye: (Actor, Effect)) {
    MarkKept(x, v, c, ye) && WaitKept(x, v, ye)
  }

  lemma RetryByWrite(x: Actor, v: View, c: Choice)
    requires PcOk(x.role, x.pc) && x.claimed == {} && x.pc.Wr? && CanWrite(x, v, c)
    ensures RetryKept(x, v, c, NextWrite(x, v, c))
  {
    hide Framing.FrameBytes;
  }

  lemma RetryByCall(x: Actor, v: View, c: Choice)
    requires PcOk(x.role, x.pc) && x.claimed == {} && CanCall(x, v, c)
    ensures RetryKept(x, v, c, NextCall(x, v, c))
  {
    hide Framing.FrameBytes;
  }

  lemma RetryByOpen(x: Actor, v: View, c: Choice)
    requires PcOk(x.role, x.pc) && x.claimed == {} && x.role.Opener? && CanOpen(x, v, c)
    ensures RetryKept(x, v, c, NextOpen(x, v, c))
  {
    hide Framing.FrameBytes;
  }

  lemma RetryByClose(x: Actor, v: View, c: Choice)
    requires PcOk(x.role, x.pc) && x.claimed == {}
    requires PartOf(x.pc) == InClose && x.role.Closer? && CanClose(x, v, c)
    ensures RetryKept(x, v, c, NextClose(x, v, c))
  {
    hide Framing.FrameBytes;
  }

  lemma RetryByOther(x: Actor, v: View, c: Choice)
    requires PcOk(x.role, x.pc) && x.claimed == {} && CanOther(x, c)
    ensures RetryKept(x, v, c, NextOther(x, v, c))
  {
    hide Framing.FrameBytes;
  }

  lemma RetryByNext(x: Actor, v: View, c: Choice)
    requires PcOk(x.role, x.pc) && Can(x, v, c)
    ensures RetryKept(x, v, c, Next(x, v, c))
  {
    hide NextWrite, NextOpen, NextClose, NextCall, NextOther, CanWrite, CanOpen, CanClose, CanCall, CanOther;
    if x.claimed == {} {
      hide RetryKept, PcOk;
      match PartOf(x.pc)
      case InWrite => RetryByWrite(x, v, c);
      case InCall => RetryByCall(x, v, c);
      case InOpen => RetryByOpen(x, v, c);
      case InClose => RetryByClose(x, v, c);
      case Elsewhere => RetryByOther(x, v, c);
    }
  }

  // ------------------------------------------------------------------ whole steps

  /** An actor's step and the transitions: a finished one never changes, and the others
      change only by their owner's publishing. */
  ghost predicate TransitionsKept(s: State, t: State, a: ActorId) {
    && |s.transitions| <= |t.transitions| <= |s.transitions| + 1
    && (forall n :: 0 <= n < |s.transitions| && t.transitions[n] != s.transitions[n] ==>
          && !s.transitions[n].done && s.transitions[n].owner == a && a < |s.actors|
          && s.actors[a].role.Opener? && s.actors[a].pc.OpenPublish? && s.actors[a].transition == n
          && t.transitions[n] == s.transitions[n].(done := true, source := s.actors[a].pc.source,
                                                   retryable := s.actors[a].pc.retryable))
    && (|t.transitions| > |s.transitions| ==> !t.transitions[|s.transitions|].done)
  }

  lemma StepOfOpener(s: State, a: ActorId, c: Choice, y: Actor, e: Effect)
    requires Roles(s) && Opens(s) && Enabled(s, Act(a, c)) && (y, e) == Next(s.actors[a], ViewOf(s, a), c)
    ensures RetryKept(s.actors[a], ViewOf(s, a), c, (y, e))
    ensures a < |s.actors| <= |Apply(s, Act(a, c)).actors| && Apply(s, Act(a, c)).actors[a] == y
    ensures forall b :: 0 <= b < |s.actors| && b != a ==> Apply(s, Act(a, c)).actors[b] == s.actors[b]
    ensures forall b :: |s.actors| <= b < |Apply(s, Act(a, c)).actors| ==>
              !Apply(s, Act(a, c)).actors[b].pc.OpenPublish?
    ensures TransitionsKept(s, Apply(s, Act(a, c)), a)
    ensures e.Publish? && s.actors[a].role.Opener? ==>
              s.actors[a].transition < |s.transitions|
              && Apply(s, Act(a, c)).transitions[s.actors[a].transition]
                 == s.transitions[s.actors[a].transition].(done := true, source := e.source, retryable := e.retryable)
  {
    hide Framing.FrameBytes, Can, Next, PcOk, ConnAfter, JobsAfter, CompletionsAfter, OpenFilesAfter, Opens,
         WaitKept, OriginKept, GivesChild, CarriedBy, FailedByOwnCancel;
    PcOkOf(s, a);
    RetryByNext(s.actors[a], ViewOf(s, a), c);
    ActorStep(s, a, c);
    NoChildPublishes(s, a, c);
    if e.Publish? {
      PublisherOwns(s, a, e);
    }
  }

  /** A forked actor begins by writing. */
  lemma NoChildPublishes(s: State, a: ActorId, c: Choice)
    requires Roles(s) && Enabled(s, Act(a, c))
    ensures forall b :: |s.actors| <= b < |Apply(s, Act(a, c)).actors| ==> Apply(s, Act(a, c)).actors[b].pc.Wr?
  {
    hide Framing.FrameBytes, Can, Next, Apply, OriginKept, Roles;
    ActorStep(s, a, c);
  }

  lemma PublisherOwns(s: State, a: ActorId, e: Effect)
    requires Roles(s) && Opens(s) && a < |s.actors| && s.actors[a].pc.OpenPublish?
    ensures s.actors[a].role.Opener? && OwnsFile(s, a)
  {
    hide Framing.FrameBytes, OpenFrames, OwnsFile;
    PcOkOf(s, a);
    assert Owner(s.actors[a]);
  }

  // --------------------------------------------------------------- from the step on

  /** Transition `n` of opener `a` has failed with this mark, or is about to. */
  predicate Decided(s: State, a: ActorId, n: nat, retryable: bool) {
    && n < |s.transitions| && s.transitions[n].owner == a && a < |s.actors|
    && if s.transitions[n].done then s.transitions[n].source == None && s.transitions[n].retryable == retryable
       else s.actors[a].role.Opener? && s.actors[a].transition == n && s.actors[a].pc == OpenPublish(None, retryable)
  }

  lemma DecidedAtFirst(s: State, step: Step, a: ActorId, n: nat)
    requires Roles(s) && Opens(s) && Enabled(s, step) && GivesUp(s, step, a, n)
    ensures Decided(Apply(s, step), a, n, FailedByOwnCancel(s.actors[a], s.conn))
  {
    hide Framing.FrameBytes, Can, Next, Apply, Opens, Enabled, FailedByOwnCancel, WaitKept;
    OwnerOf(s, a);
    IsActorOf(s, step);
    var (y, e) := Next(s.actors[a], ViewOf(s, a), Pass);
    StepOfOpener(s, a, Pass, y, e);
  }

  lemma OwnerOf(s: State, a: ActorId)
    requires Opens(s) && a < |s.actors| && Owner(s.actors[a])
    ensures OwnsFile(s, a)
  {
    hide Framing.FrameBytes, OpenFrames, OwnsFile, Owner;
  }

  lemma DecidedStep(s: State, step: Step, a: ActorId, n: nat, retryable: bool)
    requires Roles(s) && Opens(s) && Enabled(s, step) && Decided(s, a, n, retryable)
    ensures Decided(Apply(s, step), a, n, retryable)
  {
    hide Framing.FrameBytes, Can, Next, Apply, Opens, Enabled, FailedByOwnCancel, WaitKept;
    if step.Act? {
      IsActorOf(s, step);
      var (y, e) := Next(s.actors[step.a], ViewOf(s, step.a), step.choice);
      StepOfOpener(s, step.a, step.choice, y, e);
    } else {
      BackgroundStep(s, step);
      assert SameButContext(s.actors[a], Apply(s, step).actors[a]);
    }
  }

  lemma IsActorOf(s: State, step: Step)
    requires Enabled(s, step) && step.Act?
    ensures IsActor(s, step.a) && Can(s.actors[step.a], ViewOf(s, step.a), step.choice)
  {
    hide Framing.FrameBytes, Can, ViewOf;
  }

  /** Once the owner of a transition gives up, the transition's mark is decided: if it
      is done, it has no source, and it is retryable exactly when the owner failed by its
      own cancellation while the connection was open. */
  lemma {:induction false} MarkIsDecided(
      states: seq<State>, steps: seq<Step>, i: nat, k: nat, a: ActorId, n: nat)
    requires IsRun(states, steps) && i < k < |states| && GivesUp(states[i], steps[i], a, n)
    ensures Decided(states[k], a, n, FailedByOwnCancel(states[i].actors[a], states[i].conn))
    decreases k
  {
    hide Framing.FrameBytes, Inv, Enabled, Apply, Init, Decided, GivesUp;
    assert states[i].actors[a].pc.OpenFailed? by { GivesUpAt(states[i], steps[i], a, n); }
    hide FailedByOwnCancel;
    InvRun(states, steps, k - 1);
    RolesOf(states[k - 1]);
    OpensOf(states[k - 1]);
    assert Enabled(states[k - 1], steps[k - 1]) && states[k - 1 + 1] == Apply(states[k - 1], steps[k - 1]);
    if i == k - 1 {
      DecidedAtFirst(states[i], steps[i], a, n);
    } else {
      MarkIsDecided(states, steps, i, k - 1, a, n);
      DecidedStep(states[k - 1], steps[k - 1], a, n, FailedByOwnCancel(states[i].actors[a], states[i].conn));
    }
  }

  lemma GivesUpAt(s: State, step: Step, a: ActorId, n: nat)
    requires GivesUp(s, step, a, n)
    ensures a < |s.actors| && s.actors[a].pc.OpenFailed?
  {
  }

  // ------------------------------------------------------------ back to the step

  lemma PublisherBefore(s: State, step: Step, a: ActorId)
    requires Roles(s) && Opens(s) && Enabled(s, step) && a < |Apply(s, step).actors|
    requires Apply(s, step).actors[a].role.Opener? && Apply(s, step).actors[a].pc.OpenPublish?
    requires Apply(s, step).actors[a].pc.source == None
    ensures a < |s.actors| && s.actors[a].role.Opener?
    ensures var y := Apply(s, step).actors[a];
            && y.transition == s.actors[a].transition
            && (s.actors[a].pc == y.pc
                || (GivesUp(s, step, a, y.transition)
                    && (y.pc.retryable <==> FailedByOwnCancel(s.actors[a], s.conn))))
  {
    hide Framing.FrameBytes, Can, Next, Apply, Opens, Enabled, FailedByOwnCancel, WaitKept, TransitionsKept;
    if step.Act? {
      IsActorOf(s, step);
      var (y, e) := Next(s.actors[step.a], ViewOf(s, step.a), step.choice);
      StepOfOpener(s, step.a, step.choice, y, e);
    } else {
      BackgroundStep(s, step);
      if a < |s.actors| {
        assert SameButContext(s.actors[a], Apply(s, step).actors[a]);
      }
    }
  }

  lemma {:induction false} PublisherGaveUp(states: seq<State>, steps: seq<Step>, k: nat, a: ActorId) returns (i: nat)
    requires IsRun(states, steps) && k < |states| && a < |states[k].actors| && states[k].actors[a].role.Opener?
    requires states[k].actors[a].pc.OpenPublish? && states[k].actors[a].pc.source == None
    ensures i < k && GivesUp(states[i], steps[i], a, states[k].actors[a].transition)
    ensures states[k].actors[a].pc.retryable <==> FailedByOwnCancel(states[i].actors[a], states[i].conn)
    decreases k
  {
    hide Framing.FrameBytes, Inv, Enabled, Apply, FailedByOwnCancel;
    if k > 0 {
      hide Init;
      InvRun(states, steps, k - 1);
      RolesOf(states[k - 1]);
      OpensOf(states[k - 1]);
      assert Enabled(states[k - 1], steps[k - 1]) && states[k - 1 + 1] == Apply(states[k - 1], steps[k - 1]);
      PublisherBefore(states[k - 1], steps[k - 1], a);
      if states[k - 1].actors[a].pc == states[k].actors[a].pc {
        i := PublisherGaveUp(states, steps, k - 1, a);
      } else {
        i := k - 1;
      }
    }
  }

  /** What a step that finishes a transition is. */
  lemma TransitionBefore(s: State, step: Step, n: nat)
    requires Roles(s) && Opens(s) && Enabled(s, step)
    requires n < |Apply(s, step).transitions| && Apply(s, step).transitions[n].done
    ensures n < |s.transitions|
    ensures var t, u := s.transitions[n], Apply(s, step).transitions[n];
            || u == t
            || (&& u.owner == t.owner < |s.actors| && s.actors[t.owner].role.Opener?
                && s.actors[t.owner].pc == OpenPublish(u.source, u.retryable) && s.actors[t.owner].transition == n)
  {
    hide Framing.FrameBytes, Can, Next, Apply, Opens, Enabled, RetryKept;
    if step.Act? {
      IsActorOf(s, step);
      var (y, e) := Next(s.actors[step.a], ViewOf(s, step.a), step.choice);
      StepOfOpener(s, step.a, step.choice, y, e);
    } else {
      BackgroundStep(s, step);
    }
  }

  /** A transition that ended without a source is retryable if and only if its owner
      gave it up after failing by its own cancellation on an open connection. */
  lemma {:induction false} RetryableExactly(states: seq<State>, steps: seq<Step>, k: nat, n: nat) returns (i: nat)
    requires IsRun(states, steps) && k < |states| && n < |states[k].transitions|
    requires states[k].transitions[n].done && states[k].transitions[n].source == None
    ensures i < k && GivesUp(states[i], steps[i], states[k].transitions[n].owner, n)
    ensures states[k].transitions[n].retryable <==>
              FailedByOwnCancel(states[i].actors[states[k].transitions[n].owner], states[i].conn)
    decreases k
  {
    hide Framing.FrameBytes, Inv, Enabled, Apply, FailedByOwnCancel;
    if k > 0 {
      hide Init;
      InvRun(states, steps, k - 1);
      RolesOf(states[k - 1]);
      OpensOf(states[k - 1]);
      assert Enabled(states[k - 1], steps[k - 1]) && states[k - 1 + 1] == Apply(states[k - 1], steps[k - 1]);
      TransitionBefore(states[k - 1], steps[k - 1], n);
      if states[k - 1].transitions[n] == states[k].transitions[n] {
        i := RetryableExactly(states, steps, k - 1, n);
      } else {
        i := PublisherGaveUp(states, steps, k - 1, states[k].transitions[n].owner);
      }
    }
  }

  // ------------------------------------------------------------------- the waiters

  /** An opener that was not canceled never ends with the failure of another opener
      that failed by its own cancellation on an open connection. */
  lemma CancelFailsNobodyElse(states: seq<State>, steps: seq<Step>, i: nat, k: nat, a: ActorId, o: ActorId)
    requires IsRun(states, steps) && i < k < |states| && a < |states[k].actors| && o != a
    requires states[k].actors[a].role.Opener? && states[k].actors[a].pc == Finished(false, false)
    requires GivesUp(states[i], steps[i], o, states[k].actors[a].transition)
    ensures !FailedByOwnCancel(states[i].actors[o], states[i].conn)
  {
    hide Framing.FrameBytes, Inv, Enabled, Apply, Init, FailedByOwnCancel;
    WaiterTakesFinalErrors(states, steps, k, a);
    MarkIsDecided(states, steps, i, k, o, states[k].actors[a].transition);
  }

  lemma WaitingStep(s: State, step: Step, a: ActorId, n: nat)
    requires Roles(s) && Opens(s) && Enabled(s, step) && WaitsOrKnows(s, a, n)
    ensures WaitsOrKnows(Apply(s, step), a, n)
  {
    hide Framing.FrameBytes, Can, Next, Apply, Opens, Enabled, MarkKept;
    if step.Act? {
      IsActorOf(s, step);
      var (y, e) := Next(s.actors[step.a], ViewOf(s, step.a), step.choice);
      StepOfOpener(s, step.a, step.choice, y, e);
      KeptByNext(s.actors[step.a], ViewOf(s, step.a), step.choice);
    } else {
      BackgroundStep(s, step);
      assert SameButContext(s.actors[a], Apply(s, step).actors[a]);
    }
  }

  /** Opener `a` still waits for transition `n`, has ended, or may retry because the
      transition failed and is retryable. */
  predicate WaitsOrKnows(s: State, a: ActorId, n: nat) {
    && a < |s.actors| && s.actors[a].role.Opener?
    && (|| (s.actors[a].pc == OpenWait && s.actors[a].transition == n)
        || s.actors[a].pc.Finished?
        || (n < |s.transitions| && s.transitions[n].done && s.transitions[n].retryable))
  }

  /** A waiter goes back to the election only over a retryable transition. */
  lemma {:induction false} OnlyRetryableIsRetried(
      states: seq<State>, steps: seq<Step>, i: nat, k: nat, a: ActorId)
    requires IsRun(states, steps) && i <= k < |states| && a < |states[i].actors|
    requires states[i].actors[a].role.Opener? && states[i].actors[a].pc == OpenWait
    ensures WaitsOrKnows(states[k], a, states[i].actors[a].transition)
    decreases k
  {
    hide Framing.FrameBytes, Inv, Enabled, Apply, Init;
    if i < k {
      hide WaitsOrKnows;
      OnlyRetryableIsRetried(states, steps, i, k - 1, a);
      InvRun(states, steps, k - 1);
      RolesOf(states[k - 1]);
      OpensOf(states[k - 1]);
      assert Enabled(states[k - 1], steps[k - 1]) && states[k - 1 + 1] == Apply(states[k - 1], steps[k - 1]);
      WaitingStep(states[k - 1], steps[k - 1], a, states[i].actors[a].transition);
    }
  }

  /** The error of a failed open is the one its owner met: the failure of one of its own
      steps, or the end of its own context. */
  lemma OpenErrorHasOrigin(states: seq<State>, steps: seq<Step>, k: nat, a: ActorId) returns (n: nat)
    requires IsRun(states, steps) && k < |states| && a < |states[k].actors| && states[k].actors[a].role.Opener?
    requires states[k].actors[a].pc.OpenFailed?
    ensures n < k && FailedBy(states[n], steps[n], a, states[k].actors[a].pc.err)
  {
    n := ErrorHasStep(states, steps, k, a, states[k].actors[a].pc.err);
  }
}
