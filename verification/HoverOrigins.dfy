/**
 Where the pool's replies, errors and results come from.
 */
module HoverOrigins {
  import opened Wrappers
  import opened HoverPool

  /** Worker `w` gets `raw` in answer to the request for plan `x`. */
  predicate RepliesBy(s: State, step: Step, x: nat, raw: string) {
    step.WorkerStep? && step.w < |s.workers| && s.workers[step.w] == Asking(x) && step.outcome == Reply(raw)
  }

  lemma ReplyBefore(c: Config, s: State, step: Step, x: nat, raw: string)
    requires Enabled(c, s, step) && x < |Apply(c, s, step).replies| && Apply(c, s, step).replies[x] == Some(raw)
    ensures (x < |s.replies| && s.replies[x] == Some(raw)) || RepliesBy(s, step, x, raw)
  {
    hide Indexes, Contents;
  }

  /** The reply recorded for a plan is the one that came back for its own request. */
  lemma {:induction false} ReplyHasOrigin(
      c: Config, states: seq<State>, steps: seq<Step>, n: nat, x: nat, raw: string) returns (m: nat)
    requires IsRun(c, states, steps) && n < |states| && x < |states[n].replies| && states[n].replies[x] == Some(raw)
    ensures m < n && RepliesBy(states[m], steps[m], x, raw)
    decreases n
  {
    hide Apply, Enabled, RepliesBy;
    if n > 0 {
      hide Init;
      var step := steps[n - 1];
      ReplyBefore(c, states[n - 1], step, x, raw);
      if RepliesBy(states[n - 1], step, x, raw) {
        m := n - 1;
      } else {
        m := ReplyHasOrigin(c, states, steps, n - 1, x, raw);
      }
    }
  }

  /** A request or its decoding fails with this error. */
  predicate FailsBy(s: State, step: Step, error: nat) {
    && step.WorkerStep? && step.w < |s.workers| && step.outcome == Fails(error)
    && (s.workers[step.w].Asking? || s.workers[step.w].Decoding?)
  }

  /** The error was met: it went through the guard, or a worker is on its way there. */
  ghost predicate Met(s: State, error: nat) {
    s.firstError == Some(error) || exists w :: 0 <= w < |s.workers| && FailsWith(s.workers[w], error)
  }

  predicate FailsWith(w: Worker, error: nat) {
    w.Failing? && w.error == error
  }

  lemma MetByGuard(c: Config, s: State, step: Step, error: nat)
    requires Enabled(c, s, step) && Apply(c, s, step).firstError == Some(error)
    ensures Met(s, error)
  {
    hide Indexes, Contents;
    if s.firstError != Some(error) {
      assert FailsWith(s.workers[step.w], error);
    }
  }

  lemma MetByWorker(c: Config, s: State, step: Step, error: nat, w: nat)
    requires Enabled(c, s, step) && w < |Apply(c, s, step).workers| && FailsWith(Apply(c, s, step).workers[w], error)
    ensures (w < |s.workers| && FailsWith(s.workers[w], error)) || FailsBy(s, step, error)
  {
    hide Indexes, Contents;
  }

  lemma MetBefore(c: Config, s: State, step: Step, error: nat)
    requires Enabled(c, s, step) && Met(Apply(c, s, step), error)
    ensures Met(s, error) || FailsBy(s, step, error)
  {
    hide Apply, Enabled, FailsBy, FailsWith;
    var t := Apply(c, s, step);
    if t.firstError == Some(error) {
      MetByGuard(c, s, step, error);
    } else {
      var w :| 0 <= w < |t.workers| && FailsWith(t.workers[w], error);
      MetByWorker(c, s, step, error, w);
    }
  }

  lemma {:induction false} ErrorHasOrigin(c: Config, states: seq<State>, steps: seq<Step>, n: nat, error: nat)
      returns (m: nat)
    requires IsRun(c, states, steps) && n < |states| && Met(states[n], error)
    ensures m < n && FailsBy(states[m], steps[m], error)
    decreases n
  {
    hide Apply, Enabled, FailsBy;
    if n > 0 {
      hide Init, Met;
      var step := steps[n - 1];
      MetBefore(c, states[n - 1], step, error);
      if FailsBy(states[n - 1], step, error) {
        m := n - 1;
      } else {
        m := ErrorHasOrigin(c, states, steps, n - 1, error);
      }
    }
  }

  /** What each result says: a position was out of range, a request or decoding failed
      with that error, or the caller canceled and nothing failed. */
  ghost predicate Honest(c: Config, s: State) {
    s.feeder.Returned? ==>
      match s.feeder.result
      case BadPosition => !AllInRange(c)
      case Failure(e) => AllInRange(c) && s.firstError == Some(e)
      case ContextError => AllInRange(c) && s.parentCanceled && s.firstError == None
      case Signatures(_) => AllInRange(c)
  }

  /** After the return no worker is left. */
  ghost predicate Done(s: State) {
    s.feeder.Returned? ==> forall w :: 0 <= w < |s.workers| ==> s.workers[w] == Exited
  }

  /** As long as the pool works, its positions are in range. */
  ghost predicate Started(c: Config, s: State) {
    !s.feeder.Returned? ==> AllInRange(c)
  }

  lemma HonestStep(c: Config, s: State, step: Step)
    requires Enabled(c, s, step) && Honest(c, s) && Done(s) && Started(c, s)
    ensures Honest(c, Apply(c, s, step)) && Done(Apply(c, s, step)) && Started(c, Apply(c, s, step))
  {
    hide Indexes, Contents, AllInRange;
  }

  lemma HonestInit(c: Config)
    ensures Honest(c, Init(c)) && Done(Init(c)) && Started(c, Init(c))
  {
    hide Indexes, Contents;
  }

  lemma {:induction false} ResultsAreHonest(c: Config, states: seq<State>, steps: seq<Step>, n: nat)
    requires IsRun(c, states, steps) && n < |states|
    ensures Honest(c, states[n]) && Done(states[n]) && Started(c, states[n])
  {
    hide Apply, Enabled, Init, Honest, Done, Started;
    if n == 0 {
      HonestInit(c);
    } else {
      ResultsAreHonest(c, states, steps, n - 1);
      var step := steps[n - 1];
      HonestStep(c, states[n - 1], step);
    }
  }

  /** A returned failure is an error that a request or a decoding met. */
  lemma FailureHasOrigin(c: Config, states: seq<State>, steps: seq<Step>, n: nat, e: nat) returns (m: nat)
    requires IsRun(c, states, steps) && n < |states| && states[n].feeder == Returned(Failure(e))
    ensures m < n && FailsBy(states[m], steps[m], e)
  {
    hide Apply, Enabled, Init;
    ResultsAreHonest(c, states, steps, n);
    m := ErrorHasOrigin(c, states, steps, n, e);
  }
}
