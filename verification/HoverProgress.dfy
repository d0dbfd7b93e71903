/**
 The hover pool comes to an end: it is never stuck, and it takes a bounded number of
 steps of its own, whatever the schedule.
 */
module HoverProgress {
  import opened Wrappers
  import opened HoverPool

  /** A step of the feeder or of a worker, as opposed to the caller's context. */
  predicate IsPoolStep(step: Step) {
    !step.CancelParent? && !step.Propagate?
  }

  // ---------------------------------------------------------- never stuck

  /** Workers leave only once the jobs are closed or the work is canceled. */
  ghost predicate Alive(s: State) {
    && (s.feeder == Offer || s.feeder == Check || s.feeder == Close ==> |s.workers| > 0 && !s.closed)
    && (s.feeder == Wait ==> s.closed)
    && (!s.closed && !s.canceled ==> forall w :: 0 <= w < |s.workers| ==> s.workers[w] != Exited)
  }

  lemma AliveStep(c: Config, s: State, step: Step)
    requires Alive(s) && Enabled(c, s, step)
    ensures Alive(Apply(c, s, step))
  {
    hide Indexes, Verdict;
  }

  lemma AliveInit(c: Config)
    ensures Alive(Init(c))
  {
    hide Indexes;
  }

  lemma {:induction false} AliveRun(c: Config, states: seq<State>, steps: seq<Step>, n: nat)
    requires IsRun(c, states, steps) && n < |states|
    ensures Alive(states[n])
  {
    hide Apply, Enabled, Init, Alive;
    if n == 0 {
      AliveInit(c);
    } else {
      AliveRun(c, states, steps, n - 1);
      var step := steps[n - 1];
      AliveStep(c, states[n - 1], step);
    }
  }

  /** What a worker with an index, or after the jobs were closed, can do next. */
  function WayOn(c: Config, w: Worker): Outcome {
    match w
    case Asking(_) => Fails(0)
    case Decoding(x, raw) => if c.decode(raw, x).Some? then Decoded else Fails(0)
    case _ => Plain
  }

  lemma WorkerCanMove(c: Config, s: State, w: nat)
    requires Shape(c, s) && w < |s.workers| && InHandOk(s, s.workers[w])
    requires s.workers[w] != Exited && (s.workers[w] == Idle ==> s.closed)
    ensures Enabled(c, s, WorkerStep(w, WayOn(c, s.workers[w])))
  {
    hide Indexes;
  }

  /** As long as the pool has not returned, the feeder or a worker can take a step. */
  lemma NeverStuck(c: Config, states: seq<State>, steps: seq<Step>, n: nat) returns (step: Step)
    requires IsRun(c, states, steps) && n < |states| && !states[n].feeder.Returned?
    ensures Enabled(c, states[n], step) && IsPoolStep(step)
  {
    InvRun(c, states, steps, n);
    AliveRun(c, states, steps, n);
    step := Onward(c, states[n]);
  }

  lemma Onward(c: Config, s: State) returns (step: Step)
    requires Inv(c, s) && Alive(s) && !s.feeder.Returned?
    ensures Enabled(c, s, step) && IsPoolStep(step)
  {
    hide Indexes, Slots, Outcomes, CanWork;
    if s.feeder == Check || s.feeder == Close {
      step := FeederStep;
    } else if s.feeder == Offer && s.canceled {
      step := OfferCanceled;
    } else if s.feeder == Offer && s.workers[0] == Idle {
      step := Hand(0);
    } else if s.feeder == Wait && forall w :: 0 <= w < |s.workers| ==> s.workers[w] == Exited {
      step := FeederStep;
    } else {
      var w: nat :| w < |s.workers| && s.workers[w] != Exited && (s.workers[w] == Idle ==> s.closed);
      assert InHandOk(s, s.workers[w]);
      WorkerCanMove(c, s, w);
      step := WorkerStep(w, WayOn(c, s.workers[w]));
    }
  }

  // -------------------------------------------------------------- never endless

  function WorkerRank(w: Worker): nat {
    match w
    case Idle => 1
    case Got(_) => 8
    case Asking(_) => 7
    case Decoding(_, _) => 6
    case Failing(_, _) => 5
    case Exited => 0
  }

  function WorkerRanks(workers: seq<Worker>): nat {
    if workers == [] then 0 else WorkerRanks(workers[..|workers| - 1]) + WorkerRank(workers[|workers| - 1])
  }

  lemma {:induction false} WorkerRanksUpdate(workers: seq<Worker>, w: nat, v: Worker)
    requires w < |workers|
    ensures WorkerRanks(workers[w := v]) + WorkerRank(workers[w]) == WorkerRanks(workers) + WorkerRank(v)
  {
    var n := |workers| - 1;
    if w == n {
      assert workers[w := v][..n] == workers[..n];
    } else {
      assert workers[w := v][..n] == workers[..n][w := v];
      WorkerRanksUpdate(workers[..n], w, v);
    }
  }

  function FeederRank(s: State): nat {
    match s.feeder
    case Offer => 5
    case Check => if s.canceled then 4 else 6
    case Close => if s.canceled then 2 else 4
    case Wait => if s.canceled then 1 else 3
    case Returned(_) => if s.canceled then 0 else 2
  }

  /** The steps the pool can still take. */
  function Rank(c: Config, s: State): int {
    9 * (|Asks(c)| - s.fed) + WorkerRanks(s.workers) + FeederRank(s)
  }

  lemma WorkRankDrops(c: Config, s: State, w: nat, o: Outcome)
    requires w < |s.workers| && CanWork(c, s, s.workers[w], o)
    ensures var t := Work(c, s, w, o);
            && t.fed == s.fed && t.feeder == s.feeder && |t.workers| == |s.workers|
            && WorkerRanks(t.workers) + FeederRank(t) < WorkerRanks(s.workers) + FeederRank(s)
  {
    var t := Work(c, s, w, o);
    assert WorkerRank(t.workers[w]) < WorkerRank(s.workers[w]);
    assert t.workers == s.workers[w := t.workers[w]];
    assert FeederRank(t) <= FeederRank(s);
    hide WorkerRanks, WorkerRank, Work, CanWork, FeederRank;
    WorkerRanksUpdate(s.workers, w, t.workers[w]);
  }

  lemma RankStep(c: Config, s: State, step: Step)
    requires Shape(c, s) && Enabled(c, s, step)
    ensures Rank(c, Apply(c, s, step)) + (if IsPoolStep(step) then 1 else 0) <= Rank(c, s)
  {
    hide Indexes, Verdict;
    match step
    case WorkerStep(w, o) =>
      hide Work, CanWork, WorkerRanks, FeederRank;
      WorkRankDrops(c, s, w, o);
    case Hand(w) =>
      hide WorkerRanks;
      WorkerRanksUpdate(s.workers, w, Got(Asks(c)[s.fed]));
    case _ =>
      hide WorkerRanks;
  }

  /** How many of the first `n` steps are the pool's own. */
  function PoolSteps(steps: seq<Step>, n: nat): nat
    requires n <= |steps|
  {
    if n == 0 then 0 else PoolSteps(steps, n - 1) + if IsPoolStep(steps[n - 1]) then 1 else 0
  }

  lemma {:induction false} IdleRanks(workers: seq<Worker>)
    requires forall w :: 0 <= w < |workers| ==> workers[w] == Idle
    ensures WorkerRanks(workers) == |workers|
  {
    if workers != [] {
      IdleRanks(workers[..|workers| - 1]);
    }
  }

  lemma RankInit(c: Config)
    ensures 0 <= Rank(c, Init(c)) <= 9 * |Asks(c)| + MAX_CONCURRENT + 5
  {
    hide Indexes, WorkerRanks;
    IdleRanks(Init(c).workers);
  }

  lemma ShapeOf(c: Config, s: State)
    requires Inv(c, s)
    ensures Shape(c, s)
  {
    hide Shape, Hands, Slots, Outcomes;
  }

  lemma {:induction false} RankRun(c: Config, states: seq<State>, steps: seq<Step>, n: nat)
    requires IsRun(c, states, steps) && n < |states|
    ensures PoolSteps(steps, n) + Rank(c, states[n]) <= Rank(c, states[0])
  {
    hide Apply, Enabled, Init, Inv, Rank, Shape;
    if n > 0 {
      RankRun(c, states, steps, n - 1);
      InvRun(c, states, steps, n - 1);
      ShapeOf(c, states[n - 1]);
      var step := steps[n - 1];
      RankStep(c, states[n - 1], step);
    }
  }

  /** Every run has a number of feeder and worker steps that is linear in the requests
      to be made; together with NeverStuck, the pool always returns. */
  lemma NeverEndless(c: Config, states: seq<State>, steps: seq<Step>, n: nat)
    requires IsRun(c, states, steps) && n < |states|
    ensures PoolSteps(steps, n) <= 9 * |Asks(c)| + MAX_CONCURRENT + 5
  {
    RankRun(c, states, steps, n);
    RankInit(c);
    InvRun(c, states, steps, n);
    hide Indexes, WorkerRanks, FeederRank, Hands, Slots, Outcomes;
    assert Shape(c, states[n]);
  }
}
