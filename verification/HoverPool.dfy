/**
 The hover worker pool of requestSignatures in internal/lsp/signatures.go: a
 feeder hands indexes over an unbuffered channel to at most eight workers, the
 first error cancels the rest, and the slice is returned only if all went well.
 One step is one channel operation, one context check, one once-guard, or the end
 of one request or decoding.
 */
module HoverPool {
  import opened Wrappers

  const MAX_CONCURRENT := 8

  /** A signature known from the source, or a position to ask about; a position may
      be out of the protocol's range. */
  datatype Plan = Direct(text: string) | Ask(inRange: bool)

  /** `decode` is the hover decoder applied to plan number i's symbol. */
  datatype Config = Config(plans: seq<Plan>, decode: (string, nat) -> Option<string>)

  /** From `Got` to `Failing` the worker has index `x` in its hands. */
  datatype Worker =
    | Idle
    | Got(x: nat)
    | Asking(x: nat)
    | Decoding(x: nat, raw: string)
    | Failing(x: nat, error: nat)
    | Exited

  datatype Result = Signatures(slots: seq<string>) | Failure(error: nat) | BadPosition | ContextError

  datatype Feeder = Offer | Check | Close | Wait | Returned(result: Result)

  /** `asked` and `replies` record what was requested and what came back. */
  datatype State = State(
    feeder: Feeder,
    fed: nat,
    closed: bool,
    workers: seq<Worker>,
    slots: seq<Option<string>>,
    firstError: Option<nat>,
    canceled: bool,
    parentCanceled: bool,
    asked: seq<nat>,
    replies: seq<Option<string>>)

  // ---------------------------------------------------------------- the start

  /** The indexes to ask about, in order, among the first `n`. */
  function Indexes(plans: seq<Plan>, n: nat): (r: seq<nat>)
    requires n <= |plans|
    ensures forall j :: 0 <= j < |r| ==> r[j] < n && plans[r[j]].Ask?
  {
    if n == 0 then []
    else if plans[n - 1].Ask? then Indexes(plans, n - 1) + [n - 1]
    else Indexes(plans, n - 1)
  }

  function Asks(c: Config): seq<nat> {
    Indexes(c.plans, |c.plans|)
  }

  /** Every plan to ask about is in the list once. */
  lemma {:induction false} IndexesOnce(plans: seq<Plan>, n: nat)
    requires n <= |plans|
    ensures forall j, k :: 0 <= j < k < |Indexes(plans, n)| ==> Indexes(plans, n)[j] < Indexes(plans, n)[k]
    ensures forall i: nat :: i < n && plans[i].Ask? ==> i in Indexes(plans, n)
  {
    if n > 0 {
      IndexesOnce(plans, n - 1);
    }
  }

  function Prefilled(c: Config): seq<Option<string>> {
    seq(|c.plans|, i requires 0 <= i < |c.plans| => if c.plans[i].Direct? then Some(c.plans[i].text) else None)
  }

  function Contents(slots: seq<Option<string>>): seq<string> {
    seq(|slots|, i requires 0 <= i < |slots| => match slots[i] case Some(t) => t case None => "")
  }

  predicate AllInRange(c: Config) {
    forall i :: 0 <= i < |c.plans| ==> c.plans[i] != Ask(false)
  }

  function Min(a: nat, b: nat): nat { if a < b then a else b }

  function Init(c: Config): State {
    State(
      if !AllInRange(c) then Returned(BadPosition)
      else if Asks(c) == [] then Returned(Signatures(Contents(Prefilled(c))))
      else Offer,
      0, false, if AllInRange(c) then seq(Min(|Asks(c)|, MAX_CONCURRENT), _ => Idle) else [],
      Prefilled(c), None, false, false,
      seq(|c.plans|, _ => 0), seq(|c.plans|, _ => None))
  }

  // ---------------------------------------------------------------- the steps

  datatype Outcome = Reply(raw: string) | Decoded | Fails(error: nat) | Plain

  datatype Step =
    | Hand(w: nat)
    | OfferCanceled
    | FeederStep
    | WorkerStep(w: nat, outcome: Outcome)
    | CancelParent
    | Propagate

  predicate CanWork(c: Config, s: State, w: Worker, o: Outcome) {
    match w
    case Idle => s.closed && o == Plain
    case Got(x) => o == Plain && x < |s.asked|
    case Asking(x) => (o.Reply? || o.Fails?) && x < |s.replies|
    case Decoding(x, raw) =>
      x < |s.slots| && if c.decode(raw, x).Some? then o == Decoded || (o.Fails? && s.canceled) else o.Fails?
    case Failing(_, _) => o == Plain
    case Exited => false
  }

  ghost predicate Enabled(c: Config, s: State, step: Step) {
    match step
    case Hand(w) => s.feeder == Offer && w < |s.workers| && s.workers[w] == Idle && s.fed < |Asks(c)|
    case OfferCanceled => s.feeder == Offer && s.canceled
    case FeederStep =>
      (match s.feeder
       case Check => true
       case Close => true
       case Wait => forall w :: 0 <= w < |s.workers| ==> s.workers[w] == Exited
       case _ => false)
    case WorkerStep(w, o) => w < |s.workers| && CanWork(c, s, s.workers[w], o)
    case CancelParent => true
    case Propagate => s.parentCanceled
  }

  function Verdict(s: State): Result {
    if s.firstError.Some? then Failure(s.firstError.value)
    else if s.parentCanceled then ContextError
    else Signatures(Contents(s.slots))
  }

  function Work(c: Config, s: State, w: nat, o: Outcome): State
    requires w < |s.workers| && CanWork(c, s, s.workers[w], o)
  {
    match s.workers[w]
    case Idle => s.(workers := s.workers[w := Exited])
    case Got(x) =>
      if s.canceled then s.(workers := s.workers[w := Exited])
      else s.(workers := s.workers[w := Asking(x)], asked := s.asked[x := s.asked[x] + 1])
    case Asking(x) =>
      (match o
       case Reply(raw) => s.(workers := s.workers[w := Decoding(x, raw)], replies := s.replies[x := Some(raw)])
       case Fails(error) => s.(workers := s.workers[w := Failing(x, error)]))
    case Decoding(x, raw) =>
      (match o
       case Decoded => s.(workers := s.workers[w := Idle], slots := s.slots[x := c.decode(raw, x)])
       case Fails(error) => s.(workers := s.workers[w := Failing(x, error)]))
    case Failing(_, error) =>
      s.(workers := s.workers[w := Exited],
         firstError := if s.firstError.None? then Some(error) else s.firstError,
         canceled := true)
  }

  ghost function Apply(c: Config, s: State, step: Step): State
    requires Enabled(c, s, step)
  {
    match step
    case Hand(w) => s.(workers := s.workers[w := Got(Asks(c)[s.fed])], fed := s.fed + 1, feeder := Check)
    case OfferCanceled => s.(feeder := Check)
    case FeederStep =>
      (match s.feeder
       case Check => s.(feeder := if s.canceled || s.fed == |Asks(c)| then Close else Offer)
       case Close => s.(feeder := Wait, closed := true)
       case Wait => s.(feeder := Returned(Verdict(s))))
    case WorkerStep(w, o) => Work(c, s, w, o)
    case CancelParent => s.(parentCanceled := true)
    case Propagate => s.(canceled := true)
  }

  ghost predicate IsRun(c: Config, states: seq<State>, steps: seq<Step>) {
    && |states| == |steps| + 1
    && states[0] == Init(c)
    && forall i {:trigger steps[i]} :: 0 <= i < |steps| ==>
         Enabled(c, states[i], steps[i]) && states[i + 1] == Apply(c, states[i], steps[i])
  }

  // --------------------------------------------------------------- invariants

  predicate Holds(w: Worker, x: nat) {
    match w
    case Idle => false
    case Exited => false
    case Got(y) => x == y
    case Asking(y) => x == y
    case Decoding(y, _) => x == y
    case Failing(y, _) => x == y
  }

  ghost predicate HasHolder(s: State, x: nat) {
    exists w :: 0 <= w < |s.workers| && Holds(s.workers[w], x)
  }

  /** What a worker's program point says about the index in its hands. */
  predicate InHandOk(s: State, w: Worker)
    requires |s.slots| == |s.asked| == |s.replies|
  {
    match w
    case Idle => true
    case Exited => true
    case Got(x) => x < |s.slots| && s.slots[x] == None && s.asked[x] == 0
    case Asking(x) => x < |s.slots| && s.slots[x] == None && s.asked[x] == 1
    case Decoding(x, raw) => x < |s.slots| && s.slots[x] == None && s.asked[x] == 1 && s.replies[x] == Some(raw)
    case Failing(x, _) => x < |s.slots| && s.slots[x] == None && s.asked[x] == 1
  }

  predicate Shape(c: Config, s: State) {
    && |s.slots| == |s.asked| == |s.replies| == |c.plans|
    && s.fed <= |Asks(c)|
    && |s.workers| <= MAX_CONCURRENT
    && (s.canceled ==> s.parentCanceled || s.firstError.Some?)
    && (s.firstError.Some? ==> s.canceled)
    && (s.feeder == Close || s.feeder == Wait ==> s.fed == |Asks(c)| || s.canceled)
    && (s.feeder == Offer ==> s.fed < |Asks(c)|)
  }

  /** Indexes in hand were fed, and no two workers have the same. */
  ghost predicate Hands(c: Config, s: State)
    requires Shape(c, s)
  {
    && (forall w :: 0 <= w < |s.workers| ==> InHandOk(s, s.workers[w]))
    && (forall w, x: nat :: 0 <= w < |s.workers| && Holds(s.workers[w], x) ==> x in Asks(c)[..s.fed])
    && (forall v, w, x: nat :: 0 <= v < w < |s.workers| && Holds(s.workers[v], x) ==> !Holds(s.workers[w], x))
    && (s.feeder.Returned? ==> forall w :: 0 <= w < |s.workers| ==> s.workers[w] == Exited)
  }

  /** Plan `i` has its text, and where that came from. */
  predicate SlotOk(c: Config, s: State, i: nat)
    requires Shape(c, s) && i < |c.plans|
  {
    match c.plans[i]
    case Direct(text) => s.slots[i] == Some(text) && s.asked[i] == 0
    case Ask(_) =>
      s.slots[i].Some? ==> s.asked[i] == 1 && s.replies[i].Some? && s.slots[i] == c.decode(s.replies[i].value, i)
  }

  ghost predicate Slots(c: Config, s: State)
    requires Shape(c, s)
  {
    && (forall i: nat :: i < |c.plans| ==> SlotOk(c, s, i))
    && (forall j :: s.fed <= j < |Asks(c)| ==> s.slots[Asks(c)[j]] == None && s.asked[Asks(c)[j]] == 0)
    && (!s.canceled ==> forall j :: 0 <= j < s.fed ==> s.slots[Asks(c)[j]].Some? || HasHolder(s, Asks(c)[j]))
  }

  /** A returned slice is complete, and came of a run without trouble. */
  predicate Outcomes(c: Config, s: State)
    requires Shape(c, s)
  {
    match s.feeder
    case Returned(Signatures(r)) =>
      && |r| == |c.plans|
      && forall i: nat :: i < |c.plans| ==> s.slots[i] == Some(r[i])
    case Returned(Failure(e)) => s.firstError == Some(e)
    case _ => true
  }

  ghost predicate Inv(c: Config, s: State) {
    Shape(c, s) && Hands(c, s) && Slots(c, s) && Outcomes(c, s)
  }

  // ----------------------------------------------------------- they are kept

  /** The plans to ask about are exactly the asking ones. */
  lemma AsksOfPlans(c: Config)
    ensures forall j :: 0 <= j < |Asks(c)| ==> c.plans[Asks(c)[j]].Ask?
    ensures forall i: nat :: i < |c.plans| && c.plans[i].Ask? ==> i in Asks(c)
  {
    IndexesOnce(c.plans, |c.plans|);
  }

  lemma InvInit(c: Config)
    ensures Inv(c, Init(c))
  {
    hide Indexes;
    AsksOfPlans(c);
  }

  lemma HolderKept(s: State, t: State, w: nat, x: nat)
    requires w < |s.workers| == |t.workers| && t.workers == s.workers[w := t.workers[w]]
    requires HasHolder(s, x) && (Holds(s.workers[w], x) ==> Holds(t.workers[w], x))
    ensures HasHolder(t, x)
  {
    hide Holds;
    var v :| 0 <= v < |s.workers| && Holds(s.workers[v], x);
    assert Holds(t.workers[v], x);
  }

  lemma InvHand(c: Config, s: State, w: nat)
    requires Inv(c, s) && Enabled(c, s, Hand(w))
    ensures Inv(c, Apply(c, s, Hand(w)))
  {
    var t := Apply(c, s, Hand(w));
    var x := Asks(c)[s.fed];
    IndexesOnce(c.plans, |c.plans|);
    assert Asks(c)[..t.fed] == Asks(c)[..s.fed] + [x];
    assert x !in Asks(c)[..s.fed];
    hide Indexes;
    assert Holds(t.workers[w], x);
    assert HasHolder(t, x);
    forall j | 0 <= j < s.fed && HasHolder(s, Asks(c)[j])
      ensures HasHolder(t, Asks(c)[j])
    {
      HolderKept(s, t, w, Asks(c)[j]);
    }
    forall i: nat | i < |c.plans|
      ensures SlotOk(c, t, i)
    {
      assert SlotOk(c, s, i);
    }
  }

  /** When every worker has left without trouble, every slot is filled. */
  lemma AllFilled(c: Config, s: State)
    requires Shape(c, s) && Slots(c, s) && s.feeder == Wait && s.firstError.None? && !s.parentCanceled
    requires forall w :: 0 <= w < |s.workers| ==> s.workers[w] == Exited
    ensures forall i: nat :: i < |c.plans| ==> s.slots[i].Some?
  {
    IndexesOnce(c.plans, |c.plans|);
    hide Indexes;
    forall i: nat | i < |c.plans|
      ensures s.slots[i].Some?
    {
      assert SlotOk(c, s, i);
      if c.plans[i].Ask? {
        assert i in Asks(c);
        var j :| 0 <= j < |Asks(c)| && Asks(c)[j] == i;
        assert !HasHolder(s, i);
      }
    }
  }

  lemma SlotsFrame(c: Config, s: State, t: State)
    requires Shape(c, s) && Slots(c, s) && Shape(c, t) && t.workers == s.workers && t.fed == s.fed
    requires t.slots == s.slots && t.asked == s.asked && t.replies == s.replies && (s.canceled ==> t.canceled)
    ensures Slots(c, t)
  {
    hide Indexes, Holds;
    assert forall x: nat :: HasHolder(s, x) ==> HasHolder(t, x);
    forall i: nat | i < |c.plans|
      ensures SlotOk(c, t, i)
    {
      assert SlotOk(c, s, i);
    }
  }

  lemma InvFeeder(c: Config, s: State, step: Step)
    requires Inv(c, s) && Enabled(c, s, step) && !step.Hand? && !step.WorkerStep?
    ensures Inv(c, Apply(c, s, step))
  {
    hide Indexes, Slots, Holds;
    SlotsFrame(c, s, Apply(c, s, step));
    if step == FeederStep && s.feeder == Wait && s.firstError.None? && !s.parentCanceled {
      AllFilled(c, s);
    }
  }

  lemma WorkShape(c: Config, s: State, w: nat, o: Outcome)
    requires Inv(c, s) && Enabled(c, s, WorkerStep(w, o))
    ensures Shape(c, Work(c, s, w, o)) && Outcomes(c, Work(c, s, w, o))
  {
    hide Indexes;
    assert !s.feeder.Returned?;
  }

  /** The records of index `x` are the same. */
  predicate SameRecord(s: State, t: State, x: nat) {
    && |t.slots| == |s.slots| && |t.asked| == |s.asked| && |t.replies| == |s.replies|
    && (x < |s.slots| ==> t.slots[x] == s.slots[x])
    && (x < |s.asked| ==> t.asked[x] == s.asked[x])
    && (x < |s.replies| ==> t.replies[x] == s.replies[x])
  }

  /** A worker's step touches the records of its own index only, and it lets go of
      that index when the slot is filled or the work is canceled. */
  ghost predicate WorkerMoves(c: Config, s: State, t: State, w: nat)
    requires Shape(c, s) && Shape(c, t) && w < |s.workers|
  {
    && |t.workers| == |s.workers| && t.workers == s.workers[w := t.workers[w]]
    && t.feeder == s.feeder && t.fed == s.fed && (s.canceled ==> t.canceled)
    && (forall x: nat :: !Holds(s.workers[w], x) ==> SameRecord(s, t, x) && !Holds(t.workers[w], x))
    && InHandOk(t, t.workers[w])
    && (forall x: nat :: x < |c.plans| && Holds(s.workers[w], x) ==>
          && (Holds(t.workers[w], x) || t.slots[x].Some? || t.canceled)
          && (t.slots[x].Some? ==>
                t.asked[x] == 1 && t.replies[x].Some? && t.slots[x] == c.decode(t.replies[x].value, x)))
  }

  lemma MovesInRequest(c: Config, s: State, w: nat, o: Outcome)
    requires Shape(c, s) && w < |s.workers| && InHandOk(s, s.workers[w]) && CanWork(c, s, s.workers[w], o)
    requires Shape(c, Work(c, s, w, o))
    requires s.workers[w].Asking? || s.workers[w].Decoding?
    ensures WorkerMoves(c, s, Work(c, s, w, o), w)
  {
    hide Indexes, Shape;
  }

  lemma MovesAtStart(c: Config, s: State, w: nat, o: Outcome)
    requires Shape(c, s) && w < |s.workers| && InHandOk(s, s.workers[w]) && CanWork(c, s, s.workers[w], o)
    requires Shape(c, Work(c, s, w, o))
    requires !(s.workers[w].Asking? || s.workers[w].Decoding?)
    requires s.workers[w].Got?
    ensures WorkerMoves(c, s, Work(c, s, w, o), w)
  {
    hide Indexes, Shape;
  }

  lemma MovesAtEnd(c: Config, s: State, w: nat, o: Outcome)
    requires Shape(c, s) && w < |s.workers| && InHandOk(s, s.workers[w]) && CanWork(c, s, s.workers[w], o)
    requires Shape(c, Work(c, s, w, o))
    requires !(s.workers[w].Asking? || s.workers[w].Decoding?)
    requires !s.workers[w].Got?
    ensures WorkerMoves(c, s, Work(c, s, w, o), w)
  {
    hide Indexes, Shape;
  }

  lemma MovesAround(c: Config, s: State, w: nat, o: Outcome)
    requires Shape(c, s) && w < |s.workers| && InHandOk(s, s.workers[w]) && CanWork(c, s, s.workers[w], o)
    requires Shape(c, Work(c, s, w, o))
    requires !(s.workers[w].Asking? || s.workers[w].Decoding?)
    ensures WorkerMoves(c, s, Work(c, s, w, o), w)
  {
    hide WorkerMoves, Work, CanWork, Shape, Indexes;
    if s.workers[w].Got? {
      MovesAtStart(c, s, w, o);
    } else {
      MovesAtEnd(c, s, w, o);
    }
  }

  lemma MovesOfWorker(c: Config, s: State, w: nat, o: Outcome)
    requires Shape(c, s) && w < |s.workers| && InHandOk(s, s.workers[w]) && CanWork(c, s, s.workers[w], o)
    requires Shape(c, Work(c, s, w, o))
    ensures WorkerMoves(c, s, Work(c, s, w, o), w)
  {
    hide WorkerMoves, Work, CanWork, Shape, Indexes;
    if s.workers[w].Asking? || s.workers[w].Decoding? {
      MovesInRequest(c, s, w, o);
    } else {
      MovesAround(c, s, w, o);
    }
  }

  lemma WorkHands(c: Config, s: State, t: State, w: nat)
    requires Shape(c, s) && Hands(c, s) && w < |s.workers| && !s.feeder.Returned?
    requires Shape(c, t) && WorkerMoves(c, s, t, w)
    ensures Hands(c, t)
  {
    hide Indexes;
    forall v | 0 <= v < |t.workers|
      ensures InHandOk(t, t.workers[v])
    {
      if v != w {
        OwnIndexOnly(c, s, t, w, v);
      }
    }
    hide InHandOk, SameRecord;
    assert forall v :: 0 <= v < |t.workers| && v != w ==> t.workers[v] == s.workers[v];
  }

  lemma OwnIndexOnly(c: Config, s: State, t: State, w: nat, v: nat)
    requires Shape(c, s) && Hands(c, s) && Shape(c, t) && w < |s.workers| && v < |s.workers| && v != w
    requires WorkerMoves(c, s, t, w)
    ensures InHandOk(t, t.workers[v])
  {
    hide Indexes;
    assert InHandOk(s, s.workers[v]) && t.workers[v] == s.workers[v];
    forall x: nat | Holds(s.workers[v], x)
      ensures SameRecord(s, t, x)
    {
      assert !Holds(s.workers[w], x);
    }
    match s.workers[v]
    case Got(x) => assert Holds(s.workers[v], x);
    case Asking(x) => assert Holds(s.workers[v], x);
    case Decoding(x, _) => assert Holds(s.workers[v], x);
    case Failing(x, _) => assert Holds(s.workers[v], x);
    case _ =>
  }

  lemma HeldIsAsk(c: Config, s: State, w: nat, x: nat)
    requires Shape(c, s) && Hands(c, s) && w < |s.workers| && Holds(s.workers[w], x)
    ensures x < |c.plans| && c.plans[x].Ask?
  {
    assert x in Asks(c)[..s.fed];
    var j :| 0 <= j < s.fed && Asks(c)[..s.fed][j] == x;
    assert Asks(c)[j] == x;
  }

  lemma WorkSlots(c: Config, s: State, t: State, w: nat)
    requires Shape(c, s) && Hands(c, s) && Slots(c, s) && w < |s.workers| && Shape(c, t) && WorkerMoves(c, s, t, w)
    ensures Slots(c, t)
  {
    hide Indexes, Holds, InHandOk;
    forall i: nat | i < |c.plans|
      ensures SlotOk(c, t, i)
    {
      assert SlotOk(c, s, i);
      if Holds(s.workers[w], i) {
        HeldIsAsk(c, s, w, i);
      }
    }
    forall j | t.fed <= j < |Asks(c)|
      ensures t.slots[Asks(c)[j]] == None && t.asked[Asks(c)[j]] == 0
    {
      NotYetFed(c, s, w, j);
    }
    if !t.canceled {
      forall j | 0 <= j < t.fed
        ensures t.slots[Asks(c)[j]].Some? || HasHolder(t, Asks(c)[j])
      {
        var x := Asks(c)[j];
        if t.slots[x].None? {
          HeldStill(c, s, t, w, x);
        }
      }
    }
  }

  lemma HeldStill(c: Config, s: State, t: State, w: nat, x: nat)
    requires Shape(c, s) && Shape(c, t) && w < |s.workers| && WorkerMoves(c, s, t, w) && x < |c.plans|
    requires !t.canceled && t.slots[x].None? && (s.slots[x].Some? || HasHolder(s, x))
    ensures HasHolder(t, x)
  {
    hide Indexes, Holds, InHandOk;
    if Holds(s.workers[w], x) {
      assert Holds(t.workers[w], x);
    } else {
      assert SameRecord(s, t, x);
      HolderKept(s, t, w, x);
    }
  }

  lemma NotYetFed(c: Config, s: State, w: nat, j: nat)
    requires Shape(c, s) && Hands(c, s) && w < |s.workers| && s.fed <= j < |Asks(c)|
    ensures !Holds(s.workers[w], Asks(c)[j])
  {
    IndexesOnce(c.plans, |c.plans|);
    assert Asks(c)[j] !in Asks(c)[..s.fed];
  }

  lemma InvStep(c: Config, s: State, step: Step)
    requires Inv(c, s) && Enabled(c, s, step)
    ensures Inv(c, Apply(c, s, step))
  {
    match step
    case Hand(w) => InvHand(c, s, w);
    case WorkerStep(w, o) =>
      WorkShape(c, s, w, o);
      assert InHandOk(s, s.workers[w]) && !s.feeder.Returned?;
      hide Shape, Hands, Slots, Outcomes, Work, CanWork, Indexes, WorkerMoves;
      MovesOfWorker(c, s, w, o);
      WorkHands(c, s, Work(c, s, w, o), w);
      WorkSlots(c, s, Work(c, s, w, o), w);
    case _ => InvFeeder(c, s, step);
  }

  lemma {:induction false} InvRun(c: Config, states: seq<State>, steps: seq<Step>, n: nat)
    requires IsRun(c, states, steps) && n < |states|
    ensures Inv(c, states[n])
  {
    hide Inv, Apply, Enabled, Init;
    if n == 0 {
      InvInit(c);
    } else {
      InvRun(c, states, steps, n - 1);
      var step := steps[n - 1];
      InvStep(c, states[n - 1], step);
    }
  }

  // ------------------------------------------------------------- main results

  /** Entry `i` of a slice is the plan's own text, never asked for, or the decoding of
      the reply to the one request made for it. */
  predicate Answered(c: Config, s: State, r: seq<string>, i: nat)
    requires i < |c.plans| == |r| == |s.asked| == |s.replies|
  {
    match c.plans[i]
    case Direct(text) => r[i] == text && s.asked[i] == 0
    case Ask(_) => s.asked[i] == 1 && s.replies[i].Some? && c.decode(s.replies[i].value, i) == Some(r[i])
  }

  /** A returned slice holds, for every plan, its direct text, or the decoding of the
      reply to the one request made for that very plan. */
  lemma SliceIsComplete(c: Config, states: seq<State>, steps: seq<Step>, n: nat, r: seq<string>)
    requires IsRun(c, states, steps) && n < |states| && states[n].feeder == Returned(Signatures(r))
    ensures |r| == |states[n].asked| == |states[n].replies| == |c.plans|
    ensures forall i: nat :: i < |c.plans| ==> Answered(c, states[n], r, i)
  {
    InvRun(c, states, steps, n);
    var s := states[n];
    hide Hands, Indexes;
    forall i: nat | i < |c.plans|
      ensures Answered(c, s, r, i)
    {
      assert SlotOk(c, s, i) && s.slots[i] == Some(r[i]);
    }
  }

  function InFlight(workers: seq<Worker>): nat {
    if workers == [] then 0
    else InFlight(workers[..|workers| - 1]) + if workers[|workers| - 1].Asking? then 1 else 0
  }

  lemma {:induction false} InFlightBound(workers: seq<Worker>)
    ensures InFlight(workers) <= |workers|
  {
    if workers != [] {
      InFlightBound(workers[..|workers| - 1]);
    }
  }

  /** At every moment at most eight requests are in flight, no two for one plan, and
      no plan is ever asked about twice. */
  lemma BoundedAndOnce(c: Config, states: seq<State>, steps: seq<Step>, n: nat)
    requires IsRun(c, states, steps) && n < |states|
    ensures InFlight(states[n].workers) <= MAX_CONCURRENT
    ensures |states[n].asked| == |c.plans| && forall i :: 0 <= i < |c.plans| ==> states[n].asked[i] <= 1
    ensures forall v, w ::
            0 <= v < w < |states[n].workers| && states[n].workers[v].Asking? && states[n].workers[w].Asking? ==>
              states[n].workers[v].x != states[n].workers[w].x
  {
    InvRun(c, states, steps, n);
    var s := states[n];
    InFlightBound(s.workers);
    forall i | 0 <= i < |c.plans|
      ensures s.asked[i] <= 1
    {
      AskedOnce(c, states, steps, n, i);
    }
    hide Indexes, Slots, Outcomes;
    forall v, w | 0 <= v < w < |s.workers| && s.workers[v].Asking? && s.workers[w].Asking?
      ensures s.workers[v].x != s.workers[w].x
    {
      assert Holds(s.workers[v], s.workers[v].x) && Holds(s.workers[w], s.workers[w].x);
    }
  }

  lemma {:induction false} AskedOnce(c: Config, states: seq<State>, steps: seq<Step>, n: nat, i: nat)
    requires IsRun(c, states, steps) && n < |states| && i < |c.plans|
    ensures i < |states[n].asked| && states[n].asked[i] <= 1
  {
    if n > 0 {
      AskedOnce(c, states, steps, n - 1, i);
      InvRun(c, states, steps, n - 1);
      var step := steps[n - 1];
      AskedStep(c, states[n - 1], step, i);
    }
  }

  lemma AskedStep(c: Config, s: State, step: Step, i: nat)
    requires Inv(c, s) && Enabled(c, s, step) && i < |c.plans| && s.asked[i] <= 1
    ensures i < |Apply(c, s, step).asked| && Apply(c, s, step).asked[i] <= 1
  {
    hide Indexes, Slots, Outcomes;
    if step.WorkerStep? {
      assert InHandOk(s, s.workers[step.w]);
    }
  }

  /** Something went wrong before the pool returned. */
  predicate Trouble(s: State) {
    s.firstError.Some? || s.parentCanceled
  }

  predicate NoSlice(f: Feeder) {
    !(f.Returned? && f.result.Signatures?)
  }

  lemma TroubleStep(c: Config, s: State, step: Step)
    requires Enabled(c, s, step) && Trouble(s) && NoSlice(s.feeder)
    ensures var t := Apply(c, s, step);
            Trouble(t) && NoSlice(t.feeder) && (s.firstError.Some? ==> t.firstError == s.firstError)
  {
    hide Indexes, Contents;
  }

  /** Once a worker has failed or the caller has canceled, no slice is returned; and
      the first error through the guard is the one that stays. */
  lemma {:induction false} NoSliceAfterTrouble(c: Config, states: seq<State>, steps: seq<Step>, m: nat, n: nat)
    requires IsRun(c, states, steps) && m <= n < |states| && Trouble(states[m]) && NoSlice(states[m].feeder)
    ensures Trouble(states[n]) && NoSlice(states[n].feeder)
    ensures states[m].firstError.Some? ==> states[n].firstError == states[m].firstError
    decreases n - m
  {
    if m < n {
      hide Apply, Enabled, Init, Trouble, NoSlice;
      var step := steps[n - 1];
      NoSliceAfterTrouble(c, states, steps, m, n - 1);
      TroubleStep(c, states[n - 1], step);
    }
  }

  /** A returned failure is the error that came first. */
  lemma FirstErrorWins(c: Config, states: seq<State>, steps: seq<Step>, m: nat, n: nat, e: nat, f: nat)
    requires IsRun(c, states, steps) && m <= n < |states|
    requires states[m].firstError == Some(e) && NoSlice(states[m].feeder) && states[n].feeder == Returned(Failure(f))
    ensures f == e
  {
    NoSliceAfterTrouble(c, states, steps, m, n);
    InvRun(c, states, steps, n);
    hide Indexes, Hands, Slots;
  }
}
