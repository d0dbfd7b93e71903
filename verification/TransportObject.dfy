/**
 The machine against the object: every effect that the machine has on the guarded
 connection state is what a method of `Connection.Transport` does, and the requests
 an actor then has in its hands are those the method took out of the table.
 */
module TransportObject {
  import opened Connection
  import opened TransportModel
  import Framing

  /** The requests an effect takes out of the pending table. */
  function Taken(c: Conn, e: Effect): set<RequestId> {
    match e
    case ClaimOne(r) => c.pending * {r}
    case StartClosing(_) => if c.phase == Open then c.pending else {}
    case DrainPending => c.pending
    case FinishClosing => if c.phase == Closing then c.pending else {}
    case Abort(_) => if c.phase == Open || c.phase == Closing then c.pending else {}
    case _ => {}
  }

  /** The object's method for an effect. */
  method Perform(t: Transport, e: Effect) returns (waiting: set<RequestId>)
    requires t.Valid() && (e.DrainPending? ==> t.phase == Closing)
    modifies t
    ensures t.Valid() && t.View() == ConnAfter(old(t.View()), e)
    ensures waiting == Taken(old(t.View()), e)
  {
    waiting := {};
    match e {
      case ClaimOne(r) =>
        var found := t.Claim(r);
        if found {
          waiting := {r};
        }
      case Register(r) =>
        var err := t.Register(r);
      case StartClosing(r) =>
        var started;
        started, waiting := t.BeginClose(r);
      case DrainPending =>
        var handled;
        handled, waiting := t.ReaderFailed();
      case FinishClosing =>
        waiting := t.FinishClose();
      case Abort(cause) =>
        var acted;
        acted, waiting := t.Abort(cause);
      case ShutInput =>
        t.CloseInput();
      case _ =>
    }
  }

  /** The actor's hands after its step are what the method returns, or, while it is
      completing requests, what is left of them. */
  lemma HandsAreTaken(x: Actor, v: View, c: Choice)
    requires Can(x, v, c)
    ensures var (y, e) := Next(x, v, c);
            && (e.DrainPending? ==> v.conn.phase == Closing)
            && y.claimed == if x.claimed != {} then x.claimed - {c.r} else Taken(v.conn, e)
  {
    hide Framing.FrameBytes;
    if x.claimed == {} {
      match PartOf(x.pc)
      case InWrite => HandsByWrite(x, v, c);
      case InClose => HandsByClose(x, v, c);
      case InCall => HandsByCall(x, v, c);
      case InOpen =>
      case Elsewhere => HandsByOther(x, v, c);
    }
  }

  predicate HandsOk(v: View, ye: (Actor, Effect)) {
    (ye.1.DrainPending? ==> v.conn.phase == Closing) && ye.0.claimed == Taken(v.conn, ye.1)
  }

  lemma HandsByWrite(x: Actor, v: View, c: Choice)
    requires x.claimed == {} && x.pc.Wr? && CanWrite(x, v, c)
    ensures HandsOk(v, NextWrite(x, v, c))
  {
    hide Framing.FrameBytes;
  }

  lemma HandsByClose(x: Actor, v: View, c: Choice)
    requires x.claimed == {} && PartOf(x.pc) == InClose && x.role.Closer? && CanClose(x, v, c)
    ensures HandsOk(v, NextClose(x, v, c))
  {
    hide Framing.FrameBytes;
  }

  lemma HandsByCall(x: Actor, v: View, c: Choice)
    requires x.claimed == {} && CanCall(x, v, c)
    ensures HandsOk(v, NextCall(x, v, c))
  {
    hide Framing.FrameBytes;
  }

  lemma HandsByOther(x: Actor, v: View, c: Choice)
    requires x.claimed == {} && CanOther(x, c)
    ensures HandsOk(v, NextOther(x, v, c))
  {
    hide Framing.FrameBytes;
  }
}
