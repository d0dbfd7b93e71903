/**
 The mutex-guarded part of internal/lsp/transport.go: connection state, the
 pending-request table, write admission and the input-closed flag.

 Every critical section is a function on the record `Conn`. `Transport` is the
 object itself; each of its methods is proved to perform the section's function.
 A pending request is named by its id: ids come from an atomic counter, so a key
 is never used twice.
 */
module Connection {
  import opened Wrappers

  datatype Phase = Open | Closing | Closed | Aborted

  datatype Policy = External | ServerResponse | ShutdownWrite | ExitWrite

  datatype Cause =
    | ProviderClosed
    | ConnectionLost(detail: nat)
    | ContextDone
    | WriteFailed(written: nat)

  datatype Conn = Conn(
    phase: Phase,
    connErr: Option<Cause>,
    unavailable: Option<Cause>,   // the cause recorded when `unavailable` is closed
    unavailableCloses: nat,       // how often the channel `unavailable` was closed
    pending: set<nat>,
    inputClosed: bool)

  function Fresh(): Conn {
    Conn(Open, None, None, 0, {}, false)
  }

  /** admitWrite. */
  predicate Admits(c: Conn, policy: Policy) {
    && !c.inputClosed
    && match policy
       case External => c.phase == Open
       case ServerResponse => c.phase == Open || c.phase == Closing
       case ShutdownWrite => c.phase == Closing
       case ExitWrite => c.phase == Closing
  }

  /** register, when it does not fail. */
  function Registered(c: Conn, key: nat): Conn
    requires c.phase == Open
  {
    c.(pending := c.pending + {key})
  }

  /** The critical section of complete: the entry is removed by whoever finds it. */
  function Claimed(c: Conn, key: nat): Conn {
    c.(pending := c.pending - {key})
  }

  function LeaveOpen(c: Conn, phase: Phase, cause: Cause): Conn
    requires c.phase == Open
  {
    c.(phase := phase, connErr := Some(cause), unavailable := Some(cause),
       unavailableCloses := c.unavailableCloses + 1)
  }

  /** beginClose, when it starts the shutdown: every pending request is drained
      and the shutdown request takes their place. */
  function ClosingStarted(c: Conn, key: nat): Conn
    requires c.phase == Open
  {
    LeaveOpen(c, Closing, ProviderClosed).(pending := {key})
  }

  /** finishClose. */
  function CloseFinished(c: Conn): Conn {
    if c.phase == Closing then c.(phase := Closed, pending := {}) else c
  }

  /** The critical section of abort. */
  function AbortedBy(c: Conn, cause: Cause): Conn {
    match c.phase
    case Open => LeaveOpen(c, Aborted, cause).(pending := {})
    case Closing => c.(phase := Aborted, connErr := Some(cause), pending := {})
    case _ => c
  }

  function InputClosed(c: Conn): Conn {
    c.(inputClosed := true)
  }

  /** pendingRequest: a result that is fixed by the first completion. */
  class PendingRequest<Result> {
    var done: bool
    var result: Option<Result>

    ghost predicate Valid()
      reads this
    {
      done <==> result.Some?
    }

    constructor ()
      ensures Valid() && !done
    {
      done := false;
      result := None;
    }

    method Complete(r: Result) returns (completed: bool)
      requires Valid()
      modifies this
      ensures Valid() && done
      ensures completed == !old(done)
      ensures result == if completed then Some(r) else old(result)
    {
      completed := !done;
      if !done {
        result := Some(r);
        done := true;
      }
    }
  }

  /** The transport object's guarded fields. */
  class Transport {
    var phase: Phase
    var connErr: Option<Cause>
    var unavailable: Option<Cause>
    ghost var unavailableCloses: nat
    var pending: set<nat>
    var inputClosed: bool
    var inputOnce: bool              // the once-guard of closeInput has run
    ghost var inputCloses: nat       // how often the input itself was closed

    /** The input is closed at most once, and marked as closed when it is. */
    ghost predicate Valid()
      reads this
    {
      inputClosed == inputOnce && inputCloses == if inputOnce then 1 else 0
    }

    ghost function View(): Conn
      reads this
    {
      Conn(phase, connErr, unavailable, unavailableCloses, pending, inputClosed)
    }

    constructor ()
      ensures Valid() && View() == Fresh()
    {
      phase := Open;
      connErr := None;
      unavailable := None;
      unavailableCloses := 0;
      pending := {};
      inputClosed := false;
      inputOnce := false;
      inputCloses := 0;
    }

    /** connectionErrorLocked. */
    function ConnectionError(): Cause
      reads this
    {
      if connErr.Some? then connErr.value else ProviderClosed
    }

    method Register(key: nat) returns (err: Option<Cause>)
      modifies `pending
      ensures old(phase) != Open ==> err == Some(old(ConnectionError())) && View() == old(View())
      ensures old(phase) == Open ==> err == None && View() == Registered(old(View()), key)
    {
      if phase != Open {
        return Some(ConnectionError());
      }
      pending := pending + {key};
      err := None;
    }

    method AdmitWrite(policy: Policy) returns (err: Option<Cause>)
      ensures err.None? <==> Admits(View(), policy)
      ensures err.Some? ==> err.value == ConnectionError()
    {
      var allowed := phase == Open;
      match policy {
        case ServerResponse =>
          allowed := phase == Open || phase == Closing;
        case ShutdownWrite =>
          allowed := phase == Closing;
        case ExitWrite =>
          allowed := phase == Closing;
        case External =>
      }
      if allowed && !inputClosed {
        return None;
      }
      err := Some(ConnectionError());
    }

    method Claim(key: nat) returns (found: bool)
      modifies `pending
      ensures found == (key in old(pending))
      ensures View() == Claimed(old(View()), key)
    {
      found := key in pending;
      if found {
        pending := pending - {key};
      }
    }

    /** drainPendingLocked. */
    method Drain() returns (waiting: set<nat>)
      modifies `pending
      ensures waiting == old(pending) && pending == {}
    {
      waiting := {};
      while pending != {}
        invariant waiting + pending == old(pending)
        decreases pending
      {
        var id :| id in pending;
        waiting := waiting + {id};
        pending := pending - {id};
      }
    }

    method TransitionFromOpen(to: Phase, cause: Cause) returns (moved: bool)
      modifies `phase, `connErr, `unavailable, `unavailableCloses
      ensures moved == (old(phase) == Open)
      ensures View() == if moved then LeaveOpen(old(View()), to, cause) else old(View())
    {
      if phase != Open {
        return false;
      }
      phase := to;
      connErr := Some(cause);
      unavailable := Some(cause);
      unavailableCloses := unavailableCloses + 1;
      moved := true;
    }

    method BeginClose(key: nat) returns (started: bool, waiting: set<nat>)
      modifies `phase, `connErr, `unavailable, `unavailableCloses, `pending
      ensures started == (old(phase) == Open)
      ensures started ==> View() == ClosingStarted(old(View()), key) && waiting == old(pending)
      ensures !started ==> View() == old(View()) && waiting == {}
    {
      started := TransitionFromOpen(Closing, ProviderClosed);
      if !started {
        return false, {};
      }
      waiting := Drain();
      pending := pending + {key};
    }

    method FinishClose() returns (waiting: set<nat>)
      modifies `phase, `pending
      ensures View() == CloseFinished(old(View()))
      ensures waiting == if old(phase) == Closing then old(pending) else {}
    {
      if phase != Closing {
        return {};
      }
      phase := Closed;
      waiting := Drain();
    }

    /** The critical section of readerFailed; `handled` is false when it goes on to abort. */
    method ReaderFailed() returns (handled: bool, waiting: set<nat>)
      modifies `pending
      ensures handled == (old(phase) == Closing)
      ensures View() == if handled then old(View()).(pending := {}) else old(View())
      ensures waiting == if handled then old(pending) else {}
    {
      if phase == Closing {
        waiting := Drain();
        return true, waiting;
      }
      return false, {};
    }

    method Abort(cause: Cause) returns (acted: bool, waiting: set<nat>)
      modifies `phase, `connErr, `unavailable, `unavailableCloses, `pending
      ensures acted == (old(phase) == Open || old(phase) == Closing)
      ensures View() == AbortedBy(old(View()), cause)
      ensures waiting == if acted then old(pending) else {}
    {
      if phase == Closed || phase == Aborted {
        return false, {};
      }
      var moved := TransitionFromOpen(Aborted, cause);
      if !moved {
        phase := Aborted;
        connErr := Some(cause);
      }
      waiting := Drain();
      acted := true;
    }

    /** closeInput: the first call marks the input closed and closes it, any later
        call does nothing. */
    method CloseInput()
      requires Valid()
      modifies `inputClosed, `inputOnce, `inputCloses
      ensures Valid() && inputCloses == 1
      ensures View() == InputClosed(old(View()))
      ensures inputCloses == old(inputCloses) + if old(inputClosed) then 0 else 1
    {
      if !inputOnce {
        inputOnce := true;
        inputClosed := true;
        inputCloses := inputCloses + 1;
      }
    }
  }
}
