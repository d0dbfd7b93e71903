# Models of portolan's transport, telemetry and text algorithms

This project models the parts of portolan whose correctness is hardest to see from the code, and proves what
they promise for every input, every interleaving and every run. `dafny verify dfyconfig.toml` checks all of it.

| files | what they model |
|---|---|
| `Connection`, `TransportModel` | the LSP transport: guarded connection state, and callers, notifiers, openers, cancellation senders, server-response writers, the reader loop, `Close` and aborts as one state machine |
| `TransportGate`, `TransportWire`, `TransportShutdown`, `TransportPending`, `TransportCalls`, `TransportOpens`, `TransportTenure`, `TransportAdmission` | its invariants, one concern per file |
| `TransportTheorems`, `TransportProgress` | what holds of every run of the transport, and that nobody waits for it in vain |
| `TransportAnswers`, `TransportOrigins`, `TransportRetries`, `TransportDuties` | which result a call gets, where frames, causes and errors come from, who retries a failed open, what the transport owes |
| `TransportObject` | the state machine's effects as calls of the transport object's methods |
| `Framing`, `FramingHeaders`, `ByteSink` | the base-protocol codec and the two loops that push bytes into a writer |
| `JsonlModel`, `JsonlProofs`, `JsonlTheorems` | the telemetry pipeline: Log calls, the writer, `Close` with its deadline |
| `JsonlFates`, `JsonlRecords` | why calls are dropped, what reaches queue and sink, why the logger gives up |
| `Record`, `JsonText`, `RecordReading` | the record capper, a JSON reader, and what the reader makes of a record |
| `PathText`, `Pathnorm`, `PathLaws`, `FileUri`, `UriForms`, `Hex` | lexical path cleaning, canonical paths and the laws they obey, file URIs in all their forms |
| `Unicode`, `Utf8`, `Positions`, `PositionUnits` | UTF-8 decoding against the encoders, UTF-16 positions against byte offsets |
| `Lexical`, `HeaderText`, `Headers`, `HeaderStops`, `HeaderLaws` | the declaration-header scanner |
| `HoverPool`, `HoverOrigins`, `HoverProgress` | the hover worker pool: what it returns, from where, and that it returns |
| `Outline` | capped outline and symbol lookup |

How to read the state machines: one step is one mutex section, one channel operation, one compare-and-swap, one
atomic operation, one context check or one `Write` call. Contexts are flags that only go from live to canceled,
and a timer may fire at any moment. `IsRun(states, steps)` says that `states` is a run; the theorems quantify over
all of them. Go strings are Dafny strings with one character per byte. A scan that polls its context may be cut off
at any poll (`Cancelled`); its contract says what it returns when it is not.

Modelling assumptions:

- Request ids are never reused (they come from an atomic counter whose decimal form is injective).
- A writer accepts exactly the bytes it reports, between none and all of those offered.
- Metadata that can be encoded encodes to one JSON object.
- The literal shutdown request can be marshaled unless its context has expired.
- Case folding (`strings.EqualFold`) is given as a function that picks a representative of each class, net/url's
  parser of a non-empty authority and SHA-256 are parameters.
- In the Windows round trip of a path outside the mounted drives, `WSL_DISTRO_NAME` is set and contains no slash, no
  backslash and no NUL. On a drive nothing is assumed of it.

The comment on `JSONLStats` (internal/telemetry/jsonl_lifecycle.go:10-12) reads as if accepted = written + undelivered +
pending always held. Between two atomic operations of one accounting section it does not: `Conservation` says exactly
when it holds, and `PlainLawFails` gives a run in which it does not.

## Model

| member | source | states |
|---|---|---|
| `TransportTheorems.InvRun` | internal/lsp/transport.go:135-382 | the inductive invariant of gate, phases, input, write jobs, pending table, elections and bytes holds in every state of every run |
| `TransportTheorems.WireIntegrity` | internal/lsp/framing.go:73-136 | in every state the input holds complete frames in order plus at most a proper prefix of one more, which belongs to the gate holder unless the connection is aborted |
| `TransportTheorems.ServerReadsMessages` | internal/lsp/framing.go:17-49 | whatever the interleaving, reading the input back yields exactly the bodies of the frames written in full, in order |
| `TransportTheorems.WriterOutlivesGate` | internal/lsp/framing.go:95-136 | a writer goroutine that has not reported has its owner holding the gate, unless the connection is aborted |
| `TransportTheorems.DispatchReport` | internal/lsp/transport.go:301-324 | writeMessage reports dispatched exactly without error; then its whole frame was written; otherwise, if not aborted, none of it was |
| `TransportTheorems.FramesAreAdmitted` | internal/lsp/transport.go:192-206 | whenever a frame is started the connection admits its policy at that moment with its input open, or was aborted after admission |
| `TransportDuties.AdmittedByKind` | internal/lsp/transport.go:192-206 | which kinds of frame are admitted in which phase: callers' work while open, answers to the server until closed, farewells while closing, none once the input is closed |
| `TransportDuties.ServeStartsResponder` | internal/lsp/rpc.go:86-113 | every server request starts exactly one responder, with its own answer to write |
| `TransportTheorems.ShutdownOrder` | internal/lsp/lifecycle.go:29-80 | every run has at most one shutdown and one exit frame, nothing external after shutdown, and exit only after a shutdown dispatched in full |
| `TransportDuties.CloseSaysExit` | internal/lsp/lifecycle.go:53-75 | once Close has begun the shutdown it is still about it or has gone on to write exit |
| `TransportDuties.CloseEndsConnection` | internal/lsp/lifecycle.go:47-80 | when Close returns the connection is closed with its input closed, or aborted |
| `TransportDuties.AbortClosesInput` | internal/lsp/transport.go:361-382 | an aborted connection has its input closed, or an aborting actor is about to close it |
| `TransportTheorems.ClosedIsQuiet` | internal/lsp/transport.go:326-351 | Closed implies the input is closed, every frame whole, no writer past admission, and no policy admitted |
| `TransportTheorems.ClosedIsFinal` | internal/lsp/transport.go:240-250 | once Closed, the phase and the bytes on the wire never change |
| `TransportTheorems.ExactlyOnce` | internal/lsp/transport.go:208-219 | a registered request is pending, in exactly one completer's hands, or completed once, and never two of these |
| `TransportAnswers.ResultIsFixed` | internal/lsp/transport.go:208-288 | the step that takes a pending request out of the table fixes its result: a response for its id, a drain with the drain's cause, its own failed write, its own cancellation; whenever the request is completed later, that is its one result |
| `TransportAnswers.AnswerIsDelivered` | internal/lsp/rpc.go:92-94 | a response read for a pending request is the one result of exactly that request |
| `TransportAnswers.EveryResultHasOrigin` | internal/lsp/transport.go:208-288 | conversely every result comes from such a step, so no call gets a response the server did not give to it |
| `TransportAnswers.LateAnswerIsIgnored` | internal/lsp/transport.go:208-223 | a response for a request that is not pending changes nothing |
| `TransportOrigins.FrameCarriesItsBody` | internal/lsp/rpc.go:13-113 | every frame carries the message its writer was given: a request the body of its own call under its own id, a didOpen the text read for its file, a response, cancellation, shutdown and exit theirs |
| `TransportOrigins.AbortHasCause` | internal/lsp/framing.go:115-135 | every abort has the cause of the step that called it: an outside abort's, the broken read's, the expired context, or the failed write with the bytes it wrote |
| `TransportDuties.WaitingCallWasSent` | internal/lsp/rpc.go:21-26 | a call that waits with its request still in the table was dispatched; one whose write failed is never left waiting for an answer |
| `TransportDuties.UnavailableHasCause` | internal/lsp/transport.go:172-190 | the recorded cause of unavailability is that of the abort, or of Close, that ended the open phase |
| `TransportTheorems.PendingByPhase` | internal/lsp/transport.go:225-275 | while closing only the shutdown request can be pending, afterwards nothing; `unavailable` is closed exactly once, when Open is left |
| `TransportTheorems.ResultsAreFinal` | internal/lsp/transport.go:54-62 | results and the first cause of unavailability never change in the rest of the run |
| `TransportTheorems.CancelScheduled` | internal/lsp/rpc.go:13-40 | an ended call scheduled `$/cancelRequest` if and only if its frame was dispatched and its one result is its own cancellation; at most one is scheduled |
| `TransportTheorems.OneDidOpen` | internal/lsp/provider.go:172-209 | at most one didOpen frame per canonical file is ever started, under any mix of callers, cancellations, retries, close and abort |
| `TransportTheorems.OpenedText` | internal/lsp/provider.go:234-247 | after a successful ensureOpen, openedSource returns the text of a didOpen frame dispatched in full |
| `TransportTheorems.WaiterTakesFinalErrors` | internal/lsp/provider.go:185-195 | a failed ensureOpen was canceled itself, failed as the elected opener, or waited for a transition marked not retryable |
| `TransportRetries.RetryableExactly` | internal/lsp/provider.go:211-252 | a transition that ended without a source is retryable if and only if its owner gave up with its context canceled, with that context's error, on an open connection |
| `TransportRetries.MarkIsDecided` | internal/lsp/provider.go:197-208 | from the step in which the owner gives up, the transition can only end without a source and with that mark |
| `TransportRetries.CancelFailsNobodyElse` | internal/lsp/provider.go:185-195 | an opener that was not canceled never ends with the failure of an opener that failed by its own cancellation on an open connection |
| `TransportRetries.OnlyRetryableIsRetried` | internal/lsp/provider.go:185-195 | a waiter goes back to the election only over a retryable transition; otherwise it keeps waiting or ends |
| `TransportRetries.OpenErrorHasOrigin` | internal/lsp/provider.go:211-231 | the error of a failed open is the failure of one of its owner's own steps or the end of its own context |
| `TransportProgress.GateIsNeverStuck` | internal/lsp/framing.go:95-136 | in every state of every run, whoever holds the write gate can take a step, or its own writer goroutine can |
| `TransportProgress.WaitingCallIsAnswered` | internal/lsp/transport.go:277-299 | once Closed or Aborted, a call that waits for its result has it and can go on, or an actor has the request in hand and can complete it |
| `TransportWire.WireStep` | internal/lsp/framing.go:95-136 | every step of every actor keeps: all jobs but the last complete, an incomplete one has its owner inside writeFrameLocked or the connection aborted, and the wire is the jobs' bytes |
| `TransportGate.GateStep` | internal/lsp/transport.go:135-149 | every step keeps the one-slot gate held by exactly the actor whose program point says so |
| `TransportShutdown.FarewellsStep` | internal/lsp/lifecycle.go:47-76 | every step keeps the order of shutdown and exit relative to all other frames |
| `TransportPending.PendingStep` | internal/lsp/transport.go:208-288 | every step keeps the pending table, the completers' hands and the completions disjoint and jointly exhaustive |
| `TransportCalls.CallsStep` | internal/lsp/transport.go:290-299 | every step keeps the link between a call's program point, its frame, its result and its cancellation sender |
| `TransportOpens.OpensStep` | internal/lsp/provider.go:172-252 | every step keeps one live election per file, didOpen frames backed by their transition, and published texts backed by a dispatched frame |
| `TransportTenure.TenureStep` | internal/lsp/framing.go:104-135 | every step keeps a running writer goroutine awaited by its owner unless aborted |
| `TransportAdmission.StartIsAdmitted` | internal/lsp/transport.go:316-324 | between admission and the first byte nobody but an abort can withdraw the admission |
| `Connection.PendingRequest.Complete` | internal/lsp/transport.go:54-62 | only the first completion fixes the result and reports success |
| `Connection.Transport.Register` | internal/lsp/transport.go:151-160 | adds the key exactly when Open; otherwise reports the connection error and changes nothing |
| `Connection.Transport.AdmitWrite` | internal/lsp/transport.go:192-206 | admits exactly the policies the phase allows while the input is open, and changes nothing |
| `Connection.Transport.Claim` | internal/lsp/transport.go:208-217 | removes the entry and says whether it was there, so at most one caller claims it |
| `Connection.Transport.Drain` | internal/lsp/transport.go:268-275 | the loop empties the table and returns exactly the keys it held |
| `Connection.Transport.TransitionFromOpen` | internal/lsp/transport.go:181-190 | leaves Open at most once, recording cause and closing `unavailable` once |
| `Connection.Transport.BeginClose` | internal/lsp/transport.go:225-238 | from Open only: drains the table and leaves the shutdown request as its sole entry |
| `Connection.Transport.FinishClose` | internal/lsp/transport.go:240-250 | Closing becomes Closed with an empty table; other phases are untouched |
| `Connection.Transport.ReaderFailed` | internal/lsp/transport.go:252-264 | while closing it only drains; otherwise it leaves the state to abort |
| `Connection.Transport.Abort` | internal/lsp/transport.go:366-376 | terminal phases are left alone; otherwise Aborted with the table drained and the first cause kept |
| `Connection.Transport.CloseInput` | internal/lsp/transport.go:341-351 | the first call marks the input closed and closes it, later calls do nothing: the input is closed exactly once, and no other field changes |
| `TransportObject.Perform` | internal/lsp/transport.go:151-376 | the object's methods change the guarded state exactly as the state machine's effects do, and return exactly the requests the effect takes out of the table |
| `TransportObject.HandsAreTaken` | internal/lsp/transport.go:208-275 | after every step of the machine an actor has in hand what that method returned, or one request less of what it had |
| `Framing.ReadFrame` | internal/lsp/framing.go:17-49 | the header loop computes the frame a declarative reading of the stream yields, errors and end of input included |
| `Framing.FrameRoundTrip` | internal/lsp/framing.go:66-71 | reading a frame followed by anything yields the body and that rest |
| `Framing.CutFrameIsIncomplete` | internal/lsp/framing.go:45-48 | a proper prefix of a frame never reads as a message |
| `Framing.StreamRoundTrip` | internal/lsp/framing.go:17-71 | reading the concatenation of frames, with a last frame cut anywhere, yields exactly the list of whole bodies |
| `Framing.AtoiOfDecimal` | internal/lsp/framing.go:36-40 | parsing inverts decimal printing for every length an int can hold |
| `Framing.AtoiOfSigned` | internal/lsp/framing.go:36-40 | a sign in front is read as a sign |
| `FramingHeaders.FrameOfBlock` | internal/lsp/framing.go:17-49 | reading a frame behind any block of header fields: the last length decides, a length that is no number and a missing or negative one are refused, a short body is the end of input |
| `FramingHeaders.LastLengthWins` | internal/lsp/framing.go:28-41 | the last Content-Length wins over all earlier ones, in whatever case its name is |
| `FramingHeaders.OtherFieldIsSkipped` | internal/lsp/framing.go:33-35 | a field of another name makes no difference wherever it stands |
| `FramingHeaders.LineWithoutColon` | internal/lsp/framing.go:29-32 | a line without a colon makes no difference |
| `FramingHeaders.NoLengthIsRefused` | internal/lsp/framing.go:42-44 | a frame whose fields give no length is refused |
| `ByteSink.WriteFull` | internal/lsp/framing.go:73-87 | the sink gains exactly the first `written` bytes, whatever the short writes and errors; the callback runs exactly on success, once, with the whole data on the sink; a short write means bytes are missing |
| `ByteSink.WriteAll` | internal/telemetry/jsonl.go:283-298 | the sink gains a prefix of the line, the whole line on success |
| `JsonlTheorems.InvRun` | internal/telemetry/jsonl.go:154-298 | life cycle, slot, pending, record, fate and enqueue ledgers and the sink's contents hold in every state of every run |
| `JsonlTheorems.Conservation` | internal/telemetry/jsonl_lifecycle.go:44-124 | accepted = written + undelivered + pending + admitters between their adds, up to two exact corrections; the plain law holds if and only if neither accounting section is between its two operations |
| `JsonlTheorems.PlainLawFails` | internal/telemetry/jsonl_lifecycle.go:60-65 | a concrete run in which the plain law is broken for one moment |
| `JsonlTheorems.NoUnderflow` | internal/telemetry/jsonl_lifecycle.go:65-66 | the wrapping decrement always finds pending positive and takes exactly one away |
| `JsonlTheorems.CloseSettlesAccounts` | internal/telemetry/jsonl_lifecycle.go:95-124 | when Close returns pending is 0 and accepted = written + undelivered, even if records were abandoned in mid-write |
| `JsonlTheorems.ClosedTotalsAreFinal` | internal/telemetry/jsonl_lifecycle.go:71-83 | after Close the totals never move again, though an abandoned writer and late calls go on |
| `JsonlTheorems.EveryCallCountedOnce` | internal/telemetry/jsonl.go:154-248 | every finished Log call lands in exactly one of accepted or the four drop counters, and the counters are those counts |
| `JsonlFates.DropHasReason` | internal/telemetry/jsonl.go:154-248 | a call is dropped for a reason if and only if one of its steps met that reason: the timer, its context, Close, or a failed sink |
| `JsonlFates.TimeoutsAreTimers` | internal/telemetry/jsonl.go:226-247 | a finished call counts as timed out if and only if its admission timer fired |
| `JsonlFates.DropsAreJustified` | internal/telemetry/jsonl.go:154-248 | in every state a drop as canceled means a canceled context, one after close a closed logger, one after sink failure a failed sink |
| `JsonlFates.FreeSlotIsEnough` | internal/telemetry/jsonl.go:210-219 | a call that finds a free slot is never dropped for its context or the timer, even if canceled before, and is accepted if the logger is neither closed nor failed |
| `JsonlFates.LateCallsAreDropped` | internal/telemetry/jsonl.go:190-203 | once the logger is closed or its sink failed, no call that has still to look at that is ever accepted |
| `JsonlFates.CallAfterClose` | internal/telemetry/jsonl.go:156-160 | a call that enters a closed logger is a drop after close, whatever else is wrong |
| `JsonlRecords.QueueGetsAcceptedLines` | internal/telemetry/jsonl.go:204-207 | every line was sent to the queue exactly as often as there are accepted calls that sent it |
| `JsonlRecords.CallKeepsLine` | internal/telemetry/jsonl.go:166-207 | a call sends the line it was started with |
| `JsonlTheorems.SlotDiscipline` | internal/telemetry/jsonl.go:187-219 | occupied slots = admitters + queued records + the record in hand, at most the capacity; a call at the send finds room in an open queue |
| `JsonlTheorems.HolderMoves` | internal/telemetry/jsonl.go:226-247 | once admission is stopped every holder of the read lock has an enabled step, and each of its steps brings it closer to release |
| `JsonlTheorems.CloseNeverDeadlocks` | internal/telemetry/jsonl_lifecycle.go:97-102 | from every reachable state in which Close waits for the admission lock, some steps of the read-lock holders lead to where it gets the lock |
| `JsonlTheorems.CloseWaitIsBounded` | internal/telemetry/jsonl_lifecycle.go:97-102 | in every schedule, while Close waits for the admission lock, the read-lock holders take at most as many steps as their ranks add up to when the wait begins, and after that many Close can take the lock |
| `JsonlTheorems.SinkIsPrefix` | internal/telemetry/jsonl.go:250-298 | the sink is the whole lines of a prefix of the enqueued records plus at most a proper part of the next; whole lines exceed Written by at most one |
| `JsonlTheorems.SinkOnlyGrows` | internal/telemetry/jsonl.go:257-264 | sink and enqueue order are only ever extended, and nothing reaches a sink after it failed |
| `JsonlRecords.FailureHasCause` | internal/telemetry/jsonl_lifecycle.go:44-69 | the sink is failed only by a write that reported an error or made no progress |
| `JsonlRecords.BadWriteFails` | internal/telemetry/jsonl_lifecycle.go:44-69 | and such a write fails it, unless Close has abandoned the writer |
| `JsonlRecords.AbandonedWriterStops` | internal/telemetry/jsonl.go:250-256 | an abandoned writer with no write in progress never changes the sink again |
| `JsonlRecords.AbandonsOnlyLate` | internal/telemetry/jsonl_lifecycle.go:104-117 | Close abandons the writer only after the deadline passed and a last look found it still at work |
| `JsonlProofs.LedgersStep` | internal/telemetry/jsonl_lifecycle.go:44-124 | every step of call, writer and Close keeps the five ledgers |
| `JsonlProofs.SinkStep` | internal/telemetry/jsonl.go:283-298 | every step keeps the sink a prefix in enqueue order |
| `Record.EncodeRecord` | internal/telemetry/jsonl_record.go:12-97 | for every event and cap of at least 512 it terminates within the cap; oversize and fallback are exact; metadata, then error text, then other strings are given up, in that order |
| `RecordReading.LineReads` | internal/core/telemetry.go:10-22 | reading a line as JSON gives exactly the event's fields, each under its own name: strings with ill-formed bytes replaced, numbers and flags exactly, an empty error and missing metadata left out |
| `RecordReading.RecordReads` | internal/telemetry/jsonl_record.go:12-97 | so reads every line the encoder returns, of the whole event or of what it keeps of it |
| `RecordReading.ReadQuoted` | internal/telemetry/jsonl_record.go:99-102 | a JSON string reads back as the text, byte for byte if that is valid UTF-8 |
| `RecordReading.EscapeIsHarmless` | internal/telemetry/jsonl_record.go:99-102 | escaped text contains no `<`, `>`, `&` and no control character |
| `RecordReading.ErrorTextReads` | internal/telemetry/jsonl_record.go:15-20 | metadata that cannot be encoded is replaced by an object with the bounded message |
| `RecordReading.OversizeMarkReads` | internal/telemetry/jsonl_record.go:39-44 | metadata that is too large is replaced by an object with the original size |
| `Record.Shrink` | internal/telemetry/jsonl_record.go:62-97 | the two halving loops stop at the first limits on the way down that fit, and they always fit |
| `Record.HalveOnce` | internal/telemetry/jsonl_record.go:65-71 | one pass halves every limit above the floor and recomputes each field from its original |
| `Record.SettleFits` | internal/telemetry/jsonl_record.go:81-97 | without metadata the halving always reaches limits that fit 512 bytes |
| `Record.SmallLimitsFit` | internal/telemetry/jsonl_record.go:81-84 | the record fits as soon as every limit is ten bytes or less, well before one |
| `Record.ShrunkKeeps` | internal/telemetry/jsonl_record.go:50-97 | every string is the bounded form of its original under a limit no larger than at the start; no number or flag is altered |
| `Record.EscapeSize` | internal/telemetry/jsonl_record.go:99-102 | JSON escaping costs at most six bytes for each byte and leaves no line break |
| `Record.LineSize` | internal/telemetry/jsonl_record.go:99-102 | everything but the strings takes at most 197 bytes |
| `Record.LineIsOneLine` | internal/telemetry/jsonl_record.go:99-102 | a record is exactly one line: one line feed, at its end |
| `Record.BoundedString` | internal/telemetry/jsonl_record.go:104-119 | the trimming loop keeps the longest valid UTF-8 prefix |
| `Record.BoundedMeaning` | internal/telemetry/jsonl_record.go:104-119 | a bounded string is within its limit, equals the original exactly when that fits, and is valid UTF-8 when shortened |
| `PathText.CleanIsIdempotent` | internal/pathnorm/pathnorm.go:93 | cleaning a rooted path twice is cleaning it once |
| `PathLaws.ParentUndoes` | internal/pathnorm/pathnorm.go:93 | `..` takes back the proper segment before it |
| `PathLaws.RootIsItsParent` | internal/pathnorm/pathnorm.go:93 | `..` at the root stays there |
| `PathLaws.BlankIsNothing` | internal/pathnorm/pathnorm.go:93 | empty segments and `.` name nothing |
| `PathLaws.LawsDetermineWalk` | internal/pathnorm/pathnorm.go:93 | these laws determine cleaning: every function that obeys them is this one |
| `PathLaws.CleaningIsLawful` | internal/pathnorm/pathnorm.go:93 | cleaning obeys all of them |
| `PathText.SplitJoin` | internal/pathnorm/pathnorm.go:55-63 | splitting undoes joining |
| `Pathnorm.CanonicalizeTwice` | internal/pathnorm/pathnorm.go:101-127 | canonicalization is idempotent on every accepted input |
| `PathLaws.AcceptedExactly` | internal/pathnorm/pathnorm.go:101-127 | exactly which strings Canonicalize accepts |
| `PathLaws.CanonicalParent` | internal/pathnorm/pathnorm.go:86-99 | Canonicalize gives the same for a POSIX path with `x/..` in it and without, wherever it stands |
| `PathLaws.CanonicalRootParent` | internal/pathnorm/pathnorm.go:86-99 | a leading `..` makes no difference |
| `PathLaws.CanonicalBlank` | internal/pathnorm/pathnorm.go:86-99 | `.` and doubled slashes make no difference |
| `PathLaws.DriveOfSegments` | internal/pathnorm/pathnorm.go:114-125 | a drive path leads to the drive's own mount, cleaned below it |
| `PathLaws.DriveParent` | internal/pathnorm/pathnorm.go:114-125 | `x/..` makes no difference in a drive path either |
| `PathLaws.BackslashIsSlash` | internal/pathnorm/pathnorm.go:114-125 | in a drive path a backslash is a slash |
| `PathLaws.UncOfSegments` | internal/pathnorm/pathnorm.go:34-68 | a share path leads into the distribution if the server is WSL's and the distribution this one, and is refused otherwise |
| `Pathnorm.FixedPoints` | internal/pathnorm/pathnorm.go:86-127 | the results of canonicalization are exactly its fixed points: rooted proper segments, no NUL, a mounted drive in lower case |
| `Pathnorm.DriveStaysOnDrive` | internal/pathnorm/pathnorm.go:114-125 | an accepted drive path stays below its own lower-cased drive whatever `..` it contains |
| `Pathnorm.SplitMountOfRooted` | internal/pathnorm/pathnorm.go:70-84 | on clean paths splitMountDrive sees exactly a drive segment below `/mnt` |
| `Pathnorm.WindowsRoundTrip` | internal/pathnorm/pathnorm.go:142-158 | Canonicalize(WSLToWindows(c)) = c for every canonical path without backslash, on a drive whatever the distribution, and elsewhere in a named one |
| `Pathnorm.WindowsDriveForm` | internal/pathnorm/pathnorm.go:142-158 | a mounted path is written with its drive letter in upper case and backslashes |
| `Pathnorm.UncForm` | internal/pathnorm/pathnorm.go:142-158 | any other path is written below the distribution's share |
| `FileUri.UriRoundTrip` | internal/pathnorm/pathnorm.go:161-172 | URIToPath(PathToURI(p)) is the canonical form of p, POSIX names that look like drives included |
| `FileUri.UrisAreInjective` | internal/pathnorm/pathnorm.go:229-254 | a URI names at most one canonical path |
| `FileUri.UnescapeEscape` | internal/pathnorm/pathnorm.go:166-170 | percent-decoding inverts percent-encoding of every byte string |
| `FileUri.DriveColonIsSeen` | internal/pathnorm/pathnorm.go:178-196 | the escaped colon of a drive look-alike survives parsing and is recognized |
| `UriForms.DriveUri` | internal/pathnorm/pathnorm.go:229-254 | `file:///C:/…` leads to the drive's mount, cleaned below it |
| `UriForms.LocalhostUri` | internal/pathnorm/pathnorm.go:243-245 | a URI that names this host leads where the URI without a host does |
| `UriForms.WslUri` | internal/pathnorm/pathnorm.go:219-226 | a URI of a WSL host leads into the distribution its first segment names, if that is this one |
| `UriForms.ForeignHostIsRefused` | internal/pathnorm/pathnorm.go:243-245 | other hosts are refused |
| `UriForms.UserIsRefused` | internal/pathnorm/pathnorm.go:237-239 | user information is refused |
| `UriForms.QueryIsRefused` | internal/pathnorm/pathnorm.go:237-239 | a query is refused |
| `UriForms.FragmentIsRefused` | internal/pathnorm/pathnorm.go:237-239 | a fragment is refused |
| `UriForms.OtherSchemeIsRefused` | internal/pathnorm/pathnorm.go:234-236 | other schemes are refused |
| `Positions.ByteOffsetMeaning` | internal/lsp/signatures.go:227-270 | byteOffset finds an offset for a position if and only if rune-wise decoding is at that offset at that position |
| `PositionUnits.PositionCounts` | internal/lsp/signatures.go:227-285 | a position is the number of line breaks before the offset and the length in UTF-16 of what follows the last of them |
| `Utf8.DecodeEncoded` | internal/lsp/signatures.go:250-256 | decoding gives back every encoded scalar value, whatever follows |
| `Utf8.EncodeDecoded` | internal/lsp/signatures.go:250-256 | the bytes of a well-formed rune are its UTF-8 form |
| `Utf8.IllFormedExactly` | internal/lsp/signatures.go:250-256 | a byte is ill-formed exactly when no scalar value's form begins there |
| `Utf8.UnitsRoundTrip` | internal/lsp/signatures.go:250-256 | the units counted are those of the UTF-16 form, which reads back |
| `Utf8.UnitsBySize` | internal/lsp/signatures.go:250-256 | a rune counts as two units exactly when it has four bytes |
| `Positions.PositionOfOffset` | internal/lsp/signatures.go:272-285 | positionAt(byteOffset(p)) = p whenever byteOffset succeeds |
| `Positions.OffsetOfPosition` | internal/lsp/signatures.go:227-285 | byteOffset(positionAt(o)) = o at every boundary between runes |
| `Positions.ByteOffsetIsMonotone` | internal/lsp/signatures.go:227-270 | positions and offsets are ordered alike, in both directions |
| `Positions.ValidRangeNeverInverts` | internal/lsp/signatures.go:186-199 | a range that resolves has end before start exactly when Range.Validate refuses it |
| `Positions.FindByteOffset` | internal/lsp/signatures.go:227-270 | the two polling loops compute that offset |
| `Positions.FindPosition` | internal/lsp/signatures.go:272-285 | the loop computes that position, decoding no further than the offset |
| `Lexical.ScanSpan` | internal/lsp/declaration_headers.go:335-378 | the three index loops compute the comment or literal at an offset, its end given by the next three rows |
| `Lexical.LineEnd` | internal/lsp/declaration_headers.go:338-347 | a line comment ends just after the first line feed, or at the end |
| `Lexical.CloseMark` | internal/lsp/declaration_headers.go:348-357 | a block comment ends just after the first closing mark, and is unterminated exactly when there is none |
| `Lexical.CloseQuoteIsFirst` | internal/lsp/declaration_headers.go:361-377 | a literal ends just after the first matching quote preceded by an even number of backslashes, and is unterminated exactly when there is none |
| `HeaderText.Normalize` | internal/lsp/declaration_headers.go:282-326 | the builder loop yields the maximal comment-free, white-space-free chunks joined by single blanks |
| `HeaderText.EmitJoins` | internal/lsp/declaration_headers.go:328-333 | pending spaces and builder amount to joining the chunks |
| `HeaderText.NormalIsFixed` | internal/lsp/declaration_headers.go:282-326 | a normalized header is its own normal form |
| `HeaderText.NormalHasNoBreak` | internal/lsp/declaration_headers.go:301-307 | a normalized header contains no carriage return and no line feed |
| `HeaderLaws.NormalFromFront` | internal/lsp/declaration_headers.go:282-333 | the normal form from the first token on: comments and white space at the front are dropped, anything else is kept with one blank behind it if a gap and more follow, and unterminated or broken literals refuse the whole |
| `Headers.TokenOffset` | internal/lsp/declaration_headers.go:67-122 | the scanning loop computes the token search |
| `Headers.TokenIsFirst` | internal/lsp/declaration_headers.go:67-122 | the search finds the first offset outside comments, literals and brackets that carries a token, and nothing exactly when there is none |
| `HeaderLaws.DepthIsSurplus` | internal/lsp/declaration_headers.go:86-106 | the depth the search counts is the largest surplus of opening over closing brackets in any last part of the code read |
| `HeaderLaws.TokenIsWord` | internal/lsp/declaration_headers.go:380-392 | a word is carried at an offset exactly when the whole identifier there is that word |
| `Headers.SkipTrivia` | internal/lsp/declaration_headers.go:124-150 | only white space and comments are skipped, and the offset exists exactly when code goes on |
| `Headers.BodyOffset` | internal/lsp/declaration_headers.go:152-257 | the scanning loop computes the body search that the next two rows describe |
| `HeaderStops.BodyOutcome` | internal/lsp/declaration_headers.go:152-257 | the search is decided by the first code character that would make a count negative, closes an angle bracket after an incomplete token, or is a `;` or `{` outside all brackets: it succeeds if and only if there is such a character before any unterminated span and it is a `{` after a complete token |
| `HeaderStops.BodyIsFirst` | internal/lsp/declaration_headers.go:152-257 | a body begins at the first `{` outside comments and literals at which all brackets are balanced, no count being negative on the way |
| `Headers.Extract` | internal/lsp/declaration_headers.go:20-65 | a header is one line, its own normal form, and the normal form of the declaration from keyword to body; none is returned only if there is no such declaration; failures are exact |
| `HoverPool.InvRun` | internal/lsp/signatures.go:107-184 | the pool's invariant holds in every state of every run |
| `HoverPool.SliceIsComplete` | internal/lsp/signatures.go:107-184 | a returned slice has for every plan its direct text or the decoding of the reply to the one request made for that plan |
| `HoverOrigins.ReplyHasOrigin` | internal/lsp/signatures.go:139-151 | the reply decoded for a plan is the one that came back for its own request |
| `HoverOrigins.ResultsAreHonest` | internal/lsp/signatures.go:107-184 | each kind of result says what happened: a position out of range, the first error, or the caller's cancellation without an error |
| `HoverOrigins.FailureHasOrigin` | internal/lsp/signatures.go:139-160 | a returned failure is an error that a request or a decoding met |
| `HoverPool.BoundedAndOnce` | internal/lsp/signatures.go:131-163 | at most eight requests are in flight, no two for one plan, and no plan is asked about twice |
| `HoverPool.NoSliceAfterTrouble` | internal/lsp/signatures.go:154-183 | after any error or cancellation no slice is returned |
| `HoverPool.FirstErrorWins` | internal/lsp/signatures.go:154-160 | a returned failure is the first error through the once-guard |
| `HoverProgress.NeverStuck` | internal/lsp/signatures.go:126-184 | in every reachable state before the return the feeder or a worker can take a step, so the feeder is never blocked on jobs that nobody will take |
| `HoverProgress.NeverEndless` | internal/lsp/signatures.go:126-184 | every run has at most 9 feeder and worker steps for each request, and 13 more |
| `Outline.Flatten` | internal/tools/get_outline.go:117-152 | the outline is the first entries of the depth-tagged preorder up to the cap, truncated if and only if there are more |
| `Outline.Flattener.Walk` | internal/tools/get_outline.go:126-145 | the recursive closure appends the preorder of its subtree as far as the cap allows |
| `Outline.PreorderIsInjective` | internal/tools/get_outline.go:117-152 | an untruncated list of symbols and depths determines the forest |
| `Outline.Resolve` | internal/tools/resolve.go:19-65 | the early-exit walk finds the first preorder match of name and line, or else the first match of the name |
| `Outline.Resolver.Walk` | internal/tools/resolve.go:27-52 | the recursive closure leaves the captured variables as a full walk would |

## Left out

- MCP registration, stdio serving, the daemon's main and its flags: wiring.
- The OTEL mirror and the tee logger: they rest on a batch processor whose code is not part of this model.
- Control socket, publication, runtime directory and peer credentials: operating-system calls.
- JSON decoding, and JSON encoding beyond the escaping and shape of one telemetry record: messages are opaque bytes.
- Rendering, evaluation harnesses, the stub provider and the deprecated `Normalize`.
- Process kill, reaping and stderr capture: their only effect on the transport, the end of waiting, is a step that may
  happen at any time. Real durations are not modelled either.
- Diagnostics: `report` never blocks and has no effect on the modelled state; the oversize, fallback and shutdown-timeout
  counters are single increments beside it.
- Sync and close of the telemetry file after the queue is drained, and the latched error texts that Close reports.
- The transport, the telemetry pipeline and the hover pool as whole programs are state machines over values rather than
  classes, because their steps interleave; `Connection.Transport` carries the mutex sections as methods in place, and
  `TransportObject` ties the two.
- Text of errors: an error is its kind or a number.
- planSignature and findDeclarationToken: one branch each over the searches modelled here.
