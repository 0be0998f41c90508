# HalfAck: a verified model

HalfAck tests whether a tool behind the Model Context Protocol keeps its promises when a call is only half
acknowledged: it starts the target, injects one fault per experiment, probes the target's state and concludes
*pass*, *violation* or *inconclusive*.  Its hard part is a stack of small state machines that must never turn
uncertainty into a pass.  This project models that stack bottom up and proves what each layer promises the next.

| file | module | what it models |
|---|---|---|
| `Common.dfy` | `Common` | options, results, promises with a count of settling calls, receipts, request ids |
| `NdjsonDecoder.dfy` | `NdjsonDecoding` | the chunked line decoder over 64 KiB blocks, against a one-pass reference |
| `ByteTail.dfy` | `ByteTail` | the ring buffer that keeps the end of the target's error stream |
| `MessageQueue.dfy` | `MessageQueue` | the bounded queue with items on one side and waiting receivers on the other |
| `SerializedWriter.dfy` | `SerializedWriter` | the one-write-at-a-time writer driven by callback and drain |
| `RoundTrip.dfy` | `RoundTrip` | writer, any chunking, decoder and queue composed |
| `FaultGate.dfy` | `FaultGate` | the fault gate: withheld responses, disconnects, and the evidence for both |
| `RawMcpClient.dfy` | `RawMcpClient` | request ids, pending and tombstone tables, the notification window |
| `Settle.dfy` | `Settle` | the settling loop over a scripted clock and reader |
| `Strings.dfy` | `Strings` | the string operations the program is written against |
| `ArgumentExpansion.dfy` | `ArgumentExpansion` | placeholder policy, the walk over a scenario tree, and argument expansion |
| `JsonPointer.dfy` | `JsonPointer` | JSON Pointer parsing, printing and evaluation (sections 3 to 5 of RFC 6901) |
| `ExperimentTypes.dfy` | `ExperimentTypes` | the values runner and report exchange |
| `World.dfy` | `World` | the adversarial environment of the runner, its history, and spawn safety of a history |
| `Evidence.dfy` | `Evidence` | the script of every experiment, where a history follows it or departs from it, and what a result must rest on |
| `Runner.dfy` | `Runner` | the seven strategies, failure handling and cleanup of one experiment |
| `Suite.dfy` | `Suite` | the loop over the experiments, and theorems about verdicts and whole suites |
| `Report.dfy` | `Report` | the report's independent consistency check |

## How the machines are modelled

Each stateful class of the program is a class with the program's fields.  The writer, the queue, the fault gate and
the client follow one scheme: a pure state, a step function for each event, and methods that change the fields one
by one and are proved to reach exactly the state the step function gives.  An invariant is proved to survive every
step, and the theorems are then about `Run(events)`, the state after *any* sequence of events.  A promise is a field
that is pending, fulfilled or rejected, with the number of settling calls made on it; the block of code between two
awaits is one event; stream callbacks, drains, incoming messages, timers, aborts and terminal settlements are events
that may come in any order.

The decoder and the ring buffer are proved against plain functions of the bytes received: their arrays are updated
in place and the contracts say which bytes they hold.

The runner is proved against `World`, whose methods answer arbitrarily: an open may fail with or without a proven
termination, a close may throw or report anything, a probe may return any value, an await may time out.  `World`
records the questions and answers in a trace.  `Sound` in `Evidence.dfy` says what a reported result may claim about
its stretch of that trace, and is proved for every result of every suite.  It binds in both directions: a judgement
needs a proven fault, and an inconclusive result needs the place where the world denied the script its next answer.
The events carry the errors behind a denial, and `ReasonShown` and `WhyOf` say which reason each of them stands for.
`Suite.VerdictIsExact` and `Suite.HistoryDecides` draw the conclusion that the history alone decides the verdict.

A step function is shared by a method and by the theorems, so a theorem alone could be true of a wrong step.  For
every machine there are therefore laws that speak of none of these functions: what each event does, by the fields of
the message, the clock readings of the round or the bytes of the line it carries, and by what the machine holds
(`FaultGate.SuppressionDecides`, `RawMcpClient.EndsExactly`, `SerializedWriter.FailsExactly`,
`MessageQueue.PushIsExact`, `Settle.UsableOnTime`, `NdjsonDecoding.LineIsParsed`).  In the same way
`Suite.CallsOfProven` says under which ids the calls of an experiment go out, `Suite.StatusIsExact` what the status of
a suite means, `ArgumentExpansion.ExpandedFills` what an expansion is, and `JsonPointer.StepExactly` where a step of a
pointer leads.

Fields that only the specification reads, such as the messages a gate took and returned, are ghost fields.

JSON parsing and printing, schema checks and UTF-8 decoding are parameters.  Of printed JSON only this is assumed,
where it is needed: it is non-empty, holds no newline, does not end in a carriage return, and parses back.

## Where the code differs from its documentation or from a simpler claim

* `README.md:297` says a violation comes from a proven experiment.  The code also reports a violation when the
  *seed* call did not have exactly its one effect; the fault of the experiment is then not proven, and the result
  says so (`src/experiment/runner.ts:726-739`).  `Suite.ViolationWithoutFault` gives such a history, thirteen events
  long, and its sound result.  `Suite.UnprovenViolation` proves that a concluded experiment has no proven fault
  exactly if it checks its seed call and that probe shows another value than the seed call's one effect, and that
  the result is then exactly the violation of the seed effect.
* Placeholder policy and scenario walk together do not quite imply that arguments expand: a non-finite number passes
  both and is refused by the expansion.  Only the schema's number type excludes it.
  `ArgumentExpansion.ValidatedArgumentsExpand` proves that arguments expand exactly when they are an object and
  their numbers are finite, and `ArgumentExpansion.NonFiniteIsNotCaught` gives the input.
* Printing a path and parsing it back is not the identity on every token list, because the printer first escapes and
  shortens text for diagnostics; its limit counts UTF-16 code units, of which characters beyond the basic plane take
  two.  `JsonPointer.PrintIsNotAlwaysUndone` gives failing tokens: a line break, 129 plain letters, 65 characters of two
  units, and 127 letters before such a character, whose pair the cut splits.  `JsonPointer.PrintParseRoundTrip` and
  `JsonPointer.ParsePrintRoundTrip` prove that it is the identity exactly if every token is `Unchanged`: plain characters
  of at most 128 code units, or longer text of one peculiar form, plain characters and then backslashes on both sides of
  the cut and an ellipsis at the end.

## Model

| member | source | states |
|---|---|---|
| NdjsonDecoding.FeedIsReference | src/transport/ndjson-decoder.ts:104-207 | feeding a stream byte by byte gives the frames, lengths and verdict of splitting it on newlines in one pass |
| NdjsonDecoding.FeedSplit | src/transport/ndjson-decoder.ts:57-89 | feeding two stretches one after the other is feeding their concatenation |
| NdjsonDecoding.ChunkIndependence | src/transport/ndjson-decoder.ts:57-102 | for every stream and every way to cut it, frames and verdict are those of the one-pass reference |
| NdjsonDecoding.OverlongIsTooLarge | src/transport/ndjson-decoder.ts:129-164 | the early size check, which spares a trailing CR, refuses exactly the lines whose payload exceeds the limit |
| NdjsonDecoding.PrintedStreamDecodes | src/transport/ndjson-decoder.ts:166-244 | printed frames decode to the messages printed, with their lengths and without a fault, whether each line ends in CR LF or in LF |
| NdjsonDecoding.LineIsParsed | src/transport/ndjson-decoder.ts:166-244 | of a line that ends in CR LF exactly the CR is dropped and of one that ends in LF nothing; what is left is parsed, with its length, or is too large, empty or not parsed |
| NdjsonDecoding.BadLineEndsStream | src/transport/ndjson-decoder.ts:57-89 | the first line that is too large, empty or not parsed ends a stream with that fault, behind all frames before it and whatever follows |
| NdjsonDecoding.BrokenOffStream | src/transport/ndjson-decoder.ts:91-102 | a stream that breaks off inside a line keeps its frames and is incomplete, or too large if no line end could save the line |
| NdjsonDecoding.DecodeStream | src/transport/ndjson-decoder.ts:29-102 | the class driven over any chunks and then finished returns the reference's transcript, or refuses a limit outside 1 to 2^53 - 2; what the reference is, is said by the rows on lines and streams |
| NdjsonDecoding.NdjsonDecoder.PushEach | src/transport/ndjson-decoder.ts:57-89 | the delivered frames and the new state are those of feeding the chunk; a failed or finished decoder delivers nothing and stays as it is |
| NdjsonDecoding.NdjsonDecoder.Finish | src/transport/ndjson-decoder.ts:91-102 | fails exactly when a failure is latched or bytes are left over, and latches it |
| NdjsonDecoding.NdjsonDecoder.DecodeChunk | src/transport/ndjson-decoder.ts:104-127 | what is delivered, together with what the new state will give, is what the old state would have given |
| NdjsonDecoding.NdjsonDecoder.Append | src/transport/ndjson-decoder.ts:129-164 | the held bytes grow by exactly the segment, or the line is refused exactly when it is overlong |
| NdjsonDecoding.NdjsonDecoder.Accumulate | src/transport/ndjson-decoder.ts:143-163 | the copy loop ends and appends all bytes to the blocks, keeping the block shape |
| NdjsonDecoding.NdjsonDecoder.CompleteBufferedFrame | src/transport/ndjson-decoder.ts:166-196 | a line that began in an earlier chunk decodes as if it had come in one piece, as `LineIsParsed` says |
| NdjsonDecoding.NdjsonDecoder.CompleteDirectFrame | src/transport/ndjson-decoder.ts:198-207 | a line inside one chunk decodes as the reference decodes it, as `LineIsParsed` says |
| NdjsonDecoding.NdjsonDecoder.BufferedBlockCount | src/transport/ndjson-decoder.ts:41-47 | the block count is the number of held bytes divided by 65536, rounded up |
| ByteTail.BoundedByteTail.Append | src/transport/stdio-process.ts:642-675 | after any append the ring shows the last bytes of everything appended, also for chunks larger than the ring |
| ByteTail.BoundedByteTail.Write | src/transport/stdio-process.ts:655-672 | the one or two in-place copies are one wrapped write |
| ByteTail.WriteKeepsEnd | src/transport/stdio-process.ts:655-674 | a wrapped write of a short chunk drops exactly the oldest bytes that no longer fit |
| ByteTail.BoundedByteTail.Snapshot | src/transport/stdio-process.ts:676-687 | the snapshot is the last min(maxBytes, total) bytes; truncated exactly when bytes were lost |
| ByteTail.Capture | src/transport/stdio-process.ts:642-687 | the same for every sequence of appends of any sizes |
| MessageQueue.BoundedMessageQueue.Push | src/transport/message-queue.ts:33-56 | refused exactly for a terminated queue, an unusable length or a full queue; otherwise handed to the oldest waiter or queued |
| MessageQueue.BoundedMessageQueue.Receive | src/transport/message-queue.ts:58-76 | a receive takes the oldest item, is rejected by a terminal error, or waits |
| MessageQueue.BoundedMessageQueue.SetTerminal | src/transport/message-queue.ts:86-102 | ending or failing rejects every waiter, once, and drops the items only on failure |
| MessageQueue.RunKeepsInv | src/transport/message-queue.ts:33-102 | every state reachable by any sequence of events satisfies the invariant of the queue |
| MessageQueue.PushIsExact | src/transport/message-queue.ts:33-56 | in every run a push is accepted exactly if nothing ended the queue, its length is usable, and a receive waits or it fits within both limits; the oldest waiting receive gets it, or it is queued last; a refusal says why and changes nothing |
| MessageQueue.ReceiveIsExact | src/transport/message-queue.ts:58-76 | in every run a receive gets the oldest item, else the error that ended the queue, else waits, and is refused exactly when the most receives allowed wait already |
| MessageQueue.TerminalIsExact | src/transport/message-queue.ts:78-102 | the first end or failure decides the error, rejects every waiting receive with it, and only a failure discards the items |
| MessageQueue.FirstInFirstOut | src/transport/message-queue.ts:33-76 | in every run, successful receives return the accepted messages in order and once each; nothing accepted is missing unless a failure discarded it |
| MessageQueue.NobodyStranded | src/transport/message-queue.ts:33-102 | in every run, items and waiters are never both present, sizes are exact and bounded, receives settle at most once and all of them once the queue ends |
| MessageQueue.SettledStays | src/transport/message-queue.ts:58-102 | a settled receive keeps its outcome |
| SerializedWriter.SerializedNdjsonWriter.Send | src/transport/serialized-writer.ts:55-115 | refuses exactly in the source's cases, else queues the frame, numbers it and pumps |
| SerializedWriter.SerializedNdjsonWriter.Pump | src/transport/serialized-writer.ts:161-217 | starts the next write if none is active, with the stream's three answers |
| SerializedWriter.SerializedNdjsonWriter.CompleteIfReady | src/transport/serialized-writer.ts:219-238 | gives the receipt and pumps once callback and drain are both done |
| SerializedWriter.SerializedNdjsonWriter.Fail | src/transport/serialized-writer.ts:240-261 | rejects all outstanding writes and a waiting finish, and empties the queue |
| SerializedWriter.SerializedNdjsonWriter.OnCallback | src/transport/serialized-writer.ts:186-203 | the write callback completes or fails the active write and is ignored for any other |
| SerializedWriter.SerializedNdjsonWriter.OnDrain | src/transport/serialized-writer.ts:172-183 | a drain reaches the active write unless it already flowed |
| SerializedWriter.SerializedNdjsonWriter.Finish | src/transport/serialized-writer.ts:117-136 | stops accepting; resolved, refused or waiting by what is in flight |
| SerializedWriter.RunKeepsInv | src/transport/serialized-writer.ts:55-270 | every state reachable by any sequence of events satisfies the invariant of the writer |
| SerializedWriter.OneWriteAtATime | src/transport/serialized-writer.ts:161-238 | in every run, frame k + 1 is the frame of accepted payload k + 1 and reaches the stream only after frame k's callback and its drain or unthrottled answer |
| SerializedWriter.ReceiptsAreGapFree | src/transport/serialized-writer.ts:83-114 | in every run, receipts resolve as 1, 2, 3, ... with the frame's length, each once, and only after the stream was done with that frame |
| SerializedWriter.NothingLeftBehind | src/transport/serialized-writer.ts:219-261 | in every run, queued bytes and messages are exactly the outstanding ones and within limits; a failure settles every accepted write |
| SerializedWriter.FinishMeansReceipts | src/transport/serialized-writer.ts:117-136 | finish resolves only if every accepted write has its receipt |
| SerializedWriter.AcceptedGrows | src/transport/serialized-writer.ts:55-115 | only an unrefused send accepts a payload, and it accepts that one |
| SerializedWriter.CallbackAndDrainGiveReceipt | src/transport/serialized-writer.ts:172-238 | in every run, a callback and a drain, in either order, give the write under way its receipt with its number and the length of its frame, whatever becomes of the next write |
| SerializedWriter.OpenWriterFinishes | src/transport/serialized-writer.ts:161-270 | from every reachable state of an open writer: if the stream keeps calling back and draining, every accepted write gets its receipt and a waiting finish is resolved |
| SerializedWriter.OpenUntil | src/transport/serialized-writer.ts:117-145 | a writer accepts sends until it fails or is asked to finish, and listens to its stream until it is disposed of |
| SerializedWriter.SendFaults | src/transport/serialized-writer.ts:55-100 | in every run a send is refused exactly for a failed or finishing writer, a message that is no object, a payload beyond the frame limit, or a full queue, with the error of the first of these |
| SerializedWriter.FailsExactly | src/transport/serialized-writer.ts:138-261 | in every run, which events fail an open writer and with which error: a write that throws, a failed callback of the write under way, an error or early close of the stream it listens to, an abort |
| RoundTrip.WrittenStreamDecodes | src/transport/serialized-writer.ts:83-114 | what the writer put on the stream decodes, however cut, to its first accepted messages, with length one less than on the receipt |
| RoundTrip.EndToEnd | src/transport/message-queue.ts:33-76 | pushed without overflow, those messages come out of successful receives in order and once each; all of them once the queue is empty |
| FaultGate.RunKeepsInv | src/experiment/fault-gate.ts:103-449 | every state reachable by any sequence of events satisfies the invariant of the gate |
| FaultGate.DisconnectEvidence | src/experiment/fault-gate.ts:145-439 | the trigger settles at most once; it resolves exactly when the claimed write was accepted, a disconnect (not a close) was started and succeeded and no receive failed before; it reports the accepted receipt, and an intercepted response exactly when one was withheld for this gate; it rejects exactly when the fault is lost |
| FaultGate.TriggerIsComplete | src/experiment/fault-gate.ts:282-339 | once the claimed write and the terminal operation have settled, the trigger has |
| FaultGate.DisconnectIsUnderWay | src/experiment/fault-gate.ts:369-381 | an accepted claimed write always has a disconnect started or scheduled behind it |
| FaultGate.DisconnectNeverCloses | src/experiment/fault-gate.ts:251-280 | with a disconnect gate armed the terminal operation is never a close |
| FaultGate.OneTerminalOperation | src/experiment/fault-gate.ts:251-305 | at most one terminal operation is ever started |
| FaultGate.NothingLostSilently | src/experiment/fault-gate.ts:192-249 | received messages are the taken ones without those withheld, in order; each withheld one is the first classified response for its gate and a tool success, one for every gate that reports one; an active suppression gate is never settled; `WithheldAreSuccesses` says the same on the fields of the messages |
| FaultGate.WithheldAreSuccesses | src/experiment/fault-gate.ts:206-249 | in every run each withheld message is a result response with its gate's id that is a tool result without the error flag, and no message since the arming had that id and a result or an error |
| FaultGate.SuppressionDecides | src/experiment/fault-gate.ts:206-230 | in every run the first message with the id of the active suppression gate and a result or an error is withheld exactly if it is a tool result without the error flag, and otherwise returned and reported as tool error, remote error or invalid by its fields; all others are returned and the gate waits on |
| FaultGate.DisconnectDecides | src/experiment/fault-gate.ts:232-248 | in every run the first such message for an active disconnect gate is withheld, and counted as intercepted, exactly if it is a successful tool result; all others are returned |
| FaultGate.ObservationStays | src/experiment/fault-gate.ts:432-439 | an observation that was made stays through every later event |
| FaultGate.SuppressionEnds | src/experiment/fault-gate.ts:307-367 | how a suppression gate ends without a response: disarmed by its lease, or given up because a receive failed or the terminal operation settled |
| FaultGate.ArmingIsExact | src/experiment/fault-gate.ts:103-143 | arming succeeds exactly for a usable id with no gate active and nothing terminated; the new gate is pending and nothing has happened to it |
| FaultGate.SendClaims | src/experiment/fault-gate.ts:145-170 | a send claims the unclaimed active disconnect gate exactly if it is a tool call with the gate's id; a send that throws disconnects exactly if it claimed |
| FaultGate.TriggerReason | src/experiment/fault-gate.ts:329-420 | a trigger is rejected only by a refused write, an aborted lease, a failed receive or a failed terminal operation, and with the reason that belongs to it |
| FaultGate.ClosedByTheTerminal | src/experiment/fault-gate.ts:325-338 | the closing promise of a disconnect gate is settled with what the terminal operation settled with |
| FaultGate.WritesAreLogged | src/experiment/fault-gate.ts:172-189 | the settlement of a write enters the log exactly if that write claimed a gate; a refusal starts the disconnect |
| FaultGate.EventsAreLogged | src/experiment/fault-gate.ts:251-420 | what every other event adds to the log that the evidence rests on, and which terminal operation it starts |
| FaultGate.DeliveriesAreLogged | src/experiment/fault-gate.ts:232-246 | a delivery starts the disconnect exactly if it is the first response for a gate whose write was accepted |
| FaultGate.McpFaultGateTransport.Send | src/experiment/fault-gate.ts:145-190 | a send claims the armed disconnect gate exactly if it is its tool call, and is refused after termination |
| FaultGate.McpFaultGateTransport.OnSendAccepted | src/experiment/fault-gate.ts:169-182 | an accepted claimed write records the receipt and starts or schedules the disconnect |
| FaultGate.McpFaultGateTransport.OnMessage | src/experiment/fault-gate.ts:192-249 | a message is returned, or withheld and the gate moved on, as `SuppressionDecides` and `DisconnectDecides` say by its fields |
| FaultGate.McpFaultGateTransport.OnReceiveFailed | src/experiment/fault-gate.ts:341-367 | a failing receive rejects the trigger unless the disconnect is already under way |
| FaultGate.McpFaultGateTransport.OnTerminalSettled | src/experiment/fault-gate.ts:296-339 | the settlement of the terminal operation settles the active gate |
| FaultGate.McpFaultGateTransport.Close | src/experiment/fault-gate.ts:251-273 | an armed disconnect gate turns a close into a disconnect |
| FaultGate.McpFaultGateTransport.DisarmSuppression | src/experiment/fault-gate.ts:422-430 | disarms exactly an active, unsettled suppression gate |
| FaultGate.McpFaultGateTransport.AbortDisconnectGate | src/experiment/fault-gate.ts:410-420 | aborts exactly an active disconnect gate before any terminal operation, and disconnects |
| RawMcpClient.RunKeepsInv | src/mcp/raw-client.ts:342-729 | every state reachable by any sequence of events satisfies the invariant of the client |
| RawMcpClient.IdsNeverRepeat | src/mcp/raw-client.ts:692-729 | in every run, mixing automatic and explicit ids, no id is issued twice, pending and tombstones are disjoint, and the tombstones are the last retired ids |
| RawMcpClient.ResponseIsDelivered | src/mcp/raw-client.ts:454-495 | a well-formed response to an outstanding request settles that request with its content, and no other |
| RawMcpClient.LateResponseIsIgnored | src/mcp/raw-client.ts:461-471 | while the client lives a response changes nothing exactly when its id is among the last retired ones |
| RawMcpClient.UnknownResponseIsFatal | src/mcp/raw-client.ts:461-471 | a response to an id neither outstanding nor remembered ends the client |
| RawMcpClient.SettledStays | src/mcp/raw-client.ts:454-495 | the first settlement of a request is its last |
| RawMcpClient.TerminationSettlesAll | src/mcp/raw-client.ts:658-679 | requests settle at most once; after termination all are settled, none is pending, and none can be started |
| RawMcpClient.CancellationsMatch | src/mcp/raw-client.ts:605-630 | a cancellation is attempted once for every abandoned request and for no other |
| RawMcpClient.StartFaults | src/mcp/raw-client.ts:342-360 | in every run a call is refused exactly for the first check that fails: ended client, set signal, bad timeout, numbers used up, unusable, active or used id, spent budget of explicit ids, unprintable request |
| RawMcpClient.StartIsExact | src/mcp/raw-client.ts:692-729 | a started call is a pending request under its id, which is used up even if the request cannot be printed; a number moves the counter past itself; running out of numbers ends the client |
| RawMcpClient.AbandonIsExact | src/mcp/raw-client.ts:605-630 | in every run a timer rejects the request as timed out and a signal as aborted, its cancellation is attempted, and the others hear of it exactly if that cannot be sent |
| RawMcpClient.EndsExactly | src/mcp/raw-client.ts:410-690 | in every run, which events end a living client and as what: a failed write or read, a malformed or unknown response, an invalid message or request, a rejected result, a close |
| RawMcpClient.EndInterrupts | src/mcp/raw-client.ts:658-679 | in every run an end rejects each outstanding request as failed by the transport if that was it, and as of unknown outcome otherwise |
| RawMcpClient.EndStays | src/mcp/raw-client.ts:658-661 | an ended client stays as it is, whatever happens |
| RawMcpClient.RawMcpClient.StartRequest | src/mcp/raw-client.ts:342-408 | refuses in the source's order of checks, else selects an id and registers the request |
| RawMcpClient.RawMcpClient.SelectRequestId | src/mcp/raw-client.ts:692-729 | the six refusals of an explicit id, the exhaustion of numbers, and the selected id |
| RawMcpClient.RawMcpClient.HandleResponse | src/mcp/raw-client.ts:454-495 | ignores tombstones, ends the client on unknown or malformed responses, else settles the request |
| RawMcpClient.RawMcpClient.AbandonRequest | src/mcp/raw-client.ts:605-630 | abandons exactly a pending request and attempts its cancellation |
| RawMcpClient.RawMcpClient.Terminate | src/mcp/raw-client.ts:658-679 | rejects exactly the pending requests, once |
| RawMcpClient.RawMcpClient.RememberTombstone | src/mcp/raw-client.ts:632-640 | appends and evicts the oldest beyond the limit |
| RawMcpClient.RawMcpClient.RecordNotification | src/mcp/raw-client.ts:585-602 | the retained window stays the longest suffix within both limits, with exact byte and drop counts; the break on an empty queue is unreachable |
| RawMcpClient.LongestSuffixIsLongest | src/mcp/raw-client.ts:585-602 | that window is a suffix, fits, and every longer suffix does not |
| RawMcpClient.LongestSuffixStep | src/mcp/raw-client.ts:585-602 | evicting from the old window gives the same as cutting the whole history anew |
| Settle.MutableEvidence.Record | src/oracle/settle.ts:286-304 | the counters after one more sample are what their definitions say of the longer history |
| Settle.StreakMeaning | src/oracle/settle.ts:286-304 | the streak is exactly the number of equal values at the end |
| Settle.TotalIsBounded | src/oracle/settle.ts:286-317 | the total is at most the longest streak times one more than the transitions |
| Settle.RunRound | src/oracle/settle.ts:139-226 | one round: a read is made exactly if the round is in time, not aborted before and on a clock that did not go back, with the boundary and timeout it is given; exactly a usable value is recorded; a due sleep is made for exactly its length; the loop goes on, is stable, aborted, failed or timed out under exactly their conditions, and a timeout or result is dated |
| Settle.SettleProbe | src/oracle/settle.ts:105-228 | the history is the list of the samples of the usable rounds, and the loop goes on up to the round that ends it; without full-window mode the result is stable exactly if there is a run of enough equal samples, in full-window mode exactly if the read at the boundary gave a usable value that is the last of enough equal ones; every sample completed before the boundary without full-window mode; at most one read is a confirmation; no read is given time beyond the boundary; under an ideal clock the number of reads is bounded and the loop ends |
| Settle.UsableOnTime | src/oracle/settle.ts:139-197 | on a clock that does not go back a value is usable exactly if it is a safe integer, its read began within the request timeout, and in full-window mode within the window or at its end, otherwise completed within the window |
| Settle.GoesOnOnTime | src/oracle/settle.ts:159-226 | on such a clock, after a read and a sleep that ended as they should, the loop goes on exactly if, in full-window mode, the window was open when the round started, and otherwise if both were in time and no run of equal samples is long enough |
| Settle.RoundsAreBounded | src/oracle/settle.ts:139-228 | under an ideal clock at most ceil(timeout / min(interval, request timeout)) rounds start before the boundary |
| Settle.ClockAdvances | src/oracle/settle.ts:139-284 | each round before the boundary moves the clock on by a step or to the boundary |
| ArgumentExpansion.ArgumentPlaceholderIssues | src/config/security-policy.ts:167-195 | lists the issues of a value in order, with their paths |
| ArgumentExpansion.NoIssuesMeansClean | src/config/security-policy.ts:152-195 | there is no issue exactly when no key holds a placeholder start and no text one other than the run id's |
| ArgumentExpansion.AssertSafeValueTree | src/config/load-scenario.ts:274-314 | accepts exactly the trees within the node and depth limits without forbidden keys |
| ArgumentExpansion.SafeValueVisitor.Visit | src/config/load-scenario.ts:279-314 | the walk with its shared counter accepts exactly what the recursive definition does |
| ArgumentExpansion.ExpandRunArguments | src/experiment/arguments.ts:44-58 | succeeds exactly for safe run ids and expandable objects, and returns the substituted tree |
| ArgumentExpansion.ExpansionState.ExpandValue | src/experiment/arguments.ts:83-142 | expands exactly the trees within the limits, and substitutes every text |
| ArgumentExpansion.ExpandRun | src/experiment/arguments.ts:60-81 | the same for the three invocations of a scenario |
| ArgumentExpansion.ExpansionAddsNoStart | src/experiment/arguments.ts:83-110 | inserting a safe run id never creates a placeholder start across the seam |
| ArgumentExpansion.SubstituteIsSafe | src/experiment/arguments.ts:83-142 | a policy-clean tree keeps its shape and holds no placeholder start afterwards |
| ArgumentExpansion.ValidatedArgumentsExpand | src/config/security-policy.ts:152-195 | arguments in an accepted scenario without issues expand for every safe run id exactly when they are an object and their numbers are finite; the result has the same shape and no placeholder start |
| ArgumentExpansion.NonFiniteIsNotCaught | src/experiment/arguments.ts:92-101 | walk and policy accept an argument the expansion refuses |
| ArgumentExpansion.ExpandedFills | src/experiment/arguments.ts:89-91 | a text cut into pieces at its placeholders expands to these pieces with the run id between them, and to nothing else |
| ArgumentExpansion.AllowedExactly | src/config/security-policy.ts:167-180 | the policy allows a text exactly if no placeholder start occurs in it once its run id placeholders are taken out |
| ArgumentExpansion.SafeRunIds | src/experiment/arguments.ts:144-148 | the safe run ids by length and ASCII codes |
| ArgumentExpansion.AcceptedTrees | src/config/load-scenario.ts:274-314 | value by value: the walks accept exactly the trees of at most 10000 values in which no path is longer than 32 or holds a forbidden key, and for the expansion every number is finite |
| ArgumentExpansion.SubstituteReaches | src/experiment/arguments.ts:83-142 | value by value: texts are filled with the run id where they stand, everything else stays where and what it is |
| ArgumentExpansion.IssuesAreExact | src/config/security-policy.ts:152-195 | the issues are exactly the texts that are not allowed and the keys with a placeholder start, each with the path it stands at |
| JsonPointer.EncodeInTwoPasses | src/domain/diagnostic.ts:13-23 | replacing tildes and then slashes is one pass over the characters |
| JsonPointer.DecodeInTwoPasses | src/oracle/json-pointer.ts:20-33 | replacing `~1` and then `~0` is one decoding from left to right, on every string |
| JsonPointer.DecodeEncode | src/oracle/json-pointer.ts:20-33 | decoding undoes encoding, and an encoded token holds no separator and no invalid escape |
| JsonPointer.EncodeDecode | src/oracle/json-pointer.ts:20-33 | encoding undoes decoding between two separators |
| JsonPointer.ParseOfPointer | src/oracle/json-pointer.ts:20-33 | the parser gives back the tokens of every pointer headed by the root member |
| JsonPointer.PointerOfParse | src/oracle/json-pointer.ts:20-33 | every accepted pointer is that of its tokens, which the root member heads |
| JsonPointer.UnchangedExactly | src/domain/diagnostic.ts:5-11 | diagnostic escaping leaves exactly these texts as they are: plain characters of at most 128 UTF-16 code units, or 129 to 257 units that end in an ellipsis and are plain before, but for equally many backslashes on both sides of the cut |
| JsonPointer.UnsafeCodes | src/domain/diagnostic.ts:1-3 | the characters that are always escaped, and those that take two code units, by code point |
| JsonPointer.EscapeAllIsRead | src/domain/diagnostic.ts:5-11 | escaping loses nothing: an escaped text, read as the body of a JSON string, is the text |
| JsonPointer.EscapeAllIsSafe | src/domain/diagnostic.ts:5-11 | no control character and no unsafe character is left in an escaped text |
| JsonPointer.PrintParseRoundTrip | src/domain/diagnostic.ts:13-23 | parsing undoes printing exactly on token lists of which every token is unchanged by diagnostic escaping, by its length in code units and its characters |
| JsonPointer.ParsePrintRoundTrip | src/domain/diagnostic.ts:13-23 | printing undoes parsing exactly on accepted pointers of which every token is unchanged in that sense |
| JsonPointer.PrintIsNotAlwaysUndone | src/domain/diagnostic.ts:13-23 | tokens that do not come back: a line break, 129 plain letters, 65 characters of two code units, and 127 letters before one such character, of which the printer leaves the escaped half of a pair |
| JsonPointer.ResolveStructuredContentPointer | src/oracle/json-pointer.ts:35-86 | the loop follows the tokens through members and array positions, with the source's failures |
| JsonPointer.ResolvesExactlyPaths | src/oracle/json-pointer.ts:35-86 | a pointer resolves to a value exactly when a path of the document has this pointer and leads to that value |
| JsonPointer.FoundIsFirst | src/oracle/json-pointer.ts:77-86 | the member found is the first with the key, and none is found exactly if there is none |
| JsonPointer.StepExactly | src/oracle/json-pointer.ts:39-86 | a step leads into an array by the decimal of a position, into an object by a key and into nothing else, and fails with the fault that belongs to it |
| JsonPointer.FirstFaultIsReported | src/oracle/json-pointer.ts:35-52 | a pointer fails with the fault of the first step that fails |
| JsonPointer.RefusedExactly | src/oracle/json-pointer.ts:20-33 | a pointer is refused by its syntax exactly if it is the pointer of no token list headed by the root member |
| World.SpawnSafety | src/experiment/runner.ts:926-1030 | in a safe history nothing is opened while a session lives or after an unproven termination, no session is opened twice, and none is used after its close |
| World.OpenedAfterConfirmation | src/experiment/runner.ts:948-967 | before anything is opened, all that was opened earlier is confirmed to have terminated |
| World.FlagsMean | src/experiment/runner.ts:926-967 | spawning is forbidden exactly if some termination in the history is unproven, and the abort noted exactly if it was seen |
| World.RefusedMeans | src/experiment/runner.ts:948-967 | the process noted as refused is that of a close whose termination is not confirmed |
| World.AllClosed | src/experiment/runner.ts:969-1030 | once no session lives, every opened session was closed |
| World.CompletionTells | src/experiment/runner.ts:1151-1184 | which outcomes of a call each reported completion stands for, in both directions |
| Evidence.FaultNamesExperiment | src/experiment/runner.ts:274-618 | an established fault is that of the experiment that was run |
| Evidence.IdsNameRunAndSuffix | src/experiment/runner.ts:1220-1222 | two request ids are equal exactly if their run ids and their suffixes are |
| Evidence.ProvenIsNotBroken | src/experiment/runner.ts:249-272 | a history that proves an experiment nowhere departs from its script |
| Evidence.BrokenStays | src/experiment/runner.ts:158-223 | a departure from the script is not undone by anything that happens later, cleanup included, nor is its phase |
| Evidence.PhaseIsUnique | src/experiment/runner.ts:225-272 | the phase in which a history departs from an experiment's script is determined by the history |
| Runner.NormalizeFlowFailure | src/experiment/runner.ts:1186-1200 | a flow failure stays as it is; of any other error only the runner's own abort keeps its phase, all others count as opening; the reason is an unproven termination exactly if a session reported that, else aborted exactly after the abort signal, else the target failed |
| Runner.AcceptedKnownExactly | src/experiment/runner.ts:867-877 | an attempt will do exactly if its write was accepted and its outcome is known; otherwise the reason says which was missing, or that it was aborted |
| Runner.ExperimentRun.SettleForPhase | src/experiment/runner.ts:903-924 | a settled probe of the live session, or a failure of that phase that is called aborted, unsettled or failed exactly as the abort signal and the probe's own error say |
| Runner.ExperimentRun.BeginExercise | src/experiment/runner.ts:783-802 | the call was sent on the live session, or a failure of that phase, called aborted exactly if the signal was seen before or after the call could not be sent |
| Runner.ExperimentRun.ObserveHandle | src/experiment/runner.ts:804-832 | the reported attempt is exactly the write and the outcome that were seen |
| Runner.ExperimentRun.PrepareBaseline | src/experiment/runner.ts:225-247 | succeeds only after a successful reset and a probe at the baseline, and fails only if the history shows which of them went wrong |
| Runner.ExperimentRun.RunSuppressedSeed | src/experiment/runner.ts:620-724 | succeeds only if the response was withheld, the write accepted, the cancellation written and the call ended as aborted; fails only where one of these was denied, and then claims no fault |
| Runner.ExperimentRun.VerifySeedEffect | src/experiment/runner.ts:726-739 | true exactly if the seed call had its one effect; otherwise that is the violation concluded |
| Runner.ExperimentRun.VerifyPersistenceBoundary | src/experiment/runner.ts:741-747 | succeeds only if the effect survived into the new session |
| Runner.ExperimentRun.ConcludeFromFinal | src/experiment/runner.ts:749-765 | the conclusion follows from a settled probe of the live session and the expected value |
| Runner.ExperimentRun.CloseCurrentSession | src/experiment/runner.ts:948-967 | succeeds only with a confirmed termination; otherwise nothing may be spawned any more |
| Runner.ExperimentRun.OpenAdditionalSession | src/experiment/runner.ts:926-946 | opens only while spawning is allowed |
| Runner.ExperimentRun.SuppressCompletedResponse | src/experiment/runner.ts:274-282 | a conclusion rests on the suppressed seed call and the final probe |
| Runner.ExperimentRun.RetryWithNewId | src/experiment/runner.ts:284-301 | a conclusion rests on the suppressed seed, its verified effect, an accepted retry of known outcome under a new id, and the final probe, or on a failed seed check; `Suite.CallsOfProven` says where the calls are and that the ids differ |
| Runner.ExperimentRun.ReuseRpcId | src/experiment/runner.ts:303-322 | likewise with a confirmed restart in between and the retry under the same id |
| Runner.ExperimentRun.RestartAfterSuppressedResponse | src/experiment/runner.ts:324-345 | likewise with a confirmed restart and a new id, by `Suite.CallsOfProven` another one than the seed's |
| Runner.ExperimentRun.ParallelNewIds | src/experiment/runner.ts:347-388 | a conclusion rests on two accepted calls of known outcome under different ids, as `Suite.CallsOfProven` shows |
| Runner.ExperimentRun.CancelAndObserveStartedPeer | src/experiment/runner.ts:834-865 | the started peer is cancelled and reported as observed |
| Runner.ExperimentRun.CancelOnProgress | src/experiment/runner.ts:390-543 | a conclusion rests on progress seen, a written cancellation and a call that ended as aborted, judged by the cancelled effect; fresh cleanup is waived only for in-process state |
| Runner.ExperimentRun.DisconnectAfterWriteAccepted | src/experiment/runner.ts:545-618 | a conclusion rests on the triggered disconnect, a call that ended with the transport, an old process that neither ended by itself nor by end of input, a confirmed restart and the retry, by `Suite.CallsOfProven` under another id |
| Runner.ExperimentRun.RunStrategy | src/experiment/runner.ts:249-272 | every experiment ends with its own proven and judged fault, or with a failed seed check where it has one, or at the event that departs from its script, with an error of that phase; a fault is claimed only with the evidence for it |
| Runner.ExperimentRun.Recover | src/experiment/runner.ts:197-204 | whatever was thrown leaves the inconclusive result of the phase and reason it normalises to, a reason that the last event of the history shows, fresh cleanup, and no spawning after an unproven termination |
| Runner.ExperimentRun.CloseCleanupSession | src/experiment/runner.ts:1101-1130 | closed with a confirmed process, or a close failure and no more spawning; the failure carries the process just refused, or none if the close itself failed |
| Runner.ExperimentRun.ResetAndVerifyCleanup | src/experiment/runner.ts:1076-1099 | no failure only after a successful reset and a probe at the baseline; otherwise the last event is the reset or the probe that failed |
| Runner.ExperimentRun.CleanAndCloseSession | src/experiment/runner.ts:1032-1074 | clean only if reset, baseline probe and confirmed close were the last events, failed only if the history shows the failure reported; a recheck replaces the final probe and turns a pass that does not last into a violation |
| Runner.ExperimentRun.CleanupExperiment | src/experiment/runner.ts:969-1030 | not needed exactly if nothing was opened and spawning is allowed; a clean cleanup leaves spawning allowed, a failed one shows its failure, and one that could not close names the refused process; passes under external persistence are rechecked in a fresh session |
| Runner.JudgedIsSound | src/experiment/runner.ts:158-223 | a proven experiment stays soundly reported through any cleanup |
| Runner.ExperimentRun.Execute | src/experiment/runner.ts:158-223 | one experiment, whatever the sessions do: its result is sound for its stretch of the history, so inconclusive only if that departs from the experiment's script, and in the phase in which it does; the reason, and why the fault is not proven, are those that the last event of the exercise gives; its attempts are the calls of the stretch; no session is left open, and it halts the suite exactly if a termination is unproven |
| Suite.RunScenarioExperiments | src/experiment/runner.ts:111-156 | every suite, for every behaviour of the sessions: the history is spawn-safe with all sessions closed, the results are sound and in configured order, experiments start only while every termination is proven and no abort was seen, counts and status follow from the results, and the suite is halted exactly by an unproven termination or the abort signal; a refused run id leaves no session open either |
| Suite.StatusIsExact | src/experiment/runner.ts:136-155 | in every sound suite the status is a violation exactly if some result is one, otherwise inconclusive exactly if some result is, a cleanup failed or the suite was halted, and pass otherwise; the counts are the numbers of results of each kind |
| Suite.PassMeansEverythingPassed | src/experiment/runner.ts:136-155 | the status is pass exactly when every configured experiment ran, passed and was cleaned up; each is then proven by its stretch of the history |
| Suite.HaltedForAReason | src/experiment/runner.ts:119-134 | a suite is halted exactly if its history holds an unproven termination or the abort signal, and no experiment is started after one |
| Suite.UnprovenTerminationHalts | src/experiment/runner.ts:119-134 | a result that blames an unproven termination halts the suite and is its last one |
| Suite.CloseFailureIsSeen | src/experiment/runner.ts:969-1030 | a cleanup that fails to close rests on an unproven termination of its own stretch, and the process it names is one a close of that stretch reported without confirmation |
| Suite.CallsOfProven | src/experiment/runner.ts:274-618 | the calls of a proven experiment by their places in the history, their sessions and their ids: a retry after the suppression, the restart or the disconnect has a new id, the parallel calls have different ones, and only the experiment that reuses an id sends both calls under the same, in another session |
| Suite.OldProcessOfProven | src/experiment/runner.ts:948-967 | the old process a fault names was closed before the new session was opened, its end observed in full, and after a disconnect it was forced |
| Suite.AttemptsAreCalls | src/experiment/runner.ts:158-223 | whatever its conclusion, a sound result has one attempt for each call that its stretch of the history saw end, in that order, with that call's id and completion |
| Suite.IdsAreOwn | src/experiment/runner.ts:1220-1222 | all request ids that a sound result reports, whatever it concludes, begin with its own run id, and each attempt has the role of its place in the experiment |
| Suite.ResultsShareNoIds | src/experiment/runner.ts:1220-1222 | results of one suite with different run ids share no request id, neither in attempts nor in faults |
| Suite.VerdictIsExact | src/experiment/runner.ts:158-272 | the verdict is inconclusive exactly if the history departs from the script, and in that phase, a violation by the seed call exactly if that was seen to misbehave, and judged by the final effect exactly if the history proves the experiment's fault |
| Suite.ProvenIsJudged | src/experiment/runner.ts:158-272 | a history that proves a fault is judged: never inconclusive, with that fault and those attempts, and the conclusion of the final probe changed by the recheck only |
| Suite.HistoryDecides | src/experiment/runner.ts:158-223 | two sound results for the same history agree in conclusion, fault, attempts and probes, or are both inconclusive in the same phase |
| Suite.ProvenFaultBehindEffect | src/experiment/runner.ts:158-272 | a pass and a violation of the final effect carry the proven fault of their own experiment; a violation of the seed effect carries none |
| Suite.UnprovenViolation | src/experiment/runner.ts:726-739 | a concluded experiment has no proven fault exactly if it checks its seed call and that probe shows another value than the one effect; the result is then exactly that violation of the seed effect |
| Suite.ViolationWithoutFault | src/experiment/runner.ts:726-739 | the witness: a spawn-safe history of thirteen events whose sound result is a violation without a proven fault |
| Suite.NoResetBeforeRecheck | src/experiment/runner.ts:1032-1058 | no reset happens between the baseline and the durable probe of a clean external pass |
| Suite.RecheckIsIndependent | src/experiment/runner.ts:1032-1057 | that probe is the reported one, shows the expected value, and comes from a session opened after every earlier session was confirmed to have terminated |
| Report.AssertSuiteInvariants | src/report/report.ts:163-237 | accepts exactly the suites with distinct identities, consistent results, right counts and the right status; what it reports of any other is what that suite's fields show |
| Report.ConsistentMeans | src/report/report.ts:163-237 | a suite is consistent exactly if its fields show none of the six inconsistencies: a repeated experiment or run id, a pass whose values differ or without a proven fault, a violation whose values agree, a clean cleanup of a process whose end was not observed in full, counts that are not the numbers of results, a status that does not follow from them |
| Report.RunnerSatisfiesReport | src/report/report.ts:163-237 | for distinct experiments, every suite the runner returns is accepted exactly when its run ids are distinct |

## Left out

- The consumer that throws inside `pushEach`, and `push`: the first drops the rest of a chunk without latching a failure, the second loses frames of a failing chunk; chunk independence is claimed for consumers that return.
- A write callback that runs inside `write()` itself: every callback is a later event.
- The fault gates as objects: they are kept in a table and a lease is a position in it, which does not model the garbage of old gates.
- A disconnect lease that is never claimed: the code does not promise that it settles.
- `listTools`, `discover`, `requireTools`, server requests beyond their effect on termination, and notification listeners of the client.
- The child process, its signals and the close ladder in src/transport/stdio-process.ts: a close reports arbitrary process evidence.
- YAML, schema, JSON and UTF-8 processing: parameters or not part of this model.
- Strings are sequences of Unicode characters: text with lone surrogates is not modelled.
- JSON values are trees: shared and cyclic values, accessors, prototypes and the `seen` set that guards against cycles do not occur; a property name occurs once or the first one counts.
- Numbers of probes, samples and oracles are integers and times are reals: fractional probe values, negative zero and rounding of clocks are not modelled.
- The wall clock: the read bound of the settling loop is stated for a clock that sleeps and timeouts advance as far as they say.
- Subscribing that succeeds, unsubscribing and disarming leave no event in the runner's history; unsubscribing and disarming do not throw.
- Calls that run at once (the two parallel calls, a trigger and its call) are recorded in the order in which the code reads their results.
- The progress value of a cancelled call, exit codes, signals and stderr evidence of a process are not carried by the results.
- Run ids are arbitrary: that a fresh random part makes them distinct is not claimed; the report check depends on it.
- The reason of an inconclusive result, and why a fault is not proven, are stated by the history at the end of an experiment's exercise, not by the history of a whole suite; the abort signal can be set without an event of its own, and an error that is the target's failure otherwise is then called aborted.
- Report rendering, the field copiers of the report, the command line, file access and exit codes.
