/**
 The writer of the target's standard input: one frame at a time is handed to the stream, and the next
 one only after the stream has called back and has drained.

 The stream is the environment.  Each event below is one synchronous block of the source; the reply a
 `write` call gives within such a block is a parameter of the event.  `log` records what happened at
 the boundary to the stream.
 */
module SerializedWriter {
  import opened Common
  import opened NdjsonDecoding

  datatype Options = Options(maxFrameBytes: nat, maxQueuedBytes: nat, maxQueuedMessages: nat) {
    predicate Valid() {
      maxFrameBytes >= 1 && maxQueuedBytes >= 1 && maxQueuedMessages >= 1
    }
  }

  datatype PendingWrite = PendingWrite(frame: seq<Byte>, sequence: nat)

  datatype ActiveWrite = ActiveWrite(write: PendingWrite, callbackFinished: bool, drainFinished: bool)

  /** What a caller passes to `send`: not an object, not serializable to one, or the serialized bytes. */
  datatype Outbound = NotAnObject | NotSerializable | Payload(bytes: seq<Byte>)

  /** How one `write` call of the stream answers. */
  datatype WriteReply = Flowing | Backpressure | Throws

  datatype FinishPromise = NotAsked | Waiting | Resolved | Refused(error: TransportError)

  datatype Happening =
    | Wrote(sequence: nat, frame: seq<Byte>)
    | Flowed(sequence: nat)
    | CalledBack(sequence: nat)
    | Drained(sequence: nat)

  datatype WriterState = WriterState(
    pending: seq<PendingWrite>,
    active: Option<ActiveWrite>,
    accepting: bool,
    listening: bool,
    terminal: Option<TransportError>,
    nextSequence: nat,
    queuedBytes: int,
    finish: FinishPromise,
    receipts: seq<Deferred<Receipt, TransportError>>,
    resolved: seq<nat>,
    accepted: seq<seq<Byte>>,
    log: seq<Happening>)

  function Initial(): WriterState {
    WriterState([], None, true, true, None, 1, 0, NotAsked, [], [], [], [])
  }

  datatype Event =
    | SendCall(outbound: Outbound, reply: WriteReply)
    | Callback(sequence: nat, failed: bool, reply: WriteReply)
    | Drain(reply: WriteReply)
    | StreamError
    | StreamClose
    | AbortCall(error: TransportError)
    | FinishCall
    | DisposeCall

  // ---------------------------------------------------------------- transitions

  function InFlight(s: WriterState): nat {
    |s.pending| + if s.active.Some? then 1 else 0
  }

  /** Why `send` rejects at once, if it does. */
  function SendFault(options: Options, s: WriterState, outbound: Outbound): Option<TransportError> {
    if !s.accepting then Some(if s.terminal.Some? then s.terminal.value else ClosedError)
    else if !outbound.Payload? then Some(WriteError)
    else if |outbound.bytes| > options.maxFrameBytes then Some(CapacityError)
    else if InFlight(s) + 1 > options.maxQueuedMessages
         || s.queuedBytes + |outbound.bytes| + 1 > options.maxQueuedBytes then Some(CapacityError)
    else None
  }

  function AfterSend(options: Options, s: WriterState, outbound: Outbound, reply: WriteReply): WriterState {
    if SendFault(options, s, outbound).Some? then s
    else Pumped(Queued(s, outbound.bytes), reply)
  }

  /** The state after a send was queued, before the next write starts. */
  function Queued(s: WriterState, payload: seq<Byte>): WriterState {
    var frame := FrameBytes(payload);
    s.(pending := s.pending + [PendingWrite(frame, s.nextSequence)],
       nextSequence := s.nextSequence + 1,
       queuedBytes := s.queuedBytes + |frame|,
       receipts := s.receipts + [Deferred(Pending, 0)],
       accepted := s.accepted + [payload])
  }

  /** The state in which the stream is asked to write. */
  function Started(s: WriterState, drainFinished: bool): WriterState
    requires s.pending != []
  {
    s.(pending := s.pending[1..], active := Some(ActiveWrite(s.pending[0], false, drainFinished)))
  }

  /** Starts the next write, if none is active; `reply` is what the stream answers should it be asked. */
  function Pumped(s: WriterState, reply: WriteReply): WriterState {
    if s.active.Some? || s.terminal.Some? then s
    else if s.pending == [] then s.(finish := if s.finish.Waiting? then Resolved else s.finish)
    else
      var write, started := s.pending[0], Started(s, reply.Flowing?);
      match reply
      case Throws => AfterFail(started, WriteError)
      case Backpressure => started.(log := s.log + [Wrote(write.sequence, write.frame)])
      case Flowing => started.(log := s.log + [Wrote(write.sequence, write.frame), Flowed(write.sequence)])
  }

  function Settle(receipts: seq<Deferred<Receipt, TransportError>>, sequence: nat,
                  outcome: Promise<Receipt, TransportError>): (r: seq<Deferred<Receipt, TransportError>>)
    ensures |r| == |receipts|
  {
    if 1 <= sequence <= |receipts| then receipts[sequence - 1 := receipts[sequence - 1].Settle(outcome)]
    else receipts
  }

  function Completed(s: WriterState, reply: WriteReply): WriterState {
    if s.active.None? || !s.active.value.callbackFinished || !s.active.value.drainFinished then s
    else Pumped(WithReceipt(s), reply)
  }

  /** The state after the receipt of the active write was given, before the next write starts. */
  function WithReceipt(s: WriterState): WriterState
    requires s.active.Some?
  {
    var write := s.active.value.write;
    s.(active := None,
       queuedBytes := s.queuedBytes - |write.frame|,
       receipts := Settle(s.receipts, write.sequence, Fulfilled(Receipt(|write.frame|, write.sequence))),
       resolved := s.resolved + [write.sequence])
  }

  /** The callback of write `sequence`; it is ignored once that write is settled. */
  function AfterCallback(s: WriterState, sequence: nat, failed: bool, reply: WriteReply): WriterState {
    if s.active.None? || s.active.value.write.sequence != sequence then s
    else if failed then AfterFail(s, WriteError)
    else Completed(s.(active := Some(s.active.value.(callbackFinished := true)),
                      log := s.log + [CalledBack(sequence)]), reply)
  }

  /** A drain event reaches the active write unless it already flowed or drained. */
  function AfterDrain(s: WriterState, reply: WriteReply): WriterState {
    if s.active.None? || s.active.value.drainFinished then s
    else Completed(s.(active := Some(s.active.value.(drainFinished := true)),
                      log := s.log + [Drained(s.active.value.write.sequence)]), reply)
  }

  function RejectAll(receipts: seq<Deferred<Receipt, TransportError>>, writes: seq<PendingWrite>, error: TransportError)
    : (r: seq<Deferred<Receipt, TransportError>>)
    ensures |r| == |receipts|
  {
    if writes == [] then receipts
    else Settle(RejectAll(receipts, writes[..|writes| - 1], error), writes[|writes| - 1].sequence, Rejected(error))
  }

  function Outstanding(s: WriterState): seq<PendingWrite> {
    (if s.active.Some? then [s.active.value.write] else []) + s.pending
  }

  function AfterFail(s: WriterState, error: TransportError): WriterState {
    if s.terminal.Some? then s
    else
      s.(terminal := Some(error), accepting := false, active := None, pending := [], queuedBytes := 0,
         receipts := RejectAll(s.receipts, Outstanding(s), error),
         finish := if s.finish.Waiting? then Refused(error) else s.finish)
  }

  function AfterClose(s: WriterState): WriterState {
    if s.accepting || InFlight(s) != 0 then AfterFail(s, ClosedError) else s
  }

  function AfterFinish(s: WriterState): WriterState {
    if !s.finish.NotAsked? then s
    else
      s.(accepting := false,
         finish := if s.terminal.Some? then Refused(s.terminal.value)
                   else if InFlight(s) == 0 then Resolved
                   else Waiting)
  }

  function Step(options: Options, s: WriterState, e: Event): WriterState {
    match e
    case SendCall(outbound, reply) => AfterSend(options, s, outbound, reply)
    case Callback(sequence, failed, reply) => AfterCallback(s, sequence, failed, reply)
    case Drain(reply) => AfterDrain(s, reply)
    case StreamError => if s.listening then AfterFail(s, WriteError) else s
    case StreamClose => if s.listening then AfterClose(s) else s
    case AbortCall(error) => AfterFail(s, error)
    case FinishCall => AfterFinish(s)
    case DisposeCall => s.(listening := false)
  }

  // ---------------------------------------------------------------- what is promised

  function Bytes(writes: seq<PendingWrite>): nat {
    if writes == [] then 0 else |writes[0].frame| + Bytes(writes[1..])
  }

  /** Queued bytes and messages are those outstanding, and within the limits; a failed writer is empty. */
  ghost predicate Sizes(options: Options, s: WriterState) {
    && s.queuedBytes == Bytes(Outstanding(s)) <= options.maxQueuedBytes
    && InFlight(s) <= options.maxQueuedMessages
    && (s.terminal.Some? ==> s.active.None? && s.pending == [] && !s.accepting)
  }

  /** The outstanding writes carry the accepted payloads that have no receipt yet, numbered on in order. */
  ghost predicate Numbered(s: WriterState) {
    var done, out := |s.resolved|, Outstanding(s);
    && |s.receipts| == |s.accepted| == s.nextSequence - 1
    && (forall i :: 0 <= i < done ==> s.resolved[i] == i + 1)
    && done + |out| <= |s.accepted|
    && (s.terminal.None? ==> done + |out| == |s.accepted|)
    && (forall i :: 0 <= i < |out| ==> out[i] == PendingWrite(FrameBytes(s.accepted[done + i]), done + i + 1))
  }

  /** The first sends have their receipts; the others are unsettled, or rejected by the failure. */
  ghost predicate Settlements(s: WriterState) {
    var done := |s.resolved|;
    && done <= |s.receipts| <= |s.accepted|
    && (forall i :: 0 <= i < done ==>
          s.receipts[i] == Deferred(Fulfilled(Receipt(|s.accepted[i]| + 1, i + 1)), 1))
    && (forall i :: done <= i < |s.receipts| ==>
          s.receipts[i] == if s.terminal.Some? then Deferred(Rejected(s.terminal.value), 1) else Deferred(Pending, 0))
  }

  ghost predicate Finishing(s: WriterState) {
    && (s.finish.Resolved? ==> InFlight(s) == 0 && |s.resolved| == |s.accepted| && !s.accepting)
    && (s.finish.Waiting? ==> s.terminal.None? && !s.accepting)
    && (s.finish.Refused? ==> s.terminal == Some(s.finish.error))
  }

  /** The stream is done with write k: its callback came, and its drain or an unthrottled answer. */
  ghost predicate StreamDone(log: seq<Happening>, k: nat) {
    CalledBack(k) in log && (Drained(k) in log || Flowed(k) in log)
  }

  /** The frames that reached the stream, in order. */
  function Written(log: seq<Happening>): seq<seq<Byte>> {
    if log == [] then []
    else
      var before := Written(log[..|log| - 1]);
      var last := log[|log| - 1];
      if last.Wrote? then before + [last.frame] else before
  }

  /** Writes are numbered 1, 2, 3, ... and each follows the completion of the one before. */
  ghost predicate Disciplined(log: seq<Happening>) {
    log == []
    || (var before, last := log[..|log| - 1], log[|log| - 1];
        && Disciplined(before)
        && (last.Wrote? ==>
              && last.sequence == |Written(before)| + 1
              && (last.sequence > 1 ==> StreamDone(before, last.sequence - 1))))
  }

  /** The frames written are the first accepted ones; an open writer is at most one write ahead of its receipts. */
  ghost predicate WritesLogged(log: seq<Happening>, accepted: seq<seq<Byte>>, done: nat, ahead: Option<nat>) {
    var written := Written(log);
    && Disciplined(log)
    && done <= |written| <= |accepted|
    && (forall i :: 0 <= i < |written| ==> written[i] == FrameBytes(accepted[i]))
    && (ahead.Some? ==> |written| == done + ahead.value)
  }

  /** The flags of the active write, and every receipt given, rest on what the stream did. */
  ghost predicate ReceiptsLogged(log: seq<Happening>, done: nat, active: Option<ActiveWrite>) {
    && (forall k :: 1 <= k <= done ==> StreamDone(log, k))
    && (active.Some? ==>
          var k := active.value.write.sequence;
          && (active.value.callbackFinished ==> CalledBack(k) in log)
          && (active.value.drainFinished ==> Drained(k) in log || Flowed(k) in log))
  }

  function Ahead(s: WriterState): Option<nat> {
    if s.terminal.Some? then None else Some(if s.active.Some? then 1 else 0)
  }

  ghost predicate Logged(s: WriterState) {
    WritesLogged(s.log, s.accepted, |s.resolved|, Ahead(s)) && ReceiptsLogged(s.log, |s.resolved|, s.active)
  }

  /** What holds even between two private transitions of one synchronous block. */
  ghost predicate Core(options: Options, s: WriterState) {
    Sizes(options, s) && Numbered(s) && Settlements(s) && Finishing(s) && Logged(s)
  }

  /** What holds between two blocks: the writer is never idle with work left or a finish to resolve. */
  ghost predicate Inv(options: Options, s: WriterState) {
    && Core(options, s)
    && (s.active.None? ==> s.pending == [] && !s.finish.Waiting?)
    && (s.active.Some? ==> !(s.active.value.callbackFinished && s.active.value.drainFinished))
  }

  // ---------------------------------------------------------------- proofs

  lemma {:induction false} BytesAppend(writes: seq<PendingWrite>, write: PendingWrite)
    ensures Bytes(writes + [write]) == Bytes(writes) + |write.frame|
  {
    if writes != [] {
      assert (writes + [write])[1..] == writes[1..] + [write];
      BytesAppend(writes[1..], write);
    }
  }

  lemma LogAppend(log: seq<Happening>, h: Happening)
    ensures Written(log + [h]) == Written(log) + if h.Wrote? then [h.frame] else []
    ensures Disciplined(log + [h]) <==>
              Disciplined(log) && (h.Wrote? ==> h.sequence == |Written(log)| + 1
                                                && (h.sequence > 1 ==> StreamDone(log, h.sequence - 1)))
    ensures forall k :: StreamDone(log, k) ==> StreamDone(log + [h], k)
  {
    assert (log + [h])[..|log|] == log;
  }

  /** Rejecting a run of consecutive sequence numbers settles exactly those promises. */
  lemma {:induction false} RejectAllEffect(receipts: seq<Deferred<Receipt, TransportError>>,
                                           writes: seq<PendingWrite>, done: nat, error: TransportError)
    requires done + |writes| <= |receipts|
    requires forall i :: 0 <= i < |writes| ==> writes[i].sequence == done + i + 1
    ensures var r := RejectAll(receipts, writes, error);
            forall i :: 0 <= i < |r| ==>
              r[i] == if done <= i < done + |writes| then receipts[i].Settle(Rejected(error)) else receipts[i]
  {
    if writes != [] {
      RejectAllEffect(receipts, writes[..|writes| - 1], done, error);
    }
  }

  lemma FailedKeepsInv(options: Options, s: WriterState, error: TransportError)
    requires Core(options, s)
    requires s.terminal.Some? ==> Inv(options, s)
    ensures Inv(options, AfterFail(s, error))
  {
    RejectAllEffect(s.receipts, Outstanding(s), |s.resolved|, error);
  }

  lemma PumpedKeepsInv(options: Options, s: WriterState, reply: WriteReply)
    requires Core(options, s)
    requires s.active.Some? || s.terminal.Some? ==> Inv(options, s)
    ensures Inv(options, Pumped(s, reply))
  {
    if s.active.None? && s.terminal.None? && s.pending != [] {
      StartKeepsInv(options, s, reply);
    }
  }

  lemma StartKeepsInv(options: Options, s: WriterState, reply: WriteReply)
    requires Core(options, s) && s.active.None? && s.terminal.None? && s.pending != []
    ensures Inv(options, Pumped(s, reply))
  {
    hide Core, WritesLogged, ReceiptsLogged;
    assert Outstanding(Started(s, reply.Flowing?)) == Outstanding(s);
    if reply.Throws? {
      FailedKeepsInv(options, s, WriteError);
      assert Pumped(s, reply) == AfterFail(s, WriteError);
    } else {
      var write := s.pending[0];
      var throttled := s.log + [Wrote(write.sequence, write.frame)];
      var log := if reply.Flowing? then throttled + [Flowed(write.sequence)] else throttled;
      assert log == s.log + [Wrote(write.sequence, write.frame)]
                    + if reply.Flowing? then [Flowed(write.sequence)] else [];
      WriteKeepsInv(options, s, reply.Flowing?, log);
      assert Pumped(s, reply) == Started(s, reply.Flowing?).(log := log);
    }
  }

  lemma WriteKeepsInv(options: Options, s: WriterState, flowing: bool, log: seq<Happening>)
    requires Core(options, s) && s.active.None? && s.terminal.None? && s.pending != []
    requires log == s.log + [Wrote(s.pending[0].sequence, s.pending[0].frame)]
                    + if flowing then [Flowed(s.pending[0].sequence)] else []
    ensures Inv(options, Started(s, flowing).(log := log))
  {
    hide WritesLogged, ReceiptsLogged;
    var write := s.pending[0];
    var t := Started(s, flowing).(log := log);
    assert Outstanding(t) == Outstanding(s);
    assert Outstanding(s)[0] == write;
    WriteIsLogged(s.log, s.accepted, |s.resolved|, write);
    assert log == if flowing then s.log + [Wrote(write.sequence, write.frame)] + [Flowed(write.sequence)]
                  else s.log + [Wrote(write.sequence, write.frame)];
  }

  lemma WriteIsLogged(log: seq<Happening>, accepted: seq<seq<Byte>>, done: nat, write: PendingWrite)
    requires WritesLogged(log, accepted, done, Some(0)) && ReceiptsLogged(log, done, None)
    requires done < |accepted| && write == PendingWrite(FrameBytes(accepted[done]), done + 1)
    ensures var throttled := log + [Wrote(write.sequence, write.frame)];
            var flowing := throttled + [Flowed(write.sequence)];
            && WritesLogged(throttled, accepted, done, Some(1))
            && ReceiptsLogged(throttled, done, Some(ActiveWrite(write, false, false)))
            && WritesLogged(flowing, accepted, done, Some(1))
            && ReceiptsLogged(flowing, done, Some(ActiveWrite(write, false, true)))
  {
    var throttled := log + [Wrote(write.sequence, write.frame)];
    var flowing := throttled + [Flowed(write.sequence)];
    LogAppend(log, Wrote(write.sequence, write.frame));
    LogAppend(throttled, Flowed(write.sequence));
    assert flowing[|throttled|] == Flowed(write.sequence);
  }

  /** A receipt brings the numbers of writes and of receipts together again. */
  lemma ReceiptIsLogged(log: seq<Happening>, accepted: seq<seq<Byte>>, done: nat)
    requires WritesLogged(log, accepted, done, Some(1))
    ensures WritesLogged(log, accepted, done + 1, Some(0))
  {
  }

  /** With both flags set the stream is done with the active write. */
  lemma FlagsMeanDone(log: seq<Happening>, done: nat, active: ActiveWrite)
    requires ReceiptsLogged(log, done, Some(active)) && active.callbackFinished && active.drainFinished
    requires active.write.sequence == done + 1
    ensures ReceiptsLogged(log, done + 1, None)
  {
  }

  lemma OldestIsActive(s: WriterState)
    requires s.active.Some?
    ensures Outstanding(s) != [] && Outstanding(s)[0] == s.active.value.write
    ensures Outstanding(WithReceipt(s)) == Outstanding(s)[1..]
  {
    assert Outstanding(WithReceipt(s)) == Outstanding(s)[1..];
  }

  /** A receipt moves the oldest outstanding write to the settled ones. */
  lemma ReceiptMovesOne(options: Options, s: WriterState)
    requires Core(options, s) && s.active.Some?
    ensures Sizes(options, WithReceipt(s)) && Numbered(WithReceipt(s)) && Finishing(WithReceipt(s))
  {
    hide Settlements, Logged, Numbered;
    OldestIsActive(s);
    ReceiptRenumbers(s);
  }

  lemma ReceiptRenumbers(s: WriterState)
    requires Numbered(s) && s.active.Some?
    ensures Numbered(WithReceipt(s)) && |s.resolved| < |s.accepted|
  {
    hide FrameBytes;
    OldestIsActive(s);
    var out, t := Outstanding(s), WithReceipt(s);
    assert out[0].sequence == |s.resolved| + 1;
    hide Outstanding;
    assert t.resolved == s.resolved + [|s.resolved| + 1];
    assert |t.receipts| == |s.receipts| && t.accepted == s.accepted;
    forall i | 0 <= i < |out| - 1
      ensures out[1..][i] == PendingWrite(FrameBytes(s.accepted[|s.resolved| + 1 + i]), |s.resolved| + 1 + i + 1)
    {
      assert out[1..][i] == out[i + 1];
    }
  }

  lemma ReceiptSettlesOne(options: Options, s: WriterState)
    requires Core(options, s) && s.active.Some?
    ensures Settlements(WithReceipt(s))
  {
    hide Logged;
    assert Outstanding(s)[0] == s.active.value.write;
  }

  lemma ReceiptKeepsCore(options: Options, s: WriterState)
    requires Core(options, s) && s.active.Some?
    requires s.active.value.callbackFinished && s.active.value.drainFinished
    ensures Core(options, WithReceipt(s))
  {
    hide WritesLogged, ReceiptsLogged, Settlements;
    ReceiptMovesOne(options, s);
    ReceiptSettlesOne(options, s);
    assert Outstanding(s)[0] == s.active.value.write;
    ReceiptIsLogged(s.log, s.accepted, |s.resolved|);
    FlagsMeanDone(s.log, |s.resolved|, s.active.value);
  }

  lemma CompletedKeepsInv(options: Options, s: WriterState, reply: WriteReply)
    requires Core(options, s)
    requires s.active.Some?
    ensures Inv(options, Completed(s, reply))
  {
    if s.active.value.callbackFinished && s.active.value.drainFinished {
      ReceiptKeepsCore(options, s);
      PumpedKeepsInv(options, WithReceipt(s), reply);
    }
  }

  /** Noting what the stream did to the active write. */
  lemma NoteKeepsCore(options: Options, s: WriterState, active: ActiveWrite, h: Happening)
    requires Core(options, s) && s.active.Some? && !h.Wrote?
    requires active.write == s.active.value.write
    requires active.callbackFinished ==> s.active.value.callbackFinished || h == CalledBack(active.write.sequence)
    requires active.drainFinished ==> s.active.value.drainFinished || h == Drained(active.write.sequence)
    ensures Core(options, s.(active := Some(active), log := s.log + [h]))
  {
    var t := s.(active := Some(active), log := s.log + [h]);
    assert Outstanding(t) == Outstanding(s);
    LogAppend(s.log, h);
    assert t.log[|s.log|] == h;
  }

  lemma CallbackKeepsInv(options: Options, s: WriterState, sequence: nat, failed: bool, reply: WriteReply)
    requires Inv(options, s)
    ensures Inv(options, AfterCallback(s, sequence, failed, reply))
  {
    if s.active.Some? && s.active.value.write.sequence == sequence {
      if failed {
        FailedKeepsInv(options, s, WriteError);
      } else {
        var active := s.active.value.(callbackFinished := true);
        NoteKeepsCore(options, s, active, CalledBack(sequence));
        CompletedKeepsInv(options, s.(active := Some(active), log := s.log + [CalledBack(sequence)]), reply);
      }
    }
  }

  lemma DrainKeepsInv(options: Options, s: WriterState, reply: WriteReply)
    requires Inv(options, s)
    ensures Inv(options, AfterDrain(s, reply))
  {
    if s.active.Some? && !s.active.value.drainFinished {
      var active, h := s.active.value.(drainFinished := true), Drained(s.active.value.write.sequence);
      NoteKeepsCore(options, s, active, h);
      CompletedKeepsInv(options, s.(active := Some(active), log := s.log + [h]), reply);
    }
  }

  lemma QueuedIsLogged(s: WriterState, payload: seq<Byte>)
    requires Logged(s) && s.terminal.None?
    ensures Logged(Queued(s, payload))
  {
    hide ReceiptsLogged, Disciplined;
    var accepted := s.accepted + [payload];
    assert forall i :: 0 <= i < |s.accepted| ==> accepted[i] == s.accepted[i];
  }

  lemma QueuedKeepsCore(options: Options, s: WriterState, payload: seq<Byte>)
    requires Inv(options, s) && SendFault(options, s, Payload(payload)).None?
    ensures Core(options, Queued(s, payload))
    ensures s.active.Some? ==> Inv(options, Queued(s, payload))
  {
    hide Logged;
    var t := Queued(s, payload);
    var write := PendingWrite(FrameBytes(payload), s.nextSequence);
    assert Outstanding(t) == Outstanding(s) + [write];
    BytesAppend(Outstanding(s), write);
    QueuedIsLogged(s, payload);
  }

  lemma SendKeepsInv(options: Options, s: WriterState, outbound: Outbound, reply: WriteReply)
    requires Inv(options, s)
    ensures Inv(options, AfterSend(options, s, outbound, reply))
  {
    if SendFault(options, s, outbound).None? {
      QueuedKeepsCore(options, s, outbound.bytes);
      PumpedKeepsInv(options, Queued(s, outbound.bytes), reply);
    }
  }

  lemma FinishKeepsInv(options: Options, s: WriterState)
    requires Inv(options, s)
    ensures Inv(options, AfterFinish(s))
  {
    hide WritesLogged, ReceiptsLogged;
    assert Outstanding(AfterFinish(s)) == Outstanding(s);
  }

  lemma DisposeKeepsInv(options: Options, s: WriterState)
    requires Inv(options, s)
    ensures Inv(options, s.(listening := false))
  {
    hide WritesLogged, ReceiptsLogged;
    assert Outstanding(s.(listening := false)) == Outstanding(s);
  }

  lemma PumpedKeepsAccepted(s: WriterState, reply: WriteReply)
    ensures Pumped(s, reply).accepted == s.accepted
    ensures Completed(s, reply).accepted == s.accepted
  {
  }

  /** Only an unfaulted send accepts a payload, and it accepts that one. */
  lemma AcceptedGrows(options: Options, s: WriterState, e: Event)
    ensures Step(options, s, e).accepted
            == s.accepted + if e.SendCall? && SendFault(options, s, e.outbound).None? then [e.outbound.bytes] else []
  {
    match e
    case SendCall(outbound, reply) =>
      if outbound.Payload? {
        PumpedKeepsAccepted(Queued(s, outbound.bytes), reply);
      }
    case Callback(sequence, failed, reply) =>
      if s.active.Some? {
        PumpedKeepsAccepted(s.(active := Some(s.active.value.(callbackFinished := true)),
                               log := s.log + [CalledBack(sequence)]), reply);
      }
    case Drain(reply) =>
      if s.active.Some? {
        PumpedKeepsAccepted(s.(active := Some(s.active.value.(drainFinished := true)),
                               log := s.log + [Drained(s.active.value.write.sequence)]), reply);
      }
    case _ =>
  }

  lemma StepKeepsInv(options: Options, s: WriterState, e: Event)
    requires Inv(options, s)
    ensures Inv(options, Step(options, s, e))
  {
    hide Core;
    match e
    case SendCall(outbound, reply) => SendKeepsInv(options, s, outbound, reply);
    case Callback(sequence, failed, reply) => CallbackKeepsInv(options, s, sequence, failed, reply);
    case Drain(reply) => DrainKeepsInv(options, s, reply);
    case StreamError => FailedKeepsInv(options, s, WriteError);
    case StreamClose => FailedKeepsInv(options, s, ClosedError);
    case AbortCall(error) => FailedKeepsInv(options, s, error);
    case FinishCall => FinishKeepsInv(options, s);
    case DisposeCall => DisposeKeepsInv(options, s);
  }

  // ---------------------------------------------------------------- over whole runs

  function Run(options: Options, events: seq<Event>): WriterState {
    if events == [] then Initial()
    else Step(options, Run(options, events[..|events| - 1]), events[|events| - 1])
  }

  /** The invariant holds after any sequence of events. */
  lemma {:induction false} RunKeepsInv(options: Options, events: seq<Event>)
    ensures Inv(options, Run(options, events))
  {
    if events != [] {
      var before := Run(options, events[..|events| - 1]);
      RunKeepsInv(options, events[..|events| - 1]);
      StepKeepsInv(options, before, events[|events| - 1]);
    }
  }

  lemma {:induction false} DisciplinedAt(log: seq<Happening>, i: nat)
    requires Disciplined(log) && i < |log| && log[i].Wrote?
    ensures log[i].sequence == |Written(log[..i])| + 1
    ensures log[i].sequence > 1 ==> StreamDone(log[..i], log[i].sequence - 1)
  {
    if i < |log| - 1 {
      DisciplinedAt(log[..|log| - 1], i);
      assert log[..|log| - 1][..i] == log[..i];
    }
  }

  /** Frame k + 1 reaches the stream only after frame k's callback and its drain or unthrottled answer. */
  lemma OneWriteAtATime(options: Options, events: seq<Event>, i: nat)
    requires var log := Run(options, events).log; i < |log| && log[i].Wrote?
    ensures var s := Run(options, events);
            var k := s.log[i].sequence;
            && k == |Written(s.log[..i])| + 1 <= |s.accepted|
            && s.log[i].frame == s.accepted[k - 1] + [10]
            && (k > 1 ==> StreamDone(s.log[..i], k - 1))
  {
    hide Run;
    RunKeepsInv(options, events);
    var log := Run(options, events).log;
    DisciplinedAt(log, i);
    WrittenAt(log, i);
  }

  lemma {:induction false} WrittenAt(log: seq<Happening>, i: nat)
    requires i < |log| && log[i].Wrote?
    ensures |Written(log[..i])| < |Written(log)|
    ensures Written(log)[|Written(log[..i])|] == log[i].frame
  {
    var n := |log| - 1;
    if i < n {
      WrittenAt(log[..n], i);
      assert log[..n][..i] == log[..i];
    }
  }

  /** Receipts resolve as 1, 2, 3, ..., each after the stream was done with its frame, each once. */
  lemma ReceiptsAreGapFree(options: Options, events: seq<Event>)
    ensures var s := Run(options, events);
            && |s.resolved| <= |Written(s.log)| <= |s.accepted| == |s.receipts|
            && (forall i :: 0 <= i < |s.resolved| ==>
                  && s.resolved[i] == i + 1
                  && s.receipts[i].promise == Fulfilled(Receipt(|s.accepted[i]| + 1, i + 1))
                  && StreamDone(s.log, i + 1))
            && (forall i :: |s.resolved| <= i < |s.receipts| ==> !s.receipts[i].promise.Fulfilled?)
            && (forall i :: 0 <= i < |s.receipts| ==> s.receipts[i].calls <= 1)
  {
    hide Run;
    RunKeepsInv(options, events);
  }

  /** Accounting and limits in every reachable state; a failure settles every accepted write. */
  lemma NothingLeftBehind(options: Options, events: seq<Event>)
    ensures var s := Run(options, events);
            && s.queuedBytes == Bytes(Outstanding(s)) <= options.maxQueuedBytes
            && |Outstanding(s)| <= options.maxQueuedMessages
            && (s.terminal.Some? ==>
                  Outstanding(s) == [] && forall i :: 0 <= i < |s.receipts| ==> s.receipts[i].Settled())
  {
    hide Run;
    RunKeepsInv(options, events);
  }

  /** `finish` resolves only if every accepted write has its receipt, and waits only while one is in flight. */
  lemma FinishMeansReceipts(options: Options, events: seq<Event>)
    ensures var s := Run(options, events);
            && (s.finish.Resolved? ==> forall i :: 0 <= i < |s.receipts| ==> s.receipts[i].promise.Fulfilled?)
            && (s.finish.Waiting? ==> s.terminal.None? && s.active.Some?)
            && (!s.finish.NotAsked? ==> !s.accepting)
  {
    hide Run;
    RunKeepsInv(options, events);
  }

  // ---------------------------------------------------------------- progress

  /** The write under way is the first one without a receipt. */
  lemma ActiveIsDue(options: Options, s: WriterState)
    requires Inv(options, s) && s.active.Some?
    ensures s.active.value.write.sequence == |s.resolved| + 1 <= |s.accepted| && s.terminal.None?
  {
    assert Outstanding(s)[0] == s.active.value.write;
  }

  lemma PumpedKeepsResolved(s: WriterState, reply: WriteReply)
    ensures var t := Pumped(s, reply);
            && t.resolved == s.resolved && t.accepted == s.accepted
            && (s.terminal.None? && !reply.Throws? ==>
                  t.terminal.None? && (t.finish != s.finish ==> t.finish.Resolved?))
            && (s.active.None? && t.active.Some? ==> !t.active.value.callbackFinished)
  {
  }

  /** The one step of progress: the callback of the write under way, while its data has not drained or once it has. */
  lemma CallbackResolves(options: Options, s: WriterState, reply: WriteReply)
    requires Inv(options, s) && s.active.Some?
    ensures var t := Step(options, s, Callback(|s.resolved| + 1, false, reply));
            && t.accepted == s.accepted
            && (s.active.value.drainFinished ==>
                  |t.resolved| == |s.resolved| + 1 && (t.active.Some? ==> !t.active.value.callbackFinished))
            && (!s.active.value.drainFinished ==>
                  && t.resolved == s.resolved && t.active == Some(s.active.value.(callbackFinished := true))
                  && t.finish == s.finish && t.terminal.None?)
            && (!reply.Throws? ==> t.terminal.None? && (t.finish != s.finish ==> t.finish.Resolved?))
  {
    hide Pumped;
    ActiveIsDue(options, s);
    var noted := s.(active := Some(s.active.value.(callbackFinished := true)),
                    log := s.log + [CalledBack(|s.resolved| + 1)]);
    PumpedKeepsResolved(WithReceipt(noted), reply);
  }

  /** A drain, likewise: it completes a write exactly if that was called back and has not drained. */
  lemma DrainResolves(options: Options, s: WriterState, reply: WriteReply)
    requires Inv(options, s)
    ensures var t := Step(options, s, Drain(reply));
            var completes := s.active.Some? && s.active.value.callbackFinished;
            && t.accepted == s.accepted
            && |t.resolved| == |s.resolved| + (if completes then 1 else 0)
            && (s.active.Some? && !completes ==>
                  t.active == Some(s.active.value.(drainFinished := true)) && t.terminal == s.terminal)
            && (!reply.Throws? ==> t.terminal == s.terminal && (t.finish != s.finish ==> t.finish.Resolved?))
  {
    hide Pumped;
    if s.active.Some? {
      ActiveIsDue(options, s);
      var noted := s.(active := Some(s.active.value.(drainFinished := true)),
                      log := s.log + [Drained(s.active.value.write.sequence)]);
      PumpedKeepsResolved(WithReceipt(noted), reply);
    }
  }

  /** The stream calls back for the write that is due, and drains. */
  function Served(options: Options, s: WriterState, first: WriteReply, second: WriteReply): WriterState {
    Step(options, Step(options, s, Callback(|s.resolved| + 1, false, first)), Drain(second))
  }

  /** It does so in the other order. */
  function ServedDrainFirst(options: Options, s: WriterState, first: WriteReply, second: WriteReply): WriterState {
    Step(options, Step(options, s, Drain(first)), Callback(|s.resolved| + 1, false, second))
  }

  lemma ServedResolves(options: Options, s: WriterState, first: WriteReply, second: WriteReply)
    requires Inv(options, s) && s.active.Some?
    ensures var t := Served(options, s, first, second);
            && Inv(options, t) && t.accepted == s.accepted && |t.resolved| == |s.resolved| + 1
            && (!first.Throws? && !second.Throws? ==>
                  t.terminal.None? && (t.finish != s.finish ==> t.finish.Resolved?))
  {
    hide Core, Step;
    var called := Step(options, s, Callback(|s.resolved| + 1, false, first));
    StepKeepsInv(options, s, Callback(|s.resolved| + 1, false, first));
    StepKeepsInv(options, called, Drain(second));
    CallbackResolves(options, s, first);
    DrainResolves(options, called, second);
  }

  lemma DrainFirstResolves(options: Options, s: WriterState, first: WriteReply, second: WriteReply)
    requires Inv(options, s) && s.active.Some?
    ensures var t := ServedDrainFirst(options, s, first, second);
            Inv(options, t) && t.accepted == s.accepted && |t.resolved| == |s.resolved| + 1
  {
    hide Core;
    var drained := Step(options, s, Drain(first));
    StepKeepsInv(options, s, Drain(first));
    StepKeepsInv(options, drained, Callback(|s.resolved| + 1, false, second));
    ActiveIsDue(options, s);
    DrainResolves(options, s, first);
    if drained.active.Some? {
      ActiveIsDue(options, drained);
      if |drained.resolved| == |s.resolved| {
        hide Step;
        CallbackResolves(options, drained, second);
      }
    }
  }

  /** What has its receipt has it with its number and the length of its frame. */
  lemma ResolvedHaveReceipts(options: Options, s: WriterState, k: nat)
    requires Inv(options, s) && 1 <= k <= |s.resolved|
    ensures k <= |s.accepted| == |s.receipts|
    ensures s.receipts[k - 1].promise == Fulfilled(Receipt(|s.accepted[k - 1]| + 1, k))
  {
  }

  /**
   A callback and a drain, in either order, give the write under way its receipt, with its number and the length of
   its frame, whatever becomes of the next write.
   */
  lemma CallbackAndDrainGiveReceipt(options: Options, events: seq<Event>, first: WriteReply, second: WriteReply)
    requires Run(options, events).active.Some?
    ensures var s := Run(options, events);
            var t, u := Served(options, s, first, second), ServedDrainFirst(options, s, first, second);
            var k := |s.resolved| + 1;
            && k <= |s.accepted| == |t.receipts| == |u.receipts|
            && t.receipts[k - 1].promise == Fulfilled(Receipt(|s.accepted[k - 1]| + 1, k))
            && u.receipts[k - 1].promise == Fulfilled(Receipt(|s.accepted[k - 1]| + 1, k))
  {
    hide Run, Served, ServedDrainFirst, Core, Inv;
    RunKeepsInv(options, events);
    var s := Run(options, events);
    ServedResolves(options, s, first, second);
    DrainFirstResolves(options, s, first, second);
    ResolvedHaveReceipts(options, Served(options, s, first, second), |s.resolved| + 1);
    ResolvedHaveReceipts(options, ServedDrainFirst(options, s, first, second), |s.resolved| + 1);
  }

  /** The stream serves n writes, accepting each at once or later. */
  function ServedAll(options: Options, s: WriterState, n: nat, reply: WriteReply): WriterState
    decreases n
  {
    if n == 0 then s else ServedAll(options, Served(options, s, reply, reply), n - 1, reply)
  }

  /** If the stream keeps answering, every accepted write gets its receipt, and a waiting finish is resolved. */
  lemma {:induction false} EverythingIsWritten(options: Options, s: WriterState, reply: WriteReply)
    requires Inv(options, s) && s.terminal.None? && !reply.Throws?
    ensures var t := ServedAll(options, s, |s.accepted| - |s.resolved|, reply);
            && t.accepted == s.accepted && |t.receipts| == |s.accepted| && t.terminal.None?
            && (forall i :: 0 <= i < |t.receipts| ==>
                  t.receipts[i].promise == Fulfilled(Receipt(|t.accepted[i]| + 1, i + 1)))
            && (s.finish.Waiting? ==> t.finish.Resolved?) && (s.finish.Resolved? ==> t.finish.Resolved?)
    decreases |s.accepted| - |s.resolved|
  {
    hide Served;
    if s.active.Some? {
      ActiveIsDue(options, s);
      ServedResolves(options, s, reply, reply);
      EverythingIsWritten(options, Served(options, s, reply, reply), reply);
    }
  }

  /** The same from every reachable state of an open writer. */
  lemma OpenWriterFinishes(options: Options, events: seq<Event>, reply: WriteReply)
    requires Run(options, events).terminal.None? && !reply.Throws?
    ensures var s := Run(options, events);
            |s.resolved| <= |s.accepted|
            && var t := ServedAll(options, s, |s.accepted| - |s.resolved|, reply);
               && t.accepted == s.accepted && |t.receipts| == |s.accepted| && t.terminal.None?
               && (forall i :: 0 <= i < |t.receipts| ==>
                     t.receipts[i].promise == Fulfilled(Receipt(|t.accepted[i]| + 1, i + 1)))
               && (s.finish.Waiting? ==> t.finish.Resolved?)
  {
    hide Run, ServedAll;
    RunKeepsInv(options, events);
    EverythingIsWritten(options, Run(options, events), reply);
  }

  // ---------------------------------------------------------------- what each event does, by what the writer holds

  /** A writer accepts sends until it fails or is asked to finish, and listens until it is disposed of. */
  lemma {:induction false} OpenUntil(options: Options, events: seq<Event>)
    ensures var s := Run(options, events);
            && (s.accepting <==> s.terminal.None? && FinishCall !in events)
            && (s.listening <==> DisposeCall !in events)
            && (s.finish.NotAsked? <==> FinishCall !in events)
  {
    if events != [] {
      var init := events[..|events| - 1];
      OpenUntil(options, init);
      assert events == init + [events[|events| - 1]];
      StepKeepsOpen(options, Run(options, init), events[|events| - 1]);
    }
  }

  /** t is s, but for a failure, and for a finish that is over. */
  predicate SameOpening(s: WriterState, t: WriterState) {
    && (t.accepting <==> s.accepting && t.terminal.None?) && (s.terminal.Some? ==> t.terminal.Some?)
    && t.listening == s.listening && (t.finish.NotAsked? <==> s.finish.NotAsked?)
  }

  lemma PumpedKeepsOpening(s: WriterState, reply: WriteReply)
    requires s.accepting ==> s.terminal.None? && s.finish.NotAsked?
    ensures SameOpening(s, Pumped(s, reply))
  {
  }

  lemma StepKeepsOpen(options: Options, s: WriterState, e: Event)
    requires s.accepting ==> s.terminal.None? && s.finish.NotAsked?
    ensures var t := Step(options, s, e);
            && (t.accepting <==> s.accepting && t.terminal.None? && e != FinishCall)
            && (s.terminal.Some? ==> t.terminal.Some?)
            && (t.listening <==> s.listening && e != DisposeCall)
            && (t.finish.NotAsked? <==> s.finish.NotAsked? && e != FinishCall)
  {
    hide Pumped;
    match e
    case SendCall(outbound, reply) =>
      if outbound.Payload? {
        PumpedKeepsOpening(Queued(s, outbound.bytes), reply);
      }
    case Callback(sequence, _, reply) =>
      if s.active.Some? {
        PumpedKeepsOpening(WithReceipt(s.(active := Some(s.active.value.(callbackFinished := true)),
                                          log := s.log + [CalledBack(sequence)])), reply);
      }
    case Drain(reply) =>
      if s.active.Some? {
        PumpedKeepsOpening(WithReceipt(s.(active := Some(s.active.value.(drainFinished := true)),
                                          log := s.log + [Drained(s.active.value.write.sequence)])), reply);
      }
    case _ =>
  }

  /** Why a send is refused: the first check that fails. */
  lemma SendFaults(options: Options, events: seq<Event>, outbound: Outbound)
    ensures var s := Run(options, events);
            SendFault(options, s, outbound)
            == if s.terminal.Some? then s.terminal
               else if FinishCall in events then Some(ClosedError)
               else if !outbound.Payload? then Some(WriteError)
               else if |outbound.bytes| > options.maxFrameBytes then Some(CapacityError)
               else if |s.accepted| - |s.resolved| >= options.maxQueuedMessages then Some(CapacityError)
               else if s.queuedBytes + |outbound.bytes| >= options.maxQueuedBytes then Some(CapacityError)
               else None
  {
    hide Run;
    OpenUntil(options, events);
    RunKeepsInv(options, events);
  }

  /** What fails an open writer, and with which error. */
  lemma FailsExactly(options: Options, events: seq<Event>, e: Event)
    requires Run(options, events).terminal.None?
    ensures var s := Run(options, events);
            var more := s.pending != [];
            Step(options, s, e).terminal
            == match e
               case SendCall(outbound, reply) =>
                 if SendFault(options, s, outbound).None? && s.active.None? && reply.Throws? then Some(WriteError)
                 else None
               case Callback(sequence, failed, reply) =>
                 if s.active.None? || sequence != |s.resolved| + 1 then None
                 else if failed || (s.active.value.drainFinished && more && reply.Throws?) then Some(WriteError)
                 else None
               case Drain(reply) =>
                 if s.active.Some? && s.active.value.callbackFinished && more && reply.Throws? then Some(WriteError)
                 else None
               case StreamError => if DisposeCall in events then None else Some(WriteError)
               case StreamClose =>
                 if DisposeCall !in events && (FinishCall !in events || s.active.Some?) then Some(ClosedError) else None
               case AbortCall(error) => Some(error)
               case _ => None
  {
    hide Run;
    OpenUntil(options, events);
    RunKeepsInv(options, events);
    hide Sizes, Settlements, Finishing, Logged;
    if Run(options, events).active.Some? {
      assert Outstanding(Run(options, events))[0] == Run(options, events).active.value.write;
    }
  }

  // ---------------------------------------------------------------- the writer itself

  class SerializedNdjsonWriter {
    const options: Options
    var pending: seq<PendingWrite>
    var active: Option<ActiveWrite>
    var accepting: bool
    var listening: bool
    var terminalError: Option<TransportError>
    var nextSequence: nat
    var queuedBytes: int
    var finishPromise: FinishPromise
    /** The promises of accepted sends, by sequence number. */
    var receipts: seq<Deferred<Receipt, TransportError>>
    ghost var resolved: seq<nat>
    ghost var accepted: seq<seq<Byte>>
    ghost var log: seq<Happening>

    ghost function State(): WriterState
      reads this
    {
      WriterState(pending, active, accepting, listening, terminalError, nextSequence, queuedBytes, finishPromise,
                  receipts, resolved, accepted, log)
    }

    ghost predicate Valid()
      reads this
    {
      Inv(options, State())
    }

    constructor (options: Options)
      requires options.Valid()
      ensures Valid() && State() == Initial() && this.options == options
    {
      this.options := options;
      pending, active, accepting, listening, terminalError := [], None, true, true, None;
      nextSequence, queuedBytes, finishPromise, receipts := 1, 0, NotAsked, [];
      resolved, accepted, log := [], [], [];
    }

    /** The promise of an accepted send is number `nextSequence`; a refused one rejects with `fault`. */
    method Send(outbound: Outbound, reply: WriteReply) returns (fault: Option<TransportError>)
      requires Valid()
      modifies this
      ensures Valid()
      ensures fault == SendFault(options, old(State()), outbound)
      ensures State() == AfterSend(options, old(State()), outbound, reply)
    {
      SendKeepsInv(options, State(), outbound, reply);
      if !accepting {
        return Some(if terminalError.Some? then terminalError.value else ClosedError);
      }
      if !outbound.Payload? {
        return Some(WriteError);
      }
      var payload := outbound.bytes;
      if |payload| > options.maxFrameBytes {
        return Some(CapacityError);
      }
      var frame := FrameBytes(payload);
      if |pending| + (if active.None? then 0 else 1) + 1 > options.maxQueuedMessages
      || queuedBytes + |frame| > options.maxQueuedBytes {
        return Some(CapacityError);
      }
      Enqueue(payload, frame);
      Pump(reply);
      fault := None;
    }

    method Enqueue(payload: seq<Byte>, frame: seq<Byte>)
      requires frame == FrameBytes(payload)
      modifies this
      ensures State() == Queued(old(State()), payload)
    {
      pending := pending + [PendingWrite(frame, nextSequence)];
      nextSequence := nextSequence + 1;
      queuedBytes := queuedBytes + |frame|;
      receipts := receipts + [Deferred(Pending, 0)];
      accepted := accepted + [payload];
    }

    method Pump(reply: WriteReply)
      modifies this
      ensures State() == Pumped(old(State()), reply)
      decreases |pending|, 0
    {
      if active.Some? || terminalError.Some? {
        return;
      }
      if |pending| == 0 {
        ResolveFinishIfIdle();
        return;
      }
      var write := pending[0];
      pending := pending[1..];
      active := Some(ActiveWrite(write, false, false));
      match reply
      case Throws =>
        Fail(WriteError);
      case Backpressure =>
        log := log + [Wrote(write.sequence, write.frame)];
      case Flowing =>
        log := log + [Wrote(write.sequence, write.frame), Flowed(write.sequence)];
        active := Some(ActiveWrite(write, false, true));
        CompleteIfReady(reply);
    }

    method ResolveFinishIfIdle()
      modifies this`finishPromise
      ensures finishPromise == if active.None? && |pending| == 0 && old(finishPromise).Waiting? then Resolved
                               else old(finishPromise)
    {
      if active.Some? || |pending| != 0 {
        return;
      }
      if finishPromise.Waiting? {
        finishPromise := Resolved;
      }
    }

    method CompleteIfReady(reply: WriteReply)
      modifies this
      ensures State() == Completed(old(State()), reply)
      decreases |pending|, 1
    {
      if active.None? || !active.value.callbackFinished || !active.value.drainFinished {
        return;
      }
      var write := active.value.write;
      active := None;
      queuedBytes := queuedBytes - |write.frame|;
      receipts := Settle(receipts, write.sequence, Fulfilled(Receipt(|write.frame|, write.sequence)));
      resolved := resolved + [write.sequence];
      assert State() == WithReceipt(old(State()));
      Pump(reply);
    }

    method Fail(error: TransportError)
      modifies this
      ensures State() == AfterFail(old(State()), error)
    {
      hide Core, RejectAll;
      if terminalError.Some? {
        return;
      }
      terminalError := Some(error);
      accepting := false;
      RejectOutstanding((if active.Some? then [active.value.write] else []) + pending, error);
      active := None;
      pending := [];
      queuedBytes := 0;
      if finishPromise.Waiting? {
        finishPromise := Refused(error);
      }
    }

    method RejectOutstanding(outstanding: seq<PendingWrite>, error: TransportError)
      modifies this`receipts
      ensures receipts == RejectAll(old(receipts), outstanding, error)
    {
      for i := 0 to |outstanding|
        invariant receipts == RejectAll(old(receipts), outstanding[..i], error)
      {
        assert outstanding[..i + 1][..i] == outstanding[..i];
        receipts := Settle(receipts, outstanding[i].sequence, Rejected(error));
      }
      assert outstanding[..|outstanding|] == outstanding;
    }

    method OnCallback(sequence: nat, failed: bool, reply: WriteReply)
      requires Valid()
      modifies this
      ensures Valid() && State() == AfterCallback(old(State()), sequence, failed, reply)
    {
      hide Core;
      CallbackKeepsInv(options, State(), sequence, failed, reply);
      if active.None? || active.value.write.sequence != sequence {
        return;
      }
      if failed {
        Fail(WriteError);
        return;
      }
      active := Some(active.value.(callbackFinished := true));
      log := log + [CalledBack(sequence)];
      CompleteIfReady(reply);
    }

    method OnDrain(reply: WriteReply)
      requires Valid()
      modifies this
      ensures Valid() && State() == AfterDrain(old(State()), reply)
    {
      hide Core, Sizes;
      DrainKeepsInv(options, State(), reply);
      if active.None? || active.value.drainFinished {
        return;
      }
      active := Some(active.value.(drainFinished := true));
      log := log + [Drained(active.value.write.sequence)];
      CompleteIfReady(reply);
    }

    method OnError()
      requires Valid()
      modifies this
      ensures Valid() && State() == Step(options, old(State()), StreamError)
    {
      StepKeepsInv(options, State(), StreamError);
      if listening {
        Fail(WriteError);
      }
    }

    method OnClose()
      requires Valid()
      modifies this
      ensures Valid() && State() == Step(options, old(State()), StreamClose)
    {
      StepKeepsInv(options, State(), StreamClose);
      if listening && (accepting || active.Some? || |pending| != 0) {
        Fail(ClosedError);
      }
    }

    method Abort(error: TransportError)
      requires Valid()
      modifies this
      ensures Valid() && State() == AfterFail(old(State()), error)
    {
      StepKeepsInv(options, State(), AbortCall(error));
      Fail(error);
    }

    method Finish()
      requires Valid()
      modifies this
      ensures Valid() && State() == AfterFinish(old(State()))
    {
      FinishKeepsInv(options, State());
      if !finishPromise.NotAsked? {
        return;
      }
      accepting := false;
      if terminalError.Some? {
        finishPromise := Refused(terminalError.value);
      } else if active.None? && |pending| == 0 {
        finishPromise := Resolved;
      } else {
        finishPromise := Waiting;
      }
    }

    method Dispose()
      requires Valid()
      modifies this`listening
      ensures Valid() && State() == old(State()).(listening := false)
    {
      hide Core;
      StepKeepsInv(options, State(), DisposeCall);
      listening := false;
    }
  }
}
