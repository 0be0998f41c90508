/**
 The MCP client: it numbers requests, matches responses to them, and settles every request once.

 Each event is one synchronous block; the environment chooses incoming messages, timers, aborts and write
 failures.  Schema checks are facts carried by the events.
 */
module RawMcpClient {
  import opened Common

  datatype Options = Options(maxTombstones: nat, maxNotifications: nat, maxNotificationBytes: nat) {
    predicate Valid() {
      maxTombstones >= 1 && maxNotifications >= 1 && maxNotificationBytes >= 1
    }
  }

  datatype McpError =
    | ProtocolFailure
    | RemoteFailure(code: int)
    | TimedOut
    | AbortedRequest
    | TransportFailure
    | ClientClosed
    | InFlightUnknown

  datatype Request = Request(id: RequestId, outcome: Deferred<nat, McpError>)

  /** Why a request cannot be started. */
  datatype StartFault =
    | Terminated(error: McpError)
    | SignalAborted
    | InvalidTimeout
    | InvalidId
    | IdActive
    | NumberUsed
    | ExplicitIdUsed
    | ExplicitBudgetExhausted
    | NumbersExhausted
    | InvalidWire

  /** The two shapes of a response: an error with its code, or a result, if it is an object. */
  datatype ResponseBody = ErrorBody(code: Option<int>) | ResultBody(result: Option<nat>)

  datatype Incoming =
    | InvalidMessage
    | Response(id: Option<RequestId>, body: ResponseBody)
    | ServerRequest(validId: bool, replyThrows: bool)
    | InvalidProgress
    | Notification(notification: nat, bytes: nat)

  /**
   The client's tables.  `issued`, `retired` and `cancelled` are histories: ids given out, ids answered or
   abandoned, and ids a cancellation was sent for, each in order.
   */
  datatype ClientState = ClientState(
    nextRequestId: int,
    explicitIds: set<RequestId>,
    pending: map<RequestId, nat>,
    tombstones: seq<RequestId>,
    terminal: Option<McpError>,
    requests: seq<Request>,
    issued: seq<RequestId>,
    retired: seq<RequestId>,
    cancelled: seq<RequestId>)

  function Initial(): ClientState {
    ClientState(1, {}, map[], [], None, [], [], [], [])
  }

  datatype StartCall = StartCall(requested: Option<RequestId>, aborted: bool, validTimeout: bool, validWire: bool)

  datatype Event =
    | Start(call: StartCall)
    | Receive(message: Incoming)
    | Abandon(id: RequestId, timedOut: bool, cancelThrows: bool)
    | WriteFails
    | ReadFails
    | ResultRejected
    | Close

  // ---------------------------------------------------------------- transitions

  predicate IsSafe(n: int) {
    -MAX_SAFE_INTEGER <= n <= MAX_SAFE_INTEGER
  }

  function SelectFault(options: Options, s: ClientState, requested: Option<RequestId>): Option<StartFault> {
    match requested
    case None => if IsSafe(s.nextRequestId) then None else Some(NumbersExhausted)
    case Some(id) =>
      if !IsRequestId(id) then Some(InvalidId)
      else if id in s.pending then Some(IdActive)
      else if id.NumericId? && id.n < s.nextRequestId then Some(NumberUsed)
      else if id in s.explicitIds then Some(ExplicitIdUsed)
      else if |s.explicitIds| >= options.maxTombstones then Some(ExplicitBudgetExhausted)
      else None
  }

  function SelectedId(s: ClientState, requested: Option<RequestId>): RequestId {
    if requested.Some? then requested.value else NumericId(s.nextRequestId)
  }

  function Selected(s: ClientState, requested: Option<RequestId>): ClientState {
    var id := SelectedId(s, requested);
    s.(explicitIds := if requested.Some? then s.explicitIds + {id} else s.explicitIds,
       nextRequestId := if id.NumericId? then id.n + 1 else s.nextRequestId,
       issued := s.issued + [id])
  }

  function OutcomeOfStart(options: Options, s: ClientState, call: StartCall): Result<RequestId, StartFault> {
    if s.terminal.Some? then Failure(Terminated(s.terminal.value))
    else if call.aborted then Failure(SignalAborted)
    else if !call.validTimeout then Failure(InvalidTimeout)
    else match SelectFault(options, s, call.requested)
      case Some(fault) => Failure(fault)
      case None => if call.validWire then Success(SelectedId(s, call.requested)) else Failure(InvalidWire)
  }

  function AfterStart(options: Options, s: ClientState, call: StartCall): ClientState {
    match OutcomeOfStart(options, s, call)
    case Failure(NumbersExhausted) => AfterTerminate(s, ProtocolFailure)
    case Failure(InvalidWire) => Selected(s, call.requested)
    case Failure(_) => s
    case Success(id) =>
      var t := Selected(s, call.requested);
      t.(pending := t.pending[id := |t.requests|], requests := t.requests + [Request(id, Deferred(Pending, 0))])
  }

  function SettleAt(requests: seq<Request>, i: nat, outcome: Promise<nat, McpError>): (r: seq<Request>)
    ensures |r| == |requests|
  {
    if i < |requests| then requests[i := requests[i].(outcome := requests[i].outcome.Settle(outcome))] else requests
  }

  /** Request i is in the pending table. */
  predicate IsPending(requests: seq<Request>, pending: map<RequestId, nat>, i: nat)
    requires i < |requests|
  {
    requests[i].id in pending && pending[requests[i].id] == i
  }

  function RejectPending(requests: seq<Request>, pending: map<RequestId, nat>, error: McpError): (r: seq<Request>)
    ensures |r| == |requests|
    ensures forall i :: 0 <= i < |requests| ==>
              r[i] == if IsPending(requests, pending, i)
                      then requests[i].(outcome := requests[i].outcome.Settle(Rejected(error))) else requests[i]
  {
    seq(|requests|, i requires 0 <= i < |requests| =>
      if IsPending(requests, pending, i) then requests[i].(outcome := requests[i].outcome.Settle(Rejected(error)))
      else requests[i])
  }

  /** What a termination tells the requests it interrupts. */
  function PendingError(error: McpError): McpError {
    if error.TransportFailure? then error else InFlightUnknown
  }

  function AfterTerminate(s: ClientState, error: McpError): ClientState {
    if s.terminal.Some? then s
    else
      s.(terminal := Some(error),
         requests := RejectPending(s.requests, s.pending, PendingError(error)),
         pending := map[])
  }

  function Remember(options: Options, tombstones: seq<RequestId>, id: RequestId): seq<RequestId> {
    var t := if id in tombstones then tombstones else tombstones + [id];
    if |t| > options.maxTombstones then t[1..] else t
  }

  /** The request leaves the pending table for good. */
  function Retire(options: Options, s: ClientState, id: RequestId): ClientState {
    s.(pending := s.pending - {id}, tombstones := Remember(options, s.tombstones, id), retired := s.retired + [id])
  }

  function AfterResponse(options: Options, s: ClientState, id: Option<RequestId>, body: ResponseBody): ClientState {
    if id.None? || !IsRequestId(id.value) then AfterTerminate(s, ProtocolFailure)
    else if id.value in s.tombstones then s
    else if id.value !in s.pending then AfterTerminate(s, ProtocolFailure)
    else
      var i, t := s.pending[id.value], Retire(options, s, id.value);
      match body
      case ErrorBody(Some(code)) =>
        if IsSafe(code) then t.(requests := SettleAt(t.requests, i, Rejected(RemoteFailure(code))))
        else Interrupted(t, i)
      case ResultBody(Some(result)) => t.(requests := SettleAt(t.requests, i, Fulfilled(result)))
      case _ => Interrupted(t, i)
  }

  /** A malformed response to request i ends the client, and the request with it. */
  function Interrupted(s: ClientState, i: nat): ClientState {
    var t := AfterTerminate(s, ProtocolFailure);
    t.(requests := SettleAt(t.requests, i, Rejected(InFlightUnknown)))
  }

  function AfterReceive(options: Options, s: ClientState, message: Incoming): ClientState {
    if s.terminal.Some? then s
    else match message
      case InvalidMessage => AfterTerminate(s, ProtocolFailure)
      case Response(id, body) => AfterResponse(options, s, id, body)
      case ServerRequest(validId, replyThrows) =>
        if !validId then AfterTerminate(s, ProtocolFailure)
        else if replyThrows then AfterTerminate(s, TransportFailure)
        else s
      case InvalidProgress => AfterTerminate(s, ProtocolFailure)
      case Notification(_, _) => s
  }

  function AfterAbandon(options: Options, s: ClientState, id: RequestId, error: McpError, cancelThrows: bool)
    : ClientState
  {
    if id !in s.pending then s
    else
      var t := Retire(options, s, id);
      var u := t.(requests := SettleAt(t.requests, s.pending[id], Rejected(error)), cancelled := t.cancelled + [id]);
      if cancelThrows then AfterTerminate(u, TransportFailure) else u
  }

  function Step(options: Options, s: ClientState, e: Event): ClientState {
    match e
    case Start(call) => AfterStart(options, s, call)
    case Receive(message) => AfterReceive(options, s, message)
    case Abandon(id, timedOut, cancelThrows) =>
      AfterAbandon(options, s, id, if timedOut then TimedOut else AbortedRequest, cancelThrows)
    case WriteFails => AfterTerminate(s, TransportFailure)
    case ReadFails => AfterTerminate(s, TransportFailure)
    case ResultRejected => AfterTerminate(s, ProtocolFailure)
    case Close => AfterTerminate(s, ClientClosed)
  }

  // ---------------------------------------------------------------- what every state keeps

  /** No id is given out twice, whether counted, requested as a number or requested as a string. */
  ghost predicate IdsOk(options: Options, s: ClientState) {
    && NoDuplicates(s.issued)
    && 1 <= s.nextRequestId <= MAX_SAFE_INTEGER + 1
    && |s.explicitIds| <= options.maxTombstones
    && (forall i :: 0 <= i < |s.issued| ==>
          if s.issued[i].NumericId? then s.issued[i].n < s.nextRequestId else s.issued[i] in s.explicitIds)
    && (forall id :: id in s.explicitIds ==> id in s.issued)
  }

  ghost predicate RequestsOk(s: ClientState) {
    && (forall i :: 0 <= i < |s.requests| ==> s.requests[i].id in s.issued)
    && (forall i, j :: 0 <= i < j < |s.requests| ==> s.requests[i].id != s.requests[j].id)
    && (forall id :: id in s.pending ==> s.pending[id] < |s.requests| && s.requests[s.pending[id]].id == id)
    && (forall i :: 0 <= i < |s.requests| ==>
          (s.requests[i].outcome.promise.Pending? <==> s.requests[i].id in s.pending))
    && (forall i :: 0 <= i < |s.requests| ==>
          s.requests[i].outcome.calls == if s.requests[i].outcome.Settled() then 1 else 0)
    && (s.terminal.Some? ==> s.pending == map[])
  }

  /** The tombstones are the last retired ids; a retired id belongs to a settled request. */
  ghost predicate RetiredOk(options: Options, s: ClientState) {
    && NoDuplicates(s.retired)
    && s.tombstones == Last(s.retired, options.maxTombstones)
    && (forall i :: 0 <= i < |s.retired| ==> s.retired[i] in s.issued && s.retired[i] !in s.pending)
  }

  predicate Abandoned(request: Request) {
    request.outcome.promise == Rejected(TimedOut) || request.outcome.promise == Rejected(AbortedRequest)
  }

  /** Cancellations were sent for the abandoned requests, once each. */
  ghost predicate CancelledOk(s: ClientState) {
    && NoDuplicates(s.cancelled)
    && (forall i :: 0 <= i < |s.cancelled| ==> s.cancelled[i] in s.issued && s.cancelled[i] !in s.pending)
    && (forall i :: 0 <= i < |s.requests| ==> (Abandoned(s.requests[i]) <==> s.requests[i].id in s.cancelled))
  }

  ghost predicate Inv(options: Options, s: ClientState) {
    IdsOk(options, s) && RequestsOk(s) && RetiredOk(options, s) && CancelledOk(s)
  }

  // ---------------------------------------------------------------- proofs

  lemma SelectedIsNew(options: Options, s: ClientState, requested: Option<RequestId>)
    requires IdsOk(options, s) && SelectFault(options, s, requested).None?
    ensures SelectedId(s, requested) !in s.issued
    ensures IdsOk(options, Selected(s, requested))
  {
    var id, t := SelectedId(s, requested), Selected(s, requested);
    assert t.issued[|s.issued|] == id;
    forall x | x in t.explicitIds
      ensures x in t.issued
    {
      if x != id {
        assert x in s.issued;
      }
    }
  }

  lemma StartKeepsInv(options: Options, s: ClientState, call: StartCall)
    requires options.Valid() && Inv(options, s)
    ensures Inv(options, AfterStart(options, s, call))
  {
    match OutcomeOfStart(options, s, call)
    case Failure(NumbersExhausted) => TerminateKeepsInv(options, s, ProtocolFailure);
    case Failure(InvalidWire) =>
      SelectedIsNew(options, s, call.requested);
    case Failure(_) =>
    case Success(id) =>
      SelectedIsNew(options, s, call.requested);
      AddKeepsInv(options, s, Selected(s, call.requested), id);
  }

  /** Adding a request under an id that was just issued. */
  lemma AddKeepsInv(options: Options, s: ClientState, t: ClientState, id: RequestId)
    requires Inv(options, s) && IdsOk(options, t) && s.terminal.None? && id !in s.issued
    requires t == s.(explicitIds := t.explicitIds, nextRequestId := t.nextRequestId, issued := s.issued + [id])
    ensures Inv(options, t.(pending := t.pending[id := |t.requests|],
                            requests := t.requests + [Request(id, Deferred(Pending, 0))]))
  {
    assert t.issued[|s.issued|] == id;
    assert forall x :: x in s.issued ==> x in t.issued;
  }

  lemma TerminateKeepsInv(options: Options, s: ClientState, error: McpError)
    requires Inv(options, s)
    ensures Inv(options, AfterTerminate(s, error))
  {
    hide RequestsOk, CancelledOk;
    TerminateKeepsRequests(s, error);
    TerminateKeepsCancelled(s, error);
  }

  lemma TerminateKeepsRequests(s: ClientState, error: McpError)
    requires RequestsOk(s)
    ensures RequestsOk(AfterTerminate(s, error))
  {
  }

  lemma TerminateKeepsCancelled(s: ClientState, error: McpError)
    requires RequestsOk(s) && CancelledOk(s)
    ensures CancelledOk(AfterTerminate(s, error))
  {
  }

  /** Remembering a new id keeps the last ids, dropping the oldest. */
  lemma RememberIsLast(options: Options, retired: seq<RequestId>, id: RequestId)
    requires options.Valid() && id !in retired
    ensures Remember(options, Last(retired, options.maxTombstones), id) == Last(retired + [id], options.maxTombstones)
  {
    assert forall x :: x in Last(retired, options.maxTombstones) ==> x in retired;
  }

  /** A pending id was never retired before. */
  lemma RetireKeepsTables(options: Options, s: ClientState, id: RequestId)
    requires options.Valid() && Inv(options, s) && id in s.pending
    ensures IdsOk(options, Retire(options, s, id)) && RetiredOk(options, Retire(options, s, id))
    ensures id !in s.tombstones && id !in s.retired
  {
    var t := Retire(options, s, id);
    assert s.requests[s.pending[id]].id in s.issued;
    assert id !in s.retired;
    assert forall x :: x in Last(s.retired, options.maxTombstones) ==> x in s.retired;
    RememberIsLast(options, s.retired, id);
  }

  /** A retired request is settled with its answer; `cancelled` grows exactly with an abandonment. */
  function Answered(options: Options, s: ClientState, id: RequestId, outcome: Promise<nat, McpError>): ClientState
    requires id in s.pending
  {
    var t := Retire(options, s, id);
    t.(requests := SettleAt(t.requests, s.pending[id], outcome),
       cancelled := if outcome == Rejected(TimedOut) || outcome == Rejected(AbortedRequest) then t.cancelled + [id]
                    else t.cancelled)
  }

  lemma AnsweredKeepsInv(options: Options, s: ClientState, id: RequestId, outcome: Promise<nat, McpError>)
    requires options.Valid() && Inv(options, s) && id in s.pending && !outcome.Pending?
    ensures Inv(options, Answered(options, s, id, outcome))
  {
    RetireKeepsTables(options, s, id);
    AnsweredKeepsRequests(options, s, id, outcome);
    AnsweredKeepsCancelled(options, s, id, outcome);
  }

  lemma AnsweredKeepsRequests(options: Options, s: ClientState, id: RequestId, outcome: Promise<nat, McpError>)
    requires RequestsOk(s) && id in s.pending && !outcome.Pending?
    ensures RequestsOk(Answered(options, s, id, outcome))
  {
    var t := Answered(options, s, id, outcome);
    assert forall i :: 0 <= i < |s.requests| && i != s.pending[id] ==>
             t.requests[i] == s.requests[i] && s.requests[i].id != id;
  }

  lemma AnsweredKeepsCancelled(options: Options, s: ClientState, id: RequestId, outcome: Promise<nat, McpError>)
    requires RequestsOk(s) && CancelledOk(s) && id in s.pending && !outcome.Pending?
    ensures CancelledOk(Answered(options, s, id, outcome))
  {
    var t, k := Answered(options, s, id, outcome), s.pending[id];
    assert s.requests[k].id in s.issued;
    assert id !in s.cancelled;
    forall i | 0 <= i < |t.requests|
      ensures Abandoned(t.requests[i]) <==> t.requests[i].id in t.cancelled
    {
      if i == k {
        if t.cancelled != s.cancelled {
          assert t.cancelled[|s.cancelled|] == id;
        }
      } else {
        assert s.requests[i].id != id;
      }
    }
  }

  /** A malformed response: the client ends, and the request it was for is interrupted like the others. */
  lemma InterruptedIsTerminated(options: Options, s: ClientState, id: RequestId)
    requires options.Valid() && Inv(options, s) && id in s.pending
    ensures Interrupted(Retire(options, s, id), s.pending[id])
            == AfterTerminate(Answered(options, s, id, Rejected(InFlightUnknown)), ProtocolFailure)
  {
    var k := s.pending[id];
    var a := Interrupted(Retire(options, s, id), k);
    var b := AfterTerminate(Answered(options, s, id, Rejected(InFlightUnknown)), ProtocolFailure);
    assert forall i :: 0 <= i < |s.requests| && i != k ==> s.requests[i].id != id;
    forall i | 0 <= i < |s.requests|
      ensures a.requests[i] == b.requests[i]
    {
      if i == k {
        assert !IsPending(s.requests, s.pending - {id}, k);
      }
    }
    assert a.requests == b.requests;
  }

  lemma InterruptedKeepsInv(options: Options, s: ClientState, id: RequestId)
    requires options.Valid() && Inv(options, s) && id in s.pending
    ensures Inv(options, Interrupted(Retire(options, s, id), s.pending[id]))
  {
    InterruptedIsTerminated(options, s, id);
    AnsweredKeepsInv(options, s, id, Rejected(InFlightUnknown));
    TerminateKeepsInv(options, Answered(options, s, id, Rejected(InFlightUnknown)), ProtocolFailure);
  }

  lemma ResponseKeepsInv(options: Options, s: ClientState, id: Option<RequestId>, body: ResponseBody)
    requires options.Valid() && Inv(options, s)
    ensures Inv(options, AfterResponse(options, s, id, body))
  {
    if id.None? || !IsRequestId(id.value) || (id.value !in s.tombstones && id.value !in s.pending) {
      TerminateKeepsInv(options, s, ProtocolFailure);
    } else if id.value in s.pending {
      InterruptedKeepsInv(options, s, id.value);
      match body
      case ErrorBody(Some(code)) => AnsweredKeepsInv(options, s, id.value, Rejected(RemoteFailure(code)));
      case ResultBody(Some(result)) => AnsweredKeepsInv(options, s, id.value, Fulfilled(result));
      case _ =>
    }
  }

  lemma AbandonKeepsInv(options: Options, s: ClientState, id: RequestId, error: McpError, cancelThrows: bool)
    requires options.Valid() && Inv(options, s) && (error.TimedOut? || error.AbortedRequest?)
    ensures Inv(options, AfterAbandon(options, s, id, error, cancelThrows))
  {
    if id in s.pending {
      AnsweredKeepsInv(options, s, id, Rejected(error));
      TerminateKeepsInv(options, Answered(options, s, id, Rejected(error)), TransportFailure);
    }
  }

  lemma StepKeepsInv(options: Options, s: ClientState, e: Event)
    requires options.Valid() && Inv(options, s)
    ensures Inv(options, Step(options, s, e))
  {
    match e
    case Start(call) => StartKeepsInv(options, s, call);
    case Receive(message) =>
      TerminateKeepsInv(options, s, ProtocolFailure);
      TerminateKeepsInv(options, s, TransportFailure);
      if message.Response? {
        ResponseKeepsInv(options, s, message.id, message.body);
      }
    case Abandon(id, timedOut, cancelThrows) =>
      AbandonKeepsInv(options, s, id, if timedOut then TimedOut else AbortedRequest, cancelThrows);
    case WriteFails => TerminateKeepsInv(options, s, TransportFailure);
    case ReadFails => TerminateKeepsInv(options, s, TransportFailure);
    case ResultRejected => TerminateKeepsInv(options, s, ProtocolFailure);
    case Close => TerminateKeepsInv(options, s, ClientClosed);
  }

  // ---------------------------------------------------------------- over whole runs

  function Run(options: Options, events: seq<Event>): ClientState {
    if events == [] then Initial()
    else Step(options, Run(options, events[..|events| - 1]), events[|events| - 1])
  }

  /** The invariant holds after any sequence of events. */
  lemma {:induction false} RunKeepsInv(options: Options, events: seq<Event>)
    requires options.Valid()
    ensures Inv(options, Run(options, events))
  {
    if events != [] {
      RunKeepsInv(options, events[..|events| - 1]);
      StepKeepsInv(options, Run(options, events[..|events| - 1]), events[|events| - 1]);
    }
  }

  /**
   Ids never repeat in one client, so a pending id is never a tombstone, and the tombstones are exactly the
   last ids retired.
   */
  lemma IdsNeverRepeat(options: Options, events: seq<Event>)
    requires options.Valid()
    ensures var s := Run(options, events);
            && NoDuplicates(s.issued)
            && (forall i, j :: 0 <= i < j < |s.requests| ==> s.requests[i].id != s.requests[j].id)
            && (forall id :: id in s.pending ==> id !in s.tombstones)
            && s.tombstones == Last(s.retired, options.maxTombstones)
  {
    hide Run;
    RunKeepsInv(options, events);
    var s := Run(options, events);
    assert forall id :: id in s.tombstones ==> id in s.retired;
  }

  /** A well-formed response to an outstanding request settles that request and no other. */
  lemma ResponseIsDelivered(options: Options, events: seq<Event>, id: RequestId, body: ResponseBody)
    requires options.Valid() && IsRequestId(id) && id in Run(options, events).pending
    requires body.ErrorBody? ==> body.code.Some? && IsSafe(body.code.value)
    requires body.ResultBody? ==> body.result.Some?
    ensures var s := Run(options, events);
            var t := AfterReceive(options, s, Response(Some(id), body));
            var k := s.pending[id];
            && k < |s.requests| == |t.requests| && t.terminal.None? && id !in t.pending
            && t.requests[k].outcome.promise == (if body.ErrorBody? then Rejected(RemoteFailure(body.code.value))
                                                 else Fulfilled(body.result.value))
            && (forall i :: 0 <= i < |s.requests| && i != k ==> t.requests[i] == s.requests[i])
            && t.cancelled == s.cancelled
  {
    hide Run;
    RunKeepsInv(options, events);
    IdsNeverRepeat(options, events);
  }

  /** While the client lives, a response changes nothing exactly when its id is among the last retired ones. */
  lemma LateResponseIsIgnored(options: Options, events: seq<Event>, id: RequestId, body: ResponseBody)
    requires options.Valid() && IsRequestId(id) && Run(options, events).terminal.None?
    ensures var s := Run(options, events);
            AfterReceive(options, s, Response(Some(id), body)) == s
            <==> id in Last(s.retired, options.maxTombstones)
  {
    hide Run;
    RunKeepsInv(options, events);
    var s := Run(options, events);
    if id !in s.tombstones && id in s.pending {
      assert id !in Retire(options, s, id).pending;
    }
  }

  /** A response to an id that is neither outstanding nor remembered ends the client. */
  lemma UnknownResponseIsFatal(options: Options, events: seq<Event>, id: RequestId, body: ResponseBody)
    requires options.Valid() && IsRequestId(id)
    requires id !in Run(options, events).pending && id !in Last(Run(options, events).retired, options.maxTombstones)
    ensures AfterReceive(options, Run(options, events), Response(Some(id), body)).terminal.Some?
  {
    hide Run;
    RunKeepsInv(options, events);
  }

  /** A request that is not pending is no business of a termination, nor of a response. */
  lemma TerminateSpares(s: ClientState, error: McpError, i: nat)
    requires i < |s.requests| && s.requests[i].id !in s.pending
    ensures AfterTerminate(s, error).requests[i] == s.requests[i]
  {
  }

  lemma ResponseSpares(options: Options, s: ClientState, id: Option<RequestId>, body: ResponseBody, i: nat)
    requires RequestsOk(s) && i < |s.requests| && s.requests[i].id !in s.pending
    ensures i < |AfterResponse(options, s, id, body).requests|
    ensures AfterResponse(options, s, id, body).requests[i] == s.requests[i]
  {
    TerminateSpares(s, ProtocolFailure, i);
    if id.Some? && id.value in s.pending {
      TerminateSpares(Retire(options, s, id.value), ProtocolFailure, i);
    }
  }

  /** The first settlement of a request is its last. */
  lemma SettledStays(options: Options, s: ClientState, e: Event, i: nat)
    requires options.Valid() && Inv(options, s) && i < |s.requests| && s.requests[i].outcome.Settled()
    ensures i < |Step(options, s, e).requests| && Step(options, s, e).requests[i] == s.requests[i]
  {
    hide IdsOk, RetiredOk, CancelledOk;
    assert s.requests[i].id !in s.pending;
    match e
    case Start(_) => TerminateSpares(s, ProtocolFailure, i);
    case Receive(message) =>
      TerminateSpares(s, ProtocolFailure, i);
      TerminateSpares(s, TransportFailure, i);
      if message.Response? {
        ResponseSpares(options, s, message.id, message.body, i);
      }
    case Abandon(id, timedOut, _) =>
      if id in s.pending {
        TerminateSpares(Answered(options, s, id, Rejected(if timedOut then TimedOut else AbortedRequest)),
                        TransportFailure, i);
      }
    case Close => TerminateSpares(s, ClientClosed, i);
    case ResultRejected => TerminateSpares(s, ProtocolFailure, i);
    case _ => TerminateSpares(s, TransportFailure, i);
  }

  /** Every started request is settled once; after termination all are, and nothing can be started. */
  lemma TerminationSettlesAll(options: Options, events: seq<Event>, call: StartCall)
    requires options.Valid()
    ensures var s := Run(options, events);
            && (forall i :: 0 <= i < |s.requests| ==> s.requests[i].outcome.calls <= 1)
            && (s.terminal.Some? ==>
                  && s.pending == map[]
                  && (forall i :: 0 <= i < |s.requests| ==> s.requests[i].outcome.Settled())
                  && OutcomeOfStart(options, s, call) == Failure(Terminated(s.terminal.value))
                  && AfterStart(options, s, call) == s)
  {
    hide Run;
    RunKeepsInv(options, events);
  }

  /** A cancellation is attempted once for every abandoned request and for no other. */
  lemma CancellationsMatch(options: Options, events: seq<Event>)
    requires options.Valid()
    ensures var s := Run(options, events);
            && NoDuplicates(s.cancelled)
            && (forall i :: 0 <= i < |s.requests| ==> (s.requests[i].id in s.cancelled <==> Abandoned(s.requests[i])))
  {
    hide Run;
    RunKeepsInv(options, events);
  }

  // ---------------------------------------------------------------- what each event does, by what the client holds

  /** Why a call cannot be started: the first of the source's checks that fails, on what was given out before. */
  lemma StartFaults(options: Options, events: seq<Event>, call: StartCall)
    requires options.Valid()
    ensures var s, id := Run(options, events), call.requested;
            OutcomeOfStart(options, s, call)
            == if s.terminal.Some? then Failure(Terminated(s.terminal.value))
               else if call.aborted then Failure(SignalAborted)
               else if !call.validTimeout then Failure(InvalidTimeout)
               else if id.None? && s.nextRequestId > 9007199254740991 then Failure(NumbersExhausted)
               else if id.Some? && id.value.NumericId?
                       && !(-9007199254740991 <= id.value.n <= 9007199254740991) then Failure(InvalidId)
               else if id.Some? && (exists i :: 0 <= i < |s.requests| && s.requests[i].id == id.value
                                                && s.requests[i].outcome.promise.Pending?) then Failure(IdActive)
               else if id.Some? && id.value.NumericId? && id.value.n < s.nextRequestId then Failure(NumberUsed)
               else if id.Some? && id.value in s.issued then Failure(ExplicitIdUsed)
               else if id.Some? && |s.explicitIds| == options.maxTombstones then Failure(ExplicitBudgetExhausted)
               else if !call.validWire then Failure(InvalidWire)
               else Success(if id.Some? then id.value else NumericId(s.nextRequestId))
  {
    hide Run, RetiredOk, CancelledOk;
    RunKeepsInv(options, events);
    var s := Run(options, events);
    if call.requested.Some? && call.requested.value in s.pending {
      assert s.requests[s.pending[call.requested.value]].outcome.promise.Pending?;
    }
  }

  /**
   A started call is a pending request under its id.  Its id is used up even if no request can be made of the call,
   and a number moves the counter past itself.  Running out of numbers ends the client; no other refusal changes
   anything.
   */
  lemma StartIsExact(options: Options, s: ClientState, call: StartCall)
    ensures var t, outcome := AfterStart(options, s, call), OutcomeOfStart(options, s, call);
            var id := if call.requested.Some? then call.requested.value else NumericId(s.nextRequestId);
            if outcome.Success? || outcome.error.InvalidWire? then
              && t.issued == s.issued + [id]
              && t.nextRequestId == (if id.NumericId? then id.n + 1 else s.nextRequestId)
              && t.explicitIds == s.explicitIds + (if call.requested.Some? then {id} else {})
              && t.requests == s.requests + (if outcome.Success? then [Request(id, Deferred(Pending, 0))] else [])
              && t.pending == (if outcome.Success? then s.pending[id := |s.requests|] else s.pending)
              && t.tombstones == s.tombstones && t.terminal == s.terminal
            else if outcome.error.NumbersExhausted? then
              t.terminal == Some(ProtocolFailure) && t.pending == map[] && |t.requests| == |s.requests|
            else t == s
  {
  }

  /**
   Abandoning an outstanding request rejects it as timed out if a timer did, as aborted otherwise, and attempts its
   cancellation.  Only if that cannot be sent do the others hear of it.
   */
  lemma AbandonIsExact(options: Options, events: seq<Event>, id: RequestId, timedOut: bool, cancelThrows: bool)
    requires options.Valid()
    ensures var s, t := Run(options, events), Step(options, Run(options, events), Abandon(id, timedOut, cancelThrows));
            if id !in s.pending then t == s
            else
              && s.pending[id] < |s.requests| == |t.requests|
              && t.requests[s.pending[id]].outcome.promise == Rejected(if timedOut then TimedOut else AbortedRequest)
              && t.cancelled == s.cancelled + [id] && id !in t.pending && id in Last(t.retired, options.maxTombstones)
              && t.terminal == (if cancelThrows then Some(TransportFailure) else None)
              && forall i :: 0 <= i < |s.requests| && i != s.pending[id] ==>
                   t.requests[i] == if cancelThrows && s.requests[i].outcome.promise.Pending?
                                    then Request(s.requests[i].id, Deferred(Rejected(TransportFailure), 1))
                                    else s.requests[i]
  {
    hide Run, IdsOk;
    RunKeepsInv(options, events);
    var s := Run(options, events);
    hide CancelledOk;
    var retired := Last(s.retired + [id], options.maxTombstones);
    assert retired[|retired| - 1] == id;
  }

  /** A response that answers its request as the protocol demands. */
  predicate WellFormed(body: ResponseBody) {
    match body
    case ErrorBody(code) => code.Some? && -9007199254740991 <= code.value <= 9007199254740991
    case ResultBody(result) => result.Some?
  }

  /** What ends a living client, and as what it ends. */
  lemma EndsExactly(options: Options, events: seq<Event>, e: Event)
    requires options.Valid() && Run(options, events).terminal.None?
    ensures var s := Run(options, events);
            Step(options, s, e).terminal
            == match e
               case WriteFails => Some(TransportFailure)
               case ReadFails => Some(TransportFailure)
               case ResultRejected => Some(ProtocolFailure)
               case Close => Some(ClientClosed)
               case Abandon(id, _, cancelThrows) =>
                 if id in s.pending && cancelThrows then Some(TransportFailure) else None
               case Start(call) =>
                 if !call.aborted && call.validTimeout && call.requested.None? && s.nextRequestId > 9007199254740991
                 then Some(ProtocolFailure) else None
               case Receive(Response(id, body)) =>
                 if id.None? || !IsRequestId(id.value) then Some(ProtocolFailure)
                 else if id.value in s.pending then (if WellFormed(body) then None else Some(ProtocolFailure))
                 else if id.value in Last(s.retired, options.maxTombstones) then None
                 else Some(ProtocolFailure)
               case Receive(ServerRequest(validId, replyThrows)) =>
                 if !validId then Some(ProtocolFailure) else if replyThrows then Some(TransportFailure) else None
               case Receive(Notification(_, _)) => None
               case Receive(_) => Some(ProtocolFailure)
  {
    hide Run;
    RunKeepsInv(options, events);
    IdsNeverRepeat(options, events);
  }

  /**
   What an end tells the requests it interrupts: that the transport failed, if that was it, and otherwise that their
   outcome is unknown.  The one request that the same event abandons is told why it was abandoned.
   */
  lemma EndInterrupts(options: Options, events: seq<Event>, e: Event, i: nat)
    requires options.Valid() && i < |Run(options, events).requests|
    requires Run(options, events).requests[i].outcome.promise.Pending?
    ensures var s, t := Run(options, events), Step(options, Run(options, events), e);
            && i < |t.requests| && t.requests[i].id == s.requests[i].id
            && (t.terminal.Some? && !(e.Abandon? && e.id == s.requests[i].id) ==>
                  t.requests[i].outcome.promise
                  == Rejected(if t.terminal.value.TransportFailure? then TransportFailure else InFlightUnknown))
  {
    hide Run, IdsOk, RetiredOk, CancelledOk, AfterResponse, RejectPending, Remember;
    RunKeepsInv(options, events);
    var s := Run(options, events);
    if e.Receive? && e.message.Response? {
      ResponseInterrupts(options, s, e.message.id, e.message.body, i);
    }
  }

  lemma ResponseInterrupts(options: Options, s: ClientState, id: Option<RequestId>, body: ResponseBody, i: nat)
    requires RequestsOk(s) && i < |s.requests| && s.requests[i].outcome.promise.Pending?
    ensures var t := AfterResponse(options, s, id, body);
            && i < |t.requests| && t.requests[i].id == s.requests[i].id
            && (t.terminal.Some? ==> !t.terminal.value.TransportFailure?
                                     && t.requests[i].outcome.promise == Rejected(InFlightUnknown))
  {
    hide Remember;
  }

  /** A client that has ended stays so, for the same reason. */
  lemma EndStays(options: Options, events: seq<Event>, e: Event)
    requires options.Valid() && Run(options, events).terminal.Some?
    ensures Step(options, Run(options, events), e) == Run(options, events)
  {
    hide Run, IdsOk, RetiredOk, CancelledOk;
    RunKeepsInv(options, events);
  }

  // ---------------------------------------------------------------- the notification window

  /** A notification and the size of its JSON text in bytes. */
  datatype Retained = Retained(notification: nat, bytes: nat)

  function TotalBytes(window: seq<Retained>): nat {
    if window == [] then 0 else window[0].bytes + TotalBytes(window[1..])
  }

  predicate Fits(options: Options, window: seq<Retained>) {
    |window| <= options.maxNotifications && TotalBytes(window) <= options.maxNotificationBytes
  }

  /** The longest suffix within both limits. */
  function LongestSuffix(options: Options, history: seq<Retained>): seq<Retained> {
    if history == [] || Fits(options, history) then history else LongestSuffix(options, history[1..])
  }

  lemma {:induction false} TotalBytesAppend(window: seq<Retained>, item: Retained)
    ensures TotalBytes(window + [item]) == TotalBytes(window) + item.bytes
  {
    if window != [] {
      assert (window + [item])[1..] == window[1..] + [item];
      TotalBytesAppend(window[1..], item);
    }
  }

  lemma {:induction false} TotalBytesDrop(window: seq<Retained>, k: nat)
    requires k <= |window|
    ensures TotalBytes(window[k..]) <= TotalBytes(window)
  {
    if k > 0 {
      TotalBytesDrop(window[1..], k - 1);
      assert window[1..][k - 1..] == window[k..];
    }
  }

  /** It is a suffix, it fits, and every longer suffix does not. */
  lemma {:induction false} LongestSuffixIsLongest(options: Options, history: seq<Retained>, k: nat)
    requires k <= |history|
    ensures var r := LongestSuffix(options, history);
            && |r| <= |history| && r == history[|history| - |r|..]
            && (r != [] ==> Fits(options, r))
            && (k < |history| - |r| ==> !Fits(options, history[k..]))
  {
    if history != [] && !Fits(options, history) {
      if k > 0 {
        LongestSuffixIsLongest(options, history[1..], k - 1);
        assert history[1..][k - 1..] == history[k..];
      } else {
        LongestSuffixIsLongest(options, history[1..], 0);
      }
      var r := LongestSuffix(options, history);
      assert history[1..][|history| - 1 - |r|..] == history[|history| - |r|..];
    }
  }

  /** The window after one more notification depends on the earlier ones only through the old window. */
  lemma {:induction false} LongestSuffixStep(options: Options, history: seq<Retained>, item: Retained)
    requires options.Valid()
    ensures LongestSuffix(options, LongestSuffix(options, history) + [item]) == LongestSuffix(options, history + [item])
  {
    if history != [] && !Fits(options, history) {
      TotalBytesAppend(history, item);
      assert !Fits(options, history + [item]);
      assert (history + [item])[1..] == history[1..] + [item];
      LongestSuffixStep(options, history[1..], item);
    }
  }

  // ---------------------------------------------------------------- the client itself

  class RawMcpClient {
    const options: Options
    var nextRequestId: int
    var explicitRequestIds: set<RequestId>
    var pending: map<RequestId, nat>
    var tombstones: seq<RequestId>
    var terminalError: Option<McpError>
    /** The promises handed to callers; the pending table refers to them by position. */
    var requests: seq<Request>
    var notifications: seq<Retained>
    var notificationBytes: int
    var droppedNotifications: nat
    ghost var issued: seq<RequestId>
    ghost var retired: seq<RequestId>
    ghost var cancelled: seq<RequestId>
    /** All notifications recorded, and those among them small enough to be retained at all. */
    ghost var recorded: nat
    ghost var retainable: seq<Retained>

    ghost function State(): ClientState
      reads this
    {
      ClientState(nextRequestId, explicitRequestIds, pending, tombstones, terminalError, requests, issued, retired,
                  cancelled)
    }

    /** The retained notifications are the longest suffix of the retainable ones within both limits. */
    ghost predicate WindowOk()
      reads this
    {
      && notifications == LongestSuffix(options, retainable)
      && Fits(options, notifications)
      && notificationBytes == TotalBytes(notifications)
      && droppedNotifications + |notifications| == recorded
    }

    ghost predicate Valid()
      reads this
    {
      options.Valid() && Inv(options, State()) && WindowOk()
    }

    constructor (options: Options)
      requires options.Valid()
      ensures Valid() && State() == Initial() && this.options == options && retainable == [] && recorded == 0
    {
      this.options := options;
      nextRequestId, explicitRequestIds, pending, tombstones := 1, {}, map[], [];
      terminalError, requests := None, [];
      notifications, notificationBytes, droppedNotifications := [], 0, 0;
      issued, retired, cancelled, recorded, retainable := [], [], [], 0, [];
    }

    twostate predicate WindowUntouched()
      reads this
    {
      && notifications == old(notifications) && notificationBytes == old(notificationBytes)
      && droppedNotifications == old(droppedNotifications)
      && recorded == old(recorded) && retainable == old(retainable)
    }

    /** One more notification went into the histories the window is defined by. */
    twostate predicate Recorded(notification: nat, bytes: nat)
      reads this
    {
      && recorded == old(recorded) + 1
      && retainable == if bytes > options.maxNotificationBytes then old(retainable)
                       else old(retainable) + [Retained(notification, bytes)]
    }

    method StartRequest(call: StartCall) returns (r: Result<RequestId, StartFault>)
      requires Valid()
      modifies this
      ensures Valid() && WindowUntouched()
      ensures r == OutcomeOfStart(options, old(State()), call)
      ensures State() == AfterStart(options, old(State()), call)
    {
      hide Inv, LongestSuffix, Fits, TotalBytes, SelectFault, SelectedId, Selected, AfterTerminate;
      StartKeepsInv(options, State(), call);
      if terminalError.Some? {
        return Failure(Terminated(terminalError.value));
      }
      if call.aborted {
        return Failure(SignalAborted);
      }
      if !call.validTimeout {
        return Failure(InvalidTimeout);
      }
      r := SelectRequestId(call.requested);
      if r.Failure? {
        return;
      }
      if !call.validWire {
        return Failure(InvalidWire);
      }
      AddRequest(r.value);
    }

    method AddRequest(id: RequestId)
      modifies this`pending, this`requests
      ensures State() == old(State()).(pending := old(pending)[id := |old(requests)|],
                                       requests := old(requests) + [Request(id, Deferred(Pending, 0))])
    {
      pending := pending[id := |requests|];
      requests := requests + [Request(id, Deferred(Pending, 0))];
    }

    method SelectRequestId(requested: Option<RequestId>) returns (r: Result<RequestId, StartFault>)
      modifies this
      ensures WindowUntouched()
      ensures r == match SelectFault(options, old(State()), requested)
                   case Some(fault) => Failure(fault)
                   case None => Success(SelectedId(old(State()), requested))
      ensures State() == if r.Success? then Selected(old(State()), requested)
                         else if r.error.NumbersExhausted? then AfterTerminate(old(State()), ProtocolFailure)
                         else old(State())
      ensures r.Failure? ==> !r.error.InvalidWire?
    {
      if requested.None? {
        r := AllocateRequestId();
        return;
      }
      var id := requested.value;
      if !IsRequestId(id) {
        return Failure(InvalidId);
      }
      if id in pending {
        return Failure(IdActive);
      }
      if id.NumericId? && id.n < nextRequestId {
        return Failure(NumberUsed);
      }
      if id in explicitRequestIds {
        return Failure(ExplicitIdUsed);
      }
      if |explicitRequestIds| >= options.maxTombstones {
        return Failure(ExplicitBudgetExhausted);
      }
      explicitRequestIds := explicitRequestIds + {id};
      if id.NumericId? && id.n >= nextRequestId {
        nextRequestId := id.n + 1;
      }
      issued := issued + [id];
      r := Success(id);
    }

    method AllocateRequestId() returns (r: Result<RequestId, StartFault>)
      modifies this
      ensures WindowUntouched()
      ensures r == if IsSafe(old(nextRequestId)) then Success(NumericId(old(nextRequestId)))
                   else Failure(NumbersExhausted)
      ensures State() == if r.Success? then Selected(old(State()), None)
                         else AfterTerminate(old(State()), ProtocolFailure)
    {
      if !IsSafe(nextRequestId) {
        Terminate(ProtocolFailure);
        return Failure(NumbersExhausted);
      }
      r := Success(NumericId(nextRequestId));
      issued := issued + [NumericId(nextRequestId)];
      nextRequestId := nextRequestId + 1;
    }

    /** Ends the client and rejects what is pending. */
    method Terminate(error: McpError)
      modifies this`terminalError, this`requests, this`pending
      ensures State() == AfterTerminate(old(State()), error)
    {
      if terminalError.Some? {
        return;
      }
      terminalError := Some(error);
      var pendingError := if error.TransportFailure? then error else InFlightUnknown;
      for i := 0 to |requests|
        invariant |requests| == |old(requests)| && terminalError == Some(error) && pending == old(pending)
        invariant forall j :: 0 <= j < i ==>
                    requests[j] == RejectPending(old(requests), pending, pendingError)[j]
        invariant forall j :: i <= j < |requests| ==> requests[j] == old(requests)[j]
      {
        if requests[i].id in pending && pending[requests[i].id] == i {
          requests := SettleAt(requests, i, Rejected(pendingError));
        }
      }
      pending := map[];
    }

    method RememberTombstone(id: RequestId)
      modifies this`tombstones
      ensures tombstones == Remember(options, old(tombstones), id)
    {
      if id !in tombstones {
        tombstones := tombstones + [id];
      }
      if |tombstones| > options.maxTombstones {
        tombstones := tombstones[1..];
      }
    }

    /** One round of the read loop, given the message it awaited. */
    method HandleIncoming(message: Incoming)
      requires Valid()
      modifies this
      ensures Valid() && State() == AfterReceive(options, old(State()), message)
      ensures if old(terminalError).None? && message.Notification? then Recorded(message.notification, message.bytes)
              else WindowUntouched()
    {
      StepKeepsInv(options, State(), Receive(message));
      if terminalError.Some? {
        return;
      }
      match message
      case InvalidMessage => Terminate(ProtocolFailure);
      case Response(id, body) => HandleResponse(id, body);
      case ServerRequest(validId, replyThrows) =>
        if !validId {
          Terminate(ProtocolFailure);
        } else if replyThrows {
          Terminate(TransportFailure);
        }
      case InvalidProgress => Terminate(ProtocolFailure);
      case Notification(notification, bytes) => RecordNotification(notification, bytes);
    }

    method HandleResponse(id: Option<RequestId>, body: ResponseBody)
      requires terminalError.None?
      requires forall x :: x in pending ==> pending[x] < |requests|
      modifies this
      ensures WindowUntouched()
      ensures State() == AfterResponse(options, old(State()), id, body)
    {
      if id.None? || !IsRequestId(id.value) {
        Terminate(ProtocolFailure);
        return;
      }
      if id.value in tombstones {
        return;
      }
      if id.value !in pending {
        Terminate(ProtocolFailure);
        return;
      }
      var i := pending[id.value];
      RetireRequest(id.value);
      match body
      case ErrorBody(code) =>
        if code.None? || !IsSafe(code.value) {
          Terminate(ProtocolFailure);
          requests := SettleAt(requests, i, Rejected(InFlightUnknown));
          return;
        }
        requests := SettleAt(requests, i, Rejected(RemoteFailure(code.value)));
      case ResultBody(result) =>
        if result.None? {
          Terminate(ProtocolFailure);
          requests := SettleAt(requests, i, Rejected(InFlightUnknown));
          return;
        }
        requests := SettleAt(requests, i, Fulfilled(result.value));
    }

    /** A timer, an abort signal or `cancel`; tells whether a cancellation was attempted. */
    method AbandonRequest(id: RequestId, timedOut: bool, cancelThrows: bool) returns (attempted: bool)
      requires Valid()
      modifies this
      ensures Valid() && WindowUntouched()
      ensures State() == Step(options, old(State()), Abandon(id, timedOut, cancelThrows))
      ensures attempted <==> id in old(pending)
    {
      StepKeepsInv(options, State(), Abandon(id, timedOut, cancelThrows));
      attempted := id in pending;
      if attempted {
        AbandonPending(id, if timedOut then TimedOut else AbortedRequest, cancelThrows);
      }
    }

    method AbandonPending(id: RequestId, error: McpError, cancelThrows: bool)
      requires id in pending && pending[id] < |requests|
      modifies this
      ensures WindowUntouched()
      ensures State() == AfterAbandon(options, old(State()), id, error, cancelThrows)
    {
      var i := pending[id];
      RetireRequest(id);
      requests := SettleAt(requests, i, Rejected(error));
      cancelled := cancelled + [id];
      if cancelThrows {
        Terminate(TransportFailure);
      }
    }

    /** Takes a request out of the pending table and remembers its id. */
    method RetireRequest(id: RequestId)
      modifies this`pending, this`tombstones, this`retired
      ensures State() == Retire(options, old(State()), id)
    {
      pending := pending - {id};
      RememberTombstone(id);
      retired := retired + [id];
    }

    /** A write or read failed, a result did not match its schema, or the client is closed. */
    method Fail(event: Event)
      requires Valid() && (event.WriteFails? || event.ReadFails? || event.ResultRejected? || event.Close?)
      modifies this
      ensures Valid() && WindowUntouched()
      ensures State() == Step(options, old(State()), event)
    {
      StepKeepsInv(options, State(), event);
      Terminate(if event.Close? then ClientClosed
                else if event.ResultRejected? then ProtocolFailure
                else TransportFailure);
    }

    /** Records a notification of the given size, evicting the oldest ones until it fits. */
    method RecordNotification(notification: nat, retainedBytes: nat)
      requires Valid()
      modifies this`notifications, this`notificationBytes, this`droppedNotifications, this`recorded, this`retainable
      ensures Valid() && State() == old(State()) && Recorded(notification, retainedBytes)
    {
      hide Inv;
      recorded := recorded + 1;
      if retainedBytes > options.maxNotificationBytes {
        droppedNotifications := droppedNotifications + 1;
        return;
      }
      var item := Retained(notification, retainedBytes);
      LongestSuffixStep(options, retainable, item);
      ghost var target := LongestSuffix(options, notifications + [item]);
      TotalBytesAppend(notifications, item);
      while || |notifications| >= options.maxNotifications
            || notificationBytes + retainedBytes > options.maxNotificationBytes
        decreases |notifications|
        invariant notificationBytes == TotalBytes(notifications)
        invariant TotalBytes(notifications + [item]) == notificationBytes + retainedBytes
        invariant droppedNotifications + |notifications| + 1 == recorded == old(recorded) + 1
        invariant retainable == old(retainable)
        invariant LongestSuffix(options, notifications + [item]) == target
      {
        // The source's break on an empty queue is unreachable: an empty window has room for the item.
        assert notifications != [];
        assert (notifications + [item])[1..] == notifications[1..] + [item];
        var removed := notifications[0];
        notifications := notifications[1..];
        notificationBytes := notificationBytes - removed.bytes;
        droppedNotifications := droppedNotifications + 1;
      }
      notifications := notifications + [item];
      notificationBytes := notificationBytes + retainedBytes;
      retainable := retainable + [item];
    }
  }
}
