/**
 The fault gate between the MCP client and its transport: it withholds one successful tool response, or
 disconnects once one request write was accepted, and reports the fault only if it truly happened.

 Each event is one synchronous block between awaits; the environment chooses their order.  `log` records
 what decides whether a disconnect fault was established, `taken` and `returned` the messages that went in
 and out of `receive`.
 */
module FaultGate {
  import opened Common

  datatype ResponseKind = InvalidResponse | RemoteError | ToolError | ToolSuccess

  /** A message reduced to what the gate looks at; the schema verdicts are uninterpreted facts about it. */
  datatype Message = Message(
    id: Option<RequestId>,
    isToolCall: bool,
    hasResult: bool,
    hasError: bool,
    isResultResponse: bool,
    isToolResult: bool,
    flagsError: bool,
    isErrorResponse: bool)

  function ClassifyResponse(message: Message, requestId: RequestId): Option<ResponseKind> {
    if message.id != Some(requestId) || (!message.hasResult && !message.hasError) then None
    else if message.isResultResponse then
      Some(if !message.isToolResult then InvalidResponse else if message.flagsError then ToolError else ToolSuccess)
    else Some(if message.isErrorResponse then RemoteError else InvalidResponse)
  }

  predicate IsToolCallRequestFor(message: Message, requestId: RequestId) {
    message.isToolCall && message.id == Some(requestId)
  }

  datatype GateFailure =
    AlreadyArmed | Disarmed | DisconnectNotApplied | InvalidRequestId | TransportTerminated | WriteNotAccepted

  datatype Observation = Forwarded(requestId: RequestId, kind: ResponseKind) | Suppressed(requestId: RequestId)

  datatype DisconnectObservation = DisconnectObservation(
    receipt: Receipt, requestId: RequestId, responseIntercepted: bool)

  datatype TerminalMode = CloseMode | DisconnectMode

  /** How the one terminal operation on the inner transport ended. */
  datatype Settlement = Ended(summary: nat) | NotEnded(error: nat)

  datatype DisconnectGate = DisconnectGate(
    requestId: RequestId,
    claimed: bool,
    disconnectConfirmed: bool,
    disconnectScheduled: bool,
    receipt: Option<Receipt>,
    responseHandled: bool,
    responseIntercepted: bool,
    triggerSettled: bool,
    triggered: Deferred<DisconnectObservation, GateFailure>,
    closed: Deferred<nat, nat>)

  datatype SuppressionGate = SuppressionGate(
    requestId: RequestId,
    settled: bool,
    observation: Deferred<Observation, GateFailure>)

  datatype Gate = Suppression(suppression: SuppressionGate) | Disconnect(disconnect: DisconnectGate) {
    function Id(): RequestId {
      if Suppression? then suppression.requestId else disconnect.requestId
    }
  }

  /** The lengths of `taken` and `log` when a gate was armed. */
  datatype Arming = Arming(taken: nat, log: nat)

  /** A send on the inner transport, and the gate it claimed, if any. */
  datatype SentMessage = SentMessage(claims: Option<nat>, settled: bool)

  datatype Withheld = Withheld(gate: nat, at: nat)

  datatype Happening =
    | WriteAccepted(gate: nat, receipt: Receipt)
    | WriteRefused(gate: nat)
    | ReceiveFailed
    | Aborted(gate: nat)
    | TerminalStarted(mode: TerminalMode)
    | TerminalSettled(success: bool)

  /** What the transport keeps, and from `armings` on the histories that the specification speaks of. */
  datatype GateState = GateState(
    gates: seq<Gate>,
    active: Option<nat>,
    mode: Option<TerminalMode>,
    settlement: Option<Settlement>,
    sends: seq<SentMessage>,
    receivers: nat,
    armings: seq<Arming>,
    taken: seq<Message>,
    returned: seq<Message>,
    withheld: seq<Withheld>,
    log: seq<Happening>)

  function Initial(): GateState {
    GateState([], None, None, None, [], 0, [], [], [], [], [])
  }

  datatype Event =
    | ArmSuppression(requestId: RequestId)
    | ArmDisconnect(requestId: RequestId)
    | DisarmLease(gate: nat)
    | AbortLease(gate: nat)
    | SendCall(message: Message, throws: bool)
    | SendAccepted(send: nat, receipt: Receipt)
    | SendRefused(send: nat)
    | ReceiveCall
    | Deliver(message: Message)
    | ReceiveFails
    | SignalReceiver
    | ImmediateFires(gate: nat)
    | CloseCall
    | DisconnectCall
    | TerminalSettles(outcome: Settlement)

  // ---------------------------------------------------------------- single gates

  function NewSuppression(requestId: RequestId): SuppressionGate {
    SuppressionGate(requestId, false, Deferred(Pending, 0))
  }

  function NewDisconnect(requestId: RequestId): DisconnectGate {
    DisconnectGate(requestId, false, false, false, None, false, false, false, Deferred(Pending, 0),
                   Deferred(Pending, 0))
  }

  function SettleSuppression(gate: SuppressionGate, outcome: Promise<Observation, GateFailure>): SuppressionGate {
    if gate.settled then gate else gate.(settled := true, observation := gate.observation.Settle(outcome))
  }

  function TryResolveTrigger(gate: DisconnectGate): DisconnectGate {
    if gate.triggerSettled || !gate.disconnectConfirmed || !gate.responseHandled || gate.receipt.None? then gate
    else
      gate.(triggerSettled := true,
            triggered := gate.triggered.Settle(Fulfilled(
              DisconnectObservation(gate.receipt.value, gate.requestId, gate.responseIntercepted))))
  }

  function RejectTrigger(gate: DisconnectGate, reason: GateFailure): DisconnectGate {
    if gate.triggerSettled then gate
    else gate.(triggerSettled := true, triggered := gate.triggered.Settle(Rejected(reason)))
  }

  // ---------------------------------------------------------------- transitions

  function ActiveGate(s: GateState): Option<Gate> {
    if s.active.Some? && s.active.value < |s.gates| then Some(s.gates[s.active.value]) else None
  }

  function SetDisconnect(s: GateState, g: nat, gate: DisconnectGate): GateState
    requires g < |s.gates| && s.gates[g].Disconnect?
  {
    s.(gates := s.gates[g := s.gates[g].(disconnect := gate)])
  }

  function StartTerminal(s: GateState, mode: TerminalMode): GateState {
    if s.mode.Some? then s else s.(mode := Some(mode), log := s.log + [TerminalStarted(mode)])
  }

  function StartDisconnect(s: GateState): GateState {
    StartTerminal(s, DisconnectMode)
  }

  function ArmFault(s: GateState, requestId: RequestId): Option<GateFailure> {
    if !IsRequestId(requestId) then Some(InvalidRequestId)
    else if s.active.Some? || s.mode.Some? then Some(AlreadyArmed)
    else None
  }

  function Arm(s: GateState, gate: Gate): GateState {
    s.(gates := s.gates + [gate], active := Some(|s.gates|), armings := s.armings + [Arming(|s.taken|, |s.log|)])
  }

  function AfterArmSuppression(s: GateState, requestId: RequestId): GateState {
    if ArmFault(s, requestId).Some? then s
    else Arm(s, Suppression(NewSuppression(requestId)))
  }

  function AfterArmDisconnect(s: GateState, requestId: RequestId): GateState {
    if ArmFault(s, requestId).Some? then s
    else Arm(s, Disconnect(NewDisconnect(requestId)))
  }

  /** Deactivates the active suppression gate and settles it. */
  function ReleaseSuppression(s: GateState, outcome: Promise<Observation, GateFailure>): GateState
    requires ActiveGate(s).Some? && ActiveGate(s).value.Suppression?
  {
    var g := s.active.value;
    s.(active := None,
       gates := s.gates[g := s.gates[g].(suppression := SettleSuppression(s.gates[g].suppression, outcome))])
  }

  predicate CanDisarm(s: GateState, g: nat) {
    s.active == Some(g) && g < |s.gates| && s.gates[g].Suppression? && !s.gates[g].suppression.settled
  }

  function AfterDisarm(s: GateState, g: nat): GateState {
    if CanDisarm(s, g) then ReleaseSuppression(s, Rejected(Disarmed)) else s
  }

  predicate CanAbort(s: GateState, g: nat) {
    s.active == Some(g) && s.mode.None? && g < |s.gates| && s.gates[g].Disconnect?
  }

  function AfterAbort(s: GateState, g: nat): GateState {
    if !CanAbort(s, g) then s
    else StartDisconnect(
      SetDisconnect(s, g, RejectTrigger(s.gates[g].disconnect, Disarmed)).(log := s.log + [Aborted(g)]))
  }

  /** The gate a message claims when it is sent. */
  function Claim(s: GateState, message: Message): Option<nat> {
    if ActiveGate(s).Some? && ActiveGate(s).value.Disconnect? && !ActiveGate(s).value.disconnect.claimed
       && IsToolCallRequestFor(message, ActiveGate(s).value.disconnect.requestId) then s.active
    else None
  }

  function Claimed(s: GateState, g: nat): GateState
    requires g < |s.gates| && s.gates[g].Disconnect?
  {
    SetDisconnect(s, g, s.gates[g].disconnect.(claimed := true))
  }

  /** The claimed write of gate g was refused: no fault, and nothing more is sent. */
  function Refuse(s: GateState, g: nat): GateState
    requires g < |s.gates| && s.gates[g].Disconnect?
  {
    StartDisconnect(
      SetDisconnect(s, g, RejectTrigger(s.gates[g].disconnect, WriteNotAccepted)).(log := s.log + [WriteRefused(g)]))
  }

  function AfterSend(s: GateState, message: Message, throws: bool): GateState {
    if s.mode.Some? then s
    else
      var claim := Claim(s, message);
      var t := if claim.Some? then Claimed(s, claim.value) else s;
      if !throws then t.(sends := t.sends + [SentMessage(claim, false)])
      else if claim.Some? then Refuse(t, claim.value)
      else t
  }

  /** Postpones the disconnect until queued responses had their turn. */
  function ScheduleDisconnect(s: GateState, g: nat): GateState
    requires g < |s.gates| && s.gates[g].Disconnect?
  {
    if s.gates[g].disconnect.disconnectScheduled || s.mode.Some? then s
    else SetDisconnect(s, g, s.gates[g].disconnect.(disconnectScheduled := true))
  }

  /** The claimed write of gate g was accepted. */
  function Accept(s: GateState, g: nat, receipt: Receipt): GateState
    requires g < |s.gates| && s.gates[g].Disconnect?
  {
    var gate := TryResolveTrigger(s.gates[g].disconnect.(receipt := Some(receipt)));
    var t := SetDisconnect(s, g, gate).(log := s.log + [WriteAccepted(g, receipt)]);
    if gate.responseHandled then StartDisconnect(t) else ScheduleDisconnect(t, g)
  }

  predicate SendPending(s: GateState, k: nat) {
    k < |s.sends| && !s.sends[k].settled
  }

  function ClaimedBy(s: GateState, k: nat): Option<nat>
    requires k < |s.sends|
  {
    var claim := s.sends[k].claims;
    if claim.Some? && claim.value < |s.gates| && s.gates[claim.value].Disconnect? then claim else None
  }

  function SendSettled(s: GateState, k: nat): GateState
    requires k < |s.sends|
  {
    s.(sends := s.sends[k := s.sends[k].(settled := true)])
  }

  function AfterSendAccepted(s: GateState, k: nat, receipt: Receipt): GateState {
    if !SendPending(s, k) then s
    else
      var claim, t := ClaimedBy(s, k), SendSettled(s, k);
      if claim.Some? then Accept(t, claim.value, receipt) else t
  }

  function AfterSendRefused(s: GateState, k: nat): GateState {
    if !SendPending(s, k) then s
    else
      var claim, t := ClaimedBy(s, k), SendSettled(s, k);
      if claim.Some? then Refuse(t, claim.value) else t
  }

  function AfterImmediate(s: GateState, g: nat): GateState {
    if g >= |s.gates| || !s.gates[g].Disconnect? || !s.gates[g].disconnect.disconnectScheduled then s
    else
      var t := SetDisconnect(s, g, s.gates[g].disconnect.(disconnectScheduled := false));
      if t.active != Some(g) || t.mode.Some? then t else StartDisconnect(t)
  }

  function AfterReceiveCall(s: GateState): GateState {
    if s.mode.Some? then s else s.(receivers := s.receivers + 1)
  }

  /** One receiver's await is over. */
  function OneReceiverLess(s: GateState): GateState {
    s.(receivers := if s.receivers > 0 then s.receivers - 1 else 0)
  }

  /** The message goes to the caller, whose `receive` is over. */
  function Return(s: GateState, message: Message): GateState {
    OneReceiverLess(s).(returned := s.returned + [message])
  }

  /** The message is dropped; its `receive` goes round again, or throws if the gate has terminated. */
  function Withhold(s: GateState, g: nat): GateState
    requires s.taken != []
  {
    var t := s.(withheld := s.withheld + [Withheld(g, |s.taken| - 1)]);
    if s.mode.Some? then OneReceiverLess(t) else t
  }

  /** A classified response for the active suppression gate. */
  function SuppressionResponse(s: GateState, message: Message, kind: ResponseKind): GateState
    requires ActiveGate(s).Some? && ActiveGate(s).value.Suppression? && s.taken != []
  {
    var g, id := s.active.value, ActiveGate(s).value.Id();
    if kind.ToolSuccess? then Withhold(ReleaseSuppression(s, Fulfilled(Suppressed(id))), g)
    else Return(ReleaseSuppression(s, Fulfilled(Forwarded(id, kind))), message)
  }

  /** The first classified response for the active disconnect gate. */
  function DisconnectResponse(s: GateState, message: Message, kind: ResponseKind): GateState
    requires ActiveGate(s).Some? && ActiveGate(s).value.Disconnect? && s.taken != []
  {
    var g := s.active.value;
    var gate := TryResolveTrigger(s.gates[g].disconnect.(
                  responseHandled := true,
                  responseIntercepted := s.gates[g].disconnect.responseIntercepted || kind.ToolSuccess?));
    var t := SetDisconnect(s, g, gate);
    var u := if gate.receipt.Some? then StartDisconnect(t) else t;
    if kind.ToolSuccess? then Withhold(u, g) else Return(u, message)
  }

  function AfterDeliver(s: GateState, message: Message): GateState {
    if s.receivers == 0 then s
    else
      var t := s.(taken := s.taken + [message]);
      match ActiveGate(t)
      case None => Return(t, message)
      case Some(gate) =>
        match ClassifyResponse(message, gate.Id())
        case None => Return(t, message)
        case Some(kind) =>
          if gate.Suppression? then SuppressionResponse(t, message, kind)
          else if gate.disconnect.responseHandled then Return(t, message)
          else DisconnectResponse(t, message, kind)
  }

  function HandleReceiveFailure(s: GateState): GateState {
    match ActiveGate(s)
    case None => s
    case Some(gate) =>
      if gate.Suppression? then StartDisconnect(ReleaseSuppression(s, Rejected(TransportTerminated)))
      else
        var handled := gate.disconnect.(responseHandled := true);
        StartDisconnect(SetDisconnect(s, s.active.value,
          if s.mode != Some(DisconnectMode) then RejectTrigger(handled, DisconnectNotApplied)
          else TryResolveTrigger(handled)))
  }

  /** The inner transport rejected a receiver's await. */
  function AfterReceiveFails(s: GateState): GateState {
    if s.receivers == 0 then s else HandleReceiveFailure(OneReceiverLess(s).(log := s.log + [ReceiveFailed]))
  }

  /** The terminal signal did. */
  function AfterSignal(s: GateState): GateState {
    if s.receivers == 0 || s.mode.None? then s else HandleReceiveFailure(OneReceiverLess(s))
  }

  function AfterClose(s: GateState): GateState {
    if ActiveGate(s).Some? && ActiveGate(s).value.Disconnect? then StartDisconnect(s) else StartTerminal(s, CloseMode)
  }

  function AfterDisconnectCall(s: GateState): GateState {
    StartDisconnect(s)
  }

  function SettleTerminalGate(s: GateState, outcome: Settlement): GateState {
    match ActiveGate(s)
    case None => s
    case Some(gate) =>
      if gate.Suppression? then ReleaseSuppression(s, Rejected(TransportTerminated))
      else
        var handled := gate.disconnect.(responseHandled := true);
        var settled := if outcome.Ended? then TryResolveTrigger(handled.(disconnectConfirmed := true))
                       else RejectTrigger(handled, DisconnectNotApplied);
        SetDisconnect(s, s.active.value,
          settled.(closed := settled.closed.Settle(if outcome.Ended? then Fulfilled(outcome.summary)
                                                   else Rejected(outcome.error)))).(active := None)
  }

  function AfterTerminalSettles(s: GateState, outcome: Settlement): GateState {
    if s.mode.None? || s.settlement.Some? then s
    else SettleTerminalGate(s.(settlement := Some(outcome), log := s.log + [TerminalSettled(outcome.Ended?)]), outcome)
  }

  function Step(s: GateState, e: Event): GateState {
    match e
    case ArmSuppression(requestId) => AfterArmSuppression(s, requestId)
    case ArmDisconnect(requestId) => AfterArmDisconnect(s, requestId)
    case DisarmLease(g) => AfterDisarm(s, g)
    case AbortLease(g) => AfterAbort(s, g)
    case SendCall(message, throws) => AfterSend(s, message, throws)
    case SendAccepted(k, receipt) => AfterSendAccepted(s, k, receipt)
    case SendRefused(k) => AfterSendRefused(s, k)
    case ReceiveCall => AfterReceiveCall(s)
    case Deliver(message) => AfterDeliver(s, message)
    case ReceiveFails => AfterReceiveFails(s)
    case SignalReceiver => AfterSignal(s)
    case ImmediateFires(g) => AfterImmediate(s, g)
    case CloseCall => AfterClose(s)
    case DisconnectCall => AfterDisconnectCall(s)
    case TerminalSettles(outcome) => AfterTerminalSettles(s, outcome)
  }

  // ---------------------------------------------------------------- reading the log

  /** The receipt of gate g's claimed write, once it was accepted. */
  function AcceptedIn(log: seq<Happening>, g: nat): Option<Receipt> {
    if log == [] then None
    else
      var last := log[|log| - 1];
      if last.WriteAccepted? && last.gate == g then Some(last.receipt) else AcceptedIn(log[..|log| - 1], g)
  }

  predicate RefusedIn(log: seq<Happening>, g: nat) {
    WriteRefused(g) in log
  }

  /** The terminal operation started on the inner transport. */
  function StartedIn(log: seq<Happening>): Option<TerminalMode> {
    if log == [] then None
    else if log[|log| - 1].TerminalStarted? then Some(log[|log| - 1].mode)
    else StartedIn(log[..|log| - 1])
  }

  /** Whether the terminal operation has settled, and how. */
  function EndedIn(log: seq<Happening>): Option<bool> {
    if log == [] then None
    else if log[|log| - 1].TerminalSettled? then Some(log[|log| - 1].success)
    else EndedIn(log[..|log| - 1])
  }

  /** Before the terminal operation started, a receive failed or the lease was aborted. */
  predicate SpoiledIn(log: seq<Happening>, g: nat) {
    log != []
    && (var before, last := log[..|log| - 1], log[|log| - 1];
        SpoiledIn(before, g) || (StartedIn(before).None? && (last == ReceiveFailed || last == Aborted(g))))
  }

  /**
   The disconnect fault of gate g is established by what happened since it was armed: its write was
   accepted, the transport was disconnected rather than closed, successfully, and nothing spoiled it.
   */
  predicate EstablishedIn(log: seq<Happening>, g: nat) {
    && AcceptedIn(log, g).Some?
    && StartedIn(log) == Some(DisconnectMode)
    && EndedIn(log) == Some(true)
    && !SpoiledIn(log, g)
  }

  /** The fault of gate g cannot be established any more. */
  predicate LostIn(log: seq<Happening>, g: nat) {
    RefusedIn(log, g) || SpoiledIn(log, g) || EndedIn(log) == Some(false)
  }

  /** No terminal operation is started twice. */
  predicate StartsOnce(log: seq<Happening>) {
    log == []
    || (StartsOnce(log[..|log| - 1]) && (log[|log| - 1].TerminalStarted? ==> StartedIn(log[..|log| - 1]).None?))
  }

  lemma LogAppend(log: seq<Happening>, h: Happening, g: nat)
    ensures AcceptedIn(log + [h], g) == if h.WriteAccepted? && h.gate == g then Some(h.receipt) else AcceptedIn(log, g)
    ensures RefusedIn(log + [h], g) <==> RefusedIn(log, g) || h == WriteRefused(g)
    ensures StartedIn(log + [h]) == if h.TerminalStarted? then Some(h.mode) else StartedIn(log)
    ensures StartsOnce(log + [h]) <==> StartsOnce(log) && (h.TerminalStarted? ==> StartedIn(log).None?)
    ensures EndedIn(log + [h]) == if h.TerminalSettled? then Some(h.success) else EndedIn(log)
    ensures SpoiledIn(log + [h], g) <==>
              SpoiledIn(log, g) || (StartedIn(log).None? && (h == ReceiveFailed || h == Aborted(g)))
  {
    assert (log + [h])[..|log|] == log;
  }

  lemma OneHappening(h: Happening)
    ensures StartedIn([h]) == if h.TerminalStarted? then Some(h.mode) else None
    ensures EndedIn([h]) == if h.TerminalSettled? then Some(h.success) else None
    ensures StartsOnce([h])
  {
    LogAppend([], h, 0);
    assert [] + [h] == [h];
  }

  lemma NoHappening(log: seq<Happening>)
    ensures StartedIn([]).None? && EndedIn([]).None? && StartsOnce([]) && log + [] == log
  {
  }

  // ---------------------------------------------------------------- a disconnect gate and its history

  predicate SettledOnce<V, E>(d: Deferred<V, E>) {
    d.calls == if d.Settled() then 1 else 0
  }

  /** The gate's flags and promises are determined by what happened since it was armed. */
  ghost predicate DisconnectOk(gate: DisconnectGate, g: nat, log: seq<Happening>) {
    && gate.receipt == AcceptedIn(log, g)
    && (gate.receipt.Some? ==> !RefusedIn(log, g))
    && (gate.receipt.Some? || RefusedIn(log, g) ==> gate.claimed)
    && (RefusedIn(log, g) || EndedIn(log).Some? ==> StartedIn(log).Some?)
    && (StartedIn(log).None? || StartedIn(log) == Some(DisconnectMode))
    && gate.disconnectConfirmed == (EndedIn(log) == Some(true))
    && (EndedIn(log).Some? || gate.responseIntercepted ==> gate.responseHandled)
    && PromisesOk(gate, g, log)
  }

  ghost predicate PromisesOk(gate: DisconnectGate, g: nat, log: seq<Happening>) {
    && gate.triggerSettled == gate.triggered.Settled()
    && SettledOnce(gate.triggered) && SettledOnce(gate.closed)
    && (gate.closed.Settled() <==> EndedIn(log).Some?)
    && (gate.triggered.promise.Fulfilled? <==> EstablishedIn(log, g))
    && (gate.triggered.promise.Rejected? <==> LostIn(log, g))
    && (gate.triggered.promise.Fulfilled? ==>
          gate.triggered.promise.value
          == DisconnectObservation(AcceptedIn(log, g).value, gate.requestId, gate.responseIntercepted))
  }

  /** Once the write is accepted, the disconnect has started or is scheduled. */
  ghost predicate Moving(gate: DisconnectGate, log: seq<Happening>) {
    gate.receipt.Some? && StartedIn(log).None? ==> gate.disconnectScheduled
  }

  lemma AcceptGate(gate: DisconnectGate, g: nat, log: seq<Happening>, receipt: Receipt)
    requires DisconnectOk(gate, g, log) && gate.receipt.None? && !RefusedIn(log, g) && gate.claimed
    ensures DisconnectOk(TryResolveTrigger(gate.(receipt := Some(receipt))), g, log + [WriteAccepted(g, receipt)])
  {
    LogAppend(log, WriteAccepted(g, receipt), g);
  }

  lemma RefuseGate(gate: DisconnectGate, g: nat, log: seq<Happening>)
    requires DisconnectOk(gate, g, log) && gate.receipt.None? && gate.claimed
    ensures DisconnectOk(RejectTrigger(gate, WriteNotAccepted), g,
                         if StartedIn(log).Some? then log + [WriteRefused(g)]
                         else log + [WriteRefused(g)] + [TerminalStarted(DisconnectMode)])
  {
    LogAppend(log, WriteRefused(g), g);
    LogAppend(log + [WriteRefused(g)], TerminalStarted(DisconnectMode), g);
  }

  lemma AbortGate(gate: DisconnectGate, g: nat, log: seq<Happening>)
    requires DisconnectOk(gate, g, log) && StartedIn(log).None?
    ensures DisconnectOk(RejectTrigger(gate, Disarmed), g, log + [Aborted(g)] + [TerminalStarted(DisconnectMode)])
  {
    LogAppend(log, Aborted(g), g);
    LogAppend(log + [Aborted(g)], TerminalStarted(DisconnectMode), g);
  }

  lemma StartGate(gate: DisconnectGate, g: nat, log: seq<Happening>)
    requires DisconnectOk(gate, g, log) && StartedIn(log).None?
    ensures DisconnectOk(gate, g, log + [TerminalStarted(DisconnectMode)])
  {
    LogAppend(log, TerminalStarted(DisconnectMode), g);
  }

  /** A receive failure before the terminal operation rejects the trigger. */
  lemma FailGateEarly(gate: DisconnectGate, g: nat, log: seq<Happening>)
    requires DisconnectOk(gate, g, log) && StartedIn(log).None?
    ensures DisconnectOk(RejectTrigger(gate.(responseHandled := true), DisconnectNotApplied), g,
                         log + [ReceiveFailed] + [TerminalStarted(DisconnectMode)])
  {
    LogAppend(log, ReceiveFailed, g);
    LogAppend(log + [ReceiveFailed], TerminalStarted(DisconnectMode), g);
  }

  /** A later one changes nothing about the fault. */
  lemma FailGateLate(gate: DisconnectGate, g: nat, log: seq<Happening>)
    requires DisconnectOk(gate, g, log) && StartedIn(log).Some?
    ensures DisconnectOk(TryResolveTrigger(gate.(responseHandled := true)), g, log)
    ensures DisconnectOk(TryResolveTrigger(gate.(responseHandled := true)), g, log + [ReceiveFailed])
  {
    LogAppend(log, ReceiveFailed, g);
  }

  /** The flags that steer sends and the postponed disconnect say nothing about the fault. */
  lemma FlagGate(gate: DisconnectGate, g: nat, log: seq<Happening>, claimed: bool, scheduled: bool)
    requires DisconnectOk(gate, g, log) && (gate.claimed ==> claimed)
    ensures DisconnectOk(gate.(claimed := claimed, disconnectScheduled := scheduled), g, log)
  {
  }

  /** A receive failure after the terminal operation started does not concern the gate. */
  lemma NoteGate(gate: DisconnectGate, g: nat, log: seq<Happening>)
    requires DisconnectOk(gate, g, log) && StartedIn(log).Some?
    ensures DisconnectOk(gate, g, log + [ReceiveFailed])
  {
    LogAppend(log, ReceiveFailed, g);
  }

  lemma HandleGate(gate: DisconnectGate, g: nat, log: seq<Happening>, intercepted: bool)
    requires DisconnectOk(gate, g, log) && !gate.responseHandled
    ensures var after := gate.(responseHandled := true, responseIntercepted := gate.responseIntercepted || intercepted);
            TryResolveTrigger(after) == after && DisconnectOk(after, g, log)
  {
  }

  lemma EndGate(gate: DisconnectGate, g: nat, log: seq<Happening>, outcome: Settlement)
    requires DisconnectOk(gate, g, log) && StartedIn(log).Some? && EndedIn(log).None?
    ensures var handled := gate.(responseHandled := true);
            var settled := if outcome.Ended? then TryResolveTrigger(handled.(disconnectConfirmed := true))
                           else RejectTrigger(handled, DisconnectNotApplied);
            DisconnectOk(settled.(closed := settled.closed.Settle(if outcome.Ended? then Fulfilled(outcome.summary)
                                                                  else Rejected(outcome.error))),
                         g, log + [TerminalSettled(outcome.Ended?)])
  {
    LogAppend(log, TerminalSettled(outcome.Ended?), g);
  }

  // ---------------------------------------------------------------- what every state keeps

  /** Which gate may be active, and how the terminal fields follow the log. */
  ghost predicate Shape(s: GateState) {
    && s.mode == StartedIn(s.log) && StartsOnce(s.log) && |s.armings| == |s.gates|
    && (if s.settlement.Some? then s.mode.Some? && EndedIn(s.log) == Some(s.settlement.value.Ended?)
        else EndedIn(s.log).None?)
    && (s.active.Some? ==> s.active.value == |s.gates| - 1 && s.settlement.None?)
    && (forall g :: 0 <= g < |s.gates| && s.gates[g].Suppression? ==>
          SuppressionOk(s.gates[g].suppression, s.active == Some(g)))
    && (forall g :: 0 <= g < |s.gates| && s.gates[g].Disconnect? ==>
          g == |s.gates| - 1 && (s.settlement.None? ==> s.active == Some(g)))
  }

  /** An active suppression gate is never settled, and a settled one never active. */
  ghost predicate SuppressionOk(gate: SuppressionGate, active: bool) {
    gate.settled == !active && gate.settled == gate.observation.Settled() && SettledOnce(gate.observation)
  }

  /** The log since gate g was armed. */
  function Since(s: GateState, g: nat): seq<Happening>
  {
    if g < |s.armings| && s.armings[g].log <= |s.log| then s.log[s.armings[g].log..] else []
  }

  /** There is at most one disconnect gate, the last one armed; it was armed before anything terminal. */
  ghost predicate DisconnectsOk(s: GateState) {
    s.gates != [] && s.gates[|s.gates| - 1].Disconnect? ==>
      var g := |s.gates| - 1;
      && g < |s.armings| && s.armings[g].log <= |s.log|
      && StartedIn(Since(s, g)) == s.mode
      && EndedIn(Since(s, g)) == (if s.settlement.Some? then Some(s.settlement.value.Ended?) else None)
      && DisconnectOk(s.gates[g].disconnect, g, Since(s, g))
      && Moving(s.gates[g].disconnect, Since(s, g))
  }

  /** At most one send claims a disconnect gate, and until it settles the gate knows nothing of its write. */
  ghost predicate SendsOk(s: GateState) {
    && (forall k :: 0 <= k < |s.sends| && s.sends[k].claims.Some? ==>
          var g := s.sends[k].claims.value;
          && g < |s.gates| && s.gates[g].Disconnect? && s.gates[g].disconnect.claimed
          && (!s.sends[k].settled ==> s.gates[g].disconnect.receipt.None? && !RefusedIn(Since(s, g), g)))
    && (forall j, k :: 0 <= j < k < |s.sends| ==> s.sends[j].claims.None? || s.sends[k].claims.None?)
  }

  /** The taken messages without those withheld. */
  function Kept(taken: seq<Message>, withheld: seq<Withheld>): seq<Message> {
    if taken == [] then []
    else
      var n := |taken| - 1;
      if withheld != [] && withheld[|withheld| - 1].at == n then Kept(taken[..n], withheld[..|withheld| - 1])
      else Kept(taken[..n], withheld) + [taken[n]]
  }

  /** The gate reports that it kept a response from the client. */
  predicate Withholds(gate: Gate) {
    if gate.Suppression? then
      gate.suppression.observation.promise.Fulfilled? && gate.suppression.observation.promise.value.Suppressed?
    else gate.disconnect.responseIntercepted
  }

  function CountWithholding(gates: seq<Gate>): nat {
    if gates == [] then 0
    else CountWithholding(gates[..|gates| - 1]) + if Withholds(gates[|gates| - 1]) then 1 else 0
  }

  /** The gate still waits for its first classified response. */
  predicate Listening(gate: Gate) {
    if gate.Suppression? then true else !gate.disconnect.responseHandled
  }

  predicate Quiet(taken: seq<Message>, from: nat, to: nat, id: RequestId) {
    forall j :: from <= j < to && j < |taken| ==> ClassifyResponse(taken[j], id).None?
  }

  /** A withheld message is the first classified response for its gate's id, and a tool success. */
  ghost predicate WithheldOk(s: GateState, w: Withheld) {
    && w.gate < |s.gates| && w.at < |s.taken| && w.gate < |s.armings| && s.armings[w.gate].taken <= w.at
    && Withholds(s.gates[w.gate])
    && ClassifyResponse(s.taken[w.at], s.gates[w.gate].Id()) == Some(ToolSuccess)
    && Quiet(s.taken, s.armings[w.gate].taken, w.at, s.gates[w.gate].Id())
  }

  ghost predicate HasWithheld(withheld: seq<Withheld>, g: nat) {
    exists i :: 0 <= i < |withheld| && withheld[i].gate == g
  }

  ghost predicate TrafficOk(s: GateState) {
    && (forall i, j :: 0 <= i < j < |s.withheld| ==> s.withheld[i].at < s.withheld[j].at)
    && (forall i, j :: 0 <= i < j < |s.withheld| ==> s.withheld[i].gate != s.withheld[j].gate)
    && (forall i :: 0 <= i < |s.withheld| ==> WithheldOk(s, s.withheld[i]))
    && (forall g :: 0 <= g < |s.gates| && Withholds(s.gates[g]) ==> HasWithheld(s.withheld, g))
    && s.returned == Kept(s.taken, s.withheld)
    && |s.withheld| == CountWithholding(s.gates)
    && |s.armings| == |s.gates|
    && (forall g :: 0 <= g < |s.armings| ==> s.armings[g].taken <= |s.taken|)
    && (s.active.Some? ==> s.active.value < |s.gates|)
    && (s.active.Some? && Listening(s.gates[s.active.value]) ==>
          && !Withholds(s.gates[s.active.value])
          && Quiet(s.taken, s.armings[s.active.value].taken, |s.taken|, s.gates[s.active.value].Id()))
  }

  ghost predicate Inv(s: GateState) {
    Shape(s) && DisconnectsOk(s) && SendsOk(s) && TrafficOk(s)
  }

  /** The part of the invariant that is about gates, sends and the terminal operation. */
  ghost predicate Control(s: GateState) {
    Shape(s) && DisconnectsOk(s) && SendsOk(s)
  }

  // ---------------------------------------------------------------- traffic is untouched by bookkeeping

  /** The gates changed, but not in what they say about withheld messages. */
  ghost predicate SameTraffic(s: GateState, t: GateState) {
    && t.taken == s.taken && t.returned == s.returned && t.withheld == s.withheld && t.armings == s.armings
    && |t.gates| == |s.gates|
    && (forall g :: 0 <= g < |s.gates| ==> SameReport(s.gates[g], t.gates[g]))
    && (t.active.None? || t.active == s.active)
  }

  predicate SameReport(a: Gate, b: Gate) {
    a.Id() == b.Id() && Withholds(a) == Withholds(b) && (Listening(b) ==> Listening(a))
  }

  lemma {:induction false} CountSame(a: seq<Gate>, b: seq<Gate>)
    requires |a| == |b|
    requires forall g :: 0 <= g < |a| ==> Withholds(a[g]) == Withholds(b[g])
    ensures CountWithholding(a) == CountWithholding(b)
  {
    if a != [] {
      CountSame(a[..|a| - 1], b[..|b| - 1]);
    }
  }

  lemma {:induction false} CountOneMore(a: seq<Gate>, g: nat, gate: Gate)
    requires g < |a| && !Withholds(a[g]) && Withholds(gate)
    ensures CountWithholding(a[g := gate]) == CountWithholding(a) + 1
  {
    var n := |a| - 1;
    if g == n {
      assert a[g := gate][..n] == a[..n];
    } else {
      assert a[g := gate][..n] == a[..n][g := gate];
      CountOneMore(a[..n], g, gate);
    }
  }

  lemma TrafficUntouched(s: GateState, t: GateState)
    requires TrafficOk(s) && SameTraffic(s, t)
    ensures TrafficOk(t)
  {
    CountSame(s.gates, t.gates);
    forall i | 0 <= i < |t.withheld|
      ensures WithheldOk(t, t.withheld[i])
    {
      assert WithheldOk(s, s.withheld[i]);
    }
  }

  // ---------------------------------------------------------------- transitions of a disconnect gate

  lemma {:induction false} LogConcat(a: seq<Happening>, b: seq<Happening>)
    ensures StartedIn(a + b) == if StartedIn(b).Some? then StartedIn(b) else StartedIn(a)
    ensures EndedIn(a + b) == if EndedIn(b).Some? then EndedIn(b) else EndedIn(a)
    ensures StartsOnce(a) && StartsOnce(b) && (StartedIn(a).None? || StartedIn(b).None?) ==> StartsOnce(a + b)
  {
    if b == [] {
      assert a + b == a;
    } else {
      LogConcat(a, b[..|b| - 1]);
      assert (a + b)[..|a + b| - 1] == a + b[..|b| - 1];
    }
  }

  /** t is s with its disconnect gate, log and mode moved on; the rest of the control state is the same. */
  ghost predicate MovedControl(s: GateState, t: GateState, g: nat, extra: seq<Happening>) {
    && g == |s.gates| - 1 == |t.gates| - 1
    && s.gates[g].Disconnect? && t.gates[g].Disconnect?
    && (forall i :: 0 <= i < g ==> t.gates[i] == s.gates[i])
    && t.armings == s.armings
    && t.active == s.active && t.settlement == s.settlement
    && t.log == s.log + extra
    && EndedIn(extra).None? && StartsOnce(extra) && (s.mode.Some? ==> StartedIn(extra).None?)
    && t.mode == if StartedIn(extra).Some? then StartedIn(extra) else s.mode
  }

  /** The same, without any change to traffic. */
  ghost predicate Moved(s: GateState, t: GateState, g: nat, extra: seq<Happening>) {
    && MovedControl(s, t, g, extra)
    && SameReport(s.gates[g], t.gates[g])
    && t.taken == s.taken && t.returned == s.returned && t.withheld == s.withheld
  }

  lemma MovedKeepsControl(s: GateState, t: GateState, g: nat, extra: seq<Happening>)
    requires Control(s) && MovedControl(s, t, g, extra)
    requires DisconnectOk(t.gates[g].disconnect, g, Since(s, g) + extra)
    requires Moving(t.gates[g].disconnect, Since(s, g) + extra)
    requires SendsOk(t)
    ensures Control(t)
  {
    hide TrafficOk, SendsOk, DisconnectOk, StartedIn, EndedIn, StartsOnce;
    assert Since(t, g) == Since(s, g) + extra;
    LogConcat(s.log, extra);
    LogConcat(Since(s, g), extra);
  }

  lemma MovedKeepsInv(s: GateState, t: GateState, g: nat, extra: seq<Happening>)
    requires Inv(s) && Moved(s, t, g, extra)
    requires DisconnectOk(t.gates[g].disconnect, g, Since(s, g) + extra)
    requires Moving(t.gates[g].disconnect, Since(s, g) + extra)
    requires SendsOk(t)
    ensures Inv(t)
  {
    hide TrafficOk, SendsOk, DisconnectOk, StartedIn, EndedIn, StartsOnce;
    MovedKeepsControl(s, t, g, extra);
    MovedKeepsTraffic(s, t, g, extra);
  }

  lemma MovedKeepsTraffic(s: GateState, t: GateState, g: nat, extra: seq<Happening>)
    requires TrafficOk(s) && Moved(s, t, g, extra)
    ensures TrafficOk(t)
  {
    forall i | 0 <= i < |s.gates|
      ensures SameReport(s.gates[i], t.gates[i])
    {
      if i < g {
        assert t.gates[i] == s.gates[i];
      }
    }
    TrafficUntouched(s, t);
  }

  /** Sends stay right as long as an unsettled claim still knows nothing of its write. */
  lemma SendsUntouched(s: GateState, t: GateState, g: nat, extra: seq<Happening>)
    requires Shape(s) && SendsOk(s) && MovedControl(s, t, g, extra) && t.sends == s.sends
    requires |s.armings| == |s.gates| && s.armings[g].log <= |s.log|
    requires s.gates[g].disconnect.claimed ==> t.gates[g].disconnect.claimed
    requires t.gates[g].disconnect.receipt == s.gates[g].disconnect.receipt
    requires WriteRefused(g) !in extra
    ensures SendsOk(t)
  {
    hide StartedIn, EndedIn, StartsOnce;
    assert Since(t, g) == Since(s, g) + extra;
  }

  lemma StartTerminalKeepsInv(s: GateState, mode: TerminalMode)
    requires Inv(s)
    requires mode.CloseMode? ==> s.active.None? || s.gates[s.active.value].Suppression?
    ensures Inv(StartTerminal(s, mode))
  {
    hide TrafficOk, SendsOk, DisconnectOk, StartedIn, EndedIn, StartsOnce;
    if s.mode.None? {
      if s.gates != [] && s.gates[|s.gates| - 1].Disconnect? {
        StartWithDisconnect(s);
      } else {
        StartWithoutDisconnect(s, mode);
      }
    }
  }

  lemma StartWithDisconnect(s: GateState)
    requires Inv(s) && s.mode.None? && s.gates != [] && s.gates[|s.gates| - 1].Disconnect?
    ensures Inv(StartDisconnect(s))
  {
    hide TrafficOk, SendsOk, DisconnectOk, StartedIn, EndedIn, StartsOnce;
    var t, g, h := StartDisconnect(s), |s.gates| - 1, TerminalStarted(DisconnectMode);
    StartGate(s.gates[g].disconnect, g, Since(s, g));
    OneHappening(h);
    LogAppend(Since(s, g), h, g);
    SendsUntouched(s, t, g, [h]);
    MovedKeepsInv(s, t, g, [h]);
  }

  lemma StartWithoutDisconnect(s: GateState, mode: TerminalMode)
    requires Inv(s) && s.mode.None? && (s.gates == [] || s.gates[|s.gates| - 1].Suppression?)
    ensures Inv(StartTerminal(s, mode))
  {
    hide TrafficOk, SendsOk, DisconnectOk, StartedIn, EndedIn, StartsOnce;
    var t := StartTerminal(s, mode);
    LogAppend(s.log, TerminalStarted(mode), 0);
    NothingClaimed(s, t);
    TrafficUntouched(s, t);
  }

  /** Without a disconnect gate no send claims anything. */
  lemma NothingClaimed(s: GateState, t: GateState)
    requires Shape(s) && SendsOk(s) && (s.gates == [] || s.gates[|s.gates| - 1].Suppression?)
    requires t.sends == s.sends
    ensures SendsOk(t)
  {
  }

  /** A happening and the start of the disconnect it causes. */
  function Causing(h: Happening): seq<Happening> {
    [h, TerminalStarted(DisconnectMode)]
  }

  lemma CausingLog(log: seq<Happening>, h: Happening)
    requires !h.TerminalStarted? && !h.TerminalSettled?
    ensures log + Causing(h) == log + [h] + [TerminalStarted(DisconnectMode)]
    ensures EndedIn(Causing(h)).None? && StartedIn(Causing(h)) == Some(DisconnectMode) && StartsOnce(Causing(h))
    ensures StartedIn(log + Causing(h)) == Some(DisconnectMode)
  {
    assert Causing(h) == [h] + [TerminalStarted(DisconnectMode)] && [h] == [] + [h];
    LogAppend([], h, 0);
    LogAppend([h], TerminalStarted(DisconnectMode), 0);
    LogConcat(log, Causing(h));
  }

  /** A happening that starts the disconnect at once, with the gate moved on to match. */
  lemma CauseKeepsInv(s: GateState, t: GateState, g: nat, h: Happening)
    requires Inv(s) && Moved(s, t, g, Causing(h)) && !h.TerminalStarted? && !h.TerminalSettled?
    requires DisconnectOk(t.gates[g].disconnect, g, Since(s, g) + [h] + [TerminalStarted(DisconnectMode)])
    requires SendsOk(t)
    ensures Inv(t)
  {
    hide TrafficOk, SendsOk, DisconnectOk, StartedIn, EndedIn, StartsOnce;
    CausingLog(Since(s, g), h);
    MovedKeepsInv(s, t, g, Causing(h));
  }

  lemma AbortKeepsInv(s: GateState, g: nat)
    requires Inv(s)
    ensures Inv(AfterAbort(s, g))
  {
    hide TrafficOk, SendsOk, DisconnectOk, StartedIn, EndedIn, StartsOnce;
    if CanAbort(s, g) {
      AbortGate(s.gates[g].disconnect, g, Since(s, g));
      CausingLog(s.log, Aborted(g));
      SendsUntouched(s, AfterAbort(s, g), g, Causing(Aborted(g)));
      CauseKeepsInv(s, AfterAbort(s, g), g, Aborted(g));
    }
  }

  // ---------------------------------------------------------------- sends

  lemma ClaimKeepsInv(s: GateState, g: nat)
    requires Inv(s) && s.active == Some(g) && s.gates[g].Disconnect?
    ensures Inv(Claimed(s, g))
  {
    hide TrafficOk, SendsOk, DisconnectOk, StartedIn, EndedIn, StartsOnce;
    var t := Claimed(s, g);
    NoHappening(Since(s, g));
    NoHappening(s.log);
    FlagGate(s.gates[g].disconnect, g, Since(s, g), true, s.gates[g].disconnect.disconnectScheduled);
    SendsUntouched(s, t, g, []);
    MovedKeepsInv(s, t, g, []);
  }

  /** With every claiming send settled, any later knowledge about the write is fine. */
  lemma SendsAllSettled(s: GateState, t: GateState, g: nat)
    requires Shape(s) && SendsOk(s) && t.sends == s.sends
    requires forall k :: 0 <= k < |s.sends| && s.sends[k].claims.Some? ==> s.sends[k].settled
    requires g == |s.gates| - 1 == |t.gates| - 1 && t.gates[g].Disconnect? && t.gates[g].disconnect.claimed
    ensures SendsOk(t)
  {
  }

  /** A write no gate has heard of yet, or one already known to be unsettled, is refused. */
  lemma RefuseKeepsInv(s: GateState, g: nat)
    requires Inv(s) && g < |s.gates| && s.gates[g].Disconnect? && s.gates[g].disconnect.claimed
    requires s.gates[g].disconnect.receipt.None?
    requires forall k :: 0 <= k < |s.sends| && s.sends[k].claims.Some? ==> s.sends[k].settled
    ensures Inv(Refuse(s, g))
  {
    hide TrafficOk, SendsOk, DisconnectOk, StartedIn, EndedIn, StartsOnce;
    var t, h := Refuse(s, g), WriteRefused(g);
    SendsAllSettled(s, t, g);
    RefuseGate(s.gates[g].disconnect, g, Since(s, g));
    if s.mode.None? {
      CausingLog(s.log, h);
      assert Moved(s, t, g, Causing(h));
      CauseKeepsInv(s, t, g, h);
    } else {
      RefusedLateKeepsInv(s, g);
    }
  }

  lemma RefusedLateKeepsInv(s: GateState, g: nat)
    requires Inv(s) && g < |s.gates| && s.gates[g].Disconnect? && s.gates[g].disconnect.receipt.None?
    requires s.mode.Some? && SendsOk(Refuse(s, g))
    requires DisconnectOk(Refuse(s, g).gates[g].disconnect, g, Since(s, g) + [WriteRefused(g)])
    ensures Inv(Refuse(s, g))
  {
    hide TrafficOk, SendsOk, DisconnectOk, StartedIn, EndedIn, StartsOnce;
    var t, h := Refuse(s, g), WriteRefused(g);
    OneHappening(h);
    LogAppend(Since(s, g), h, g);
    assert Moved(s, t, g, [h]);
    MovedKeepsInv(s, t, g, [h]);
  }

  lemma AcceptKeepsInv(s: GateState, g: nat, receipt: Receipt)
    requires Inv(s) && g < |s.gates| && s.gates[g].Disconnect? && s.gates[g].disconnect.claimed
    requires s.gates[g].disconnect.receipt.None? && !RefusedIn(Since(s, g), g)
    requires forall k :: 0 <= k < |s.sends| && s.sends[k].claims.Some? ==> s.sends[k].settled
    ensures Inv(Accept(s, g, receipt))
  {
    hide TrafficOk, SendsOk, DisconnectOk, StartedIn, EndedIn, StartsOnce;
    if Accept(s, g, receipt).mode == s.mode {
      var t, h := Accept(s, g, receipt), WriteAccepted(g, receipt);
      SendsAllSettled(s, t, g);
      AcceptGate(s.gates[g].disconnect, g, Since(s, g), receipt);
      FlagGate(TryResolveTrigger(s.gates[g].disconnect.(receipt := Some(receipt))), g, Since(s, g) + [h], true,
               t.gates[g].disconnect.disconnectScheduled);
      OneHappening(h);
      LogAppend(Since(s, g), h, g);
      assert Moved(s, t, g, [h]);
      MovedKeepsInv(s, t, g, [h]);
    } else {
      AcceptStartKeepsInv(s, g, receipt);
    }
  }

  /** The response came first, so the accepted write starts the disconnect at once. */
  lemma AcceptStartKeepsInv(s: GateState, g: nat, receipt: Receipt)
    requires Inv(s) && g < |s.gates| && s.gates[g].Disconnect? && s.gates[g].disconnect.claimed
    requires s.gates[g].disconnect.receipt.None? && !RefusedIn(Since(s, g), g)
    requires forall k :: 0 <= k < |s.sends| && s.sends[k].claims.Some? ==> s.sends[k].settled
    requires Accept(s, g, receipt).mode != s.mode
    ensures Inv(Accept(s, g, receipt))
  {
    hide TrafficOk, SendsOk, DisconnectOk, StartedIn, EndedIn, StartsOnce;
    var t, h := Accept(s, g, receipt), WriteAccepted(g, receipt);
    SendsAllSettled(s, t, g);
    AcceptGate(s.gates[g].disconnect, g, Since(s, g), receipt);
    LogAppend(Since(s, g), h, g);
    StartGate(TryResolveTrigger(s.gates[g].disconnect.(receipt := Some(receipt))), g, Since(s, g) + [h]);
    CausingLog(s.log, h);
    assert Moved(s, t, g, Causing(h));
    CauseKeepsInv(s, t, g, h);
  }

  /** Gates, log and terminal fields are the same. */
  ghost predicate SameGates(s: GateState, t: GateState) {
    && t.gates == s.gates && t.active == s.active && t.mode == s.mode && t.settlement == s.settlement
    && t.log == s.log && t.armings == s.armings
  }

  lemma GatesFrame(s: GateState, t: GateState)
    requires Shape(s) && DisconnectsOk(s) && SameGates(s, t)
    ensures Shape(t) && DisconnectsOk(t) && forall g: nat :: Since(t, g) == Since(s, g)
  {
    hide DisconnectOk, Moving, StartedIn, EndedIn, StartsOnce;
    assert forall g: nat :: Since(t, g) == Since(s, g);
  }

  lemma SendSettledKeepsInv(s: GateState, k: nat)
    requires Inv(s) && k < |s.sends|
    ensures Inv(SendSettled(s, k))
  {
    hide Shape, DisconnectsOk, TrafficOk;
    var t := SendSettled(s, k);
    GatesFrame(s, t);
    TrafficUntouched(s, t);
  }

  /** The claiming send is the only one, and its gate has not heard of the write. */
  lemma ClaimIsFresh(s: GateState, k: nat, g: nat)
    requires Inv(s) && SendPending(s, k) && ClaimedBy(s, k) == Some(g)
    ensures s.gates[g].disconnect.claimed && s.gates[g].disconnect.receipt.None?
    ensures !RefusedIn(Since(s, g), g) && Since(SendSettled(s, k), g) == Since(s, g)
    ensures forall j :: 0 <= j < |s.sends| && SendSettled(s, k).sends[j].claims.Some? ==>
              SendSettled(s, k).sends[j].settled
  {
  }

  lemma SendAcceptedKeepsInv(s: GateState, k: nat, receipt: Receipt)
    requires Inv(s)
    ensures Inv(AfterSendAccepted(s, k, receipt))
  {
    hide TrafficOk, SendsOk, DisconnectOk, StartedIn, EndedIn, StartsOnce;
    if SendPending(s, k) {
      SendSettledKeepsInv(s, k);
      if ClaimedBy(s, k).Some? {
        ClaimIsFresh(s, k, ClaimedBy(s, k).value);
        AcceptKeepsInv(SendSettled(s, k), ClaimedBy(s, k).value, receipt);
      }
    }
  }

  lemma SendRefusedKeepsInv(s: GateState, k: nat)
    requires Inv(s)
    ensures Inv(AfterSendRefused(s, k))
  {
    hide TrafficOk, SendsOk, DisconnectOk, StartedIn, EndedIn, StartsOnce;
    if SendPending(s, k) {
      SendSettledKeepsInv(s, k);
      if ClaimedBy(s, k).Some? {
        ClaimIsFresh(s, k, ClaimedBy(s, k).value);
        RefuseKeepsInv(SendSettled(s, k), ClaimedBy(s, k).value);
      }
    }
  }

  lemma NewSendKeepsInv(s: GateState, claim: Option<nat>)
    requires Inv(s)
    requires claim.Some? ==>
               && claim.value < |s.gates| && s.gates[claim.value].Disconnect? && s.gates[claim.value].disconnect.claimed
               && s.gates[claim.value].disconnect.receipt.None? && !RefusedIn(Since(s, claim.value), claim.value)
               && forall k :: 0 <= k < |s.sends| ==> s.sends[k].claims.None?
    ensures Inv(s.(sends := s.sends + [SentMessage(claim, false)]))
  {
    hide Shape, DisconnectsOk, TrafficOk;
    var t := s.(sends := s.sends + [SentMessage(claim, false)]);
    GatesFrame(s, t);
    TrafficUntouched(s, t);
  }

  /** Before a disconnect gate is claimed nothing is known of a write, and no send claims it. */
  lemma UnclaimedIsUnsent(s: GateState, g: nat)
    requires Inv(s) && s.active == Some(g) && s.gates[g].Disconnect? && !s.gates[g].disconnect.claimed
    ensures s.gates[g].disconnect.receipt.None? && !RefusedIn(Since(s, g), g)
    ensures forall k :: 0 <= k < |s.sends| ==> s.sends[k].claims.None?
  {
  }

  lemma SendKeepsInv(s: GateState, message: Message, throws: bool)
    requires Inv(s)
    ensures Inv(AfterSend(s, message, throws))
  {
    hide Inv;
    if s.mode.None? {
      var claim := Claim(s, message);
      if claim.Some? {
        var g := claim.value;
        ClaimKeepsInv(s, g);
        UnclaimedIsUnsent(s, g);
        var t := Claimed(s, g);
        assert Since(t, g) == Since(s, g);
        if throws {
          RefuseKeepsInv(t, g);
        } else {
          NewSendKeepsInv(t, claim);
        }
      } else if !throws {
        NewSendKeepsInv(s, None);
      }
    }
  }

  lemma ImmediateKeepsInv(s: GateState, g: nat)
    requires Inv(s)
    ensures Inv(AfterImmediate(s, g))
  {
    hide TrafficOk, SendsOk, DisconnectOk, StartedIn, EndedIn, StartsOnce;
    if g < |s.gates| && s.gates[g].Disconnect? && s.gates[g].disconnect.disconnectScheduled {
      if AfterImmediate(s, g).mode == s.mode {
        var t := AfterImmediate(s, g);
        FlagGate(s.gates[g].disconnect, g, Since(s, g), s.gates[g].disconnect.claimed, false);
        NoHappening(Since(s, g));
        NoHappening(s.log);
        assert Moved(s, t, g, []);
        SendsUntouched(s, t, g, []);
        MovedKeepsInv(s, t, g, []);
      } else {
        ImmediateStartKeepsInv(s, g);
      }
    }
  }

  lemma ImmediateStartKeepsInv(s: GateState, g: nat)
    requires Inv(s) && g < |s.gates| && s.gates[g].Disconnect? && s.gates[g].disconnect.disconnectScheduled
    requires AfterImmediate(s, g).mode != s.mode
    ensures Inv(AfterImmediate(s, g))
  {
    hide TrafficOk, SendsOk, DisconnectOk, StartedIn, EndedIn, StartsOnce;
    var t, h := AfterImmediate(s, g), TerminalStarted(DisconnectMode);
    FlagGate(s.gates[g].disconnect, g, Since(s, g), s.gates[g].disconnect.claimed, false);
    StartGate(s.gates[g].disconnect.(disconnectScheduled := false), g, Since(s, g));
    OneHappening(h);
    LogAppend(Since(s, g), h, g);
    assert Moved(s, t, g, [h]);
    SendsUntouched(s, t, g, [h]);
    MovedKeepsInv(s, t, g, [h]);
  }

  // ---------------------------------------------------------------- arming and releasing

  lemma NewGateIsOk(requestId: RequestId, g: nat)
    ensures DisconnectOk(NewDisconnect(requestId), g, []) && Moving(NewDisconnect(requestId), [])
  {
  }

  lemma ArmKeepsInv(s: GateState, gate: Gate)
    requires Inv(s) && s.active.None? && s.mode.None?
    requires gate.Suppression? ==> gate.suppression == NewSuppression(gate.Id())
    requires gate.Disconnect? ==> gate.disconnect == NewDisconnect(gate.Id())
    ensures Inv(Arm(s, gate))
  {
    hide TrafficOk, SendsOk, DisconnectsOk, StartsOnce;
    assert s.gates == [] || s.gates[|s.gates| - 1].Suppression?;
    NothingClaimed(s, Arm(s, gate));
    hide Shape;
    ArmKeepsGates(s, gate);
    ArmKeepsTraffic(s, gate);
  }

  lemma ArmKeepsGates(s: GateState, gate: Gate)
    requires Shape(s) && s.active.None? && s.mode.None?
    requires gate.Suppression? ==> gate.suppression == NewSuppression(gate.Id())
    requires gate.Disconnect? ==> gate.disconnect == NewDisconnect(gate.Id())
    ensures Shape(Arm(s, gate)) && DisconnectsOk(Arm(s, gate))
  {
    hide DisconnectOk, Moving, StartsOnce;
    var t := Arm(s, gate);
    NoHappening([]);
    NewGateIsOk(gate.Id(), |s.gates|);
    assert t.gates[..|s.gates|] == s.gates;
    assert Since(t, |s.gates|) == [];
  }

  lemma ArmKeepsTraffic(s: GateState, gate: Gate)
    requires TrafficOk(s) && !Withholds(gate)
    ensures TrafficOk(Arm(s, gate))
  {
    var t := Arm(s, gate);
    assert t.gates[..|s.gates|] == s.gates;
    forall i | 0 <= i < |t.withheld|
      ensures WithheldOk(t, t.withheld[i])
    {
      assert WithheldOk(s, s.withheld[i]);
    }
  }

  /** Releasing the active suppression gate with an outcome that withholds nothing. */
  lemma ReleaseKeepsInv(s: GateState, outcome: Promise<Observation, GateFailure>)
    requires Inv(s) && ActiveGate(s).Some? && ActiveGate(s).value.Suppression?
    requires !outcome.Pending? && (outcome.Fulfilled? ==> outcome.value.Forwarded?)
    ensures Inv(ReleaseSuppression(s, outcome))
  {
    hide TrafficOk, SendsOk, DisconnectOk, StartedIn, EndedIn, StartsOnce;
    var t := ReleaseSuppression(s, outcome);
    ReleaseKeepsShape(s, outcome);
    TrafficUntouched(s, t);
  }

  lemma ReleaseKeepsShape(s: GateState, outcome: Promise<Observation, GateFailure>)
    requires Shape(s) && DisconnectsOk(s) && SendsOk(s)
    requires ActiveGate(s).Some? && ActiveGate(s).value.Suppression? && !outcome.Pending?
    ensures Shape(ReleaseSuppression(s, outcome)) && DisconnectsOk(ReleaseSuppression(s, outcome))
    ensures SendsOk(ReleaseSuppression(s, outcome))
  {
    var t, g := ReleaseSuppression(s, outcome), s.active.value;
    assert forall i :: 0 <= i < |s.gates| && i != g ==> t.gates[i] == s.gates[i];
    assert forall i :: 0 <= i < |s.gates| ==> Since(t, i) == Since(s, i);
  }

  // ---------------------------------------------------------------- receiving

  lemma ReceiversKeepInv(s: GateState, receivers: nat)
    requires Inv(s)
    ensures Inv(s.(receivers := receivers))
  {
    hide Shape, DisconnectsOk, TrafficOk;
    var t := s.(receivers := receivers);
    GatesFrame(s, t);
    TrafficUntouched(s, t);
  }

  lemma ReceiveFailsKeepsInv(s: GateState)
    requires Inv(s)
    ensures Inv(AfterReceiveFails(s))
  {
    hide TrafficOk, SendsOk, DisconnectOk, StartedIn, EndedIn, StartsOnce;
    ReceiversKeepInv(s, if s.receivers > 0 then s.receivers - 1 else 0);
    FailureKeepsInv(OneReceiverLess(s));
  }

  lemma SignalKeepsInv(s: GateState)
    requires Inv(s)
    ensures Inv(AfterSignal(s))
  {
    hide TrafficOk, SendsOk, DisconnectOk, StartedIn, EndedIn, StartsOnce;
    ReceiversKeepInv(s, if s.receivers > 0 then s.receivers - 1 else 0);
    if s.mode.Some? {
      HandledFailureKeepsInv(OneReceiverLess(s));
    }
  }

  /** A receive failure that no disconnect gate minds. */
  lemma NoteKeepsInv(s: GateState)
    requires Inv(s)
    requires s.gates == [] || s.gates[|s.gates| - 1].Suppression? || s.mode.Some?
    ensures Inv(s.(log := s.log + [ReceiveFailed]))
  {
    hide TrafficOk, SendsOk, DisconnectOk, StartedIn, EndedIn, StartsOnce;
    var t, g := s.(log := s.log + [ReceiveFailed]), |s.gates| - 1;
    if s.gates != [] && s.gates[g].Disconnect? {
      NoteKeepsDisconnect(s, g);
    } else {
      LogAppend(s.log, ReceiveFailed, 0);
      NothingClaimed(s, t);
      TrafficUntouched(s, t);
    }
  }

  lemma NoteKeepsDisconnect(s: GateState, g: nat)
    requires Inv(s) && s.mode.Some? && g == |s.gates| - 1 && s.gates[g].Disconnect?
    ensures Inv(s.(log := s.log + [ReceiveFailed]))
  {
    hide TrafficOk, SendsOk, DisconnectOk, StartedIn, EndedIn, StartsOnce;
    var t, h := s.(log := s.log + [ReceiveFailed]), ReceiveFailed;
    OneHappening(h);
    LogAppend(Since(s, g), h, g);
    NoteGate(s.gates[g].disconnect, g, Since(s, g));
    assert Moved(s, t, g, [h]);
    SendsUntouched(s, t, g, [h]);
    MovedKeepsInv(s, t, g, [h]);
  }

  lemma FailureKeepsInv(s: GateState)
    requires Inv(s)
    ensures Inv(HandleReceiveFailure(s.(log := s.log + [ReceiveFailed])))
  {
    hide TrafficOk, SendsOk, DisconnectOk, StartedIn, EndedIn, StartsOnce;
    if s.active.None? || s.gates[s.active.value].Suppression? || s.mode.Some? {
      NoteKeepsInv(s);
      HandledFailureKeepsInv(s.(log := s.log + [ReceiveFailed]));
    } else {
      EarlyFailureKeepsInv(s);
    }
  }

  lemma HandledFailureKeepsInv(s: GateState)
    requires Inv(s)
    requires s.active.Some? && s.gates[s.active.value].Disconnect? ==> s.mode.Some?
    ensures Inv(HandleReceiveFailure(s))
  {
    hide TrafficOk, SendsOk, DisconnectOk, StartedIn, EndedIn, StartsOnce;
    if s.active.Some? && s.gates[s.active.value].Suppression? {
      ReleaseKeepsInv(s, Rejected(TransportTerminated));
      StartTerminalKeepsInv(ReleaseSuppression(s, Rejected(TransportTerminated)), DisconnectMode);
    } else if s.active.Some? {
      LateFailureKeepsInv(s);
    }
  }

  lemma LateFailureKeepsInv(s: GateState)
    requires Inv(s) && s.mode.Some? && ActiveGate(s).Some? && ActiveGate(s).value.Disconnect?
    ensures Inv(HandleReceiveFailure(s))
  {
    hide TrafficOk, SendsOk, DisconnectOk, StartedIn, EndedIn, StartsOnce;
    var t, g := HandleReceiveFailure(s), s.active.value;
    FailGateLate(s.gates[g].disconnect, g, Since(s, g));
    NoHappening(Since(s, g));
    NoHappening(s.log);
    assert Moved(s, t, g, []);
    SendsUntouched(s, t, g, []);
    MovedKeepsInv(s, t, g, []);
  }

  lemma EarlyFailureKeepsInv(s: GateState)
    requires Inv(s) && s.mode.None? && ActiveGate(s).Some? && ActiveGate(s).value.Disconnect?
    ensures Inv(HandleReceiveFailure(s.(log := s.log + [ReceiveFailed])))
  {
    hide TrafficOk, SendsOk, DisconnectOk, StartedIn, EndedIn, StartsOnce;
    var t, g := HandleReceiveFailure(s.(log := s.log + [ReceiveFailed])), s.active.value;
    FailGateEarly(s.gates[g].disconnect, g, Since(s, g));
    CausingLog(s.log, ReceiveFailed);
    assert Moved(s, t, g, Causing(ReceiveFailed));
    SendsUntouched(s, t, g, Causing(ReceiveFailed));
    CauseKeepsInv(s, t, g, ReceiveFailed);
  }

  lemma TerminalSettlesKeepsInv(s: GateState, outcome: Settlement)
    requires Inv(s)
    ensures Inv(AfterTerminalSettles(s, outcome))
  {
    hide TrafficOk, SendsOk, DisconnectOk, StartedIn, EndedIn, StartsOnce;
    if s.mode.Some? && s.settlement.None? {
      if s.gates != [] && s.gates[|s.gates| - 1].Disconnect? {
        EndWithDisconnect(s, |s.gates| - 1, outcome);
      } else {
        EndWithoutDisconnect(s, outcome);
      }
    }
  }

  lemma EndWithDisconnect(s: GateState, g: nat, outcome: Settlement)
    requires Inv(s) && s.mode.Some? && s.settlement.None?
    requires g == |s.gates| - 1 && s.gates[g].Disconnect?
    ensures Inv(AfterTerminalSettles(s, outcome))
  {
    hide TrafficOk, SendsOk, DisconnectOk, StartedIn, EndedIn, StartsOnce;
    var h, t := TerminalSettled(outcome.Ended?), AfterTerminalSettles(s, outcome);
    EndEffect(s, g, outcome);
    LogAppend(s.log, h, g);
    LogAppend(Since(s, g), h, g);
    EndKeepsSends(s, t, g, h);
    TrafficUntouched(s, t);
  }

  lemma EndEffect(s: GateState, g: nat, outcome: Settlement)
    requires Inv(s) && s.mode.Some? && s.settlement.None?
    requires g == |s.gates| - 1 && s.gates[g].Disconnect?
    ensures var t := AfterTerminalSettles(s, outcome);
            && |t.gates| == |s.gates| && t.gates[g].Disconnect? && SameReport(s.gates[g], t.gates[g])
            && (forall i :: 0 <= i < g ==> t.gates[i] == s.gates[i])
            && t == s.(settlement := Some(outcome), log := s.log + [TerminalSettled(outcome.Ended?)], active := None,
                       gates := t.gates)
            && t.gates[g].disconnect.receipt == s.gates[g].disconnect.receipt
            && t.gates[g].disconnect.claimed == s.gates[g].disconnect.claimed
            && Since(t, g) == Since(s, g) + [TerminalSettled(outcome.Ended?)]
            && DisconnectOk(t.gates[g].disconnect, g, Since(t, g))
  {
    var h, t := TerminalSettled(outcome.Ended?), AfterTerminalSettles(s, outcome);
    assert ActiveGate(s.(settlement := Some(outcome), log := s.log + [h])) == Some(s.gates[g]);
    assert t.log == s.log + [h] && t.gates[g].Disconnect?;
    EndGate(s.gates[g].disconnect, g, Since(s, g), outcome);
  }

  lemma EndKeepsSends(s: GateState, t: GateState, g: nat, h: Happening)
    requires Shape(s) && SendsOk(s) && g == |s.gates| - 1 == |t.gates| - 1 && h.TerminalSettled?
    requires s.gates[g].Disconnect? && t.gates[g].Disconnect? && t.sends == s.sends
    requires Since(t, g) == Since(s, g) + [h]
    requires t.gates[g].disconnect.receipt == s.gates[g].disconnect.receipt
    requires t.gates[g].disconnect.claimed == s.gates[g].disconnect.claimed
    ensures SendsOk(t)
  {
  }

  lemma EndWithoutDisconnect(s: GateState, outcome: Settlement)
    requires Inv(s) && s.mode.Some? && s.settlement.None?
    requires s.gates == [] || s.gates[|s.gates| - 1].Suppression?
    ensures Inv(AfterTerminalSettles(s, outcome))
  {
    hide TrafficOk, SendsOk, DisconnectOk, Moving, StartedIn, EndedIn, StartsOnce;
    var t := AfterTerminalSettles(s, outcome);
    LogAppend(s.log, TerminalSettled(outcome.Ended?), 0);
    NothingClaimed(s, t);
    TrafficUntouched(s, t);
  }

  // ---------------------------------------------------------------- delivering

  /** The control state does not depend on the messages. */
  lemma ControlFrame(s: GateState, t: GateState)
    requires Control(s)
    requires t == s.(taken := t.taken, returned := t.returned, withheld := t.withheld, receivers := t.receivers)
    ensures Control(t)
  {
    hide Shape, DisconnectsOk;
    GatesFrame(s, t);
  }

  lemma KeptAppend(taken: seq<Message>, withheld: seq<Withheld>, message: Message)
    requires withheld != [] ==> withheld[|withheld| - 1].at < |taken|
    ensures Kept(taken + [message], withheld) == Kept(taken, withheld) + [message]
    ensures forall g :: Kept(taken + [message], withheld + [Withheld(g, |taken|)]) == Kept(taken, withheld)
  {
    assert (taken + [message])[..|taken|] == taken;
    forall g
      ensures Kept(taken + [message], withheld + [Withheld(g, |taken|)]) == Kept(taken, withheld)
    {
      assert (withheld + [Withheld(g, |taken|)])[..|withheld|] == withheld;
    }
  }

  /** A message no listening gate classifies is taken and returned. */
  function TakeAndReturn(s: GateState, message: Message): GateState {
    Return(s.(taken := s.taken + [message]), message)
  }

  lemma ReturnKeepsInv(s: GateState, message: Message)
    requires Inv(s)
    requires s.active.Some? && Listening(s.gates[s.active.value]) ==>
               ClassifyResponse(message, s.gates[s.active.value].Id()).None?
    ensures Inv(TakeAndReturn(s, message))
  {
    hide Shape, DisconnectsOk, SendsOk, Kept, CountWithholding, HasWithheld;
    var t := TakeAndReturn(s, message);
    ControlFrame(s, t);
    KeptAppend(s.taken, s.withheld, message);
    forall i | 0 <= i < |t.withheld|
      ensures WithheldOk(t, t.withheld[i])
    {
      assert WithheldOk(s, s.withheld[i]);
    }
  }

  lemma WithheldGatesGrow(s: GateState, t: GateState, g: nat)
    requires forall i :: 0 <= i < |s.gates| && Withholds(s.gates[i]) ==> HasWithheld(s.withheld, i)
    requires |t.gates| == |s.gates| && forall i :: 0 <= i < |s.gates| && i != g ==> t.gates[i] == s.gates[i]
    requires t.withheld == s.withheld + [Withheld(g, |s.taken|)]
    ensures forall i :: 0 <= i < |t.gates| && Withholds(t.gates[i]) ==> HasWithheld(t.withheld, i)
  {
    assert t.withheld[|s.withheld|].gate == g;
    forall i | 0 <= i < |t.gates| && Withholds(t.gates[i])
      ensures HasWithheld(t.withheld, i)
    {
      if i != g {
        assert HasWithheld(s.withheld, i);
        var k :| 0 <= k < |s.withheld| && s.withheld[k].gate == i;
        assert t.withheld[k].gate == i;
      }
    }
  }

  /** A gate starts to report that it withheld the message just taken. */
  lemma WithholdKeepsTraffic(s: GateState, t: GateState, g: nat, gate: Gate, message: Message)
    requires TrafficOk(s) && s.active == Some(g) && g < |s.gates| && Listening(s.gates[g])
    requires ClassifyResponse(message, s.gates[g].Id()) == Some(ToolSuccess)
    requires Withholds(gate) && gate.Id() == s.gates[g].Id()
    requires t.armings == s.armings
    requires t.gates == s.gates[g := gate] && t.taken == s.taken + [message] && t.returned == s.returned
    requires t.withheld == s.withheld + [Withheld(g, |s.taken|)]
    requires t.active.None? || (t.active == Some(g) && !Listening(gate))
    ensures TrafficOk(t)
  {
    hide Kept, CountWithholding, HasWithheld, ClassifyResponse;
    WithheldGatesGrow(s, t, g);
    KeptAppend(s.taken, s.withheld, message);
    CountOneMore(s.gates, g, gate);
    forall i | 0 <= i < |t.withheld|
      ensures WithheldOk(t, t.withheld[i])
    {
      if i < |s.withheld| {
        assert WithheldOk(s, s.withheld[i]);
      }
    }
  }

  lemma SuppressionResponseKeepsInv(s: GateState, message: Message, kind: ResponseKind)
    requires Inv(s) && ActiveGate(s).Some? && ActiveGate(s).value.Suppression?
    requires ClassifyResponse(message, ActiveGate(s).value.Id()) == Some(kind)
    ensures Inv(SuppressionResponse(s.(taken := s.taken + [message]), message, kind))
  {
    hide TrafficOk, SendsOk, DisconnectOk, StartedIn, EndedIn, StartsOnce;
    var t := SuppressionResponse(s.(taken := s.taken + [message]), message, kind);
    var g, id := s.active.value, ActiveGate(s).value.Id();
    if kind.ToolSuccess? {
      var released := ReleaseSuppression(s, Fulfilled(Suppressed(id)));
      ReleaseKeepsShape(s, Fulfilled(Suppressed(id)));
      ControlFrame(released, t);
      WithholdKeepsTraffic(s, t, g, released.gates[g], message);
    } else {
      ReleaseKeepsInv(s, Fulfilled(Forwarded(id, kind)));
      ReturnKeepsInv(ReleaseSuppression(s, Fulfilled(Forwarded(id, kind))), message);
    }
  }

  /** The active disconnect gate has had its response; a known receipt starts the disconnect. */
  function Responded(s: GateState, intercepted: bool): GateState
    requires ActiveGate(s).Some? && ActiveGate(s).value.Disconnect?
  {
    var g := s.active.value;
    var gate := s.gates[g].disconnect.(
                  responseHandled := true,
                  responseIntercepted := s.gates[g].disconnect.responseIntercepted || intercepted);
    if gate.receipt.Some? then StartDisconnect(SetDisconnect(s, g, gate)) else SetDisconnect(s, g, gate)
  }

  lemma RespondedMoves(s: GateState, intercepted: bool, extra: seq<Happening>)
    requires Inv(s) && ActiveGate(s).Some? && ActiveGate(s).value.Disconnect?
    requires !ActiveGate(s).value.disconnect.responseHandled
    requires extra == if Responded(s, intercepted).mode == s.mode then [] else [TerminalStarted(DisconnectMode)]
    ensures var t, g := Responded(s, intercepted), s.active.value;
            && MovedControl(s, t, g, extra)
            && DisconnectOk(t.gates[g].disconnect, g, Since(s, g) + extra)
            && Moving(t.gates[g].disconnect, Since(s, g) + extra)
  {
    hide TrafficOk, SendsOk, DisconnectOk, StartedIn, EndedIn, StartsOnce;
    var t, g := Responded(s, intercepted), s.active.value;
    HandleGate(s.gates[g].disconnect, g, Since(s, g), intercepted);
    if extra != [] {
      StartGate(t.gates[g].disconnect, g, Since(s, g));
      OneHappening(TerminalStarted(DisconnectMode));
      LogAppend(Since(s, g), TerminalStarted(DisconnectMode), g);
    } else {
      NoHappening(Since(s, g));
      NoHappening(s.log);
    }
  }

  lemma RespondedKeepsControl(s: GateState, intercepted: bool)
    requires Inv(s) && ActiveGate(s).Some? && ActiveGate(s).value.Disconnect?
    requires !ActiveGate(s).value.disconnect.responseHandled
    ensures Control(Responded(s, intercepted))
    ensures !intercepted ==> Inv(Responded(s, intercepted))
  {
    hide TrafficOk, SendsOk, DisconnectOk, StartedIn, EndedIn, StartsOnce;
    var t, g := Responded(s, intercepted), s.active.value;
    var extra := if t.mode == s.mode then [] else [TerminalStarted(DisconnectMode)];
    RespondedMoves(s, intercepted, extra);
    SendsUntouched(s, t, g, extra);
    MovedKeepsControl(s, t, g, extra);
    if !intercepted {
      MovedKeepsTraffic(s, t, g, extra);
    }
  }

  /** The response is handled as if the gate took note of it first and the message then went its way. */
  lemma ResponseInTwoSteps(s: GateState, message: Message, kind: ResponseKind)
    requires Inv(s) && ActiveGate(s).Some? && ActiveGate(s).value.Disconnect?
    requires !ActiveGate(s).value.disconnect.responseHandled
    ensures var u := Responded(s, kind.ToolSuccess?).(taken := s.taken + [message]);
            DisconnectResponse(s.(taken := s.taken + [message]), message, kind)
            == if kind.ToolSuccess? then Withhold(u, s.active.value) else Return(u, message)
  {
    hide TrafficOk, SendsOk, DisconnectOk, StartedIn, EndedIn, StartsOnce;
    var g := s.active.value;
    HandleGate(s.gates[g].disconnect, g, Since(s, g), kind.ToolSuccess?);
  }

  lemma DisconnectResponseKeepsInv(s: GateState, message: Message, kind: ResponseKind)
    requires Inv(s) && ActiveGate(s).Some? && ActiveGate(s).value.Disconnect?
    requires !ActiveGate(s).value.disconnect.responseHandled
    requires ClassifyResponse(message, ActiveGate(s).value.Id()) == Some(kind)
    ensures Inv(DisconnectResponse(s.(taken := s.taken + [message]), message, kind))
  {
    hide Shape, DisconnectsOk, SendsOk, TrafficOk;
    var g, u := s.active.value, Responded(s, kind.ToolSuccess?);
    ResponseInTwoSteps(s, message, kind);
    RespondedKeepsControl(s, kind.ToolSuccess?);
    if kind.ToolSuccess? {
      var t := Withhold(u.(taken := s.taken + [message]), g);
      ControlFrame(u, t);
      WithholdKeepsTraffic(s, t, g, u.gates[g], message);
    } else {
      ReturnKeepsInv(u, message);
    }
  }

  lemma DeliverKeepsInv(s: GateState, message: Message)
    requires Inv(s)
    ensures Inv(AfterDeliver(s, message))
  {
    hide TrafficOk, SendsOk, DisconnectOk, StartedIn, EndedIn, StartsOnce;
    if s.receivers > 0 {
      if s.active.Some? && Listening(s.gates[s.active.value])
         && ClassifyResponse(message, s.gates[s.active.value].Id()).Some? {
        var kind := ClassifyResponse(message, s.gates[s.active.value].Id()).value;
        if s.gates[s.active.value].Suppression? {
          SuppressionResponseKeepsInv(s, message, kind);
        } else {
          DisconnectResponseKeepsInv(s, message, kind);
        }
      } else {
        ReturnKeepsInv(s, message);
      }
    }
  }

  lemma ArmCallKeepsInv(s: GateState, requestId: RequestId)
    requires Inv(s)
    ensures Inv(AfterArmSuppression(s, requestId)) && Inv(AfterArmDisconnect(s, requestId))
  {
    hide TrafficOk, SendsOk, DisconnectOk, StartedIn, EndedIn, StartsOnce;
    if ArmFault(s, requestId).None? {
      ArmKeepsInv(s, Suppression(NewSuppression(requestId)));
      ArmKeepsInv(s, Disconnect(NewDisconnect(requestId)));
    }
  }

  lemma DisarmKeepsInv(s: GateState, g: nat)
    requires Inv(s)
    ensures Inv(AfterDisarm(s, g))
  {
    hide TrafficOk, SendsOk, DisconnectOk, StartedIn, EndedIn, StartsOnce;
    if CanDisarm(s, g) {
      ReleaseKeepsInv(s, Rejected(Disarmed));
    }
  }

  lemma CloseKeepsInv(s: GateState)
    requires Inv(s)
    ensures Inv(AfterClose(s)) && Inv(AfterDisconnectCall(s))
  {
    hide TrafficOk, SendsOk, DisconnectOk, StartedIn, EndedIn, StartsOnce;
    StartTerminalKeepsInv(s, DisconnectMode);
    if s.active.None? || s.gates[s.active.value].Suppression? {
      StartTerminalKeepsInv(s, CloseMode);
    }
  }

  lemma CallKeepsInv(s: GateState, e: Event)
    requires Inv(s) && (e.ArmSuppression? || e.ArmDisconnect? || e.DisarmLease? || e.AbortLease? || e.SendCall?
                        || e.ReceiveCall? || e.CloseCall? || e.DisconnectCall?)
    ensures Inv(Step(s, e))
  {
    hide TrafficOk, SendsOk, DisconnectOk, StartedIn, EndedIn, StartsOnce;
    match e
    case ArmSuppression(requestId) => ArmCallKeepsInv(s, requestId);
    case ArmDisconnect(requestId) => ArmCallKeepsInv(s, requestId);
    case DisarmLease(g) => DisarmKeepsInv(s, g);
    case AbortLease(g) => AbortKeepsInv(s, g);
    case SendCall(message, throws) => SendKeepsInv(s, message, throws);
    case ReceiveCall => ReceiversKeepInv(s, s.receivers + 1);
    case CloseCall => CloseKeepsInv(s);
    case DisconnectCall => CloseKeepsInv(s);
  }

  lemma StepKeepsInv(s: GateState, e: Event)
    requires Inv(s)
    ensures Inv(Step(s, e))
  {
    hide TrafficOk, SendsOk, DisconnectOk, StartedIn, EndedIn, StartsOnce;
    match e
    case SendAccepted(k, receipt) => SendAcceptedKeepsInv(s, k, receipt);
    case SendRefused(k) => SendRefusedKeepsInv(s, k);
    case Deliver(message) => DeliverKeepsInv(s, message);
    case ReceiveFails => ReceiveFailsKeepsInv(s);
    case SignalReceiver => SignalKeepsInv(s);
    case ImmediateFires(g) => ImmediateKeepsInv(s, g);
    case TerminalSettles(outcome) => TerminalSettlesKeepsInv(s, outcome);
    case _ => CallKeepsInv(s, e);
  }

  // ---------------------------------------------------------------- facts for callers

  lemma ActiveIsArmed(s: GateState)
    requires Inv(s)
    ensures s.active.Some? ==> s.active.value < |s.gates|
  {
  }

  lemma ClaimsAreDisconnects(s: GateState, k: nat)
    requires Inv(s) && k < |s.sends|
    ensures s.sends[k].claims.Some? ==>
              s.sends[k].claims.value < |s.gates| && s.gates[s.sends[k].claims.value].Disconnect?
  {
  }

  // ---------------------------------------------------------------- over whole runs

  function Run(events: seq<Event>): GateState {
    if events == [] then Initial() else Step(Run(events[..|events| - 1]), events[|events| - 1])
  }

  /** The invariant holds after any sequence of events. */
  lemma {:induction false} RunKeepsInv(events: seq<Event>)
    ensures Inv(Run(events))
  {
    if events != [] {
      RunKeepsInv(events[..|events| - 1]);
      StepKeepsInv(Run(events[..|events| - 1]), events[|events| - 1]);
    }
  }

  /**
   In every interleaving the trigger of a disconnect gate settles at most once.  It resolves exactly when
   the fault was established, with the accepted receipt, and says that the response was intercepted exactly
   when one was withheld for this gate; it rejects exactly when the fault was lost.
   */
  lemma DisconnectEvidence(events: seq<Event>, g: nat)
    requires g < |Run(events).gates| && Run(events).gates[g].Disconnect?
    ensures var s := Run(events);
            var gate, log := s.gates[g].disconnect, Since(s, g);
            && gate.triggered.calls <= 1 && gate.closed.calls <= 1
            && (gate.triggered.promise.Fulfilled? <==> EstablishedIn(log, g))
            && (gate.triggered.promise.Rejected? <==> LostIn(log, g))
            && (gate.triggered.promise.Fulfilled? ==>
                  gate.triggered.promise.value
                  == DisconnectObservation(AcceptedIn(log, g).value, gate.requestId, HasWithheld(s.withheld, g)))
  {
    hide Run;
    RunKeepsInv(events);
    var s := Run(events);
    if HasWithheld(s.withheld, g) {
      var i :| 0 <= i < |s.withheld| && s.withheld[i].gate == g;
      assert WithheldOk(s, s.withheld[i]);
    }
  }

  /** Once the claimed write and the terminal operation have both settled, so has the trigger. */
  lemma TriggerIsComplete(events: seq<Event>, g: nat)
    requires g < |Run(events).gates| && Run(events).gates[g].Disconnect?
    requires AcceptedIn(Since(Run(events), g), g).Some? || RefusedIn(Since(Run(events), g), g)
    requires Run(events).settlement.Some?
    ensures Run(events).gates[g].disconnect.triggered.Settled()
    ensures Run(events).gates[g].disconnect.closed.Settled()
  {
    hide Run, SendsOk, TrafficOk, StartsOnce, StartedIn, EndedIn;
    RunKeepsInv(events);
  }

  /** An accepted claimed write always has a disconnect started or scheduled behind it. */
  lemma DisconnectIsUnderWay(events: seq<Event>, g: nat)
    requires g < |Run(events).gates| && Run(events).gates[g].Disconnect?
    requires AcceptedIn(Since(Run(events), g), g).Some?
    ensures Run(events).mode == Some(DisconnectMode) || Run(events).gates[g].disconnect.disconnectScheduled
  {
    hide Run, SendsOk, TrafficOk, StartsOnce, StartedIn, EndedIn;
    RunKeepsInv(events);
  }

  /** With a disconnect gate armed, the terminal operation is never a close. */
  lemma DisconnectNeverCloses(events: seq<Event>, g: nat)
    requires g < |Run(events).gates| && Run(events).gates[g].Disconnect?
    ensures Run(events).mode != Some(CloseMode)
  {
    hide Run, SendsOk, TrafficOk, StartsOnce, StartedIn, EndedIn;
    RunKeepsInv(events);
  }

  /** At most one terminal operation is ever started on the inner transport. */
  lemma OneTerminalOperation(events: seq<Event>, i: nat, j: nat)
    requires i < j < |Run(events).log| && Run(events).log[i].TerminalStarted?
    ensures !Run(events).log[j].TerminalStarted?
  {
    hide Run;
    RunKeepsInv(events);
    StartsOnceAt(Run(events).log, i, j);
  }

  lemma {:induction false} StartsOnceAt(log: seq<Happening>, i: nat, j: nat)
    requires StartsOnce(log) && i < j < |log| && log[i].TerminalStarted?
    ensures !log[j].TerminalStarted?
  {
    if j < |log| - 1 {
      StartsOnceAt(log[..|log| - 1], i, j);
    } else {
      StartedSomewhere(log[..j], i);
    }
  }

  lemma {:induction false} StartedSomewhere(log: seq<Happening>, i: nat)
    requires i < |log| && log[i].TerminalStarted?
    ensures StartedIn(log).Some?
  {
    if i < |log| - 1 {
      StartedSomewhere(log[..|log| - 1], i);
    }
  }

  /**
   Nothing is lost silently: what `receive` returned is what it took without the withheld messages, each
   withheld message is the first classified response for its gate and a tool success, there is exactly one
   for every gate that reports one, and no active suppression gate is settled.
   */
  lemma NothingLostSilently(events: seq<Event>)
    ensures var s := Run(events);
            && s.returned == Kept(s.taken, s.withheld)
            && |s.withheld| == CountWithholding(s.gates)
            && (forall i :: 0 <= i < |s.withheld| ==> WithheldOk(s, s.withheld[i]))
            && (forall g :: 0 <= g < |s.gates| ==> (Withholds(s.gates[g]) <==> HasWithheld(s.withheld, g)))
            && (ActiveGate(s).Some? && ActiveGate(s).value.Suppression? ==>
                  ActiveGate(s).value.suppression.observation.promise.Pending?)
  {
    hide Run;
    RunKeepsInv(events);
    var s := Run(events);
    forall g | 0 <= g < |s.gates| && HasWithheld(s.withheld, g)
      ensures Withholds(s.gates[g])
    {
      var i :| 0 <= i < |s.withheld| && s.withheld[i].gate == g;
      assert WithheldOk(s, s.withheld[i]);
    }
  }

  // ---------------------------------------------------------------- on the fields of the messages
  //
  // What each event does, by the fields of the messages and by what the transport holds, and not by the functions that
  // the transitions are made of.

  /** A classification, read off the fields: what carries no answer is none, and each kind has its own fields. */
  lemma ClassifiedByFields(m: Message, id: RequestId)
    ensures ClassifyResponse(m, id).None? <==> m.id != Some(id) || (!m.hasResult && !m.hasError)
    ensures ClassifyResponse(m, id).Some? ==>
              match ClassifyResponse(m, id).value
              case ToolSuccess => m.isResultResponse && m.isToolResult && !m.flagsError
              case ToolError => m.isResultResponse && m.isToolResult && m.flagsError
              case RemoteError => !m.isResultResponse && m.isErrorResponse
              case InvalidResponse => if m.isResultResponse then !m.isToolResult else !m.isErrorResponse
  {
  }

  /**
   Every withheld message is a successful tool result for the id of its gate, and the first message since the gate
   was armed that has this id and carries a result or an error.
   */
  lemma WithheldAreSuccesses(events: seq<Event>, i: nat)
    requires i < |Run(events).withheld|
    ensures var s, w := Run(events), Run(events).withheld[i];
            && w.gate < |s.gates| && w.gate < |s.armings| && w.at < |s.taken|
            && s.taken[w.at].id == Some(s.gates[w.gate].Id())
            && s.taken[w.at].isResultResponse && s.taken[w.at].isToolResult && !s.taken[w.at].flagsError
            && forall j :: s.armings[w.gate].taken <= j < w.at ==>
                 s.taken[j].id != Some(s.gates[w.gate].Id()) || (!s.taken[j].hasResult && !s.taken[j].hasError)
  {
    hide Run, Shape, DisconnectsOk, SendsOk;
    RunKeepsInv(events);
    var s, w := Run(events), Run(events).withheld[i];
    assert WithheldOk(s, w);
    ClassifiedByFields(s.taken[w.at], s.gates[w.gate].Id());
  }

  /**
   A message that reaches an active suppression gate.  None before it, since the gate was armed, had the gate's id and
   a result or an error.  If it has, it is withheld exactly if it is a successful tool result, and otherwise returned
   and reported by its kind; if it has not, it is returned and the gate waits on.
   */
  lemma SuppressionDecides(events: seq<Event>, m: Message, g: nat)
    requires Run(events).active == Some(g) && g < |Run(events).gates| && Run(events).gates[g].Suppression?
    requires Run(events).receivers > 0
    ensures var s, t := Run(events), Step(Run(events), Deliver(m));
            var id := s.gates[g].suppression.requestId;
            && t.taken == s.taken + [m] && g < |t.gates| && g < |s.armings| && t.gates[g].Suppression?
            && (forall j :: s.armings[g].taken <= j < |s.taken| ==>
                  s.taken[j].id != Some(id) || (!s.taken[j].hasResult && !s.taken[j].hasError))
            && (m.id != Some(id) || (!m.hasResult && !m.hasError) ==>
                  && t.returned == s.returned + [m] && t.withheld == s.withheld
                  && t.gates == s.gates && t.active == s.active)
            && (m.id == Some(id) && (m.hasResult || m.hasError) ==>
                  && t.active.None?
                  && (if m.isResultResponse && m.isToolResult && !m.flagsError then
                        && t.returned == s.returned && t.withheld == s.withheld + [Withheld(g, |s.taken|)]
                        && t.gates[g].suppression.observation.promise == Fulfilled(Suppressed(id))
                      else
                        && t.returned == s.returned + [m] && t.withheld == s.withheld
                        && t.gates[g].suppression.observation.promise
                           == Fulfilled(Forwarded(id, if m.isResultResponse && m.isToolResult then ToolError
                                                      else if !m.isResultResponse && m.isErrorResponse then RemoteError
                                                      else InvalidResponse))))
  {
    hide Run, TrafficOk, SendsOk, DisconnectsOk;
    UnansweredSince(events, g);
    RunKeepsInv(events);
    ClassifiedByFields(m, Run(events).gates[g].Id());
  }

  /** While the active gate has seen no response, none came since it was armed. */
  lemma UnansweredSince(events: seq<Event>, g: nat)
    requires Run(events).active == Some(g) && g < |Run(events).gates|
    ensures var s := Run(events);
            && g < |s.armings|
            && (s.gates[g].Suppression? || !s.gates[g].disconnect.responseHandled ==>
                  forall j :: s.armings[g].taken <= j < |s.taken| ==>
                    s.taken[j].id != Some(s.gates[g].Id()) || (!s.taken[j].hasResult && !s.taken[j].hasError))
  {
    hide Run, DisconnectsOk, SendsOk;
    RunKeepsInv(events);
    var s := Run(events);
    if s.gates[g].Suppression? || !s.gates[g].disconnect.responseHandled {
      forall j | s.armings[g].taken <= j < |s.taken|
        ensures s.taken[j].id != Some(s.gates[g].Id()) || (!s.taken[j].hasResult && !s.taken[j].hasError)
      {
        assert ClassifyResponse(s.taken[j], s.gates[g].Id()).None?;
        ClassifiedByFields(s.taken[j], s.gates[g].Id());
      }
    }
  }

  lemma DeliverToDisconnect(s: GateState, m: Message, g: nat)
    requires s.active == Some(g) && g < |s.gates| && s.gates[g].Disconnect? && s.receivers > 0
    ensures var t := Step(s, Deliver(m));
            var before := s.gates[g].disconnect;
            var first := m.id == Some(before.requestId) && (m.hasResult || m.hasError) && !before.responseHandled;
            var success := m.isResultResponse && m.isToolResult && !m.flagsError;
            && g < |t.gates| && t.gates[g].Disconnect?
            && t.gates[g].disconnect.responseHandled == (before.responseHandled || first)
            && t.gates[g].disconnect.responseIntercepted == (before.responseIntercepted || (first && success))
  {
    hide ClassifyResponse;
    ClassifiedByFields(m, s.gates[g].Id());
  }

  lemma DeliverPastDisconnect(s: GateState, m: Message, g: nat)
    requires s.active == Some(g) && g < |s.gates| && s.gates[g].Disconnect? && s.receivers > 0
    ensures var t := Step(s, Deliver(m));
            var before := s.gates[g].disconnect;
            var first := m.id == Some(before.requestId) && (m.hasResult || m.hasError) && !before.responseHandled;
            var success := m.isResultResponse && m.isToolResult && !m.flagsError;
            && t.taken == s.taken + [m]
            && t.withheld == s.withheld + (if first && success then [Withheld(g, |s.taken|)] else [])
            && t.returned == s.returned + (if first && success then [] else [m])
  {
    hide ClassifyResponse, TryResolveTrigger;
    ClassifiedByFields(m, s.gates[g].Id());
  }

  /**
   A message that reaches an active disconnect gate.  While the gate has seen no response, one with its id and a result
   or an error is the first since it was armed; it is intercepted and withheld exactly if it is a successful tool
   result.  All other messages are returned.
   */
  lemma DisconnectDecides(events: seq<Event>, m: Message, g: nat)
    requires Run(events).active == Some(g) && g < |Run(events).gates| && Run(events).gates[g].Disconnect?
    requires Run(events).receivers > 0
    ensures var s, t := Run(events), Step(Run(events), Deliver(m));
            var before, id := s.gates[g].disconnect, s.gates[g].disconnect.requestId;
            var first := m.id == Some(id) && (m.hasResult || m.hasError) && !before.responseHandled;
            var success := m.isResultResponse && m.isToolResult && !m.flagsError;
            && t.taken == s.taken + [m] && g < |t.gates| && g < |s.armings| && t.gates[g].Disconnect?
            && (!before.responseHandled ==>
                  forall j :: s.armings[g].taken <= j < |s.taken| ==>
                    s.taken[j].id != Some(id) || (!s.taken[j].hasResult && !s.taken[j].hasError))
            && t.gates[g].disconnect.responseHandled == (before.responseHandled || first)
            && t.gates[g].disconnect.responseIntercepted == (before.responseIntercepted || (first && success))
            && t.withheld == s.withheld + (if first && success then [Withheld(g, |s.taken|)] else [])
            && t.returned == s.returned + (if first && success then [] else [m])
  {
    hide Run, Step;
    UnansweredSince(events, g);
    DeliverToDisconnect(Run(events), m, g);
    DeliverPastDisconnect(Run(events), m, g);
  }

  /** With no gate active, or a receive that nobody waits for, nothing is withheld. */
  lemma IdleDecides(s: GateState, m: Message)
    requires s.receivers == 0 || s.active.None?
    ensures var t := Step(s, Deliver(m));
            if s.receivers == 0 then t == s
            else
              && t.taken == s.taken + [m] && t.returned == s.returned + [m]
              && t.withheld == s.withheld && t.gates == s.gates
  {
  }

  lemma SettledGateStays(s: GateState, e: Event, g: nat)
    requires s.active != Some(g) && g < |s.gates| && s.gates[g].Suppression?
    requires s.gates[g].suppression.observation.Settled()
    ensures g < |Step(s, e).gates| && Step(s, e).gates[g] == s.gates[g]
  {
    hide ClassifyResponse, TryResolveTrigger;
    match e
    case SendCall(_, _) =>
    case Deliver(_) =>
    case _ =>
  }

  /** An observation that was made stays, whatever happens later. */
  lemma ObservationStays(events: seq<Event>, e: Event, g: nat)
    requires g < |Run(events).gates| && Run(events).gates[g].Suppression?
    requires Run(events).gates[g].suppression.observation.Settled()
    ensures g < |Step(Run(events), e).gates| && Step(Run(events), e).gates[g] == Run(events).gates[g]
  {
    var s := Run(events);
    assert s.active != Some(g) by {
      hide Run, TrafficOk, SendsOk, DisconnectOk, Moving;
      RunKeepsInv(events);
    }
    SettledGateStays(s, e, g);
  }

  /** Arming succeeds exactly for a usable id, with no gate active and nothing terminated. */
  lemma ArmingIsExact(s: GateState, id: RequestId)
    ensures ArmFault(s, id) ==
            if id.NumericId? && !(-9007199254740991 <= id.n <= 9007199254740991) then Some(InvalidRequestId)
            else if s.active.Some? || s.mode.Some? then Some(AlreadyArmed)
            else None
    ensures var t, u := Step(s, ArmSuppression(id)), Step(s, ArmDisconnect(id));
            if (id.NumericId? ==> -9007199254740991 <= id.n <= 9007199254740991) && s.active.None? && s.mode.None? then
              && t.active == u.active == Some(|s.gates|) && |t.gates| == |u.gates| == |s.gates| + 1
              && t.gates[..|s.gates|] == u.gates[..|s.gates|] == s.gates
              && t.gates[|s.gates|].Suppression? && t.gates[|s.gates|].suppression.requestId == id
              && t.gates[|s.gates|].suppression.observation.promise.Pending?
              && u.gates[|s.gates|].Disconnect? && u.gates[|s.gates|].disconnect.requestId == id
              && var fresh' := u.gates[|s.gates|].disconnect;
                 && fresh'.triggered.promise.Pending? && fresh'.closed.promise.Pending? && fresh'.receipt.None?
                 && !fresh'.claimed && !fresh'.disconnectScheduled && !fresh'.disconnectConfirmed
                 && !fresh'.responseHandled && !fresh'.responseIntercepted
            else t == u == s
  {
  }

  /** A send claims the active, unclaimed disconnect gate exactly if it is the tool call with the gate's id. */
  lemma SendClaims(events: seq<Event>, m: Message, throws: bool, g: nat)
    requires Run(events).mode.None? && g < |Run(events).gates| && Run(events).gates[g].Disconnect?
    requires !Run(events).gates[g].disconnect.claimed
    ensures var s, t := Run(events), Step(Run(events), SendCall(m, throws));
            var claims := m.isToolCall && m.id == Some(s.gates[g].disconnect.requestId);
            && g < |t.gates| && t.gates[g].Disconnect? && t.gates[g].disconnect.claimed == claims
            && (if throws then t.sends == s.sends
                else t.sends == s.sends + [SentMessage(if claims then Some(g) else None, false)])
            && t.mode == (if throws && claims then Some(DisconnectMode) else None)
  {
    hide Run, TrafficOk, SendsOk, DisconnectOk, Moving;
    RunKeepsInv(events);
  }

  /** Once terminated, the transport sends nothing and lets nobody wait. */
  lemma TerminatedIsClosed(s: GateState, m: Message, throws: bool, id: RequestId)
    requires s.mode.Some?
    ensures Step(s, SendCall(m, throws)) == s && Step(s, ReceiveCall) == s
    ensures Step(s, CloseCall) == s && Step(s, DisconnectCall) == s
  {
  }

  /** What was added to the log. */
  ghost function NewsOf(s: GateState, t: GateState): seq<Happening> {
    if s.log <= t.log then t.log[|s.log|..] else []
  }

  /** What a write's settlement adds to the log, if it is the write that claimed a gate. */
  lemma WritesAreLogged(events: seq<Event>, k: nat, receipt: Receipt)
    ensures var s, t, u := Run(events), Step(Run(events), SendAccepted(k, receipt)), Step(Run(events), SendRefused(k));
            && s.log <= t.log && s.log <= u.log
            && (if k < |s.sends| && !s.sends[k].settled && s.sends[k].claims.Some? then
                  && NewsOf(s, t) != [] && NewsOf(s, t)[0] == WriteAccepted(s.sends[k].claims.value, receipt)
                  && (NewsOf(s, t)[1..] == [] || NewsOf(s, t)[1..] == [TerminalStarted(DisconnectMode)])
                  && NewsOf(s, u) == [WriteRefused(s.sends[k].claims.value)]
                                     + (if s.mode.None? then [TerminalStarted(DisconnectMode)] else [])
                else NewsOf(s, t) == NewsOf(s, u) == [])
  {
    hide Run, TrafficOk, DisconnectOk, Moving, StartedIn, EndedIn, StartsOnce;
    RunKeepsInv(events);
    if k < |Run(events).sends| {
      ClaimsAreDisconnects(Run(events), k);
    }
  }

  /** What the other events add to the log: the happening each stands for, and the terminal operation it starts. */
  lemma EventsAreLogged(s: GateState, e: Event)
    requires !e.SendAccepted? && !e.SendRefused? && !e.Deliver?
    ensures var t := Step(s, e);
            var disconnecting := s.active.Some? && s.active.value < |s.gates| && s.gates[s.active.value].Disconnect?;
            && s.log <= t.log
            && NewsOf(s, t) ==
               (match e
                case ReceiveFails =>
                  if s.receivers == 0 then []
                  else [ReceiveFailed]
                       + (if s.active.Some? && s.active.value < |s.gates| && s.mode.None?
                          then [TerminalStarted(DisconnectMode)] else [])
                case AbortLease(g) =>
                  if disconnecting && s.active == Some(g) && s.mode.None?
                  then [Aborted(g), TerminalStarted(DisconnectMode)] else []
                case CloseCall =>
                  if s.mode.Some? then []
                  else [TerminalStarted(if disconnecting then DisconnectMode else CloseMode)]
                case DisconnectCall => if s.mode.Some? then [] else [TerminalStarted(DisconnectMode)]
                case ImmediateFires(g) =>
                  if disconnecting && s.active == Some(g) && s.gates[g].disconnect.disconnectScheduled && s.mode.None?
                  then [TerminalStarted(DisconnectMode)] else []
                case TerminalSettles(outcome) =>
                  if s.mode.Some? && s.settlement.None? then [TerminalSettled(outcome.Ended?)] else []
                case SendCall(m, throws) =>
                  if throws && s.mode.None? && disconnecting && !s.gates[s.active.value].disconnect.claimed
                     && m.isToolCall && m.id == Some(s.gates[s.active.value].disconnect.requestId)
                  then [WriteRefused(s.active.value), TerminalStarted(DisconnectMode)] else []
                case _ => [])
  {
  }

  /** A delivery starts a disconnect exactly when the first response finds the write accepted. */
  lemma DeliveriesAreLogged(s: GateState, m: Message)
    ensures var t := Step(s, Deliver(m));
            && s.log <= t.log
            && NewsOf(s, t) ==
               (if s.receivers > 0 && s.mode.None? && s.active.Some? && s.active.value < |s.gates|
                   && s.gates[s.active.value].Disconnect? && s.gates[s.active.value].disconnect.receipt.Some?
                   && !s.gates[s.active.value].disconnect.responseHandled
                   && m.id == Some(s.gates[s.active.value].disconnect.requestId) && (m.hasResult || m.hasError)
                then [TerminalStarted(DisconnectMode)] else [])
  {
  }

  /** How an active suppression gate ends without a response: by whom, and with what reason. */
  lemma SuppressionEnds(events: seq<Event>, e: Event, g: nat)
    requires Run(events).active == Some(g) && g < |Run(events).gates| && Run(events).gates[g].Suppression?
    requires !e.Deliver?
    ensures var s, t := Run(events), Step(Run(events), e);
            var fails := (e.ReceiveFails? && s.receivers > 0) || (e.SignalReceiver? && s.receivers > 0 && s.mode.Some?);
            var ends := e.TerminalSettles? && s.mode.Some?;
            && g < |t.gates| && t.gates[g].Suppression?
            && t.gates[g].suppression.observation.promise
               == (if e == DisarmLease(g) then Rejected(Disarmed)
                   else if fails || ends then Rejected(TransportTerminated)
                   else Pending)
            && (t.active == Some(g) <==> t.gates[g].suppression.observation.promise.Pending?)
            && (fails ==> t.mode.Some?)
  {
    hide Run, TrafficOk, SendsOk, DisconnectOk, Moving, StartsOnce;
    RunKeepsInv(events);
  }

  /** Gate g's pending trigger is not rejected in t, unless for the given reason. */
  ghost predicate RejectedOnlyFor(t: GateState, g: nat, reason: Option<GateFailure>) {
    && g < |t.gates| && t.gates[g].Disconnect?
    && (t.gates[g].disconnect.triggered.promise.Rejected? ==>
          reason == Some(t.gates[g].disconnect.triggered.promise.error))
  }

  ghost predicate TriggerPending(s: GateState, g: nat) {
    g < |s.gates| && s.gates[g].Disconnect? && s.gates[g].disconnect.triggered.promise.Pending?
  }

  lemma SendsReject(s: GateState, e: Event, g: nat)
    requires TriggerPending(s, g) && (e.SendCall? || e.SendAccepted? || e.SendRefused?)
    ensures RejectedOnlyFor(Step(s, e), g, if e.SendAccepted? then None else Some(WriteNotAccepted))
  {
  }

  lemma DeliveriesReject(s: GateState, m: Message, g: nat)
    requires TriggerPending(s, g)
    ensures RejectedOnlyFor(Step(s, Deliver(m)), g, None)
  {
    hide ClassifyResponse;
  }

  lemma FailuresReject(s: GateState, e: Event, g: nat)
    requires TriggerPending(s, g) && (e.ReceiveFails? || e.SignalReceiver?)
    ensures RejectedOnlyFor(Step(s, e), g, Some(DisconnectNotApplied))
  {
  }

  /** Why a trigger is rejected: the write was not accepted, the lease was aborted, or the disconnect did not happen. */
  lemma TriggerReason(s: GateState, e: Event, g: nat)
    requires g < |s.gates| && s.gates[g].Disconnect? && s.gates[g].disconnect.triggered.promise.Pending?
    ensures g < |Step(s, e).gates| && Step(s, e).gates[g].Disconnect?
    ensures Step(s, e).gates[g].disconnect.triggered.promise.Rejected? ==>
              && Step(s, e).gates[g].disconnect.triggered.promise.error
                 == (if e.SendRefused? || e.SendCall? then WriteNotAccepted
                     else if e.AbortLease? then Disarmed
                     else DisconnectNotApplied)
              && (e.SendRefused? || e.SendCall? || e.AbortLease? || e.ReceiveFails? || e.SignalReceiver?
                  || e.TerminalSettles?)
  {
    hide AfterSend, AfterSendAccepted, AfterSendRefused, AfterDeliver, AfterReceiveFails, AfterSignal;
    if e.SendCall? || e.SendAccepted? || e.SendRefused? {
      SendsReject(s, e, g);
    } else if e.Deliver? {
      DeliveriesReject(s, e.message, g);
    } else if e.ReceiveFails? || e.SignalReceiver? {
      FailuresReject(s, e, g);
    }
  }

  /** The terminal operation's settlement is what the disconnect gate's closing promise is settled with. */
  lemma ClosedByTheTerminal(events: seq<Event>, outcome: Settlement, g: nat)
    requires g < |Run(events).gates| && Run(events).gates[g].Disconnect?
    requires Run(events).mode.Some? && Run(events).settlement.None?
    ensures var t := Step(Run(events), TerminalSettles(outcome));
            && t.settlement == Some(outcome) && t.active.None? && g < |t.gates| && t.gates[g].Disconnect?
            && t.gates[g].disconnect.closed.promise
               == (match outcome case Ended(summary) => Fulfilled(summary) case NotEnded(error) => Rejected(error))
  {
    hide Run, TrafficOk, SendsOk, StartsOnce, Moving;
    RunKeepsInv(events);
  }

  // ---------------------------------------------------------------- the transport itself

  /**
   Gates live in a table, since leases, send callbacks and scheduled immediates refer to them after they
   stop being active; a lease is the index of its gate.
   */
  class McpFaultGateTransport {
    var gates: seq<Gate>
    var activeGate: Option<nat>
    var terminalMode: Option<TerminalMode>
    var settlement: Option<Settlement>
    var sends: seq<SentMessage>
    var receivers: nat
    /** The histories the specification speaks of. */
    ghost var armings: seq<Arming>
    ghost var taken: seq<Message>
    ghost var returned: seq<Message>
    ghost var withheld: seq<Withheld>
    ghost var log: seq<Happening>

    ghost function State(): GateState
      reads this
    {
      GateState(gates, activeGate, terminalMode, settlement, sends, receivers, armings, taken, returned, withheld, log)
    }

    ghost predicate Valid()
      reads this
    {
      Inv(State())
    }

    /** What holds while a block of private transitions runs. */
    ghost predicate Consistent()
      reads this
    {
      activeGate.Some? ==> activeGate.value < |gates|
    }

    constructor ()
      ensures Valid() && State() == Initial()
    {
      gates, activeGate, terminalMode, settlement, sends, receivers := [], None, None, None, [], 0;
      armings, taken, returned, withheld, log := [], [], [], [], [];
    }

    method ArmSuccessfulToolResponse(requestId: RequestId) returns (lease: Result<nat, GateFailure>)
      requires Valid()
      modifies this
      ensures Valid() && State() == AfterArmSuppression(old(State()), requestId)
      ensures lease == match ArmFault(old(State()), requestId)
                       case Some(fault) => Failure(fault)
                       case None => Success(|old(gates)|)
    {
      hide Inv;
      ArmCallKeepsInv(State(), requestId);
      var fault := CheckCanArm(requestId);
      if fault.Some? {
        return Failure(fault.value);
      }
      lease := Success(|gates|);
      activeGate := Some(|gates|);
      gates := gates + [Gate.Suppression(NewSuppression(requestId))];
      armings := armings + [Arming(|taken|, |log|)];
    }

    method ArmDisconnectAfterWriteAccepted(requestId: RequestId) returns (lease: Result<nat, GateFailure>)
      requires Valid()
      modifies this
      ensures Valid() && State() == AfterArmDisconnect(old(State()), requestId)
      ensures lease == match ArmFault(old(State()), requestId)
                       case Some(fault) => Failure(fault)
                       case None => Success(|old(gates)|)
    {
      hide Inv;
      ArmCallKeepsInv(State(), requestId);
      var fault := CheckCanArm(requestId);
      if fault.Some? {
        return Failure(fault.value);
      }
      lease := Success(|gates|);
      activeGate := Some(|gates|);
      gates := gates + [Gate.Disconnect(NewDisconnect(requestId))];
      armings := armings + [Arming(|taken|, |log|)];
    }

    method CheckCanArm(requestId: RequestId) returns (fault: Option<GateFailure>)
      ensures fault == ArmFault(State(), requestId)
    {
      if !IsRequestId(requestId) {
        return Some(InvalidRequestId);
      }
      if activeGate.Some? || terminalMode.Some? {
        return Some(AlreadyArmed);
      }
      fault := None;
    }

    /** Refused at once, with the send already claimed for the gate if it throws; otherwise send `index` is out. */
    method Send(message: Message, throws: bool) returns (sent: Result<nat, TransportError>)
      requires Valid()
      modifies this
      ensures Valid() && State() == AfterSend(old(State()), message, throws)
      ensures sent == if old(terminalMode).Some? then Failure(ClosedError)
                      else if throws then Failure(WriteError)
                      else Success(|old(sends)|)
    {
      hide Inv;
      SendKeepsInv(State(), message, throws);
      ActiveIsArmed(State());
      if terminalMode.Some? {
        return Failure(ClosedError);
      }
      var claim := ClaimGate(message);
      if claim.Some? {
        SetGate(claim.value, gates[claim.value].disconnect.(claimed := true));
      }
      if throws {
        if claim.Some? {
          RefuseWrite(claim.value);
        }
        return Failure(WriteError);
      }
      sent := Success(|sends|);
      sends := sends + [SentMessage(claim, false)];
    }

    /** The active disconnect gate, if the message is the call it waits for. */
    method ClaimGate(message: Message) returns (claim: Option<nat>)
      requires Consistent()
      ensures claim == Claim(State(), message)
    {
      claim := None;
      if activeGate.Some? {
        var gate := gates[activeGate.value];
        if gate.Disconnect? && !gate.disconnect.claimed && IsToolCallRequestFor(message, gate.disconnect.requestId) {
          claim := activeGate;
        }
      }
    }

    method RefuseWrite(g: nat)
      requires g < |gates| && gates[g].Disconnect?
      modifies this
      ensures State() == Refuse(old(State()), g)
    {
      RejectDisconnectTrigger(g, WriteNotAccepted);
      log := log + [WriteRefused(g)];
      BeginDisconnect();
    }

    method SetGate(g: nat, gate: DisconnectGate)
      requires g < |gates| && gates[g].Disconnect?
      modifies this`gates
      ensures State() == SetDisconnect(old(State()), g, gate)
    {
      gates := gates[g := gates[g].(disconnect := gate)];
    }

    method RejectDisconnectTrigger(g: nat, reason: GateFailure)
      requires g < |gates| && gates[g].Disconnect?
      modifies this`gates
      ensures State() == SetDisconnect(old(State()), g, RejectTrigger(old(gates[g].disconnect), reason))
    {
      var gate := gates[g].disconnect;
      if !gate.triggerSettled {
        SetGate(g, gate.(triggerSettled := true, triggered := gate.triggered.Settle(Rejected(reason))));
      }
    }

    method TryResolveDisconnectTrigger(g: nat)
      requires g < |gates| && gates[g].Disconnect?
      modifies this`gates
      ensures State() == SetDisconnect(old(State()), g, TryResolveTrigger(old(gates[g].disconnect)))
    {
      var gate := gates[g].disconnect;
      if gate.triggerSettled || !gate.disconnectConfirmed || !gate.responseHandled || gate.receipt.None? {
        return;
      }
      SetGate(g, gate.(triggerSettled := true,
                       triggered := gate.triggered.Settle(Fulfilled(
                         DisconnectObservation(gate.receipt.value, gate.requestId, gate.responseIntercepted)))));
    }

    method BeginDisconnect()
      modifies this`terminalMode, this`log
      ensures State() == StartDisconnect(old(State()))
    {
      if terminalMode.None? {
        terminalMode := Some(DisconnectMode);
        log := log + [TerminalStarted(DisconnectMode)];
      }
    }

    /** The inner send's promise fulfilled. */
    method OnSendAccepted(k: nat, receipt: Receipt)
      requires Valid()
      modifies this
      ensures Valid() && State() == AfterSendAccepted(old(State()), k, receipt)
    {
      hide Inv;
      SendAcceptedKeepsInv(State(), k, receipt);
      if k >= |sends| || sends[k].settled {
        return;
      }
      ClaimsAreDisconnects(State(), k);
      var claim := sends[k].claims;
      sends := sends[k := sends[k].(settled := true)];
      if claim.Some? {
        AcceptWrite(claim.value, receipt);
      }
    }

    method AcceptWrite(g: nat, receipt: Receipt)
      requires g < |gates| && gates[g].Disconnect?
      modifies this
      ensures State() == Accept(old(State()), g, receipt)
    {
      SetGate(g, gates[g].disconnect.(receipt := Some(receipt)));
      TryResolveDisconnectTrigger(g);
      log := log + [WriteAccepted(g, receipt)];
      if gates[g].disconnect.responseHandled {
        BeginDisconnect();
      } else if !gates[g].disconnect.disconnectScheduled && terminalMode.None? {
        SetGate(g, gates[g].disconnect.(disconnectScheduled := true));
      }
    }

    /** The inner send's promise rejected. */
    method OnSendRefused(k: nat)
      requires Valid()
      modifies this
      ensures Valid() && State() == AfterSendRefused(old(State()), k)
    {
      hide Inv;
      SendRefusedKeepsInv(State(), k);
      if k >= |sends| || sends[k].settled {
        return;
      }
      ClaimsAreDisconnects(State(), k);
      var claim := sends[k].claims;
      sends := sends[k := sends[k].(settled := true)];
      if claim.Some? {
        RefuseWrite(claim.value);
      }
    }

    /** The scheduled immediate runs after the responses that were already queued. */
    method OnImmediate(g: nat)
      requires Valid()
      modifies this
      ensures Valid() && State() == AfterImmediate(old(State()), g)
    {
      hide Inv;
      ImmediateKeepsInv(State(), g);
      if g >= |gates| || !gates[g].Disconnect? || !gates[g].disconnect.disconnectScheduled {
        return;
      }
      SetGate(g, gates[g].disconnect.(disconnectScheduled := false));
      if activeGate != Some(g) || terminalMode.Some? {
        return;
      }
      BeginDisconnect();
    }

    /** A call of `receive` starts to wait, or throws because the gate has terminated. */
    method Receive() returns (fault: Option<TransportError>)
      requires Valid()
      modifies this
      ensures Valid() && State() == AfterReceiveCall(old(State()))
      ensures fault == if terminalMode.Some? then Some(ClosedError) else None
    {
      hide Inv;
      ReceiversKeepInv(State(), receivers + 1);
      if terminalMode.Some? {
        return Some(ClosedError);
      }
      receivers := receivers + 1;
      fault := None;
    }

    /** The rest of one round of a waiting `receive`, once the inner transport gave it a message. */
    method OnMessage(message: Message)
      requires Valid()
      modifies this
      ensures Valid() && State() == AfterDeliver(old(State()), message)
    {
      hide Inv;
      DeliverKeepsInv(State(), message);
      ActiveIsArmed(State());
      if receivers == 0 {
        return;
      }
      taken := taken + [message];
      if activeGate.None? {
        ReturnMessage(message);
        return;
      }
      var gate := gates[activeGate.value];
      var kind := ClassifyResponse(message, gate.Id());
      if kind.None? {
        ReturnMessage(message);
      } else if gate.Suppression? {
        OnSuppressionResponse(message, kind.value);
      } else if gate.disconnect.responseHandled {
        ReturnMessage(message);
      } else {
        OnDisconnectResponse(message, kind.value);
      }
    }

    method ReturnMessage(message: Message)
      modifies this`returned, this`receivers
      ensures State() == Return(old(State()), message)
    {
      returned := returned + [message];
      receivers := if receivers > 0 then receivers - 1 else 0;
    }

    method WithholdMessage(g: nat)
      requires taken != []
      modifies this`withheld, this`receivers
      ensures State() == Withhold(old(State()), g)
    {
      withheld := withheld + [Withheld(g, |taken| - 1)];
      if terminalMode.Some? && receivers > 0 {
        receivers := receivers - 1;
      }
    }

    method OnSuppressionResponse(message: Message, kind: ResponseKind)
      requires ActiveGate(State()).Some? && ActiveGate(State()).value.Suppression? && taken != []
      modifies this
      ensures State() == SuppressionResponse(old(State()), message, kind)
    {
      var g := activeGate.value;
      var id := gates[g].Id();
      if kind.ToolSuccess? {
        SettleSuppressionGate(Fulfilled(Suppressed(id)));
        WithholdMessage(g);
      } else {
        SettleSuppressionGate(Fulfilled(Forwarded(id, kind)));
        ReturnMessage(message);
      }
    }

    method SettleSuppressionGate(outcome: Promise<Observation, GateFailure>)
      requires ActiveGate(State()).Some? && ActiveGate(State()).value.Suppression?
      modifies this`gates, this`activeGate
      ensures State() == ReleaseSuppression(old(State()), outcome)
    {
      var g := activeGate.value;
      var gate := gates[g].suppression;
      activeGate := None;
      if !gate.settled {
        gate := gate.(settled := true, observation := gate.observation.Settle(outcome));
      }
      gates := gates[g := gates[g].(suppression := gate)];
    }

    method OnDisconnectResponse(message: Message, kind: ResponseKind)
      requires ActiveGate(State()).Some? && ActiveGate(State()).value.Disconnect? && taken != []
      modifies this
      ensures State() == DisconnectResponse(old(State()), message, kind)
    {
      var g := activeGate.value;
      SetGate(g, gates[g].disconnect.(
                   responseHandled := true,
                   responseIntercepted := gates[g].disconnect.responseIntercepted || kind.ToolSuccess?));
      TryResolveDisconnectTrigger(g);
      ghost var handled := old(gates[g].disconnect).(
                             responseHandled := true,
                             responseIntercepted := old(gates[g].disconnect.responseIntercepted) || kind.ToolSuccess?);
      assert State() == SetDisconnect(old(State()), g, TryResolveTrigger(handled));
      if gates[g].disconnect.receipt.Some? {
        BeginDisconnect();
      }
      if kind.ToolSuccess? {
        WithholdMessage(g);
      } else {
        ReturnMessage(message);
      }
    }

    /** A waiting `receive` was rejected by the inner transport. */
    method OnReceiveFailed()
      requires Valid()
      modifies this
      ensures Valid() && State() == AfterReceiveFails(old(State()))
    {
      hide Inv;
      ReceiveFailsKeepsInv(State());
      ActiveIsArmed(State());
      if receivers == 0 {
        return;
      }
      receivers := receivers - 1;
      log := log + [ReceiveFailed];
      assert State() == OneReceiverLess(old(State())).(log := old(log) + [ReceiveFailed]);
      FailReceive();
    }

    /** A waiting `receive` was rejected by the terminal signal. */
    method OnTerminalSignal()
      requires Valid()
      modifies this
      ensures Valid() && State() == AfterSignal(old(State()))
    {
      hide Inv;
      SignalKeepsInv(State());
      ActiveIsArmed(State());
      if receivers == 0 || terminalMode.None? {
        return;
      }
      receivers := receivers - 1;
      assert State() == OneReceiverLess(old(State()));
      FailReceive();
    }

    method FailReceive()
      requires Consistent()
      modifies this
      ensures State() == HandleReceiveFailure(old(State()))
    {
      if activeGate.None? {
        return;
      }
      var g := activeGate.value;
      if gates[g].Suppression? {
        SettleSuppressionGate(Rejected(TransportTerminated));
        BeginDisconnect();
        return;
      }
      SetGate(g, gates[g].disconnect.(responseHandled := true));
      if terminalMode != Some(DisconnectMode) {
        RejectDisconnectTrigger(g, DisconnectNotApplied);
      } else {
        TryResolveDisconnectTrigger(g);
      }
      BeginDisconnect();
    }

    /** An armed disconnect gate turns the close into a disconnect. */
    method Close()
      requires Valid()
      modifies this
      ensures Valid() && State() == AfterClose(old(State()))
    {
      hide Inv;
      CloseKeepsInv(State());
      ActiveIsArmed(State());
      if terminalMode.Some? {
        return;
      }
      if activeGate.Some? && gates[activeGate.value].Disconnect? {
        BeginDisconnect();
        return;
      }
      terminalMode := Some(CloseMode);
      log := log + [TerminalStarted(CloseMode)];
    }

    /** Refused after a close; otherwise the terminal promise is returned. */
    method Disconnect() returns (fault: Option<GateFailure>)
      requires Valid()
      modifies this
      ensures Valid() && State() == AfterDisconnectCall(old(State()))
      ensures fault == if old(terminalMode) == Some(CloseMode) then Some(DisconnectNotApplied) else None
    {
      hide Inv;
      CloseKeepsInv(State());
      ActiveIsArmed(State());
      if terminalMode == Some(CloseMode) {
        return Some(DisconnectNotApplied);
      }
      BeginDisconnect();
      fault := None;
    }

    /** The terminal operation of the inner transport settled. */
    method OnTerminalSettled(outcome: Settlement)
      requires Valid()
      modifies this
      ensures Valid() && State() == AfterTerminalSettles(old(State()), outcome)
    {
      hide Inv;
      TerminalSettlesKeepsInv(State(), outcome);
      ActiveIsArmed(State());
      if terminalMode.None? || settlement.Some? {
        return;
      }
      settlement := Some(outcome);
      log := log + [TerminalSettled(outcome.Ended?)];
      SettleActiveGate(outcome);
    }

    method SettleActiveGate(outcome: Settlement)
      requires Consistent()
      modifies this`gates, this`activeGate
      ensures State() == SettleTerminalGate(old(State()), outcome)
    {
      if activeGate.None? {
        return;
      }
      var g := activeGate.value;
      if gates[g].Suppression? {
        SettleSuppressionGate(Rejected(TransportTerminated));
        return;
      }
      SetGate(g, gates[g].disconnect.(responseHandled := true));
      if outcome.Ended? {
        SetGate(g, gates[g].disconnect.(disconnectConfirmed := true));
        TryResolveDisconnectTrigger(g);
      } else {
        RejectDisconnectTrigger(g, DisconnectNotApplied);
      }
      activeGate := None;
      var gate := gates[g].disconnect;
      SetGate(g, gate.(closed := gate.closed.Settle(if outcome.Ended? then Fulfilled(outcome.summary)
                                                    else Rejected(outcome.error))));
    }

    method DisarmSuppression(g: nat) returns (disarmed: bool)
      requires Valid()
      modifies this
      ensures Valid() && State() == AfterDisarm(old(State()), g)
      ensures disarmed <==> CanDisarm(old(State()), g)
    {
      hide Inv;
      DisarmKeepsInv(State(), g);
      ActiveIsArmed(State());
      if activeGate != Some(g) || !gates[g].Suppression? || gates[g].suppression.settled {
        return false;
      }
      SettleSuppressionGate(Rejected(Disarmed));
      disarmed := true;
    }

    method AbortDisconnectGate(g: nat) returns (aborted: bool)
      requires Valid()
      modifies this
      ensures Valid() && State() == AfterAbort(old(State()), g)
      ensures aborted <==> CanAbort(old(State()), g)
    {
      hide Inv;
      AbortKeepsInv(State(), g);
      ActiveIsArmed(State());
      if activeGate != Some(g) || terminalMode.Some? || !gates[g].Disconnect? {
        return false;
      }
      RejectDisconnectTrigger(g, Disarmed);
      log := log + [Aborted(g)];
      BeginDisconnect();
      aborted := true;
    }
  }
}
