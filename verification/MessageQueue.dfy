/**
 The bounded queue between the decoder and the callers of `receive`: messages wait for receivers, or
 receivers for messages, never both.
 */
module MessageQueue {
  import opened Common

  datatype Limits = Limits(maxBytes: nat, maxMessages: nat, maxPendingReceives: nat) {
    predicate Valid() {
      maxBytes >= 1 && maxMessages >= 1 && maxPendingReceives >= 1
    }
  }

  datatype Item<M> = Item(byteLength: nat, message: M)

  datatype PushFault = Terminated(error: TransportError) | InvalidLength | QueueFull

  /**
   The queue's fields, the promises `receive` has handed out, and what became of the accepted
   messages: handed over, still queued (`items`), or discarded by `fail`.
   */
  datatype QueueState<M> = QueueState(
    items: seq<Item<M>>,
    waiters: seq<nat>,
    queuedBytes: int,
    terminal: Option<TransportError>,
    receives: seq<Deferred<M, TransportError>>,
    accepted: seq<M>,
    discarded: seq<M>)

  function Initial<M>(): QueueState<M> {
    QueueState([], [], 0, None, [], [], [])
  }

  // ---------------------------------------------------------------- transitions

  /** Every waiter names a promise that has been handed out. */
  ghost predicate WaitersKnown<M>(receives: seq<Deferred<M, TransportError>>, waiters: seq<nat>) {
    forall i :: 0 <= i < |waiters| ==> waiters[i] < |receives|
  }

  function PushOutcome<M>(limits: Limits, s: QueueState<M>, byteLength: int): Option<PushFault> {
    if s.terminal.Some? then Some(Terminated(s.terminal.value))
    else if byteLength < 0 || byteLength > MAX_SAFE_INTEGER then Some(InvalidLength)
    else if s.waiters != [] then None
    else if |s.items| + 1 > limits.maxMessages || s.queuedBytes + byteLength > limits.maxBytes then Some(QueueFull)
    else None
  }

  /** Promise w settled, if there is one. */
  function SettleAt<M>(receives: seq<Deferred<M, TransportError>>, w: nat, outcome: Promise<M, TransportError>)
    : (r: seq<Deferred<M, TransportError>>)
    ensures |r| == |receives|
  {
    if w < |receives| then receives[w := receives[w].Settle(outcome)] else receives
  }

  function AfterPush<M>(limits: Limits, s: QueueState<M>, message: M, byteLength: int): QueueState<M> {
    if PushOutcome(limits, s, byteLength).Some? then s
    else if s.waiters != [] then
      s.(waiters := s.waiters[1..],
         receives := SettleAt(s.receives, s.waiters[0], Fulfilled(message)),
         accepted := s.accepted + [message])
    else
      s.(items := s.items + [Item(byteLength, message)],
         queuedBytes := s.queuedBytes + byteLength,
         accepted := s.accepted + [message])
  }

  /** The promise the next call of `receive` returns. */
  function ReceivePromise<M>(limits: Limits, s: QueueState<M>): Deferred<M, TransportError> {
    if s.items != [] then Deferred(Fulfilled(s.items[0].message), 1)
    else if s.terminal.Some? then Deferred(Rejected(s.terminal.value), 1)
    else if |s.waiters| >= limits.maxPendingReceives then Deferred(Rejected(CapacityError), 1)
    else Deferred(Pending, 0)
  }

  function AfterReceive<M>(limits: Limits, s: QueueState<M>): QueueState<M> {
    var promise := ReceivePromise(limits, s);
    var called := s.(receives := s.receives + [promise]);
    if s.items != [] then
      called.(items := s.items[1..], queuedBytes := s.queuedBytes - s.items[0].byteLength)
    else if promise.Settled() then called
    else called.(waiters := s.waiters + [|s.receives|])
  }

  /** Rejects the given waiters in order. */
  function RejectAll<M>(receives: seq<Deferred<M, TransportError>>, waiters: seq<nat>, error: TransportError)
    : (r: seq<Deferred<M, TransportError>>)
    ensures |r| == |receives|
  {
    if waiters == [] then receives
    else SettleAt(RejectAll(receives, waiters[..|waiters| - 1], error), waiters[|waiters| - 1], Rejected(error))
  }

  function AfterTerminal<M>(s: QueueState<M>, error: TransportError, discard: bool): QueueState<M> {
    if s.terminal.Some? then s
    else
      var marked := s.(terminal := Some(error));
      var kept := if discard then marked.(items := [], queuedBytes := 0, discarded := Messages(s.items)) else marked;
      if kept.items != [] then kept
      else kept.(waiters := [], receives := RejectAll(s.receives, s.waiters, error))
  }

  datatype Event<M> = PushCall(message: M, byteLength: int) | ReceiveCall | EndCall(error: TransportError)
                    | FailCall(error: TransportError)

  function Step<M>(limits: Limits, s: QueueState<M>, e: Event<M>): QueueState<M> {
    match e
    case PushCall(message, byteLength) => AfterPush(limits, s, message, byteLength)
    case ReceiveCall => AfterReceive(limits, s)
    case EndCall(error) => AfterTerminal(s, error, false)
    case FailCall(error) => AfterTerminal(s, error, true)
  }

  // ---------------------------------------------------------------- what is promised

  function Messages<M>(items: seq<Item<M>>): (r: seq<M>)
    ensures |r| == |items|
  {
    if items == [] then [] else [items[0].message] + Messages(items[1..])
  }

  function Bytes<M>(items: seq<Item<M>>): nat {
    if items == [] then 0 else items[0].byteLength + Bytes(items[1..])
  }

  /** The messages of the successful receive calls, in the order of the calls. */
  function Received<M>(receives: seq<Deferred<M, TransportError>>): seq<M> {
    if receives == [] then []
    else
      var before := Received(receives[..|receives| - 1]);
      var last := receives[|receives| - 1].promise;
      if last.Fulfilled? then before + [last.value] else before
  }

  /** Sizes are exact and within the limits, and one side of the queue is empty. */
  ghost predicate Bounded<M>(limits: Limits, s: QueueState<M>) {
    && (s.items == [] || s.waiters == [])
    && |s.items| <= limits.maxMessages && |s.waiters| <= limits.maxPendingReceives
    && s.queuedBytes == Bytes(s.items) <= limits.maxBytes
    && (s.terminal.Some? ==> s.waiters == [])
    && (s.discarded != [] ==> s.terminal.Some? && s.items == [])
  }

  /** The waiters are exactly the unsettled promises, oldest first, and nothing newer was received. */
  ghost predicate WaitersPending<M>(receives: seq<Deferred<M, TransportError>>, waiters: seq<nat>) {
    && WaitersKnown(receives, waiters)
    && (forall i, j :: 0 <= i < j < |waiters| ==> waiters[i] < waiters[j])
    && (forall i :: 0 <= i < |waiters| ==> receives[waiters[i]].promise.Pending?)
    && (forall w :: 0 <= w < |receives| && receives[w].promise.Pending? ==> w in waiters)
    && (forall w :: 0 <= w < |receives| ==> receives[w].calls == if receives[w].Settled() then 1 else 0)
    && (waiters != [] ==> forall w :: waiters[0] <= w < |receives| ==> !receives[w].promise.Fulfilled?)
  }

  /** Every accepted message was received, is queued, or was discarded, in the order of acceptance. */
  ghost predicate Accounted<M>(s: QueueState<M>) {
    s.accepted == Received(s.receives) + Messages(s.items) + s.discarded
  }

  ghost predicate Inv<M>(limits: Limits, s: QueueState<M>) {
    Bounded(limits, s) && WaitersPending(s.receives, s.waiters) && Accounted(s)
  }

  lemma {:induction false} MessagesAppend<M>(items: seq<Item<M>>, item: Item<M>)
    ensures Messages(items + [item]) == Messages(items) + [item.message]
    ensures Bytes(items + [item]) == Bytes(items) + item.byteLength
  {
    if items != [] {
      assert (items + [item])[1..] == items[1..] + [item];
      MessagesAppend(items[1..], item);
    }
  }

  /** Resolving a promise behind which nothing was received yet adds its message at the end. */
  lemma {:induction false} ReceivedResolve<M>(receives: seq<Deferred<M, TransportError>>, w: nat, message: M)
    requires w < |receives| && receives[w].promise.Pending?
    requires forall v :: w <= v < |receives| ==> !receives[v].promise.Fulfilled?
    ensures Received(receives[w := receives[w].Settle(Fulfilled(message))]) == Received(receives) + [message]
  {
    var n := |receives| - 1;
    var resolved := receives[w := receives[w].Settle(Fulfilled(message))];
    if w == n {
      assert resolved[..n] == receives[..n];
    } else {
      assert resolved[..n] == receives[..n][w := receives[w].Settle(Fulfilled(message))];
      ReceivedResolve(receives[..n], w, message);
    }
  }

  lemma {:induction false} ReceivedReject<M>(receives: seq<Deferred<M, TransportError>>, w: nat, error: TransportError)
    requires w < |receives| && receives[w].promise.Pending?
    ensures Received(receives[w := receives[w].Settle(Rejected(error))]) == Received(receives)
  {
    var n := |receives| - 1;
    var rejected := receives[w := receives[w].Settle(Rejected(error))];
    if w == n {
      assert rejected[..n] == receives[..n];
    } else {
      assert rejected[..n] == receives[..n][w := receives[w].Settle(Rejected(error))];
      ReceivedReject(receives[..n], w, error);
    }
  }

  /** Rejecting distinct pending waiters settles each once and changes nothing else. */
  lemma {:induction false} RejectAllEffect<M>(receives: seq<Deferred<M, TransportError>>, waiters: seq<nat>,
                                              error: TransportError)
    requires WaitersKnown(receives, waiters)
    requires forall i, j :: 0 <= i < j < |waiters| ==> waiters[i] < waiters[j]
    requires forall i :: 0 <= i < |waiters| ==> receives[waiters[i]].promise.Pending?
    ensures var r := RejectAll(receives, waiters, error);
            && Received(r) == Received(receives)
            && (forall w :: 0 <= w < |r| ==>
                  r[w] == if w in waiters then Deferred(Rejected(error), receives[w].calls + 1) else receives[w])
  {
    if waiters != [] {
      var k := |waiters| - 1;
      RejectAllEffect(receives, waiters[..k], error);
      var rest := RejectAll(receives, waiters[..k], error);
      assert waiters[k] !in waiters[..k];
      ReceivedReject(rest, waiters[k], error);
      hide Received;
      forall w | 0 <= w < |receives|
        ensures w in waiters <==> w in waiters[..k] || w == waiters[k]
      {
        assert waiters == waiters[..k] + [waiters[k]];
      }
    }
  }

  lemma HandOverKeepsPending<M>(receives: seq<Deferred<M, TransportError>>, waiters: seq<nat>, message: M)
    requires WaitersPending(receives, waiters) && waiters != []
    ensures WaitersPending(receives[waiters[0] := receives[waiters[0]].Settle(Fulfilled(message))], waiters[1..])
  {
    var after := receives[waiters[0] := receives[waiters[0]].Settle(Fulfilled(message))];
    assert forall w :: 0 <= w < |receives| && w != waiters[0] ==> after[w] == receives[w];
    forall w | 0 <= w < |after| && after[w].promise.Pending?
      ensures w in waiters[1..]
    {
      assert waiters == [waiters[0]] + waiters[1..];
    }
  }

  lemma PushKeepsInv<M>(limits: Limits, s: QueueState<M>, message: M, byteLength: int)
    requires limits.Valid() && Inv(limits, s)
    ensures Inv(limits, AfterPush(limits, s, message, byteLength))
  {
    if PushOutcome(limits, s, byteLength).None? {
      if s.waiters != [] {
        HandOverKeepsPending(s.receives, s.waiters, message);
        ReceivedResolve(s.receives, s.waiters[0], message);
      } else {
        EnqueueKeepsInv(limits, s, message, byteLength);
      }
    }
  }

  lemma EnqueueKeepsInv<M>(limits: Limits, s: QueueState<M>, message: M, byteLength: int)
    requires limits.Valid() && Inv(limits, s)
    requires PushOutcome(limits, s, byteLength).None? && s.waiters == []
    ensures Inv(limits, AfterPush(limits, s, message, byteLength))
  {
    MessagesAppend(s.items, Item(byteLength, message));
    assert s.accepted + [message] == Received(s.receives) + (Messages(s.items) + [message]) + s.discarded;
  }

  lemma SettledCallKeepsPending<M>(receives: seq<Deferred<M, TransportError>>, waiters: seq<nat>,
                                   promise: Deferred<M, TransportError>)
    requires WaitersPending(receives, waiters)
    requires promise.Settled() && promise.calls == 1
    requires waiters != [] ==> !promise.promise.Fulfilled?
    ensures WaitersPending(receives + [promise], waiters)
  {
  }

  lemma WaitingCallKeepsPending<M>(receives: seq<Deferred<M, TransportError>>, waiters: seq<nat>)
    requires WaitersPending(receives, waiters)
    ensures WaitersPending(receives + [Deferred(Pending, 0)], waiters + [|receives|])
  {
    var called, waiting := receives + [Deferred(Pending, 0)], waiters + [|receives|];
    assert forall i :: 0 <= i < |waiters| ==> waiting[i] == waiters[i];
    assert forall w :: 0 <= w < |receives| ==> called[w] == receives[w];
    forall w | 0 <= w < |called| && called[w].promise.Pending?
      ensures w in waiting
    {
      if w < |receives| {
        assert w in waiters;
      } else {
        assert waiting[|waiters|] == w;
      }
    }
  }

  lemma ReceiveKeepsInv<M>(limits: Limits, s: QueueState<M>)
    requires limits.Valid() && Inv(limits, s)
    ensures Inv(limits, AfterReceive(limits, s))
  {
    var promise := ReceivePromise(limits, s);
    assert (s.receives + [promise])[..|s.receives|] == s.receives;
    if promise.Settled() {
      SettledCallKeepsPending(s.receives, s.waiters, promise);
    } else {
      WaitingCallKeepsPending(s.receives, s.waiters);
    }
    if s.items != [] {
      assert Received(s.receives) + Messages(s.items)
             == Received(s.receives) + [s.items[0].message] + Messages(s.items[1..]);
    }
  }

  lemma RejectKeepsPending<M>(receives: seq<Deferred<M, TransportError>>, waiters: seq<nat>, error: TransportError)
    requires WaitersPending(receives, waiters)
    ensures WaitersPending(RejectAll(receives, waiters, error), [])
    ensures Received(RejectAll(receives, waiters, error)) == Received(receives)
  {
    RejectAllEffect(receives, waiters, error);
  }

  lemma SetTerminalKeepsInv<M>(limits: Limits, s: QueueState<M>, error: TransportError, discard: bool)
    requires limits.Valid() && Inv(limits, s)
    ensures Inv(limits, AfterTerminal(s, error, discard))
  {
    hide WaitersPending, Received;
    RejectKeepsPending(s.receives, s.waiters, error);
    if s.terminal.None? && discard {
      assert Received(s.receives) + Messages(s.items) + []
             == Received(s.receives) + [] + Messages(s.items);
    }
  }

  lemma AcceptedGrows<M>(limits: Limits, s: QueueState<M>, e: Event<M>)
    ensures Step(limits, s, e).accepted
            == s.accepted + if e.PushCall? && PushOutcome(limits, s, e.byteLength).None? then [e.message] else []
  {
  }

  function Run<M>(limits: Limits, events: seq<Event<M>>): QueueState<M> {
    if events == [] then Initial()
    else Step(limits, Run(limits, events[..|events| - 1]), events[|events| - 1])
  }

  /** The invariant holds after any sequence of events. */
  lemma {:induction false} RunKeepsInv<M>(limits: Limits, events: seq<Event<M>>)
    requires limits.Valid()
    ensures Inv(limits, Run(limits, events))
  {
    if events != [] {
      RunKeepsInv(limits, events[..|events| - 1]);
      StepKeepsInv(limits, Run(limits, events[..|events| - 1]), events[|events| - 1]);
    }
  }

  lemma StepKeepsInv<M>(limits: Limits, s: QueueState<M>, e: Event<M>)
    requires limits.Valid() && Inv(limits, s)
    ensures Inv(limits, Step(limits, s, e))
  {
    match e
    case PushCall(message, byteLength) => PushKeepsInv(limits, s, message, byteLength);
    case ReceiveCall => ReceiveKeepsInv(limits, s);
    case EndCall(error) => SetTerminalKeepsInv(limits, s, error, false);
    case FailCall(error) => SetTerminalKeepsInv(limits, s, error, true);
  }

  // ---------------------------------------------------------------- over whole runs

  /** Messages come out of successful receives in the order they were accepted, once each. */
  lemma FirstInFirstOut<M>(limits: Limits, events: seq<Event<M>>)
    requires limits.Valid()
    ensures var s := Run(limits, events);
            && Received(s.receives) <= s.accepted
            && (s.discarded == [] ==> s.accepted == Received(s.receives) + Messages(s.items))
  {
    hide Run;
    RunKeepsInv(limits, events);
    var s := Run(limits, events);
    var handedOver, rest := Received(s.receives), Messages(s.items) + s.discarded;
    assert s.accepted == handedOver + rest;
    if s.discarded == [] {
      assert rest == Messages(s.items);
    }
  }

  /** Items and waiters never coexist, sizes are exact, and a terminated queue leaves no waiter behind. */
  lemma NobodyStranded<M>(limits: Limits, events: seq<Event<M>>)
    requires limits.Valid()
    ensures var s := Run(limits, events);
            && (s.items == [] || s.waiters == [])
            && s.queuedBytes == Bytes(s.items) <= limits.maxBytes && |s.items| <= limits.maxMessages
            && (forall w :: 0 <= w < |s.receives| ==> s.receives[w].calls <= 1)
            && (s.terminal.Some? ==> forall w :: 0 <= w < |s.receives| ==> s.receives[w].Settled())
  {
    hide Run;
    RunKeepsInv(limits, events);
  }

  /** A receive that has settled keeps its outcome through every later event. */
  lemma SettledStays<M>(limits: Limits, s: QueueState<M>, e: Event<M>, w: nat)
    requires limits.Valid() && Inv(limits, s) && w < |s.receives| && s.receives[w].Settled()
    ensures |Step(limits, s, e).receives| > w && Step(limits, s, e).receives[w] == s.receives[w]
  {
    if e.EndCall? || e.FailCall? {
      RejectAllEffect(s.receives, s.waiters, e.error);
    }
  }

  // ---------------------------------------------------------------- what each call does, by what the queue holds

  /** Some receive is still waiting. */
  ghost predicate SomebodyWaits<M>(s: QueueState<M>) {
    exists w :: 0 <= w < |s.receives| && s.receives[w].promise.Pending?
  }

  /** Receive w is the oldest that waits. */
  ghost predicate OldestWaiting<M>(s: QueueState<M>, w: nat) {
    && w < |s.receives| && s.receives[w].promise.Pending?
    && forall v :: 0 <= v < w ==> !s.receives[v].promise.Pending?
  }

  /**
   A push is accepted exactly if nothing ended the queue, the length is usable, and somebody waits or the message fits
   within both limits.  The oldest waiting receive gets it, or it goes to the end of the queue; a refused push changes
   nothing and says why.
   */
  lemma PushIsExact<M>(limits: Limits, events: seq<Event<M>>, message: M, byteLength: int)
    requires limits.Valid()
    ensures var s, t := Run(limits, events), Step(limits, Run(limits, events), PushCall(message, byteLength));
            var usable := 0 <= byteLength <= 9007199254740991;
            var fits := |s.items| < limits.maxMessages && Bytes(s.items) + byteLength <= limits.maxBytes;
            && PushOutcome(limits, s, byteLength)
               == (if s.terminal.Some? then Some(Terminated(s.terminal.value))
                   else if !usable then Some(InvalidLength)
                   else if SomebodyWaits(s) || fits then None
                   else Some(QueueFull))
            && (s.terminal.None? && usable && SomebodyWaits(s) ==>
                  exists w: nat :: OldestWaiting(s, w) && t.items == s.items && t.accepted == s.accepted + [message]
                              && t.receives == s.receives[w := Deferred(Fulfilled(message), 1)])
            && (s.terminal.None? && usable && !SomebodyWaits(s) && fits ==>
                  && t.items == s.items + [Item(byteLength, message)] && t.receives == s.receives
                  && t.accepted == s.accepted + [message])
            && (PushOutcome(limits, s, byteLength).Some? ==> t == s)
  {
    hide Run;
    RunKeepsInv(limits, events);
    var s := Run(limits, events);
    if s.waiters != [] {
      assert s.receives[s.waiters[0]].promise.Pending?;
      assert OldestWaiting(s, s.waiters[0]);
    }
  }

  /** A receive gets the oldest item, else the error that ended the queue, else waits unless too many do. */
  lemma ReceiveIsExact<M>(limits: Limits, events: seq<Event<M>>)
    requires limits.Valid()
    ensures var s, t := Run(limits, events), Step(limits, Run(limits, events), ReceiveCall);
            && |t.receives| == |s.receives| + 1 && t.receives[..|s.receives|] == s.receives
            && t.receives[|s.receives|].promise
               == (if s.items != [] then Fulfilled(s.items[0].message)
                   else if s.terminal.Some? then Rejected(s.terminal.value)
                   else if |s.waiters| == limits.maxPendingReceives then Rejected(CapacityError)
                   else Pending)
            && t.items == (if s.items != [] then s.items[1..] else [])
            && t.terminal == s.terminal && t.accepted == s.accepted && t.discarded == s.discarded
  {
    hide Run, WaitersPending, Accounted;
    RunKeepsInv(limits, events);
  }

  lemma WaitingAreRejected<M>(receives: seq<Deferred<M, TransportError>>, waiters: seq<nat>, error: TransportError)
    requires WaitersPending(receives, waiters)
    ensures waiters == [] ==> forall w :: 0 <= w < |receives| ==> !receives[w].promise.Pending?
    ensures forall w :: 0 <= w < |receives| ==>
              RejectAll(receives, waiters, error)[w]
              == if receives[w].promise.Pending? then Deferred(Rejected(error), 1) else receives[w]
  {
    RejectAllEffect(receives, waiters, error);
    hide RejectAll;
    forall w | 0 <= w < |receives|
      ensures RejectAll(receives, waiters, error)[w]
              == if receives[w].promise.Pending? then Deferred(Rejected(error), 1) else receives[w]
    {
      assert w in waiters <==> receives[w].promise.Pending?;
    }
  }

  /**
   Ending and failing: the first of them decides the error that ends the queue, and each waiting receive is rejected
   with it.  Ending keeps the items for later receives, failing discards them.
   */
  lemma TerminalIsExact<M>(limits: Limits, events: seq<Event<M>>, error: TransportError)
    requires limits.Valid()
    ensures var s := Run(limits, events);
            var t, u := Step(limits, s, EndCall(error)), Step(limits, s, FailCall(error));
            if s.terminal.Some? then t == u == s
            else
              && t.terminal == u.terminal == Some(error)
              && t.items == s.items && t.discarded == s.discarded
              && u.items == [] && u.discarded == Messages(s.items)
              && |t.receives| == |s.receives| && |u.receives| == |s.receives|
              && forall w :: 0 <= w < |s.receives| ==>
                   t.receives[w] == u.receives[w]
                   == if s.receives[w].promise.Pending? then Deferred(Rejected(error), 1) else s.receives[w]
  {
    hide Run, WaitersPending, Accounted, RejectAll;
    RunKeepsInv(limits, events);
    var s := Run(limits, events);
    WaitingAreRejected(s.receives, s.waiters, error);
  }

  lemma WaitersAreKnown<M>(limits: Limits, s: QueueState<M>)
    requires Inv(limits, s)
    ensures WaitersKnown(s.receives, s.waiters)
  {
  }

  // ---------------------------------------------------------------- the queue itself

  class BoundedMessageQueue<M> {
    const limits: Limits
    var items: seq<Item<M>>
    var waiters: seq<nat>
    var queuedBytes: int
    var terminalError: Option<TransportError>
    /** The promises handed to callers; a waiter is the index of its promise. */
    var receives: seq<Deferred<M, TransportError>>
    ghost var accepted: seq<M>
    ghost var discarded: seq<M>

    ghost function State(): QueueState<M>
      reads this
    {
      QueueState(items, waiters, queuedBytes, terminalError, receives, accepted, discarded)
    }

    ghost predicate Valid()
      reads this
    {
      limits.Valid() && Inv(limits, State())
    }

    constructor (limits: Limits)
      requires limits.Valid()
      ensures Valid() && State() == Initial() && this.limits == limits
    {
      this.limits := limits;
      items, waiters, queuedBytes, terminalError, receives := [], [], 0, None, [];
      accepted, discarded := [], [];
    }

    method Push(message: M, byteLength: int) returns (fault: Option<PushFault>)
      requires Valid()
      modifies this
      ensures Valid()
      ensures fault == PushOutcome(limits, old(State()), byteLength)
      ensures State() == AfterPush(limits, old(State()), message, byteLength)
    {
      PushKeepsInv(limits, State(), message, byteLength);
      if terminalError.Some? {
        return Some(Terminated(terminalError.value));
      }
      if !(0 <= byteLength <= MAX_SAFE_INTEGER) {
        return Some(InvalidLength);
      }
      if |waiters| > 0 {
        var waiter := waiters[0];
        waiters := waiters[1..];
        receives := receives[waiter := receives[waiter].Settle(Fulfilled(message))];
        accepted := accepted + [message];
        return None;
      }
      if |items| + 1 > limits.maxMessages || queuedBytes + byteLength > limits.maxBytes {
        return Some(QueueFull);
      }
      items := items + [Item(byteLength, message)];
      queuedBytes := queuedBytes + byteLength;
      accepted := accepted + [message];
      fault := None;
    }

    /** Hands out promise number `ticket`. */
    method Receive() returns (ticket: nat)
      requires Valid()
      modifies this
      ensures Valid() && ticket == |old(receives)|
      ensures State() == AfterReceive(limits, old(State()))
    {
      hide Bounded, WaitersPending, Accounted;
      ReceiveKeepsInv(limits, State());
      ticket := |receives|;
      if |items| > 0 {
        var item := items[0];
        items := items[1..];
        queuedBytes := queuedBytes - item.byteLength;
        receives := receives + [Deferred(Fulfilled(item.message), 1)];
      } else if terminalError.Some? {
        receives := receives + [Deferred(Rejected(terminalError.value), 1)];
      } else if |waiters| >= limits.maxPendingReceives {
        receives := receives + [Deferred(Rejected(CapacityError), 1)];
      } else {
        receives := receives + [Deferred(Pending, 0)];
        waiters := waiters + [ticket];
      }
    }

    method End(error: TransportError)
      requires Valid()
      modifies this
      ensures Valid() && State() == AfterTerminal(old(State()), error, false)
    {
      SetTerminal(error, false);
    }

    method Fail(error: TransportError)
      requires Valid()
      modifies this
      ensures Valid() && State() == AfterTerminal(old(State()), error, true)
    {
      SetTerminal(error, true);
    }

    method SetTerminal(error: TransportError, discardQueuedMessages: bool)
      requires Valid()
      modifies this
      ensures Valid() && State() == AfterTerminal(old(State()), error, discardQueuedMessages)
    {
      hide Inv, Messages, RejectAll;
      SetTerminalKeepsInv(limits, State(), error, discardQueuedMessages);
      WaitersAreKnown(limits, State());
      if terminalError.Some? {
        return;
      }
      terminalError := Some(error);
      if discardQueuedMessages {
        discarded := Messages(items);
        items := [];
        queuedBytes := 0;
      }
      if |items| == 0 {
        RejectWaiters(error);
      }
    }

    /** Rejects the waiters in order and forgets them. */
    method RejectWaiters(error: TransportError)
      requires WaitersKnown(receives, waiters)
      modifies this`receives, this`waiters
      ensures waiters == [] && receives == RejectAll(old(receives), old(waiters), error)
    {
      var rejected := waiters;
      waiters := [];
      for i := 0 to |rejected|
        invariant waiters == [] && receives == RejectAll(old(receives), rejected[..i], error)
      {
        assert rejected[..i + 1][..i] == rejected[..i];
        receives := receives[rejected[i] := receives[rejected[i]].Settle(Rejected(error))];
      }
      assert rejected[..|rejected|] == rejected;
    }
  }
}
