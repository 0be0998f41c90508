/**
 Everything the runner cannot decide: the session factory, the sessions, the target behind them, timers and
 the abort signal.  The methods answer arbitrarily; `trace` records what was asked and what was answered.
 */
module World {
  import opened Common
  import opened ExperimentTypes

  /** What can be thrown at the runner, and what it throws itself. */
  datatype Thrown =
    | Flow(phase: Phase, reason: Reason)
    | RunnerDeadline
    | RunnerAborted(at: Phase)
    | GateFailed(notApplied: bool)
    | SessionFailed(unproven: bool)
    | RemoteError(code: int)
    | RequestAborted
    | RequestTimeout
    | TransportLost
    | InFlightUnknown
    | ClientClosed
    | ProtocolBroken
    | OtherError

  /** An error that comes from outside the runner. */
  predicate Foreign(e: Thrown) {
    !e.Flow? && !e.RunnerDeadline? && !e.RunnerAborted?
  }

  /** The phase in which an experiment fails with this error: opening, unless the error says otherwise. */
  function PhaseOf(e: Thrown): Phase {
    match e
    case Flow(phase, _) => phase
    case RunnerAborted(at) => at
    case _ => OpenPhase
  }

  datatype Unit = Unit

  datatype ProbeFault = ProbeAborted | ProbeTimedOut | ProbeBroken

  datatype SeedFirst = SuppressedFirst | ForwardedFirst | SeedOutcomeFirst(completion: Completion)

  datatype ProgressFirst = ProgressObserved | ProgressOutcomeFirst(completion: Completion)

  datatype Trigger = Trigger(receipt: Receipt, responseIntercepted: bool)

  datatype Event =
    | Opened(session: nat)
    | OpenRefused(error: Thrown)
    | Closed(session: nat, process: Option<Process>)
    | ResetCalled(session: nat, answer: Result<bool, Thrown>)
    | Settled(session: nat, probe: Probe)
    | Unsettled(session: nat, fault: ProbeFault)
    | Armed(session: nat, requestId: string, disconnect: bool)
    | NotArmed(session: nat)
    | Began(session: nat, requestId: string)
    | NotBegun(session: nat)
    | NotSubscribed(session: nat)
    | ResponseSuppressed(requestId: string)
    | ProgressSeen(requestId: string)
    | DisconnectTriggered(requestId: string, trigger: Trigger)
    | TriggerFailed(requestId: string, error: Thrown)
    | AwaitedInVain(requestId: string, error: Thrown)
    | EndedEarly(requestId: string, early: Option<Completion>)
    | WriteAccepted(requestId: string, receipt: Receipt)
    | WriteUnknown(requestId: string, error: Thrown)
    | CancelWritten(requestId: string, receipt: Receipt)
    | CancelUnknown(requestId: string, cause: Option<Thrown>)
    | Classified(requestId: string, completion: Completion)
    | AbortSeen

  // What the awaits on one call leave behind.

  function SeedEvent(requestId: string, r: Result<SeedFirst, Thrown>): Event {
    match r
    case Success(SuppressedFirst) => ResponseSuppressed(requestId)
    case Success(ForwardedFirst) => EndedEarly(requestId, None)
    case Success(SeedOutcomeFirst(completion)) => EndedEarly(requestId, Some(completion))
    case Failure(e) => AwaitedInVain(requestId, e)
  }

  function ProgressEvent(requestId: string, r: Result<ProgressFirst, Thrown>): Event {
    match r
    case Success(ProgressObserved) => ProgressSeen(requestId)
    case Success(ProgressOutcomeFirst(completion)) => EndedEarly(requestId, Some(completion))
    case Failure(e) => AwaitedInVain(requestId, e)
  }

  function CompletionEvent(requestId: string, r: Result<Completion, Thrown>): Event {
    match r
    case Success(completion) => Classified(requestId, completion)
    case Failure(e) => AwaitedInVain(requestId, e)
  }

  function WriteEvent(requestId: string, r: Result<Receipt, Thrown>): Event {
    match r
    case Success(receipt) => WriteAccepted(requestId, receipt)
    case Failure(e) => WriteUnknown(requestId, e)
  }

  function CancelEvent(requestId: string, r: Result<Option<Receipt>, Thrown>): Event {
    match r
    case Success(Some(receipt)) => CancelWritten(requestId, receipt)
    case Success(None) => CancelUnknown(requestId, None)
    case Failure(e) => CancelUnknown(requestId, Some(e))
  }

  /**
   Spawn safety as an automaton: at most one session lives, only it is used, and once a termination is
   unproven nothing is opened any more.  It also notes the process that a close reported without its termination
   being confirmed, and whether the abort signal was seen.
   */
  datatype Spawn = Spawn(
    live: Option<nat>, next: nat, stuck: bool, refused: Option<Process>, abortSeen: bool, safe: bool)

  /** The session an event speaks to. */
  function SessionOf(e: Event): Option<nat> {
    match e
    case Closed(s, _) => Some(s)
    case ResetCalled(s, _) => Some(s)
    case Settled(s, _) => Some(s)
    case Unsettled(s, _) => Some(s)
    case Armed(s, _, _) => Some(s)
    case NotArmed(s) => Some(s)
    case Began(s, _) => Some(s)
    case NotBegun(s) => Some(s)
    case NotSubscribed(s) => Some(s)
    case _ => None
  }

  /** After this, no further target may be started: its termination is not proven. */
  predicate Unproven(e: Event) {
    || (e.OpenRefused? && e.error == SessionFailed(true))
    || (e.TriggerFailed? && e.error == SessionFailed(true))
    || (e.Closed? && (e.process.None? || !IsConfirmed(e.process.value)))
  }

  function SpawnStep(st: Spawn, e: Event): Spawn {
    match e
    case Opened(s) =>
      st.(live := Some(s), next := s + 1, safe := st.safe && st.live.None? && !st.stuck && s == st.next)
    case OpenRefused(_) => st.(stuck := st.stuck || Unproven(e), safe := st.safe && st.live.None? && !st.stuck)
    case Closed(s, process) =>
      st.(live := None,
          stuck := st.stuck || Unproven(e),
          refused := if Unproven(e) then process else st.refused,
          safe := st.safe && st.live == Some(s))
    case TriggerFailed(_, _) => st.(stuck := st.stuck || Unproven(e))
    case AbortSeen => st.(abortSeen := true)
    case _ => st.(safe := st.safe && (SessionOf(e).Some? ==> st.live == SessionOf(e)))
  }

  function SpawnOf(trace: seq<Event>): Spawn {
    if trace == [] then Spawn(None, 0, false, None, false, true)
    else SpawnStep(SpawnOf(trace[..|trace| - 1]), trace[|trace| - 1])
  }

  /** A call of which the outcome was learned: how it completed, and its write if that is known to be accepted. */
  datatype Call = Call(requestId: string, completion: Completion, write: Option<Receipt>)

  /** The calls of which a history tells the outcome, and the write of the one it speaks of now. */
  datatype Tally = Tally(write: Option<Receipt>, calls: seq<Call>)

  function TallyStep(tally: Tally, e: Event): Tally {
    match e
    case WriteAccepted(_, receipt) => tally.(write := Some(receipt))
    case WriteUnknown(_, _) => tally.(write := None)
    case EndedEarly(id, early) =>
      Tally(None, if early.Some? then tally.calls + [Call(id, early.value, None)] else tally.calls)
    case Classified(id, completion) => Tally(None, tally.calls + [Call(id, completion, tally.write)])
    case _ => tally
  }

  function TallyOf(trace: seq<Event>): Tally {
    if trace == [] then Tally(None, []) else TallyStep(TallyOf(trace[..|trace| - 1]), trace[|trace| - 1])
  }

  lemma TallyAppend(trace: seq<Event>, e: Event)
    ensures TallyOf(trace + [e]) == TallyStep(TallyOf(trace), e)
  {
    assert (trace + [e])[..|trace|] == trace;
  }

  lemma SpawnAppend(trace: seq<Event>, e: Event)
    ensures SpawnOf(trace + [e]) == SpawnStep(SpawnOf(trace), e)
  {
    assert (trace + [e])[..|trace|] == trace;
  }

  // ---------------------------------------------------------------- what the automaton's verdict means

  predicate OpenAttempt(e: Event) {
    e.Opened? || e.OpenRefused?
  }

  /** The session opened at i is closed later, before position n. */
  ghost predicate ClosedAfter(trace: seq<Event>, i: nat, n: nat)
    requires i < |trace| && trace[i].Opened? && n <= |trace|
  {
    exists k :: i < k < n && trace[k].Closed? && trace[k].session == trace[i].session
  }

  lemma {:induction false} SafePrefix(trace: seq<Event>, n: nat)
    requires n <= |trace| && SpawnOf(trace).safe
    ensures SpawnOf(trace[..n]).safe
    ensures SpawnOf(trace[..n]).stuck ==> SpawnOf(trace).stuck
    ensures n < |trace| ==> SpawnOf(trace[..n + 1]) == SpawnStep(SpawnOf(trace[..n]), trace[n])
  {
    if n == |trace| {
      assert trace[..n] == trace;
    } else {
      var init := trace[..|trace| - 1];
      SafePrefix(init, n);
      assert init[..n] == trace[..n];
      assert trace[..n + 1][..n] == trace[..n];
      if n == |trace| - 1 {
        assert trace[..n + 1] == trace;
      }
    }
  }

  lemma {:induction false} OpenedIsLiveOrClosed(trace: seq<Event>, i: nat)
    requires SpawnOf(trace).safe && i < |trace| && trace[i].Opened?
    ensures trace[i].session < SpawnOf(trace).next
    ensures SpawnOf(trace).live == Some(trace[i].session) || ClosedAfter(trace, i, |trace|)
  {
    var n := |trace| - 1;
    if i < n {
      var init := trace[..n];
      OpenedIsLiveOrClosed(init, i);
      if ClosedAfter(init, i, n) {
        var k :| i < k < n && init[k].Closed? && init[k].session == init[i].session;
        assert trace[k].Closed? && trace[k].session == trace[i].session;
      } else if trace[n].Closed? {
        assert trace[n].session == trace[i].session;
      }
    }
  }

  lemma {:induction false} ClosedIsNotLive(trace: seq<Event>, i: nat)
    requires SpawnOf(trace).safe && i < |trace| && trace[i].Closed?
    ensures SpawnOf(trace).live != Some(trace[i].session) && trace[i].session < SpawnOf(trace).next
  {
    if i < |trace| - 1 {
      ClosedIsNotLive(trace[..|trace| - 1], i);
    } else {
      LiveIsBelowNext(trace[..|trace| - 1]);
    }
  }

  lemma {:induction false} LiveIsBelowNext(trace: seq<Event>)
    ensures SpawnOf(trace).live.Some? ==> SpawnOf(trace).live.value < SpawnOf(trace).next
  {
    if trace != [] {
      LiveIsBelowNext(trace[..|trace| - 1]);
    }
  }

  lemma {:induction false} UnprovenSticks(trace: seq<Event>, i: nat)
    requires i < |trace| && Unproven(trace[i])
    ensures SpawnOf(trace).stuck || !SpawnOf(trace).safe
  {
    if i < |trace| - 1 {
      UnprovenSticks(trace[..|trace| - 1], i);
    }
  }

  /**
   In a safe history nothing is opened while a session lives, nothing is opened after an unproven
   termination, every event speaks to a session that is open, and no session is opened or closed twice.
   */
  lemma SpawnSafety(trace: seq<Event>, i: nat, j: nat)
    requires SpawnOf(trace).safe && i < j < |trace|
    ensures trace[i].Opened? && OpenAttempt(trace[j]) ==> ClosedAfter(trace, i, j)
    ensures Unproven(trace[i]) ==> !OpenAttempt(trace[j])
    ensures trace[i].Opened? && trace[j].Opened? ==> trace[i].session != trace[j].session
    ensures trace[i].Closed? && SessionOf(trace[j]).Some? ==> SessionOf(trace[j]).value != trace[i].session
  {
    var before := trace[..j];
    SafePrefix(trace, j);
    SafePrefix(trace, j + 1);
    assert before[i] == trace[i];
    if trace[i].Opened? {
      OpenedIsLiveOrClosed(before, i);
      if ClosedAfter(before, i, j) {
        var k :| i < k < j && before[k].Closed? && before[k].session == before[i].session;
        assert trace[k] == before[k];
      }
    }
    if Unproven(trace[i]) {
      UnprovenSticks(before, i);
    }
    if trace[i].Closed? {
      ClosedIsNotLive(before, i);
    }
  }

  /** The session opened at i was closed between i and j, and its process is confirmed to have terminated. */
  ghost predicate ConfirmedBetween(trace: seq<Event>, i: nat, j: nat)
    requires i < j <= |trace| && trace[i].Opened?
  {
    exists k :: i < k < j && trace[k].Closed? && trace[k].session == trace[i].session
                && trace[k].process.Some? && IsConfirmed(trace[k].process.value)
  }

  /** Before anything is opened, all that was opened earlier has terminated for certain. */
  lemma OpenedAfterConfirmation(trace: seq<Event>, i: nat, j: nat)
    requires SpawnOf(trace).safe && i < j < |trace| && trace[i].Opened? && OpenAttempt(trace[j])
    ensures ConfirmedBetween(trace, i, j)
  {
    SpawnSafety(trace, i, j);
    var k :| i < k < j && trace[k].Closed? && trace[k].session == trace[i].session;
    SpawnSafety(trace, k, j);
  }

  lemma FlagsStep(trace: seq<Event>, e: Event)
    ensures SpawnOf(trace + [e]).stuck == (SpawnOf(trace).stuck || Unproven(e))
    ensures SpawnOf(trace + [e]).abortSeen == (SpawnOf(trace).abortSeen || e == AbortSeen)
  {
    hide SpawnOf;
    SpawnAppend(trace, e);
  }

  lemma SomewhereOrLast(init: seq<Event>, e: Event)
    ensures (exists i :: 0 <= i < |init + [e]| && Unproven((init + [e])[i]))
            <==> Unproven(e) || exists i :: 0 <= i < |init| && Unproven(init[i])
  {
    hide Unproven;
    var trace := init + [e];
    if Unproven(e) {
      assert trace[|init|] == e;
    } else if i :| 0 <= i < |init| && Unproven(init[i]) {
      assert trace[i] == init[i];
    }
  }

  /** The two flags say whether a termination is unproven, and whether the abort signal was seen. */
  lemma {:induction false} FlagsMean(trace: seq<Event>)
    ensures SpawnOf(trace).stuck <==> exists i :: 0 <= i < |trace| && Unproven(trace[i])
    ensures SpawnOf(trace).abortSeen <==> AbortSeen in trace
  {
    if trace != [] {
      hide SpawnOf, Unproven;
      var init, e := trace[..|trace| - 1], trace[|trace| - 1];
      FlagsMean(init);
      FlagsStep(init, e);
      SomewhereOrLast(init, e);
      assert trace == init + [e];
    }
  }

  /** The process noted as refused is that of a close whose termination is not confirmed. */
  lemma {:induction false} RefusedMeans(trace: seq<Event>)
    ensures SpawnOf(trace).refused.Some? ==>
              exists i :: 0 <= i < |trace| && trace[i].Closed? && trace[i].process == SpawnOf(trace).refused
                          && !IsConfirmed(trace[i].process.value)
  {
    if trace != [] {
      var init := trace[..|trace| - 1];
      RefusedMeans(init);
      hide SpawnOf;
      assert trace == init + [trace[|trace| - 1]];
      SpawnAppend(init, trace[|trace| - 1]);
      if SpawnOf(init).refused.Some? && SpawnOf(trace).refused == SpawnOf(init).refused {
        var i :| 0 <= i < |init| && init[i].Closed? && init[i].process == SpawnOf(init).refused
                 && !IsConfirmed(init[i].process.value);
        assert trace[i] == init[i];
      }
    }
  }

  /** Once no session lives, every opened session has been closed. */
  lemma AllClosed(trace: seq<Event>, i: nat)
    requires SpawnOf(trace).safe && SpawnOf(trace).live.None? && i < |trace| && trace[i].Opened?
    ensures ClosedAfter(trace, i, |trace|)
  {
    OpenedIsLiveOrClosed(trace, i);
  }

  /** Names a length, so that a fact can be kept behind it. */
  predicate Mark(n: nat) {
    true
  }

  class World {
    var nextSession: nat
    var nextEvidence: nat
    var aborted: bool
    ghost var trace: seq<Event>

    /** The automaton's state after the trace, kept up to date event by event. */
    ghost var spawned: Spawn

    /** The calls that the trace tells of, likewise. */
    ghost var told: Tally

    /** These summarise the trace; the definitions are reached through Mark only, so that callers use the summaries. */
    ghost predicate Recorded()
      reads this
    {
      forall n: nat {:trigger Mark(n)} ::
        Mark(n) && n == |trace| ==> spawned == SpawnOf(trace) && told == TallyOf(trace)
    }

    ghost predicate Valid()
      reads this
    {
      && Recorded() && spawned.safe && spawned.next == nextSession && (spawned.abortSeen ==> aborted)
      && (spawned.live.Some? || !spawned.stuck ==> spawned.refused.None?)
    }

    lemma Summary()
      requires Valid()
      ensures spawned == SpawnOf(trace) && told == TallyOf(trace)
    {
      assert Mark(|trace|);
    }

    /** The live session is s, and the history so far is safe. */
    ghost predicate Live(s: nat)
      reads this
    {
      Valid() && spawned.live == Some(s)
    }

    constructor ()
      ensures Valid() && trace == [] && spawned == Spawn(None, 0, false, None, false, true)
    {
      nextSession, nextEvidence, aborted := 0, 0, false;
      trace, spawned, told := [], Spawn(None, 0, false, None, false, true), Tally(None, []);
    }

    ghost method Record(e: Event)
      requires Recorded()
      modifies this`trace, this`spawned, this`told
      ensures Recorded() && trace == old(trace) + [e] && spawned == SpawnStep(old(spawned), e)
      ensures told == TallyStep(old(told), e)
    {
      assert Mark(|trace|);
      SpawnAppend(trace, e);
      TallyAppend(trace, e);
      trace, spawned, told := trace + [e], SpawnStep(spawned, e), TallyStep(told, e);
    }

    /** An event that leaves the live session as it is. */
    ghost method Note(e: Event)
      requires Valid() && !e.Opened? && !e.OpenRefused? && !e.Closed? && !e.TriggerFailed? && !e.AbortSeen?
      requires SessionOf(e).Some? ==> spawned.live == SessionOf(e)
      modifies this`trace, this`spawned, this`told
      ensures Valid() && trace == old(trace) + [e] && spawned == old(spawned) && told == TallyStep(old(told), e)
    {
      Record(e);
    }

    method IsAborted() returns (r: bool)
      requires Valid()
      modifies this`aborted
      ensures Valid() && r == aborted && (old(aborted) ==> aborted)
    {
      if !aborted {
        aborted := *;
      }
      r := aborted;
    }

    /** Looks at the abort signal and notes it if it is set. */
    method SeesAbort() returns (r: bool)
      requires Valid()
      modifies this`aborted, this`trace, this`spawned, this`told
      ensures Valid() && told == old(told) && spawned == old(spawned).(abortSeen := r || old(spawned.abortSeen))
      ensures trace == if r then old(trace) + [AbortSeen] else old(trace)
      ensures old(aborted) ==> r
    {
      r := IsAborted();
      if r {
        Record(AbortSeen);
      }
    }

    method Open() returns (r: Result<nat, Thrown>)
      requires Valid() && spawned.live.None? && !spawned.stuck
      modifies this
      ensures Valid() && (old(aborted) ==> aborted)
      ensures r.Success? ==>
                && trace == old(trace) + [Opened(r.value)] && spawned.refused.None?
                && spawned.live == Some(r.value) && !spawned.stuck && spawned.abortSeen == old(spawned.abortSeen)
      ensures r.Failure? ==>
                && Foreign(r.error)
                && trace == old(trace) + [OpenRefused(r.error)]
                && spawned.live.None? && spawned.stuck == (r.error == SessionFailed(true))
                && spawned.abortSeen == old(spawned.abortSeen) && spawned.refused.None?
      ensures told == old(told)
    {
      var succeeds: bool := *;
      if succeeds {
        Record(Opened(nextSession));
        r := Success(nextSession);
        nextSession := nextSession + 1;
      } else {
        var error := AnyError();
        Record(OpenRefused(error));
        r := Failure(error);
      }
      aborted := MaybeAborted();
    }

    method MaybeAborted() returns (r: bool)
      ensures aborted ==> r
    {
      r := *;
      r := r || aborted;
    }

    static method AnyError() returns (e: Thrown)
      ensures Foreign(e)
    {
      e := *;
      if !Foreign(e) {
        e := OtherError;
      }
    }

    method Close(s: nat) returns (r: Result<Process, Unit>)
      requires Live(s)
      modifies this
      ensures Valid() && spawned.live.None?
      ensures spawned.stuck <==> old(spawned.stuck) || r.Failure? || !IsConfirmed(r.value)
      ensures spawned.refused == if r.Success? && !IsConfirmed(r.value) then Some(r.value) else None
      ensures spawned.abortSeen == old(spawned.abortSeen) && (old(aborted) ==> aborted)
      ensures trace == old(trace) + [Closed(s, if r.Success? then Some(r.value) else None)]
      ensures told == old(told)
    {
      var answered: bool, process: Process := *, *;
      r := if answered then Success(process) else Failure(Unit);
      Record(Closed(s, if r.Success? then Some(r.value) else None));
      aborted := MaybeAborted();
    }

    /** The answer of the reset tool: whether it succeeded, or an error. */
    method CallReset(s: nat) returns (r: Result<bool, Thrown>)
      requires Live(s)
      modifies this
      ensures Live(s) && spawned == old(spawned) && (r.Failure? ==> Foreign(r.error))
      ensures trace == old(trace) + [ResetCalled(s, r)]
      ensures told == old(told)
    {
      var answered: bool, ok: bool := *, *;
      if answered {
        r := Success(ok);
      } else {
        var e := AnyError();
        r := Failure(e);
      }
      Note(ResetCalled(s, r));
      aborted := MaybeAborted();
    }

    method Settle(s: nat) returns (r: Result<Probe, ProbeFault>)
      requires Live(s)
      modifies this
      ensures Live(s) && spawned == old(spawned)
      ensures trace == old(trace) + [if r.Success? then Settled(s, r.value) else Unsettled(s, r.error)]
      ensures told == old(told)
    {
      var settles: bool, value: int, fault: ProbeFault := *, *, *;
      if settles {
        r := Success(Probe(value, nextEvidence));
        nextEvidence := nextEvidence + 1;
      } else {
        r := Failure(fault);
      }
      Note(if r.Success? then Settled(s, r.value) else Unsettled(s, r.error));
      aborted := MaybeAborted();
    }

    method Arm(s: nat, requestId: string, disconnect: bool) returns (ok: bool)
      requires Live(s)
      modifies this
      ensures Live(s) && spawned == old(spawned)
      ensures trace == old(trace) + [if ok then Armed(s, requestId, disconnect) else NotArmed(s)]
      ensures told == old(told)
    {
      ok := *;
      Note(if ok then Armed(s, requestId, disconnect) else NotArmed(s));
    }

    method Begin(s: nat, requestId: string) returns (ok: bool)
      requires Live(s)
      modifies this
      ensures Live(s) && spawned == old(spawned)
      ensures trace == old(trace) + [if ok then Began(s, requestId) else NotBegun(s)]
      ensures told == old(told)
    {
      ok := *;
      Note(if ok then Began(s, requestId) else NotBegun(s));
      aborted := MaybeAborted();
    }

    method Subscribe(s: nat) returns (ok: bool)
      requires Live(s)
      modifies this
      ensures Live(s) && spawned == old(spawned)
      ensures trace == if ok then old(trace) else old(trace) + [NotSubscribed(s)]
      ensures told == old(told)
    {
      ok := *;
      if !ok {
        Note(NotSubscribed(s));
      }
    }

    /** What a bounded await adds to the errors of its promise: the deadline, or the abort signal. */
    method TimerError(phase: Phase) returns (e: Thrown)
      requires Valid()
      modifies this`aborted
      ensures Valid() && (old(aborted) ==> aborted)
      ensures e.RunnerDeadline? || (e == RunnerAborted(phase) && aborted)
    {
      var expired: bool := *;
      if expired {
        e := RunnerDeadline;
      } else {
        e := RunnerAborted(phase);
        aborted := true;
      }
    }

    /** What a bounded await rejects with: one of those, or the promise's own error. */
    method BoundedError(phase: Phase) returns (e: Thrown)
      requires Valid()
      modifies this`aborted
      ensures Valid() && (old(aborted) ==> aborted)
      ensures Foreign(e) || e.RunnerDeadline? || (e == RunnerAborted(phase) && aborted)
    {
      var own: bool := *;
      if own {
        e := AnyError();
      } else {
        e := TimerError(phase);
      }
    }

    /** The race between the suppression gate's observation and the outcome of the call. */
    method AwaitSeed(requestId: string, phase: Phase) returns (r: Result<SeedFirst, Thrown>)
      requires Valid()
      modifies this
      ensures Valid() && spawned == old(spawned)
      ensures r.Failure? ==> !r.error.Flow? && (r.error.RunnerAborted? ==> r.error == RunnerAborted(phase) && aborted)
      ensures trace == old(trace) + [SeedEvent(requestId, r)]
      ensures told == TallyStep(old(told), SeedEvent(requestId, r))
    {
      r := *;
      if r.Failure? {
        var e := BoundedError(phase);
        r := Failure(e);
      }
      Note(SeedEvent(requestId, r));
      aborted := MaybeAborted();
    }

    /** The race between a matching progress notification and the outcome of the call. */
    method AwaitProgress(requestId: string, phase: Phase) returns (r: Result<ProgressFirst, Thrown>)
      requires Valid()
      modifies this
      ensures Valid() && spawned == old(spawned)
      ensures r.Failure? ==> r.error.RunnerDeadline? || (r.error == RunnerAborted(phase) && aborted)
      ensures trace == old(trace) + [ProgressEvent(requestId, r)]
      ensures told == TallyStep(old(told), ProgressEvent(requestId, r))
    {
      r := *;
      if r.Failure? {
        var e := TimerError(phase);
        r := Failure(e);
      }
      Note(ProgressEvent(requestId, r));
      aborted := MaybeAborted();
    }

    /** How a call ended, awaited as a value: only the deadline or the abort signal can make that fail. */
    method AwaitCompletion(requestId: string, phase: Phase) returns (r: Result<Completion, Thrown>)
      requires Valid()
      modifies this
      ensures Valid() && spawned == old(spawned)
      ensures r.Failure? ==> r.error.RunnerDeadline? || (r.error == RunnerAborted(phase) && aborted)
      ensures trace == old(trace) + [CompletionEvent(requestId, r)]
      ensures told == TallyStep(old(told), CompletionEvent(requestId, r))
    {
      r := *;
      if r.Failure? {
        var e := TimerError(phase);
        r := Failure(e);
      }
      Note(CompletionEvent(requestId, r));
      aborted := MaybeAborted();
    }

    /** The trigger of the armed disconnect gate; a session may report an unproven termination instead. */
    method AwaitTrigger(requestId: string, phase: Phase) returns (r: Result<Trigger, Thrown>)
      requires Valid()
      modifies this
      ensures Valid() && spawned == old(spawned).(stuck := old(spawned.stuck) || r == Failure(SessionFailed(true)))
      ensures r.Failure? ==> !r.error.Flow? && (r.error.RunnerAborted? ==> r.error == RunnerAborted(phase) && aborted)
      ensures trace == old(trace) + [if r.Success? then DisconnectTriggered(requestId, r.value)
                                     else TriggerFailed(requestId, r.error)]
      ensures told == old(told)
    {
      var triggers: bool, trigger: Trigger := *, *;
      if triggers {
        r := Success(trigger);
        Note(DisconnectTriggered(requestId, trigger));
      } else {
        var e := BoundedError(phase);
        r := Failure(e);
        Record(TriggerFailed(requestId, e));
      }
      aborted := MaybeAborted();
    }

    method AwaitWrite(requestId: string, phase: Phase) returns (r: Result<Receipt, Thrown>)
      requires Valid()
      modifies this
      ensures Valid() && spawned == old(spawned)
      ensures r.Failure? ==> !r.error.Flow? && (r.error.RunnerAborted? ==> r.error == RunnerAborted(phase) && aborted)
      ensures trace == old(trace) + [WriteEvent(requestId, r)]
      ensures told == TallyStep(old(told), WriteEvent(requestId, r))
    {
      r := *;
      if r.Failure? {
        var e := BoundedError(phase);
        r := Failure(e);
      }
      Note(WriteEvent(requestId, r));
      aborted := MaybeAborted();
    }

    /** The write of the cancellation; it resolves to nothing when the request was no longer pending. */
    method AwaitCancel(requestId: string, phase: Phase) returns (r: Result<Option<Receipt>, Thrown>)
      requires Valid()
      modifies this
      ensures Valid() && spawned == old(spawned)
      ensures r.Failure? ==> !r.error.Flow? && (r.error.RunnerAborted? ==> r.error == RunnerAborted(phase) && aborted)
      ensures trace == old(trace) + [CancelEvent(requestId, r)]
      ensures told == old(told)
    {
      r := *;
      if r.Failure? {
        var e := BoundedError(phase);
        r := Failure(e);
      }
      Note(CancelEvent(requestId, r));
      aborted := MaybeAborted();
    }

    /** The outcome of a call: how it completed, or why that is not known. */
    method AwaitOutcome(requestId: string, phase: Phase) returns (r: Result<bool, Thrown>)
      requires Valid()
      modifies this
      ensures Valid() && spawned == old(spawned)
      ensures r.Failure? ==> !r.error.Flow? && (r.error.RunnerAborted? ==> r.error == RunnerAborted(phase) && aborted)
      ensures trace == old(trace) + [Classified(requestId, CompletionOf(r))]
      ensures told == TallyStep(old(told), Classified(requestId, CompletionOf(r)))
    {
      r := *;
      if r.Failure? {
        var e := BoundedError(phase);
        r := Failure(e);
      }
      Note(Classified(requestId, CompletionOf(r)));
      aborted := MaybeAborted();
    }

    method CreateRunId() returns (runId: string) {
      runId := *;
    }
  }

  function ClassifyAttemptError(e: Thrown): Completion {
    match e
    case RemoteError(code) => RemoteRejected(code)
    case RequestAborted => Unknown(AbortedReason)
    case RunnerAborted(_) => Unknown(AbortedReason)
    case RequestTimeout => Unknown(TimeoutReason)
    case RunnerDeadline => Unknown(TimeoutReason)
    case TransportLost => Unknown(TransportReason)
    case InFlightUnknown => Unknown(InterruptedReason)
    case ClientClosed => Unknown(ClosedReason)
    case ProtocolBroken => Unknown(ProtocolReason)
    case _ => Unknown(UnexpectedReason)
  }

  /** A fulfilled outcome is a success or a tool error; a rejected one is classified. */
  function CompletionOf(outcome: Result<bool, Thrown>): Completion {
    if outcome.Failure? then ClassifyAttemptError(outcome.error)
    else if outcome.value then Succeeded
    else ReportedToolError
  }

  /** What a reported completion tells of the outcome: each kind of completion stands for outcomes of its own. */
  lemma CompletionTells(outcome: Result<bool, Thrown>)
    ensures var completion := CompletionOf(outcome);
            && (completion == Succeeded <==> outcome == Success(true))
            && (completion == ReportedToolError <==> outcome == Success(false))
            && (forall code :: completion == RemoteRejected(code) <==> outcome == Failure(RemoteError(code)))
            && (completion == Unknown(AbortedReason) <==>
                  outcome.Failure? && (outcome.error.RequestAborted? || outcome.error.RunnerAborted?))
            && (completion == Unknown(TimeoutReason) <==>
                  outcome.Failure? && (outcome.error.RequestTimeout? || outcome.error.RunnerDeadline?))
            && (completion == Unknown(TransportReason) <==> outcome == Failure(TransportLost))
            && (completion == Unknown(InterruptedReason) <==> outcome == Failure(InFlightUnknown))
            && (completion == Unknown(ClosedReason) <==> outcome == Failure(ClientClosed))
            && (completion == Unknown(ProtocolReason) <==> outcome == Failure(ProtocolBroken))
            && (completion == Unknown(UnexpectedReason) <==>
                  outcome.Failure? && (outcome.error.Flow? || outcome.error.GateFailed? || outcome.error.SessionFailed?
                                       || outcome.error.OtherError?))
  {
  }
}
