/** The experiment runner: seven strategies and the cleanup after them. */
module Runner {
  import opened Common
  import opened ExperimentTypes
  import opened World
  import opened Evidence

  function RequireAcceptedKnown(attempt: Attempt, phase: Phase): Result<Unit, Thrown> {
    if attempt.write.None? then Failure(Flow(phase, TargetFailed))
    else if attempt.completion.Unknown? then
      Failure(Flow(phase, if attempt.completion.reason.AbortedReason? then WasAborted else UnexpectedUnknown))
    else Success(Unit.Unit)
  }

  /** Only an accepted call of known outcome will do; otherwise the reason says what is missing. */
  lemma AcceptedKnownExactly(attempt: Attempt, phase: Phase)
    ensures var r := RequireAcceptedKnown(attempt, phase);
            && (r.Success? <==> attempt.write.Some? && !attempt.completion.Unknown?)
            && (r == Failure(Flow(phase, TargetFailed)) <==> attempt.write.None?)
            && (r == Failure(Flow(phase, WasAborted)) <==>
                  attempt.write.Some? && attempt.completion == Unknown(AbortedReason))
            && (r == Failure(Flow(phase, UnexpectedUnknown)) <==>
                  attempt.write.Some? && attempt.completion.Unknown? && !attempt.completion.reason.AbortedReason?)
  {
  }

  /** A retry that was made is accepted and known, or its write and its outcome show why it will not do. */
  lemma RetryIsDecided(t: seq<Event>, b: nat, s: nat, id: string, attempts: seq<Attempt>, experiment: ExperimentName)
    requires |t| == b + 3 && RetryMadeAt(t, b, s, id, attempts)
    ensures var r := RequireAcceptedKnown(attempts[1], RetryPhase);
            if r.Success? then RetryAt(t, b, s, id, attempts)
            else
              && r.error.Flow? && r.error.phase.RetryPhase? && !r.error.reason.TerminationUnproven?
              && RetryBroken(t, b, s, id, RetryPhase) && ReasonShown(t, experiment, RetryPhase, r.error.reason)
              && WhyOf(t, experiment) == UnexpectedOutcome
  {
  }

  /** The final probe does not undo a retry, and is what is missing if it fails. */
  lemma RetryStays(t: seq<Event>, u: seq<Event>, b: nat, s: nat, id: string, attempts: seq<Attempt>)
    requires RetryAt(t, b, s, id, attempts) && t <= u
    ensures RetryAt(u, b, s, id, attempts) && RetryMadeAt(u, b, s, id, attempts)
    ensures ProbeMissing(u, b + 3, s) ==> RetryBroken(u, b, s, id, ObservePhase)
  {
  }

  /**
   Whatever was thrown becomes the phase and the reason of an inconclusive result.  Only a session that reports it
   makes a termination unproven, and nothing but the runner's own abort is blamed on another phase than opening.
   */
  function NormalizeFlowFailure(e: Thrown, aborted: bool): (f: Thrown)
    ensures f.Flow? && (e.Flow? ==> f == e)
    ensures !e.Flow? ==> (f.reason.TerminationUnproven? <==> e == SessionFailed(true))
    ensures f.phase == PhaseOf(e)
    ensures e.RunnerAborted? ==> f.phase == e.at
    ensures !e.Flow? && !e.RunnerAborted? ==> f.phase.OpenPhase?
    ensures !e.Flow? ==>
              (f.reason.WasAborted? <==> e.RunnerAborted? || (aborted && e != SessionFailed(true)))
    ensures !e.Flow? ==> f.reason.TerminationUnproven? || f.reason.WasAborted? || f.reason.TargetFailed?
  {
    if e.Flow? then e
    else if e == SessionFailed(true) then Flow(OpenPhase, TerminationUnproven)
    else if e.RunnerAborted? then Flow(e.at, WasAborted)
    else Flow(OpenPhase, if aborted then WasAborted else TargetFailed)
  }

  /** The phase in which a step reports an error that need not be a flow failure yet. */
  function FlowPhase(e: Thrown, otherwise: Phase): Phase {
    if e.Flow? then e.phase else otherwise
  }

  /**
   Before cleanup (history u) the experiment was proven and judged; cleanup (history t) leaves that judgement, or
   overturns it by a recheck.
   */
  lemma JudgedIsSound(u: seq<Event>, t: seq<Event>, k: nat, scenario: Scenario, result: ExperimentResult,
                      judged: Conclusion, probe: Probe, s: nat)
    requires u <= t && |u| == k + LengthOf(result.experiment)
    requires Proven(u, k, scenario, result.runId, result.experiment, result.fault, result.attempts)
    requires result.baseline == Some(u[k + 2].probe) && u[|u| - 1] == Settled(s, probe)
    requires result.seed == SeedProbe(u, k, result.experiment)
    requires result.boundary == BoundaryProbe(u, k, result.experiment)
    requires ExpectedValue(scenario.oracle, result.experiment).Some?
    requires judged == Judge(ExpectedValue(scenario.oracle, result.experiment).value, probe.value)
    requires JudgedAs(t, |u|, s, scenario.persistence, judged, probe, result.conclusion, result.final, result.cleanup)
    requires CleanupSound(t, k, scenario.oracle, result)
    requires OwnAttempts(result.attempts, result.runId, result.experiment)
    requires Reports(TallyOf(t).calls, TallyOf(t[..k]).calls, result.attempts)
    ensures Sound(t, k, |t|, scenario, result)
  {
    hide FaultAt, BrokenIn, CleanupSound, OwnAttempts, Reports, TallyOf;
    assert t[..|t|] == t;
    FaultStays(u, t, k + 3, u[k].session, u[|u| - 1].session, result.runId, result.experiment, result.fault,
               result.attempts, scenario.oracle);
  }

  /** Without a judged final effect the history broke the script, or the seed call misbehaved. */
  lemma UnjudgedIsSound(u: seq<Event>, t: seq<Event>, k: nat, scenario: Scenario, result: ExperimentResult)
    requires k <= |u| && u <= t && !result.conclusion.Pass?
    requires result.conclusion.Inconclusive? ==>
               && BrokenIn(u, k, result.runId, result.experiment, scenario.oracle, result.conclusion.phase)
               && FaultSupported(u, k, result.runId, result.experiment, result.fault, result.attempts, scenario.oracle)
               && (result.conclusion.reason.TerminationUnproven? ==> SpawnOf(t).stuck)
    requires result.conclusion.Violation? ==>
               && SeedViolatedAt(u, k, result.runId, result.experiment, scenario.oracle)
               && result.conclusion == Violation(scenario.oracle.once, u[k + 9].probe.value, SeedEffect)
               && SeedViolationReported(u, k, result)
    requires CleanupSound(t, k, scenario.oracle, result)
    requires OwnAttempts(result.attempts, result.runId, result.experiment)
    requires Reports(TallyOf(t).calls, TallyOf(t[..k]).calls, result.attempts)
    ensures Sound(t, k, |t|, scenario, result)
  {
    hide BrokenIn, FaultSupported, CleanupSound, OwnAttempts, Reports, TallyOf;
    assert t[..|t|] == t;
    if result.conclusion.Inconclusive? {
      BrokenStays(u, t, k, result.runId, result.experiment, scenario.oracle, result.conclusion.phase);
      SupportStays(u, t, k, result.runId, result.experiment, result.fault, result.attempts, scenario.oracle);
    }
  }

  class ExperimentRun {
    const world: World
    const scenario: Scenario
    const experiment: ExperimentName
    const runId: string
    var attempts: seq<Attempt>
    var baseline: Option<Probe>
    var boundary: Option<Probe>
    var canSpawn: bool
    var conclusion: Conclusion
    var fault: Fault
    var final: Option<Probe>
    var openedAny: bool
    var requiresFreshCleanup: bool
    var seed: Option<Probe>
    var session: Option<nat>
    var unconfirmedProcess: Option<Process>
    /** The calls the history told of before this experiment. */
    ghost const earlier: seq<Call>

    /**
     The session the runner holds is the one that lives; it may spawn exactly while every termination is proven; every
     call of which it learned the outcome is reported, once and in order.
     */
    ghost predicate Valid()
      reads this, world
    {
      Base() && Reports(world.told.calls, earlier, attempts)
    }

    /** The same, but for a call that has yet to be reported. */
    ghost predicate Base()
      reads this, world
    {
      && world.Valid()
      && world.spawned.live == session && OwnAttempts(attempts, runId, experiment)
      && (world.spawned.stuck <==> !canSpawn) && world.spawned.refused == unconfirmedProcess
      && (session.Some? ==> openedAny)
    }

    /** Valid, but for an unproven termination that the error e has yet to report. */
    ghost predicate ValidBut(e: Thrown)
      reads this, world
    {
      && world.Valid()
      && world.spawned.live == session && OwnAttempts(attempts, runId, experiment)
      && Reports(world.told.calls, earlier, attempts)
      && (world.spawned.stuck <==> !canSpawn || e == SessionFailed(true))
      && world.spawned.refused == unconfirmedProcess
      && (session.Some? ==> openedAny)
      && Honest(e)
    }

    /** An error that already is a flow failure reports an unproven termination only if there is one. */
    ghost predicate Honest(e: Thrown)
      reads this
    {
      e.Flow? && e.reason.TerminationUnproven? ==> !canSpawn
    }

    /** The fault is claimed, or not proven for no particular reason yet. */
    ghost predicate Undecided()
      reads this
    {
      fault.NotProven? ==> fault.why.UnexpectedOutcome?
    }

    /**
     The history shows why this error: by its last event, which carries it or gives its reason.  The same event shows
     why the fault is not proven, if it is not.
     */
    ghost predicate Shown(e: Thrown)
      reads this, world
    {
      && (fault.NotProven? ==> fault.why == WhyOf(world.trace, experiment))
      && if e.Flow? then ReasonShown(world.trace, experiment, e.phase, e.reason)
      else ErrorShown(world.trace, e)
    }

    constructor (world: World, scenario: Scenario, experiment: ExperimentName, runId: string)
      requires world.Valid() && world.spawned.live.None? && !world.spawned.stuck
      ensures Valid() && canSpawn && !openedAny && session.None? && attempts == [] && !requiresFreshCleanup
      ensures this.world == world && this.scenario == scenario && this.experiment == experiment && this.runId == runId
      ensures conclusion == Inconclusive(OpenPhase, TargetFailed) && fault == NotProven(UnexpectedOutcome)
      ensures boundary.None? && seed.None? && final.None?
    {
      this.world, this.scenario, this.experiment, this.runId := world, scenario, experiment, runId;
      attempts := [];
      baseline, boundary, seed, final := None, None, None, None;
      canSpawn := true;
      conclusion := Inconclusive(OpenPhase, TargetFailed);
      fault := NotProven(UnexpectedOutcome);
      openedAny, requiresFreshCleanup := false, false;
      session, unconfirmedProcess := None, None;
      earlier := world.told.calls;
    }

    // -------------------------------------------------------------- bounded calls to the session
    //
    // The ghost parameter b of a step is the length of the history when it starts.  A step that fails leaves an event
    // behind that departs from what the experiment needs.

    method AssertNotAborted(phase: Phase) returns (r: Result<Unit, Thrown>)
      requires Valid()
      modifies world
      ensures Valid() && (r.Failure? ==> r.error == Flow(phase, WasAborted))
      ensures world.told == old(world.told)
      ensures world.trace == if r.Failure? then old(world.trace) + [AbortSeen] else old(world.trace)
      ensures world.spawned.abortSeen == (r.Failure? || old(world.spawned.abortSeen))
    {
      var aborted := world.SeesAbort();
      r := if aborted then Failure(Flow(phase, WasAborted)) else Success(Unit.Unit);
    }

    function RequireSession(phase: Phase): Result<nat, Thrown>
      reads this
    {
      if session.Some? then Success(session.value) else Failure(Flow(phase, TargetFailed))
    }

    method CallReset(s: nat) returns (r: Result<bool, Thrown>)
      requires Valid() && Undecided() && session == Some(s)
      modifies world
      ensures Valid() && (r.Failure? ==> r.error.Flow? && r.error.phase == ResetPhase && Honest(r.error))
      ensures r.Success? ==> world.trace == old(world.trace) + [ResetCalled(s, Success(r.value))]
      ensures r.Failure? ==>
                || world.trace == old(world.trace) + [AbortSeen]
                || (exists e :: world.trace == old(world.trace) + [ResetCalled(s, Failure(e))])
      ensures r.Failure? ==> Shown(r.error)
    {
      var _ :- AssertNotAborted(ResetPhase);
      r := world.CallReset(s);
      if r.Failure? {
        var completion := ClassifyAttemptError(r.error);
        r := Failure(Flow(ResetPhase, if completion == Unknown(AbortedReason) then WasAborted else TargetFailed));
      }
    }

    /** The reason of a failure is the abort signal, the probe's own, or that it did not settle in time. */
    method SettleForPhase(s: nat, phase: Phase) returns (r: Result<Probe, Thrown>)
      requires Valid() && Undecided() && session == Some(s)
      modifies world
      ensures Valid()
      ensures r.Success? ==> world.trace == old(world.trace) + [Settled(s, r.value)]
      ensures r.Failure? ==> |world.trace| == |old(world.trace)| + 1 && old(world.trace) <= world.trace
      ensures r.Failure? ==>
                var e := world.trace[|old(world.trace)|];
                && (e == AbortSeen || (e.Unsettled? && e.session == s))
                && r.error == Flow(phase, if e.AbortSeen? || e.fault.ProbeAborted? || world.aborted then WasAborted
                                          else if e.fault.ProbeTimedOut? then ProbeUnsettled
                                          else ProbeFailed)
      ensures r.Failure? ==> Shown(r.error)
    {
      var _ :- AssertNotAborted(phase);
      var probe := world.Settle(s);
      if probe.Success? {
        return Success(probe.value);
      }
      var aborted := world.IsAborted();
      if probe.error.ProbeAborted? || aborted {
        return Failure(Flow(phase, WasAborted));
      }
      r := Failure(Flow(phase, if probe.error.ProbeTimedOut? then ProbeUnsettled else ProbeFailed));
    }

    /** A call that cannot be sent is blamed on the abort signal exactly if that was seen before or after. */
    method BeginExercise(s: nat, requestId: string, phase: Phase) returns (r: Result<Unit, Thrown>)
      requires Valid() && Undecided() && session == Some(s)
      modifies world
      ensures Valid() && world.told == old(world.told)
      ensures r.Success? ==> world.trace == old(world.trace) + [Began(s, requestId)]
      ensures r.Failure? ==>
                || (world.trace == old(world.trace) + [AbortSeen] && r.error == Flow(phase, WasAborted))
                || (world.trace == old(world.trace) + [NotBegun(s), AbortSeen] && r.error == Flow(phase, WasAborted))
                || (world.trace == old(world.trace) + [NotBegun(s)] && r.error == Flow(phase, TargetFailed))
      ensures r.Failure? ==> Shown(r.error)
    {
      var _ :- AssertNotAborted(phase);
      var ok := world.Begin(s, requestId);
      if !ok {
        assert world.trace + [AbortSeen] == old(world.trace) + [NotBegun(s), AbortSeen];
        var _ :- AssertNotAborted(phase);
        return Failure(Flow(phase, TargetFailed));
      }
      r := Success(Unit.Unit);
    }

    /** The write and the outcome of one call; neither failing makes the observation fail. */
    method ObserveHandle(requestId: string, role: Role, phase: Phase) returns (attempt: Attempt)
      requires Base()
      modifies world
      ensures Base() && world.told.calls == old(world.told.calls) + [CallOf(attempt)]
      ensures old(world.trace) <= world.trace && |world.trace| == |old(world.trace)| + 2
      ensures ReportedAt(world.trace, |old(world.trace)|, attempt, role) && attempt.requestId == requestId
    {
      var write := world.AwaitWrite(requestId, phase);
      var outcome := world.AwaitOutcome(requestId, phase);
      attempt := Attempt(CompletionOf(outcome), role, requestId,
                         if write.Success? then Some(write.value) else None);
    }

    method RunNormalAttempt(requestId: string, role: Role, ghost b: nat) returns (r: Result<Attempt, Thrown>)
      requires Valid() && Undecided() && |world.trace| == b
      modifies world
      ensures Base() && old(world.trace) <= world.trace
      ensures world.told.calls == if r.Success? then old(world.told.calls) + [CallOf(r.value)]
                                  else old(world.told.calls)
      ensures r.Success? ==>
                && session.Some? && |world.trace| == b + 3 && world.trace[b] == Began(session.value, requestId)
                && ReportedAt(world.trace, b + 1, r.value, role) && r.value.requestId == requestId
      ensures r.Failure? ==> r.error.Flow? && r.error.phase == RetryPhase && Honest(r.error)
      ensures r.Failure? && session.Some? ==> b < |world.trace| && Denied(world.trace[b], ToBegin(session.value))
      ensures r.Failure? && session.Some? ==> Shown(r.error)
    {
      var s :- RequireSession(RetryPhase);
      var _ :- BeginExercise(s, requestId, RetryPhase);
      var attempt := ObserveHandle(requestId, role, RetryPhase);
      r := Success(attempt);
    }

    // -------------------------------------------------------------- opening and closing

    method CloseCurrentSession(phase: Phase) returns (r: Result<Process, Thrown>)
      requires Valid() && Undecided()
      modifies world, this`session, this`canSpawn, this`unconfirmedProcess
      ensures Valid() && session.None? && old(world.trace) <= world.trace
      ensures r.Success? ==>
                && canSpawn == old(canSpawn) && old(session).Some? && IsConfirmed(r.value)
                && world.trace == old(world.trace) + [Closed(old(session).value, Some(r.value))]
      ensures r.Failure? && old(session).Some? ==>
                && r.error == Flow(phase, TerminationUnproven) && !canSpawn
                && |world.trace| == |old(world.trace)| + 1 && Unproven(world.trace[|old(world.trace)|])
                && world.trace[|old(world.trace)|].Closed?
                && world.trace[|old(world.trace)|].session == old(session).value
      ensures r.Failure? ==> r.error.Flow? && Honest(r.error)
      ensures r.Failure? && old(session).Some? ==> Shown(r.error)
    {
      var s :- RequireSession(phase);
      session := None;
      var process := world.Close(s);
      if process.Failure? {
        canSpawn := false;
        return Failure(Flow(phase, TerminationUnproven));
      }
      if !IsConfirmed(process.value) {
        canSpawn := false;
        unconfirmedProcess := Some(process.value);
        return Failure(Flow(phase, TerminationUnproven));
      }
      r := Success(process.value);
    }

    method OpenAdditionalSession() returns (r: Result<Unit, Thrown>)
      requires Valid() && Undecided() && session.None?
      modifies world, this`session, this`canSpawn, this`openedAny
      ensures Valid() && old(world.trace) <= world.trace && (old(openedAny) ==> openedAny)
      ensures r.Success? ==>
                && canSpawn == old(canSpawn) && session.Some?
                && world.trace == old(world.trace) + [Opened(session.value)]
      ensures r.Failure? ==> r.error.Flow? && r.error.phase == OpenPhase && session.None? && Honest(r.error)
      ensures r.Failure? && old(canSpawn) ==>
                |old(world.trace)| < |world.trace| && Denied(world.trace[|old(world.trace)|], ToOpen)
      ensures !old(canSpawn) ==> r == Failure(Flow(OpenPhase, TerminationUnproven)) && world.trace == old(world.trace)
      ensures r.Failure? && old(canSpawn) ==> Shown(r.error)
    {
      if !canSpawn {
        return Failure(Flow(OpenPhase, TerminationUnproven));
      }
      var _ :- AssertNotAborted(OpenPhase);
      var opened' := world.Open();
      if opened'.Success? {
        session, openedAny := Some(opened'.value), true;
        return Success(Unit.Unit);
      }
      var aborted := world.IsAborted();
      var flow := NormalizeFlowFailure(opened'.error, aborted);
      if flow.reason.TerminationUnproven? {
        canSpawn := false;
      }
      r := Failure(flow);
    }

    // -------------------------------------------------------------- steps shared by the strategies

    method PrepareBaseline(ghost b: nat) returns (r: Result<Unit, Thrown>)
      requires Valid() && Undecided() && |world.trace| == b + 1
      modifies world, this`baseline
      ensures Valid() && old(world.trace) <= world.trace
      ensures r.Success? ==>
                && session.Some? && baseline.Some? && baseline.value.value == scenario.oracle.baseline
                && world.trace == old(world.trace)
                                  + [ResetCalled(session.value, Success(true)), Settled(session.value, baseline.value)]
      ensures baseline == if ProbeAt(world.trace, b + 2).Some? then ProbeAt(world.trace, b + 2) else old(baseline)
      ensures r.Failure? ==> r.error.Flow? && Honest(r.error)
      ensures r.Failure? && session.Some? ==> 
                BaselineBrokenAfter(world.trace, b, session.value, scenario.oracle, PhaseOf(r.error))
      ensures r.Failure? && session.Some? ==> Shown(r.error)
    {
      var s :- RequireSession(ResetPhase);
      var reset :- CallReset(s);
      if !reset {
        return Failure(Flow(ResetPhase, TargetFailed));
      }
      var probe :- SettleForPhase(s, BaselinePhase);
      baseline := Some(probe);
      if probe.value != scenario.oracle.baseline {
        return Failure(Flow(BaselinePhase, TargetFailed));
      }
      r := Success(Unit.Unit);
    }

    /** The experiments that begin with a suppressed seed call. */
    predicate Seeds() {
      experiment.SuppressCompletedResponse? || HasSeedCheck(experiment)
    }

    /** Arms the gate that is to withhold the response, and sends the seed call. */
    method SendSeed(seedId: string, ghost b: nat) returns (r: Result<Unit, Thrown>)
      requires Valid() && Undecided() && |world.trace| == b
      modifies world
      ensures Valid() && old(world.trace) <= world.trace
      ensures r.Success? ==>
                session.Some? && world.trace == old(world.trace) + [Armed(session.value, seedId, false),
                                                                    Began(session.value, seedId)]
      ensures r.Failure? ==> r.error.Flow? && r.error.phase.SeedPhase? && Honest(r.error)
      ensures r.Failure? && session.Some? ==> SeedBroken(world.trace, b, session.value, seedId, SeedPhase)
      ensures r.Failure? && session.Some? ==> Shown(r.error)
    {
      hide Reports, OwnAttempts, ReasonShown, ErrorShown, WhyOf, SuppressionBroken;
      var s :- RequireSession(SeedPhase);
      var armed := world.Arm(s, seedId, false);
      if !armed {
        NotArmedIsShown(world.trace, experiment, SeedPhase);
        return Failure(Flow(SeedPhase, TargetFailed));
      }
      r := BeginExercise(s, seedId, SeedPhase);
    }

    /** Sends the seed call, waits for its response to be withheld, and cancels it. */
    method RunSuppressedSeed(seedId: string, ghost b: nat) returns (r: Result<Unit, Thrown>)
      requires Valid() && Undecided() && |world.trace| == b && attempts == [] && OwnId(seedId, runId)
      requires Seeds()
      modifies world, this`attempts, this`fault
      ensures Valid() && old(world.trace) <= world.trace
      ensures r.Success? ==>
                && session.Some? && |world.trace| == b + 6 && SeedAt(world.trace, b, session.value, seedId)
                && fault == old(fault) && |attempts| == 1 && SeedReportedAt(world.trace, b, attempts[0])
      ensures r.Failure? ==> (r.error.Flow? || r.error.RunnerAborted?) && Honest(r.error)
      ensures r.Failure? && session.Some? ==> SeedBroken(world.trace, b, session.value, seedId, PhaseOf(r.error))
      ensures fault.NotProven? || fault == old(fault)
      ensures r.Failure? && session.Some? ==> Shown(r.error)
    {
      hide Reports, OwnAttempts, OwnId, ReasonShown, ErrorShown, AwaitErrorShown, SuppressionBroken, WhyOf,
        SeedBroken;
      var _ :- SendSeed(seedId, b);
      r := AwaitSuppressedSeed(seedId, b + 2);
      if r.Failure? {
        SuppressionBreaksSeed(world.trace, b, session.value, seedId, FlowPhase(r.error, SeedPhase));
      }
      if r.Success? || r.error.Flow? {
        return;
      }
      if r.error.RunnerAborted? {
        SeedAbortIsShown(world.trace, experiment, r.error);
        return;
      }
      SeedErrorIsShown(world.trace, experiment, r.error);
      if r.error.RunnerDeadline? {
        fault := NotProven(UnexpectedOutcome);
        return Failure(Flow(SeedPhase, UnexpectedUnknown));
      }
      r := Failure(Flow(SeedPhase, TargetFailed));
    }

    /** The part of the seed call that runs once it was sent. */
    method AwaitSuppressedSeed(seedId: string, ghost b: nat) returns (r: Result<Unit, Thrown>)
      requires Valid() && Undecided() && |world.trace| == b && OwnId(seedId, runId)
      requires Seeds() && attempts == []
      modifies world, this`attempts, this`fault
      ensures Valid() && old(world.trace) <= world.trace
      ensures r.Success? ==>
                && |world.trace| == b + 4 && fault == old(fault)
                && world.trace[b] == ResponseSuppressed(seedId)
                && world.trace[b + 1].WriteAccepted? && world.trace[b + 1].requestId == seedId
                && world.trace[b + 2].CancelWritten? && world.trace[b + 2].requestId == seedId
                && world.trace[b + 3] == Classified(seedId, Unknown(AbortedReason))
                && attempts
                   == old(attempts)
                      + [Attempt(Unknown(AbortedReason), SeedAttempt, seedId, Some(world.trace[b + 1].receipt))]
      ensures r.Failure? ==>
                && SuppressionBroken(world.trace, b, seedId, FlowPhase(r.error, SeedPhase)) && Honest(r.error)
                && (r.error.RunnerAborted? ==> r.error.at == SeedPhase)
      ensures fault.NotProven? || fault == old(fault)
      ensures r.Failure? && r.error.Flow? ==> Shown(r.error)
      ensures r.Failure? && !r.error.Flow? ==> AwaitErrorShown(world.trace, r.error) && Undecided()
    {
      hide CancellationBroken, Reports, OwnAttempts, OwnId;
      ghost var before := world.told.calls;
      var first :- world.AwaitSeed(seedId, SeedPhase);
      if !first.SuppressedFirst? {
        r := ReportEarlyOutcome(seedId, first, before);
        return;
      }
      r := FinishSuppressedSeed(seedId, b + 1);
    }

    /** The withheld call is cancelled and must end as aborted. */
    method FinishSuppressedSeed(seedId: string, ghost b: nat) returns (r: Result<Unit, Thrown>)
      requires Valid() && Undecided() && |world.trace| == b && OwnId(seedId, runId)
      requires Seeds() && attempts == []
      modifies world, this`attempts, this`fault
      ensures Valid() && old(world.trace) <= world.trace
      ensures r.Success? ==>
                && |world.trace| == b + 3 && fault == old(fault)
                && world.trace[b].WriteAccepted? && world.trace[b].requestId == seedId
                && world.trace[b + 1].CancelWritten? && world.trace[b + 1].requestId == seedId
                && world.trace[b + 2] == Classified(seedId, Unknown(AbortedReason))
                && attempts
                   == old(attempts)
                      + [Attempt(Unknown(AbortedReason), SeedAttempt, seedId, Some(world.trace[b].receipt))]
      ensures r.Failure? ==>
                && CancellationBroken(world.trace, b, seedId, FlowPhase(r.error, SeedPhase)) && Honest(r.error)
                && (r.error.RunnerAborted? ==> r.error.at == SeedPhase)
      ensures fault.NotProven? || fault == old(fault)
      ensures r.Failure? && r.error.Flow? ==> Shown(r.error)
      ensures r.Failure? && !r.error.Flow? ==> AwaitErrorShown(world.trace, r.error) && Undecided()
    {
      hide Reports, OwnAttempts, OwnId, CancellationBroken, ReasonShown, WhyOf, AwaitErrorShown;
      var receipt :- CancelSuppressed(seedId, b);
      ghost var before := world.told.calls;
      var outcome := world.AwaitCompletion(seedId, SeedPhase);
      if outcome != Success(Unknown(AbortedReason)) {
        UncancelledIsShown(world.trace, b, seedId, experiment);
      }
      var completion :- outcome;
      var attempt := Attempt(completion, SeedAttempt, seedId, Some(receipt));
      AttemptAdded(before, earlier, attempts, attempt, runId, experiment);
      attempts := attempts + [attempt];
      if completion != Unknown(AbortedReason) {
        fault := NotProven(UnexpectedOutcome);
        return Failure(Flow(FaultPhase, FaultNotProven));
      }
      r := Success(Unit.Unit);
    }

    /** The seed call completed before its response could be withheld. */
    method ReportEarlyOutcome(seedId: string, first: SeedFirst, ghost before: seq<Call>)
      returns (r: Result<Unit, Thrown>)
      requires Base() && !first.SuppressedFirst? && OwnId(seedId, runId)
      requires Reports(before, earlier, attempts) && world.told.write.None?
      requires world.told.calls == if first.SeedOutcomeFirst? then before + [Call(seedId, first.completion, None)]
                                   else before
      requires Seeds() && attempts == [] && world.trace != [] && world.trace[|world.trace| - 1].EndedEarly?
      modifies world, this`attempts, this`fault
      ensures Valid() && old(world.trace) <= world.trace && fault == NotProven(CompletedBeforeFault)
      ensures r == Failure(Flow(FaultPhase, FaultNotProven))
      ensures r.Failure? ==> Shown(r.error)
    {
      hide Reports, OwnAttempts, OwnId;
      fault := NotProven(CompletedBeforeFault);
      var completion: Completion;
      if first.SeedOutcomeFirst? {
        completion := first.completion;
      } else {
        var late := world.AwaitOutcome(seedId, SeedPhase);
        completion := CompletionOf(late);
      }
      var attempt := Attempt(completion, SeedAttempt, seedId, None);
      AttemptAdded(before, earlier, attempts, attempt, runId, experiment);
      attempts := attempts + [attempt];
      r := Failure(Flow(FaultPhase, FaultNotProven));
    }

    /** The withheld call was written, and its cancellation is. */
    method CancelSuppressed(seedId: string, ghost b: nat) returns (r: Result<Receipt, Thrown>)
      requires Valid() && Undecided() && |world.trace| == b
      requires Seeds()
      modifies world
      ensures Valid() && old(world.trace) <= world.trace
      ensures r.Success? ==>
                && |world.trace| == b + 2 && world.trace[b] == WriteAccepted(seedId, r.value)
                && world.trace[b + 1].CancelWritten? && world.trace[b + 1].requestId == seedId
      ensures r.Failure? ==> Honest(r.error)
      ensures r.Failure? ==>
                && CancellationBroken(world.trace, b, seedId, FlowPhase(r.error, SeedPhase))
                && (r.error.RunnerAborted? ==> r.error.at == SeedPhase)
      ensures r.Failure? && r.error.Flow? ==> Shown(r.error)
      ensures r.Failure? && !r.error.Flow? ==> AwaitErrorShown(world.trace, r.error) && Undecided()
      ensures world.told.calls == old(world.told.calls) && (r.Success? ==> world.told.write == Some(r.value))
    {
      hide Reports, OwnAttempts, OwnId;
      var receipt :- world.AwaitWrite(seedId, SeedPhase);
      var cancelled := world.AwaitCancel(seedId, SeedPhase);
      if cancelled.Failure? {
        return Failure(Flow(SeedPhase, if cancelled.error.RunnerAborted? then WasAborted else TargetFailed));
      }
      if cancelled.value.None? {
        return Failure(Flow(SeedPhase, TargetFailed));
      }
      r := Success(receipt);
    }

    /** Whether the withheld call had exactly its one effect; if it had not, that is the conclusion. */
    method VerifySeedEffect() returns (r: Result<bool, Thrown>)
      requires Valid() && Undecided()
      modifies world, this`seed, this`conclusion
      ensures Valid() && old(world.trace) <= world.trace
      ensures r.Success? ==>
                && session.Some? && seed.Some?
                && world.trace == old(world.trace) + [Settled(session.value, seed.value)]
                && (r.value <==> seed.value.value == scenario.oracle.once)
                && conclusion == (if r.value then old(conclusion)
                                  else Violation(scenario.oracle.once, seed.value.value, SeedEffect))
      ensures r.Failure? ==> r.error.Flow? && r.error.phase == SeedPhase && Honest(r.error)
      ensures r.Failure? ==> conclusion == old(conclusion) && seed == old(seed)
      ensures r.Failure? && session.Some? ==> ProbeMissing(world.trace, |old(world.trace)|, session.value)
      ensures r.Failure? && session.Some? ==> Shown(r.error)
    {
      var s :- RequireSession(SeedPhase);
      var probe :- SettleForPhase(s, SeedPhase);
      seed := Some(probe);
      if probe.value == scenario.oracle.once {
        return Success(true);
      }
      conclusion := Violation(scenario.oracle.once, probe.value, SeedEffect);
      r := Success(false);
    }

    method VerifyPersistenceBoundary() returns (r: Result<Unit, Thrown>)
      requires Valid() && Undecided()
      modifies world, this`boundary
      ensures Valid() && old(world.trace) <= world.trace
      ensures r.Success? ==>
                && session.Some? && boundary.Some? && boundary.value.value == scenario.oracle.once
                && world.trace == old(world.trace) + [Settled(session.value, boundary.value)]
      ensures var p := ProbeAt(world.trace, |old(world.trace)|); boundary == if p.Some? then p else old(boundary)
      ensures r.Failure? ==> r.error.Flow? && r.error.phase == BoundaryPhase && Honest(r.error)
      ensures r.Failure? && session.Some? ==>
                ValueMissed(world.trace, |old(world.trace)|, session.value, scenario.oracle.once)
      ensures r.Failure? && session.Some? ==> Shown(r.error)
    {
      var s :- RequireSession(BoundaryPhase);
      var probe :- SettleForPhase(s, BoundaryPhase);
      boundary := Some(probe);
      if probe.value != scenario.oracle.once {
        return Failure(Flow(BoundaryPhase, TargetFailed));
      }
      r := Success(Unit.Unit);
    }

    method ConcludeFromFinal(expected: int) returns (r: Result<Unit, Thrown>)
      requires Valid() && Undecided()
      modifies world, this`final, this`conclusion
      ensures Valid() && old(world.trace) <= world.trace
      ensures r.Success? ==>
                && session.Some? && final.Some?
                && |world.trace| == |old(world.trace)| + 1
                && world.trace[|old(world.trace)|] == Settled(session.value, final.value)
                && conclusion == Judge(expected, final.value.value)
      ensures r.Failure? ==> r.error.Flow? && r.error.phase == ObservePhase && Honest(r.error)
      ensures r.Failure? ==> conclusion == old(conclusion) && final == old(final)
      ensures r.Failure? && session.Some? ==> ProbeMissing(world.trace, |old(world.trace)|, session.value)
      ensures r.Failure? && session.Some? ==> Shown(r.error)
    {
      var s :- RequireSession(ObservePhase);
      var probe :- SettleForPhase(s, ObservePhase);
      final := Some(probe);
      conclusion := Judge(expected, probe.value);
      r := Success(Unit.Unit);
    }

    /** Opens another session and checks that the effect survived, as every restarting strategy does. */
    method OpenAtBoundary(ghost b: nat) returns (r: Result<Unit, Thrown>)
      requires Valid() && Undecided() && session.None? && |world.trace| == b
      modifies world, this`session, this`canSpawn, this`openedAny, this`boundary
      ensures Valid() && old(world.trace) <= world.trace && (old(openedAny) ==> openedAny)
      ensures r.Success? ==>
                && canSpawn == old(canSpawn) && session.Some? && |world.trace| == b + 2
                && ReopenedAt(world.trace, b, session.value, scenario.oracle)
                && boundary.Some? && boundary == ProbeAt(world.trace, b + 1)
      ensures r.Failure? ==> r.error.Flow? && Honest(r.error)
      ensures r.Failure? && old(canSpawn) ==> ReopenBroken(world.trace, b, scenario.oracle, PhaseOf(r.error))
      ensures r.Failure? && old(canSpawn) ==> Shown(r.error)
    {
      hide ReasonShown, ErrorShown, WhyOf;
      var _ :- OpenAdditionalSession();
      r := VerifyPersistenceBoundary();
    }

    /** Replaces the session of the seed call by a fresh one. */
    method RestartSeeded(ghost b: nat) returns (r: Result<Process, Thrown>)
      requires Valid() && Undecided() && |world.trace| == b
      modifies world, this`session, this`canSpawn, this`unconfirmedProcess, this`openedAny, this`boundary
      ensures Valid() && old(world.trace) <= world.trace && (old(openedAny) ==> openedAny)
      ensures r.Success? ==>
                && canSpawn == old(canSpawn) && old(session).Some? && session.Some? && |world.trace| == b + 3
                && RestartAt(world.trace, b, old(session).value, session.value, r.value, scenario.oracle)
                && boundary.Some? && boundary == ProbeAt(world.trace, b + 2)
      ensures r.Failure? ==> r.error.Flow? && Honest(r.error)
      ensures r.Failure? && old(session).Some? && old(canSpawn) ==>
                RestartLost(world.trace, b, old(session).value, false, scenario.oracle, PhaseOf(r.error))
      ensures r.Failure? && old(session).Some? && old(canSpawn) ==> Shown(r.error)
    {
      hide ReasonShown, ErrorShown, WhyOf;
      var oldProcess :- CloseCurrentSession(SeedPhase);
      var _ :- OpenAtBoundary(b + 1);
      r := Success(oldProcess);
    }

    /** Sends the retry, observes and reports it. */
    method MakeRetry(retryId: string, ghost b: nat) returns (r: Result<Attempt, Thrown>)
      requires Valid() && Undecided() && |attempts| == 1 && |world.trace| == b && OwnId(retryId, runId)
      requires HasSeedCheck(experiment) || experiment.DisconnectAfterRequestWriteAccepted?
      modifies world, this`attempts
      ensures Valid() && old(world.trace) <= world.trace && |attempts| > 0 && attempts[0] == old(attempts[0])
      ensures r.Success? ==>
                && session.Some? && |world.trace| == b + 3 && |attempts| == 2 && r.value == attempts[1]
                && RetryMadeAt(world.trace, b, session.value, retryId, attempts)
      ensures r.Failure? ==> r.error.Flow? && r.error.phase == RetryPhase && Honest(r.error)
      ensures r.Failure? ==> attempts == old(attempts)
      ensures r.Failure? && session.Some? ==> RetryBroken(world.trace, b, session.value, retryId, RetryPhase)
      ensures r.Failure? && session.Some? ==> Shown(r.error)
    {
      hide Reports, OwnAttempts, OwnId, ReportedAt, ReasonShown, ErrorShown, WhyOf;
      ghost var before := world.told.calls;
      r := RunNormalAttempt(retryId, RetryAttempt, b);
      if r.Success? {
        AttemptAdded(before, earlier, attempts, r.value, runId, experiment);
        attempts := attempts + [r.value];
      }
    }

    /** The retry and the final probe, as the strategies end that claim their fault before judging the retry. */
    method RetryAndConclude(retryId: string, claim: Fault, ghost b: nat) returns (r: Result<Unit, Thrown>)
      requires Valid() && Undecided() && |attempts| == 1 && |world.trace| == b && OwnId(retryId, runId)
      requires HasSeedCheck(experiment) && !claim.NotProven?
      modifies world, this`attempts, this`fault, this`final, this`conclusion
      ensures Valid() && old(world.trace) <= world.trace
      ensures r.Success? ==>
                && session.Some? && final.Some? && |world.trace| == b + 4
                && RetryAt(world.trace, b, session.value, retryId, attempts)
                && world.trace[b + 3] == Settled(session.value, final.value)
                && fault == claim && conclusion == Judge(scenario.oracle.once, final.value.value)
      ensures r.Failure? ==> r.error.Flow? && Honest(r.error)
      ensures r.Failure? && session.Some? ==> RetryBroken(world.trace, b, session.value, retryId, PhaseOf(r.error))
      ensures |attempts| > 0 && attempts[0] == old(attempts[0])
      ensures || fault == old(fault)
              || (&& session.Some? && fault == claim
                  && RetryMadeAt(world.trace, b, session.value, retryId, attempts))
      ensures r.Failure? && session.Some? ==> Shown(r.error)
    {
      hide Reports, OwnAttempts, OwnId, ReasonShown, ErrorShown, RetryMadeAt, RetryAt, RetryBroken, ProbeMissing,
        RequireAcceptedKnown, WhyOf;
      var attempt :- MakeRetry(retryId, b);
      ghost var s, made := session.value, world.trace;
      RetryIsDecided(made, b, s, retryId, attempts, experiment);
      fault := claim;
      var _ :- RequireAcceptedKnown(attempt, RetryPhase);
      r := ConcludeFromFinal(scenario.oracle.once);
      RetryStays(made, world.trace, b, s, retryId, attempts);
    }

    /** Restart, retry and final probe, as the strategies end that restart after the seed call. */
    method RetryInNewSession(retryId: string, claim: Process -> Fault, ghost b: nat) returns (r: Result<Unit, Thrown>)
      requires Valid() && Undecided() && |attempts| == 1 && |world.trace| == b && OwnId(retryId, runId)
      requires HasSeedCheck(experiment)
      requires forall process :: !claim(process).NotProven?
      modifies world, this
      ensures Valid() && old(world.trace) <= world.trace && baseline == old(baseline) && seed == old(seed)
      ensures (old(openedAny) ==> openedAny) && requiresFreshCleanup == old(requiresFreshCleanup)
      ensures r.Success? ==>
                && canSpawn == old(canSpawn) && old(session).Some? && session.Some? && final.Some?
                && |world.trace| == b + 7 && world.trace[b].Closed? && world.trace[b].process.Some?
                && fault == claim(world.trace[b].process.value)
                && RestartAt(world.trace, b, old(session).value, session.value, world.trace[b].process.value,
                             scenario.oracle)
                && boundary == ProbeAt(world.trace, b + 2)
                && RetryAt(world.trace, b + 3, session.value, retryId, attempts)
                && world.trace[b + 6] == Settled(session.value, final.value)
                && conclusion == Judge(scenario.oracle.once, final.value.value)
      ensures r.Failure? ==> r.error.Flow? && Honest(r.error)
      ensures r.Failure? && old(session).Some? && old(canSpawn) ==>
                RestartBroken(world.trace, b, old(session).value, retryId, false, scenario.oracle, PhaseOf(r.error))
      ensures |attempts| > 0 && attempts[0] == old(attempts[0])
      ensures || fault == old(fault)
              || (&& old(session).Some? && b + 2 <= |world.trace| && world.trace[b].Closed?
                  && world.trace[b].process.Some? && world.trace[b + 1].Opened?
                  && fault == claim(world.trace[b].process.value)
                  && RestartAt(world.trace, b, old(session).value, world.trace[b + 1].session,
                               world.trace[b].process.value, scenario.oracle)
                  && RetryMadeAt(world.trace, b + 3, world.trace[b + 1].session, retryId, attempts))
      ensures r.Failure? && old(session).Some? && old(canSpawn) ==> Shown(r.error)
    {
      hide ProbeAt, RetryAt, RetryMadeAt, RetryBroken, RestartAt, RestartLost, Judge, ReasonShown, ErrorShown, WhyOf;
      var oldProcess :- RestartSeeded(b);
      ghost var s, restarted := session.value, world.trace;
      r := RetryAndConclude(retryId, claim(oldProcess), b + 3);
      ProbeStays(restarted, world.trace, b + 2);
      RestartStays(restarted, world.trace, b, old(session).value, s, oldProcess, scenario.oracle);
      if r.Failure? {
        RetryBreaksRestart(world.trace, b, old(session).value, s, oldProcess, retryId, false, scenario.oracle,
                           PhaseOf(r.error));
      }
    }

    // -------------------------------------------------------------- what a strategy must establish

    /** The state in which a strategy starts: the baseline was the last of k + 3 events. */
    ghost predicate Prepared(k: nat)
      reads this, world
    {
      && Valid() && canSpawn && |world.trace| == k + 3
      && attempts == [] && fault == NotProven(UnexpectedOutcome) && !requiresFreshCleanup
      && conclusion == Inconclusive(OpenPhase, TargetFailed) && boundary.None? && seed.None? && final.None?
    }

    /** The last of the n events since k, which are as many as the experiment has, is the probe it was judged by. */
    ghost predicate JudgedAt(k: nat, n: nat, expected: int)
      reads this, world
    {
      && session.Some? && final.Some? && |world.trace| == k + n && n > 0
      && world.trace[k + n - 1] == Settled(session.value, final.value)
      && conclusion == Judge(expected, final.value.value)
      && seed == SeedProbe(world.trace, k, experiment) && boundary == BoundaryProbe(world.trace, k, experiment)
    }

    predicate SeedViolationConcluded()
      reads this
    {
      conclusion.Violation? && conclusion.at.SeedEffect?
    }

    /** The seed call did not have exactly its one effect. */
    ghost predicate SeedFailedAt(k: nat, s: Option<nat>)
      reads this, world
    {
      && s.Some? && session.Some? && seed.Some? && boundary.None? && final.None? && |world.trace| == k + 10
      && fault == NotProven(UnexpectedOutcome) && |attempts| == 1 && SeedReportedAt(world.trace, k + 3, attempts[0])
      && SeedAt(world.trace, k + 3, s.value, SeedIdOf(runId, experiment))
      && world.trace[k + 9] == Settled(s.value, seed.value) && seed.value.value != scenario.oracle.once
      && conclusion == Violation(scenario.oracle.once, seed.value.value, SeedEffect)
    }

    /** The seed call and the check of its effect, as every retrying strategy begins. */
    method RunVerifiedSeed(seedId: string, ghost k: nat) returns (r: Result<bool, Thrown>)
      requires Prepared(k) && seedId == SeedIdOf(runId, experiment)
      requires HasSeedCheck(experiment)
      modifies world, this`attempts, this`fault, this`seed, this`conclusion
      ensures Valid() && old(world.trace) <= world.trace && fault.NotProven?
      ensures r == Success(true) ==>
                && session.Some? && |world.trace| == k + 10 && |attempts| == 1
                && SeededAt(world.trace, k + 3, session.value, seedId, attempts, scenario.oracle)
                && conclusion == old(conclusion) && fault == old(fault)
                && seed.Some? && seed == ProbeAt(world.trace, k + 9)
      ensures r == Success(false) ==> SeedFailedAt(k, session)
      ensures r.Failure? ==> Honest(r.error) && (r.error.Flow? || r.error.RunnerAborted?)
      ensures r.Failure? && session.Some? ==>
                SeedCheckBroken(world.trace, k + 3, session.value, seedId, PhaseOf(r.error))
      ensures r.Failure? && session.Some? ==> Shown(r.error)
    {
      hide SeedAt, SeedBroken, SeedReportedAt, ProbeMissing, ReasonShown, ErrorShown, WhyOf;
      OwnIdsOfStrategies(runId);
      var _ :- RunSuppressedSeed(seedId, k + 3);
      ghost var seeded := world.trace;
      r := VerifySeedEffect();
      SeedStays(seeded, world.trace, k + 3, session.value, seedId, attempts[0]);
    }

    /** The final probe of an experiment that neither checks its seed call nor restarts. */
    method ConcludeDirectly(ghost k: nat) returns (r: Result<Unit, Thrown>)
      requires Valid() && Undecided() && session.Some? && boundary.None? && seed.None? && |world.trace| == k + 9
      requires experiment.SuppressCompletedResponse? || experiment.ParallelNewIds?
      modifies world, this`final, this`conclusion
      ensures Valid() && old(world.trace) <= world.trace
      ensures r.Success? ==> JudgedAt(k, 10, scenario.oracle.once)
      ensures r.Failure? ==>
                && r.error.Flow? && r.error.phase == ObservePhase && Honest(r.error)
                && ProbeMissing(world.trace, k + 9, session.value)
      ensures r.Failure? ==> Shown(r.error)
    {
      hide ReasonShown, ErrorShown, WhyOf;
      r := ConcludeFromFinal(scenario.oracle.once);
    }

    // -------------------------------------------------------------- the seven strategies

    method SuppressCompletedResponse(ghost k: nat) returns (r: Result<Unit, Thrown>)
      requires Prepared(k) && experiment.SuppressCompletedResponse?
      modifies world, this
      ensures Valid() && old(world.trace) <= world.trace && baseline == old(baseline)
      ensures (old(openedAny) ==> openedAny) && (r.Failure? ==> r.error != SessionFailed(true) && Honest(r.error))
      ensures r.Success? ==>
                && canSpawn && !requiresFreshCleanup && old(session).Some? && JudgedAt(k, 10, scenario.oracle.once)
                && SuppressedAt(world.trace, k + 3, old(session).value, session.value, runId, fault, attempts)
      ensures r.Failure? && old(session).Some? ==>
                SuppressBroken(world.trace, k + 3, old(session).value, runId, PhaseOf(r.error))
      ensures || fault.NotProven?
              || (&& old(session).Some?
                  && SuppressedAt(world.trace, k + 3, old(session).value, old(session).value, runId, fault, attempts))
      ensures r.Failure? && old(session).Some? ==> Shown(r.error)
    {
      hide SeedAt, SeedBroken, SeedReportedAt, ProbeMissing, JudgedAt, ReasonShown, ErrorShown, WhyOf;
      OwnIdsOfStrategies(runId);
      var seedId := RequestIdOf(runId, "seed");
      var _ :- RunSuppressedSeed(seedId, k + 3);
      fault := SuppressedFault(seedId);
      ghost var s, seeded := session.value, world.trace;
      assert SuppressedAt(seeded, k + 3, s, s, runId, fault, attempts);
      r := ConcludeDirectly(k);
      SeedStays(seeded, world.trace, k + 3, s, seedId, attempts[0]);
    }

    method RetryWithNewId(ghost k: nat) returns (r: Result<Unit, Thrown>)
      requires Prepared(k) && experiment.RetryNewId?
      modifies world, this
      ensures Valid() && old(world.trace) <= world.trace && baseline == old(baseline)
      ensures (old(openedAny) ==> openedAny) && (r.Failure? ==> r.error != SessionFailed(true) && Honest(r.error))
      ensures r.Success? ==> canSpawn && !requiresFreshCleanup && old(session).Some?
      ensures r.Success? && SeedViolationConcluded() ==> SeedFailedAt(k, old(session))
      ensures r.Success? && !SeedViolationConcluded() ==>
                && JudgedAt(k, 14, scenario.oracle.once)
                && RetriedAt(world.trace, k + 3, old(session).value, session.value, runId, fault, attempts,
                             scenario.oracle)
      ensures r.Failure? && old(session).Some? ==>
                RetryNewIdBroken(world.trace, k + 3, old(session).value, runId, scenario.oracle, PhaseOf(r.error))
      ensures || fault.NotProven?
              || (&& old(session).Some?
                  && RetryClaimedAt(world.trace, k + 3, old(session).value, runId, fault, attempts, scenario.oracle))
      ensures r.Failure? && old(session).Some? ==> Shown(r.error)
    {
      hide SeededAt, SeedOnceAt, SeedCheckBroken, RetryBroken, RetryAt, RetryMadeAt, ProbeAt, ReasonShown, ErrorShown,
        Reports, OwnAttempts, OwnId, WhyOf;
      OwnIdsOfStrategies(runId);
      var firstId, retryId := RequestIdOf(runId, "seed"), RequestIdOf(runId, "retry");
      var exact :- RunVerifiedSeed(firstId, k);
      if !exact {
        return Success(Unit.Unit);
      }
      ghost var s, seeded, before := session.value, world.trace, attempts;
      r := RetryAndConclude(retryId, RetryFault(firstId, retryId), k + 10);
      SeededStays(seeded, world.trace, k + 3, s, firstId, before, attempts, scenario.oracle);
      ProbeStays(seeded, world.trace, k + 9);
    }

    method ReuseRpcId(ghost k: nat) returns (r: Result<Unit, Thrown>)
      requires Prepared(k) && experiment.RpcIdReuse?
      modifies world, this
      ensures Valid() && old(world.trace) <= world.trace && baseline == old(baseline)
      ensures (old(openedAny) ==> openedAny) && (r.Failure? ==> r.error != SessionFailed(true) && Honest(r.error))
      ensures r.Success? ==> canSpawn && !requiresFreshCleanup && old(session).Some?
      ensures r.Success? && SeedViolationConcluded() ==> SeedFailedAt(k, old(session))
      ensures r.Success? && !SeedViolationConcluded() ==>
                && JudgedAt(k, 17, scenario.oracle.once)
                && ReusedAt(world.trace, k + 3, old(session).value, session.value, runId, fault, attempts,
                            scenario.oracle)
      ensures r.Failure? && old(session).Some? ==>
                SeedRestartBroken(world.trace, k + 3, old(session).value, RequestIdOf(runId, "reused"),
                                  RequestIdOf(runId, "reused"), scenario.oracle, PhaseOf(r.error))
      ensures || fault.NotProven?
              || (&& old(session).Some? && fault.ReuseFault? && fault.reusedId == RequestIdOf(runId, "reused")
                  && RestartClaimedAt(world.trace, k + 3, old(session).value, fault.reusedId, fault.reusedId,
                                      fault.oldProcess, attempts, scenario.oracle))
      ensures r.Failure? && old(session).Some? ==> Shown(r.error)
    {
      hide SeededAt, SeedOnceAt, SeedCheckBroken, RestartBroken, RestartAt, RetryAt, RetryMadeAt, ProbeAt,
        ReasonShown, ErrorShown, WhyOf;
      OwnIdsOfStrategies(runId);
      var reusedId := RequestIdOf(runId, "reused");
      var exact :- RunVerifiedSeed(reusedId, k);
      if !exact {
        return Success(Unit.Unit);
      }
      ghost var s, seeded, before := session.value, world.trace, attempts;
      r := RetryInNewSession(reusedId, process => ReuseFault(process, reusedId), k + 10);
      SeededStays(seeded, world.trace, k + 3, s, reusedId, before, attempts, scenario.oracle);
      ProbeStays(seeded, world.trace, k + 9);
    }

    method RestartAfterSuppressedResponse(ghost k: nat) returns (r: Result<Unit, Thrown>)
      requires Prepared(k) && experiment.RestartAfterSuppressedResponse?
      modifies world, this
      ensures Valid() && old(world.trace) <= world.trace && baseline == old(baseline)
      ensures (old(openedAny) ==> openedAny) && (r.Failure? ==> r.error != SessionFailed(true) && Honest(r.error))
      ensures r.Success? ==> canSpawn && !requiresFreshCleanup && old(session).Some?
      ensures r.Success? && SeedViolationConcluded() ==> SeedFailedAt(k, old(session))
      ensures r.Success? && !SeedViolationConcluded() ==>
                && JudgedAt(k, 17, scenario.oracle.once)
                && RestartedAt(world.trace, k + 3, old(session).value, session.value, runId, fault, attempts,
                               scenario.oracle)
      ensures r.Failure? && old(session).Some? ==>
                SeedRestartBroken(world.trace, k + 3, old(session).value, RequestIdOf(runId, "seed"),
                                  RequestIdOf(runId, "retry"), scenario.oracle, PhaseOf(r.error))
      ensures || fault.NotProven?
              || (&& old(session).Some? && fault.RestartFault? && fault.firstId == RequestIdOf(runId, "seed")
                  && fault.retryId == RequestIdOf(runId, "retry")
                  && RestartClaimedAt(world.trace, k + 3, old(session).value, fault.firstId, fault.retryId,
                                      fault.oldProcess, attempts, scenario.oracle))
      ensures r.Failure? && old(session).Some? ==> Shown(r.error)
    {
      hide SeededAt, SeedOnceAt, SeedCheckBroken, RestartBroken, RestartAt, RetryAt, RetryMadeAt, ProbeAt,
        ReasonShown, ErrorShown, WhyOf;
      OwnIdsOfStrategies(runId);
      var firstId, retryId := RequestIdOf(runId, "seed"), RequestIdOf(runId, "retry");
      var exact :- RunVerifiedSeed(firstId, k);
      if !exact {
        return Success(Unit.Unit);
      }
      ghost var s, seeded, before := session.value, world.trace, attempts;
      r := RetryInNewSession(retryId, process => RestartFault(firstId, process, retryId), k + 10);
      SeededStays(seeded, world.trace, k + 3, s, firstId, before, attempts, scenario.oracle);
      ProbeStays(seeded, world.trace, k + 9);
    }

    method ParallelNewIds(ghost k: nat) returns (r: Result<Unit, Thrown>)
      requires Prepared(k) && experiment.ParallelNewIds?
      modifies world, this
      ensures Valid() && old(world.trace) <= world.trace && baseline == old(baseline)
      ensures (old(openedAny) ==> openedAny) && (r.Failure? ==> r.error != SessionFailed(true) && Honest(r.error))
      ensures r.Success? ==>
                && canSpawn && !requiresFreshCleanup && old(session).Some? && JudgedAt(k, 10, scenario.oracle.once)
                && ParallelAt(world.trace, k + 3, old(session).value, session.value, runId, fault, attempts)
      ensures r.Failure? && old(session).Some? ==>
                ParallelBroken(world.trace, k + 3, old(session).value, runId, PhaseOf(r.error))
      ensures || fault.NotProven?
              || (&& old(session).Some?
                  && ParallelAt(world.trace, k + 3, old(session).value, old(session).value, runId, fault, attempts))
      ensures r.Failure? && old(session).Some? ==> Shown(r.error)
    {
      hide BothBroken, BothAt, ReportedAt, ProbeMissing, JudgedAt, ReasonShown, ErrorShown, Reports, OwnAttempts,
        OwnId, WhyOf;
      OwnIdsOfStrategies(runId);
      var firstId, secondId := RequestIdOf(runId, "parallel-a"), RequestIdOf(runId, "parallel-b");
      var _ :- RunBoth(firstId, secondId, k + 3);
      fault := ParallelFault(firstId, secondId);
      ghost var s, observed := session.value, world.trace;
      assert ParallelAt(observed, k + 3, s, s, runId, fault, attempts);
      r := ConcludeDirectly(k);
      FaultStays(observed, world.trace, k + 3, s, s, runId, experiment, fault, attempts, scenario.oracle);
    }

    /** Two calls at once, both accepted and both known to have completed. */
    method RunBoth(firstId: string, secondId: string, ghost b: nat) returns (r: Result<Unit, Thrown>)
      requires Valid() && attempts == [] && |world.trace| == b && OwnId(firstId, runId) && OwnId(secondId, runId)
      requires Undecided()
      requires experiment.ParallelNewIds?
      modifies world, this`attempts
      ensures Valid() && old(world.trace) <= world.trace
      ensures r.Failure? ==> r.error.Flow? && r.error.phase == FaultPhase && Honest(r.error)
      ensures r.Success? ==>
                && session.Some? && |world.trace| == b + 6 && |attempts| == 2
                && BothAt(world.trace, b, session.value, firstId, secondId)
                && ReportedAt(world.trace, b + 2, attempts[0], ParallelA)
                && ReportedAt(world.trace, b + 4, attempts[1], ParallelB)
      ensures r.Failure? && session.Some? ==> BothBroken(world.trace, b, session.value, firstId, secondId)
      ensures r.Failure? && session.Some? ==> Shown(r.error)
    {
      hide ReasonShown, ErrorShown, WhyOf;
      var _ :- BeginBoth(firstId, secondId);
      r := ObserveBoth(firstId, secondId);
    }

    /** Sends two calls at once; when the second cannot be sent, the first is cancelled and still observed. */
    method BeginBoth(firstId: string, secondId: string) returns (r: Result<Unit, Thrown>)
      requires Valid() && Undecided() && OwnId(firstId, runId) && OwnId(secondId, runId)
      requires experiment.ParallelNewIds? && attempts == []
      modifies world, this`attempts
      ensures Valid() && old(world.trace) <= world.trace
      ensures r.Failure? ==> r.error.Flow? && r.error.phase == FaultPhase && Honest(r.error)
      ensures r.Success? ==>
                && session.Some? && attempts == old(attempts)
                && world.trace == old(world.trace) + [Began(session.value, firstId), Began(session.value, secondId)]
      ensures r.Failure? && session.Some? ==>
                var b := |old(world.trace)|;
                && b < |world.trace|
                && (if world.trace[b].Began? then
                      && world.trace[b] == Began(session.value, firstId) && b + 1 < |world.trace|
                      && Denied(world.trace[b + 1], ToBegin(session.value))
                    else Denied(world.trace[b], ToBegin(session.value)))
      ensures r.Failure? && session.Some? ==> Shown(r.error)
    {
      hide Reports, OwnAttempts, OwnId, ReasonShown, WhyOf;
      ghost var before := world.told.calls;
      var s :- RequireSession(FaultPhase);
      var _ :- BeginExercise(s, firstId, FaultPhase);
      r := BeginExercise(s, secondId, FaultPhase);
      if r.Failure? {
        ghost var unsent := world.trace;
        var peer := CancelAndObserveStartedPeer(firstId);
        PeerReasonShown(unsent, world.trace, peer, r.error.reason);
        AttemptAdded(before, earlier, attempts, peer, runId, experiment);
        attempts := attempts + [peer];
      }
    }

    /** Both parallel calls must have been accepted and have a known completion. */
    method ObserveBoth(firstId: string, secondId: string) returns (r: Result<Unit, Thrown>)
      requires Valid() && Undecided() && attempts == [] && OwnId(firstId, runId) && OwnId(secondId, runId)
      requires experiment.ParallelNewIds?
      modifies world, this`attempts
      ensures Valid() && old(world.trace) <= world.trace && |world.trace| == |old(world.trace)| + 4
      ensures |attempts| == 2 && attempts[0].requestId == firstId && attempts[1].requestId == secondId
      ensures ReportedAt(world.trace, |old(world.trace)|, attempts[0], ParallelA)
      ensures ReportedAt(world.trace, |old(world.trace)| + 2, attempts[1], ParallelB)
      ensures r.Success? <==>
                && KnownAt(world.trace, |old(world.trace)|, firstId)
                && KnownAt(world.trace, |old(world.trace)| + 2, secondId)
      ensures r.Failure? ==> r.error.Flow? && r.error.phase == FaultPhase && Honest(r.error)
      ensures r.Failure? ==> Shown(r.error)
    {
      hide Reports, OwnAttempts, OwnId;
      ghost var before := world.told.calls;
      var firstAttempt := ObserveHandle(firstId, ParallelA, FaultPhase);
      var secondAttempt := ObserveHandle(secondId, ParallelB, FaultPhase);
      AttemptAdded(before, earlier, attempts, firstAttempt, runId, experiment);
      AttemptAdded(before + [CallOf(firstAttempt)], earlier, attempts + [firstAttempt], secondAttempt, runId,
                   experiment);
      attempts := attempts + [firstAttempt] + [secondAttempt];
      var _ :- RequireAcceptedKnown(firstAttempt, FaultPhase);
      r := RequireAcceptedKnown(secondAttempt, FaultPhase);
    }

    method CancelAndObserveStartedPeer(requestId: string) returns (attempt: Attempt)
      requires Base()
      modifies world
      ensures Base() && world.told.calls == old(world.told.calls) + [CallOf(attempt)]
      ensures old(world.trace) <= world.trace && |world.trace| == |old(world.trace)| + 3
      ensures attempt.requestId == requestId && attempt.role.ParallelA?
      ensures ReportedAt(world.trace, |old(world.trace)| + 1, attempt, ParallelA)
      ensures !world.trace[|old(world.trace)|].Classified?
    {
      var _ := world.AwaitCancel(requestId, FaultPhase);
      attempt := ObserveHandle(requestId, ParallelA, FaultPhase);
    }

    method CancelOnProgress(ghost k: nat) returns (r: Result<Unit, Thrown>)
      requires Prepared(k) && experiment.CancelOnProgress?
      modifies world, this
      ensures Valid() && old(world.trace) <= world.trace && baseline == old(baseline)
      ensures (old(openedAny) ==> openedAny) && (r.Failure? ==> r.error != SessionFailed(true) && Honest(r.error))
      ensures r.Success? ==>
                && canSpawn && (scenario.persistence.InProcess? ==> !requiresFreshCleanup)
                && old(session).Some? && scenario.oracle.cancelledEffect.Some?
                && JudgedAt(k, 9, scenario.oracle.cancelledEffect.value)
                && CancelledAt(world.trace, k + 3, old(session).value, session.value, runId, fault, attempts)
      ensures r.Failure? && old(session).Some? ==>
                CancelOnProgressBroken(world.trace, k + 3, old(session).value, runId, scenario.oracle, PhaseOf(r.error))
      ensures || fault.NotProven?
              || (&& old(session).Some?
                  && CancelledAt(world.trace, k + 3, old(session).value, old(session).value, runId, fault, attempts))
      ensures r.Failure? && old(session).Some? ==> Shown(r.error)
    {
      var s :- RequireSession(FaultPhase);
      var subscribed := world.Subscribe(s);
      if !subscribed {
        return Failure(Flow(FaultPhase, TargetFailed));
      }
      r := CancelSubscribed(s, k);
      if r.Failure? && r.error.RunnerDeadline? {
        fault := NotProven(MissingProgress);
        return Failure(Flow(FaultPhase, FaultNotProven));
      }
    }

    /** A flow failure, or what a bounded await adds to the errors of its promise in the fault phase. */
    static predicate InFaultPhase(e: Thrown) {
      e.Flow? || e.RunnerDeadline? || e == RunnerAborted(FaultPhase)
    }

    /** The call, its progress and its cancellation, while progress notifications are listened to. */
    method CancelSubscribed(s: nat, ghost k: nat) returns (r: Result<Unit, Thrown>)
      requires Prepared(k) && experiment.CancelOnProgress? && session == Some(s)
      modifies world, this
      ensures Valid() && old(world.trace) <= world.trace && baseline == old(baseline)
      ensures (old(openedAny) ==> openedAny) && (r.Failure? ==> r.error != SessionFailed(true) && Honest(r.error))
      ensures r.Success? ==>
                && canSpawn && (scenario.persistence.InProcess? ==> !requiresFreshCleanup)
                && scenario.oracle.cancelledEffect.Some? && JudgedAt(k, 9, scenario.oracle.cancelledEffect.value)
                && CancelledAt(world.trace, k + 3, s, session.value, runId, fault, attempts)
      ensures r.Failure? ==>
                && CancelOnProgressBroken(world.trace, k + 3, s, runId, scenario.oracle, FlowPhase(r.error, FaultPhase))
                && InFaultPhase(r.error)
      ensures fault.NotProven? || CancelledAt(world.trace, k + 3, s, s, runId, fault, attempts)
      ensures r.Failure? && r.error.Flow? ==> Shown(r.error)
      ensures r.Failure? && !r.error.Flow? ==> AwaitErrorShown(world.trace, r.error) && Undecided()
    {
      hide CancelBroken, CancelAt, CancelledAt, ProbeMissing, JudgedAt, ReasonShown, ErrorShown, AwaitErrorShown,
        WhyOf;
      OwnIdsOfStrategies(runId);
      var requestId, progressToken := RequestIdOf(runId, "cancel"), RequestIdOf(runId, "progress");
      var receipt :- CancelAtProgress(s, requestId, k + 3);
      fault := CancelFault(receipt, progressToken, requestId);
      ghost var cancelled := world.trace;
      r := ConcludeCancelled(k);
      CancelStays(cancelled, world.trace, k + 3, s, requestId, runId, fault, attempts);
    }

    /** The final probe of a cancelled call.  A session that keeps the target's state cleans up after itself. */
    method ConcludeCancelled(ghost k: nat) returns (r: Result<Unit, Thrown>)
      requires Valid() && Undecided() && experiment.CancelOnProgress? && session.Some? && boundary.None? && seed.None?
      requires |world.trace| == k + 8 && world.trace[k + 7].CancelWritten?
      modifies world, this`final, this`conclusion, this`requiresFreshCleanup
      ensures Valid() && old(world.trace) <= world.trace
      ensures r.Success? ==>
                && (scenario.persistence.InProcess? ==> !requiresFreshCleanup)
                && scenario.oracle.cancelledEffect.Some? && JudgedAt(k, 9, scenario.oracle.cancelledEffect.value)
      ensures r.Failure? ==>
                && r.error.Flow? && Honest(r.error)
                && (if scenario.oracle.cancelledEffect.None? then r.error.phase == FaultPhase
                    else r.error.phase == ObservePhase && ProbeMissing(world.trace, k + 8, session.value))
      ensures r.Failure? ==> Shown(r.error)
    {
      if scenario.oracle.cancelledEffect.None? {
        return Failure(Flow(FaultPhase, TargetFailed));
      }
      r := ConcludeFromFinal(scenario.oracle.cancelledEffect.value);
      if r.Success? && scenario.persistence.InProcess? {
        requiresFreshCleanup := false;
      }
    }

    /** Sends the call, cancels it at its first progress and observes how it ends. */
    method CancelAtProgress(s: nat, requestId: string, ghost b: nat) returns (r: Result<Receipt, Thrown>)
      requires Valid() && session == Some(s) && |world.trace| == b && attempts == [] && OwnId(requestId, runId)
      requires Undecided()
      requires experiment.CancelOnProgress?
      requires requestId == RequestIdOf(runId, "cancel")
      modifies world, this`requiresFreshCleanup, this`fault, this`attempts
      ensures Valid() && old(world.trace) <= world.trace
      ensures r.Failure? ==> InFaultPhase(r.error) && FlowPhase(r.error, FaultPhase) == FaultPhase && Honest(r.error)
      ensures r.Success? ==>
                && |world.trace| == b + 5 && CancelAt(world.trace, b, s, requestId)
                && world.trace[b + 4].CancelWritten?
                && CancelledAt(world.trace, b, s, s, runId,
                               CancelFault(r.value, RequestIdOf(runId, "progress"), requestId), attempts)
      ensures r.Failure? ==> CancelBroken(world.trace, b, s, requestId)
      ensures fault.NotProven? || fault == old(fault)
      ensures r.Failure? && r.error.Flow? ==> Shown(r.error)
      ensures r.Failure? && !r.error.Flow? ==> AwaitErrorShown(world.trace, r.error) && Undecided()
    {
      hide ReasonShown, ErrorShown, AwaitErrorShown, Reports, OwnAttempts, OwnId, RequestIdOf, WhyOf;
      var _ :- BeginExercise(s, requestId, FaultPhase);
      var _ :- AwaitProgress(requestId);
      r := ObserveCancelled(requestId, b + 2);
    }

    /** Progress issues the cancellation, after which only a fresh session may clean up. */
    method AwaitProgress(requestId: string) returns (r: Result<Unit, Thrown>)
      requires Valid() && Undecided() && OwnId(requestId, runId)
      requires experiment.CancelOnProgress?
      modifies world, this`requiresFreshCleanup, this`fault, this`attempts
      ensures Valid() && old(world.trace) <= world.trace
      ensures r.Success? ==>
                && world.trace == old(world.trace) + [ProgressSeen(requestId)] && requiresFreshCleanup
                && attempts == old(attempts) && fault == old(fault)
      ensures r.Failure? ==>
                && InFaultPhase(r.error) && FlowPhase(r.error, FaultPhase) == FaultPhase && Honest(r.error)
                && |world.trace| == |old(world.trace)| + 1
                && Denied(world.trace[|old(world.trace)|], ToAwait(requestId))
      ensures fault.NotProven? || fault == old(fault)
      ensures r.Failure? && r.error.Flow? ==> Shown(r.error)
      ensures r.Failure? && !r.error.Flow? ==> AwaitErrorShown(world.trace, r.error) && Undecided()
    {
      hide Reports, OwnAttempts, OwnId;
      ghost var before := world.told.calls;
      var first := world.AwaitProgress(requestId, FaultPhase);
      if first == Success(ProgressObserved) {
        requiresFreshCleanup := true;
        return Success(Unit.Unit);
      }
      requiresFreshCleanup := *;
      var outcome :- first;
      fault := NotProven(MissingProgress);
      var attempt := Attempt(outcome.completion, CancelledAttempt, requestId, None);
      AttemptAdded(before, earlier, attempts, attempt, runId, experiment);
      attempts := attempts + [attempt];
      r := Failure(Flow(FaultPhase, FaultNotProven));
    }

    /** The cancelled call must end as aborted, and its cancellation must have been written. */
    method ObserveCancelled(requestId: string, ghost b: nat) returns (r: Result<Receipt, Thrown>)
      requires Valid() && Undecided() && |world.trace| == b && attempts == [] && OwnId(requestId, runId)
      requires experiment.CancelOnProgress?
      modifies world, this`fault, this`attempts
      ensures Valid() && old(world.trace) <= world.trace
      ensures r.Success? ==>
                && |world.trace| == b + 3 && |attempts| == 1
                && ReportedAt(world.trace, b, attempts[0], CancelledAttempt)
                && attempts[0].requestId == requestId && attempts[0].completion == Unknown(AbortedReason)
                && world.trace[b + 2] == CancelWritten(requestId, r.value)
      ensures r.Failure? ==>
                && r.error.Flow? && r.error.phase == FaultPhase && Honest(r.error)
                && AbortBroken(world.trace, b, requestId)
      ensures fault.NotProven? || fault == old(fault)
      ensures r.Failure? ==> Shown(r.error)
    {
      hide Reports, OwnAttempts, OwnId, ReasonShown, WhyOf;
      ghost var before := world.told.calls;
      var attempt := ObserveHandle(requestId, CancelledAttempt, FaultPhase);
      AttemptAdded(before, earlier, attempts, attempt, runId, experiment);
      attempts := attempts + [attempt];
      UnfitEndIsShown(world.trace, b, attempt, CancelledAttempt, experiment);
      if attempt.completion != Unknown(AbortedReason) {
        fault := NotProven(UnexpectedOutcome);
        return Failure(Flow(FaultPhase, FaultNotProven));
      }
      var cancelled := world.AwaitCancel(requestId, FaultPhase);
      if cancelled.Failure? || cancelled.value.None? {
        UnknownCancelIsShown(world.trace);
      }
      if cancelled.Failure? && cancelled.error.RunnerAborted? {
        return Failure(Flow(FaultPhase, WasAborted));
      }
      if cancelled.Failure? || cancelled.value.None? {
        fault := NotProven(WriteNotAccepted);
        return Failure(Flow(FaultPhase, FaultNotProven));
      }
      r := Success(cancelled.value.value);
    }

    method DisconnectAfterWriteAccepted(ghost k: nat) returns (r: Result<Unit, Thrown>)
      requires Prepared(k) && experiment.DisconnectAfterRequestWriteAccepted?
      modifies world, this
      ensures (r.Success? ==> Valid()) && (r.Failure? ==> ValidBut(r.error)) && old(world.trace) <= world.trace
      ensures baseline == old(baseline) && (old(openedAny) ==> openedAny)
      ensures r.Success? ==>
                && canSpawn && !requiresFreshCleanup && old(session).Some? && JudgedAt(k, 15, scenario.oracle.once)
                && DisconnectedAt(world.trace, k + 3, old(session).value, session.value, runId, fault, attempts,
                                  scenario.oracle)
      ensures r.Failure? && old(session).Some? ==>
                DisconnectAfterBroken(world.trace, k + 3, old(session).value, runId, scenario.oracle, PhaseOf(r.error))
      ensures fault.NotProven? || (old(session).Some? && DisconnectClaimed(k, old(session).value))
      ensures r.Failure? && old(session).Some? ==> Shown(r.error)
    {
      hide Reports, OwnAttempts, OwnId, ReasonShown, ErrorShown, TriggerErrorShown, WhyOf, DisconnectAfterBroken,
        DisconnectedAt, JudgedAt, RequestIdOf;
      var s :- RequireSession(FaultPhase);
      var armed := world.Arm(s, RequestIdOf(runId, "disconnect"), true);
      if !armed {
        NotArmedBreaksDisconnect(world.trace, k + 3, s, runId, scenario.oracle);
        NotArmedIsShown(world.trace, experiment, FaultPhase);
        return Failure(Flow(FaultPhase, TargetFailed));
      }
      r := DisconnectArmed(s, k);
      if r.Success? || r.error.Flow? {
        return;
      }
      TriggerErrorIsShown(world.trace, experiment, r.error);
      if r.error == GateFailed(true) {
        fault := NotProven(UnexpectedOutcome);
        return Failure(Flow(FaultPhase, FaultNotProven));
      }
      if r.error.RunnerDeadline? || r.error.RunnerAborted? {
        fault := NotProven(WriteNotAccepted);
      }
    }

    /** The fault of the disconnect experiment is claimed with all its evidence. */
    ghost predicate DisconnectClaimed(k: nat, s: nat)
      reads this, world
    {
      && k + 10 <= |world.trace| && world.trace[k + 9].Opened?
      && DisconnectedAt(world.trace, k + 3, s, world.trace[k + 9].session, runId, fault, attempts, scenario.oracle)
    }

    /** The disconnected call, the restart and the retry, once the gate is armed. */
    method DisconnectArmed(s: nat, ghost k: nat) returns (r: Result<Unit, Thrown>)
      requires Valid() && Undecided() && canSpawn && session == Some(s) && attempts == [] && !requiresFreshCleanup
      requires experiment.DisconnectAfterRequestWriteAccepted? && |world.trace| == k + 4 && fault.NotProven?
      requires seed.None?
      requires world.trace[k + 3] == Armed(s, RequestIdOf(runId, "disconnect"), true)
      modifies world, this
      ensures (r.Success? ==> Valid()) && (r.Failure? ==> ValidBut(r.error)) && old(world.trace) <= world.trace
      ensures baseline == old(baseline) && (old(openedAny) ==> openedAny)
      ensures r.Success? ==>
                && canSpawn && !requiresFreshCleanup && JudgedAt(k, 15, scenario.oracle.once)
                && DisconnectedAt(world.trace, k + 3, s, session.value, runId, fault, attempts, scenario.oracle)
      ensures r.Failure? ==>
                DisconnectAfterBroken(world.trace, k + 3, s, runId, scenario.oracle, TriggerPhase(r.error))
      ensures fault.NotProven? || DisconnectClaimed(k, s)
      ensures r.Failure? && r.error.Flow? ==> Shown(r.error)
      ensures r.Failure? && !r.error.Flow? ==> TriggerErrorShown(world.trace, r.error) && Undecided()
      ensures r.Failure? && r.error.RunnerAborted? ==> r.error.at.FaultPhase?
    {
      hide RestartBroken, RetryAt, RestartAt, CutOffAt, DisconnectAt, DisconnectBroken, ReasonShown, ErrorShown,
        TriggerErrorShown, Reports, OwnAttempts, OwnId, WhyOf;
      OwnIdsOfStrategies(runId);
      var firstId, retryId := RequestIdOf(runId, "disconnect"), RequestIdOf(runId, "retry");
      var trigger :- AwaitDisconnect(s, firstId, k + 3);
      ghost var cutOff, before := world.trace, attempts;
      r := RetryAfterDisconnect(firstId, retryId, trigger, k + 8);
      CutOffStays(cutOff, world.trace, k + 3, s, firstId, trigger, before, attempts);
    }

    /** Restart, retry and final probe after the disconnected call. */
    method RetryAfterDisconnect(firstId: string, retryId: string, trigger: Trigger, ghost b: nat)
      returns (r: Result<Unit, Thrown>)
      requires Valid() && |attempts| == 1 && |world.trace| == b && fault.NotProven? && OwnId(retryId, runId)
      requires Undecided()
      requires experiment.DisconnectAfterRequestWriteAccepted?
      modifies world, this
      ensures Valid() && old(world.trace) <= world.trace && baseline == old(baseline) && seed == old(seed)
      ensures (old(openedAny) ==> openedAny) && requiresFreshCleanup == old(requiresFreshCleanup)
      ensures r.Success? ==>
                && canSpawn == old(canSpawn) && old(session).Some? && session.Some? && final.Some?
                && |world.trace| == b + 7 && world.trace[b].Closed? && world.trace[b].process.Some?
                && fault == DisconnectFault(firstId, world.trace[b].process.value, trigger.responseIntercepted, retryId,
                                            trigger.receipt)
                && RestartAt(world.trace, b, old(session).value, session.value, world.trace[b].process.value,
                             scenario.oracle)
                && boundary == ProbeAt(world.trace, b + 2)
                && Forced(world.trace[b].process.value)
                && RetryAt(world.trace, b + 3, session.value, retryId, attempts)
                && world.trace[b + 6] == Settled(session.value, final.value)
                && conclusion == Judge(scenario.oracle.once, final.value.value)
      ensures r.Failure? ==> r.error.Flow? && Honest(r.error)
      ensures r.Failure? && old(session).Some? && old(canSpawn) ==>
                RestartBroken(world.trace, b, old(session).value, retryId, true, scenario.oracle, PhaseOf(r.error))
      ensures |attempts| > 0 && attempts[0] == old(attempts[0])
      ensures || fault.NotProven?
              || (&& old(session).Some? && b + 2 <= |world.trace| && world.trace[b].Closed?
                  && world.trace[b].process.Some? && world.trace[b + 1].Opened?
                  && fault == DisconnectFault(firstId, world.trace[b].process.value, trigger.responseIntercepted,
                                              retryId, trigger.receipt)
                  && RestartAt(world.trace, b, old(session).value, world.trace[b + 1].session,
                               world.trace[b].process.value, scenario.oracle)
                  && Forced(world.trace[b].process.value)
                  && RetryAt(world.trace, b + 3, world.trace[b + 1].session, retryId, attempts))
      ensures r.Failure? && old(session).Some? && old(canSpawn) ==> Shown(r.error)
    {
      hide ProbeAt, RetryAt, RetryMadeAt, RetryBroken, RestartAt, RestartLost, Judge, ReasonShown, ErrorShown,
        TriggerErrorShown, Reports, OwnAttempts, OwnId, WhyOf;
      var oldProcess :- RestartDisconnected(b);
      var claim := DisconnectFault(firstId, oldProcess, trigger.responseIntercepted, retryId, trigger.receipt);
      ghost var s, restarted := session.value, world.trace;
      r := RetryThenClaim(retryId, claim, b + 3);
      ProbeStays(restarted, world.trace, b + 2);
      RestartStays(restarted, world.trace, b, old(session).value, s, oldProcess, scenario.oracle);
      if r.Failure? {
        RetryBreaksRestart(world.trace, b, old(session).value, s, oldProcess, retryId, true, scenario.oracle,
                           PhaseOf(r.error));
      }
    }

    /** The process must have been ended by the disconnect, and the effect must survive it. */
    method RestartDisconnected(ghost b: nat) returns (r: Result<Process, Thrown>)
      requires Valid() && Undecided() && |world.trace| == b
      requires experiment.DisconnectAfterRequestWriteAccepted?
      modifies world, this`session, this`canSpawn, this`unconfirmedProcess, this`openedAny, this`boundary, this`fault
      ensures Valid() && old(world.trace) <= world.trace && (old(openedAny) ==> openedAny)
      ensures r.Success? ==>
                && canSpawn == old(canSpawn) && old(session).Some? && session.Some? && |world.trace| == b + 3
                && RestartAt(world.trace, b, old(session).value, session.value, r.value, scenario.oracle)
                && boundary.Some? && boundary == ProbeAt(world.trace, b + 2)
                && Forced(r.value) && fault == old(fault)
      ensures r.Failure? ==> r.error.Flow? && Honest(r.error)
      ensures r.Failure? && old(session).Some? && old(canSpawn) ==>
                RestartLost(world.trace, b, old(session).value, true, scenario.oracle, PhaseOf(r.error))
      ensures fault.NotProven? || fault == old(fault)
      ensures r.Failure? && old(session).Some? && old(canSpawn) ==> Shown(r.error)
    {
      var oldProcess :- CloseCurrentSession(FaultPhase);
      if !Forced(oldProcess) {
        fault := NotProven(UnexpectedOutcome);
        return Failure(Flow(FaultPhase, FaultNotProven));
      }
      var _ :- OpenAtBoundary(b + 1);
      r := Success(oldProcess);
    }

    /** The call must end with the transport, after its write was accepted and the disconnect triggered. */
    method AwaitDisconnect(s: nat, requestId: string, ghost b: nat) returns (r: Result<Trigger, Thrown>)
      requires Valid() && Undecided() && session == Some(s) && attempts == [] && |world.trace| == b + 1 && canSpawn
      requires experiment.DisconnectAfterRequestWriteAccepted?
      requires OwnId(requestId, runId)
      requires world.trace[b] == Armed(s, requestId, true)
      modifies world, this`attempts, this`fault
      ensures (r.Success? ==> Valid()) && (r.Failure? ==> ValidBut(r.error)) && old(world.trace) <= world.trace
      ensures r.Success? ==>
                && |world.trace| == b + 5 && |attempts| == 1 && fault == old(fault)
                && CutOffAt(world.trace, b, s, requestId, r.value, attempts)
      ensures r.Failure? ==> DisconnectBroken(world.trace, b, s, requestId, TriggerPhase(r.error))
      ensures fault.NotProven? || fault == old(fault)
      ensures r.Failure? && r.error.Flow? ==> Shown(r.error)
      ensures r.Failure? && !r.error.Flow? ==> TriggerErrorShown(world.trace, r.error) && Undecided()
      ensures r.Failure? && r.error.RunnerAborted? ==> r.error.at.FaultPhase?
    {
      hide ReportedAt, ReasonShown, Reports, OwnAttempts, OwnId, WhyOf;
      var _ :- BeginExercise(s, requestId, FaultPhase);
      var trigger :- world.AwaitTrigger(requestId, FaultPhase);
      var _ :- ObserveDisconnected(requestId, b + 3);
      r := Success(trigger);
    }

    /** The write of the disconnected call must have been accepted, and the transport must have ended it. */
    method ObserveDisconnected(requestId: string, ghost b: nat) returns (r: Result<Unit, Thrown>)
      requires Valid() && Undecided() && attempts == [] && |world.trace| == b && OwnId(requestId, runId)
      requires experiment.DisconnectAfterRequestWriteAccepted?
      modifies world, this`attempts, this`fault
      ensures Valid() && old(world.trace) <= world.trace && |world.trace| == b + 2
      ensures WatchedAt(world.trace, b, requestId) && (r.Success? <==> TransportLostAt(world.trace, b, requestId))
      ensures r.Success? ==>
                && |attempts| == 1 && ReportedAt(world.trace, b, attempts[0], DisconnectedAttempt)
                && attempts[0].requestId == requestId && attempts[0].completion == Unknown(TransportReason)
                && attempts[0].write.Some? && fault == old(fault)
      ensures r.Failure? ==> r.error.Flow? && r.error.phase == FaultPhase && Honest(r.error)
      ensures fault.NotProven? || fault == old(fault)
      ensures r.Failure? ==> Shown(r.error)
    {
      hide Reports, OwnAttempts, OwnId, ReasonShown, WhyOf;
      ghost var before := world.told.calls;
      var attempt := ObserveHandle(requestId, DisconnectedAttempt, FaultPhase);
      AttemptAdded(before, earlier, attempts, attempt, runId, experiment);
      attempts := attempts + [attempt];
      UnfitEndIsShown(world.trace, b, attempt, DisconnectedAttempt, experiment);
      if attempt.completion != Unknown(TransportReason) || attempt.write.None? {
        fault := NotProven(UnexpectedOutcome);
        return Failure(Flow(FaultPhase, FaultNotProven));
      }
      r := Success(Unit.Unit);
    }

    /** The retry and the final probe, where the fault is claimed only once the retry is known. */
    method RetryThenClaim(retryId: string, claim: Fault, ghost b: nat) returns (r: Result<Unit, Thrown>)
      requires Valid() && Undecided() && |attempts| == 1 && |world.trace| == b && OwnId(retryId, runId)
      requires experiment.DisconnectAfterRequestWriteAccepted? && !claim.NotProven?
      modifies world, this`attempts, this`fault, this`final, this`conclusion
      ensures Valid() && old(world.trace) <= world.trace
      ensures r.Success? ==>
                && session.Some? && final.Some? && |world.trace| == b + 4
                && RetryAt(world.trace, b, session.value, retryId, attempts)
                && world.trace[b + 3] == Settled(session.value, final.value)
                && fault == claim && conclusion == Judge(scenario.oracle.once, final.value.value)
      ensures r.Failure? ==> r.error.Flow? && Honest(r.error)
      ensures r.Failure? && session.Some? ==> RetryBroken(world.trace, b, session.value, retryId, PhaseOf(r.error))
      ensures |attempts| > 0 && attempts[0] == old(attempts[0])
      ensures || fault == old(fault)
              || (session.Some? && fault == claim && RetryAt(world.trace, b, session.value, retryId, attempts))
      ensures r.Failure? && session.Some? ==> Shown(r.error)
    {
      hide Reports, OwnAttempts, OwnId, ReasonShown, ErrorShown, RetryMadeAt, RetryAt, RetryBroken, ProbeMissing,
        RequireAcceptedKnown, WhyOf;
      var retry :- MakeRetry(retryId, b);
      ghost var s, made := session.value, world.trace;
      RetryIsDecided(made, b, s, retryId, attempts, experiment);
      var _ :- RequireAcceptedKnown(retry, RetryPhase);
      fault := claim;
      r := ConcludeFromFinal(scenario.oracle.once);
      RetryStays(made, world.trace, b, s, retryId, attempts);
    }

    /** A strategy ends with a proven and judged experiment, or with a seed call that misbehaved. */
    ghost predicate ConcludedAt(k: nat, s: Option<nat>)
      reads this, world
    {
      && s.Some? && session.Some? && canSpawn
      && (if SeedViolationConcluded() then
            SeedFailedAt(k, s) && HasSeedCheck(experiment)
          else
            && ExpectedValue(scenario.oracle, experiment).Some?
            && JudgedAt(k, LengthOf(experiment), ExpectedValue(scenario.oracle, experiment).value)
            && FaultAt(world.trace, k + 3, s.value, session.value, runId, experiment, fault, attempts, scenario.oracle))
      && (scenario.persistence.InProcess? || !experiment.CancelOnProgress? ==> !requiresFreshCleanup)
    }

    method RunStrategy(ghost k: nat) returns (r: Result<Unit, Thrown>)
      requires Prepared(k)
      modifies world, this
      ensures (r.Success? ==> Valid()) && (r.Failure? ==> ValidBut(r.error)) && old(world.trace) <= world.trace
      ensures baseline == old(baseline) && (old(openedAny) ==> openedAny)
      ensures r.Success? ==> ConcludedAt(k, old(session))
      ensures r.Failure? && old(session).Some? ==>
                FaultBroken(world.trace, k + 3, old(session).value, runId, experiment, scenario.oracle,
                            PhaseOf(r.error))
      ensures || fault.NotProven?
              || (&& old(session).Some?
                  && ClaimedAt(world.trace, k + 3, old(session).value, runId, experiment, fault, attempts,
                               scenario.oracle))
      ensures r.Failure? && old(session).Some? ==> Shown(r.error)
    {
      hide SuppressBroken, RetryNewIdBroken, SeedRestartBroken, ParallelBroken, CancelOnProgressBroken, ReasonShown,
        ErrorShown, WhyOf;
      hide DisconnectAfterBroken, SuppressedAt, RetriedAt, ReusedAt, RestartedAt, ParallelAt, CancelledAt;
      hide DisconnectedAt, RetryClaimedAt, RestartClaimedAt, SeedProbe, BoundaryProbe, SeedAt, SeedReportedAt;
      match experiment
      case SuppressCompletedResponse => r := SuppressCompletedResponse(k);
      case RetryNewId => r := RetryWithNewId(k);
      case RpcIdReuse => r := ReuseRpcId(k);
      case RestartAfterSuppressedResponse => r := RestartAfterSuppressedResponse(k);
      case ParallelNewIds => r := ParallelNewIds(k);
      case CancelOnProgress => r := CancelOnProgress(k);
      case DisconnectAfterRequestWriteAccepted => r := DisconnectAfterWriteAccepted(k);
    }

    // -------------------------------------------------------------- one experiment

    /** The first event after the start shows why no session was opened. */
    ghost predicate NeverOpened(k: nat, e: Thrown)
      reads world
    {
      && |world.trace| == k + 1
      && (world.trace[k] == AbortSeen || world.trace[k] == OpenRefused(e))
    }

    method OpenFirstSession(ghost k: nat) returns (r: Result<Unit, Thrown>)
      requires Valid() && Undecided() && canSpawn && session.None? && !openedAny && |world.trace| == k
      modifies world, this`session, this`openedAny
      ensures openedAny == r.Success? && old(world.trace) <= world.trace
      ensures r.Success? ==> Valid() && session.Some? && world.trace == old(world.trace) + [Opened(session.value)]
      ensures r.Failure? ==> ValidBut(r.error) && NeverOpened(k, r.error) && PhaseOf(r.error).OpenPhase?
      ensures r.Failure? ==> Shown(r.error)
    {
      var _ :- AssertNotAborted(OpenPhase);
      var first :- world.Open();
      session, openedAny := Some(first), true;
      r := Success(Unit.Unit);
    }

    /** The first session, reset and at its baseline. */
    method OpenAtBaseline(ghost k: nat) returns (r: Result<Unit, Thrown>)
      requires Valid() && Undecided() && canSpawn && session.None? && !openedAny && |world.trace| == k
      modifies world, this`session, this`openedAny, this`baseline
      ensures old(world.trace) <= world.trace
      ensures r.Success? ==>
                && Valid() && openedAny && |world.trace| == k + 3 && BaselineAt(world.trace, k, scenario.oracle)
                && baseline == Some(world.trace[k + 2].probe) && session == Some(world.trace[k].session)
      ensures r.Failure? ==>
                ValidBut(r.error) && BaselineBroken(world.trace, k, scenario.oracle, PhaseOf(r.error))
      ensures r.Failure? && !openedAny ==> NeverOpened(k, r.error)
      ensures r.Failure? ==> Shown(r.error)
    {
      hide ReasonShown, ErrorShown, WhyOf;
      var _ :- OpenFirstSession(k);
      r := PrepareBaseline(k);
    }

    /** The state in which an experiment starts. */
    ghost predicate Fresh(k: nat)
      reads this, world
    {
      && Valid() && canSpawn && session.None? && !openedAny && |world.trace| == k
      && attempts == [] && fault == NotProven(UnexpectedOutcome) && !requiresFreshCleanup
      && conclusion == Inconclusive(OpenPhase, TargetFailed) && boundary.None? && seed.None? && final.None?
    }

    /** Everything up to the conclusion: first session, baseline, strategy. */
    method Exercise(ghost k: nat) returns (r: Result<Unit, Thrown>)
      requires Fresh(k)
      modifies world, this
      ensures old(world.trace) <= world.trace
      ensures r.Success? ==>
                && Valid() && openedAny && BaselineAt(world.trace, k, scenario.oracle)
                && baseline == Some(world.trace[k + 2].probe) && ConcludedAt(k, Some(world.trace[k].session))
      ensures r.Failure? ==>
                && ValidBut(r.error) && BrokenIn(world.trace, k, runId, experiment, scenario.oracle, PhaseOf(r.error))
                && FaultSupported(world.trace, k, runId, experiment, fault, attempts, scenario.oracle)
      ensures r.Failure? && !openedAny ==> NeverOpened(k, r.error)
      ensures r.Failure? ==> Shown(r.error)
    {
      hide FaultBroken, ClaimedAt, ConcludedAt, BaselineBroken, ReasonShown, ErrorShown, WhyOf;
      var _ :- OpenAtBaseline(k);
      r := RunStrategy(k);
    }

    /**
     Whatever was thrown leaves an inconclusive result, with the phase and reason it is normalised to, and the need
     for a fresh session to clean up.
     */
    method Recover(e: Thrown)
      requires ValidBut(e) && Shown(e)
      modifies world, this`conclusion, this`requiresFreshCleanup, this`canSpawn
      ensures Valid() && world.trace == old(world.trace) && requiresFreshCleanup
      ensures var flow := NormalizeFlowFailure(e, world.aborted);
              conclusion == Inconclusive(flow.phase, flow.reason)
      ensures ReasonShown(world.trace, experiment, conclusion.phase, conclusion.reason)
      ensures canSpawn == (old(canSpawn) && e != SessionFailed(true))
    {
      var aborted := world.IsAborted();
      var flow := NormalizeFlowFailure(e, aborted);
      conclusion := Inconclusive(flow.phase, flow.reason);
      requiresFreshCleanup := true;
      if flow.reason.TerminationUnproven? {
        canSpawn := false;
      }
    }

    // -------------------------------------------------------------- cleanup

    /** During cleanup the runner no longer holds the session that lives. */
    ghost predicate Cleaning(s: nat)
      reads this, world
    {
      && world.Live(s) && session.None? && openedAny && (world.spawned.stuck <==> !canSpawn)
      && world.spawned.refused == unconfirmedProcess && OwnAttempts(attempts, runId, experiment)
      && Reports(world.told.calls, earlier, attempts)
    }

    method CloseCleanupSession(s: nat) returns (r: Result<Process, Cleanup>)
      requires Cleaning(s)
      modifies world, this`canSpawn, this`unconfirmedProcess
      ensures Valid() && old(world.trace) <= world.trace && |world.trace| == |old(world.trace)| + 1
      ensures r.Success? ==>
                && canSpawn == old(canSpawn) && IsConfirmed(r.value)
                && world.trace == old(world.trace) + [Closed(s, Some(r.value))]
      ensures r.Failure? ==>
                && !canSpawn && r.error.CleanupFailed? && r.error.phase.CloseFailed?
                && r.error.left == unconfirmedProcess
                && Unproven(world.trace[|old(world.trace)|])
    {
      var process := world.Close(s);
      if process.Failure? {
        canSpawn := false;
        return Failure(CleanupFailed(CloseFailed, None));
      }
      if !IsConfirmed(process.value) {
        canSpawn := false;
        unconfirmedProcess := Some(process.value);
        return Failure(CleanupFailed(CloseFailed, Some(process.value)));
      }
      r := Success(process.value);
    }

    method ResetAndVerifyCleanup(s: nat) returns (r: Option<CleanupPhase>)
      requires Cleaning(s)
      modifies world
      ensures Cleaning(s) && old(world.trace) <= world.trace
      ensures r.Some? ==>
                && |old(world.trace)| < |world.trace|
                && (if r.value.ResetFailed? then ResetMissed(world.trace[|world.trace| - 1], s)
                    else
                      && r.value.SettleFailed?
                      && ValueMissed(world.trace, |world.trace| - 1, s, scenario.oracle.baseline))
      ensures r.None? ==>
                && |world.trace| == |old(world.trace)| + 2
                && world.trace[|old(world.trace)|] == ResetCalled(s, Success(true))
                && SettledAt(world.trace, |old(world.trace)| + 1, s)
                && world.trace[|old(world.trace)| + 1].probe.value == scenario.oracle.baseline
    {
      var reset := world.CallReset(s);
      if reset != Success(true) {
        return Some(ResetFailed);
      }
      var settled := world.Settle(s);
      r := if settled.Success? && settled.value.value == scenario.oracle.baseline then None else Some(SettleFailed);
    }

    /** Probes a passed effect once more, where that is asked for. */
    method VerifyDurable(s: nat, verify: bool) returns (ok: bool)
      requires Cleaning(s)
      modifies world, this`final, this`conclusion
      ensures Cleaning(s) && old(world.trace) <= world.trace
      ensures !(verify && old(conclusion).Pass?) ==> ok && world.trace == old(world.trace)
      ensures !ok || !(verify && old(conclusion).Pass?) ==> final == old(final) && conclusion == old(conclusion)
      ensures verify && old(conclusion).Pass? ==>
                && |world.trace| == |old(world.trace)| + 1
                && ok == SettledAt(world.trace, |old(world.trace)|, s)
                && (!ok ==> world.trace[|old(world.trace)|].Unsettled? && world.trace[|old(world.trace)|].session == s)
      ensures ok && verify && old(conclusion).Pass? ==>
                && final == Some(world.trace[|old(world.trace)|].probe)
                && conclusion == Recheck(old(conclusion), final.value)
    {
      if !verify || !conclusion.Pass? {
        return true;
      }
      var durable := world.Settle(s);
      if durable.Failure? {
        return false;
      }
      final := Some(durable.value);
      if durable.value.value != conclusion.expected {
        conclusion := Violation(conclusion.expected, durable.value.value, FinalEffect);
      }
      ok := true;
    }

    method CleanAndCloseSession(s: nat, verify: bool) returns (cleanup: Cleanup)
      requires Cleaning(s)
      modifies world, this`final, this`conclusion, this`canSpawn, this`unconfirmedProcess
      ensures Valid() && old(world.trace) <= world.trace && !cleanup.NotNeeded? && (canSpawn ==> old(canSpawn))
      ensures cleanup.CleanupFailed? ==>
                && (canSpawn == (old(canSpawn) && !cleanup.phase.CloseFailed?)) && !cleanup.phase.OpenFailed?
                && (cleanup.phase.CloseFailed? ==> cleanup.left == unconfirmedProcess)
                && CleanupFailedAt(world.trace, |old(world.trace)|, scenario.oracle, cleanup.phase, cleanup.left)
      ensures cleanup.Clean? ==>
                && canSpawn == old(canSpawn) && 3 <= |world.trace|
                && CleanedAt(world.trace, |world.trace| - 3, scenario.oracle, cleanup.process)
      ensures !(verify && old(conclusion).Pass?) ==> final == old(final) && conclusion == old(conclusion)
      ensures verify && old(conclusion).Pass? ==>
                if SettledAt(world.trace, |old(world.trace)|, s) then
                  && final == Some(world.trace[|old(world.trace)|].probe)
                  && conclusion == Recheck(old(conclusion), final.value)
                  && (cleanup.Clean? ==> |world.trace| == |old(world.trace)| + 4)
                else
                  final == old(final) && conclusion == old(conclusion) && !cleanup.Clean?
    {
      var durable := VerifyDurable(s, verify);
      var failure := ResetAndVerifyCleanup(s);
      var closed := CloseCleanupSession(s);
      if closed.Failure? {
        return closed.error;
      }
      if !durable || failure.Some? {
        return CleanupFailed(if durable then failure.value else SettleFailed, Some(closed.value));
      }
      cleanup := Clean(closed.value);
    }

    /** A pass under external persistence is checked again in a session that was opened for nothing else. */
    method CleanupExperiment() returns (cleanup: Cleanup)
      requires Valid() && (!requiresFreshCleanup && openedAny ==> canSpawn)
      modifies world, this
      ensures Valid() && session.None? && old(world.trace) <= world.trace
      ensures attempts == old(attempts) && fault == old(fault) && baseline == old(baseline) && seed == old(seed)
      ensures boundary == old(boundary)
      ensures canSpawn ==> old(canSpawn)
      ensures cleanup.NotNeeded? <==> !old(openedAny) && old(canSpawn)
      ensures cleanup.NotNeeded? ==> canSpawn && world.trace == old(world.trace)
      ensures cleanup.Clean? ==>
                && canSpawn && 3 <= |world.trace|
                && CleanedAt(world.trace, |world.trace| - 3, scenario.oracle, cleanup.process)
      ensures cleanup.CleanupFailed? ==>
                && (cleanup.phase.CloseFailed? ==> !canSpawn && cleanup.left == unconfirmedProcess)
                && CleanupFailedAt(world.trace, |old(world.trace)|, scenario.oracle, cleanup.phase, cleanup.left)
      ensures !old(conclusion).Pass? ==> final == old(final) && conclusion == old(conclusion)
      ensures old(session).Some? && old(final).Some? ==>
                JudgedAs(world.trace, |old(world.trace)|, old(session).value, scenario.persistence, old(conclusion),
                         old(final).value, conclusion, final, cleanup)
    {
      hide CleanedAt, CleanupMissed, Judge, Recheck, IsConfirmed;
      if !openedAny {
        return if canSpawn then NotNeeded else CleanupFailed(CloseFailed, unconfirmedProcess);
      }
      var current := session;
      session := None;
      if current.Some? && !requiresFreshCleanup && scenario.persistence.InProcess? {
        cleanup := CleanAndCloseSession(current.value, false);
        return;
      }
      cleanup := CleanSeparately(current);
    }

    /** Closes what is open and cleans up in a session of its own. */
    method CleanSeparately(current: Option<nat>) returns (cleanup: Cleanup)
      requires if current.Some? then Cleaning(current.value) else Valid() && session.None? && openedAny
      modifies world, this`final, this`conclusion, this`canSpawn, this`unconfirmedProcess
      ensures Valid() && old(world.trace) <= world.trace && !cleanup.NotNeeded? && (canSpawn ==> old(canSpawn))
      ensures cleanup.Clean? ==>
                && canSpawn && 3 <= |world.trace|
                && CleanedAt(world.trace, |world.trace| - 3, scenario.oracle, cleanup.process)
      ensures cleanup.CleanupFailed? ==>
                && (cleanup.phase.CloseFailed? ==> !canSpawn && cleanup.left == unconfirmedProcess)
                && CleanupFailedAt(world.trace, |old(world.trace)|, scenario.oracle, cleanup.phase, cleanup.left)
      ensures !old(conclusion).Pass? ==> final == old(final) && conclusion == old(conclusion)
      ensures current.Some? && old(final).Some? ==>
                JudgedAs(world.trace, |old(world.trace)|, current.value, scenario.persistence, old(conclusion),
                         old(final).value, conclusion, final, cleanup)
    {
      hide CleanedAt, CleanupMissed, Judge, Recheck, IsConfirmed;
      if current.Some? {
        var closed := CloseCleanupSession(current.value);
        if closed.Failure? {
          return closed.error;
        }
      }
      ghost var before := world.trace;
      cleanup := CleanInFreshSession();
      if cleanup.CleanupFailed? {
        CleanupFailedSince(world.trace, |before|, |old(world.trace)|, scenario.oracle, cleanup.phase, cleanup.left);
      }
    }

    /** Resets the target and checks its baseline in a session opened for that, if one may still be opened. */
    method CleanInFreshSession() returns (cleanup: Cleanup)
      requires Valid() && session.None? && openedAny
      modifies world, this`final, this`conclusion, this`canSpawn, this`unconfirmedProcess
      ensures Valid() && old(world.trace) <= world.trace && !cleanup.NotNeeded? && (canSpawn ==> old(canSpawn))
      ensures cleanup.Clean? ==>
                && canSpawn && 3 <= |world.trace|
                && CleanedAt(world.trace, |world.trace| - 3, scenario.oracle, cleanup.process)
      ensures cleanup.CleanupFailed? ==>
                && (cleanup.phase.CloseFailed? ==> !canSpawn && cleanup.left == unconfirmedProcess)
                && CleanupFailedAt(world.trace, |old(world.trace)|, scenario.oracle, cleanup.phase, cleanup.left)
      ensures !(scenario.persistence.External? && old(conclusion).Pass?) ==>
                final == old(final) && conclusion == old(conclusion)
      ensures scenario.persistence.External? && old(conclusion).Pass? ==>
                var b := |old(world.trace)|;
                if b < |world.trace| && world.trace[b].Opened?
                   && SettledAt(world.trace, b + 1, world.trace[b].session) then
                  && final == Some(world.trace[b + 1].probe) && conclusion == Recheck(old(conclusion), final.value)
                  && (cleanup.Clean? ==> |world.trace| == b + 5)
                else
                  final == old(final) && conclusion == old(conclusion) && !cleanup.Clean?
    {
      if !canSpawn {
        return CleanupFailed(CloseFailed, unconfirmedProcess);
      }
      var fresh' := world.Open();
      if fresh'.Failure? {
        if fresh'.error == SessionFailed(true) {
          canSpawn := false;
        }
        return CleanupFailed(OpenFailed, None);
      }
      cleanup := CleanAndCloseSession(fresh'.value, scenario.persistence.External?);
    }

    /** What is reported once cleanup is done. */
    function Report(cleanup: Cleanup): ExperimentResult
      reads this
    {
      ExperimentResult(attempts, baseline, boundary, cleanup, conclusion, experiment, fault, final, runId, seed)
    }

    /** Before cleanup: either the history broke the script, or it supports the conclusion. */
    ghost predicate Supported(k: nat)
      reads this, world
    {
      && Valid() && k <= |world.trace| && (!requiresFreshCleanup && openedAny ==> canSpawn)
      && earlier == TallyOf(world.trace[..k]).calls
      && (match conclusion
          case Inconclusive(phase, reason) =>
            && (reason.TerminationUnproven? ==> !canSpawn)
            && ReasonShown(world.trace, experiment, phase, reason)
            && (fault.NotProven? ==> fault.why == WhyOf(world.trace, experiment))
            && BrokenIn(world.trace, k, runId, experiment, scenario.oracle, phase)
            && FaultSupported(world.trace, k, runId, experiment, fault, attempts, scenario.oracle)
            && (!openedAny && canSpawn ==>
                  forall i :: k <= i < |world.trace| ==>
                    (world.trace[i].OpenRefused? && !Unproven(world.trace[i])) || world.trace[i] == AbortSeen)
          case Violation(expected, observed, SeedEffect) =>
            && openedAny && SeedViolatedAt(world.trace, k, runId, experiment, scenario.oracle)
            && expected == scenario.oracle.once && observed == world.trace[k + 9].probe.value
            && SeedViolationReported(world.trace, k, Report(NotNeeded))
          case _ => openedAny && FinallyJudged(k))
    }

    ghost predicate FinallyJudged(k: nat)
      reads this, world
    {
      && baseline.Some? && final.Some? && session.Some?
      && |world.trace| == k + LengthOf(experiment)
      && Proven(world.trace, k, scenario, runId, experiment, fault, attempts)
      && baseline.value == world.trace[k + 2].probe
      && seed == SeedProbe(world.trace, k, experiment) && boundary == BoundaryProbe(world.trace, k, experiment)
      && world.trace[|world.trace| - 1] == Settled(session.value, final.value)
      && ExpectedValue(scenario.oracle, experiment).Some?
      && conclusion == Judge(ExpectedValue(scenario.oracle, experiment).value, final.value.value)
    }

    /** A strategy that reached its conclusion leaves a history that supports it. */
    lemma ConcludedIsSupported(k: nat)
      requires Valid() && openedAny && k + 3 <= |world.trace| && BaselineAt(world.trace, k, scenario.oracle)
      requires earlier == TallyOf(world.trace[..k]).calls
      requires baseline == Some(world.trace[k + 2].probe) && ConcludedAt(k, Some(world.trace[k].session))
      ensures Supported(k)
    {
      hide FaultAt, Reports, OwnAttempts, TallyOf, SeedAt, SeedReportedAt, SeedProbe, BoundaryProbe;
    }

    method ExerciseOrRecover(ghost k: nat)
      requires Fresh(k)
      modifies world, this
      ensures Supported(k) && old(world.trace) <= world.trace
    {
      hide BrokenIn, FaultSupported, FaultAt, ReasonShown, ErrorShown, TallyOf, WhyOf;
      world.Summary();
      ghost var before := world.trace;
      assert earlier == TallyOf(before).calls;
      hide Reports;
      hide ConcludedAt, SeedViolatedAt, SeedViolationReported, FinallyJudged, WhyOf;
      var r := Exercise(k);
      assert world.trace[..k] == before;
      if r.Failure? {
        Recover(r.error);
      } else {
        ConcludedIsSupported(k);
      }
    }

    /** An inconclusive result is one of the exercise, which cleanup does not change. */
    method CleanupAndReport(ghost k: nat) returns (result: ExperimentResult)
      requires Supported(k)
      modifies world, this
      ensures Valid() && session.None? && old(world.trace) <= world.trace
      ensures result.experiment == experiment && result.runId == runId
      ensures Sound(world.trace, k, |world.trace|, scenario, result)
      ensures result.conclusion.Inconclusive? ==> result.conclusion == old(conclusion) && result.fault == old(fault)
      ensures !canSpawn ==> result.cleanup.CleanupFailed?
    {
      hide FaultAt, BrokenIn, FaultSupported, Sound, SeedViolatedAt, CleanupFailedAt, SpawnOf, CleanedAt, JudgedAs;
      hide Reports, TallyOf, OwnAttempts;
      ghost var u, judged, probe, s := world.trace, conclusion, final, session;
      var cleanup := CleanupExperiment();
      result := Report(cleanup);
      world.Summary();
      assert world.trace[..k] == u[..k];
      if cleanup.CleanupFailed? {
        CleanupFailedSince(world.trace, |u|, k, scenario.oracle, cleanup.phase, cleanup.left);
      }
      if judged.Pass? || (judged.Violation? && judged.at.FinalEffect?) {
        JudgedIsSound(u, world.trace, k, scenario, result, judged, probe.value, s.value);
        JudgedStaysJudged(world.trace, |u|, s.value, scenario.persistence, judged, probe.value, conclusion, final,
                          cleanup);
      } else {
        UnjudgedIsSound(u, world.trace, k, scenario, result);
      }
    }

    /** `exercised` is the history as it was when the exercise ended and cleanup began. */
    method Execute(ghost k: nat) returns (halted: bool, result: ExperimentResult, ghost exercised: seq<Event>)
      requires Fresh(k)
      modifies world, this
      ensures Valid() && session.None? && old(world.trace) <= world.trace && halted == !canSpawn
      ensures result.experiment == experiment && result.runId == runId
      ensures Sound(world.trace, k, |world.trace|, scenario, result)
      ensures halted ==> result.cleanup.CleanupFailed?
      ensures old(world.trace) <= exercised <= world.trace
      ensures result.conclusion.Inconclusive? ==>
                && BrokenIn(exercised, k, runId, experiment, scenario.oracle, result.conclusion.phase)
                && ReasonShown(exercised, experiment, result.conclusion.phase, result.conclusion.reason)
                && (result.fault.NotProven? ==> result.fault.why == WhyOf(exercised, experiment))
    {
      hide BrokenIn, ReasonShown, WhyOf, FaultSupported, FinallyJudged, SeedViolatedAt, SeedViolationReported;
      ExerciseOrRecover(k);
      exercised := world.trace;
      result := CleanupAndReport(k);
      halted := !canSpawn;
    }
  }
}
