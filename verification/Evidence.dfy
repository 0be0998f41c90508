/**
 What the history of an experiment says about its conclusion.  For every experiment there is a script: the events
 that establish its fault, at fixed places after the opening of its first session.  The `At` predicates say that a
 stretch of the history follows the script, the `Broken` ones that everything up to some event follows it and that
 this event is the answer of the world to the next question of the script, but not the answer the script needs.  The
 phase they name is the one the experiment is in at that question.
 */
module Evidence {
  import opened Common
  import opened ExperimentTypes
  import opened World

  function RequestIdOf(runId: string, suffix: string): string {
    runId + ":" + suffix
  }

  /** The id of a call that a run makes: the run's own id, a colon, and a suffix without one. */
  ghost predicate OwnId(id: string, runId: string) {
    |runId| < |id| && id[..|runId|] == runId && id[|runId|] == ':' && ':' !in id[|runId| + 1..]
  }

  /** The part that the attempt at a place plays in an experiment. */
  function RoleOf(experiment: ExperimentName, place: nat): Role {
    match experiment
    case ParallelNewIds => if place == 0 then ParallelA else ParallelB
    case CancelOnProgress => CancelledAttempt
    case DisconnectAfterRequestWriteAccepted => if place == 0 then DisconnectedAttempt else RetryAttempt
    case _ => if place == 0 then SeedAttempt else RetryAttempt
  }

  ghost predicate OwnAttempts(attempts: seq<Attempt>, runId: string, experiment: ExperimentName) {
    forall i :: 0 <= i < |attempts| ==>
      OwnId(attempts[i].requestId, runId) && attempts[i].role == RoleOf(experiment, i)
  }

  lemma SuffixMakesOwnId(runId: string, suffix: string)
    requires ':' !in suffix
    ensures OwnId(RequestIdOf(runId, suffix), runId)
  {
    var id := RequestIdOf(runId, suffix);
    assert id[..|runId|] == runId && id[|runId| + 1..] == suffix;
  }

  /** The ids of all seven strategies. */
  lemma OwnIdsOfStrategies(runId: string)
    ensures OwnId(RequestIdOf(runId, "seed"), runId) && OwnId(RequestIdOf(runId, "retry"), runId)
    ensures OwnId(RequestIdOf(runId, "reused"), runId) && OwnId(RequestIdOf(runId, "disconnect"), runId)
    ensures OwnId(RequestIdOf(runId, "parallel-a"), runId) && OwnId(RequestIdOf(runId, "parallel-b"), runId)
    ensures OwnId(RequestIdOf(runId, "cancel"), runId) && OwnId(RequestIdOf(runId, "progress"), runId)
  {
    hide OwnId, RequestIdOf;
    SuffixMakesOwnId(runId, "seed");
    SuffixMakesOwnId(runId, "retry");
    SuffixMakesOwnId(runId, "reused");
    SuffixMakesOwnId(runId, "disconnect");
    SuffixMakesOwnId(runId, "parallel-a");
    SuffixMakesOwnId(runId, "parallel-b");
    SuffixMakesOwnId(runId, "cancel");
    SuffixMakesOwnId(runId, "progress");
  }

  /** An id names its run and its suffix: two are equal only if both are. */
  lemma IdsNameRunAndSuffix(runId: string, suffix: string, otherRun: string, otherSuffix: string)
    requires ':' !in suffix && ':' !in otherSuffix
    ensures RequestIdOf(runId, suffix) == RequestIdOf(otherRun, otherSuffix) <==>
              runId == otherRun && suffix == otherSuffix
  {
    var id, other := RequestIdOf(runId, suffix), RequestIdOf(otherRun, otherSuffix);
    if id == other {
      SuffixMakesOwnId(runId, suffix);
      SuffixMakesOwnId(otherRun, otherSuffix);
      OwnIdNamesRun(id, runId, otherRun);
      assert suffix == id[|runId| + 1..];
    }
  }

  lemma LongerRunDiffers(id: string, runId: string, otherRun: string)
    requires OwnId(id, runId) && |runId| < |otherRun|
    ensures !OwnId(id, otherRun)
  {
    if |otherRun| < |id| {
      assert id[|runId| + 1..][|otherRun| - |runId| - 1] == id[|otherRun|];
    }
  }

  lemma OwnIdNamesRun(id: string, runId: string, otherRun: string)
    requires OwnId(id, runId) && OwnId(id, otherRun)
    ensures runId == otherRun
  {
    if |runId| < |otherRun| {
      LongerRunDiffers(id, runId, otherRun);
    } else if |otherRun| < |runId| {
      LongerRunDiffers(id, otherRun, runId);
    }
  }

  /** The value a proven experiment is expected to end at. */
  function ExpectedValue(oracle: Oracle, experiment: ExperimentName): Option<int> {
    if experiment.CancelOnProgress? then oracle.cancelledEffect else Some(oracle.once)
  }

  predicate SettledAt(t: seq<Event>, k: nat, s: nat) {
    k < |t| && t[k].Settled? && t[k].session == s
  }

  /** What the runner asks of the world. */
  datatype Question =
    | ToOpen
    | ToReset(s: nat)
    | ToSettle(s: nat)
    | ToArm(s: nat)
    | ToBegin(s: nat)
    | ToAwait(id: string)
    | ToComplete(id: string)
    | ToTrigger(id: string)
    | ToWrite(id: string)
    | ToCancel(id: string)

  /** The reset tool was called and did not succeed. */
  predicate ResetMissed(e: Event, s: nat) {
    e.ResetCalled? && e.session == s && e.answer != Success(true)
  }

  /** The question was answered by a failure, or not put because the abort signal was seen before. */
  predicate Denied(e: Event, q: Question) {
    match q
    case ToOpen => e.OpenRefused? || e.AbortSeen?
    case ToReset(s) => ResetMissed(e, s) || e.AbortSeen?
    case ToSettle(s) => (e.Unsettled? && e.session == s) || e.AbortSeen?
    case ToArm(s) => e == NotArmed(s)
    case ToBegin(s) => e == NotBegun(s) || e.AbortSeen?
    case ToAwait(id) => (e.AwaitedInVain? || e.EndedEarly?) && e.requestId == id
    case ToComplete(id) => e.AwaitedInVain? && e.requestId == id
    case ToTrigger(id) => e.TriggerFailed? && e.requestId == id
    case ToWrite(id) => e.WriteUnknown? && e.requestId == id
    case ToCancel(id) => e.CancelUnknown? && e.requestId == id
  }

  predicate ProbeMissing(t: seq<Event>, k: nat, s: nat) {
    k < |t| && Denied(t[k], ToSettle(s))
  }

  /** No probe, or not the value that was needed. */
  predicate ValueMissed(t: seq<Event>, k: nat, s: nat, value: int) {
    ProbeMissing(t, k, s) || (SettledAt(t, k, s) && t[k].probe.value != value)
  }

  /** The effect is seen exactly once. */
  predicate OnceAt(t: seq<Event>, k: nat, s: nat, oracle: Oracle) {
    SettledAt(t, k, s) && t[k].probe.value == oracle.once
  }

  /** A fresh session, a successful reset, and the baseline. */
  predicate BaselineAt(t: seq<Event>, k: nat, oracle: Oracle) {
    && k + 3 <= |t|
    && t[k].Opened?
    && t[k + 1] == ResetCalled(t[k].session, Success(true))
    && SettledAt(t, k + 2, t[k].session) && t[k + 2].probe.value == oracle.baseline
  }

  predicate BaselineBroken(t: seq<Event>, k: nat, oracle: Oracle, phase: Phase) {
    && k < |t|
    && (if t[k].Opened? then BaselineBrokenAfter(t, k, t[k].session, oracle, phase)
        else Denied(t[k], ToOpen) && phase.OpenPhase?)
  }

  predicate BaselineBrokenAfter(t: seq<Event>, k: nat, s: nat, oracle: Oracle, phase: Phase) {
    && k + 1 < |t|
    && (if t[k + 1] == ResetCalled(s, Success(true)) then
          ValueMissed(t, k + 2, s, oracle.baseline) && phase.BaselinePhase?
        else Denied(t[k + 1], ToReset(s)) && phase.ResetPhase?)
  }

  /** A call whose successful response was withheld, whose write was accepted, and which was then cancelled. */
  predicate SeedAt(t: seq<Event>, k: nat, s: nat, id: string) {
    && k + 6 <= |t|
    && t[k] == Armed(s, id, false)
    && t[k + 1] == Began(s, id)
    && t[k + 2] == ResponseSuppressed(id)
    && t[k + 3].WriteAccepted? && t[k + 3].requestId == id
    && t[k + 4].CancelWritten? && t[k + 4].requestId == id
    && t[k + 5] == Classified(id, Unknown(AbortedReason))
  }

  predicate SeedBroken(t: seq<Event>, k: nat, s: nat, id: string, phase: Phase) {
    && k < |t|
    && (if t[k] == Armed(s, id, false) then
          && k + 1 < |t|
          && (if t[k + 1] == Began(s, id) then SuppressionBroken(t, k + 2, id, phase)
              else Denied(t[k + 1], ToBegin(s)) && phase.SeedPhase?)
        else Denied(t[k], ToArm(s)) && phase.SeedPhase?)
  }

  /** The same from the waiting for the withheld response on. */
  predicate SuppressionBroken(t: seq<Event>, k: nat, id: string, phase: Phase) {
    && k < |t|
    && (if t[k] == ResponseSuppressed(id) then CancellationBroken(t, k + 1, id, phase)
        else Denied(t[k], ToAwait(id)) && phase == if t[k].EndedEarly? then FaultPhase else SeedPhase)
  }

  /** The same from the waiting for the write on. */
  predicate CancellationBroken(t: seq<Event>, k: nat, id: string, phase: Phase) {
    && k < |t|
    && (if t[k].WriteAccepted? && t[k].requestId == id then
          && k + 1 < |t|
          && (if t[k + 1].CancelWritten? && t[k + 1].requestId == id then
                && k + 2 < |t|
                && (|| (Denied(t[k + 2], ToComplete(id)) && phase.SeedPhase?)
                    || (EndedUncancelled(t[k + 2], id) && phase.FaultPhase?))
              else Denied(t[k + 1], ToCancel(id)) && phase.SeedPhase?)
        else Denied(t[k], ToWrite(id)) && phase.SeedPhase?)
  }

  lemma SuppressionBreaksSeed(t: seq<Event>, k: nat, s: nat, id: string, phase: Phase)
    requires SuppressionBroken(t, k + 2, id, phase) && t[k] == Armed(s, id, false) && t[k + 1] == Began(s, id)
    ensures SeedBroken(t, k, s, id, phase)
  {
  }

  predicate EndedUncancelled(e: Event, id: string) {
    e.Classified? && e.requestId == id && e.completion != Unknown(AbortedReason)
  }

  /** The write and the completion of one call, observed. */
  predicate ObservedAt(t: seq<Event>, k: nat, attempt: Attempt) {
    && k + 2 <= |t|
    && (if attempt.write.Some? then t[k] == WriteAccepted(attempt.requestId, attempt.write.value)
        else t[k].WriteUnknown? && t[k].requestId == attempt.requestId)
    && t[k + 1] == Classified(attempt.requestId, attempt.completion)
  }

  /** The write and the completion of the call id, however they went. */
  predicate WatchedAt(t: seq<Event>, k: nat, id: string) {
    && k + 2 <= |t|
    && (t[k].WriteAccepted? || t[k].WriteUnknown?) && t[k].requestId == id
    && t[k + 1].Classified? && t[k + 1].requestId == id
  }

  /** A call whose write was accepted and whose completion is known. */
  predicate KnownAt(t: seq<Event>, k: nat, id: string) {
    && k + 2 <= |t|
    && t[k].WriteAccepted? && t[k].requestId == id
    && t[k + 1].Classified? && t[k + 1].requestId == id && !t[k + 1].completion.Unknown?
  }

  predicate AttemptAt(t: seq<Event>, k: nat, s: nat, id: string) {
    k + 3 <= |t| && t[k] == Began(s, id) && KnownAt(t, k + 1, id)
  }

  predicate AttemptBroken(t: seq<Event>, k: nat, s: nat, id: string) {
    && k < |t|
    && (if t[k] == Began(s, id) then WatchedAt(t, k + 1, id) && !KnownAt(t, k + 1, id) else Denied(t[k], ToBegin(s)))
  }

  /** A call of known outcome and then the final probe: where that goes wrong. */
  predicate RetryBroken(t: seq<Event>, k: nat, s: nat, id: string, phase: Phase) {
    || (AttemptBroken(t, k, s, id) && phase.RetryPhase?)
    || (AttemptAt(t, k, s, id) && ProbeMissing(t, k + 3, s) && phase.ObservePhase?)
  }

  predicate ClosedAt(t: seq<Event>, k: nat, s: nat) {
    k < |t| && t[k].Closed? && t[k].session == s && t[k].process.Some? && IsConfirmed(t[k].process.value)
  }

  /** The process did not end by itself or because its input ended. */
  predicate Forced(process: Process) {
    !process.termination.Natural? && !process.termination.ByStdinEof?
  }

  /** A session was opened and the effect found to have survived. */
  predicate ReopenedAt(t: seq<Event>, k: nat, s': nat, oracle: Oracle) {
    k + 2 <= |t| && t[k] == Opened(s') && OnceAt(t, k + 1, s', oracle)
  }

  predicate ReopenBroken(t: seq<Event>, k: nat, oracle: Oracle, phase: Phase) {
    && k < |t|
    && (if t[k].Opened? then ValueMissed(t, k + 1, t[k].session, oracle.once) && phase.BoundaryPhase?
        else Denied(t[k], ToOpen) && phase.OpenPhase?)
  }

  /** The old session is confirmed closed, a new one opened, and the effect found to have survived. */
  predicate RestartAt(t: seq<Event>, k: nat, s: nat, s': nat, process: Process, oracle: Oracle) {
    && k + 3 <= |t|
    && t[k] == Closed(s, Some(process)) && IsConfirmed(process)
    && ReopenedAt(t, k + 1, s', oracle)
  }

  /** The restart goes wrong.  After a disconnect the old process must have been forced to end. */
  predicate RestartLost(t: seq<Event>, k: nat, s: nat, forced: bool, oracle: Oracle, phase: Phase) {
    && k < |t| && t[k].Closed? && t[k].session == s
    && (if ClosedAt(t, k, s) && (forced ==> Forced(t[k].process.value)) then ReopenBroken(t, k + 1, oracle, phase)
        else phase == if forced then FaultPhase else SeedPhase)
  }

  /** The restart, the retry or the final probe goes wrong. */
  predicate RestartBroken(t: seq<Event>, k: nat, s: nat, id: string, forced: bool, oracle: Oracle, phase: Phase) {
    || RestartLost(t, k, s, forced, oracle, phase)
    || (&& ClosedAt(t, k, s) && (forced ==> Forced(t[k].process.value))
        && k + 1 < |t| && t[k + 1].Opened? && ReopenedAt(t, k + 1, t[k + 1].session, oracle)
        && RetryBroken(t, k + 3, t[k + 1].session, id, phase))
  }

  lemma RestartStays(t: seq<Event>, u: seq<Event>, k: nat, s: nat, s': nat, process: Process, oracle: Oracle)
    requires RestartAt(t, k, s, s', process, oracle) && t <= u
    ensures RestartAt(u, k, s, s', process, oracle)
    ensures k + 3 <= |u| && u[k] == Closed(s, Some(process)) && u[k + 1] == Opened(s')
  {
  }

  lemma RetryBreaksRestart(t: seq<Event>, k: nat, s: nat, s': nat, process: Process, id: string, forced: bool,
                           oracle: Oracle, phase: Phase)
    requires RestartAt(t, k, s, s', process, oracle) && (forced ==> Forced(process))
    requires RetryBroken(t, k + 3, s', id, phase)
    ensures RestartBroken(t, k, s, id, forced, oracle, phase)
  {
    hide RetryBroken;
  }

  /** Length of the history from the first opening to the final probe. */
  function LengthOf(experiment: ExperimentName): nat {
    match experiment
    case SuppressCompletedResponse => 10
    case RetryNewId => 14
    case RpcIdReuse => 17
    case RestartAfterSuppressedResponse => 17
    case ParallelNewIds => 10
    case CancelOnProgress => 9
    case DisconnectAfterRequestWriteAccepted => 15
  }

  /** The seed attempt as it is reported: what the history at b says of it. */
  predicate SeedReportedAt(t: seq<Event>, b: nat, attempt: Attempt) {
    && b + 6 <= |t| && t[b + 1].Began? && t[b + 3].WriteAccepted? && t[b + 5].Classified?
    && attempt == Attempt(t[b + 5].completion, SeedAttempt, t[b + 1].requestId, Some(t[b + 3].receipt))
  }

  lemma SeedStays(t: seq<Event>, u: seq<Event>, b: nat, s: nat, id: string, attempt: Attempt)
    requires SeedAt(t, b, s, id) && SeedReportedAt(t, b, attempt) && t <= u
    ensures SeedAt(u, b, s, id) && SeedReportedAt(u, b, attempt)
  {
  }

  predicate ReportedAt(t: seq<Event>, k: nat, attempt: Attempt, role: Role) {
    attempt.role == role && ObservedAt(t, k, attempt)
  }

  /** The seed call, and its effect seen exactly once. */
  predicate SeedOnceAt(t: seq<Event>, b: nat, s: nat, id: string, oracle: Oracle) {
    SeedAt(t, b, s, id) && OnceAt(t, b + 6, s, oracle)
  }

  /** The same with its attempt reported first. */
  predicate SeededAt(t: seq<Event>, b: nat, s: nat, id: string, attempts: seq<Attempt>, oracle: Oracle) {
    SeedOnceAt(t, b, s, id, oracle) && |attempts| > 0 && SeedReportedAt(t, b, attempts[0])
  }

  /** What the seed step saw still stands after the steps that follow. */
  lemma SeededStays(t: seq<Event>, u: seq<Event>, b: nat, s: nat, id: string, before: seq<Attempt>, after: seq<Attempt>,
                    oracle: Oracle)
    requires SeededAt(t, b, s, id, before, oracle) && t <= u && |after| > 0 && after[0] == before[0]
    ensures SeededAt(u, b, s, id, after, oracle) && SeedOnceAt(u, b, s, id, oracle)
  {
  }

  /** The retry was sent, and its attempt is reported second and last. */
  predicate RetryMadeAt(t: seq<Event>, k: nat, s: nat, id: string, attempts: seq<Attempt>) {
    && k + 3 <= |t| && t[k] == Began(s, id)
    && |attempts| == 2 && attempts[1].requestId == id && ReportedAt(t, k + 1, attempts[1], RetryAttempt)
  }

  /** The same with the write accepted and the outcome known. */
  predicate RetryAt(t: seq<Event>, k: nat, s: nat, id: string, attempts: seq<Attempt>) {
    RetryMadeAt(t, k, s, id, attempts) && KnownAt(t, k + 1, id)
  }

  // ---------------------------------------------------------------- one predicate per experiment
  //
  // b is the position of the first event after the baseline, s the first session and s' the last; the fault and
  // the attempts are the reported ones.

  predicate SuppressedAt(t: seq<Event>, b: nat, s: nat, s': nat, runId: string, fault: Fault, attempts: seq<Attempt>) {
    && fault == SuppressedFault(RequestIdOf(runId, "seed")) && s' == s
    && SeedAt(t, b, s, fault.seedId)
    && |attempts| == 1 && SeedReportedAt(t, b, attempts[0])
  }

  predicate RetriedAt(t: seq<Event>, b: nat, s: nat, s': nat, runId: string, fault: Fault, attempts: seq<Attempt>,
                      oracle: Oracle) {
    && fault == RetryFault(RequestIdOf(runId, "seed"), RequestIdOf(runId, "retry")) && s' == s
    && SeededAt(t, b, s, fault.firstId, attempts, oracle)
    && RetryAt(t, b + 7, s, fault.retryId, attempts)
  }

  predicate ReusedAt(t: seq<Event>, b: nat, s: nat, s': nat, runId: string, fault: Fault, attempts: seq<Attempt>,
                     oracle: Oracle) {
    && fault.ReuseFault? && fault.reusedId == RequestIdOf(runId, "reused")
    && SeededAt(t, b, s, fault.reusedId, attempts, oracle)
    && RestartAt(t, b + 7, s, s', fault.oldProcess, oracle)
    && RetryAt(t, b + 10, s', fault.reusedId, attempts)
  }

  predicate RestartedAt(t: seq<Event>, b: nat, s: nat, s': nat, runId: string, fault: Fault, attempts: seq<Attempt>,
                        oracle: Oracle) {
    && fault.RestartFault? && fault.firstId == RequestIdOf(runId, "seed")
    && fault.retryId == RequestIdOf(runId, "retry")
    && SeededAt(t, b, s, fault.firstId, attempts, oracle)
    && RestartAt(t, b + 7, s, s', fault.oldProcess, oracle)
    && RetryAt(t, b + 10, s', fault.retryId, attempts)
  }

  /** Two calls sent at once, both of known outcome. */
  predicate BothAt(t: seq<Event>, b: nat, s: nat, firstId: string, secondId: string) {
    && b + 6 <= |t| && t[b] == Began(s, firstId) && t[b + 1] == Began(s, secondId)
    && KnownAt(t, b + 2, firstId) && KnownAt(t, b + 4, secondId)
  }

  predicate ParallelAt(t: seq<Event>, b: nat, s: nat, s': nat, runId: string, fault: Fault, attempts: seq<Attempt>) {
    && fault == ParallelFault(RequestIdOf(runId, "parallel-a"), RequestIdOf(runId, "parallel-b")) && s' == s
    && BothAt(t, b, s, fault.firstId, fault.secondId)
    && |attempts| == 2 && ReportedAt(t, b + 2, attempts[0], ParallelA) && ReportedAt(t, b + 4, attempts[1], ParallelB)
  }

  predicate CancelledAt(t: seq<Event>, b: nat, s: nat, s': nat, runId: string, fault: Fault, attempts: seq<Attempt>) {
    && fault.CancelFault? && fault.requestId == RequestIdOf(runId, "cancel")
    && fault.progressToken == RequestIdOf(runId, "progress") && s' == s
    && b + 5 <= |t|
    && t[b] == Began(s, fault.requestId)
    && t[b + 1] == ProgressSeen(fault.requestId)
    && |attempts| == 1 && ReportedAt(t, b + 2, attempts[0], CancelledAttempt)
    && attempts[0].requestId == fault.requestId && attempts[0].completion == Unknown(AbortedReason)
    && t[b + 4] == CancelWritten(fault.requestId, fault.cancellationWrite)
  }

  /** The call that is disconnected after its write was accepted, its attempt reported first. */
  predicate CutOffAt(t: seq<Event>, b: nat, s: nat, id: string, trigger: Trigger, attempts: seq<Attempt>) {
    && b + 5 <= |t|
    && t[b] == Armed(s, id, true)
    && t[b + 1] == Began(s, id)
    && t[b + 2] == DisconnectTriggered(id, trigger)
    && |attempts| > 0 && ReportedAt(t, b + 3, attempts[0], DisconnectedAttempt)
    && attempts[0].requestId == id && attempts[0].completion == Unknown(TransportReason)
    && attempts[0].write.Some?
  }

  predicate DisconnectedAt(t: seq<Event>, b: nat, s: nat, s': nat, runId: string, fault: Fault, attempts: seq<Attempt>,
                           oracle: Oracle) {
    && fault.DisconnectFault? && fault.firstId == RequestIdOf(runId, "disconnect")
    && fault.retryId == RequestIdOf(runId, "retry")
    && CutOffAt(t, b, s, fault.firstId, Trigger(fault.write, fault.responseIntercepted), attempts)
    && RestartAt(t, b + 5, s, s', fault.oldProcess, oracle)
    && Forced(fault.oldProcess)
    && RetryAt(t, b + 8, s', fault.retryId, attempts)
  }

  /** The reported fault and attempts are what the history, whose baseline ends before b, shows. */
  predicate FaultAt(t: seq<Event>, b: nat, s: nat, s': nat, runId: string, experiment: ExperimentName, fault: Fault,
                    attempts: seq<Attempt>, oracle: Oracle) {
    match experiment
    case SuppressCompletedResponse => SuppressedAt(t, b, s, s', runId, fault, attempts)
    case RetryNewId => RetriedAt(t, b, s, s', runId, fault, attempts, oracle)
    case RpcIdReuse => ReusedAt(t, b, s, s', runId, fault, attempts, oracle)
    case RestartAfterSuppressedResponse => RestartedAt(t, b, s, s', runId, fault, attempts, oracle)
    case ParallelNewIds => ParallelAt(t, b, s, s', runId, fault, attempts)
    case CancelOnProgress => CancelledAt(t, b, s, s', runId, fault, attempts)
    case DisconnectAfterRequestWriteAccepted => DisconnectedAt(t, b, s, s', runId, fault, attempts, oracle)
  }

  /** Evidence is not disturbed by what happens later. */
  lemma FaultStays(t: seq<Event>, u: seq<Event>, b: nat, s: nat, s': nat, runId: string, experiment: ExperimentName,
                   fault: Fault, attempts: seq<Attempt>, oracle: Oracle)
    requires FaultAt(t, b, s, s', runId, experiment, fault, attempts, oracle) && t <= u
    ensures FaultAt(u, b, s, s', runId, experiment, fault, attempts, oracle)
  {
  }

  // ---------------------------------------------------------------- where a script can break

  predicate SuppressBroken(t: seq<Event>, b: nat, s: nat, runId: string, phase: Phase) {
    || SeedBroken(t, b, s, RequestIdOf(runId, "seed"), phase)
    || (SeedAt(t, b, s, RequestIdOf(runId, "seed")) && ProbeMissing(t, b + 6, s) && phase.ObservePhase?)
  }

  /** The seed call or the probe after it goes wrong, not counting a probe of the wrong value. */
  predicate SeedCheckBroken(t: seq<Event>, b: nat, s: nat, seedId: string, phase: Phase) {
    || SeedBroken(t, b, s, seedId, phase)
    || (SeedAt(t, b, s, seedId) && ProbeMissing(t, b + 6, s) && phase.SeedPhase?)
  }

  predicate RetryNewIdBroken(t: seq<Event>, b: nat, s: nat, runId: string, oracle: Oracle, phase: Phase) {
    var seedId := RequestIdOf(runId, "seed");
    || SeedCheckBroken(t, b, s, seedId, phase)
    || (&& SeedOnceAt(t, b, s, seedId, oracle)
        && RetryBroken(t, b + 7, s, RequestIdOf(runId, "retry"), phase))
  }

  predicate SeedRestartBroken(t: seq<Event>, b: nat, s: nat, seedId: string, retryId: string, oracle: Oracle,
                              phase: Phase) {
    || SeedCheckBroken(t, b, s, seedId, phase)
    || (&& SeedOnceAt(t, b, s, seedId, oracle)
        && RestartBroken(t, b + 7, s, retryId, false, oracle, phase))
  }

  predicate BothBroken(t: seq<Event>, b: nat, s: nat, firstId: string, secondId: string) {
    && b < |t|
    && (if t[b] == Began(s, firstId) then
          && b + 1 < |t|
          && (if t[b + 1] == Began(s, secondId) then
                && WatchedAt(t, b + 2, firstId) && WatchedAt(t, b + 4, secondId)
                && !(KnownAt(t, b + 2, firstId) && KnownAt(t, b + 4, secondId))
              else Denied(t[b + 1], ToBegin(s)))
        else Denied(t[b], ToBegin(s)))
  }

  predicate ParallelBroken(t: seq<Event>, b: nat, s: nat, runId: string, phase: Phase) {
    var firstId, secondId := RequestIdOf(runId, "parallel-a"), RequestIdOf(runId, "parallel-b");
    || (BothBroken(t, b, s, firstId, secondId) && phase.FaultPhase?)
    || (BothAt(t, b, s, firstId, secondId) && ProbeMissing(t, b + 6, s) && phase.ObservePhase?)
  }

  /** The call that is cancelled at its first progress, however its write went, ends as aborted. */
  predicate CancelAt(t: seq<Event>, b: nat, s: nat, id: string) {
    && b + 5 <= |t|
    && t[b] == Began(s, id) && t[b + 1] == ProgressSeen(id)
    && t[b + 3] == Classified(id, Unknown(AbortedReason))
    && t[b + 4].CancelWritten? && t[b + 4].requestId == id
  }

  lemma CancelStays(t: seq<Event>, u: seq<Event>, b: nat, s: nat, id: string, runId: string, fault: Fault,
                    attempts: seq<Attempt>)
    requires CancelAt(t, b, s, id) && CancelledAt(t, b, s, s, runId, fault, attempts) && t <= u
    ensures CancelAt(u, b, s, id) && CancelledAt(u, b, s, s, runId, fault, attempts)
  {
  }

  predicate CancelBroken(t: seq<Event>, b: nat, s: nat, id: string) {
    && b < |t|
    && (if t[b] == Began(s, id) then
          && b + 1 < |t|
          && (if t[b + 1] == ProgressSeen(id) then AbortBroken(t, b + 2, id) else Denied(t[b + 1], ToAwait(id)))
        else Denied(t[b], ToBegin(s)))
  }

  predicate AbortBroken(t: seq<Event>, b: nat, id: string) {
    && WatchedAt(t, b, id)
    && (t[b + 1].completion == Unknown(AbortedReason) ==> b + 2 < |t| && Denied(t[b + 2], ToCancel(id)))
  }

  /** Without a configured effect of cancelled calls there is nothing to judge by. */
  predicate CancelOnProgressBroken(t: seq<Event>, b: nat, s: nat, runId: string, oracle: Oracle, phase: Phase) {
    var id := RequestIdOf(runId, "cancel");
    || (b < |t| && t[b] == NotSubscribed(s) && phase.FaultPhase?)
    || (CancelBroken(t, b, s, id) && phase.FaultPhase?)
    || (&& CancelAt(t, b, s, id)
        && (if oracle.cancelledEffect.None? then phase.FaultPhase?
            else ProbeMissing(t, b + 5, s) && phase.ObservePhase?))
  }

  /** A call whose write was accepted and which the loss of the transport ended. */
  predicate TransportLostAt(t: seq<Event>, b: nat, id: string) {
    && b + 2 <= |t|
    && t[b].WriteAccepted? && t[b].requestId == id
    && t[b + 1] == Classified(id, Unknown(TransportReason))
  }

  predicate DisconnectAt(t: seq<Event>, b: nat, s: nat, id: string) {
    && b + 5 <= |t|
    && t[b] == Armed(s, id, true) && t[b + 1] == Began(s, id)
    && t[b + 2].DisconnectTriggered? && t[b + 2].requestId == id
    && TransportLostAt(t, b + 3, id)
  }

  lemma CutOffStays(t: seq<Event>, u: seq<Event>, b: nat, s: nat, id: string, trigger: Trigger, before: seq<Attempt>,
                    after: seq<Attempt>)
    requires CutOffAt(t, b, s, id, trigger, before) && t <= u && |after| > 0 && after[0] == before[0]
    ensures CutOffAt(u, b, s, id, trigger, after) && DisconnectAt(u, b, s, id)
  {
  }

  predicate DisconnectBroken(t: seq<Event>, b: nat, s: nat, id: string, phase: Phase) {
    && b < |t|
    && (if t[b] == Armed(s, id, true) then TriggerBroken(t, b + 1, s, id, phase)
        else Denied(t[b], ToArm(s)) && phase.FaultPhase?)
  }

  /** The phase in which an error that ends the waiting for the disconnect is reported. */
  function TriggerPhase(e: Thrown): Phase {
    if e == GateFailed(true) || e.RunnerAborted? then FaultPhase else PhaseOf(e)
  }

  predicate TriggerBroken(t: seq<Event>, b: nat, s: nat, id: string, phase: Phase) {
    && b < |t|
    && (if t[b] == Began(s, id) then
          && b + 1 < |t|
          && (if t[b + 1].DisconnectTriggered? && t[b + 1].requestId == id then
                WatchedAt(t, b + 2, id) && !TransportLostAt(t, b + 2, id) && phase.FaultPhase?
              else Denied(t[b + 1], ToTrigger(id)) && phase == TriggerPhase(t[b + 1].error))
        else Denied(t[b], ToBegin(s)) && phase.FaultPhase?)
  }

  lemma NotArmedBreaksDisconnect(t: seq<Event>, b: nat, s: nat, runId: string, oracle: Oracle)
    requires b < |t| && t[b] == NotArmed(s)
    ensures DisconnectAfterBroken(t, b, s, runId, oracle, FaultPhase)
  {
  }

  predicate DisconnectAfterBroken(t: seq<Event>, b: nat, s: nat, runId: string, oracle: Oracle, phase: Phase) {
    var id := RequestIdOf(runId, "disconnect");
    || DisconnectBroken(t, b, s, id, phase)
    || (DisconnectAt(t, b, s, id) && RestartBroken(t, b + 5, s, RequestIdOf(runId, "retry"), true, oracle, phase))
  }

  /** From b on, after the baseline, the history departs from the experiment's script, in the given phase. */
  predicate FaultBroken(t: seq<Event>, b: nat, s: nat, runId: string, experiment: ExperimentName, oracle: Oracle,
                        phase: Phase) {
    match experiment
    case SuppressCompletedResponse => SuppressBroken(t, b, s, runId, phase)
    case RetryNewId => RetryNewIdBroken(t, b, s, runId, oracle, phase)
    case RpcIdReuse =>
      SeedRestartBroken(t, b, s, RequestIdOf(runId, "reused"), RequestIdOf(runId, "reused"), oracle, phase)
    case RestartAfterSuppressedResponse =>
      SeedRestartBroken(t, b, s, RequestIdOf(runId, "seed"), RequestIdOf(runId, "retry"), oracle, phase)
    case ParallelNewIds => ParallelBroken(t, b, s, runId, phase)
    case CancelOnProgress => CancelOnProgressBroken(t, b, s, runId, oracle, phase)
    case DisconnectAfterRequestWriteAccepted => DisconnectAfterBroken(t, b, s, runId, oracle, phase)
  }

  /**
   From k on, the opening of its first session included, the history departs from the experiment's script, in the
   given phase.
   */
  predicate BrokenIn(t: seq<Event>, k: nat, runId: string, experiment: ExperimentName, oracle: Oracle, phase: Phase) {
    || BaselineBroken(t, k, oracle, phase)
    || (BaselineAt(t, k, oracle) && FaultBroken(t, k + 3, t[k].session, runId, experiment, oracle, phase))
  }

  ghost predicate Broken(t: seq<Event>, k: nat, runId: string, experiment: ExperimentName, oracle: Oracle) {
    exists phase :: BrokenIn(t, k, runId, experiment, oracle, phase)
  }

  lemma SeedRestartBrokenStays(t: seq<Event>, u: seq<Event>, b: nat, s: nat, seedId: string, retryId: string,
                               oracle: Oracle, phase: Phase)
    requires SeedRestartBroken(t, b, s, seedId, retryId, oracle, phase) && t <= u
    ensures SeedRestartBroken(u, b, s, seedId, retryId, oracle, phase)
  {
  }

  lemma FaultBrokenStays(t: seq<Event>, u: seq<Event>, b: nat, s: nat, runId: string, experiment: ExperimentName,
                         oracle: Oracle, phase: Phase)
    requires FaultBroken(t, b, s, runId, experiment, oracle, phase) && t <= u
    ensures FaultBroken(u, b, s, runId, experiment, oracle, phase)
  {
    hide SeedRestartBroken;
    if experiment.RpcIdReuse? {
      SeedRestartBrokenStays(t, u, b, s, RequestIdOf(runId, "reused"), RequestIdOf(runId, "reused"), oracle, phase);
    } else if experiment.RestartAfterSuppressedResponse? {
      SeedRestartBrokenStays(t, u, b, s, RequestIdOf(runId, "seed"), RequestIdOf(runId, "retry"), oracle, phase);
    }
  }

  /** A departure from the script is not undone by what happens later. */
  lemma BrokenStays(t: seq<Event>, u: seq<Event>, k: nat, runId: string, experiment: ExperimentName, oracle: Oracle,
                    phase: Phase)
    requires BrokenIn(t, k, runId, experiment, oracle, phase) && t <= u
    ensures BrokenIn(u, k, runId, experiment, oracle, phase)
  {
    hide FaultBroken;
    if !BaselineBroken(t, k, oracle, phase) {
      FaultBrokenStays(t, u, k + 3, t[k].session, runId, experiment, oracle, phase);
    }
  }

  // ---------------------------------------------------------------- the reason a failure is reported with

  /** Whatever else is thrown counts as the target's failure, or the abort signal's if that was set by then. */
  predicate ErrorShows(error: Thrown, reason: Reason) {
    if error == SessionFailed(true) then reason.TerminationUnproven?
    else if error.RunnerAborted? then reason.WasAborted?
    else reason.TargetFailed? || reason.WasAborted?
  }

  /** The reason a call that will not do is reported with: not accepted, aborted, or of unknown outcome. */
  function AttemptReason(write: Event, completion: Completion): Reason {
    if !write.WriteAccepted? then TargetFailed
    else if completion == Unknown(AbortedReason) then WasAborted
    else UnexpectedUnknown
  }

  predicate Acceptable(write: Event, completion: Completion) {
    write.WriteAccepted? && !completion.Unknown?
  }

  /** Of two calls the first that will not do; if the second was never sent, why that was so. */
  predicate ParallelShows(t: seq<Event>, reason: Reason) {
    && |t| >= 4 && t[|t| - 1].Classified?
    && (if t[|t| - 3].Classified? then
          reason == if Acceptable(t[|t| - 4], t[|t| - 3].completion)
                    then AttemptReason(t[|t| - 2], t[|t| - 1].completion)
                    else AttemptReason(t[|t| - 4], t[|t| - 3].completion)
        else reason == if t[|t| - 4].AbortSeen? then WasAborted else TargetFailed)
  }

  /** The reason that the last event of a history gives an experiment for failing there, in the given phase. */
  predicate ReasonShown(t: seq<Event>, experiment: ExperimentName, phase: Phase, reason: Reason) {
    && t != []
    && match t[|t| - 1]
       case AbortSeen => reason.WasAborted?
       case OpenRefused(error) => ErrorShows(error, reason)
       case Closed(_, process) =>
         reason == if process.Some? && IsConfirmed(process.value) then FaultNotProven else TerminationUnproven
       case ResetCalled(_, answer) => reason == if answer == Failure(RequestAborted) then WasAborted else TargetFailed
       case Settled(_, _) => reason.TargetFailed?
       case Unsettled(_, fault) =>
         || reason.WasAborted? || (fault.ProbeTimedOut? && reason.ProbeUnsettled?)
         || (fault.ProbeBroken? && reason.ProbeFailed?)
       case NotArmed(_) => reason.TargetFailed?
       case NotBegun(_) => reason.TargetFailed?
       case NotSubscribed(_) => reason.TargetFailed?
       case CancelWritten(_, _) => reason.TargetFailed?
       case AwaitedInVain(_, error) => AwaitShows(error, experiment, reason)
       case WriteUnknown(_, error) => AwaitShows(error, experiment, reason)
       case EndedEarly(_, _) => reason.FaultNotProven?
       case CancelUnknown(_, cause) =>
         reason == if cause.Some? && cause.value.RunnerAborted? then WasAborted
                   else if experiment.CancelOnProgress? then FaultNotProven else TargetFailed
       case TriggerFailed(_, error) =>
         if error == GateFailed(true) then reason.FaultNotProven? else ErrorShows(error, reason)
       case Classified(_, completion) =>
         if phase.RetryPhase? then |t| >= 2 && reason == AttemptReason(t[|t| - 2], completion)
         else if experiment.ParallelNewIds? then ParallelShows(t, reason)
         else reason.FaultNotProven?
       case _ => false
  }

  /** An await on a call that did not come to an end. */
  predicate AwaitShows(error: Thrown, experiment: ExperimentName, reason: Reason) {
    reason == if error.RunnerAborted? then WasAborted
              else if !error.RunnerDeadline? then TargetFailed
              else if experiment.CancelOnProgress? then FaultNotProven else UnexpectedUnknown
  }

  /** The error is the one that the last event of the history carries: a failed await on a call. */
  predicate AwaitErrorShown(t: seq<Event>, e: Thrown) {
    t != [] && (t[|t| - 1].AwaitedInVain? || t[|t| - 1].WriteUnknown?) && t[|t| - 1].error == e
  }

  /** The same for a failed await on the trigger of a disconnect, and for a failed opening. */
  predicate TriggerErrorShown(t: seq<Event>, e: Thrown) {
    t != [] && t[|t| - 1].TriggerFailed? && t[|t| - 1].error == e
  }

  function AwaitWhy(error: Thrown, experiment: ExperimentName): NotProvenReason {
    if experiment.CancelOnProgress? && error.RunnerDeadline? then MissingProgress else UnexpectedOutcome
  }

  /** Why the fault of an experiment that ended with this history is not proven, if it is not. */
  function WhyOf(t: seq<Event>, experiment: ExperimentName): NotProvenReason {
    if t == [] then UnexpectedOutcome
    else match t[|t| - 1]
      case EndedEarly(_, _) => if experiment.CancelOnProgress? then MissingProgress else CompletedBeforeFault
      case Classified(_, _) =>
        if |t| >= 2 && t[|t| - 2].EndedEarly? then CompletedBeforeFault else UnexpectedOutcome
      case AwaitedInVain(_, error) => AwaitWhy(error, experiment)
      case WriteUnknown(_, error) => AwaitWhy(error, experiment)
      case CancelUnknown(_, cause) =>
        if experiment.CancelOnProgress? && !(cause.Some? && cause.value.RunnerAborted?) then WriteNotAccepted
        else UnexpectedOutcome
      case TriggerFailed(_, error) =>
        if error.RunnerDeadline? || error.RunnerAborted? then WriteNotAccepted else UnexpectedOutcome
      case _ => UnexpectedOutcome
  }

  /** The errors that a strategy lets through: the abort of an await, a failed trigger, a failed first opening. */
  predicate ErrorShown(t: seq<Event>, e: Thrown) {
    || (AwaitErrorShown(t, e) && e.RunnerAborted?)
    || (TriggerErrorShown(t, e) && e != GateFailed(true))
    || (t != [] && t[|t| - 1] == OpenRefused(e))
  }

  /** How the seed call reports an error of its awaits. */
  lemma SeedErrorIsShown(t: seq<Event>, experiment: ExperimentName, e: Thrown)
    requires AwaitErrorShown(t, e) && !e.RunnerAborted? && !experiment.CancelOnProgress?
    ensures ReasonShown(t, experiment, SeedPhase, if e.RunnerDeadline? then UnexpectedUnknown else TargetFailed)
    ensures WhyOf(t, experiment) == UnexpectedOutcome
  {
  }

  /** How the disconnect experiment reports an error of its trigger. */
  lemma TriggerErrorIsShown(t: seq<Event>, experiment: ExperimentName, e: Thrown)
    requires TriggerErrorShown(t, e)
    ensures if e == GateFailed(true) then ReasonShown(t, experiment, FaultPhase, FaultNotProven) else ErrorShown(t, e)
    ensures WhyOf(t, experiment)
            == if e.RunnerDeadline? || e.RunnerAborted? then WriteNotAccepted else UnexpectedOutcome
  {
  }

  /** How the seed call lets the abort of one of its awaits through. */
  lemma SeedAbortIsShown(t: seq<Event>, experiment: ExperimentName, e: Thrown)
    requires AwaitErrorShown(t, e) && e.RunnerAborted?
    ensures ErrorShown(t, e) && WhyOf(t, experiment) == UnexpectedOutcome
  {
  }

  /** A gate that could not be armed. */
  lemma NotArmedIsShown(t: seq<Event>, experiment: ExperimentName, phase: Phase)
    requires t != [] && t[|t| - 1].NotArmed?
    ensures ReasonShown(t, experiment, phase, TargetFailed) && WhyOf(t, experiment) == UnexpectedOutcome
  {
  }

  /** A withheld call that was cancelled and did not end as aborted, or whose end was not learned. */
  lemma UncancelledIsShown(t: seq<Event>, k: nat, id: string, experiment: ExperimentName)
    requires |t| == k + 3 && t[k].WriteAccepted? && t[k].requestId == id
    requires t[k + 1].CancelWritten? && t[k + 1].requestId == id
    requires EndedUncancelled(t[k + 2], id) || Denied(t[k + 2], ToComplete(id))
    ensures if t[k + 2].Classified? then
              && CancellationBroken(t, k, id, FaultPhase) && WhyOf(t, experiment) == UnexpectedOutcome
              && (!experiment.ParallelNewIds? ==> ReasonShown(t, experiment, FaultPhase, FaultNotProven))
            else CancellationBroken(t, k, id, SeedPhase) && AwaitErrorShown(t, t[k + 2].error)
  {
  }

  /** An observed call that did not end as its experiment needs. */
  lemma UnfitEndIsShown(t: seq<Event>, b: nat, attempt: Attempt, role: Role, experiment: ExperimentName)
    requires |t| == b + 2 && ReportedAt(t, b, attempt, role) && !experiment.ParallelNewIds?
    ensures ReasonShown(t, experiment, FaultPhase, FaultNotProven) && WhyOf(t, experiment) == UnexpectedOutcome
  {
  }

  /** A cancellation of which no write is known. */
  lemma UnknownCancelIsShown(t: seq<Event>)
    requires t != [] && t[|t| - 1].CancelUnknown?
    ensures var aborted := t[|t| - 1].cause.Some? && t[|t| - 1].cause.value.RunnerAborted?;
            && ReasonShown(t, CancelOnProgress, FaultPhase, if aborted then WasAborted else FaultNotProven)
            && WhyOf(t, CancelOnProgress) == if aborted then UnexpectedOutcome else WriteNotAccepted
  {
  }

  /** A parallel call that could not be sent: the observation of its peer adds nothing to the reason. */
  lemma PeerReasonShown(u: seq<Event>, t: seq<Event>, peer: Attempt, reason: Reason)
    requires ReasonShown(u, ParallelNewIds, FaultPhase, reason) && (u[|u| - 1].AbortSeen? || u[|u| - 1].NotBegun?)
    requires u <= t && |t| == |u| + 3 && !t[|u|].Classified? && ReportedAt(t, |u| + 1, peer, ParallelA)
    ensures ReasonShown(t, ParallelNewIds, FaultPhase, reason) && WhyOf(t, ParallelNewIds) == UnexpectedOutcome
  {
    assert t[|u| - 1] == u[|u| - 1];
  }

  // ---------------------------------------------------------------- faults claimed before they are proven

  predicate RetryClaimedAt(t: seq<Event>, b: nat, s: nat, runId: string, fault: Fault, attempts: seq<Attempt>,
                           oracle: Oracle) {
    && fault == RetryFault(RequestIdOf(runId, "seed"), RequestIdOf(runId, "retry"))
    && SeededAt(t, b, s, fault.firstId, attempts, oracle)
    && RetryMadeAt(t, b + 7, s, fault.retryId, attempts)
  }

  /** Seed call, restart and retry, as two experiments make them before they claim their fault. */
  predicate RestartClaimedAt(t: seq<Event>, b: nat, s: nat, seedId: string, retryId: string, process: Process,
                             attempts: seq<Attempt>, oracle: Oracle) {
    && b + 9 <= |t| && t[b + 8].Opened?
    && SeededAt(t, b, s, seedId, attempts, oracle)
    && RestartAt(t, b + 7, s, t[b + 8].session, process, oracle)
    && RetryMadeAt(t, b + 10, t[b + 8].session, retryId, attempts)
  }

  /**
   What a history must show for a fault to be named in a result that concludes nothing: all of its evidence, but
   for the outcome of the retry where the code names the fault before it looks at that.
   */
  predicate ClaimedAt(t: seq<Event>, b: nat, s: nat, runId: string, experiment: ExperimentName, fault: Fault,
                      attempts: seq<Attempt>, oracle: Oracle) {
    match experiment
    case SuppressCompletedResponse => SuppressedAt(t, b, s, s, runId, fault, attempts)
    case RetryNewId => RetryClaimedAt(t, b, s, runId, fault, attempts, oracle)
    case RpcIdReuse =>
      && fault.ReuseFault? && fault.reusedId == RequestIdOf(runId, "reused")
      && RestartClaimedAt(t, b, s, fault.reusedId, fault.reusedId, fault.oldProcess, attempts, oracle)
    case RestartAfterSuppressedResponse =>
      && fault.RestartFault? && fault.firstId == RequestIdOf(runId, "seed")
      && fault.retryId == RequestIdOf(runId, "retry")
      && RestartClaimedAt(t, b, s, fault.firstId, fault.retryId, fault.oldProcess, attempts, oracle)
    case ParallelNewIds => ParallelAt(t, b, s, s, runId, fault, attempts)
    case CancelOnProgress => CancelledAt(t, b, s, s, runId, fault, attempts)
    case DisconnectAfterRequestWriteAccepted =>
      && b + 7 <= |t| && t[b + 6].Opened?
      && DisconnectedAt(t, b, s, t[b + 6].session, runId, fault, attempts, oracle)
  }

  /** The fault of a result that concludes nothing is not proven, or the history shows what it names. */
  predicate FaultSupported(t: seq<Event>, k: nat, runId: string, experiment: ExperimentName, fault: Fault,
                           attempts: seq<Attempt>, oracle: Oracle) {
    || fault.NotProven?
    || (&& BaselineAt(t, k, oracle)
        && ClaimedAt(t, k + 3, t[k].session, runId, experiment, fault, attempts, oracle))
  }

  lemma RestartClaimStays(t: seq<Event>, u: seq<Event>, b: nat, s: nat, seedId: string, retryId: string,
                          process: Process, attempts: seq<Attempt>, oracle: Oracle)
    requires RestartClaimedAt(t, b, s, seedId, retryId, process, attempts, oracle) && t <= u
    ensures RestartClaimedAt(u, b, s, seedId, retryId, process, attempts, oracle)
  {
  }

  lemma ClaimStays(t: seq<Event>, u: seq<Event>, b: nat, s: nat, runId: string, experiment: ExperimentName,
                   fault: Fault, attempts: seq<Attempt>, oracle: Oracle)
    requires ClaimedAt(t, b, s, runId, experiment, fault, attempts, oracle) && t <= u
    ensures ClaimedAt(u, b, s, runId, experiment, fault, attempts, oracle)
  {
    hide RestartClaimedAt, SuppressedAt, ParallelAt, CancelledAt, DisconnectedAt;
    match experiment {
      case RetryNewId =>
      case RpcIdReuse =>
        RestartClaimStays(t, u, b, s, fault.reusedId, fault.reusedId, fault.oldProcess, attempts, oracle);
      case RestartAfterSuppressedResponse =>
        RestartClaimStays(t, u, b, s, fault.firstId, fault.retryId, fault.oldProcess, attempts, oracle);
      case DisconnectAfterRequestWriteAccepted =>
        FaultStays(t, u, b, s, t[b + 6].session, runId, experiment, fault, attempts, oracle);
      case _ =>
        FaultStays(t, u, b, s, s, runId, experiment, fault, attempts, oracle);
    }
  }

  lemma SupportStays(t: seq<Event>, u: seq<Event>, k: nat, runId: string, experiment: ExperimentName, fault: Fault,
                     attempts: seq<Attempt>, oracle: Oracle)
    requires FaultSupported(t, k, runId, experiment, fault, attempts, oracle) && t <= u
    ensures FaultSupported(u, k, runId, experiment, fault, attempts, oracle)
  {
    hide ClaimedAt;
    if !fault.NotProven? {
      ClaimStays(t, u, k + 3, t[k].session, runId, experiment, fault, attempts, oracle);
    }
  }

  // ---------------------------------------------------------------- which calls are reported

  /** The call that an attempt reports. */
  function CallOf(attempt: Attempt): Call {
    Call(attempt.requestId, attempt.completion, attempt.write)
  }

  /** The calls told after the earlier ones are those of the attempts, in order. */
  ghost predicate Reports(calls: seq<Call>, earlier: seq<Call>, attempts: seq<Attempt>) {
    && |calls| == |earlier| + |attempts| && earlier <= calls
    && forall i :: 0 <= i < |attempts| ==> calls[|earlier| + i] == CallOf(attempts[i])
  }

  /** One more call told, one more attempt reported. */
  lemma AttemptAdded(calls: seq<Call>, earlier: seq<Call>, attempts: seq<Attempt>, attempt: Attempt, runId: string,
                     experiment: ExperimentName)
    requires Reports(calls, earlier, attempts) && OwnAttempts(attempts, runId, experiment)
    requires OwnId(attempt.requestId, runId) && attempt.role == RoleOf(experiment, |attempts|)
    ensures Reports(calls + [CallOf(attempt)], earlier, attempts + [attempt])
    ensures OwnAttempts(attempts + [attempt], runId, experiment)
  {
    hide OwnId, CallOf, RoleOf;
  }

  // ---------------------------------------------------------------- what a result says of its history

  /** The only proven fault of an experiment is its own. */
  lemma FaultNamesExperiment(t: seq<Event>, b: nat, s: nat, s': nat, runId: string, experiment: ExperimentName,
                             fault: Fault, attempts: seq<Attempt>, oracle: Oracle)
    requires FaultAt(t, b, s, s', runId, experiment, fault, attempts, oracle)
    ensures KindOf(fault) == Some(experiment)
  {
  }

  /** The target was reset to its baseline and the process then confirmed terminated. */
  ghost predicate CleanedAt(t: seq<Event>, k: nat, oracle: Oracle, process: Process) {
    && k + 3 <= |t|
    && t[k].ResetCalled? && t[k].answer == Success(true)
    && SettledAt(t, k + 1, t[k].session) && t[k + 1].probe.value == oracle.baseline
    && t[k + 2] == Closed(t[k].session, Some(process)) && IsConfirmed(process)
  }

  /** The request id under which the seed call of an experiment is sent. */
  function SeedIdOf(runId: string, experiment: ExperimentName): string {
    RequestIdOf(runId, if experiment.RpcIdReuse? then "reused" else "seed")
  }

  /** The experiments that check the effect of the seed call before they go on. */
  predicate HasSeedCheck(experiment: ExperimentName) {
    experiment.RetryNewId? || experiment.RpcIdReuse? || experiment.RestartAfterSuppressedResponse?
  }

  function ProbeAt(t: seq<Event>, i: nat): Option<Probe> {
    if i < |t| && t[i].Settled? then Some(t[i].probe) else None
  }

  lemma ProbeStays(t: seq<Event>, u: seq<Event>, i: nat)
    requires ProbeAt(t, i).Some? && t <= u
    ensures ProbeAt(u, i) == ProbeAt(t, i)
  {
  }

  /** The probe that checks the seed call, in the experiments that have one. */
  function SeedProbe(t: seq<Event>, k: nat, experiment: ExperimentName): Option<Probe> {
    if HasSeedCheck(experiment) then ProbeAt(t, k + 9) else None
  }

  /** The probe that checks that the effect survived a restart, in the experiments that have one. */
  function BoundaryProbe(t: seq<Event>, k: nat, experiment: ExperimentName): Option<Probe> {
    match experiment
    case RpcIdReuse => ProbeAt(t, k + 12)
    case RestartAfterSuppressedResponse => ProbeAt(t, k + 12)
    case DisconnectAfterRequestWriteAccepted => ProbeAt(t, k + 10)
    case _ => None
  }

  /** The seed call did not have exactly its one effect, although its response was withheld. */
  predicate SeedViolatedAt(t: seq<Event>, k: nat, runId: string, experiment: ExperimentName, oracle: Oracle) {
    && HasSeedCheck(experiment)
    && BaselineAt(t, k, oracle)
    && SeedAt(t, k + 3, t[k].session, SeedIdOf(runId, experiment))
    && SettledAt(t, k + 9, t[k].session) && t[k + 9].probe.value != oracle.once
  }

  /** From k on the history shows the experiment proven, and the reported fault and attempts are its own. */
  ghost predicate Proven(t: seq<Event>, k: nat, scenario: Scenario, runId: string, experiment: ExperimentName,
                         fault: Fault, attempts: seq<Attempt>) {
    var last := k + LengthOf(experiment) - 1;
    && last < |t| && t[last].Settled?
    && BaselineAt(t, k, scenario.oracle)
    && FaultAt(t, k + 3, t[k].session, t[last].session, runId, experiment, fault, attempts, scenario.oracle)
  }

  lemma SeedIsNotBroken(t: seq<Event>, b: nat, s: nat, id: string, phase: Phase)
    requires SeedAt(t, b, s, id)
    ensures !SeedBroken(t, b, s, id, phase)
  {
  }

  lemma RestartIsNotBroken(t: seq<Event>, k: nat, s: nat, s': nat, process: Process, id: string, forced: bool,
                           attempts: seq<Attempt>, oracle: Oracle, phase: Phase)
    requires RestartAt(t, k, s, s', process, oracle) && RetryAt(t, k + 3, s', id, attempts)
    requires SettledAt(t, k + 6, s') && (forced ==> Forced(process))
    ensures !RestartBroken(t, k, s, id, forced, oracle, phase)
  {
  }

  lemma RetryIsNotBroken(t: seq<Event>, k: nat, s: nat, id: string, attempts: seq<Attempt>, phase: Phase)
    requires RetryAt(t, k, s, id, attempts) && SettledAt(t, k + 3, s)
    ensures !RetryBroken(t, k, s, id, phase)
  {
  }

  /** The same for what follows the baseline. */
  lemma FaultIsNotBroken(t: seq<Event>, b: nat, s: nat, s': nat, runId: string, experiment: ExperimentName,
                         fault: Fault, attempts: seq<Attempt>, oracle: Oracle, phase: Phase)
    requires FaultAt(t, b, s, s', runId, experiment, fault, attempts, oracle)
    requires SettledAt(t, b + LengthOf(experiment) - 4, s') && ExpectedValue(oracle, experiment).Some?
    ensures !FaultBroken(t, b, s, runId, experiment, oracle, phase)
  {
    hide SeedAt, SeedBroken, SeedReportedAt, RestartBroken, RestartAt, RetryAt;
    if experiment.SuppressCompletedResponse? || HasSeedCheck(experiment) {
      SeedIsNotBroken(t, b, s, SeedIdOf(runId, experiment), phase);
    }
    if experiment.RpcIdReuse? {
      RestartIsNotBroken(t, b + 7, s, s', fault.oldProcess, fault.reusedId, false, attempts, oracle, phase);
    } else if experiment.RestartAfterSuppressedResponse? {
      RestartIsNotBroken(t, b + 7, s, s', fault.oldProcess, fault.retryId, false, attempts, oracle, phase);
    } else if experiment.DisconnectAfterRequestWriteAccepted? {
      RestartIsNotBroken(t, b + 5, s, s', fault.oldProcess, fault.retryId, true, attempts, oracle, phase);
    } else if experiment.RetryNewId? {
      RetryIsNotBroken(t, b + 7, s, fault.retryId, attempts, phase);
    }
  }

  /** A script that was followed to its end did not break, and its seed call had its one effect. */
  lemma ProvenIsNotBroken(t: seq<Event>, k: nat, scenario: Scenario, runId: string, experiment: ExperimentName,
                          fault: Fault, attempts: seq<Attempt>)
    requires Proven(t, k, scenario, runId, experiment, fault, attempts)
    requires ExpectedValue(scenario.oracle, experiment).Some?
    ensures !Broken(t, k, runId, experiment, scenario.oracle)
  {
    hide FaultAt, FaultBroken;
    forall phase
      ensures !BrokenIn(t, k, runId, experiment, scenario.oracle, phase)
    {
      FaultIsNotBroken(t, k + 3, t[k].session, t[k + LengthOf(experiment) - 1].session, runId, experiment, fault,
                       attempts, scenario.oracle, phase);
    }
  }

  lemma SeedViolationIsNotBroken(t: seq<Event>, k: nat, runId: string, experiment: ExperimentName, oracle: Oracle)
    requires SeedViolatedAt(t, k, runId, experiment, oracle)
    ensures !Broken(t, k, runId, experiment, oracle)
  {
    hide SeedAt, SeedBroken;
    forall phase
      ensures !BrokenIn(t, k, runId, experiment, oracle, phase)
    {
      SeedIsNotBroken(t, k + 3, t[k].session, SeedIdOf(runId, experiment), phase);
    }
  }

  // ---------------------------------------------------------------- a script breaks in one phase only

  lemma SeedPhaseIsUnique(t: seq<Event>, k: nat, s: nat, id: string, one: Phase, other: Phase)
    requires SeedBroken(t, k, s, id, one) && SeedBroken(t, k, s, id, other)
    ensures one == other && !SeedAt(t, k, s, id)
  {
  }

  lemma RetryPhaseIsUnique(t: seq<Event>, k: nat, s: nat, id: string, one: Phase, other: Phase)
    requires RetryBroken(t, k, s, id, one) && RetryBroken(t, k, s, id, other)
    ensures one == other
  {
  }

  lemma RestartPhaseIsUnique(t: seq<Event>, k: nat, s: nat, id: string, forced: bool, oracle: Oracle, one: Phase,
                             other: Phase)
    requires RestartBroken(t, k, s, id, forced, oracle, one) && RestartBroken(t, k, s, id, forced, oracle, other)
    ensures one == other
  {
    hide RetryBroken;
    if !RestartLost(t, k, s, forced, oracle, one) && !RestartLost(t, k, s, forced, oracle, other) {
      RetryPhaseIsUnique(t, k + 3, t[k + 1].session, id, one, other);
    }
  }

  /** A seed call that is followed by its check: the phase in which one of them breaks. */
  lemma SeedCheckPhaseIsUnique(t: seq<Event>, b: nat, s: nat, id: string, oracle: Oracle, one: Phase, other: Phase)
    requires SeedCheckBroken(t, b, s, id, one)
    ensures SeedCheckBroken(t, b, s, id, other) ==> one == other
    ensures !SeedOnceAt(t, b, s, id, oracle)
  {
    hide SeedAt, SeedBroken;
    if SeedAt(t, b, s, id) {
      SeedIsNotBroken(t, b, s, id, one);
      SeedIsNotBroken(t, b, s, id, other);
    } else if SeedBroken(t, b, s, id, other) {
      SeedPhaseIsUnique(t, b, s, id, one, other);
    }
  }

  lemma SeedRestartPhaseIsUnique(t: seq<Event>, b: nat, s: nat, seedId: string, retryId: string, oracle: Oracle,
                                 one: Phase, other: Phase)
    requires SeedRestartBroken(t, b, s, seedId, retryId, oracle, one)
    requires SeedRestartBroken(t, b, s, seedId, retryId, oracle, other)
    ensures one == other
  {
    hide SeedCheckBroken, SeedOnceAt, RestartBroken;
    if SeedCheckBroken(t, b, s, seedId, one) {
      SeedCheckPhaseIsUnique(t, b, s, seedId, oracle, one, other);
    } else if SeedCheckBroken(t, b, s, seedId, other) {
      SeedCheckPhaseIsUnique(t, b, s, seedId, oracle, other, one);
    } else {
      RestartPhaseIsUnique(t, b + 7, s, retryId, false, oracle, one, other);
    }
  }

  lemma RetryNewIdPhaseIsUnique(t: seq<Event>, b: nat, s: nat, runId: string, oracle: Oracle, one: Phase, other: Phase)
    requires RetryNewIdBroken(t, b, s, runId, oracle, one) && RetryNewIdBroken(t, b, s, runId, oracle, other)
    ensures one == other
  {
    hide SeedCheckBroken, SeedOnceAt, RetryBroken;
    var seedId := RequestIdOf(runId, "seed");
    if SeedCheckBroken(t, b, s, seedId, one) {
      SeedCheckPhaseIsUnique(t, b, s, seedId, oracle, one, other);
    } else if SeedCheckBroken(t, b, s, seedId, other) {
      SeedCheckPhaseIsUnique(t, b, s, seedId, oracle, other, one);
    } else {
      RetryPhaseIsUnique(t, b + 7, s, RequestIdOf(runId, "retry"), one, other);
    }
  }

  lemma SuppressPhaseIsUnique(t: seq<Event>, b: nat, s: nat, runId: string, one: Phase, other: Phase)
    requires SuppressBroken(t, b, s, runId, one) && SuppressBroken(t, b, s, runId, other)
    ensures one == other
  {
    hide SeedAt, SeedBroken;
    var seedId := RequestIdOf(runId, "seed");
    if SeedAt(t, b, s, seedId) {
      SeedIsNotBroken(t, b, s, seedId, one);
      SeedIsNotBroken(t, b, s, seedId, other);
    } else {
      SeedPhaseIsUnique(t, b, s, seedId, one, other);
    }
  }

  lemma DisconnectPhaseIsUnique(t: seq<Event>, b: nat, s: nat, runId: string, oracle: Oracle, one: Phase, other: Phase)
    requires DisconnectAfterBroken(t, b, s, runId, oracle, one) && DisconnectAfterBroken(t, b, s, runId, oracle, other)
    ensures one == other
  {
    hide RestartBroken;
    var id := RequestIdOf(runId, "disconnect");
    if DisconnectAt(t, b, s, id) {
      RestartPhaseIsUnique(t, b + 5, s, RequestIdOf(runId, "retry"), true, oracle, one, other);
    }
  }

  /** The phase in which a history departs from a script is determined by the history. */
  lemma PhaseIsUnique(t: seq<Event>, k: nat, runId: string, experiment: ExperimentName, oracle: Oracle, one: Phase,
                      other: Phase)
    requires BrokenIn(t, k, runId, experiment, oracle, one) && BrokenIn(t, k, runId, experiment, oracle, other)
    ensures one == other
  {
    hide SuppressBroken, RetryNewIdBroken, SeedRestartBroken, DisconnectAfterBroken, RequestIdOf;
    if BaselineAt(t, k, oracle) {
      var b, s := k + 3, t[k].session;
      match experiment
      case SuppressCompletedResponse => SuppressPhaseIsUnique(t, b, s, runId, one, other);
      case RetryNewId => RetryNewIdPhaseIsUnique(t, b, s, runId, oracle, one, other);
      case RpcIdReuse =>
        var reusedId := RequestIdOf(runId, "reused");
        SeedRestartPhaseIsUnique(t, b, s, reusedId, reusedId, oracle, one, other);
      case RestartAfterSuppressedResponse =>
        SeedRestartPhaseIsUnique(t, b, s, RequestIdOf(runId, "seed"), RequestIdOf(runId, "retry"), oracle, one, other);
      case DisconnectAfterRequestWriteAccepted => DisconnectPhaseIsUnique(t, b, s, runId, oracle, one, other);
      case _ =>
    }
  }

  /** A sound probe of the final effect decides between pass and violation. */
  function Judge(expected: int, observed: int): Conclusion {
    if observed == expected then Pass(expected, observed) else Violation(expected, observed, FinalEffect)
  }

  /** The conclusion after a recheck found p: a pass that does not last becomes a violation. */
  function Recheck(passed: Conclusion, p: Probe): Conclusion
    requires passed.Pass?
  {
    if p.value == passed.expected then passed else Violation(passed.expected, p.value, FinalEffect)
  }

  lemma JudgedStaysJudged(t: seq<Event>, k: nat, s: nat, persistence: Persistence, judged: Conclusion, probe: Probe,
                          conclusion: Conclusion, final: Option<Probe>, cleanup: Cleanup)
    requires JudgedAs(t, k, s, persistence, judged, probe, conclusion, final, cleanup) && !judged.Inconclusive?
    ensures !conclusion.Inconclusive?
  {
  }

  /** The durable recheck: the session is confirmed closed, a fresh one opened and probed. */
  predicate RecheckedAt(t: seq<Event>, k: nat, s: nat) {
    k + 3 <= |t| && ClosedAt(t, k, s) && t[k + 1].Opened? && SettledAt(t, k + 2, t[k + 1].session)
  }

  /** The conclusion and the final probe that follow from a judgement and the cleanup after it. */
  ghost predicate JudgedAs(t: seq<Event>, k: nat, s: nat, persistence: Persistence, judged: Conclusion, probe: Probe,
                           conclusion: Conclusion, final: Option<Probe>, cleanup: Cleanup) {
    if persistence.External? && judged.Pass? && RecheckedAt(t, k, s) then
      && final == Some(t[k + 2].probe) && conclusion == Recheck(judged, t[k + 2].probe)
      && (cleanup.Clean? ==> |t| == k + 6)
    else
      && final == Some(probe) && conclusion == judged
      && !(persistence.External? && judged.Pass? && cleanup.Clean?)
  }

  /** A result that judges the final effect: its experiment is proven, and the probes decide. */
  ghost predicate SoundlyJudged(t: seq<Event>, k: nat, scenario: Scenario, result: ExperimentResult) {
    var last := k + LengthOf(result.experiment) - 1;
    var expected := ExpectedValue(scenario.oracle, result.experiment);
    && Proven(t, k, scenario, result.runId, result.experiment, result.fault, result.attempts)
    && result.baseline == Some(t[k + 2].probe) && expected.Some?
    && result.seed == SeedProbe(t, k, result.experiment) && result.boundary == BoundaryProbe(t, k, result.experiment)
    && JudgedAs(t, last + 1, t[last].session, scenario.persistence, Judge(expected.value, t[last].probe.value),
                t[last].probe, result.conclusion, result.final, result.cleanup)
  }

  /** What a result reports that ends at a misbehaving seed call. */
  predicate SeedViolationReported(t: seq<Event>, k: nat, result: ExperimentResult)
    requires k + 10 <= |t| && t[k + 2].Settled? && t[k + 9].Settled?
  {
    && result.fault == NotProven(UnexpectedOutcome)
    && result.baseline == Some(t[k + 2].probe) && result.seed == Some(t[k + 9].probe)
    && result.boundary.None? && result.final.None?
    && |result.attempts| == 1 && SeedReportedAt(t, k + 3, result.attempts[0])
  }

  /**
   What the stretch of the history from k to n, which belongs to one experiment, says about its reported result, for
   each of the conclusions.
   */
  ghost predicate Sound(t: seq<Event>, k: nat, n: nat, scenario: Scenario, result: ExperimentResult)
    requires k <= n <= |t|
  {
    var u := t[..n];
    && (match result.conclusion
        case Inconclusive(phase, reason) =>
          && BrokenIn(u, k, result.runId, result.experiment, scenario.oracle, phase)
          && (reason.TerminationUnproven? ==> SpawnOf(u).stuck)
          && FaultSupported(u, k, result.runId, result.experiment, result.fault, result.attempts, scenario.oracle)
        case Violation(expected, observed, SeedEffect) =>
          && SeedViolatedAt(u, k, result.runId, result.experiment, scenario.oracle)
          && expected == scenario.oracle.once && observed == u[k + 9].probe.value
          && SeedViolationReported(u, k, result)
        case _ => SoundlyJudged(u, k, scenario, result))
    && CleanupSound(u, k, scenario.oracle, result)
    && OwnAttempts(result.attempts, result.runId, result.experiment)
    && Reports(TallyOf(u).calls, TallyOf(t[..k]).calls, result.attempts)
  }

  /** The last session was confirmed closed, and right before that the target was not found at its baseline. */
  predicate CleanupMissed(t: seq<Event>, k: nat, oracle: Oracle, phase: CleanupPhase, left: Option<Process>) {
    && k + 2 <= |t| && t[|t| - 1].Closed? && ClosedAt(t, |t| - 1, t[|t| - 1].session) && left == t[|t| - 1].process
    && (if phase.ResetFailed? then ResetMissed(t[|t| - 2], t[|t| - 1].session)
        else ValueMissed(t, |t| - 2, t[|t| - 1].session, oracle.baseline) || UnsettledIn(t, k, t[|t| - 1].session))
  }

  predicate UnsettledIn(t: seq<Event>, k: nat, s: nat) {
    exists i :: k <= i < |t| && t[i].Unsettled? && t[i].session == s
  }

  /** The failure that a cleanup reports did happen; one that could not close anything is left to the automaton. */
  predicate CleanupFailedAt(t: seq<Event>, k: nat, oracle: Oracle, phase: CleanupPhase, left: Option<Process>) {
    match phase
    case CloseFailed => true
    case OpenFailed => k < |t| && t[|t| - 1].OpenRefused? && left.None?
    case _ => CleanupMissed(t, k, oracle, phase, left)
  }

  lemma CleanupFailedSince(t: seq<Event>, j: nat, k: nat, oracle: Oracle, phase: CleanupPhase, left: Option<Process>)
    requires k <= j && CleanupFailedAt(t, j, oracle, phase, left)
    ensures CleanupFailedAt(t, k, oracle, phase, left)
  {
  }

  /**
   A cleanup is clean only if it was the end of the history, unneeded only if nothing was opened, and failed only if
   the history shows that; it is always failed when a termination is unproven, and only then can the failure be one to
   close, which names the process that a close reported without confirmation.
   */
  ghost predicate CleanupSound(t: seq<Event>, k: nat, oracle: Oracle, result: ExperimentResult) {
    && (match result.cleanup
        case Clean(process) => 3 <= |t| && CleanedAt(t, |t| - 3, oracle, process)
        case NotNeeded =>
          && result.conclusion.Inconclusive?
          && forall i :: k <= i < |t| ==> (t[i].OpenRefused? && !Unproven(t[i])) || t[i] == AbortSeen
        case CleanupFailed(phase, left) =>
          && CleanupFailedAt(t, k, oracle, phase, left)
          && (phase.CloseFailed? ==> SpawnOf(t).stuck && left == SpawnOf(t).refused))
    && (SpawnOf(t).stuck ==> result.cleanup.CleanupFailed?)
  }
}
