/** The values the runner and the report exchange. */
module ExperimentTypes {
  import opened Common
  import opened ArgumentExpansion

  datatype ExperimentName =
    | SuppressCompletedResponse
    | RetryNewId
    | RpcIdReuse
    | RestartAfterSuppressedResponse
    | ParallelNewIds
    | CancelOnProgress
    | DisconnectAfterRequestWriteAccepted

  datatype Persistence = External | InProcess

  datatype Oracle = Oracle(baseline: int, once: int, cancelledEffect: Option<int>)

  datatype Scenario = Scenario(
    name: string,
    experiments: seq<ExperimentName>,
    persistence: Persistence,
    oracle: Oracle,
    invocations: InvocationSet)

  datatype Phase =
    BaselinePhase | BoundaryPhase | FaultPhase | ObservePhase | OpenPhase | ResetPhase | RetryPhase | SeedPhase

  datatype Reason =
    | WasAborted
    | FaultNotProven
    | ProbeFailed
    | ProbeUnsettled
    | TargetFailed
    | TerminationUnproven
    | UnexpectedUnknown

  datatype UnknownReason =
    AbortedReason | ClosedReason | InterruptedReason | ProtocolReason | TimeoutReason | TransportReason
    | UnexpectedReason

  datatype Completion = Succeeded | ReportedToolError | RemoteRejected(code: int) | Unknown(reason: UnknownReason)

  datatype Role = CancelledAttempt | DisconnectedAttempt | ParallelA | ParallelB | RetryAttempt | SeedAttempt

  datatype Attempt = Attempt(completion: Completion, role: Role, requestId: string, write: Option<Receipt>)

  datatype Termination = ByDisconnect | ByKill | Natural | ByStdinEof | ByTerminate

  datatype Process = Process(
    confirmed: bool, closeObserved: bool, exitObserved: bool, stdioDetached: bool, termination: Termination)

  predicate IsConfirmed(process: Process) {
    process.confirmed && process.closeObserved && process.exitObserved && !process.stdioDetached
  }

  /** A settled probe; `evidence` stands for the samples it carries. */
  datatype Probe = Probe(value: int, evidence: nat)

  datatype NotProvenReason = CompletedBeforeFault | MissingProgress | UnexpectedOutcome | WriteNotAccepted

  datatype Fault =
    | NotProven(why: NotProvenReason)
    | SuppressedFault(seedId: string)
    | RetryFault(firstId: string, retryId: string)
    | ReuseFault(oldProcess: Process, reusedId: string)
    | RestartFault(firstId: string, oldProcess: Process, retryId: string)
    | ParallelFault(firstId: string, secondId: string)
    | CancelFault(cancellationWrite: Receipt, progressToken: string, requestId: string)
    | DisconnectFault(firstId: string, oldProcess: Process, responseIntercepted: bool, retryId: string, write: Receipt)

  /** The experiment a fault belongs to. */
  function KindOf(fault: Fault): Option<ExperimentName> {
    match fault
    case NotProven(_) => None
    case SuppressedFault(_) => Some(SuppressCompletedResponse)
    case RetryFault(_, _) => Some(RetryNewId)
    case ReuseFault(_, _) => Some(RpcIdReuse)
    case RestartFault(_, _, _) => Some(RestartAfterSuppressedResponse)
    case ParallelFault(_, _) => Some(ParallelNewIds)
    case CancelFault(_, _, _) => Some(CancelOnProgress)
    case DisconnectFault(_, _, _, _, _) => Some(DisconnectAfterRequestWriteAccepted)
  }

  datatype ViolationPhase = FinalEffect | SeedEffect

  datatype Conclusion =
    | Pass(expected: int, observed: int)
    | Inconclusive(phase: Phase, reason: Reason)
    | Violation(expected: int, observed: int, at: ViolationPhase)

  datatype CleanupPhase = CloseFailed | OpenFailed | ResetFailed | SettleFailed

  datatype Cleanup = Clean(process: Process) | CleanupFailed(phase: CleanupPhase, left: Option<Process>) | NotNeeded

  datatype ExperimentResult = ExperimentResult(
    attempts: seq<Attempt>,
    baseline: Option<Probe>,
    boundary: Option<Probe>,
    cleanup: Cleanup,
    conclusion: Conclusion,
    experiment: ExperimentName,
    fault: Fault,
    final: Option<Probe>,
    runId: string,
    seed: Option<Probe>)

  datatype Counts = Counts(inconclusive: nat, passed: nat, violations: nat)

  datatype SuiteStatus = SuiteInconclusive | SuitePass | SuiteViolation

  datatype SuiteResult = SuiteResult(
    counts: Counts, halted: bool, results: seq<ExperimentResult>, scenario: string, status: SuiteStatus)
}
